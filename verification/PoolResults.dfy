/** What a pool has done once its workers are gone. */
module PoolResults {
  import opened Types
  import opened Index
  import opened Pool
  import PoolProofs
  import PoolSteps

  /** Every worker is gone and nothing failed or was given up. */
  ghost predicate Finished(hash: Hash, p: Pool, store: Store) {
    Inv(hash, p, store) && p.AllExited() && p.Clean() && PoolProofs.Settled(p)
  }

  /** No job was skipped or lost on the way. */
  lemma NothingLeft(hash: Hash, p: Pool, store: Store)
    requires Finished(hash, p, store)
    ensures p.queue == [] && p.closed
    ensures forall i :: 0 <= i < |p.stat| ==> p.stat[i].Sent? || p.stat[i].Known? || p.stat[i].Injected?
  {
    assert p.workers[0].Exited?;
    forall i | 0 <= i < |p.stat| ensures p.stat[i].Sent? || p.stat[i].Known? || p.stat[i].Injected? {
      assert StatOk(p, i);
    }
  }

  lemma EntryIsSerial(hash: Hash, p: Pool, store: Store, i: nat)
    requires Finished(hash, p, store) && i < |p.entries|
    ensures p.entries[i] == Entry(Total(p.chunks[..i]), p.chunks[i].Size(), p.chunks[i].Name(hash)) && p.writes[i] == 1
  {
    NothingLeft(hash, p, store);
    assert !Unwritten(p, i);
  }

  /** The index comes out as if the walk had hashed each chunk: every digest was
      written once and is the chunk's own, and none is still zero. */
  lemma IndexIsSerial(hash: Hash, p: Pool, store: Store)
    requires Finished(hash, p, store)
    ensures p.entries == SerialIndex(hash, p.chunks)
    ensures forall i :: 0 <= i < |p.writes| ==> p.writes[i] == 1
    ensures p.pos == Total(p.chunks) && p.count == |p.chunks|
  {
    forall i | 0 <= i < |p.entries|
      ensures p.entries[i] == SerialIndex(hash, p.chunks)[i] && p.writes[i] == 1
    {
      SerialIndexAt(hash, p.chunks, i);
      EntryIsSerial(hash, p, store, i);
    }
  }

  /** An entry is written by nobody but the worker that holds its job, which writes the
      digest of the chunk and leaves the rest of the entry. */
  lemma WrittenByItsHolder(hash: Hash, p: Pool, store: Store, w: nat, o: Outcome, i: nat)
    requires Placed(p) && WorkerEnabled(p, w) && i < |p.entries|
    ensures var q := WorkerNext(hash, p, store, w, o).0;
      && |q.entries| == |p.entries| && |q.writes| == |p.writes|
      && ((q.entries[i], q.writes[i]) != (p.entries[i], p.writes[i]) ==>
           && p.workers[w].Hashing? && p.workers[w].job.idx == i && p.stat[i] == Held(w)
           && q.entries[i] == p.entries[i].(digest := p.chunks[i].Name(hash)) && q.writes[i] == p.writes[i] + 1)
  {
    PoolSteps.WorkerTurns(hash, p, store, w, o);
    if p.workers[w].Hashing? {
      PoolSteps.HashingIs(hash, p, store, w, o);
      assert JobOk(p, p.workers[w].job);
    }
  }

  /** Every chunk of the index is on the server: it was in the previous index, or this
      pool sent it, although digests are marked as known before they are sent. */
  lemma EveryChunkIsStored(hash: Hash, p: Pool, store: Store, i: nat)
    requires Finished(hash, p, store) && i < |p.entries|
    ensures p.entries[i].digest in p.initial || p.entries[i].digest in p.sent
    ensures p.entries[i].digest in store
  {
    NothingLeft(hash, p, store);
    IndexIsSerial(hash, p, store);
    SerialIndexAt(hash, p.chunks, i);
    var d := p.chunks[i].Name(hash);
    assert d in p.known by {
      if p.stat[i].Sent? {
        assert Marker(p, i);
      }
    }
    if d in p.marker {
      assert Marker(p, p.marker[d]);
    }
  }

  /** The digests of the chunks handed to the pool with their data. */
  function FreshNames(hash: Hash, chunks: seq<Chunk>): set<Digest> {
    set i | 0 <= i < |chunks| && chunks[i].Fresh? :: chunks[i].Name(hash)
  }

  lemma {:induction false} DistinctCount<T>(s: seq<T>)
    requires forall i, j :: 0 <= i < j < |s| ==> s[i] != s[j]
    ensures |set d | d in s| == |s|
  {
    if s != [] {
      var n := |s| - 1;
      var before := set d | d in s[..n];
      DistinctCount(s[..n]);
      assert s[n] !in before;
      assert (set d | d in s) == before + {s[n]};
    }
  }

  lemma SentAreTheNewNames(hash: Hash, p: Pool, store: Store)
    requires Finished(hash, p, store)
    ensures (set d | d in p.sent) == FreshNames(hash, p.chunks) - p.initial
  {
    NothingLeft(hash, p, store);
    forall d | d in p.sent ensures d in FreshNames(hash, p.chunks) - p.initial {
      var i := p.marker[d];
      assert StatOk(p, i);
      assert p.chunks[i].Fresh?;
    }
    forall d | d in FreshNames(hash, p.chunks) - p.initial ensures d in p.sent {
      var i :| 0 <= i < |p.chunks| && p.chunks[i].Fresh? && d == p.chunks[i].Name(hash);
      EveryChunkIsStored(hash, p, store, i);
      IndexIsSerial(hash, p, store);
      SerialIndexAt(hash, p.chunks, i);
    }
  }

  lemma {:induction false} EveryStatCounts(stat: seq<Stat>)
    requires forall i :: 0 <= i < |stat| ==> stat[i].Sent? || stat[i].Known? || stat[i].Injected?
    ensures CountSent(stat) + CountReused(stat) == |stat|
  {
    if stat != [] {
      EveryStatCounts(stat[..|stat| - 1]);
    }
  }

  /** The counts do not depend on the schedule: a chunk content outside the previous
      index is new once, however often and wherever it occurs, and sent exactly once;
      everything else is reused. */
  lemma CountsAreSettled(hash: Hash, p: Pool, store: Store)
    requires Finished(hash, p, store)
    ensures p.news == |FreshNames(hash, p.chunks) - p.initial| == |p.sent|
    ensures p.news + p.reused == |p.entries|
  {
    NothingLeft(hash, p, store);
    EveryStatCounts(p.stat);
    SentAreTheNewNames(hash, p, store);
    DistinctCount(p.sent);
  }

  function QueuedData(queue: seq<Job>): seq<Bytes> {
    if queue == [] then [] else QueuedData(queue[..|queue| - 1]) + [queue[|queue| - 1].data]
  }

  function HeldData(workers: seq<Worker>): seq<Bytes> {
    if workers == [] then []
    else
      var last := workers[|workers| - 1];
      HeldData(workers[..|workers| - 1]) + (if last.Busy() then [last.job.data] else [])
  }

  /** Every chunk buffer of a stream that somebody still has: the jobs in the channel,
      the workers' jobs, and what the walk has in current_chunk. */
  function Buffers(p: Pool, current: Bytes): seq<Bytes> {
    QueuedData(p.queue) + HeldData(p.workers) + [current]
  }

  lemma {:induction false} QueuedCount(queue: seq<Job>)
    ensures |QueuedData(queue)| == |queue|
  {
    if queue != [] {
      QueuedCount(queue[..|queue| - 1]);
    }
  }

  lemma {:induction false} HeldCount(workers: seq<Worker>)
    ensures |HeldData(workers)| <= |workers|
  {
    if workers != [] {
      HeldCount(workers[..|workers| - 1]);
    }
  }

  /** At most 25 buffers: 16 queued, 8 with the workers and the walk's own, however long
      the stream. */
  lemma FewBuffers(hash: Hash, p: Pool, store: Store, current: Bytes)
    requires Inv(hash, p, store)
    ensures |Buffers(p, current)| <= ROOM + WORKERS + 1 == 25
  {
    QueuedCount(p.queue);
    HeldCount(p.workers);
  }
}
