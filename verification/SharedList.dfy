/** Why each stream has its own list of known chunks: with one list for two streams, an
    index would be closed while a chunk it names is not on the server. */
module SharedList {
  import opened Types
  import opened Index
  import opened Pool
  import PoolSteps

  /** Two streams, as in a session, but with one list of known chunks; and the archive's
      index, once it is closed. */
  datatype Two = Two(archive: Pool, catalog: Pool, store: Store, index: Option<seq<Slot>>)

  function Shared(s: Two, archive: Pool, catalog: Pool, store: Store): Two {
    var known := archive.known + catalog.known;
    s.(archive := archive.(known := known), catalog := catalog.(known := known), store := store)
  }

  /** Eof once every worker has ended: the index is closed when no upload has failed. */
  predicate MayCloseIndex(s: Two) {
    s.archive.closed && s.archive.AllExited() && s.archive.fatal.None?
  }

  function CloseIndex(s: Two): Two {
    s.(index := Some(Slots(s.archive.entries)))
  }

  /** A worker's step in either pool, seen by both; or the walk hands a pool a chunk,
      closes its channel, or closes the archive's index. */
  ghost predicate CanStep(hash: Hash, s: Two, t: Two) {
    || (exists w, o :: WorkerEnabled(s.archive, w) &&
         var (q, store) := WorkerNext(hash, s.archive, s.store, w, o); t == Shared(s, q, s.catalog, store))
    || (exists w, o :: WorkerEnabled(s.catalog, w) &&
         var (q, store) := WorkerNext(hash, s.catalog, s.store, w, o); t == Shared(s, s.archive, q, store))
    || (exists data: Bytes :: CanPush(s.archive) && t == Shared(s, Queued(s.archive, data), s.catalog, s.store))
    || (exists data: Bytes :: CanPush(s.catalog) && t == Shared(s, s.archive, Queued(s.catalog, data), s.store))
    || t == Shared(s, Close(s.archive), s.catalog, s.store)
    || (MayCloseIndex(s) && t == CloseIndex(s))
  }

  /** queue */
  function Queued(p: Pool, data: Bytes): Pool {
    var q := Append(p, Fresh(data, Natural));
    Push(q, data)
  }

  ghost predicate Linked<S(!new)>(can: (S, S) -> bool, tr: seq<S>) {
    tr != [] && forall i, j :: 0 <= i && j == i + 1 < |tr| ==> can(tr[i], tr[j])
  }

  lemma LinkedOn<S(!new)>(can: (S, S) -> bool, one: seq<S>, two: seq<S>)
    requires Linked(can, one) && Linked(can, two) && one[|one| - 1] == two[0]
    ensures Linked(can, one + two[1..])
    ensures (one + two[1..])[0] == one[0] && (one + two[1..])[|one + two[1..]| - 1] == two[|two| - 1]
  {
    var all := one + two[1..];
    forall i, j | 0 <= i && j == i + 1 < |all| ensures can(all[i], all[j]) {
      var k := i - (|one| - 1);
      assert if k < 0 then (all[i], all[j]) == (one[i], one[j]) else (all[i], all[j]) == (two[k], two[k + 1]);
    }
  }

  ghost function Can(hash: Hash): (Two, Two) -> bool {
    (s: Two, t: Two) => CanStep(hash, s, t)
  }

  /** Some steps of the two, one after the other. */
  ghost predicate Steps(hash: Hash, tr: seq<Two>) {
    Linked(Can(hash), tr)
  }

  lemma Chained(hash: Hash, one: seq<Two>, two: seq<Two>)
    requires Steps(hash, one) && Steps(hash, two) && one[|one| - 1] == two[0]
    ensures Steps(hash, one + two[1..])
    ensures (one + two[1..])[0] == one[0] && (one + two[1..])[|one + two[1..]| - 1] == two[|two| - 1]
  {
    LinkedOn(Can(hash), one, two);
  }

  lemma ArchiveStep(hash: Hash, s: Two, w: nat) returns (t: Two)
    requires WorkerEnabled(s.archive, w)
    ensures Steps(hash, [s, t])
    ensures t == Shared(s, WorkerNext(hash, s.archive, s.store, w, Fine).0, s.catalog, WorkerNext(hash, s.archive, s.store, w, Fine).1)
  {
    t := Shared(s, WorkerNext(hash, s.archive, s.store, w, Fine).0, s.catalog, WorkerNext(hash, s.archive, s.store, w, Fine).1);
  }

  lemma CatalogStep(hash: Hash, s: Two, w: nat) returns (t: Two)
    requires WorkerEnabled(s.catalog, w)
    ensures Steps(hash, [s, t])
    ensures t == Shared(s, s.archive, WorkerNext(hash, s.catalog, s.store, w, Fine).0, WorkerNext(hash, s.catalog, s.store, w, Fine).1)
  {
    t := Shared(s, s.archive, WorkerNext(hash, s.catalog, s.store, w, Fine).0, WorkerNext(hash, s.catalog, s.store, w, Fine).1);
  }

  /** Nothing has gone wrong in a pool, and its first worker waits for the only job. */
  ghost predicate Calm(p: Pool) {
    !p.cancelled && p.fatal.None? && !p.abandoned && |p.workers| == WORKERS && p.queue == [] && p.workers[0].Idle?
  }

  lemma CatalogHashes(hash: Hash, s: Two, data: Bytes) returns (tr: seq<Two>)
    requires Calm(s.catalog) && s.archive.known == s.catalog.known
    ensures Steps(hash, tr) && tr[0] == s
    ensures var t := tr[|tr| - 1];
            && t.store == s.store && t.archive == s.archive && t.catalog.known == s.catalog.known
            && |t.catalog.workers| == WORKERS && t.catalog.workers[0].Marking? && t.catalog.workers[0].job.data == data
  {
    var s1 := Shared(s, s.archive, Queued(s.catalog, data), s.store);
    var job := Job(|s.catalog.entries|, data);
    assert s1.catalog.queue == [job] && CanStep(hash, s, s1);
    var s2 := CatalogStep(hash, s1, 0);
    PoolSteps.IdleIs(hash, s1.catalog, s1.store, 0, Fine);
    assert s2.catalog.workers[0] == Took(job);
    var s3 := CatalogStep(hash, s2, 0);
    PoolSteps.TookIs(hash, s2.catalog, s2.store, 0, Fine);
    assert s3.catalog.workers[0] == Hashing(job);
    var s4 := CatalogStep(hash, s3, 0);
    PoolSteps.HashingIs(hash, s3.catalog, s3.store, 0, Fine);
    tr := [s, s1, s2, s3, s4];
  }

  /** The catalog's pool marks a chunk that it has not begun to send. */
  lemma CatalogMarks(hash: Hash, s: Two, data: Bytes) returns (tr: seq<Two>)
    requires Calm(s.catalog) && hash(data) !in s.catalog.known && s.archive.known == s.catalog.known
    ensures Steps(hash, tr) && tr[0] == s
    ensures var t := tr[|tr| - 1];
            t.store == s.store && hash(data) in t.archive.known && t.archive == s.archive.(known := t.archive.known)
  {
    var hashes := CatalogHashes(hash, s, data);
    var m := hashes[|hashes| - 1];
    var t := CatalogStep(hash, m, 0);
    PoolSteps.MarkingIs(hash, m.catalog, m.store, 0, Fine);
    assert Steps(hash, [m, t]);
    Chained(hash, hashes, [m, t]);
    tr := hashes + [m, t][1..];
  }

  /** One job of the archive's pool, whose digest is in its entry, is at its GetOrSet. */
  ghost predicate AtMark(s: Two, job: Job, digest: Digest) {
    var p := s.archive;
    && !p.cancelled && p.fatal.None? && !p.abandoned && |p.workers| == WORKERS && p.queue == []
    && p.workers[0] == Marking(job) && |p.entries| == 1 && p.entries[0].digest == digest && p.entries[0].offset == 0
  }

  /** The archive's pool is handed the same chunk. */
  lemma ArchiveHashes(hash: Hash, s: Two, data: Bytes) returns (tr: seq<Two>)
    requires Calm(s.archive) && s.archive.pos == 0 && s.archive.entries == [] && s.archive.stat == [] && s.archive.writes == []
    ensures Steps(hash, tr) && tr[0] == s
    ensures var t := tr[|tr| - 1];
            && t.store == s.store && s.archive.known <= t.archive.known && AtMark(t, Job(0, data), hash(data))
            && t.archive.workers == s.archive.workers[0 := Marking(Job(0, data))]
  {
    var s1 := Shared(s, Queued(s.archive, data), s.catalog, s.store);
    var job := Job(0, data);
    assert s1.archive.queue == [job] && CanStep(hash, s, s1);
    var s2 := ArchiveStep(hash, s1, 0);
    PoolSteps.IdleIs(hash, s1.archive, s1.store, 0, Fine);
    assert s2.archive.workers[0] == Took(job);
    var s3 := ArchiveStep(hash, s2, 0);
    PoolSteps.TookIs(hash, s2.archive, s2.store, 0, Fine);
    assert s3.archive.workers[0] == Hashing(job);
    var s4 := ArchiveStep(hash, s3, 0);
    PoolSteps.HashingIs(hash, s3.archive, s3.store, 0, Fine);
    tr := [s, s1, s2, s3, s4];
  }

  /** It finds the chunk known, and is done with it. */
  lemma ArchiveReuses(hash: Hash, s: Two, data: Bytes) returns (tr: seq<Two>)
    requires AtMark(s, Job(0, data), hash(data)) && hash(data) in s.archive.known
    ensures Steps(hash, tr) && tr[0] == s
    ensures var t := tr[|tr| - 1];
            && t.store == s.store && Calm(t.archive) && t.archive.workers == s.archive.workers[0 := Idle]
            && t.archive.entries == s.archive.entries
  {
    var s1 := ArchiveStep(hash, s, 0);
    PoolSteps.MarkingIs(hash, s.archive, s.store, 0, Fine);
    assert s1.archive.workers[0] == Reusing(Job(0, data));
    var s2 := ArchiveStep(hash, s1, 0);
    PoolSteps.ReusingIs(hash, s1.archive, s1.store, 0, Fine);
    tr := [s, s1, s2];
  }

  /** The first n workers of the archive's pool are gone, the others idle. */
  ghost predicate Leaving(p: Pool, n: nat) {
    && |p.workers| == WORKERS && n <= WORKERS && p.closed && p.queue == []
    && (forall w :: 0 <= w < n ==> p.workers[w].Exited?)
    && (forall w :: n <= w < WORKERS ==> p.workers[w].Idle?)
  }

  /** Its channel closed and empty, the archive's pool comes to its end. */
  lemma {:induction false} ArchiveEnds(hash: Hash, s: Two, n: nat) returns (tr: seq<Two>)
    requires Leaving(s.archive, n) && s.archive.fatal.None? && !s.archive.abandoned
    ensures Steps(hash, tr) && tr[0] == s
    ensures var t := tr[|tr| - 1];
            MayCloseIndex(t) && t.archive.entries == s.archive.entries && t.store == s.store
    decreases WORKERS - n
  {
    if n == WORKERS {
      tr := [s];
    } else {
      var t := ArchiveStep(hash, s, n);
      PoolSteps.IdleIs(hash, s.archive, s.store, n, Fine);
      assert Leaving(t.archive, n + 1);
      var rest := ArchiveEnds(hash, t, n + 1);
      assert Steps(hash, [s, t]);
      Chained(hash, [s, t], rest);
      tr := [s, t] + rest[1..];
    }
  }

  lemma ArchiveCloses(hash: Hash, s: Two) returns (tr: seq<Two>)
    requires Calm(s.archive) && forall w :: 0 <= w < WORKERS ==> s.archive.workers[w].Idle?
    ensures Steps(hash, tr) && tr[0] == s
    ensures var t := tr[|tr| - 1];
            MayCloseIndex(t) && t.archive.entries == s.archive.entries && t.store == s.store
  {
    var t := Shared(s, Close(s.archive), s.catalog, s.store);
    var rest := ArchiveEnds(hash, t, 0);
    assert Steps(hash, [s, t]);
    Chained(hash, [s, t], rest);
    tr := [s, t] + rest[1..];
  }

  /** With one list, whatever the chunk: a run that closes the archive's index while the
      chunk it names is not on the server. */
  lemma OneListIsUnsafe(hash: Hash, data: Bytes) returns (tr: seq<Two>)
    ensures Steps(hash, tr) && tr[0] == Two(Started({}), Started({}), map[], None)
    ensures var t := tr[|tr| - 1];
            t.index == Some([Slot(hash(data), 0)]) && hash(data) !in t.store
  {
    var s := Two(Started({}), Started({}), map[], None);
    var marks := CatalogMarks(hash, s, data);
    var hashes := ArchiveHashes(hash, marks[|marks| - 1], data);
    var reuses := ArchiveReuses(hash, hashes[|hashes| - 1], data);
    var closes := ArchiveCloses(hash, reuses[|reuses| - 1]);
    var last := closes[|closes| - 1];
    assert Slots(last.archive.entries) == [Slot(hash(data), 0)];
    assert Steps(hash, [last, CloseIndex(last)]);
    Chained(hash, marks, hashes);
    Chained(hash, reuses, closes);
    Chained(hash, marks + hashes[1..], reuses + closes[1..]);
    Chained(hash, marks + hashes[1..] + (reuses + closes[1..])[1..], [last, CloseIndex(last)]);
    tr := marks + hashes[1..] + (reuses + closes[1..])[1..] + [last, CloseIndex(last)][1..];
  }
}
