/** The ChunkState methods: the walk of one stream, over a pool whose workers go on
    in between. Wherever the walk looks at shared state, any number of worker steps,
    with any outcomes, may have come first. */
module ChunkStates {
  import opened Types
  import opened Buzhash
  import opened Walk
  import opened Index
  import opened Pool
  import opened PoolSteps
  import PoolProofs
  import PoolResults

  /** What worker steps leave as it was, and the first failure, which stays. */
  ghost predicate Drift(p: Pool, q: Pool) {
    && Frame(p, q)
    && (p.fatal.Some? ==> q.fatal == p.fatal)
    && p.known <= q.known
    && (PoolProofs.Settled(p) <==> PoolProofs.Settled(q))
  }

  lemma TurnDrifts(hash: Hash, p: Pool, store: Store, w: nat, o: Outcome, q: Pool, store': Store)
    requires Inv(hash, p, store) && WorkerEnabled(p, w) && (q, store') == WorkerNext(hash, p, store, w, o)
    ensures Inv(hash, q, store') && Drift(p, q) && PoolRank(q) < PoolRank(p)
  {
    PoolProofs.WorkerInv(hash, p, store, w, o, q, store');
    WorkerTurns(hash, p, store, w, o);
    WorkerSettled(p, w, q);
    WorkerDescends(hash, p, store, w, o, q);
  }

  // ---- One Scan, as the walk sees it ----

  lemma ScanEnds(cfg: Config, start: Walk, seen: Bytes, rest: Bytes, w: Walk, roll: Roll)
    requires cfg.Valid() && start.Coupled(cfg) && w.Coupled(cfg)
    requires w == Feed(cfg, start, seen) && Scanned(cfg, w.roll, rest, roll, 0)
    ensures Feed(cfg, start, seen + rest) == w.(pending := w.pending + rest, roll := roll)
  {
    FeedConcat(cfg, start, seen, rest);
    FeedWhole(cfg, w, rest);
  }

  lemma FeedWhole(cfg: Config, w: Walk, data: Bytes)
    requires cfg.Valid() && w.Coupled(cfg) && Quiet(cfg, w.roll, data, |data|)
    ensures Feed(cfg, w, data) == w.(pending := w.pending + data, roll := Run(cfg, w.roll, data))
  {
    assert data[..|data|] == data;
    FeedQuiet(cfg, w, data, |data|);
  }

  lemma ScanBreaks(cfg: Config, start: Walk, seen: Bytes, rest: Bytes, w: Walk, roll: Roll, pos: nat)
    requires cfg.Valid() && start.Coupled(cfg) && w.Coupled(cfg) && 0 < pos <= |rest|
    requires w == Feed(cfg, start, seen) && Scanned(cfg, w.roll, rest, roll, pos)
    ensures roll.Valid(cfg) && roll.chunkSize == 0
    ensures Feed(cfg, start, seen + rest[..pos]) == Walk(w.chunks + [Fresh(w.pending + rest[..pos], Natural)], [], roll)
  {
    FeedBreak(cfg, w, rest, roll, pos);
    var next := Walk(w.chunks + [Fresh(w.pending + rest[..pos], Natural)], [], roll);
    FeedOn(cfg, start, seen, w, rest[..pos], next);
  }

  lemma FeedOn(cfg: Config, start: Walk, seen: Bytes, w: Walk, more: Bytes, next: Walk)
    requires cfg.Valid() && start.Coupled(cfg) && w.Coupled(cfg)
    requires w == Feed(cfg, start, seen) && next == Feed(cfg, w, more)
    ensures Feed(cfg, start, seen + more) == next
  {
    FeedConcat(cfg, start, seen, more);
  }

  /** The pool after a chunk was added to its index. */
  ghost predicate Extended(p: Pool, c: Chunk, q: Pool) {
    && (q.chunks, q.closed, q.abandoned, q.fatal, q.initial, q.known) ==
       (p.chunks + [c], p.closed, p.abandoned, p.fatal, p.initial, p.known)
    && |q.stat| == |q.chunks| && q.stat[|q.stat| - 1].AtWalk? == c.Fresh?
  }

  /** The pool after a job was queued. */
  ghost predicate Pushed(p: Pool, q: Pool) {
    (q.chunks, q.closed, q.abandoned, q.fatal, q.initial, q.known) ==
    (p.chunks, p.closed, p.abandoned, p.fatal, p.initial, p.known)
  }

  lemma NextBatch(slots: seq<Slot>, b: nat, k2: nat)
    requires BATCH * b < |slots| && k2 == Min(BATCH * b + BATCH, |slots|)
    ensures b < BatchCount(slots)
    ensures Batches(slots, b + 1) == Batches(slots, b) + [slots[BATCH * b..k2]]
  {
  }

  lemma Regroup(a: Bytes, b: Bytes, n: nat)
    requires n <= |b|
    ensures a + b[..n] + b[n..] == a + b
  {
  }

  /** Each chunk is on the server, from the previous index or sent by the pool. */
  ghost predicate AllStored(hash: Hash, chunks: seq<Chunk>, p: Pool, store: Store) {
    forall i :: 0 <= i < |chunks| ==>
      var d := chunks[i].Name(hash); d in store && (d in p.initial || d in p.sent)
  }

  lemma SuggestIs(cfg: Config, w: Walk, next: Walk)
    requires next == if cfg.min <= |w.pending| <= cfg.max then w.CutAndReset(Suggested) else w
    ensures cfg.Valid() && w.Coupled(cfg) ==> next == Apply(cfg, w, Suggest)
  {
  }

  lemma StillStored(hash: Hash, chunks: seq<Chunk>, p: Pool, q: Pool, store: Store)
    requires AllStored(hash, chunks, p, store) && q.initial == p.initial && q.sent == p.sent
    ensures AllStored(hash, chunks, q, store)
  {
  }

  /** What a pool that ended without a failure is good for. */
  lemma FinishedIndex(hash: Hash, sha: Hash, p: Pool, store: Store)
    requires PoolResults.Finished(hash, p, store)
    ensures Closed(Slots(p.entries), Checksum(sha, p.entries), p.pos, p.count) == ClosedOf(hash, sha, p.chunks)
    ensures AllStored(hash, p.chunks, p, store)
  {
    PoolResults.IndexIsSerial(hash, p, store);
    forall i | 0 <= i < |p.chunks|
      ensures p.chunks[i].Name(hash) in store && (p.chunks[i].Name(hash) in p.initial || p.chunks[i].Name(hash) in p.sent)
    {
      SerialIndexAt(hash, p.chunks, i);
      PoolResults.EveryChunkIsStored(hash, p, store, i);
    }
  }

  /** What the session's requests do to the server. */
  class Server {
    var store: Store
    var requested: seq<seq<Slot>>
    var closed: Option<Closed>
    var manifest: bool
    var finished: bool

    constructor (initial: Store)
      ensures store == initial && Untouched()
    {
      store := initial;
      requested := [];
      closed := None;
      manifest := false;
      finished := false;
    }

    /** No index request has been made, and nothing committed. */
    predicate Untouched()
      reads this
    {
      requested == [] && closed.None? && !manifest && !finished
    }

    /** AssignDynamicChunks with its retries: done, or failed without effect. */
    method Assign(batch: seq<Slot>) returns (ok: bool)
      modifies this`requested
      ensures requested == if ok then old(requested) + [batch] else old(requested)
    {
      ok := *;
      if ok {
        requested := requested + [batch];
      }
    }

    /** CloseDynamicIndex with its retries: the server closes what it was assigned. */
    method Close(csum: Digest, size: nat, count: nat) returns (ok: bool)
      modifies this`closed
      ensures closed == if ok then Some(Closed(Flatten(requested), csum, size, count)) else old(closed)
    {
      ok := *;
      if ok {
        closed := Some(Closed(Flatten(requested), csum, size, count));
      }
    }

    method UploadManifest() returns (ok: bool)
      modifies this`manifest
      ensures manifest == (ok || old(manifest))
    {
      ok := *;
      manifest := ok || manifest;
    }

    method Finish() returns (ok: bool)
      modifies this`finished
      ensures finished == (ok || old(finished))
    {
      ok := *;
      finished := ok || finished;
    }
  }

  class ChunkState {
    const hash: Hash
    const sha: Hash
    const server: Server
    const C: Chunker
    var pool: Pool       // entries, pos, chunkcount and what is shared with the workers
    var current: Bytes   // current_chunk
    var closes: nat      // how often the channel was closed

    ghost function Abs(): Walk
      reads this, C, C.window
    {
      Walk(pool.chunks, current, C.Abs())
    }

    ghost predicate Ready()
      reads this, server, C, C.window
    {
      && C.Valid()
      && Inv(hash, pool, server.store)
      && PoolProofs.Settled(pool)
      && closes == (if pool.closed then 1 else 0)
    }

    /** The index is closed as the serial one, and every chunk of it is on the server. */
    ghost predicate Sealed()
      reads this, server
    {
      && server.closed == Some(ClosedOf(hash, sha, pool.chunks))
      && AllStored(hash, pool.chunks, pool, server.store)
    }

    /** The channel may still be sent on. */
    predicate Open()
      reads this
    {
      !pool.closed && !pool.abandoned
    }

    /** The chunker has seen exactly the pending bytes, unless an upload has failed. */
    ghost predicate Valid()
      reads this, server, C, C.window
    {
      Ready() && Open() && (pool.fatal.None? ==> Abs().Coupled(C.cfg))
    }

    constructor (hash: Hash, sha: Hash, server: Server, initial: set<Digest>, table: seq<bv32>)
      requires |table| == 256 && initial <= server.store.Keys
      ensures Valid() && this.hash == hash && this.sha == sha && this.server == server
      ensures fresh(C) && fresh(C.window) && C.cfg == ForAverage(AVERAGE, table)
      ensures pool == Started(initial) && Abs() == Start(seq(WINDOW, _ => 0))
    {
      this.hash := hash;
      this.sha := sha;
      this.server := server;
      C := new Chunker.New(AVERAGE, table);
      pool := Started(initial);
      current := [];
      closes := 0;
      PoolProofs.StartInv(hash, initial, server.store);
    }

    // ---- The workers, seen from the walk ----

    /** One step of worker w. */
    method Turn(w: nat, o: Outcome)
      requires Inv(hash, pool, server.store) && WorkerEnabled(pool, w)
      modifies this`pool, server`store
      ensures Inv(hash, pool, server.store) && Drift(old(pool), pool)
      ensures PoolRank(pool) < PoolRank(old(pool))
    {
      var (q, store) := WorkerNext(hash, pool, server.store, w, o);
      TurnDrifts(hash, pool, server.store, w, o, q, store);
      pool := q;
      server.store := store;
    }

    /** Any number of worker steps. */
    method Meanwhile()
      requires Inv(hash, pool, server.store)
      modifies this`pool, server`store
      ensures Inv(hash, pool, server.store) && Drift(old(pool), pool)
    {
      var n: nat := *;
      while n > 0
        invariant Inv(hash, pool, server.store) && Drift(old(pool), pool)
      {
        var w: nat := *;
        var o: Outcome := *;
        if WorkerEnabled(pool, w) {
          Turn(w, o);
        }
        n := n - 1;
      }
    }

    /** The channel send blocks until a worker has made room. */
    method AwaitRoom()
      requires Inv(hash, pool, server.store) && !pool.closed
      modifies this`pool, server`store
      ensures Inv(hash, pool, server.store) && Drift(old(pool), pool) && CanPush(pool)
    {
      Meanwhile();
      while !CanPush(pool)
        invariant Inv(hash, pool, server.store) && Drift(old(pool), pool)
        decreases PoolRank(pool)
      {
        assert !pool.workers[0].Exited?;
        ghost var some := WorkerCanStep(hash, pool, server.store);
        var w: nat :| w < |pool.workers| && WorkerEnabled(pool, w);
        var o: Outcome := *;
        Turn(w, o);
      }
    }

    /** uploadWG.Wait: every worker drains the channel and ends. */
    method Wait()
      requires Inv(hash, pool, server.store) && pool.closed
      modifies this`pool, server`store
      ensures Inv(hash, pool, server.store) && Drift(old(pool), pool) && pool.AllExited()
      ensures old(pool).AllExited() ==> pool == old(pool) && server.store == old(server.store)
    {
      while !pool.AllExited()
        invariant Inv(hash, pool, server.store) && Drift(old(pool), pool)
        invariant old(pool).AllExited() ==> pool == old(pool) && server.store == old(server.store)
        decreases PoolRank(pool)
      {
        ghost var some := WorkerCanStep(hash, pool, server.store);
        var w: nat :| w < |pool.workers| && WorkerEnabled(pool, w);
        var o: Outcome := *;
        Turn(w, o);
      }
    }

    // ---- The walk ----

    /** Adds a chunk to the index. */
    method Add(c: Chunk)
      requires Inv(hash, pool, server.store) && PoolProofs.MayAppend(hash, pool, c)
      modifies this`pool
      ensures Inv(hash, pool, server.store) && Extended(old(pool), c, pool)
    {
      PoolProofs.AppendInv(hash, pool, server.store, c);
      pool := Append(pool, c);
    }

    /** The channel send. */
    method Send(data: Bytes)
      requires Inv(hash, pool, server.store) && PoolProofs.MayPush(pool, data)
      modifies this`pool
      ensures Inv(hash, pool, server.store) && PoolProofs.Settled(pool) && Pushed(old(pool), pool)
    {
      PoolProofs.PushInv(hash, pool, server.store, data);
      pool := Push(pool, data);
    }

    /** The first upload failure so far, if any. */
    method UploadErr() returns (err: Option<Error>)
      requires Inv(hash, pool, server.store)
      modifies this`pool, server`store
      ensures Inv(hash, pool, server.store) && Drift(old(pool), pool) && err == pool.fatal
    {
      Meanwhile();
      err := pool.fatal;
    }

    /** Adds a chunk to the index and sends its job. */
    method Enqueue(c: Chunk)
      requires Inv(hash, pool, server.store) && PoolProofs.MayAppend(hash, pool, c) && c.Fresh?
      modifies this`pool, server`store
      ensures Inv(hash, pool, server.store) && PoolProofs.Settled(pool)
      ensures pool.chunks == old(pool.chunks) + [c] && pool.initial == old(pool.initial)
      ensures pool.closed == old(pool.closed) && pool.abandoned == old(pool.abandoned)
    {
      Add(c);
      AwaitRoom();
      Send(c.data);
    }

    /** Adds the pending bytes to the index and hands them to the pool. */
    method Queue(cut: Cut) returns (err: Option<Error>)
      requires Ready() && Open() && current != []
      modifies this`pool, this`current, server`store
      ensures Ready() && Open()
      ensures err.Some? ==> err == pool.fatal && pool.chunks == old(pool.chunks) && current == old(current)
      ensures err.None? ==> pool.chunks == old(pool.chunks) + [Fresh(old(current), cut)] && current == []
      ensures old(pool.fatal).Some? ==> err == old(pool.fatal)
    {
      err := UploadErr();
      if err.Some? {
        return;
      }
      Enqueue(Fresh(current, cut));
      current := [];
    }

    /** Publishes the pending bytes as one chunk, if there are any. */
    method EmitCurrent(cut: Cut) returns (err: Option<Error>)
      requires Ready() && Open()
      modifies this`pool, this`current, server`store
      ensures Ready() && Open()
      ensures err.Some? ==> err == pool.fatal && pool.chunks == old(pool.chunks) && current == old(current)
      ensures err.None? ==> Abs() == old(Abs()).Cut(cut)
      ensures old(pool.fatal).Some? ==> pool.fatal == old(pool.fatal)
      ensures old(pool.fatal).Some? && old(current) != [] ==> err == old(pool.fatal)
    {
      err := None;
      if current != [] {
        err := Queue(cut);
      }
    }

    /** One Scan of what is left of a write that began in state start: takes in rest, up
        to the first break if there is one. */
    method ScanInto(rest: Bytes, ghost start: Walk, ghost seen: Bytes) returns (pos: nat)
      requires Ready() && Open() && start.Coupled(C.cfg)
      requires Abs() == Feed(C.cfg, start, seen)
      modifies this`current, C, C.window
      ensures Ready() && Open() && C.window == old(C.window) && pos <= |rest|
      ensures pos == 0 ==> Abs() == Feed(C.cfg, start, seen + rest)
      ensures pos > 0 ==>
        current != [] && Feed(C.cfg, start, seen + rest[..pos]) == Abs().Cut(Natural)
    {
      ghost var before := Abs();
      pos := C.Scan(rest);
      if pos == 0 {
        ScanEnds(C.cfg, start, seen, rest, before, C.Abs());
        current := current + rest;
      } else {
        ScanBreaks(C.cfg, start, seen, rest, before, C.Abs(), pos);
        current := current + rest[..pos];
      }
    }

    /** Takes in b: exactly the chunks and the rest that b's bytes make one by one,
        or the first upload failure. */
    method HandleData(b: Bytes) returns (err: Option<Error>)
      requires Valid()
      modifies this`pool, this`current, server`store, C, C.window
      ensures Valid() && C.window == old(C.window)
      ensures err.None? ==> old(Abs()).Coupled(C.cfg) && Abs() == Feed(C.cfg, old(Abs()), b)
      ensures err.Some? ==> err == pool.fatal
      ensures old(pool.fatal).Some? ==> err == old(pool.fatal) && Abs() == old(Abs())
    {
      err := UploadErr();
      if err.Some? {
        return;
      }
      ghost var start := Abs();
      ghost var seen: Bytes := [];
      var rest := b;
      while true
        invariant Ready() && Open() && C.window == old(C.window)
        invariant seen + rest == b && Abs() == Feed(C.cfg, start, seen)
        decreases |rest|
      {
        var chunkpos := ScanInto(rest, start, seen);
        if chunkpos == 0 {
          return None;
        }
        err := Queue(Natural);
        if err.Some? {
          return;
        }
        Regroup(seen, rest, chunkpos);
        seen := seen + rest[..chunkpos];
        rest := rest[chunkpos..];
      }
    }

    /** The chunker starts afresh after a cut. */
    method ResetChunker()
      requires Ready() && Open() && current == []
      modifies C
      ensures Valid() && C.window == old(C.window)
      ensures Abs() == old(Abs()).(roll := old(Abs()).roll.Reset())
    {
      C.Reset();
    }

    /** Cuts here, and has the chunker start afresh. */
    method CutHere(cut: Cut) returns (err: Option<Error>)
      requires Valid()
      modifies this`pool, this`current, server`store, C
      ensures Valid() && C.window == old(C.window)
      ensures err.None? ==> Abs() == old(Abs()).CutAndReset(cut)
      ensures err.None? ==> current == [] && (C.h, C.windowSize, C.chunkSize) == (0, 0, 0)
      ensures err.None? ==>
        pool.chunks == old(pool.chunks) + (if old(current) == [] then [] else [Fresh(old(current), cut)])
      ensures err.Some? ==> err == pool.fatal && pool.chunks == old(pool.chunks)
    {
      err := EmitCurrent(cut);
      if err.None? {
        ResetChunker();
      }
    }

    /** Cuts here when that gives a chunk of normal size, and does nothing otherwise. */
    method SuggestBoundary() returns (err: Option<Error>)
      requires Valid()
      modifies this`pool, this`current, server`store, C
      ensures Valid() && C.window == old(C.window)
      ensures err.None? && old(Abs()).Coupled(C.cfg) ==> Abs() == Apply(C.cfg, old(Abs()), Suggest)
      ensures err.None? && C.cfg.min <= |old(current)| <= C.cfg.max ==>
        && pool.chunks == old(pool.chunks) + [Fresh(old(current), Suggested)]
        && current == [] && (C.h, C.windowSize, C.chunkSize) == (0, 0, 0)
      ensures !(C.cfg.min <= |old(current)| <= C.cfg.max) ==>
        err.None? && pool == old(pool) && current == old(current) && C.Abs() == old(C.Abs())
      ensures err.Some? ==> err == pool.fatal && pool.chunks == old(pool.chunks)
    {
      ghost var before := Abs();
      if |current| < C.cfg.min || |current| > C.cfg.max {
        SuggestIs(C.cfg, before, before);
        return None;
      }
      err := CutHere(Suggested);
      if err.None? {
        SuggestIs(C.cfg, before, Abs());
      }
    }

    /** Cuts here, whatever the size. */
    method ForceBoundary() returns (err: Option<Error>)
      requires Valid()
      modifies this`pool, this`current, server`store, C
      ensures Valid() && C.window == old(C.window)
      ensures err.None? ==> Abs() == old(Abs()).CutAndReset(Forced)
      ensures err.None? ==> current == [] && (C.h, C.windowSize, C.chunkSize) == (0, 0, 0)
      ensures err.None? ==>
        pool.chunks == old(pool.chunks) + (if old(current) == [] then [] else [Fresh(old(current), Forced)])
      ensures err.Some? ==> err == pool.fatal && pool.chunks == old(pool.chunks)
    {
      err := CutHere(Forced);
    }

    /** InjectKnownChunk once nothing speaks against it but the list of known chunks. */
    method AddReused(digest: Digest, size: nat) returns (err: Option<Error>)
      requires Ready() && Open()
      modifies this`pool, server`store
      ensures Ready() && Open()
      ensures if err.None? then digest in pool.known && pool.chunks == old(pool.chunks) + [Reused(digest, size)]
              else err == Some(NotInPreviousIndex) && digest !in old(pool.known) && pool.chunks == old(pool.chunks)
      ensures old(pool.fatal).Some? ==> pool.fatal == old(pool.fatal)
    {
      Meanwhile();
      if digest !in pool.known {
        return Some(NotInPreviousIndex);
      }
      Add(Reused(digest, size));
      err := None;
    }

    /** Appends a chunk of the previous index without its data. */
    method InjectKnownChunk(digest: Digest, size: nat) returns (err: Option<Error>)
      requires Valid()
      modifies this`pool, server`store
      ensures Valid()
      ensures err.None? ==>
        && Legal(old(Abs()), Inject(digest, size)) && digest in pool.known
        && Abs() == old(Abs()).(chunks := old(pool.chunks) + [Reused(digest, size)])
      ensures err.Some? ==> Abs() == old(Abs())
      ensures err.Some? ==>
        || err == pool.fatal
        || (err == Some(BytesPending) && current != [])
        || (err == Some(NotInPreviousIndex) && current == [] && digest !in old(pool.known))
      ensures old(pool.fatal).Some? ==> err == old(pool.fatal)
    {
      err := UploadErr();
      if err.Some? {
        return;
      }
      if current != [] {
        return Some(BytesPending);
      }
      err := AddReused(digest, size);
    }

    // ---- The end ----

    /** closeOnce: the channel is closed by whoever comes first. */
    method CloseChannel()
      requires Ready()
      modifies this`pool, this`closes
      ensures Ready() && pool == Close(old(pool)) && closes == 1
    {
      if !pool.closed {
        PoolProofs.CloseInv(hash, pool, server.store);
        pool := Close(pool);
        closes := closes + 1;
      }
    }

    /** A backup that stops early ends the context and closes the channel. */
    method AbandonPool()
      requires Ready()
      modifies this`pool, this`closes
      ensures Ready() && pool == Abandon(old(pool)) && closes == 1
    {
      PoolProofs.AbandonInv(hash, pool, server.store);
      closes := if pool.closed then closes else closes + 1;
      pool := Abandon(pool);
    }

    method EndContext()
      requires Ready() && pool.AllExited()
      modifies this`pool
      ensures Ready() && pool == Cancel(old(pool))
    {
      PoolProofs.CancelInv(hash, pool, server.store);
      pool := Cancel(pool);
    }

    method Drain()
      requires Ready() && pool.closed
      modifies this`pool, server`store
      ensures Ready() && Drift(old(pool), pool) && pool.AllExited()
      ensures old(pool).AllExited() ==> pool == old(pool) && server.store == old(server.store)
    {
      Wait();
    }

    /** Ends the pool and waits for its workers. */
    method StopUploads(abandon: bool)
      requires Ready()
      modifies this`pool, this`closes, server`store
      ensures Ready() && pool.AllExited() && pool.cancelled && closes == 1
      ensures pool.chunks == old(pool.chunks) && pool.initial == old(pool.initial)
      ensures old(pool.fatal).Some? ==> pool.fatal == old(pool.fatal)
      ensures !abandon ==> pool.abandoned == old(pool.abandoned)
      ensures old(pool).AllExited() ==> pool.sent == old(pool.sent) && server.store == old(server.store)
    {
      if abandon {
        AbandonPool();
      } else {
        CloseChannel();
      }
      Drain();
      EndContext();
    }

    /** StopUploads on the way out of a backup: an index that was closed stays good. */
    method StopAtLast()
      requires Ready()
      modifies this`pool, this`closes, server`store
      ensures pool.AllExited() && closes == 1 && pool.chunks == old(pool.chunks)
      ensures old(pool).AllExited() && old(Sealed()) ==> Sealed()
    {
      ghost var before := pool;
      StopUploads(true);
      if before.AllExited() && old(Sealed()) {
        StillStored(hash, pool.chunks, before, pool, server.store);
      }
    }

    /** The index as PBS takes it, and what its checksum is taken over. */
    static method Listed(entries: seq<Entry>, width: nat) returns (slots: seq<Slot>, input: Bytes)
      ensures slots == Slots(entries) && input == ChecksumInput(entries, width)
    {
      slots, input := [], [];
      for i := 0 to |entries|
        invariant slots == Slots(entries[..i]) && input == ChecksumInput(entries[..i], width)
      {
        var e := entries[i];
        assert entries[..i + 1][..i] == entries[..i];
        input := input + (LittleEndian(e.End() % Power256(width), width) + e.digest);
        slots := slots + [Slot(e.digest, e.offset)];
      }
      assert entries[..|entries|] == entries;
    }

    method IndexList() returns (slots: seq<Slot>, csum: Digest)
      ensures slots == Slots(pool.entries) && csum == Checksum(sha, pool.entries)
    {
      var input;
      slots, input := Listed(pool.entries, WORD_BYTES);
      csum := sha(input);
    }

    /** Assigns the whole list in batches, then closes the index; a batch that fails
        after its retries leaves it open. */
    method CloseIndex() returns (err: Option<Error>)
      requires server.requested == [] && server.closed.None?
      modifies server`requested, server`closed
      ensures err.None? ==> server.requested == Batches(Slots(pool.entries), BatchCount(Slots(pool.entries)))
      ensures err.None? ==>
        server.closed == Some(Closed(Slots(pool.entries), Checksum(sha, pool.entries), pool.pos, pool.count))
      ensures err.Some? ==> server.closed.None? && (err.value.AssignFailed? || err.value.CloseFailed?)
      ensures err == Some(CloseFailed) ==> Flatten(server.requested) == Slots(pool.entries)
    {
      var slots, csum := IndexList();
      var k := 0;
      ghost var b: nat := 0;
      while k < |slots|
        invariant k == BATCH * b && b <= BatchCount(slots)
        invariant server.requested == Batches(slots, b) && server.closed.None?
      {
        var k2 := k + BATCH;
        if k2 > |slots| {
          k2 := |slots|;
        }
        NextBatch(slots, b, k2);
        var ok := server.Assign(slots[k..k2]);
        if !ok {
          return Some(AssignFailed);
        }
        k := k + BATCH;
        b := b + 1;
      }
      assert b == BatchCount(slots);
      AllBatches(slots);
      assert Flatten(server.requested) == slots;
      var ok := server.Close(csum, pool.pos, pool.count);
      err := if ok then None else Some(CloseFailed);
    }

    /** Waits for the uploads, and closes the index only if they all got there. */
    method Seal() returns (err: Option<Error>)
      requires Ready() && Open() && server.requested == [] && server.closed.None?
      modifies this`pool, this`closes, server`store, server`requested, server`closed
      ensures Ready() && pool.AllExited() && pool.chunks == old(pool.chunks) && pool.initial == old(pool.initial)
      ensures err.None? ==> Sealed()
      ensures err.Some? ==> server.closed.None?
      ensures old(pool.fatal).Some? ==> err == old(pool.fatal)
    {
      StopUploads(false);
      if pool.fatal.Some? {
        return pool.fatal;
      }
      FinishedIndex(hash, sha, pool, server.store);
      err := CloseIndex();
    }

    /** The end of the stream: the index is closed only when every chunk got there, and
        then it is the index of the stream as if each chunk had been hashed in turn. */
    method Eof() returns (err: Option<Error>)
      requires Valid() && server.requested == [] && server.closed.None?
      modifies this`pool, this`current, this`closes, server`store, server`requested, server`closed
      ensures Ready()
      ensures err.None? ==> pool.AllExited() && pool.chunks == old(Abs()).Cut(Last).chunks
      ensures err.None? ==> Sealed()
      ensures err.Some? ==> server.closed.None?
      ensures old(pool.fatal).Some? ==> err == old(pool.fatal)
    {
      err := EmitCurrent(Last);
      if err.Some? {
        return;
      }
      err := Seal();
    }
  }
}
