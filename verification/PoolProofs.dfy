/** Every step of the pool keeps its invariant. */
module PoolProofs {
  import opened Types
  import opened Pool
  import opened PoolSteps

  /** The entries and the queue are untouched. */
  predicate SameIndex(p: Pool, q: Pool) {
    && q.queue == p.queue && q.taken == p.taken && q.count == p.count
    && q.chunks == p.chunks && q.entries == p.entries && q.writes == p.writes && q.pos == p.pos
  }

  /** The lists of known and sent digests are untouched. */
  predicate SameMarks(p: Pool, q: Pool) {
    q.initial == p.initial && q.known == p.known && q.marker == p.marker
  }

  // ---- Moving a worker on with the same job ----

  lemma MovePlaced(p: Pool, w: nat, to: Worker, q: Pool)
    requires Placed(p) && w < WORKERS && SameIndex(p, q)
    requires p.workers[w].Busy() && to.Busy() && to.job == p.workers[w].job
    requires q.workers == p.workers[w := to] && q.stat == p.stat
    ensures Placed(q)
  {
    forall i | 0 <= i < |q.stat| ensures StatOk(q, i) {
      assert StatOk(p, i);
    }
  }

  lemma MoveDigests(hash: Hash, p: Pool, w: nat, to: Worker, q: Pool)
    requires Placed(p) && w < WORKERS && Digests(hash, p) && SameIndex(p, q)
    requires p.workers[w].Busy() && to.Busy() && to.job == p.workers[w].job
    requires (to.Took? || to.Hashing?) == (p.workers[w].Took? || p.workers[w].Hashing?)
    requires q.workers == p.workers[w := to] && q.stat == p.stat
    ensures Shape(q) && Digests(hash, q)
  {
  }

  lemma MoveMarks(hash: Hash, p: Pool, w: nat, to: Worker, q: Pool)
    requires Placed(p) && w < WORKERS && Marks(hash, p) && SameIndex(p, q) && SameMarks(p, q)
    requires p.workers[w].Busy() && to.Busy() && to.job == p.workers[w].job
    requires to.Marked() == p.workers[w].Marked()
    requires q.workers == p.workers[w := to] && q.stat == p.stat
    ensures Shape(q) && Marks(hash, q)
  {
  }

  /** Worker w may move on to another point with the job it has. */
  ghost predicate MayMove(hash: Hash, p: Pool, w: nat, to: Worker, store': Store)
    requires Shape(p)
  {
    && w < WORKERS && p.workers[w].Busy() && to.Busy() && to.job == p.workers[w].job
    && (to.Took? || to.Hashing?) == (p.workers[w].Took? || p.workers[w].Hashing?)
    && to.Marked() == p.workers[w].Marked()
    && (p.workers[w].Took? ==> !p.cancelled)
    && (to.Reusing? ==> hash(to.job.data) in p.known)
    && (to.Ending? ==> p.fatal.Some?)
    && (to.Retrying? || to.Uploading? ==> to.tries < MAX_ATTEMPTS)
    && (to.Stored? ==> hash(to.job.data) in store')
  }

  lemma MoveFlow(hash: Hash, p: Pool, store: Store, w: nat, to: Worker, store': Store)
    requires Placed(p) && Flow(hash, p, store) && MayMove(hash, p, w, to, store')
    requires store.Keys <= store'.Keys
    ensures Shape(Move(p, w, to)) && Flow(hash, Move(p, w, to), store')
  {
  }

  lemma MoveInv(hash: Hash, p: Pool, store: Store, w: nat, to: Worker, store': Store)
    requires Inv(hash, p, store) && MayMove(hash, p, w, to, store')
    requires store.Keys <= store'.Keys
    ensures Inv(hash, Move(p, w, to), store')
  {
    var q := Move(p, w, to);
    MovePlaced(p, w, to, q);
    MoveDigests(hash, p, w, to, q);
    MoveMarks(hash, p, w, to, q);
    MoveFlow(hash, p, store, w, to, store');
  }

  // ---- Receiving a job, and leaving ----

  lemma ReceivePlaced(p: Pool, w: nat)
    requires Placed(p) && w < WORKERS && p.workers[w].Idle? && p.queue != []
    ensures Placed(Receive(p, w))
  {
    var q := Receive(p, w);
    forall i | 0 <= i < |q.stat| ensures StatOk(q, i) {
      assert StatOk(p, i);
    }
  }

  /** The received entry changes its place only: nothing was written or marked for it. */
  lemma ReceiveFrame(hash: Hash, p: Pool, w: nat)
    requires Placed(p) && w < WORKERS && p.workers[w].Idle? && p.queue != []
    requires Digests(hash, p) && Marks(hash, p)
    ensures Digests(hash, Receive(p, w)) && Marks(hash, Receive(p, w))
  {
    var q := Receive(p, w);
    forall i | 0 <= i < |q.stat|
      ensures Unwritten(q, i) == Unwritten(p, i) && Marker(q, i) == Marker(p, i)
    {
      assert StatOk(p, i);
    }
  }

  lemma ReceiveFlow(hash: Hash, p: Pool, store: Store, w: nat)
    requires Placed(p) && Flow(hash, p, store) && Marks(hash, p)
    requires w < WORKERS && p.workers[w].Idle? && p.queue != []
    ensures Shape(Receive(p, w)) && Flow(hash, Receive(p, w), store)
  {
    PutCounts(p.stat, p.queue[0].idx, Held(w));
  }

  lemma ReceiveInv(hash: Hash, p: Pool, store: Store, w: nat)
    requires Inv(hash, p, store) && w < WORKERS && p.workers[w].Idle? && p.queue != []
    ensures Inv(hash, Receive(p, w), store)
  {
    ReceivePlaced(p, w);
    ReceiveFrame(hash, p, w);
    ReceiveFlow(hash, p, store, w);
  }

  lemma ExitPlaced(hash: Hash, p: Pool, w: nat)
    requires Placed(p) && Digests(hash, p) && Marks(hash, p)
    requires w < WORKERS && p.workers[w].Idle?
    ensures var q := Move(p, w, Exited); Placed(q) && Digests(hash, q) && Marks(hash, q)
  {
    var q := Move(p, w, Exited);
    forall i | 0 <= i < |q.stat|
      ensures StatOk(q, i) && Unwritten(q, i) == Unwritten(p, i) && Marker(q, i) == Marker(p, i)
    {
      assert StatOk(p, i);
    }
  }

  lemma ExitInv(hash: Hash, p: Pool, store: Store, w: nat)
    requires Inv(hash, p, store) && w < WORKERS && p.workers[w].Idle? && p.queue == [] && p.closed
    ensures Inv(hash, Move(p, w, Exited), store)
  {
    ExitPlaced(hash, p, w);
  }

  // ---- Counting over the entries' history ----

  function One(b: bool): nat {
    if b then 1 else 0
  }

  /** Changing one entry's history changes the counts by that entry alone. */
  lemma {:induction false} PutCounts(stat: seq<Stat>, i: nat, v: Stat)
    requires i < |stat|
    ensures CountSent(stat[i := v]) + One(stat[i].Sent?) == CountSent(stat) + One(v.Sent?)
    ensures CountReused(stat[i := v]) + One(stat[i].Known? || stat[i].Injected?) ==
            CountReused(stat) + One(v.Known? || v.Injected?)
  {
    var n := |stat| - 1;
    if i < n {
      PutCounts(stat[..n], i, v);
      assert stat[i := v][..n] == stat[..n][i := v];
    } else {
      assert stat[i := v][..n] == stat[..n];
    }
  }

  // ---- Finishing a job ----

  /** Worker w has put down its job, whose entry ended as stat says. */
  ghost predicate JobEnds(p: Pool, w: nat, stat: Stat, q: Pool)
    requires Placed(p)
  {
    && w < WORKERS && p.workers[w].Busy()
    && (stat.Sent? || stat.Known? || stat.Skipped? || stat.Lost?)
    && (p.workers[w].Took? <==> stat.Skipped?) && !p.workers[w].Hashing?
    && (p.workers[w].Marked() <==> stat.Sent? || stat.Lost?)
    && SameIndex(p, q) && SameMarks(p, q)
    && q.workers == p.workers[w := Idle] && q.stat == p.stat[p.workers[w].job.idx := stat]
  }

  lemma FinishedPlaced(p: Pool, w: nat, stat: Stat, q: Pool)
    requires Placed(p) && JobEnds(p, w, stat, q)
    ensures Placed(q)
  {
    forall i | 0 <= i < |q.stat| ensures StatOk(q, i) {
      assert StatOk(p, i);
    }
  }

  lemma FinishedFrame(hash: Hash, p: Pool, w: nat, stat: Stat, q: Pool)
    requires Placed(p) && JobEnds(p, w, stat, q)
    requires Digests(hash, p) && Marks(hash, p)
    ensures Shape(q) && Digests(hash, q) && Marks(hash, q)
  {
    forall i | 0 <= i < |q.stat|
      ensures Unwritten(q, i) == Unwritten(p, i) && Marker(q, i) == Marker(p, i)
    {
      assert StatOk(p, i);
    }
  }

  /** Another job's entry is not touched by worker w's finishing. */
  lemma FinishedLate(p: Pool, w: nat, stat: Stat, q: Pool)
    requires Placed(p) && JobEnds(p, w, stat, q) && LateOk(p) && q.late == p.late
    requires q.cancelled || !p.cancelled
    ensures Shape(q) && LateOk(q)
  {
    forall i | i in q.late
      ensures q.stat[i].Skipped? || (q.stat[i].Held? && q.stat[i].worker < WORKERS && q.workers[q.stat[i].worker].Took?)
    {
      assert StatOk(p, i);
    }
  }

  lemma FinishedData(hash: Hash, p: Pool, w: nat, stat: Stat, q: Pool)
    requires Data(hash, p) && JobEnds(p, w, stat, q)
    ensures Data(hash, q)
  {
    FinishedPlaced(p, w, stat, q);
    FinishedFrame(hash, p, w, stat, q);
  }

  /** A job given up: after the cancellation, or with its failure kept. */
  lemma GiveUpFlow(hash: Hash, p: Pool, store: Store, w: nat, stat: Stat, q: Pool)
    requires Placed(p) && Flow(hash, p, store) && Marks(hash, p) && JobEnds(p, w, stat, q)
    requires stat.Skipped? || (stat.Lost? && !p.workers[w].Stored?)
    requires p.cancelled || p.workers[w].Ending?
    requires q == Done(p, w, p.workers[w].job.idx, stat).(cancelled := true)
    ensures Shape(q) && Flow(hash, q, store)
  {
    FinishedLate(p, w, stat, q);
    PutCounts(p.stat, p.workers[w].job.idx, stat);
    assert !p.Clean();
  }

  lemma ReuseFlow(hash: Hash, p: Pool, store: Store, w: nat, q: Pool)
    requires Placed(p) && Flow(hash, p, store) && Marks(hash, p) && JobEnds(p, w, Known, q)
    requires p.workers[w].Reusing?
    requires q == Done(p, w, p.workers[w].job.idx, Known).(reused := p.reused + 1)
    ensures Shape(q) && Flow(hash, q, store)
  {
    FinishedLate(p, w, Known, q);
    PutCounts(p.stat, p.workers[w].job.idx, Known);
  }

  lemma SentSends(hash: Hash, p: Pool, w: nat)
    requires Placed(p) && Marks(hash, p) && Sends(p) && w < WORKERS && p.workers[w].Stored?
    ensures Sends(SentNext(hash, p, w, p.workers[w].job))
  {
  }

  lemma SentFlow(hash: Hash, p: Pool, store: Store, w: nat, q: Pool)
    requires Placed(p) && Flow(hash, p, store) && Marks(hash, p) && JobEnds(p, w, Sent, q)
    requires p.workers[w].Stored?
    requires q == SentNext(hash, p, w, p.workers[w].job)
    ensures Shape(q) && Flow(hash, q, store)
  {
    FinishedLate(p, w, Sent, q);
    SentSends(hash, p, w);
    PutCounts(p.stat, p.workers[w].job.idx, Sent);
  }

  // ---- Hashing and marking ----

  lemma WritePlaced(hash: Hash, p: Pool, w: nat)
    requires Placed(p) && w < WORKERS && p.workers[w].Hashing?
    ensures var job := p.workers[w].job; Placed(WriteDigest(p, w, job, hash(job.data)))
  {
    var job := p.workers[w].job;
    var q := WriteDigest(p, w, job, hash(job.data));
    forall i | 0 <= i < |q.stat| ensures StatOk(q, i) {
      assert StatOk(p, i);
    }
  }

  lemma WriteDigests(hash: Hash, p: Pool, w: nat)
    requires Placed(p) && Digests(hash, p) && Marks(hash, p)
    requires w < WORKERS && p.workers[w].Hashing?
    ensures var job := p.workers[w].job;
            var q := WriteDigest(p, w, job, hash(job.data));
            Shape(q) && Digests(hash, q) && Marks(hash, q)
  {
    var job := p.workers[w].job;
    var q := WriteDigest(p, w, job, hash(job.data));
    assert Unwritten(p, job.idx) && !Unwritten(q, job.idx);
    forall i | 0 <= i < |q.stat|
      ensures Marker(q, i) == Marker(p, i)
      ensures i != job.idx ==> Unwritten(q, i) == Unwritten(p, i)
    {
      assert StatOk(p, i);
    }
  }

  lemma WriteFlow(hash: Hash, p: Pool, store: Store, w: nat)
    requires Placed(p) && Flow(hash, p, store) && w < WORKERS && p.workers[w].Hashing?
    ensures var job := p.workers[w].job;
            var q := WriteDigest(p, w, job, hash(job.data));
            Shape(q) && Flow(hash, q, store)
  {
  }

  lemma WriteOffsets(hash: Hash, p: Pool, w: nat)
    requires Placed(p) && Offsets(p) && w < WORKERS && p.workers[w].Hashing?
    ensures var job := p.workers[w].job;
            var q := WriteDigest(p, w, job, hash(job.data));
            Shape(q) && Offsets(q)
  {
  }

  lemma WriteInv(hash: Hash, p: Pool, store: Store, w: nat)
    requires Inv(hash, p, store) && w < WORKERS && p.workers[w].Hashing?
    ensures var job := p.workers[w].job; Inv(hash, WriteDigest(p, w, job, hash(job.data)), store)
  {
    WritePlaced(hash, p, w);
    WriteDigests(hash, p, w);
    WriteOffsets(hash, p, w);
    WriteFlow(hash, p, store, w);
  }

  lemma MarkMarks(hash: Hash, p: Pool, w: nat)
    requires Placed(p) && Marks(hash, p) && w < WORKERS && p.workers[w].Marking?
    requires hash(p.workers[w].job.data) !in p.known
    ensures var job := p.workers[w].job; Marks(hash, Mark(p, w, job, hash(job.data)))
  {
    var job := p.workers[w].job;
    var q := Mark(p, w, job, hash(job.data));
    assert !Marker(p, job.idx) && Marker(q, job.idx);
    forall i | 0 <= i < |q.stat| && i != job.idx ensures Marker(q, i) == Marker(p, i) {
      assert StatOk(p, i);
    }
  }

  lemma MarkSends(hash: Hash, p: Pool, w: nat)
    requires Placed(p) && Marks(hash, p) && Sends(p) && w < WORKERS && p.workers[w].Marking?
    requires hash(p.workers[w].job.data) !in p.known
    ensures var job := p.workers[w].job; Sends(Mark(p, w, job, hash(job.data)))
  {
  }

  lemma MarkFlow(hash: Hash, p: Pool, store: Store, w: nat)
    requires Placed(p) && Flow(hash, p, store) && Marks(hash, p) && w < WORKERS && p.workers[w].Marking?
    requires hash(p.workers[w].job.data) !in p.known
    ensures var job := p.workers[w].job;
            var q := Mark(p, w, job, hash(job.data));
            Shape(q) && Flow(hash, q, store)
  {
    MarkSends(hash, p, w);
  }

  lemma MarkInv(hash: Hash, p: Pool, store: Store, w: nat)
    requires Inv(hash, p, store) && w < WORKERS && p.workers[w].Marking?
    requires hash(p.workers[w].job.data) !in p.known
    ensures var job := p.workers[w].job; Inv(hash, Mark(p, w, job, hash(job.data)), store)
  {
    var job := p.workers[w].job;
    var q := Mark(p, w, job, hash(job.data));
    MarkMarks(hash, p, w);
    MovePlaced(p, w, Retrying(job, 0), q);
    MoveDigests(hash, p, w, Retrying(job, 0), q);
    MarkFlow(hash, p, store, w);
  }

  // ---- Keeping a failure, and the ends of a job ----

  /** The first failure stays, whichever worker keeps its own later. */
  lemma RecordFlow(hash: Hash, p: Pool, store: Store, w: nat, to: Worker, fatal: Option<Error>)
    requires Placed(p) && Flow(hash, p, store) && w < WORKERS && p.workers[w].Recording?
    requires to == Ending(p.workers[w].job) && fatal.Some?
    ensures var q := Move(p, w, to).(fatal := fatal); Shape(q) && Flow(hash, q, store)
  {
  }

  lemma RecordInv(hash: Hash, p: Pool, store: Store, w: nat, fatal: Option<Error>)
    requires Inv(hash, p, store) && w < WORKERS && p.workers[w].Recording? && fatal.Some?
    ensures Inv(hash, Move(p, w, Ending(p.workers[w].job)).(fatal := fatal), store)
  {
    var to := Ending(p.workers[w].job);
    var q := Move(p, w, to).(fatal := fatal);
    MovePlaced(p, w, to, q);
    MoveDigests(hash, p, w, to, q);
    MoveMarks(hash, p, w, to, q);
    RecordFlow(hash, p, store, w, to, fatal);
  }

  lemma UploadInv(hash: Hash, p: Pool, store: Store, w: nat, o: Outcome)
    requires Inv(hash, p, store) && w < WORKERS && p.workers[w].Uploading?
    ensures var (job, tries) := (p.workers[w].job, p.workers[w].tries);
            Inv(hash, Move(p, w, AfterAttempt(job, tries, o)), Reached(store, hash(job.data), job.data, o))
  {
    var job, tries := p.workers[w].job, p.workers[w].tries;
    MoveInv(hash, p, store, w, AfterAttempt(job, tries, o), Reached(store, hash(job.data), job.data, o));
  }

  lemma ReuseEnds(p: Pool, w: nat)
    requires Placed(p) && w < WORKERS && p.workers[w].Reusing?
    ensures JobEnds(p, w, Known, Done(p, w, p.workers[w].job.idx, Known).(reused := p.reused + 1))
  {
  }

  lemma ReuseInv(hash: Hash, p: Pool, store: Store, w: nat)
    requires Inv(hash, p, store) && w < WORKERS && p.workers[w].Reusing?
    ensures Inv(hash, Done(p, w, p.workers[w].job.idx, Known).(reused := p.reused + 1), store)
  {
    var q := Done(p, w, p.workers[w].job.idx, Known).(reused := p.reused + 1);
    ReuseEnds(p, w);
    FinishedData(hash, p, w, Known, q);
    ReuseFlow(hash, p, store, w, q);
  }

  lemma SentInv(hash: Hash, p: Pool, store: Store, w: nat)
    requires Inv(hash, p, store) && w < WORKERS && p.workers[w].Stored?
    ensures Inv(hash, SentNext(hash, p, w, p.workers[w].job), store)
  {
    var q := SentNext(hash, p, w, p.workers[w].job);
    FinishedData(hash, p, w, Sent, q);
    SentFlow(hash, p, store, w, q);
  }

  lemma GiveUpInv(hash: Hash, p: Pool, store: Store, w: nat, stat: Stat)
    requires Inv(hash, p, store) && w < WORKERS
    requires if p.workers[w].Took? then stat.Skipped? else (p.workers[w].GaveUp? || p.workers[w].Ending?) && stat.Lost?
    requires p.cancelled || p.workers[w].Ending?
    ensures Inv(hash, Done(p, w, p.workers[w].job.idx, stat).(cancelled := true), store)
  {
    var q := Done(p, w, p.workers[w].job.idx, stat).(cancelled := true);
    FinishedData(hash, p, w, stat, q);
    GiveUpFlow(hash, p, store, w, stat, q);
  }

  lemma AlreadyCancelled(p: Pool, w: nat, idx: nat, stat: Stat)
    requires p.cancelled && w < |p.workers|
    ensures Done(p, w, idx, stat).(cancelled := true) == Done(p, w, idx, stat)
  {
  }

  // ---- Each state a worker can be in ----

  lemma IdleNext(hash: Hash, p: Pool, store: Store, w: nat, o: Outcome, q: Pool, store': Store)
    requires Inv(hash, p, store) && WorkerEnabled(p, w) && p.workers[w].Idle?
    requires (q, store') == WorkerNext(hash, p, store, w, o)
    ensures Inv(hash, q, store')
  {
    IdleIs(hash, p, store, w, o);
    if p.queue != [] {
      ReceiveInv(hash, p, store, w);
    } else {
      ExitInv(hash, p, store, w);
    }
  }

  lemma TookNext(hash: Hash, p: Pool, store: Store, w: nat, o: Outcome, q: Pool, store': Store)
    requires Inv(hash, p, store) && WorkerEnabled(p, w) && p.workers[w].Took?
    requires (q, store') == WorkerNext(hash, p, store, w, o)
    ensures Inv(hash, q, store')
  {
    TookIs(hash, p, store, w, o);
    var job := p.workers[w].job;
    if p.cancelled {
      GiveUpInv(hash, p, store, w, Skipped);
      AlreadyCancelled(p, w, job.idx, Skipped);
    } else {
      MoveInv(hash, p, store, w, Hashing(job), store);
    }
  }

  lemma HashingNext(hash: Hash, p: Pool, store: Store, w: nat, o: Outcome, q: Pool, store': Store)
    requires Inv(hash, p, store) && WorkerEnabled(p, w) && p.workers[w].Hashing?
    requires (q, store') == WorkerNext(hash, p, store, w, o)
    ensures Inv(hash, q, store')
  {
    HashingIs(hash, p, store, w, o);
    var job := p.workers[w].job;
    WriteInv(hash, p, store, w);
  }

  lemma MarkingNext(hash: Hash, p: Pool, store: Store, w: nat, o: Outcome, q: Pool, store': Store)
    requires Inv(hash, p, store) && WorkerEnabled(p, w) && p.workers[w].Marking?
    requires (q, store') == WorkerNext(hash, p, store, w, o)
    ensures Inv(hash, q, store')
  {
    MarkingIs(hash, p, store, w, o);
    var job := p.workers[w].job;
    if hash(job.data) in p.known {
      MoveInv(hash, p, store, w, Reusing(job), store);
    } else {
      MarkInv(hash, p, store, w);
    }
  }

  lemma ReusingNext(hash: Hash, p: Pool, store: Store, w: nat, o: Outcome, q: Pool, store': Store)
    requires Inv(hash, p, store) && WorkerEnabled(p, w) && p.workers[w].Reusing?
    requires (q, store') == WorkerNext(hash, p, store, w, o)
    ensures Inv(hash, q, store')
  {
    ReusingIs(hash, p, store, w, o);
    ReuseInv(hash, p, store, w);
  }

  lemma RetryingNext(hash: Hash, p: Pool, store: Store, w: nat, o: Outcome, q: Pool, store': Store)
    requires Inv(hash, p, store) && WorkerEnabled(p, w) && p.workers[w].Retrying?
    requires (q, store') == WorkerNext(hash, p, store, w, o)
    ensures Inv(hash, q, store')
  {
    RetryingIs(hash, p, store, w, o);
    var job := p.workers[w].job;
    var to := if p.cancelled then GaveUp(job, 0) else Uploading(job, p.workers[w].tries);
    MoveInv(hash, p, store, w, to, store);
  }

  lemma UploadingNext(hash: Hash, p: Pool, store: Store, w: nat, o: Outcome, q: Pool, store': Store)
    requires Inv(hash, p, store) && WorkerEnabled(p, w) && p.workers[w].Uploading?
    requires (q, store') == WorkerNext(hash, p, store, w, o)
    ensures Inv(hash, q, store')
  {
    UploadingIs(hash, p, store, w, o);
    var job, tries := p.workers[w].job, p.workers[w].tries;
    UploadInv(hash, p, store, w, o);
  }

  lemma GaveUpNext(hash: Hash, p: Pool, store: Store, w: nat, o: Outcome, q: Pool, store': Store)
    requires Inv(hash, p, store) && WorkerEnabled(p, w) && p.workers[w].GaveUp?
    requires (q, store') == WorkerNext(hash, p, store, w, o)
    ensures Inv(hash, q, store')
  {
    GaveUpIs(hash, p, store, w, o);
    var job, code := p.workers[w].job, p.workers[w].code;
    if p.cancelled {
      GiveUpInv(hash, p, store, w, Lost);
      AlreadyCancelled(p, w, job.idx, Lost);
    } else {
      MoveInv(hash, p, store, w, Recording(job, code), store);
    }
  }

  lemma RecordingNext(hash: Hash, p: Pool, store: Store, w: nat, o: Outcome, q: Pool, store': Store)
    requires Inv(hash, p, store) && WorkerEnabled(p, w) && p.workers[w].Recording?
    requires (q, store') == WorkerNext(hash, p, store, w, o)
    ensures Inv(hash, q, store')
  {
    RecordingIs(hash, p, store, w, o);
    var job, code := p.workers[w].job, p.workers[w].code;
    var fatal := KeepFirst(p.fatal, UploadFailed(job.idx, code));
    RecordInv(hash, p, store, w, fatal);
  }

  lemma StoredNext(hash: Hash, p: Pool, store: Store, w: nat, o: Outcome, q: Pool, store': Store)
    requires Inv(hash, p, store) && WorkerEnabled(p, w) && p.workers[w].Stored?
    requires (q, store') == WorkerNext(hash, p, store, w, o)
    ensures Inv(hash, q, store')
  {
    StoredIs(hash, p, store, w, o);
    SentInv(hash, p, store, w);
  }

  lemma EndingNext(hash: Hash, p: Pool, store: Store, w: nat, o: Outcome, q: Pool, store': Store)
    requires Inv(hash, p, store) && WorkerEnabled(p, w) && p.workers[w].Ending?
    requires (q, store') == WorkerNext(hash, p, store, w, o)
    ensures Inv(hash, q, store')
  {
    EndingIs(hash, p, store, w, o);
    GiveUpInv(hash, p, store, w, Lost);
  }

  /** Whatever a worker does next, the invariant holds. */
  lemma WorkerInv(hash: Hash, p: Pool, store: Store, w: nat, o: Outcome, q: Pool, store': Store)
    requires Inv(hash, p, store) && WorkerEnabled(p, w)
    requires (q, store') == WorkerNext(hash, p, store, w, o)
    ensures Inv(hash, q, store') && store.Keys <= store'.Keys
  {
    WorkerTurns(hash, p, store, w, o);
    match p.workers[w] {
      case Idle => IdleNext(hash, p, store, w, o, q, store');
      case Took(_) => TookNext(hash, p, store, w, o, q, store');
      case Hashing(_) => HashingNext(hash, p, store, w, o, q, store');
      case Marking(_) => MarkingNext(hash, p, store, w, o, q, store');
      case Reusing(_) => ReusingNext(hash, p, store, w, o, q, store');
      case Retrying(_, _) => RetryingNext(hash, p, store, w, o, q, store');
      case Uploading(_, _) => UploadingNext(hash, p, store, w, o, q, store');
      case GaveUp(_, _) => GaveUpNext(hash, p, store, w, o, q, store');
      case Recording(_, _) => RecordingNext(hash, p, store, w, o, q, store');
      case Stored(_) => StoredNext(hash, p, store, w, o, q, store');
      case Ending(_) => EndingNext(hash, p, store, w, o, q, store');
    }
  }

  // ---- The walk's actions, and the other pools' uploads ----

  lemma StoreInv(hash: Hash, p: Pool, store: Store, store': Store)
    requires Inv(hash, p, store) && store.Keys <= store'.Keys
    ensures Inv(hash, p, store')
  {
  }

  lemma StartInv(hash: Hash, initial: set<Digest>, store: Store)
    requires initial <= store.Keys
    ensures Inv(hash, Started(initial), store)
  {
  }

  /** No entry waits for the walk to send its job. */
  predicate Settled(p: Pool) {
    p.stat != [] ==> !p.stat[|p.stat| - 1].AtWalk?
  }

  predicate MayAppend(hash: Hash, p: Pool, c: Chunk) {
    Settled(p) && !p.closed && (c.Reused? ==> c.digest in p.known)
  }

  lemma AppendPlaced(p: Pool, c: Chunk)
    requires Placed(p) && Settled(p)
    ensures Placed(Append(p, c))
  {
    var q := Append(p, c);
    forall i | 0 <= i < |q.stat| ensures StatOk(q, i) {
      if i < |p.stat| {
        assert StatOk(p, i);
      }
    }
  }

  lemma AppendOffsets(p: Pool, c: Chunk)
    requires Shape(p) && Offsets(p)
    ensures Shape(Append(p, c)) && Offsets(Append(p, c))
  {
    var q := Append(p, c);
    TotalAppend(p.chunks, c);
    assert q.chunks == p.chunks + [c];
    assert q.chunks[..|p.chunks|] == p.chunks;
    forall i | 0 <= i < |p.chunks| ensures q.chunks[..i] == p.chunks[..i] {
    }
  }

  lemma AppendDigests(hash: Hash, p: Pool, c: Chunk)
    requires Placed(p) && Digests(hash, p) && Marks(hash, p)
    ensures var q := Append(p, c); Shape(q) && Digests(hash, q) && Marks(hash, q)
  {
    var q := Append(p, c);
    forall i | 0 <= i < |p.stat|
      ensures Unwritten(q, i) == Unwritten(p, i) && Marker(q, i) == Marker(p, i)
    {
      assert q.stat[i] == p.stat[i];
    }
  }

  lemma AppendCounts(stat: seq<Stat>, v: Stat)
    ensures CountSent(stat + [v]) == CountSent(stat) + (if v.Sent? then 1 else 0)
    ensures CountReused(stat + [v]) == CountReused(stat) + (if v.Known? || v.Injected? then 1 else 0)
  {
    assert (stat + [v])[..|stat|] == stat;
  }

  lemma AppendReuses(hash: Hash, p: Pool, c: Chunk)
    requires Placed(p) && Marks(hash, p) && Reuses(hash, p) && Sends(p) && MayAppend(hash, p, c)
    ensures var q := Append(p, c); Shape(q) && Reuses(hash, q) && Sends(q)
  {
  }

  lemma AppendFlow(hash: Hash, p: Pool, store: Store, c: Chunk)
    requires Placed(p) && Marks(hash, p) && Flow(hash, p, store) && MayAppend(hash, p, c)
    ensures var q := Append(p, c); Shape(q) && Flow(hash, q, store)
  {
    AppendReuses(hash, p, c);
    AppendCounts(p.stat, AtWalk);
    AppendCounts(p.stat, Injected);
  }

  lemma AppendInv(hash: Hash, p: Pool, store: Store, c: Chunk)
    requires Inv(hash, p, store) && MayAppend(hash, p, c)
    ensures Inv(hash, Append(p, c), store)
  {
    AppendPlaced(p, c);
    AppendOffsets(p, c);
    AppendDigests(hash, p, c);
    AppendFlow(hash, p, store, c);
  }

  /** The walk holds the newest chunk, ready to be sent to the workers. */
  predicate MayPush(p: Pool, data: Bytes) {
    && !p.closed && CanPush(p)
    && |p.chunks| == |p.stat| > 0 && p.stat[|p.stat| - 1].AtWalk?
    && p.chunks[|p.chunks| - 1].Fresh? && p.chunks[|p.chunks| - 1].data == data
  }

  lemma PushPlaced(p: Pool, data: Bytes)
    requires Placed(p) && MayPush(p, data)
    ensures Placed(Push(p, data))
  {
    var q := Push(p, data);
    forall i | 0 <= i < |q.stat| ensures StatOk(q, i) {
      assert StatOk(p, i);
    }
  }

  lemma PushFrame(hash: Hash, p: Pool, data: Bytes)
    requires Placed(p) && MayPush(p, data) && Digests(hash, p) && Marks(hash, p)
    ensures var q := Push(p, data); Shape(q) && Digests(hash, q) && Marks(hash, q)
  {
    var q := Push(p, data);
    forall i | 0 <= i < |q.stat|
      ensures Unwritten(q, i) == Unwritten(p, i) && Marker(q, i) == Marker(p, i)
    {
      assert StatOk(p, i);
    }
  }

  lemma PushFlow(hash: Hash, p: Pool, store: Store, data: Bytes)
    requires Placed(p) && Flow(hash, p, store) && MayPush(p, data)
    ensures Shape(Push(p, data)) && Flow(hash, Push(p, data), store)
  {
    PutCounts(p.stat, |p.stat| - 1, Queued(p.taken + |p.queue|));
  }

  lemma PushInv(hash: Hash, p: Pool, store: Store, data: Bytes)
    requires Inv(hash, p, store) && MayPush(p, data)
    ensures Inv(hash, Push(p, data), store)
  {
    PushPlaced(p, data);
    PushFrame(hash, p, data);
    PushFlow(hash, p, store, data);
  }

  /** Closing the channel and ending the context touch no entry and no job. */
  lemma SwitchPlaced(p: Pool, q: Pool)
    requires Placed(p) && SameIndex(p, q) && q.workers == p.workers && q.stat == p.stat
    ensures Placed(q)
  {
    forall i | 0 <= i < |q.stat| ensures StatOk(q, i) {
      assert StatOk(p, i);
    }
  }

  lemma SwitchFrame(hash: Hash, p: Pool, q: Pool)
    requires Shape(p) && Digests(hash, p) && Marks(hash, p) && SameIndex(p, q) && SameMarks(p, q)
    requires q.workers == p.workers && q.stat == p.stat
    ensures Shape(q) && Digests(hash, q) && Marks(hash, q)
  {
    forall i | 0 <= i < |q.stat|
      ensures Unwritten(q, i) == Unwritten(p, i) && Marker(q, i) == Marker(p, i)
    {
    }
  }

  lemma SwitchData(hash: Hash, p: Pool, q: Pool)
    requires Data(hash, p) && SameIndex(p, q) && SameMarks(p, q)
    requires q.workers == p.workers && q.stat == p.stat
    ensures Data(hash, q)
  {
    SwitchPlaced(p, q);
    SwitchFrame(hash, p, q);
  }

  lemma CloseInv(hash: Hash, p: Pool, store: Store)
    requires Inv(hash, p, store)
    ensures Inv(hash, Close(p), store)
  {
    SwitchData(hash, p, Close(p));
    CloseFlow(hash, p, store);
  }

  lemma CloseFlow(hash: Hash, p: Pool, store: Store)
    requires Placed(p) && Flow(hash, p, store)
    ensures Shape(Close(p)) && Flow(hash, Close(p), store)
  {
  }

  lemma CancelFlow(hash: Hash, p: Pool, store: Store)
    requires Placed(p) && Flow(hash, p, store) && p.AllExited()
    ensures Shape(Cancel(p)) && Flow(hash, Cancel(p), store)
  {
  }

  lemma CancelInv(hash: Hash, p: Pool, store: Store)
    requires Inv(hash, p, store) && p.AllExited()
    ensures Inv(hash, Cancel(p), store)
  {
    SwitchData(hash, p, Cancel(p));
    CancelFlow(hash, p, store);
  }

  lemma AbandonFlow(hash: Hash, p: Pool, store: Store)
    requires Placed(p) && Flow(hash, p, store)
    ensures Shape(Abandon(p)) && Flow(hash, Abandon(p), store)
  {
  }

  lemma AbandonInv(hash: Hash, p: Pool, store: Store)
    requires Inv(hash, p, store)
    ensures Inv(hash, Abandon(p), store)
  {
    SwitchData(hash, p, Abandon(p));
    AbandonFlow(hash, p, store);
  }
}
