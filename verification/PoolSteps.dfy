/** One worker's step: what it leaves alone, and that it uses something up. */
module PoolSteps {
  import opened Types
  import opened Pool

  /** What a worker's step leaves alone. */
  predicate Frame(p: Pool, q: Pool) {
    (q.chunks, |q.entries|, |q.stat|, q.closed, q.abandoned, q.initial) ==
    (p.chunks, |p.entries|, |p.stat|, p.closed, p.abandoned, p.initial)
  }

  /** Where a worker's step, but for the receive, takes it. */
  function Onward(hash: Hash, p: Pool, w: nat, o: Outcome): Worker
    requires w < |p.workers|
  {
    match p.workers[w]
    case Took(job) => if p.cancelled then Idle else Hashing(job)
    case Hashing(job) => Marking(job)
    case Marking(job) => if hash(job.data) in p.known then Reusing(job) else Retrying(job, 0)
    case Retrying(job, tries) => if p.cancelled then GaveUp(job, 0) else Uploading(job, tries)
    case Uploading(job, tries) => AfterAttempt(job, tries, o)
    case GaveUp(job, code) => if p.cancelled then Idle else Recording(job, code)
    case Recording(job, _) => Ending(job)
    case Idle => Exited
    case _ => Idle
  }

  predicate Goes(p: Pool, w: nat, to: Worker, q: Pool)
    requires w < |p.workers|
  {
    (q.queue, q.workers) == (p.queue, p.workers[w := to])
  }

  /** Only the entry of the worker's job changes its place, and not to the walk's. */
  ghost predicate StatsKept(p: Pool, w: nat, q: Pool)
    requires w < |p.workers| && |q.stat| == |p.stat|
  {
    forall i :: 0 <= i < |p.stat| && q.stat[i] != p.stat[i] ==>
      !q.stat[i].AtWalk?
      && if p.workers[w].Busy() then i == p.workers[w].job.idx else p.queue != [] && i == p.queue[0].idx
  }

  /** What every worker's step has in common. */
  ghost predicate WorkerTurned(hash: Hash, p: Pool, store: Store, w: nat, o: Outcome, next: (Pool, Store))
    requires w < |p.workers|
  {
    var (q, store') := next;
    && Frame(p, q) && StatsKept(p, w, q)
    && (p.fatal.Some? || !p.workers[w].Recording? ==> q.fatal == p.fatal)
    && (p.cancelled ==> q.cancelled)
    && (p.workers[w].Idle? && p.queue != [] ==> q.workers == p.workers[w := Took(p.queue[0])])
    && (!p.workers[w].Hashing? ==> (q.entries, q.writes) == (p.entries, p.writes))
    && p.known <= q.known && store.Keys <= store'.Keys
    && (!p.workers[w].Uploading? ==> store' == store)
    && (!(p.workers[w].Idle? && p.queue != []) ==> Goes(p, w, Onward(hash, p, w, o), q))
  }

  // ---- Each point a worker can be at ----

  lemma IdleIs(hash: Hash, p: Pool, store: Store, w: nat, o: Outcome)
    requires WorkerEnabled(p, w) && p.workers[w].Idle?
    ensures WorkerNext(hash, p, store, w, o) == (if p.queue != [] then Receive(p, w) else Move(p, w, Exited), store)
    ensures WorkerTurned(hash, p, store, w, o, WorkerNext(hash, p, store, w, o))
  {
  }

  lemma TookIs(hash: Hash, p: Pool, store: Store, w: nat, o: Outcome)
    requires WorkerEnabled(p, w) && p.workers[w].Took?
    ensures WorkerNext(hash, p, store, w, o) == (if p.cancelled then Done(p, w, p.workers[w].job.idx, Skipped) else Move(p, w, Hashing(p.workers[w].job)), store)
    ensures WorkerTurned(hash, p, store, w, o, WorkerNext(hash, p, store, w, o))
  {
  }

  lemma HashingIs(hash: Hash, p: Pool, store: Store, w: nat, o: Outcome)
    requires WorkerEnabled(p, w) && p.workers[w].Hashing?
    ensures WorkerNext(hash, p, store, w, o) == (WriteDigest(p, w, p.workers[w].job, hash(p.workers[w].job.data)), store)
    ensures WorkerTurned(hash, p, store, w, o, WorkerNext(hash, p, store, w, o))
  {
  }

  lemma MarkingIs(hash: Hash, p: Pool, store: Store, w: nat, o: Outcome)
    requires WorkerEnabled(p, w) && p.workers[w].Marking?
    ensures WorkerNext(hash, p, store, w, o) == (Mark(p, w, p.workers[w].job, hash(p.workers[w].job.data)), store)
    ensures WorkerTurned(hash, p, store, w, o, WorkerNext(hash, p, store, w, o))
  {
  }

  lemma ReusingIs(hash: Hash, p: Pool, store: Store, w: nat, o: Outcome)
    requires WorkerEnabled(p, w) && p.workers[w].Reusing?
    ensures WorkerNext(hash, p, store, w, o) == (Done(p, w, p.workers[w].job.idx, Known).(reused := p.reused + 1), store)
    ensures WorkerTurned(hash, p, store, w, o, WorkerNext(hash, p, store, w, o))
  {
  }

  lemma RetryingIs(hash: Hash, p: Pool, store: Store, w: nat, o: Outcome)
    requires WorkerEnabled(p, w) && p.workers[w].Retrying?
    ensures WorkerNext(hash, p, store, w, o) == (Move(p, w, if p.cancelled then GaveUp(p.workers[w].job, 0) else Uploading(p.workers[w].job, p.workers[w].tries)), store)
    ensures WorkerTurned(hash, p, store, w, o, WorkerNext(hash, p, store, w, o))
  {
  }

  lemma UploadingIs(hash: Hash, p: Pool, store: Store, w: nat, o: Outcome)
    requires WorkerEnabled(p, w) && p.workers[w].Uploading?
    ensures WorkerNext(hash, p, store, w, o) == (Move(p, w, AfterAttempt(p.workers[w].job, p.workers[w].tries, o)), Reached(store, hash(p.workers[w].job.data), p.workers[w].job.data, o))
    ensures WorkerTurned(hash, p, store, w, o, WorkerNext(hash, p, store, w, o))
  {
  }

  lemma GaveUpIs(hash: Hash, p: Pool, store: Store, w: nat, o: Outcome)
    requires WorkerEnabled(p, w) && p.workers[w].GaveUp?
    ensures WorkerNext(hash, p, store, w, o) == (if p.cancelled then Done(p, w, p.workers[w].job.idx, Lost) else Move(p, w, Recording(p.workers[w].job, p.workers[w].code)), store)
    ensures WorkerTurned(hash, p, store, w, o, WorkerNext(hash, p, store, w, o))
  {
  }

  lemma RecordingIs(hash: Hash, p: Pool, store: Store, w: nat, o: Outcome)
    requires WorkerEnabled(p, w) && p.workers[w].Recording?
    ensures WorkerNext(hash, p, store, w, o) == (Move(p, w, Ending(p.workers[w].job)).(fatal := KeepFirst(p.fatal, UploadFailed(p.workers[w].job.idx, p.workers[w].code))), store)
    ensures WorkerTurned(hash, p, store, w, o, WorkerNext(hash, p, store, w, o))
  {
  }

  lemma StoredIs(hash: Hash, p: Pool, store: Store, w: nat, o: Outcome)
    requires WorkerEnabled(p, w) && p.workers[w].Stored?
    ensures WorkerNext(hash, p, store, w, o) == (SentNext(hash, p, w, p.workers[w].job), store)
    ensures WorkerTurned(hash, p, store, w, o, WorkerNext(hash, p, store, w, o))
  {
  }

  lemma EndingIs(hash: Hash, p: Pool, store: Store, w: nat, o: Outcome)
    requires WorkerEnabled(p, w) && p.workers[w].Ending?
    ensures WorkerNext(hash, p, store, w, o) == (Done(p, w, p.workers[w].job.idx, Lost).(cancelled := true), store)
    ensures WorkerTurned(hash, p, store, w, o, WorkerNext(hash, p, store, w, o))
  {
  }

  /** Whatever a worker does next. */
  lemma WorkerTurns(hash: Hash, p: Pool, store: Store, w: nat, o: Outcome)
    requires WorkerEnabled(p, w)
    ensures WorkerTurned(hash, p, store, w, o, WorkerNext(hash, p, store, w, o))
  {
    match p.workers[w] {
      case Idle => IdleIs(hash, p, store, w, o);
      case Took(_) => TookIs(hash, p, store, w, o);
      case Hashing(_) => HashingIs(hash, p, store, w, o);
      case Marking(_) => MarkingIs(hash, p, store, w, o);
      case Reusing(_) => ReusingIs(hash, p, store, w, o);
      case Retrying(_, _) => RetryingIs(hash, p, store, w, o);
      case Uploading(_, _) => UploadingIs(hash, p, store, w, o);
      case GaveUp(_, _) => GaveUpIs(hash, p, store, w, o);
      case Recording(_, _) => RecordingIs(hash, p, store, w, o);
      case Stored(_) => StoredIs(hash, p, store, w, o);
      case Ending(_) => EndingIs(hash, p, store, w, o);
    }
  }

  /** The walk's last entry is its own until it is queued. */
  lemma WorkerSettled(p: Pool, w: nat, q: Pool)
    requires Shape(p) && Places(p) && WorkerEnabled(p, w) && Frame(p, q) && StatsKept(p, w, q)
    ensures p.stat != [] ==> q.stat[|q.stat| - 1].AtWalk? == p.stat[|p.stat| - 1].AtWalk?
  {
    if p.workers[w].Busy() {
      assert !p.stat[p.workers[w].job.idx].AtWalk?;
    } else if p.queue != [] {
      assert !p.stat[p.queue[0].idx].AtWalk?;
    }
  }

  // ---- The measure ----

  /** A walk at a full channel, or waiting for the workers, always has a worker that
      can take a step: workers keep draining the queue also after a failure. */
  lemma WorkerCanStep(hash: Hash, p: Pool, store: Store) returns (w: nat)
    requires Inv(hash, p, store) && !p.AllExited()
    requires p.queue != [] || p.closed
    ensures WorkerEnabled(p, w)
  {
    w :| w < |p.workers| && !p.workers[w].Exited?;
  }

  /** Steps a worker can still take before it is idle or gone. */
  function WorkerRank(w: Worker): nat {
    match w
    case Exited => 0
    case Idle => 1
    case Reusing(_) => 2
    case Stored(_) => 2
    case Ending(_) => 2
    case Recording(_, _) => 3
    case GaveUp(_, _) => 4
    case Uploading(_, tries) => 3 + 2 * (if tries < MAX_ATTEMPTS then MAX_ATTEMPTS - tries else 0)
    case Retrying(_, tries) => 4 + 2 * (if tries < MAX_ATTEMPTS then MAX_ATTEMPTS - tries else 0)
    case Marking(_) => 15
    case Hashing(_) => 16
    case Took(_) => 17
  }

  const JOB_RANK := 18

  function WorkersRank(workers: seq<Worker>): nat {
    if workers == [] then 0 else WorkersRank(workers[..|workers| - 1]) + WorkerRank(workers[|workers| - 1])
  }

  function PoolRank(p: Pool): nat {
    WorkersRank(p.workers) + JOB_RANK * |p.queue|
  }

  lemma {:induction false} PutWorker(workers: seq<Worker>, w: nat, to: Worker)
    requires w < |workers|
    ensures WorkersRank(workers[w := to]) == WorkersRank(workers) - WorkerRank(workers[w]) + WorkerRank(to)
  {
    var n := |workers| - 1;
    if w < n {
      PutWorker(workers[..n], w, to);
      assert workers[w := to][..n] == workers[..n][w := to];
    } else {
      assert workers[w := to][..n] == workers[..n];
    }
  }

  lemma ReceiveDescends(p: Pool, w: nat)
    requires w < |p.workers| && p.queue != [] && p.workers[w].Idle?
    ensures PoolRank(Receive(p, w)) < PoolRank(p)
  {
    PutWorker(p.workers, w, Took(p.queue[0]));
  }

  lemma OnwardIsLower(hash: Hash, p: Pool, w: nat, o: Outcome)
    requires w < |p.workers| && !p.workers[w].Exited? && Attempts(p)
    ensures WorkerRank(Onward(hash, p, w, o)) < WorkerRank(p.workers[w])
  {
  }

  /** A worker's step uses up a job, an attempt or a point of its round. */
  lemma WorkerDescends(hash: Hash, p: Pool, store: Store, w: nat, o: Outcome, q: Pool)
    requires WorkerEnabled(p, w) && Attempts(p) && q == WorkerNext(hash, p, store, w, o).0
    ensures PoolRank(q) < PoolRank(p)
  {
    if p.workers[w].Idle? && p.queue != [] {
      ReceiveDescends(p, w);
    } else {
      WorkerTurns(hash, p, store, w, o);
      OnwardIsLower(hash, p, w, o);
      PutWorker(p.workers, w, Onward(hash, p, w, o));
    }
  }
}
