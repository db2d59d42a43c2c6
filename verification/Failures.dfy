/** Where an error comes from: the attempts behind the failure a pool keeps, and the step
    behind the error a backup returns. */
module Failures {
  import opened Types
  import opened Pool
  import opened PoolSteps
  import opened Session
  import opened SessionInv
  import opened SessionTurns
  import opened Runs

  ghost predicate Takes(hash: Hash, sha: Hash, s: Session, step: Step, t: Session) {
    Wf(s) && Enabled(s, step) && t == Next(hash, sha, s, step)
  }

  /** A run with the steps it took. */
  ghost predicate RunBy(hash: Hash, sha: Hash, plan: Plan, tr: seq<Session>, steps: seq<Step>) {
    && |tr| == |steps| + 1 && tr[0] == Begin(plan.prog, plan.initial, plan.store)
    && forall m, n :: 0 <= m && n == m + 1 < |tr| ==> Takes(hash, sha, tr[m], steps[m], tr[n])
  }

  lemma TakenIsStep(hash: Hash, sha: Hash, s: Session, step: Step, t: Session)
    requires Takes(hash, sha, s, step, t)
    ensures CanStep(hash, sha, s, t)
  {
  }

  lemma RunByIsRun(hash: Hash, sha: Hash, plan: Plan, tr: seq<Session>, steps: seq<Step>)
    requires RunBy(hash, sha, plan, tr, steps)
    ensures Run(hash, sha, plan, tr)
  {
    forall m, n | 0 <= m && n == m + 1 < |tr| ensures CanStep(hash, sha, tr[m], tr[n]) {
      TakenIsStep(hash, sha, tr[m], steps[m], tr[n]);
    }
  }

  /** The run without its last step. */
  lemma BeforeLast(hash: Hash, sha: Hash, plan: Plan, tr: seq<Session>, steps: seq<Step>)
    requires RunBy(hash, sha, plan, tr, steps) && steps != []
    ensures RunBy(hash, sha, plan, tr[..|steps|], steps[..|steps| - 1])
    ensures Takes(hash, sha, tr[|steps| - 1], steps[|steps| - 1], tr[|steps|])
  {
    var but, before := tr[..|steps|], steps[..|steps| - 1];
    forall m, n | 0 <= m && n == m + 1 < |but| ensures Takes(hash, sha, but[m], before[m], but[n]) {
      assert Takes(hash, sha, tr[m], steps[m], tr[n]);
    }
  }

  lemma StepOf(hash: Hash, sha: Hash, s: Session, t: Session) returns (step: Step)
    requires CanStep(hash, sha, s, t)
    ensures Takes(hash, sha, s, step, t)
  {
    step :| Enabled(s, step) && t == Next(hash, sha, s, step);
  }

  /** Every run has its steps. */
  lemma {:induction false} StepsOf(hash: Hash, sha: Hash, plan: Plan, tr: seq<Session>) returns (steps: seq<Step>)
    requires Run(hash, sha, plan, tr)
    ensures RunBy(hash, sha, plan, tr, steps)
  {
    if |tr| == 1 {
      steps := [];
    } else {
      var n := |tr| - 1;
      assert Run(hash, sha, plan, tr[..n]) by {
        forall i, j | 0 <= i && j == i + 1 < n ensures CanStep(hash, sha, tr[..n][i], tr[..n][j]) {
          assert CanStep(hash, sha, tr[i], tr[j]);
        }
      }
      var before := StepsOf(hash, sha, plan, tr[..n]);
      var step := StepOf(hash, sha, tr[n - 1], tr[n]);
      steps := before + [step];
      forall i, j | 0 <= i && j == i + 1 < |tr| ensures Takes(hash, sha, tr[i], steps[i], tr[j]) {
        if j < n {
          assert Takes(hash, sha, tr[..n][i], before[i], tr[..n][j]);
        }
      }
    }
  }

  // ---- The attempts ----

  /** With this step an attempt to send entry i of stream k ends. */
  predicate EndsAttempt(s: Session, step: Step, k: nat, i: nat) {
    && step.Work? && step.k == k < |s.pools| && step.w < |s.pools[k].workers|
    && s.pools[k].workers[step.w].Uploading? && s.pools[k].workers[step.w].job.idx == i
  }

  /** How the attempts to send an entry have ended, in the run's order. */
  function Outcomes(tr: seq<Session>, steps: seq<Step>, k: nat, i: nat): seq<Outcome>
    requires |tr| == |steps| + 1
    decreases |steps|
  {
    if steps == [] then []
    else
      var n := |steps| - 1;
      var before := Outcomes(tr[..n + 1], steps[..n], k, i);
      if EndsAttempt(tr[n], steps[n], k, i) then before + [steps[n].o] else before
  }

  /** The chunk was refused with this code, or failed with it for the fifth time. */
  predicate GivenUp(tried: seq<Outcome>, code: nat) {
    && 0 < |tried| <= 5
    && (forall m :: 0 <= m < |tried| - 1 ==> tried[m].Passing?)
    && match tried[|tried| - 1]
       case Fine => false
       case Refused(c, _) => c == code
       case Passing(c, _) => c == code && |tried| == 5
  }

  /** What a worker's point says of the attempts for its job. */
  predicate WorkerTried(worker: Worker, cancelled: bool, tried: seq<Outcome>) {
    match worker
    case Retrying(_, n) => |tried| == n < 5 && forall m :: 0 <= m < n ==> tried[m].Passing?
    case Uploading(_, n) => |tried| == n < 5 && forall m :: 0 <= m < n ==> tried[m].Passing?
    case Stored(_) => tried != [] && tried[|tried| - 1].Fine?
    case GaveUp(_, code) => cancelled || GivenUp(tried, code)
    case Recording(_, code) => GivenUp(tried, code)
    case Ending(_) => true
    case _ => tried == []
  }

  predicate StatTried(p: Pool, i: nat, tried: seq<Outcome>)
    requires i < |p.stat|
  {
    match p.stat[i]
    case Held(w) => w < |p.workers| && WorkerTried(p.workers[w], p.cancelled, tried)
    case Sent => tried != [] && tried[|tried| - 1].Fine?
    case Lost => true
    case _ => tried == []
  }

  /** The worker that kept the failure of entry i, or had it kept, ends the uploads. */
  predicate EndsUploads(p: Pool, i: nat) {
    i < |p.stat| &&
    match p.stat[i]
    case Held(w) => w < |p.workers| && p.workers[w].Ending?
    case Lost => p.cancelled
    case _ => false
  }

  predicate FatalTried(p: Pool, i: nat, tried: seq<Outcome>) {
    p.fatal.Some? ==>
      && p.fatal.value.UploadFailed?
      && (p.fatal.value.chunk == i ==> GivenUp(tried, p.fatal.value.code) && EndsUploads(p, i))
  }

  predicate Tried(p: Pool, i: nat, tried: seq<Outcome>) {
    (if i < |p.stat| then StatTried(p, i, tried) else tried == []) && FatalTried(p, i, tried)
  }

  // ---- A worker's step ----

  /** Another entry's worker moves. */
  lemma OtherTried(p: Pool, w: nat, q: Pool, i: nat, tried: seq<Outcome>)
    requires Shape(p) && StatsAt(p, i) && w < |p.workers| && Tried(p, i, tried)
    requires Frame(p, q) && (p.cancelled ==> q.cancelled)
    requires |q.workers| == |p.workers| && forall v :: 0 <= v < |p.workers| && v != w ==> q.workers[v] == p.workers[v]
    requires i < |p.stat| ==> q.stat[i] == p.stat[i] && (p.workers[w].Busy() ==> p.workers[w].job.idx != i)
    requires q.fatal == p.fatal || (q.fatal.Some? && q.fatal.value.UploadFailed? && q.fatal.value.chunk != i)
    ensures Tried(q, i, tried)
  {
  }

  ghost predicate StatsAt(p: Pool, i: nat)
    requires Shape(p)
  {
    i < |p.stat| ==> StatOk(p, i)
  }

  /** A worker short of the end of its job has not failed at it. */
  lemma NoFailureYet(p: Pool, w: nat, i: nat, tried: seq<Outcome>, q: Pool, more: seq<Outcome>)
    requires w < |p.workers| && i < |p.stat| && p.stat[i] == Held(w) && !p.workers[w].Ending?
    requires Tried(p, i, tried) && q.fatal == p.fatal
    ensures FatalTried(q, i, more)
  {
  }

  /** An attempt ends. */
  lemma AttemptTried(job: Job, n: nat, o: Outcome, cancelled: bool, tried: seq<Outcome>)
    requires WorkerTried(Uploading(job, n), cancelled, tried)
    ensures WorkerTried(AfterAttempt(job, n, o), cancelled, tried + [o])
  {
    var more := tried + [o];
    assert more[..|more| - 1] == tried && more[|more| - 1] == o;
    assert forall m :: 0 <= m < |tried| ==> more[m] == tried[m];
  }

  /** Worker w holds the job of entry i. */
  ghost predicate Holds(p: Pool, w: nat, i: nat) {
    && Placed(p) && w < |p.workers| && p.workers[w].Busy() && p.workers[w].job.idx == i
    && i < |p.stat| && p.stat[i] == Held(w)
  }

  lemma UploadingTries(hash: Hash, p: Pool, store: Store, w: nat, o: Outcome, i: nat, tried: seq<Outcome>)
    requires WorkerEnabled(p, w) && Holds(p, w, i) && Tried(p, i, tried) && p.workers[w].Uploading?
    ensures Tried(WorkerNext(hash, p, store, w, o).0, i, tried + [o])
  {
    UploadingIs(hash, p, store, w, o);
    AttemptTried(p.workers[w].job, p.workers[w].tries, o, p.cancelled, tried);
    NoFailureYet(p, w, i, tried, WorkerNext(hash, p, store, w, o).0, tried + [o]);
  }

  lemma EarlyTries(hash: Hash, p: Pool, store: Store, w: nat, o: Outcome, i: nat, tried: seq<Outcome>)
    requires WorkerEnabled(p, w) && Holds(p, w, i) && Tried(p, i, tried)
    requires p.workers[w].Took? || p.workers[w].Hashing? || p.workers[w].Marking? || p.workers[w].Reusing?
    ensures Tried(WorkerNext(hash, p, store, w, o).0, i, tried)
  {
    match p.workers[w] {
      case Took(_) => TookIs(hash, p, store, w, o);
      case Hashing(_) => HashingIs(hash, p, store, w, o);
      case Marking(_) => MarkingIs(hash, p, store, w, o);
      case Reusing(_) => ReusingIs(hash, p, store, w, o);
    }
    NoFailureYet(p, w, i, tried, WorkerNext(hash, p, store, w, o).0, tried);
  }

  lemma LateTries(hash: Hash, p: Pool, store: Store, w: nat, o: Outcome, i: nat, tried: seq<Outcome>)
    requires WorkerEnabled(p, w) && Holds(p, w, i) && Tried(p, i, tried)
    requires p.workers[w].Retrying? || p.workers[w].Stored? || p.workers[w].GaveUp?
    ensures Tried(WorkerNext(hash, p, store, w, o).0, i, tried)
  {
    match p.workers[w] {
      case Retrying(_, _) => RetryingIs(hash, p, store, w, o);
      case Stored(_) => StoredIs(hash, p, store, w, o);
      case GaveUp(_, _) => GaveUpIs(hash, p, store, w, o);
    }
    NoFailureYet(p, w, i, tried, WorkerNext(hash, p, store, w, o).0, tried);
  }

  lemma FailingTries(hash: Hash, p: Pool, store: Store, w: nat, o: Outcome, i: nat, tried: seq<Outcome>)
    requires WorkerEnabled(p, w) && Holds(p, w, i) && Tried(p, i, tried)
    requires p.workers[w].Recording? || p.workers[w].Ending?
    ensures Tried(WorkerNext(hash, p, store, w, o).0, i, tried)
  {
    if p.workers[w].Recording? {
      RecordingIs(hash, p, store, w, o);
    } else {
      EndingIs(hash, p, store, w, o);
    }
  }

  lemma ReceiveTries(hash: Hash, p: Pool, store: Store, w: nat, o: Outcome, tried: seq<Outcome>)
    requires Placed(p) && WorkerEnabled(p, w) && p.workers[w].Idle? && p.queue != []
    requires Tried(p, p.queue[0].idx, tried)
    ensures Tried(WorkerNext(hash, p, store, w, o).0, p.queue[0].idx, tried)
  {
    IdleIs(hash, p, store, w, o);
    assert p.stat[p.queue[0].idx] == Queued(p.taken + 0);
  }

  /** What a worker's step does to the failure kept. */
  lemma FatalNext(hash: Hash, p: Pool, store: Store, w: nat, o: Outcome)
    requires WorkerEnabled(p, w)
    ensures var q := WorkerNext(hash, p, store, w, o).0;
      && (p.workers[w].Recording? && p.fatal.None? ==> q.fatal == Some(UploadFailed(p.workers[w].job.idx, p.workers[w].code)))
      && (!(p.workers[w].Recording? && p.fatal.None?) ==> q.fatal == p.fatal)
  {
    WorkerTurns(hash, p, store, w, o);
    if p.workers[w].Recording? {
      RecordingIs(hash, p, store, w, o);
    }
  }

  lemma OthersStay(hash: Hash, p: Pool, store: Store, w: nat, o: Outcome)
    requires WorkerEnabled(p, w)
    ensures var q := WorkerNext(hash, p, store, w, o).0;
            |q.workers| == |p.workers| && forall v :: 0 <= v < |p.workers| && v != w ==> q.workers[v] == p.workers[v]
  {
    WorkerTurns(hash, p, store, w, o);
  }

  lemma WorkerTriesOther(hash: Hash, p: Pool, store: Store, w: nat, o: Outcome, i: nat, tried: seq<Outcome>)
    requires Placed(p) && WorkerEnabled(p, w) && Tried(p, i, tried)
    requires if p.workers[w].Busy() then p.workers[w].job.idx != i else p.queue == [] || p.queue[0].idx != i
    ensures Tried(WorkerNext(hash, p, store, w, o).0, i, tried)
  {
    var q := WorkerNext(hash, p, store, w, o).0;
    WorkerTurns(hash, p, store, w, o);
    FatalNext(hash, p, store, w, o);
    OthersStay(hash, p, store, w, o);
    assert StatsAt(p, i);
    OtherTried(p, w, q, i, tried);
  }

  /** The attempts for entry i, as far as a worker's step adds to them. */
  function More(p: Pool, w: nat, o: Outcome, i: nat, tried: seq<Outcome>): seq<Outcome>
    requires w < |p.workers|
  {
    if p.workers[w].Uploading? && p.workers[w].job.idx == i then tried + [o] else tried
  }

  lemma WorkerTries(hash: Hash, p: Pool, store: Store, w: nat, o: Outcome, i: nat, tried: seq<Outcome>)
    requires Placed(p) && WorkerEnabled(p, w) && Tried(p, i, tried)
    ensures Tried(WorkerNext(hash, p, store, w, o).0, i, More(p, w, o, i, tried))
  {
    var worker := p.workers[w];
    if worker.Busy() && worker.job.idx == i {
      assert Holds(p, w, i);
      if worker.Uploading? {
        UploadingTries(hash, p, store, w, o, i, tried);
      } else if worker.Recording? || worker.Ending? {
        FailingTries(hash, p, store, w, o, i, tried);
      } else if worker.Retrying? || worker.Stored? || worker.GaveUp? {
        LateTries(hash, p, store, w, o, i, tried);
      } else {
        EarlyTries(hash, p, store, w, o, i, tried);
      }
    } else if !worker.Busy() && p.queue != [] && p.queue[0].idx == i {
      ReceiveTries(hash, p, store, w, o, tried);
    } else {
      WorkerTriesOther(hash, p, store, w, o, i, tried);
    }
  }

  // ---- The walk's step ----

  /** What the walk leaves of a pool's jobs: a new entry is its own, or reused, until it
      is queued. */
  ghost predicate Touched(p: Pool, q: Pool) {
    && (q.workers, q.fatal) == (p.workers, p.fatal) && (p.cancelled ==> q.cancelled)
    && |p.stat| <= |q.stat|
    && (forall i :: 0 <= i < |p.stat| ==> q.stat[i] == p.stat[i] || (p.stat[i].AtWalk? && q.stat[i].Queued?))
    && forall i :: |p.stat| <= i < |q.stat| ==> q.stat[i].AtWalk? || q.stat[i].Injected?
  }

  lemma TouchedTried(p: Pool, q: Pool, i: nat, tried: seq<Outcome>)
    requires Touched(p, q) && Tried(p, i, tried)
    ensures Tried(q, i, tried)
  {
  }

  lemma AppendTouches(p: Pool, c: Chunk)
    ensures Touched(p, Append(p, c))
  {
  }

  lemma PushTouches(p: Pool, data: Bytes)
    requires p.entries != [] && |p.entries| == |p.stat| && p.stat[|p.stat| - 1].AtWalk?
    ensures Touched(p, Push(p, data))
  {
  }

  ghost predicate AllTouched(s: Session, t: Session) {
    |t.pools| == |s.pools| && forall k :: 0 <= k < |s.pools| ==> Touched(s.pools[k], t.pools[k])
  }

  lemma OneTouched(s: Session, k: nat, q: Pool, pc: Pc)
    requires k < |s.pools| && Touched(s.pools[k], q)
    ensures AllTouched(s, SetPool(s, k, q).(pc := pc))
  {
  }

  lemma WalkTouches(s: Session, choice: Choice)
    requires Wf(s) && s.pc.Walking?
    ensures AllTouched(s, WalkNext(s, s.pc.i, choice))
  {
    var i := s.pc.i;
    if !choice.GiveUp? && i < |s.prog| {
      var Instr(k, ev) := s.prog[i];
      var p := s.pools[k];
      if ev.Emit? && p.fatal.None? && ev.chunk.Fresh? {
        AppendTouches(p, ev.chunk);
        OneTouched(s, k, Append(p, ev.chunk), Pushing(i));
      } else if ev.Eof? {
        OneTouched(s, k, Close(p), Draining(i));
      }
    }
  }

  lemma PushesTouch(hash: Hash, sha: Hash, s: Session, choice: Choice)
    requires SInv(hash, sha, s) && s.pc.Pushing? && DriveEnabled(s)
    ensures AllTouched(s, DriveNext(hash, sha, s, choice))
  {
    var Instr(k, ev) := s.prog[s.pc.i];
    assert Inv(hash, s.pools[k], s.store);
    PushTouches(s.pools[k], ev.chunk.data);
    OneTouched(s, k, Push(s.pools[k], ev.chunk.data), Walking(s.pc.i + 1));
  }

  lemma LookTouches(hash: Hash, sha: Hash, s: Session, choice: Choice)
    requires Wf(s) && s.pc.Looking? && DriveEnabled(s)
    ensures AllTouched(s, DriveNext(hash, sha, s, choice))
  {
    var Instr(k, ev) := s.prog[s.pc.i];
    if ev.chunk.digest in s.pools[k].known {
      AppendTouches(s.pools[k], ev.chunk);
      OneTouched(s, k, Append(s.pools[k], ev.chunk), Walking(s.pc.i + 1));
    }
  }

  lemma EndTouches(hash: Hash, sha: Hash, s: Session, choice: Choice)
    requires Wf(s) && DriveEnabled(s) && !s.pc.Walking? && !s.pc.Looking? && !s.pc.Pushing?
    ensures AllTouched(s, DriveNext(hash, sha, s, choice))
  {
    if s.pc.Draining? {
      OneTouched(s, s.prog[s.pc.i].k, Cancel(s.pools[s.prog[s.pc.i].k]), Judging(s.pc.i));
    } else if s.pc.Stopping? && s.pc.k < |s.pools| {
      OneTouched(s, s.pc.k, Abandon(s.pools[s.pc.k]), Waiting(s.pc.k, s.pc.end));
    }
  }

  lemma DriveTouches(hash: Hash, sha: Hash, s: Session, choice: Choice)
    requires SInv(hash, sha, s) && DriveEnabled(s)
    ensures AllTouched(s, DriveNext(hash, sha, s, choice))
  {
    if s.pc.Walking? {
      WalkTouches(s, choice);
    } else if s.pc.Looking? {
      LookTouches(hash, sha, s, choice);
    } else if s.pc.Pushing? {
      PushesTouch(hash, sha, s, choice);
    } else {
      EndTouches(hash, sha, s, choice);
    }
  }

  // ---- Whole runs ----

  lemma StepTries(hash: Hash, sha: Hash, s: Session, step: Step, k: nat, i: nat, tried: seq<Outcome>)
    requires SInv(hash, sha, s) && Enabled(s, step) && k < |s.pools| && Tried(s.pools[k], i, tried)
    ensures var t, more := Next(hash, sha, s, step), if EndsAttempt(s, step, k, i) then tried + [step.o] else tried;
            k < |t.pools| && Tried(t.pools[k], i, more)
  {
    match step {
      case Work(j, w, o) =>
        if j == k {
          assert Inv(hash, s.pools[k], s.store);
          WorkerTries(hash, s.pools[k], s.store, w, o, i, tried);
        }
      case Drive(choice) =>
        DriveTouches(hash, sha, s, choice);
        TouchedTried(s.pools[k], DriveNext(hash, sha, s, choice).pools[k], i, tried);
    }
  }

  lemma OutcomesNext(tr: seq<Session>, steps: seq<Step>, k: nat, i: nat)
    requires |tr| == |steps| + 1 && steps != []
    ensures var n := |steps| - 1;
            var before := Outcomes(tr[..|steps|], steps[..n], k, i);
            Outcomes(tr, steps, k, i) == if EndsAttempt(tr[n], steps[n], k, i) then before + [steps[n].o] else before
  {
  }

  lemma {:induction false} RunTries(hash: Hash, sha: Hash, plan: Plan, tr: seq<Session>, steps: seq<Step>, k: nat, i: nat)
    requires Sound(hash, plan) && RunBy(hash, sha, plan, tr, steps) && k < |plan.initial|
    ensures k < |End(tr).pools| && Tried(End(tr).pools[k], i, Outcomes(tr, steps, k, i))
    decreases |steps|
  {
    if steps != [] {
      var n := |steps| - 1;
      BeforeLast(hash, sha, plan, tr, steps);
      RunTries(hash, sha, plan, tr[..|steps|], steps[..n], k, i);
      RunByIsRun(hash, sha, plan, tr[..|steps|], steps[..n]);
      RunInv(hash, sha, plan, tr[..|steps|]);
      StepTries(hash, sha, tr[n], steps[n], k, i, Outcomes(tr[..|steps|], steps[..n], k, i));
      OutcomesNext(tr, steps, k, i);
    }
  }

  /** On every run, the failure a pool keeps is that of a chunk of its own stream whose
      attempts came to it: each before the last failed in a way that passes, the last was
      refused with the code kept, or was the fifth and failed with it. And it has ended
      the uploads, or its worker is about to. */
  lemma KeptFailureHappened(hash: Hash, sha: Hash, plan: Plan, tr: seq<Session>, steps: seq<Step>, k: nat)
    requires Sound(hash, plan) && RunBy(hash, sha, plan, tr, steps) && k < |plan.initial|
    requires End(tr).PoolAt(k).fatal.Some?
    ensures var p := End(tr).PoolAt(k);
      && p.fatal.value.UploadFailed? && p.fatal.value.chunk < |p.entries|
      && GivenUp(Outcomes(tr, steps, k, p.fatal.value.chunk), p.fatal.value.code)
      && (p.cancelled || exists w :: 0 <= w < |p.workers| && p.workers[w].Ending? && p.workers[w].job.idx == p.fatal.value.chunk)
  {
    RunByIsRun(hash, sha, plan, tr, steps);
    PoolInvAt(hash, sha, plan, tr, k);
    RunTries(hash, sha, plan, tr, steps, k, 0);
    var p := End(tr).PoolAt(k);
    var i := p.fatal.value.chunk;
    RunTries(hash, sha, plan, tr, steps, k, i);
    assert EndsUploads(p, i) && StatOk(p, i);
  }

  // ---- The error a backup returns ----

  /** The error on its way out, or returned. */
  function ErrorIn(pc: Pc): Option<Error> {
    if pc.Stopping? || pc.Waiting? then pc.end else if pc.Failed? then Some(pc.err) else None
  }

  /** What in a step of the walk makes the backup fail with this error. */
  ghost predicate Gives(s: Session, choice: Choice, err: Error) {
    match err
    case ReadFailed(code) => s.pc.Walking? && choice == GiveUp(code)
    case UploadFailed(_, _) => AtStream(s) && (s.pc.Walking? || s.pc.Judging?) && s.pools[s.prog[s.pc.i].k].fatal == Some(err)
    case BytesPending =>
      AtStream(s) && s.pc.Walking? && s.prog[s.pc.i].ev.Stray? && s.pools[s.prog[s.pc.i].k].fatal.None?
    case NotInPreviousIndex =>
      && AtStream(s) && s.pc.Looking? && s.prog[s.pc.i].ev.Emit? && s.prog[s.pc.i].ev.chunk.Reused?
      && s.prog[s.pc.i].ev.chunk.digest !in s.pools[s.prog[s.pc.i].k].known
    case AssignFailed => s.pc.Assigning? && choice.Fails?
    case CloseFailed => s.pc.Sealing? && choice.Fails?
    case ManifestFailed => s.pc.Manifesting? && choice.Fails?
    case FinishFailed => s.pc.Finishing? && choice.Fails?
    case RequestFailed(_) => false
  }

  predicate AtStream(s: Session) {
    InWalk(s.pc) && s.pc.i < |s.prog| && s.prog[s.pc.i].k < |s.pools|
  }

  ghost predicate OnlyUploads(s: Session) {
    forall k :: 0 <= k < |s.pools| && s.pools[k].fatal.Some? ==> s.pools[k].fatal.value.UploadFailed?
  }

  lemma WalkGives(s: Session, choice: Choice)
    requires Wf(s) && s.pc.Walking? && OnlyUploads(s)
    ensures var e := ErrorIn(WalkNext(s, s.pc.i, choice).pc); e.Some? ==> Gives(s, choice, e.value)
  {
  }

  lemma EofGives(sha: Hash, s: Session, choice: Choice)
    requires Wf(s) && InEof(s.pc) && OnlyUploads(s)
    ensures var e := ErrorIn(EofNext(sha, s, choice).pc); e.Some? ==> Gives(s, choice, e.value)
  {
  }

  /** A step of the walk gives an error only for its own reason, and an error on its way
      out is not replaced. */
  lemma DriveGives(hash: Hash, sha: Hash, s: Session, choice: Choice)
    requires Wf(s) && DriveEnabled(s) && OnlyUploads(s)
    ensures var e := ErrorIn(DriveNext(hash, sha, s, choice).pc);
            if ErrorIn(s.pc).Some? then e == ErrorIn(s.pc) else e.Some? ==> Gives(s, choice, e.value)
  {
    if s.pc.Walking? {
      WalkGives(s, choice);
    } else if InEof(s.pc) {
      EofGives(sha, s, choice);
    }
  }

  lemma RunOnlyUploads(hash: Hash, sha: Hash, plan: Plan, tr: seq<Session>, steps: seq<Step>)
    requires Sound(hash, plan) && RunBy(hash, sha, plan, tr, steps)
    ensures OnlyUploads(End(tr))
  {
    RunByIsRun(hash, sha, plan, tr, steps);
    RunInv(hash, sha, plan, tr);
    forall k | 0 <= k < |End(tr).pools| && End(tr).pools[k].fatal.Some? ensures End(tr).pools[k].fatal.value.UploadFailed? {
      RunTries(hash, sha, plan, tr, steps, k, 0);
    }
  }

  /** The error a backup returns, or is about to, is the one its walk left with, and was
      given for its own reason. */
  lemma {:induction false} ErrorWasGiven(hash: Hash, sha: Hash, plan: Plan, tr: seq<Session>, steps: seq<Step>) returns (m: nat)
    requires Sound(hash, plan) && RunBy(hash, sha, plan, tr, steps) && ErrorIn(End(tr).pc).Some?
    ensures m < |steps| && steps[m].Drive? && Gives(tr[m], steps[m].choice, ErrorIn(End(tr).pc).value)
    decreases |steps|
  {
    var n := |steps| - 1;
    BeforeLast(hash, sha, plan, tr, steps);
    RunOnlyUploads(hash, sha, plan, tr[..|steps|], steps[..n]);
    if steps[n].Drive? {
      DriveGives(hash, sha, tr[n], steps[n].choice);
    }
    if ErrorIn(tr[n].pc).Some? {
      m := ErrorWasGiven(hash, sha, plan, tr[..|steps|], steps[..n]);
    } else {
      m := n;
    }
  }

  lemma RunUpTo(hash: Hash, sha: Hash, plan: Plan, tr: seq<Session>, steps: seq<Step>, m: nat)
    requires Sound(hash, plan) && RunBy(hash, sha, plan, tr, steps) && m < |tr|
    ensures |tr[m].pools| == |plan.initial|
  {
    var part := tr[..m + 1];
    RunByIsRun(hash, sha, plan, tr, steps);
    forall i, j | 0 <= i && j == i + 1 < |part| ensures CanStep(hash, sha, part[i], part[j]) {
      assert CanStep(hash, sha, tr[i], tr[j]);
    }
    RunInv(hash, sha, plan, part);
  }

  /** A backup that fails with a chunk's upload returns the failure one of its pools has
      kept, and that chunk's attempts came to it. */
  lemma UploadErrorHappened(hash: Hash, sha: Hash, plan: Plan, tr: seq<Session>, steps: seq<Step>) returns (k: nat)
    requires Sound(hash, plan) && RunBy(hash, sha, plan, tr, steps)
    requires ErrorIn(End(tr).pc).Some? && ErrorIn(End(tr).pc).value.UploadFailed?
    ensures k < |plan.initial| && End(tr).PoolAt(k).fatal == ErrorIn(End(tr).pc)
    ensures var e := ErrorIn(End(tr).pc).value; GivenUp(Outcomes(tr, steps, k, e.chunk), e.code)
  {
    var m := ErrorWasGiven(hash, sha, plan, tr, steps);
    k := tr[m].prog[tr[m].pc.i].k;
    RunUpTo(hash, sha, plan, tr, steps, m);
    RunByIsRun(hash, sha, plan, tr, steps);
    FailureIsKept(hash, sha, plan, tr, m, k);
    KeptFailureHappened(hash, sha, plan, tr, steps, k);
  }

  /** And the other way round: at its next look at a stream with a failure kept, the walk
      leaves with that very failure. */
  lemma NextLookLeaves(hash: Hash, sha: Hash, s: Session, choice: Choice)
    requires Wf(s) && AtStream(s) && !choice.GiveUp? && s.pools[s.prog[s.pc.i].k].fatal.Some?
    requires (s.pc.Walking? && !s.prog[s.pc.i].ev.Eof?) || s.pc.Judging?
    ensures DriveNext(hash, sha, s, choice).pc == Stopping(0, s.pools[s.prog[s.pc.i].k].fatal)
  {
  }
}
