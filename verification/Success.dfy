/** When nothing fails for good, the backup commits. */
module Success {
  import opened Types
  import opened Pool
  import opened PoolSteps
  import opened Session
  import opened SessionInv
  import opened SessionTurns
  import opened Runs
  import Programs
  import Progress

  /** A step at which nothing fails for good: an attempt may fail in a way that passes if
      another is left, and the side-car uploads may fail as they like. */
  predicate Smooth(s: Session, step: Step) {
    match step
    case Work(k, w, o) =>
      k < |s.pools| && w < |s.pools[k].workers| && s.pools[k].workers[w].Uploading? ==>
        !AfterAttempt(s.pools[k].workers[w].job, s.pools[k].workers[w].tries, o).GaveUp?
    case Drive(choice) => choice.Go? || s.pc.Blobs?
  }

  ghost predicate CanStepSmoothly(hash: Hash, sha: Hash, s: Session, t: Session) {
    Wf(s) && exists step :: Smooth(s, step) && Enabled(s, step) && t == Next(hash, sha, s, step)
  }

  ghost predicate SmoothRun(hash: Hash, sha: Hash, plan: Plan, tr: seq<Session>) {
    && Run(hash, sha, plan, tr)
    && forall i, j :: 0 <= i && j == i + 1 < |tr| ==> CanStepSmoothly(hash, sha, tr[i], tr[j])
  }

  /** The walk injects no chunk while bytes are pending, and only chunks of the previous
      index of the stream. */
  predicate Careful(plan: Plan) {
    && Programs.NoStray(plan.prog)
    && forall i :: 0 <= i < |plan.prog| && plan.prog[i].ev.Emit? && plan.prog[i].ev.chunk.Reused? ==>
         plan.prog[i].k < |plan.initial| && plan.prog[i].ev.chunk.digest in plan.initial[plan.prog[i].k]
  }

  predicate CalmWorker(cancelled: bool, w: Worker) {
    !w.Recording? && !w.Ending? && (w.GaveUp? ==> cancelled)
  }

  /** No failure in the pool, and none on its way. */
  ghost predicate CalmPool(p: Pool) {
    p.fatal.None? && forall w :: 0 <= w < |p.workers| ==> CalmWorker(p.cancelled, p.workers[w])
  }

  ghost predicate CalmSession(s: Session) {
    OnTrack(s.pc) && forall k :: 0 <= k < |s.pools| ==> CalmPool(s.pools[k])
  }

  lemma WorkerStaysCalm(hash: Hash, p: Pool, store: Store, w: nat, o: Outcome)
    requires WorkerEnabled(p, w) && CalmPool(p)
    requires p.workers[w].Uploading? ==> !AfterAttempt(p.workers[w].job, p.workers[w].tries, o).GaveUp?
    ensures CalmPool(WorkerNext(hash, p, store, w, o).0)
  {
    WorkerTurns(hash, p, store, w, o);
    assert CalmWorker(p.cancelled, p.workers[w]);
    assert CalmWorker(p.cancelled, Onward(hash, p, w, o));
  }

  lemma WalkOnTrack(s: Session, i: nat)
    requires Wf(s) && s.pc == Walking(i) && CalmSession(s) && (i < |s.prog| ==> !s.prog[i].ev.Stray?)
    ensures OnTrack(WalkNext(s, i, Go).pc)
  {
  }

  lemma LookOnTrack(hash: Hash, sha: Hash, s: Session)
    requires Wf(s) && s.pc.Looking? && CalmSession(s)
    requires s.prog[s.pc.i].ev.chunk.digest in s.pools[s.prog[s.pc.i].k].known
    ensures OnTrack(DriveNext(hash, sha, s, Go).pc)
  {
  }

  lemma EofOnTrack(sha: Hash, s: Session)
    requires Wf(s) && InEof(s.pc) && CalmSession(s)
    ensures OnTrack(EofNext(sha, s, Go).pc)
  {
  }

  lemma EndOnTrack(hash: Hash, sha: Hash, s: Session, choice: Choice)
    requires Wf(s) && DriveEnabled(s) && CalmSession(s) && (choice.Go? || s.pc.Blobs?)
    requires !s.pc.Walking? && !s.pc.Looking? && !InEof(s.pc)
    ensures OnTrack(DriveNext(hash, sha, s, choice).pc)
  {
  }

  lemma KnownHolds(hash: Hash, sha: Hash, plan: Plan, s: Session)
    requires SInv(hash, sha, s) && Constant(plan, s) && Careful(plan) && s.pc.Looking?
    ensures s.prog[s.pc.i].ev.chunk.digest in s.pools[s.prog[s.pc.i].k].known
  {
    assert Inv(hash, s.pools[s.prog[s.pc.i].k], s.store);
  }

  lemma DriveStaysCalm(hash: Hash, sha: Hash, plan: Plan, s: Session, choice: Choice, t: Session)
    requires SInv(hash, sha, s) && Constant(plan, s) && Careful(plan) && CalmSession(s)
    requires DriveEnabled(s) && t == DriveNext(hash, sha, s, choice) && (choice.Go? || s.pc.Blobs?)
    ensures OnTrack(t.pc)
  {
    if s.pc.Walking? {
      WalkOnTrack(s, s.pc.i);
    } else if s.pc.Looking? {
      KnownHolds(hash, sha, plan, s);
      LookOnTrack(hash, sha, s);
    } else if InEof(s.pc) {
      EofOnTrack(sha, s);
    } else {
      EndOnTrack(hash, sha, s, choice);
    }
  }

  lemma TurnedStaysCalm(s: Session, t: Session)
    requires Turned(s, t) && CalmSession(s) && OnTrack(t.pc)
    ensures CalmSession(t)
  {
    forall k | 0 <= k < |t.pools| ensures CalmPool(t.pools[k]) {
      assert CalmPool(s.pools[k]);
    }
  }

  lemma StepStaysCalm(hash: Hash, sha: Hash, plan: Plan, s: Session, step: Step, t: Session)
    requires SInv(hash, sha, s) && Constant(plan, s) && Careful(plan) && CalmSession(s)
    requires Enabled(s, step) && Smooth(s, step) && t == Next(hash, sha, s, step)
    ensures CalmSession(t)
  {
    match step {
      case Work(k, w, o) =>
        assert CalmPool(s.pools[k]);
        WorkerStaysCalm(hash, s.pools[k], s.store, w, o);
      case Drive(choice) =>
        DriveTurns(hash, sha, s, choice, t);
        DriveStaysCalm(hash, sha, plan, s, choice, t);
        TurnedStaysCalm(s, t);
    }
  }

  lemma BeginsCalm(plan: Plan)
    ensures CalmSession(Begin(plan.prog, plan.initial, plan.store))
  {
  }

  lemma LastSmoothStep(hash: Hash, sha: Hash, plan: Plan, s: Session, t: Session)
    requires SInv(hash, sha, s) && Constant(plan, s) && Careful(plan) && CalmSession(s)
    requires CanStepSmoothly(hash, sha, s, t)
    ensures CalmSession(t)
  {
    var step :| Smooth(s, step) && Enabled(s, step) && t == Next(hash, sha, s, step);
    StepStaysCalm(hash, sha, plan, s, step, t);
  }

  lemma {:induction false} RunStaysCalm(hash: Hash, sha: Hash, plan: Plan, tr: seq<Session>)
    requires Sound(hash, plan) && Careful(plan) && SmoothRun(hash, sha, plan, tr)
    ensures CalmSession(End(tr))
  {
    if |tr| == 1 {
      BeginsCalm(plan);
    } else {
      var but := tr[..|tr| - 1];
      RunStaysCalm(hash, sha, plan, but);
      RunInv(hash, sha, plan, but);
      assert CanStepSmoothly(hash, sha, tr[|tr| - 2], tr[|tr| - 1]);
      LastSmoothStep(hash, sha, plan, End(but), End(tr));
    }
  }

  /** A backup at which nothing fails for good commits, whatever the schedule: its runs
      are bounded, and one that cannot go on has committed. Neither side-car uploads nor
      failures that pass stand in its way. */
  lemma SmoothRunsCommit(hash: Hash, sha: Hash, plan: Plan, tr: seq<Session>)
    requires Sound(hash, plan) && Careful(plan) && SmoothRun(hash, sha, plan, tr)
    requires forall t :: !CanStep(hash, sha, End(tr), t)
    ensures End(tr).pc.Committed? && |tr| <= Progress.Bound(plan) + 1
  {
    RunStaysCalm(hash, sha, plan, tr);
    Progress.RunsAreBounded(hash, sha, plan, tr);
    Progress.RunsEndProperly(hash, sha, plan, tr);
  }

  /** And until it has committed it can go on so. */
  lemma GoesOnSmoothly(hash: Hash, sha: Hash, plan: Plan, tr: seq<Session>)
    requires Sound(hash, plan) && Careful(plan) && SmoothRun(hash, sha, plan, tr) && !End(tr).pc.Committed?
    ensures exists t :: CanStepSmoothly(hash, sha, End(tr), t)
  {
    RunStaysCalm(hash, sha, plan, tr);
    RunInv(hash, sha, plan, tr);
    Progress.NeverStuck(hash, sha, End(tr));
    var step :| Enabled(End(tr), step) && Progress.GoesThrough(step);
    assert Smooth(End(tr), step);
    assert CanStepSmoothly(hash, sha, End(tr), Next(hash, sha, End(tr), step));
  }
}
