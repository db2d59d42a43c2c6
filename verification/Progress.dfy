/** Every run of a session ends: no state before the end is stuck, and every step, by
    whomever, brings the end nearer. */
module Progress {
  import opened Types
  import opened Index
  import opened Pool
  import opened PoolSteps
  import opened Session
  import opened SessionInv
  import opened SessionTurns
  import opened Runs
  import SessionSteps

  // ---- Never stuck ----

  /** A step whose request goes through. */
  predicate GoesThrough(step: Step) {
    if step.Work? then step.o == Fine else step.choice == Go
  }

  /** Before the end some step can be taken: a walk at a full channel, or waiting for the
      workers, always has a worker that can go on, also after a failure. */
  lemma NeverStuck(hash: Hash, sha: Hash, s: Session)
    requires SInv(hash, sha, s) && !s.pc.Committed? && !s.pc.Failed?
    ensures exists step :: Enabled(s, step) && GoesThrough(step)
  {
    if DriveEnabled(s) {
      assert Enabled(s, Drive(Go)) && GoesThrough(Drive(Go));
    } else {
      var k := if s.pc.Waiting? then s.pc.k else s.prog[s.pc.i].k;
      var p := s.pools[k];
      assert Inv(hash, p, s.store);
      if s.pc.Pushing? {
        assert |p.queue| == ROOM;
        assert !p.workers[0].Exited?;
      }
      var w := WorkerCanStep(hash, p, s.store);
      assert Enabled(s, Work(k, w, Fine)) && GoesThrough(Work(k, w, Fine));
    }
  }

  // ---- The measure ----

  function PoolsRank(pools: seq<Pool>): nat {
    if pools == [] then 0 else PoolsRank(pools[..|pools| - 1]) + PoolRank(pools[|pools| - 1])
  }

  function Times(m: nat, c: nat): nat {
    if m == 0 then 0 else c + Times(m - 1, c)
  }

  /** What is left of the walk: each instruction is worth more than all its steps. */
  function WalkRank(s: Session, i: nat): nat
    requires i <= |s.prog|
  {
    Times(|s.prog| - i, |s.prog| + 40) + 2 * |s.pools| + 20
  }

  ghost function DriveRank(s: Session): int
    requires Wf(s)
  {
    match s.pc
    case Walking(i) => WalkRank(s, i)
    case Looking(i) => WalkRank(s, i) - 1
    case Pushing(i) => WalkRank(s, i) - 1
    case Draining(i) => WalkRank(s, i) - 1
    case Judging(i) => WalkRank(s, i) - 2
    case Assigning(i, b) => WalkRank(s, i) - 3 - b
    case Sealing(i) => WalkRank(s, i + 1) + 1
    case Blobs(left) => 2 * |s.pools| + 17 + left
    case Manifesting => 2 * |s.pools| + 16
    case Stopping(k, _) => 2 * (|s.pools| - k) + 4
    case Waiting(k, _) => 2 * (|s.pools| - k) + 3
    case Finishing => 3
    case Committed => 0
    case Failed(_) => 0
  }

  ghost function Measure(s: Session): int
    requires Wf(s)
  {
    DriveRank(s) + PoolsRank(s.pools)
  }

  lemma {:induction false} PutPool(pools: seq<Pool>, k: nat, q: Pool)
    requires k < |pools|
    ensures PoolsRank(pools[k := q]) == PoolsRank(pools) - PoolRank(pools[k]) + PoolRank(q)
  {
    var n := |pools| - 1;
    if k < n {
      PutPool(pools[..n], k, q);
      assert pools[k := q][..n] == pools[..n][k := q];
    } else {
      assert pools[k := q][..n] == pools[..n];
    }
  }

  lemma {:induction false} ChunksCount(prog: seq<Instr>, i: nat, k: nat)
    requires i <= |prog|
    ensures |Chunks(prog, i, k)| <= i
  {
    if i > 0 {
      ChunksCount(prog, i - 1, k);
    }
  }

  /** No more batches than instructions. */
  lemma BatchesFew(hash: Hash, sha: Hash, s: Session)
    requires SInv(hash, sha, s) && InEof(s.pc)
    ensures BatchCount(Slots(s.pools[s.prog[s.pc.i].k].entries)) <= |s.prog|
  {
    var k := s.prog[s.pc.i].k;
    ChunksCount(s.prog, s.pc.i, k);
    assert s.pools[k].chunks == Chunks(s.prog, s.pc.i, k);
    assert Inv(hash, s.pools[k], s.store);
  }

  lemma TimesStep(m: nat, c: nat)
    requires m > 0
    ensures Times(m, c) == c + Times(m - 1, c)
  {
  }

  lemma NextWf(hash: Hash, sha: Hash, s: Session, step: Step)
    requires SInv(hash, sha, s) && Enabled(s, step)
    ensures Wf(Next(hash, sha, s, step))
  {
    SessionSteps.NextInv(hash, sha, s, step, Next(hash, sha, s, step));
  }

  lemma WalkPcDescends(s: Session, t: Session)
    requires Wf(s) && Wf(t) && Turned(s, t) && InWalk(s.pc)
    requires InEof(s.pc) ==> BatchCount(Slots(s.pools[s.prog[s.pc.i].k].entries)) <= |s.prog|
    ensures DriveRank(t) < DriveRank(s)
  {
    if s.pc.i < |s.prog| {
      TimesStep(|s.prog| - s.pc.i, |s.prog| + 40);
    }
  }

  lemma OutPcDescends(s: Session, t: Session)
    requires Wf(s) && Wf(t) && Turned(s, t) && !InWalk(s.pc)
    ensures DriveRank(t) < DriveRank(s)
  {
  }

  /** Where a step of the walk leads is nearer the end. */
  lemma PcDescends(s: Session, t: Session)
    requires Wf(s) && Wf(t) && Turned(s, t)
    requires InEof(s.pc) ==> BatchCount(Slots(s.pools[s.prog[s.pc.i].k].entries)) <= |s.prog|
    ensures DriveRank(t) < DriveRank(s)
  {
    if InWalk(s.pc) {
      WalkPcDescends(s, t);
    } else {
      OutPcDescends(s, t);
    }
  }

  /** The walk's own steps. */
  lemma DriveDescends(hash: Hash, sha: Hash, s: Session, choice: Choice, t: Session)
    requires SInv(hash, sha, s) && DriveEnabled(s) && t == DriveNext(hash, sha, s, choice)
    requires Wf(t)
    ensures DriveRank(t) < DriveRank(s)
  {
    DriveTurns(hash, sha, s, choice, t);
    if InEof(s.pc) {
      BatchesFew(hash, sha, s);
    }
    PcDescends(s, t);
  }

  lemma SameRank(s: Session, t: Session, k: nat)
    requires k < |s.pools| == |t.pools| && t.pools == s.pools[k := t.pools[k]]
    requires t.pools[k].workers == s.pools[k].workers && t.pools[k].queue == s.pools[k].queue
    ensures PoolsRank(t.pools) == PoolsRank(s.pools)
  {
    PutPool(s.pools, k, t.pools[k]);
  }

  /** Only the channel send changes what the workers have to do. */
  lemma DriveKeepsWork(s: Session, t: Session)
    requires Wf(s) && Turned(s, t) && !s.pc.Pushing?
    ensures PoolsRank(t.pools) == PoolsRank(s.pools)
  {
    if t.pools != s.pools {
      SameRank(s, t, Site(s));
    }
  }

  lemma PushDescends(hash: Hash, sha: Hash, s: Session, choice: Choice, t: Session)
    requires Wf(s) && Wf(t) && DriveEnabled(s) && s.pc.Pushing? && t == DriveNext(hash, sha, s, choice)
    ensures Measure(t) < Measure(s)
  {
    var k := s.prog[s.pc.i].k;
    PutPool(s.pools, k, t.pools[k]);
    TimesStep(|s.prog| - s.pc.i, |s.prog| + 40);
  }

  lemma WorkKeepsDrive(hash: Hash, sha: Hash, s: Session, k: nat, w: nat, o: Outcome, t: Session)
    requires Wf(s) && Wf(t) && Enabled(s, Work(k, w, o)) && t == Next(hash, sha, s, Work(k, w, o))
    ensures DriveRank(t) == DriveRank(s)
    ensures t.pools == s.pools[k := WorkerNext(hash, s.pools[k], s.store, w, o).0]
  {
  }

  lemma WorkDescends(hash: Hash, sha: Hash, s: Session, k: nat, w: nat, o: Outcome, t: Session)
    requires Wf(s) && Wf(t) && Enabled(s, Work(k, w, o)) && Attempts(s.pools[k])
    requires t == Next(hash, sha, s, Work(k, w, o))
    ensures Measure(t) < Measure(s)
  {
    WorkKeepsDrive(hash, sha, s, k, w, o, t);
    WorkerDescends(hash, s.pools[k], s.store, w, o, t.pools[k]);
    PutPool(s.pools, k, t.pools[k]);
  }

  lemma AttemptsAt(hash: Hash, sha: Hash, s: Session, k: nat)
    requires SInv(hash, sha, s) && k < |s.pools|
    ensures Attempts(s.pools[k])
  {
    assert Inv(hash, s.pools[k], s.store);
  }

  /** Every step, of the walk or of any worker, lowers the measure. */
  lemma EveryStepDescends(hash: Hash, sha: Hash, s: Session, step: Step)
    requires SInv(hash, sha, s) && Enabled(s, step)
    ensures var t := Next(hash, sha, s, step); Wf(t) && Measure(t) < Measure(s)
  {
    var t := Next(hash, sha, s, step);
    NextWf(hash, sha, s, step);
    match step {
      case Work(k, w, o) =>
        AttemptsAt(hash, sha, s, k);
        WorkDescends(hash, sha, s, k, w, o, t);
      case Drive(choice) =>
        if s.pc.Pushing? {
          PushDescends(hash, sha, s, choice, t);
        } else {
          DriveDescends(hash, sha, s, choice, t);
          DriveTurns(hash, sha, s, choice, t);
          DriveKeepsWork(s, t);
        }
    }
  }

  lemma MeasureIsNatural(hash: Hash, sha: Hash, s: Session)
    requires SInv(hash, sha, s)
    ensures Measure(s) >= 0
  {
    if InEof(s.pc) {
      BatchesFew(hash, sha, s);
      TimesStep(|s.prog| - s.pc.i, |s.prog| + 40);
    }
  }

  // ---- Every run ends ----

  /** A bound on the length of any run, from the plan alone. */
  function Bound(plan: Plan): nat {
    Times(|plan.prog|, |plan.prog| + 40) + 2 * |plan.initial| + 20 + PoolsRank(Begin(plan.prog, plan.initial, plan.store).pools)
  }

  lemma BeginRank(plan: Plan)
    requires WfProg(plan.prog, |plan.initial|)
    ensures var s := Begin(plan.prog, plan.initial, plan.store); Wf(s) && Measure(s) == Bound(plan)
  {
  }

  /** The last step of a run. */
  lemma LastStep(hash: Hash, sha: Hash, plan: Plan, tr: seq<Session>)
    requires Sound(hash, plan) && Run(hash, sha, plan, tr) && |tr| > 1
    ensures Run(hash, sha, plan, tr[..|tr| - 1])
    ensures Wf(End(tr[..|tr| - 1])) && Wf(End(tr)) && Measure(End(tr)) < Measure(End(tr[..|tr| - 1]))
  {
    var but := tr[..|tr| - 1];
    RunInv(hash, sha, plan, but);
    assert CanStep(hash, sha, tr[|tr| - 2], tr[|tr| - 1]);
    var step :| Enabled(End(but), step) && End(tr) == Next(hash, sha, End(but), step);
    EveryStepDescends(hash, sha, End(but), step);
  }

  lemma {:induction false} RunDescends(hash: Hash, sha: Hash, plan: Plan, tr: seq<Session>)
    requires Sound(hash, plan) && Run(hash, sha, plan, tr)
    ensures Wf(End(tr)) && Measure(End(tr)) + |tr| <= Bound(plan) + 1
  {
    if |tr| == 1 {
      BeginRank(plan);
    } else {
      LastStep(hash, sha, plan, tr);
      RunDescends(hash, sha, plan, tr[..|tr| - 1]);
    }
  }

  /** Every run is finite, whatever the schedule: uploads that fail, hang on their last
      attempt or are refused only change where it ends. */
  lemma RunsAreBounded(hash: Hash, sha: Hash, plan: Plan, tr: seq<Session>)
    requires Sound(hash, plan) && Run(hash, sha, plan, tr)
    ensures |tr| <= Bound(plan) + 1
  {
    RunInv(hash, sha, plan, tr);
    RunDescends(hash, sha, plan, tr);
    MeasureIsNatural(hash, sha, End(tr));
  }

  /** A run that cannot go on has committed or failed, with every worker gone. */
  lemma RunsEndProperly(hash: Hash, sha: Hash, plan: Plan, tr: seq<Session>)
    requires Sound(hash, plan) && Run(hash, sha, plan, tr)
    requires forall t :: !CanStep(hash, sha, End(tr), t)
    ensures End(tr).pc.Committed? || End(tr).pc.Failed?
    ensures forall k :: 0 <= k < |plan.initial| ==> End(tr).PoolAt(k).AllExited()
  {
    RunInv(hash, sha, plan, tr);
    if !End(tr).pc.Committed? && !End(tr).pc.Failed? {
      NeverStuck(hash, sha, End(tr));
      var step :| Enabled(End(tr), step);
      assert CanStep(hash, sha, End(tr), Next(hash, sha, End(tr), step));
    }
    QuietAtTheEnd(hash, sha, plan, tr);
  }
}
