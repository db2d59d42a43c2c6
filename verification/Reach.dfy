/** How far the walk can get, and which reused chunks it is let through with. */
module Reach {
  import opened Types
  import opened Pool
  import opened PoolSteps
  import opened Session
  import opened SessionInv
  import opened SessionTurns
  import opened Runs
  import opened Success
  import PoolProofs
  import PoolResults
  import Progress

  /** The walk can get past instruction i. A reused chunk gets by with a digest of the
      previous index, and also with that of a chunk of its stream from earlier on. */
  ghost predicate Passes(hash: Hash, plan: Plan, i: nat)
    requires i < |plan.prog|
  {
    var Instr(k, ev) := plan.prog[i];
    match ev
    case Stray => false
    case Emit(Reused(d, _)) =>
      k < |plan.initial| && (d in plan.initial[k] || d in PoolResults.FreshNames(hash, Chunks(plan.prog, i, k)))
    case _ => true
  }

  ghost predicate Passable(hash: Hash, plan: Plan, n: nat) {
    n <= |plan.prog| && forall i :: 0 <= i < n ==> Passes(hash, plan, i)
  }

  // ---- No further ----

  /** A known digest is of the previous index or was marked for a chunk of the stream. */
  lemma KnownAreNamed(hash: Hash, p: Pool, store: Store, d: Digest)
    requires Inv(hash, p, store) && d in p.known && d !in p.initial
    ensures d in PoolResults.FreshNames(hash, p.chunks)
  {
    var j := p.marker[d];
    assert Marker(p, j) && StatOk(p, j);
    assert p.chunks[j].Fresh? && p.chunks[j].Name(hash) == d;
  }

  /** How many instructions are behind the walk. */
  function Behind(s: Session): nat {
    if InWalk(s.pc) then s.pc.i else |s.prog|
  }

  ghost predicate Passed(hash: Hash, plan: Plan, s: Session) {
    OnTrack(s.pc) ==> Passable(hash, plan, Behind(s))
  }

  lemma LookedUp(hash: Hash, sha: Hash, s: Session, choice: Choice)
    requires Wf(s) && s.pc.Looking? && OnTrack(DriveNext(hash, sha, s, choice).pc)
    ensures s.prog[s.pc.i].ev.chunk.digest in s.pools[s.prog[s.pc.i].k].known
  {
  }

  /** A chunk the lookup lets through is of the previous index or of this run. */
  lemma LookingPasses(hash: Hash, sha: Hash, plan: Plan, s: Session, choice: Choice)
    requires SInv(hash, sha, s) && Constant(plan, s) && s.pc.Looking?
    requires OnTrack(DriveNext(hash, sha, s, choice).pc)
    ensures Passes(hash, plan, s.pc.i)
  {
    var k := s.prog[s.pc.i].k;
    LookedUp(hash, sha, s, choice);
    assert Inv(hash, s.pools[k], s.store);
    var d := s.prog[s.pc.i].ev.chunk.digest;
    if d !in s.pools[k].initial {
      KnownAreNamed(hash, s.pools[k], s.store, d);
      assert s.pools[k].chunks == Chunks(s.prog, s.pc.i, k);
    }
  }

  lemma TurnedPasses(hash: Hash, plan: Plan, s: Session, t: Session)
    requires Wf(s) && Wf(t) && Turned(s, t) && s.prog == plan.prog && Passed(hash, plan, s)
    requires s.pc.Looking? && OnTrack(t.pc) ==> Passes(hash, plan, s.pc.i)
    ensures Passed(hash, plan, t)
  {
  }

  lemma StepPasses(hash: Hash, sha: Hash, plan: Plan, s: Session, step: Step, t: Session)
    requires SInv(hash, sha, s) && Constant(plan, s) && Passed(hash, plan, s) && Wf(t)
    requires Enabled(s, step) && t == Next(hash, sha, s, step)
    ensures Passed(hash, plan, t)
  {
    match step {
      case Work(_, _, _) => assert t.pc == s.pc && t.prog == s.prog;
      case Drive(choice) =>
        DriveTurns(hash, sha, s, choice, t);
        if s.pc.Looking? && OnTrack(t.pc) {
          LookingPasses(hash, sha, plan, s, choice);
        }
        TurnedPasses(hash, plan, s, t);
    }
  }

  lemma {:induction false} RunPasses(hash: Hash, sha: Hash, plan: Plan, tr: seq<Session>)
    requires Sound(hash, plan) && Run(hash, sha, plan, tr)
    ensures Passed(hash, plan, End(tr))
  {
    RunInv(hash, sha, plan, tr);
    if |tr| > 1 {
      var but := tr[..|tr| - 1];
      RunPasses(hash, sha, plan, but);
      RunInv(hash, sha, plan, but);
      assert CanStep(hash, sha, tr[|tr| - 2], tr[|tr| - 1]);
      var step :| Enabled(End(but), step) && End(tr) == Next(hash, sha, End(but), step);
      StepPasses(hash, sha, plan, End(but), step, End(tr));
    }
  }

  // ---- As far as that ----

  /** A pool without failures whose workers have nothing to do knows all its chunks. */
  lemma RestKnows(hash: Hash, p: Pool, store: Store)
    requires Inv(hash, p, store) && p.Clean() && PoolProofs.Settled(p)
    requires forall w :: !WorkerEnabled(p, w)
    ensures PoolResults.FreshNames(hash, p.chunks) <= p.known
  {
    assert forall w :: 0 <= w < WORKERS ==> !p.workers[w].Busy() by {
      forall w | 0 <= w < WORKERS ensures !p.workers[w].Busy() {
        assert !WorkerEnabled(p, w);
      }
    }
    assert p.queue == [] by {
      assert !WorkerEnabled(p, 0);
    }
    forall i | 0 <= i < |p.chunks| && p.chunks[i].Fresh? ensures p.chunks[i].Name(hash) in p.known {
      assert StatOk(p, i);
      assert p.stat[i].Sent? || p.stat[i].Known?;
      if p.stat[i].Sent? {
        assert Marker(p, i);
      }
    }
  }

  lemma LookingOn(hash: Hash, sha: Hash, plan: Plan, s: Session)
    requires SInv(hash, sha, s) && Constant(plan, s) && CalmSession(s) && s.pc.Looking? && Passes(hash, plan, s.pc.i)
    requires forall k, w :: 0 <= k < |s.pools| ==> !WorkerEnabled(s.pools[k], w)
    ensures OnTrack(DriveNext(hash, sha, s, Go).pc)
  {
    var k := s.prog[s.pc.i].k;
    var p := s.pools[k];
    assert Inv(hash, p, s.store) && CalmPool(p);
    RestKnows(hash, p, s.store);
    assert p.chunks == Chunks(s.prog, s.pc.i, k);
    LookOnTrack(hash, sha, s);
  }

  lemma DriveOn(hash: Hash, sha: Hash, plan: Plan, s: Session)
    requires SInv(hash, sha, s) && Constant(plan, s) && CalmSession(s) && DriveEnabled(s)
    requires InWalk(s.pc) && s.pc.i < |s.prog| ==> Passes(hash, plan, s.pc.i)
    requires forall k, w :: 0 <= k < |s.pools| ==> !WorkerEnabled(s.pools[k], w)
    ensures OnTrack(DriveNext(hash, sha, s, Go).pc)
  {
    if s.pc.Walking? {
      WalkOnTrack(s, s.pc.i);
    } else if s.pc.Looking? {
      LookingOn(hash, sha, plan, s);
    } else if InEof(s.pc) {
      EofOnTrack(sha, s);
    } else {
      EndOnTrack(hash, sha, s, Go);
    }
  }

  /** The workers go first, as long as they can; then the walk takes its step. */
  lemma StepOn(hash: Hash, sha: Hash, plan: Plan, s: Session) returns (step: Step)
    requires SInv(hash, sha, s) && Constant(plan, s) && CalmSession(s) && !s.pc.Committed?
    requires InWalk(s.pc) && s.pc.i < |s.prog| ==> Passes(hash, plan, s.pc.i)
    ensures Enabled(s, step) && CalmSession(Next(hash, sha, s, step))
  {
    if k, w :| 0 <= k < |s.pools| && WorkerEnabled(s.pools[k], w) {
      step := Work(k, w, Fine);
      assert CalmPool(s.pools[k]);
      WorkerStaysCalm(hash, s.pools[k], s.store, w, Fine);
    } else {
      Progress.NeverStuck(hash, sha, s);
      step :| Enabled(s, step) && Progress.GoesThrough(step);
      assert step == Drive(Go);
      DriveOn(hash, sha, plan, s);
      var t := DriveNext(hash, sha, s, Go);
      DriveTurns(hash, sha, s, Go, t);
      TurnedStaysCalm(s, t);
    }
  }

  /** Still on the way to instruction n. */
  predicate Before(s: Session, n: nat) {
    InWalk(s.pc) && (s.pc.i < n || s.pc == Walking(n))
  }

  lemma NextBefore(hash: Hash, sha: Hash, s: Session, step: Step, n: nat)
    requires Wf(s) && Enabled(s, step) && Before(s, n) && s.pc != Walking(n) && n <= |s.prog|
    requires OnTrack(Next(hash, sha, s, step).pc)
    ensures Before(Next(hash, sha, s, step), n)
  {
    if step.Drive? {
      DriveTurns(hash, sha, s, step.choice, DriveNext(hash, sha, s, step.choice));
    }
  }

  lemma Extended(hash: Hash, sha: Hash, plan: Plan, tr: seq<Session>, step: Step)
    requires Run(hash, sha, plan, tr) && Wf(End(tr)) && Enabled(End(tr), step)
    ensures Run(hash, sha, plan, tr + [Next(hash, sha, End(tr), step)])
  {
    var more := tr + [Next(hash, sha, End(tr), step)];
    forall i, j | 0 <= i && j == i + 1 < |more| ensures CanStep(hash, sha, more[i], more[j]) {
      if j < |tr| {
        assert CanStep(hash, sha, tr[i], tr[j]);
      }
    }
  }

  /** A calm run that has not committed goes on calmly, nearer the end. */
  lemma OneMore(hash: Hash, sha: Hash, plan: Plan, tr: seq<Session>) returns (step: Step, more: seq<Session>)
    requires Sound(hash, plan) && Run(hash, sha, plan, tr)
    requires Wf(End(tr)) && CalmSession(End(tr)) && !End(tr).pc.Committed?
    requires InWalk(End(tr).pc) && End(tr).pc.i < |plan.prog| ==> Passes(hash, plan, End(tr).pc.i)
    ensures Enabled(End(tr), step) && more == tr + [Next(hash, sha, End(tr), step)]
    ensures Run(hash, sha, plan, more) && Wf(End(more)) && CalmSession(End(more))
    ensures 0 <= Progress.Measure(End(tr)) && Progress.Measure(End(more)) < Progress.Measure(End(tr))
    ensures End(tr).prog == plan.prog
  {
    RunInv(hash, sha, plan, tr);
    step := StepOn(hash, sha, plan, End(tr));
    Progress.EveryStepDescends(hash, sha, End(tr), step);
    Progress.MeasureIsNatural(hash, sha, End(tr));
    Extended(hash, sha, plan, tr, step);
    more := tr + [Next(hash, sha, End(tr), step)];
  }

  /** A calm run goes on to instruction n, when everything up to it passes. */
  lemma {:induction false} GoOn(hash: Hash, sha: Hash, plan: Plan, tr: seq<Session>, n: nat) returns (more: seq<Session>)
    requires Sound(hash, plan) && Run(hash, sha, plan, tr) && Passable(hash, plan, n)
    requires Wf(End(tr)) && CalmSession(End(tr)) && Before(End(tr), n)
    ensures Run(hash, sha, plan, more) && End(more).pc == Walking(n)
    decreases Progress.Measure(End(tr))
  {
    if End(tr).pc == Walking(n) {
      more := tr;
    } else {
      var step, next := OneMore(hash, sha, plan, tr);
      NextBefore(hash, sha, End(tr), step, n);
      more := GoOn(hash, sha, plan, next, n);
    }
  }

  lemma Begins(hash: Hash, sha: Hash, plan: Plan)
    requires Sound(hash, plan)
    ensures Run(hash, sha, plan, [Begin(plan.prog, plan.initial, plan.store)])
    ensures Wf(Begin(plan.prog, plan.initial, plan.store)) && CalmSession(Begin(plan.prog, plan.initial, plan.store))
  {
    BeginsCalm(plan);
  }

  /** Some run gets the walk to instruction n exactly when everything before n passes. */
  lemma ReachableIff(hash: Hash, sha: Hash, plan: Plan, n: nat)
    requires Sound(hash, plan)
    ensures (exists tr :: Run(hash, sha, plan, tr) && End(tr).pc == Walking(n)) <==> Passable(hash, plan, n)
  {
    if Passable(hash, plan, n) {
      Begins(hash, sha, plan);
      var tr := GoOn(hash, sha, plan, [Begin(plan.prog, plan.initial, plan.store)], n);
    }
    forall tr | Run(hash, sha, plan, tr) && End(tr).pc == Walking(n) ensures Passable(hash, plan, n) {
      RunPasses(hash, sha, plan, tr);
    }
  }

  /** The run has appended the chunk of instruction i. */
  ghost predicate Accepts(hash: Hash, sha: Hash, plan: Plan, tr: seq<Session>, i: nat)
    requires i < |plan.prog|
  {
    var Instr(k, ev) := plan.prog[i];
    && Run(hash, sha, plan, tr) && End(tr).pc == Walking(i + 1) && ev.Emit?
    && End(tr).PoolAt(k).chunks == Chunks(plan.prog, i, k) + [ev.chunk]
  }

  lemma AcceptsWhenPast(hash: Hash, sha: Hash, plan: Plan, tr: seq<Session>, i: nat)
    requires Sound(hash, plan) && Run(hash, sha, plan, tr) && i < |plan.prog| && plan.prog[i].ev.Emit?
    requires End(tr).pc == Walking(i + 1)
    ensures Accepts(hash, sha, plan, tr, i)
  {
    RunInv(hash, sha, plan, tr);
    assert End(tr).pools[plan.prog[i].k].chunks == Chunks(plan.prog, i + 1, plan.prog[i].k);
  }

  /** InjectKnownChunk takes a chunk not only when it is in the previous index, as its
      comment has it: where the walk gets to ask, some run takes the digest exactly when
      it is in the previous index or is that of a chunk cut from the stream before. */
  lemma InjectionAcceptedIff(hash: Hash, sha: Hash, plan: Plan, i: nat, k: nat, d: Digest, len: nat)
    requires Sound(hash, plan) && i < |plan.prog| && plan.prog[i] == Instr(k, Emit(Reused(d, len)))
    requires exists tr :: Run(hash, sha, plan, tr) && End(tr).pc == Walking(i)
    ensures (exists tr :: Accepts(hash, sha, plan, tr, i)) <==>
            d in plan.initial[k] || d in PoolResults.FreshNames(hash, Chunks(plan.prog, i, k))
  {
    ReachableIff(hash, sha, plan, i);
    ReachableIff(hash, sha, plan, i + 1);
    if Passes(hash, plan, i) {
      assert Passable(hash, plan, i + 1);
      var tr :| Run(hash, sha, plan, tr) && End(tr).pc == Walking(i + 1);
      AcceptsWhenPast(hash, sha, plan, tr, i);
    }
    forall tr | Accepts(hash, sha, plan, tr, i) ensures Passes(hash, plan, i) {
      assert Passable(hash, plan, i + 1);
    }
  }

  /** A run on which a chunk is reused that no previous index has, whatever the chunk. */
  lemma ReusesItsOwn(hash: Hash, sha: Hash, data: Bytes) returns (plan: Plan, tr: seq<Session>)
    ensures Sound(hash, plan) && plan.initial == [{}] && plan.store == map[]
    ensures plan.prog == [Instr(0, Emit(Fresh(data, Forced))), Instr(0, Emit(Reused(hash(data), |data|)))]
    ensures Accepts(hash, sha, plan, tr, 1)
  {
    plan := Plan([Instr(0, Emit(Fresh(data, Forced))), Instr(0, Emit(Reused(hash(data), |data|)))], [{}], map[]);
    var chunks := Chunks(plan.prog, 1, 0);
    assert chunks == [Fresh(data, Forced)] by {
      assert Chunks(plan.prog, 0, 0) == [];
    }
    assert chunks[0].Fresh? && chunks[0].Name(hash) == hash(data);
    assert Passes(hash, plan, 0) && Passes(hash, plan, 1);
    ReachableIff(hash, sha, plan, 2);
    tr :| Run(hash, sha, plan, tr) && End(tr).pc == Walking(2);
    AcceptsWhenPast(hash, sha, plan, tr, 1);
  }

  // ---- To the end ----

  lemma {:induction false} GoCommit(hash: Hash, sha: Hash, plan: Plan, tr: seq<Session>) returns (more: seq<Session>)
    requires Sound(hash, plan) && Run(hash, sha, plan, tr) && Passable(hash, plan, |plan.prog|)
    requires Wf(End(tr)) && CalmSession(End(tr))
    ensures Run(hash, sha, plan, more) && End(more).pc.Committed?
    decreases Progress.Measure(End(tr))
  {
    if End(tr).pc.Committed? {
      more := tr;
    } else {
      var step, next := OneMore(hash, sha, plan, tr);
      more := GoCommit(hash, sha, plan, next);
    }
  }

  /** Some run of a backup commits exactly when nothing it asks for is refused for good:
      no chunk is injected with bytes pending, or with a digest that is neither in the
      previous index nor of the stream itself. */
  lemma CommitsIff(hash: Hash, sha: Hash, plan: Plan)
    requires Sound(hash, plan)
    ensures (exists tr :: Run(hash, sha, plan, tr) && End(tr).pc.Committed?) <==> Passable(hash, plan, |plan.prog|)
  {
    if Passable(hash, plan, |plan.prog|) {
      Begins(hash, sha, plan);
      var tr := GoCommit(hash, sha, plan, [Begin(plan.prog, plan.initial, plan.store)]);
    }
    forall tr | Run(hash, sha, plan, tr) && End(tr).pc.Committed? ensures Passable(hash, plan, |plan.prog|) {
      RunInv(hash, sha, plan, tr);
      RunPasses(hash, sha, plan, tr);
    }
  }
}
