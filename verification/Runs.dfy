/** Whole runs of a backup session, and what they guarantee. */
module Runs {
  import opened Types
  import opened Index
  import opened Pool
  import opened Session
  import opened PoolSteps
  import opened SessionInv
  import opened SessionTurns
  import SessionSteps
  import PoolResults

  /** What a session starts from: the walk's program, the digests of each stream's
      previous index, and the chunks on the server. */
  datatype Plan = Plan(prog: seq<Instr>, initial: seq<set<Digest>>, store: Store)

  /** The server has every chunk of the previous indexes, under its own digest. */
  ghost predicate Sound(hash: Hash, plan: Plan) {
    && WfProg(plan.prog, |plan.initial|) && Honest(hash, plan.store)
    && forall k :: 0 <= k < |plan.initial| ==> plan.initial[k] <= plan.store.Keys
  }

  ghost predicate CanStep(hash: Hash, sha: Hash, s: Session, t: Session) {
    Wf(s) && exists step :: Enabled(s, step) && t == Next(hash, sha, s, step)
  }

  /** Some interleaving of the walk, the workers of every pool and the outcomes of
      every request, up to some point. */
  ghost predicate Run(hash: Hash, sha: Hash, plan: Plan, tr: seq<Session>) {
    && |tr| > 0 && tr[0] == Begin(plan.prog, plan.initial, plan.store)
    && forall i, j :: 0 <= i && j == i + 1 < |tr| ==> CanStep(hash, sha, tr[i], tr[j])
  }

  /** The last state of a run. */
  function End(tr: seq<Session>): Session
    requires |tr| > 0
  {
    tr[|tr| - 1]
  }

  ghost predicate Constant(plan: Plan, s: Session) {
    && s.prog == plan.prog && |s.pools| == |plan.initial|
    && forall k :: 0 <= k < |s.pools| ==> s.pools[k].initial == plan.initial[k]
  }

  /** No step touches the plan. */
  lemma NextConstant(hash: Hash, sha: Hash, plan: Plan, s: Session, step: Step)
    requires Wf(s) && Enabled(s, step) && Constant(plan, s)
    ensures Constant(plan, Next(hash, sha, s, step))
  {
    match step {
      case Work(k, w, o) => WorkerTurns(hash, s.pools[k], s.store, w, o);
      case Drive(choice) =>
        var t := DriveNext(hash, sha, s, choice);
        DriveTurns(hash, sha, s, choice, t);
        TurnedConstant(plan, s, t);
    }
  }

  lemma TurnedConstant(plan: Plan, s: Session, t: Session)
    requires Turned(s, t) && Constant(plan, s)
    ensures Constant(plan, t)
  {
  }

  lemma {:induction false} RunInv(hash: Hash, sha: Hash, plan: Plan, tr: seq<Session>)
    requires Sound(hash, plan) && Run(hash, sha, plan, tr)
    ensures SInv(hash, sha, End(tr)) && Constant(plan, End(tr))
  {
    if |tr| == 1 {
      SessionSteps.BeginInv(hash, sha, plan.prog, plan.initial, plan.store);
    } else {
      var but := tr[..|tr| - 1];
      RunInv(hash, sha, plan, but);
      assert CanStep(hash, sha, tr[|tr| - 2], tr[|tr| - 1]);
      var step :| Enabled(End(but), step) && End(tr) == Next(hash, sha, End(but), step);
      SessionSteps.NextInv(hash, sha, End(but), step, End(tr));
      NextConstant(hash, sha, plan, End(but), step);
    }
  }

  // ---- Safety of each index ----

  /** The chunks of stream k, whole. */
  function Stream(plan: Plan, k: nat): seq<Chunk> {
    Chunks(plan.prog, |plan.prog|, k)
  }

  function SerialClosed(hash: Hash, sha: Hash, plan: Plan, k: nat): Closed {
    ClosedOf(hash, sha, Stream(plan, k))
  }

  /** In every interleaving, with any pattern of failures: an index is closed only as
      the serial index of its stream, and only with every chunk it names on the server,
      from the previous index or sent by this stream's own pool, even while other
      pools are still sending. */
  lemma ClosedIndexIsSafe(hash: Hash, sha: Hash, plan: Plan, tr: seq<Session>, k: nat)
    requires Sound(hash, plan) && Run(hash, sha, plan, tr) && k < |plan.initial|
    requires End(tr).SealedAt(k).Some?
    ensures End(tr).SealedAt(k).value == SerialClosed(hash, sha, plan, k)
    ensures forall i :: 0 <= i < |Stream(plan, k)| ==>
      var d := Stream(plan, k)[i].Name(hash);
      d in End(tr).store && (d in plan.initial[k] || d in End(tr).PoolAt(k).sent)
  {
    RunInv(hash, sha, plan, tr);
    var s := End(tr);
    var p := s.pools[k];
    assert SealedWell(hash, sha, s, k);
    PoolResults.IndexIsSerial(hash, p, s.store);
    forall i | 0 <= i < |Stream(plan, k)|
      ensures var d := Stream(plan, k)[i].Name(hash);
              d in s.store && (d in plan.initial[k] || d in p.sent)
    {
      SerialIndexAt(hash, p.chunks, i);
      PoolResults.EveryChunkIsStored(hash, p, s.store, i);
    }
  }

  lemma TurnedEntries(s: Session, t: Session, k: nat)
    requires Turned(s, t) && k < |s.pools|
    ensures s.pools[k].entries <= t.pools[k].entries
  {
  }

  /** On every run, an entry is changed by nobody but a worker of its own stream that
      holds its job, and only by writing the chunk's digest. */
  lemma OnlyTheHolderWrites(hash: Hash, sha: Hash, plan: Plan, tr: seq<Session>, step: Step, k: nat, i: nat)
    requires Sound(hash, plan) && Run(hash, sha, plan, tr) && Wf(End(tr)) && Enabled(End(tr), step)
    requires k < |plan.initial| && i < |End(tr).PoolAt(k).entries|
    ensures var p, q := End(tr).PoolAt(k), Next(hash, sha, End(tr), step).PoolAt(k);
      && |p.entries| <= |q.entries|
      && (q.entries[i] != p.entries[i] ==>
           && step.Work? && step.k == k && step.w < |p.workers| && i < |p.stat| && i < |p.chunks|
           && p.workers[step.w].Hashing? && p.workers[step.w].job.idx == i && p.stat[i] == Held(step.w)
           && q.entries[i] == p.entries[i].(digest := p.chunks[i].Name(hash)))
  {
    RunInv(hash, sha, plan, tr);
    var s := End(tr);
    match step {
      case Work(j, w, o) =>
        assert Inv(hash, s.pools[j], s.store);
        if j == k {
          PoolResults.WrittenByItsHolder(hash, s.pools[k], s.store, w, o, i);
        }
      case Drive(choice) =>
        var t := DriveNext(hash, sha, s, choice);
        DriveTurns(hash, sha, s, choice, t);
        TurnedEntries(s, t, k);
    }
  }

  // ---- A committed snapshot is complete ----

  lemma EndedSeals(s: Session, k: nat)
    requires Wf(s) && Ended(s) && Stopped(s) && (s.pc.Finishing? || s.pc.Committed?)
    ensures s.manifest
    ensures k < |s.pools| && Instr(k, Eof) in s.prog ==> s.SealedAt(k).Some?
  {
    if Instr(k, Eof) in s.prog {
      var j :| 0 <= j < |s.prog| && s.prog[j] == Instr(k, Eof);
      assert s.prog[j].ev.Eof?;
    }
  }

  /** By the time the session finishes, the walk has been through every Eof. */
  lemma SealedAtFinish(hash: Hash, sha: Hash, plan: Plan, tr: seq<Session>, k: nat)
    requires Sound(hash, plan) && EndsAll(plan.prog, |plan.initial|) && Run(hash, sha, plan, tr)
    requires End(tr).pc.Finishing? || End(tr).pc.Committed?
    ensures End(tr).manifest && |End(tr).sealed| == |plan.initial|
    ensures k < |plan.initial| ==> End(tr).SealedAt(k).Some?
  {
    RunInv(hash, sha, plan, tr);
    EndedSeals(End(tr), k);
  }

  /** Finish is only asked for, let alone done, once every index is closed and the
      manifest is uploaded. */
  lemma FinishComesLast(hash: Hash, sha: Hash, plan: Plan, tr: seq<Session>)
    requires Sound(hash, plan) && EndsAll(plan.prog, |plan.initial|) && Run(hash, sha, plan, tr)
    requires End(tr).pc.Finishing? || End(tr).pc.Committed?
    ensures End(tr).manifest && |End(tr).sealed| == |plan.initial|
    ensures forall k :: 0 <= k < |plan.initial| ==>
      End(tr).SealedAt(k) == Some(SerialClosed(hash, sha, plan, k))
    ensures forall k, i :: 0 <= k < |plan.initial| && 0 <= i < |Stream(plan, k)| ==>
      Stream(plan, k)[i].Name(hash) in End(tr).store
  {
    SealedAtFinish(hash, sha, plan, tr, 0);
    forall k | 0 <= k < |plan.initial|
      ensures End(tr).SealedAt(k) == Some(SerialClosed(hash, sha, plan, k))
      ensures forall i :: 0 <= i < |Stream(plan, k)| ==> Stream(plan, k)[i].Name(hash) in End(tr).store
    {
      SealedAtFinish(hash, sha, plan, tr, k);
      ClosedIndexIsSafe(hash, sha, plan, tr, k);
    }
  }

  // ---- Counts ----

  lemma SealedPool(hash: Hash, sha: Hash, plan: Plan, tr: seq<Session>, k: nat)
    requires Sound(hash, plan) && Run(hash, sha, plan, tr) && k < |plan.initial|
    requires End(tr).SealedAt(k).Some?
    ensures PoolResults.Finished(hash, End(tr).PoolAt(k), End(tr).store)
    ensures End(tr).PoolAt(k).chunks == Stream(plan, k) && End(tr).PoolAt(k).initial == plan.initial[k]
  {
    RunInv(hash, sha, plan, tr);
    assert SealedWell(hash, sha, End(tr), k);
  }

  /** On every run that commits, a stream's new chunks are the distinct contents outside
      its previous index, each sent exactly once; the rest of its entries are reused. */
  lemma CommittedCounts(hash: Hash, sha: Hash, plan: Plan, tr: seq<Session>, k: nat)
    requires Sound(hash, plan) && EndsAll(plan.prog, |plan.initial|) && Run(hash, sha, plan, tr)
    requires End(tr).pc.Committed? && k < |plan.initial|
    ensures var p := End(tr).PoolAt(k);
            && p.news == |PoolResults.FreshNames(hash, Stream(plan, k)) - plan.initial[k]|
            && p.news + p.reused == |Stream(plan, k)|
            && |p.sent| == p.news
            && (forall i, j :: 0 <= i < j < |p.sent| ==> p.sent[i] != p.sent[j])
  {
    SealedAtFinish(hash, sha, plan, tr, k);
    SealedPool(hash, sha, plan, tr, k);
    PoolResults.CountsAreSettled(hash, End(tr).PoolAt(k), End(tr).store);
  }

  /** Two runs of the same plan that commit differ in nothing a reader of the snapshot
      or of the summary can see, whatever their schedules and passing failures. */
  lemma CommitsAgree(hash: Hash, sha: Hash, plan: Plan, one: seq<Session>, two: seq<Session>)
    requires Sound(hash, plan) && EndsAll(plan.prog, |plan.initial|)
    requires Run(hash, sha, plan, one) && Run(hash, sha, plan, two)
    requires End(one).pc.Committed? && End(two).pc.Committed?
    ensures End(one).sealed == End(two).sealed
    ensures forall k :: 0 <= k < |plan.initial| ==>
      End(one).PoolAt(k).news == End(two).PoolAt(k).news && End(one).PoolAt(k).reused == End(two).PoolAt(k).reused
  {
    FinishComesLast(hash, sha, plan, one);
    FinishComesLast(hash, sha, plan, two);
    forall k | 0 <= k < |plan.initial| ensures End(one).sealed[k] == End(two).sealed[k] {
      assert End(one).SealedAt(k) == End(two).SealedAt(k);
    }
    forall k | 0 <= k < |plan.initial|
      ensures End(one).PoolAt(k).news == End(two).PoolAt(k).news && End(one).PoolAt(k).reused == End(two).PoolAt(k).reused
    {
      CommittedCounts(hash, sha, plan, one, k);
      CommittedCounts(hash, sha, plan, two, k);
    }
  }

  // ---- Nothing is still running ----

  /** When backup returns, on success and on error alike, no worker of any pool is
      alive, so none is sending when the client is closed or a new session starts. */
  lemma QuietAtTheEnd(hash: Hash, sha: Hash, plan: Plan, tr: seq<Session>)
    requires Sound(hash, plan) && Run(hash, sha, plan, tr)
    requires End(tr).pc.Finishing? || End(tr).pc.Committed? || End(tr).pc.Failed?
    ensures forall k :: 0 <= k < |plan.initial| ==> End(tr).PoolAt(k).AllExited()
  {
    RunInv(hash, sha, plan, tr);
  }

  /** The channel a chunk is sent on is open. */
  lemma ChannelIsOpen(hash: Hash, sha: Hash, plan: Plan, tr: seq<Session>)
    requires Sound(hash, plan) && Run(hash, sha, plan, tr) && End(tr).pc.Pushing?
    ensures End(tr).pc.i < |plan.prog| && !End(tr).PoolAt(plan.prog[End(tr).pc.i].k).closed
  {
    RunInv(hash, sha, plan, tr);
  }

  /** What the walk of stream k has in current_chunk, when pending is what has come in
      since its last chunk: at the channel send still the chunk itself. */
  function Current(s: Session, k: nat, pending: Bytes): Bytes
    requires s.pc.Pushing? ==> s.pc.i < |s.prog| && s.prog[s.pc.i].ev.Emit?
  {
    if s.pc.Pushing? && s.prog[s.pc.i].k == k && s.prog[s.pc.i].ev.chunk.Fresh? then s.prog[s.pc.i].ev.chunk.data
    else pending
  }

  /** At most 25 chunk buffers of a stream are live in every reachable state: those in
      the channel, with the workers and with the walk, which is blocked at the send with
      the chunk still in hand when the channel is full. */
  lemma FewBuffersLive(hash: Hash, sha: Hash, plan: Plan, tr: seq<Session>, k: nat, pending: Bytes)
    requires Sound(hash, plan) && Run(hash, sha, plan, tr) && k < |plan.initial|
    ensures End(tr).pc.Pushing? ==> End(tr).pc.i < |End(tr).prog| && End(tr).prog[End(tr).pc.i].ev.Emit?
    ensures |PoolResults.Buffers(End(tr).PoolAt(k), Current(End(tr), k, pending))| <= 25
  {
    RunInv(hash, sha, plan, tr);
    PoolInvAt(hash, sha, plan, tr, k);
    PoolResults.FewBuffers(hash, End(tr).PoolAt(k), End(tr).store, Current(End(tr), k, pending));
  }

  lemma PoolInvAt(hash: Hash, sha: Hash, plan: Plan, tr: seq<Session>, k: nat)
    requires Sound(hash, plan) && Run(hash, sha, plan, tr) && k < |plan.initial|
    ensures Inv(hash, End(tr).PoolAt(k), End(tr).store)
  {
    RunInv(hash, sha, plan, tr);
    assert Inv(hash, End(tr).pools[k], End(tr).store);
  }

  // ---- Failures ----

  /** A job received after the cancellation is never sent, nor even hashed. */
  lemma NothingSentLate(hash: Hash, sha: Hash, plan: Plan, tr: seq<Session>, k: nat, i: nat)
    requires Sound(hash, plan) && Run(hash, sha, plan, tr) && k < |plan.initial|
    requires i in End(tr).PoolAt(k).late
    ensures var p := End(tr).PoolAt(k);
            && p.cancelled && i < |p.stat| == |p.writes| && !p.stat[i].Sent? && p.writes[i] == 0
            && forall w :: 0 <= w < |p.workers| && p.workers[w].Busy() && p.workers[w].job.idx == i ==> p.workers[w].Took?
  {
    PoolInvAt(hash, sha, plan, tr, k);
    var p := End(tr).PoolAt(k);
    assert StatOk(p, i);
    assert Unwritten(p, i);
  }

  /** The context is cancelled before the pool is gone only because a failure was kept
      or the backup is on its way out. */
  lemma CancelledForAReason(hash: Hash, sha: Hash, plan: Plan, tr: seq<Session>, k: nat)
    requires Sound(hash, plan) && Run(hash, sha, plan, tr) && k < |plan.initial|
    requires End(tr).PoolAt(k).cancelled && !End(tr).PoolAt(k).AllExited()
    ensures End(tr).PoolAt(k).fatal.Some? || End(tr).pc.Stopping? || End(tr).pc.Waiting?
  {
    RunInv(hash, sha, plan, tr);
    assert Inv(hash, End(tr).PoolAt(k), End(tr).store);
  }

  lemma NextKeepsFailure(hash: Hash, sha: Hash, s: Session, step: Step, k: nat)
    requires Wf(s) && Enabled(s, step) && s.PoolAt(k).fatal.Some?
    ensures Next(hash, sha, s, step).PoolAt(k).fatal == s.PoolAt(k).fatal
  {
    match step {
      case Work(j, w, o) => WorkerTurns(hash, s.pools[j], s.store, w, o);
      case Drive(choice) =>
        var t := DriveNext(hash, sha, s, choice);
        DriveTurns(hash, sha, s, choice, t);
        TurnedKeepsFailure(s, t, k);
    }
  }

  lemma TurnedKeepsFailure(s: Session, t: Session, k: nat)
    requires Turned(s, t)
    ensures t.PoolAt(k).fatal == s.PoolAt(k).fatal
  {
  }

  /** The first upload failure of a stream is kept for good. */
  lemma {:induction false} FailureIsKept(hash: Hash, sha: Hash, plan: Plan, tr: seq<Session>, n: nat, k: nat)
    requires Sound(hash, plan) && Run(hash, sha, plan, tr) && n < |tr| && k < |plan.initial|
    requires tr[n].PoolAt(k).fatal.Some?
    ensures End(tr).PoolAt(k).fatal == tr[n].PoolAt(k).fatal
  {
    if n < |tr| - 1 {
      var but := tr[..|tr| - 1];
      FailureIsKept(hash, sha, plan, but, n, k);
      assert CanStep(hash, sha, tr[|tr| - 2], tr[|tr| - 1]);
      var step :| Enabled(End(but), step) && End(tr) == Next(hash, sha, End(but), step);
      NextKeepsFailure(hash, sha, End(but), step, k);
    }
  }

  /** Once an upload of any stream has failed for good, the run never commits. */
  lemma FailureForbidsCommit(hash: Hash, sha: Hash, plan: Plan, tr: seq<Session>, n: nat, k: nat)
    requires Sound(hash, plan) && EndsAll(plan.prog, |plan.initial|) && Run(hash, sha, plan, tr)
    requires n < |tr| && k < |plan.initial| && tr[n].PoolAt(k).fatal.Some?
    ensures !End(tr).pc.Committed?
  {
    FailureIsKept(hash, sha, plan, tr, n, k);
    if End(tr).pc.Committed? {
      SealedAtFinish(hash, sha, plan, tr, k);
      SealedPool(hash, sha, plan, tr, k);
    }
  }
}
