/** The walk's own steps keep the session's invariant. */
module SessionSteps {
  import opened Types
  import opened Index
  import opened Pool
  import opened Session
  import opened SessionInv
  import PoolProofs

  /** Only the program counter moves. */
  lemma GoPools(hash: Hash, sha: Hash, s: Session, pc: Pc)
    requires SInv(hash, sha, s) && Wf(s.(pc := pc))
    ensures Pools(hash, s.(pc := pc)) && Seals(hash, sha, s.(pc := pc))
  {
    var t := s.(pc := pc);
    forall k | 0 <= k < |t.pools| && t.sealed[k].Some? ensures SealedWell(hash, sha, t, k) {
      assert SealedWell(hash, sha, s, k);
    }
  }

  lemma LeaveStep(hash: Hash, sha: Hash, s: Session, err: Error)
    requires SInv(hash, sha, s) && !s.pc.Pushing?
    ensures SInv(hash, sha, Leave(s, err))
  {
    GoPools(hash, sha, s, Stopping(0, Some(err)));
  }

  lemma CheckStep(hash: Hash, sha: Hash, s: Session)
    requires SInv(hash, sha, s) && s.pc.Walking? && s.pc.i < |s.prog| && s.prog[s.pc.i].ev.Check?
    ensures SInv(hash, sha, s.(pc := Walking(s.pc.i + 1)))
  {
    var t := s.(pc := Walking(s.pc.i + 1));
    GoPools(hash, sha, s, t.pc);
    assert Tracked(t) by {
      forall k | 0 <= k < |t.pools| ensures t.pools[k].chunks == Chunks(t.prog, s.pc.i + 1, k) {
        assert s.pools[k].chunks == Chunks(s.prog, s.pc.i, k);
      }
    }
  }

  lemma LookStep(hash: Hash, sha: Hash, s: Session)
    requires SInv(hash, sha, s) && s.pc.Walking? && s.pc.i < |s.prog|
    requires s.prog[s.pc.i].ev.Emit? && s.prog[s.pc.i].ev.chunk.Reused?
    ensures SInv(hash, sha, s.(pc := Looking(s.pc.i)))
  {
    GoPools(hash, sha, s, Looking(s.pc.i));
  }

  lemma BlobsStep(hash: Hash, sha: Hash, s: Session)
    requires SInv(hash, sha, s) && s.pc.Walking? && s.pc.i == |s.prog|
    ensures SInv(hash, sha, s.(pc := Blobs(2)))
  {
    GoPools(hash, sha, s, Blobs(2));
  }

  lemma JudgeStep(hash: Hash, sha: Hash, s: Session)
    requires SInv(hash, sha, s) && s.pc.Judging? && s.pools[s.prog[s.pc.i].k].fatal.None?
    ensures SInv(hash, sha, s.(pc := Assigning(s.pc.i, 0)))
  {
    GoPools(hash, sha, s, Assigning(s.pc.i, 0));
  }

  lemma ToSealStep(hash: Hash, sha: Hash, s: Session)
    requires SInv(hash, sha, s) && s.pc.Assigning?
    requires s.pc.batch == BatchCount(Slots(s.pools[s.prog[s.pc.i].k].entries))
    ensures SInv(hash, sha, s.(pc := Sealing(s.pc.i)))
  {
    GoPools(hash, sha, s, Sealing(s.pc.i));
  }

  lemma BlobStep(hash: Hash, sha: Hash, s: Session, pc: Pc)
    requires SInv(hash, sha, s) && s.pc.Blobs? && ((pc.Blobs? && pc.left <= 2) || pc.Manifesting?)
    ensures SInv(hash, sha, s.(pc := pc))
  {
    GoPools(hash, sha, s, pc);
  }

  lemma StoppedStep(hash: Hash, sha: Hash, s: Session)
    requires SInv(hash, sha, s) && s.pc.Stopping? && s.pc.k == |s.pools|
    ensures SInv(hash, sha, s.(pc := if s.pc.end.Some? then Failed(s.pc.end.value) else Finishing))
  {
    GoPools(hash, sha, s, if s.pc.end.Some? then Failed(s.pc.end.value) else Finishing);
  }

  lemma WaitStep(hash: Hash, sha: Hash, s: Session)
    requires SInv(hash, sha, s) && s.pc.Waiting? && s.pools[s.pc.k].AllExited()
    ensures SInv(hash, sha, s.(pc := Stopping(s.pc.k + 1, s.pc.end)))
  {
    GoPools(hash, sha, s, Stopping(s.pc.k + 1, s.pc.end));
  }

  lemma FinishStep(hash: Hash, sha: Hash, s: Session, pc: Pc)
    requires SInv(hash, sha, s) && s.pc.Finishing? && (pc == Committed || pc.Failed?)
    ensures SInv(hash, sha, s.(pc := pc))
  {
    GoPools(hash, sha, s, pc);
  }

  lemma ManifestStep(hash: Hash, sha: Hash, s: Session)
    requires SInv(hash, sha, s) && s.pc.Manifesting?
    ensures SInv(hash, sha, s.(manifest := true, pc := Stopping(0, None)))
  {
    var t := s.(manifest := true, pc := Stopping(0, None));
    forall k | 0 <= k < |t.pools| && t.sealed[k].Some? ensures SealedWell(hash, sha, t, k) {
      assert SealedWell(hash, sha, s, k);
    }
  }

  // ---- Steps that touch the pool of one stream ----

  lemma OnePool(hash: Hash, s: Session, k: nat, q: Pool, t: Session)
    requires Wf(s) && Pools(hash, s) && k < |s.pools| && t.pools == s.pools[k := q] && t.store == s.store
    requires Inv(hash, q, s.store)
    ensures Pools(hash, t)
  {
  }

  /** Closed indexes of other streams stay as they are. */
  lemma OtherSeals(hash: Hash, sha: Hash, s: Session, k: nat, q: Pool, t: Session)
    requires SInv(hash, sha, s) && k < |s.pools| && Wf(t)
    requires t.pools == s.pools[k := q] && t.store == s.store && t.prog == s.prog && t.sealed == s.sealed
    requires s.sealed[k].None?
    ensures Seals(hash, sha, t)
  {
    forall j | 0 <= j < |t.pools| && t.sealed[j].Some? ensures SealedWell(hash, sha, t, j) {
      assert SealedWell(hash, sha, s, j);
    }
  }

  /** The stream of an instruction still to come is open. */
  lemma StillOpen(hash: Hash, sha: Hash, s: Session)
    requires SInv(hash, sha, s) && (s.pc.Walking? || s.pc.Looking? || s.pc.Pushing?) && s.pc.i < |s.prog|
    ensures var k := s.prog[s.pc.i].k;
            !s.pools[k].closed && s.sealed[k].None? && s.requested[k] == []
  {
  }

  lemma AppendTracked(s: Session, t: Session, i: nat, q: Pool)
    requires Wf(s) && Wf(t) && Tracked(s) && OnTrack(s.pc) && OnTrack(t.pc)
    requires i < |s.prog| && Appended(s) == i && Appended(t) == i + 1 && t.prog == s.prog
    requires s.prog[i].ev.Emit? && t.pools == s.pools[s.prog[i].k := q]
    requires q.chunks == s.pools[s.prog[i].k].chunks + [s.prog[i].ev.chunk]
    ensures Tracked(t)
  {
    forall k | 0 <= k < |t.pools| ensures t.pools[k].chunks == Chunks(t.prog, i + 1, k) {
      assert s.pools[k].chunks == Chunks(s.prog, i, k);
    }
  }

  /** The walk is past instruction i, whose stream's pool is now q. */
  ghost predicate Passed(s: Session, i: nat, q: Pool, t: Session)
    requires Wf(s)
  {
    && (s.pc.Looking? || s.pc.Pushing?) && s.pc.i == i && i < |s.prog|
    && t == SetPool(s, s.prog[i].k, q).(pc := Walking(i + 1))
    && PoolProofs.Settled(q) && q.abandoned == s.pools[s.prog[i].k].abandoned && q.closed == s.pools[s.prog[i].k].closed
  }

  lemma PassedWalk(s: Session, i: nat, q: Pool, t: Session)
    requires Wf(s) && Passed(s, i, q, t)
    requires Handed(s) && Opened(s) && Ended(s)
    ensures Wf(t) && Handed(t) && Opened(t) && Closing(t) && Ended(t) && Stopped(t)
  {
    assert forall k :: 0 <= k < |t.pools| && k != s.prog[i].k ==> t.pools[k] == s.pools[k];
  }

  /** The walk stands at the channel send of instruction i, its chunk appended. */
  ghost predicate Held(s: Session, i: nat, q: Pool, t: Session)
    requires Wf(s)
  {
    && s.pc == Walking(i) && i < |s.prog| && s.prog[i].ev.Emit? && s.prog[i].ev.chunk.Fresh?
    && t == SetPool(s, s.prog[i].k, q).(pc := Pushing(i))
    && q.closed == s.pools[s.prog[i].k].closed && q.abandoned == s.pools[s.prog[i].k].abandoned
    && |q.chunks| == |q.stat| == |q.entries| > 0 && q.stat[|q.stat| - 1].AtWalk?
    && q.chunks[|q.chunks| - 1] == s.prog[i].ev.chunk
  }

  lemma HeldWalk(s: Session, i: nat, q: Pool, t: Session)
    requires Wf(s) && Held(s, i, q, t) && Handed(s) && Opened(s) && Ended(s)
    ensures Wf(t) && Handed(t) && Opened(t) && Closing(t) && Ended(t) && Stopped(t)
  {
    assert forall k :: 0 <= k < |t.pools| && k != s.prog[i].k ==> t.pools[k] == s.pools[k];
  }

  lemma EmitStep(hash: Hash, sha: Hash, s: Session)
    requires SInv(hash, sha, s) && s.pc.Walking? && s.pc.i < |s.prog|
    requires s.prog[s.pc.i].ev.Emit? && s.prog[s.pc.i].ev.chunk.Fresh?
    ensures var ins := s.prog[s.pc.i];
            SInv(hash, sha, SetPool(s, ins.k, Append(s.pools[ins.k], ins.ev.chunk)).(pc := Pushing(s.pc.i)))
  {
    var i := s.pc.i;
    var Instr(k, ev) := s.prog[i];
    var p, q := s.pools[k], Append(s.pools[k], ev.chunk);
    var t := SetPool(s, k, q).(pc := Pushing(i));
    StillOpen(hash, sha, s);
    assert Inv(hash, p, s.store);
    PoolProofs.AppendInv(hash, p, s.store, ev.chunk);
    HeldWalk(s, i, q, t);
    OnePool(hash, s, k, q, t);
    OtherSeals(hash, sha, s, k, q, t);
    AppendTracked(s, t, i, q);
  }

  lemma InjectFrame(p: Pool, c: Chunk)
    requires c.Reused?
    ensures var q := Append(p, c);
            PoolProofs.Settled(q) && (q.chunks, q.closed, q.abandoned) == (p.chunks + [c], p.closed, p.abandoned)
  {
  }

  lemma InjectReady(hash: Hash, sha: Hash, s: Session)
    requires SInv(hash, sha, s) && s.pc.Looking?
    requires s.prog[s.pc.i].ev.chunk.digest in s.pools[s.prog[s.pc.i].k].known
    ensures var p := s.pools[s.prog[s.pc.i].k];
            Inv(hash, p, s.store) && PoolProofs.MayAppend(hash, p, s.prog[s.pc.i].ev.chunk)
  {
    StillOpen(hash, sha, s);
    assert Inv(hash, s.pools[s.prog[s.pc.i].k], s.store);
  }

  lemma InjectPassed(s: Session, i: nat, q: Pool, t: Session)
    requires Wf(s) && s.pc == Looking(i) && q == Append(s.pools[s.prog[i].k], s.prog[i].ev.chunk)
    requires t == SetPool(s, s.prog[i].k, q).(pc := Walking(i + 1))
    ensures Passed(s, i, q, t) && Wf(t)
    ensures q.chunks == s.pools[s.prog[i].k].chunks + [s.prog[i].ev.chunk]
  {
    InjectFrame(s.pools[s.prog[i].k], s.prog[i].ev.chunk);
  }

  lemma InjectStep(hash: Hash, sha: Hash, s: Session)
    requires SInv(hash, sha, s) && s.pc.Looking?
    requires s.prog[s.pc.i].ev.chunk.digest in s.pools[s.prog[s.pc.i].k].known
    ensures var ins := s.prog[s.pc.i];
            SInv(hash, sha, SetPool(s, ins.k, Append(s.pools[ins.k], ins.ev.chunk)).(pc := Walking(s.pc.i + 1)))
  {
    var i := s.pc.i;
    var Instr(k, ev) := s.prog[i];
    var p, q := s.pools[k], Append(s.pools[k], ev.chunk);
    var t := SetPool(s, k, q).(pc := Walking(i + 1));
    StillOpen(hash, sha, s);
    InjectReady(hash, sha, s);
    InjectPassed(s, i, q, t);
    PoolProofs.AppendInv(hash, p, s.store, ev.chunk);
    PassedWalk(s, i, q, t);
    OnePool(hash, s, k, q, t);
    OtherSeals(hash, sha, s, k, q, t);
    AppendTracked(s, t, i, q);
  }

  lemma PushTracked(s: Session, i: nat, q: Pool, t: Session)
    requires Wf(s) && s.pc.Pushing? && Passed(s, i, q, t) && Wf(t) && Tracked(s)
    requires q.chunks == s.pools[s.prog[i].k].chunks
    ensures Tracked(t)
  {
    forall k | 0 <= k < |t.pools| ensures t.pools[k].chunks == Chunks(t.prog, i + 1, k) {
      assert s.pools[k].chunks == Chunks(s.prog, i + 1, k);
    }
  }

  lemma PushFrame(p: Pool, data: Bytes)
    requires PoolProofs.MayPush(p, data) && |p.entries| == |p.chunks|
    ensures var q := Push(p, data);
            PoolProofs.Settled(q) && (q.chunks, q.closed, q.abandoned) == (p.chunks, p.closed, p.abandoned)
  {
  }

  lemma PushReady(hash: Hash, sha: Hash, s: Session)
    requires SInv(hash, sha, s) && s.pc.Pushing? && CanPush(s.pools[s.prog[s.pc.i].k])
    ensures var p := s.pools[s.prog[s.pc.i].k];
            Inv(hash, p, s.store) && |p.entries| == |p.chunks| && PoolProofs.MayPush(p, s.prog[s.pc.i].ev.chunk.data)
  {
    StillOpen(hash, sha, s);
    assert Inv(hash, s.pools[s.prog[s.pc.i].k], s.store);
  }

  lemma PushStep(hash: Hash, sha: Hash, s: Session)
    requires SInv(hash, sha, s) && s.pc.Pushing? && CanPush(s.pools[s.prog[s.pc.i].k])
    ensures var ins := s.prog[s.pc.i];
            SInv(hash, sha, SetPool(s, ins.k, Push(s.pools[ins.k], ins.ev.chunk.data)).(pc := Walking(s.pc.i + 1)))
  {
    var i := s.pc.i;
    var Instr(k, ev) := s.prog[i];
    var p, q := s.pools[k], Push(s.pools[k], ev.chunk.data);
    var t := SetPool(s, k, q).(pc := Walking(i + 1));
    StillOpen(hash, sha, s);
    PushReady(hash, sha, s);
    PushFrame(p, ev.chunk.data);
    PoolProofs.PushInv(hash, p, s.store, ev.chunk.data);
    PassedWalk(s, i, q, t);
    OnePool(hash, s, k, q, t);
    OtherSeals(hash, sha, s, k, q, t);
    PushTracked(s, i, q, t);
  }

  /** An Eof closes the channel, and waits. */
  lemma CloseWalk(s: Session, i: nat, k: nat, q: Pool, t: Session)
    requires Wf(s) && s.pc == Walking(i) && i < |s.prog| && s.prog[i] == Instr(k, Eof)
    requires t == SetPool(s, k, q).(pc := Draining(i)) && q == Close(s.pools[k])
    requires Tracked(s) && Handed(s) && Opened(s) && Ended(s)
    ensures Wf(t) && Tracked(t) && Handed(t) && Opened(t) && Closing(t) && Ended(t) && Stopped(t)
  {
  }

  lemma CloseStep(hash: Hash, sha: Hash, s: Session)
    requires SInv(hash, sha, s) && s.pc.Walking? && s.pc.i < |s.prog| && s.prog[s.pc.i].ev.Eof?
    ensures var k := s.prog[s.pc.i].k; SInv(hash, sha, SetPool(s, k, Close(s.pools[k])).(pc := Draining(s.pc.i)))
  {
    var i, k := s.pc.i, s.prog[s.pc.i].k;
    var p, q := s.pools[k], Close(s.pools[k]);
    var t := SetPool(s, k, q).(pc := Draining(i));
    StillOpen(hash, sha, s);
    assert Inv(hash, p, s.store);
    PoolProofs.CloseInv(hash, p, s.store);
    CloseWalk(s, i, k, q, t);
    OnePool(hash, s, k, q, t);
    OtherSeals(hash, sha, s, k, q, t);
  }

  lemma DrainWalk(s: Session, i: nat, k: nat, q: Pool, t: Session)
    requires Wf(s) && s.pc == Draining(i) && i < |s.prog| && s.prog[i].k == k && s.pools[k].AllExited()
    requires t == SetPool(s, k, q).(pc := Judging(i)) && q == Cancel(s.pools[k])
    requires Tracked(s) && Handed(s) && Opened(s) && Closing(s) && Ended(s)
    ensures Wf(t) && Tracked(t) && Handed(t) && Opened(t) && Closing(t) && Ended(t) && Stopped(t)
  {
  }

  lemma DrainStep(hash: Hash, sha: Hash, s: Session)
    requires SInv(hash, sha, s) && s.pc.Draining? && s.pools[s.prog[s.pc.i].k].AllExited()
    ensures var k := s.prog[s.pc.i].k; SInv(hash, sha, SetPool(s, k, Cancel(s.pools[k])).(pc := Judging(s.pc.i)))
  {
    var i, k := s.pc.i, s.prog[s.pc.i].k;
    var p, q := s.pools[k], Cancel(s.pools[k]);
    var t := SetPool(s, k, q).(pc := Judging(i));
    assert Inv(hash, p, s.store);
    PoolProofs.CancelInv(hash, p, s.store);
    DrainWalk(s, i, k, q, t);
    OnePool(hash, s, k, q, t);
    OtherSeals(hash, sha, s, k, q, t);
  }

  lemma AssignStep(hash: Hash, sha: Hash, s: Session)
    requires SInv(hash, sha, s) && s.pc.Assigning?
    requires s.pc.batch < BatchCount(Slots(s.pools[s.prog[s.pc.i].k].entries))
    ensures var k := s.prog[s.pc.i].k;
            var batch := Batch(Slots(s.pools[k].entries), s.pc.batch);
            SInv(hash, sha, s.(requested := s.requested[k := s.requested[k] + [batch]], pc := Assigning(s.pc.i, s.pc.batch + 1)))
  {
    var k := s.prog[s.pc.i].k;
    var batch := Batch(Slots(s.pools[k].entries), s.pc.batch);
    var t := s.(requested := s.requested[k := s.requested[k] + [batch]], pc := Assigning(s.pc.i, s.pc.batch + 1));
    OtherSeals(hash, sha, s, k, s.pools[k], t);
    assert Pools(hash, t);
  }

  /** Nothing more is asked of a stream after its Eof, so its chunks are complete. */
  lemma {:induction false} ChunksComplete(prog: seq<Instr>, n: nat, i: nat, m: nat, k: nat)
    requires WfProg(prog, n) && i < m <= |prog| && prog[i] == Instr(k, Eof)
    ensures Chunks(prog, m, k) == Chunks(prog, i, k)
  {
    if m > i + 1 {
      ChunksComplete(prog, n, i, m - 1, k);
    }
  }

  lemma SealWalk(sha: Hash, s: Session, t: Session)
    requires Wf(s) && s.pc.Sealing? && t == SealNext(sha, s, s.pc.i, s.prog[s.pc.i].k)
    requires Handed(s) && Opened(s) && Ended(s) && Tracked(s)
    ensures Wf(t) && Handed(t) && Opened(t) && Closing(t) && Ended(t) && Stopped(t) && Tracked(t)
  {
    forall j | 0 <= j < |t.pools| ensures t.pools[j].chunks == Chunks(t.prog, s.pc.i + 1, j) {
      assert s.pools[j].chunks == Chunks(s.prog, s.pc.i, j);
    }
  }

  lemma SealStep(hash: Hash, sha: Hash, s: Session)
    requires SInv(hash, sha, s) && s.pc.Sealing?
    ensures SInv(hash, sha, SealNext(sha, s, s.pc.i, s.prog[s.pc.i].k))
  {
    var i, k := s.pc.i, s.prog[s.pc.i].k;
    var p, t := s.pools[k], SealNext(sha, s, i, k);
    SealWalk(sha, s, t);
    AllBatches(Slots(p.entries));
    ChunksComplete(s.prog, |s.pools|, i, |s.prog|, k);
    assert Inv(hash, p, s.store);
    assert SealedWell(hash, sha, t, k);
    forall j | 0 <= j < |t.pools| && t.sealed[j].Some? ensures SealedWell(hash, sha, t, j) {
      if j != k {
        assert SealedWell(hash, sha, s, j);
      }
    }
    assert Pools(hash, t);
  }

  lemma StopWalk(s: Session, t: Session)
    requires Wf(s) && s.pc.Stopping? && s.pc.k < |s.pools|
    requires t == SetPool(s, s.pc.k, Abandon(s.pools[s.pc.k])).(pc := Waiting(s.pc.k, s.pc.end))
    requires Tracked(s) && Handed(s) && Ended(s) && Stopped(s)
    ensures Wf(t) && Tracked(t) && Handed(t) && Opened(t) && Closing(t) && Ended(t) && Stopped(t)
  {
  }

  lemma StopStep(hash: Hash, sha: Hash, s: Session)
    requires SInv(hash, sha, s) && s.pc.Stopping? && s.pc.k < |s.pools|
    ensures SInv(hash, sha, SetPool(s, s.pc.k, Abandon(s.pools[s.pc.k])).(pc := Waiting(s.pc.k, s.pc.end)))
  {
    var k := s.pc.k;
    var p, q := s.pools[k], Abandon(s.pools[k]);
    var t := SetPool(s, k, q).(pc := Waiting(k, s.pc.end));
    assert Inv(hash, p, s.store);
    PoolProofs.AbandonInv(hash, p, s.store);
    StopWalk(s, t);
    OnePool(hash, s, k, q, t);
    forall j | 0 <= j < |t.pools| && t.sealed[j].Some? ensures SealedWell(hash, sha, t, j) {
      assert SealedWell(hash, sha, s, j);
    }
  }

  // ---- Any step ----

  lemma WalkStep(hash: Hash, sha: Hash, s: Session, choice: Choice)
    requires SInv(hash, sha, s) && s.pc.Walking?
    ensures SInv(hash, sha, WalkNext(s, s.pc.i, choice))
  {
    var i := s.pc.i;
    if choice.GiveUp? {
      LeaveStep(hash, sha, s, ReadFailed(choice.code));
    } else if i == |s.prog| {
      BlobsStep(hash, sha, s);
    } else {
      var p := s.pools[s.prog[i].k];
      match s.prog[i].ev {
        case Check => if p.fatal.Some? { LeaveStep(hash, sha, s, p.fatal.value); } else { CheckStep(hash, sha, s); }
        case Emit(c) =>
          if p.fatal.Some? { LeaveStep(hash, sha, s, p.fatal.value); }
          else if c.Reused? { LookStep(hash, sha, s); }
          else { EmitStep(hash, sha, s); }
        case Stray => LeaveStep(hash, sha, s, if p.fatal.Some? then p.fatal.value else BytesPending);
        case Eof => CloseStep(hash, sha, s);
      }
    }
  }

  lemma JoinStep(hash: Hash, sha: Hash, s: Session, choice: Choice)
    requires SInv(hash, sha, s) && (s.pc.Draining? || s.pc.Judging?) && DriveEnabled(s)
    ensures SInv(hash, sha, EofNext(sha, s, choice))
  {
    var p := s.pools[s.prog[s.pc.i].k];
    if s.pc.Draining? {
      DrainStep(hash, sha, s);
    } else if p.fatal.Some? {
      LeaveStep(hash, sha, s, p.fatal.value);
    } else {
      JudgeStep(hash, sha, s);
    }
  }

  lemma AssigningIs(sha: Hash, s: Session, choice: Choice)
    requires Wf(s) && s.pc.Assigning?
    ensures
      var i, b, k := s.pc.i, s.pc.batch, s.prog[s.pc.i].k;
      var slots := Slots(s.pools[k].entries);
      EofNext(sha, s, choice) ==
        if b == BatchCount(slots) then s.(pc := Sealing(i))
        else if choice.Fails? then Leave(s, AssignFailed)
        else s.(requested := s.requested[k := s.requested[k] + [Batch(slots, b)]], pc := Assigning(i, b + 1))
  {
  }

  lemma AssigningStep(hash: Hash, sha: Hash, s: Session, choice: Choice)
    requires SInv(hash, sha, s) && s.pc.Assigning?
    ensures SInv(hash, sha, EofNext(sha, s, choice))
  {
    AssigningIs(sha, s, choice);
    if s.pc.batch == BatchCount(Slots(s.pools[s.prog[s.pc.i].k].entries)) {
      ToSealStep(hash, sha, s);
    } else if choice.Fails? {
      LeaveStep(hash, sha, s, AssignFailed);
    } else {
      AssignStep(hash, sha, s);
    }
  }

  lemma SealingStep(hash: Hash, sha: Hash, s: Session, choice: Choice)
    requires SInv(hash, sha, s) && s.pc.Sealing?
    ensures SInv(hash, sha, EofNext(sha, s, choice))
  {
    if choice.Fails? {
      LeaveStep(hash, sha, s, CloseFailed);
    } else {
      SealStep(hash, sha, s);
    }
  }

  lemma LookingIs(hash: Hash, sha: Hash, s: Session, choice: Choice)
    requires Wf(s) && s.pc.Looking?
    ensures
      var Instr(k, ev) := s.prog[s.pc.i];
      DriveNext(hash, sha, s, choice) ==
        if ev.chunk.digest in s.pools[k].known then SetPool(s, k, Append(s.pools[k], ev.chunk)).(pc := Walking(s.pc.i + 1))
        else Leave(s, NotInPreviousIndex)
  {
  }

  lemma LookingStep(hash: Hash, sha: Hash, s: Session, choice: Choice)
    requires SInv(hash, sha, s) && s.pc.Looking?
    ensures SInv(hash, sha, DriveNext(hash, sha, s, choice))
  {
    LookingIs(hash, sha, s, choice);
    if s.prog[s.pc.i].ev.chunk.digest in s.pools[s.prog[s.pc.i].k].known {
      InjectStep(hash, sha, s);
    } else {
      LeaveStep(hash, sha, s, NotInPreviousIndex);
    }
  }

  lemma EndStep(hash: Hash, sha: Hash, s: Session, choice: Choice)
    requires SInv(hash, sha, s) && (s.pc.Blobs? || s.pc.Manifesting? || s.pc.Finishing?)
    ensures SInv(hash, sha, DriveNext(hash, sha, s, choice))
  {
    match s.pc {
      case Blobs(left) => BlobStep(hash, sha, s, if left > 1 then Blobs(left - 1) else Manifesting);
      case Manifesting => if choice.Fails? { LeaveStep(hash, sha, s, ManifestFailed); } else { ManifestStep(hash, sha, s); }
      case Finishing => FinishStep(hash, sha, s, if choice.Fails? then Failed(FinishFailed) else Committed);
    }
  }

  lemma OutStep(hash: Hash, sha: Hash, s: Session, choice: Choice)
    requires SInv(hash, sha, s) && DriveEnabled(s) && (s.pc.Stopping? || s.pc.Waiting?)
    ensures SInv(hash, sha, DriveNext(hash, sha, s, choice))
  {
    match s.pc {
      case Stopping(k, _) => if k < |s.pools| { StopStep(hash, sha, s); } else { StoppedStep(hash, sha, s); }
      case Waiting(_, _) => WaitStep(hash, sha, s);
    }
  }

  lemma EofStep(hash: Hash, sha: Hash, s: Session, choice: Choice)
    requires SInv(hash, sha, s) && InEof(s.pc) && DriveEnabled(s)
    ensures SInv(hash, sha, EofNext(sha, s, choice))
  {
    if s.pc.Assigning? {
      AssigningStep(hash, sha, s, choice);
    } else if s.pc.Sealing? {
      SealingStep(hash, sha, s, choice);
    } else {
      JoinStep(hash, sha, s, choice);
    }
  }

  lemma DriveStep(hash: Hash, sha: Hash, s: Session, choice: Choice, t: Session)
    requires SInv(hash, sha, s) && DriveEnabled(s) && t == DriveNext(hash, sha, s, choice)
    ensures SInv(hash, sha, t)
  {
    if s.pc.Walking? {
      WalkStep(hash, sha, s, choice);
    } else if InEof(s.pc) {
      EofStep(hash, sha, s, choice);
    } else if s.pc.Looking? {
      LookingStep(hash, sha, s, choice);
    } else if s.pc.Pushing? {
      PushStep(hash, sha, s);
    } else if s.pc.Stopping? || s.pc.Waiting? {
      OutStep(hash, sha, s, choice);
    } else {
      EndStep(hash, sha, s, choice);
    }
  }

  /** Every step, of the walk or of any worker, keeps the invariant. */
  lemma NextInv(hash: Hash, sha: Hash, s: Session, step: Step, t: Session)
    requires SInv(hash, sha, s) && Enabled(s, step) && t == Next(hash, sha, s, step)
    ensures SInv(hash, sha, t)
  {
    match step {
      case Work(k, w, o) => WorkStep(hash, sha, s, k, w, o);
      case Drive(choice) => DriveStep(hash, sha, s, choice, t);
    }
  }

  lemma BeginInv(hash: Hash, sha: Hash, prog: seq<Instr>, initial: seq<set<Digest>>, store: Store)
    requires WfProg(prog, |initial|) && Honest(hash, store)
    requires forall k :: 0 <= k < |initial| ==> initial[k] <= store.Keys
    ensures SInv(hash, sha, Begin(prog, initial, store))
  {
    var s := Begin(prog, initial, store);
    forall k | 0 <= k < |initial| ensures Inv(hash, s.pools[k], s.store) {
      PoolProofs.StartInv(hash, initial[k], store);
    }
  }
}
