/** One step of the walk: where it can lead, and what it does to the pools. */
module SessionTurns {
  import opened Types
  import opened Pool
  import opened Session

  /** On the way out with an error. */
  predicate Leaving(pc: Pc) {
    pc.Stopping? && pc.k == 0 && pc.end.Some?
  }

  /** Where a step of the walk leads. */
  predicate PcNext(s: Session, pc: Pc) {
    match s.pc
    case Walking(i) =>
      Leaving(pc)
      || (i >= |s.prog| && pc == Blobs(2))
      || (i < |s.prog| && (
           match s.prog[i].ev
           case Check => pc == Walking(i + 1)
           case Emit(c) => pc == if c.Reused? then Looking(i) else Pushing(i)
           case Stray => false
           case Eof => pc == Draining(i)))
    case Looking(i) => Leaving(pc) || pc == Walking(i + 1)
    case Pushing(i) => pc == Walking(i + 1)
    case Draining(i) => pc == Judging(i)
    case Judging(i) => Leaving(pc) || pc == Assigning(i, 0)
    case Assigning(i, b) => Leaving(pc) || pc == Assigning(i, b + 1) || pc == Sealing(i)
    case Sealing(i) => Leaving(pc) || pc == Walking(i + 1)
    case Blobs(left) => pc == if left > 1 then Blobs(left - 1) else Manifesting
    case Manifesting => Leaving(pc) || pc == Stopping(0, None)
    case Stopping(k, end) =>
      if k < |s.pools| then pc == Waiting(k, end)
      else pc == if end.Some? then Failed(end.value) else Finishing
    case Waiting(k, end) => pc == Stopping(k + 1, end)
    case Finishing => pc == Committed || pc == Failed(FinishFailed)
    case _ => false
  }

  /** The stream a step of the walk is about. */
  function Site(s: Session): nat {
    if s.pc.Stopping? then s.pc.k
    else if (s.pc.Walking? || s.pc.Looking? || s.pc.Pushing? || s.pc.Draining?) && s.pc.i < |s.prog| then s.prog[s.pc.i].k
    else 0
  }

  /** What a step of the walk does to the pool of its stream: the chunk of its instruction
      may be added; what the workers do and have failed at stays. */
  predicate PoolNext(s: Session, p: Pool, q: Pool) {
    && (q.initial, q.fatal, q.workers) == (p.initial, p.fatal, p.workers)
    && (p.cancelled ==> q.cancelled)
    && p.entries <= q.entries
    && (!s.pc.Pushing? ==> q.queue == p.queue)
    && (|| q.chunks == p.chunks
        || ((s.pc.Walking? || s.pc.Looking?) && s.pc.i < |s.prog| && s.prog[s.pc.i].ev.Emit?
            && q.chunks == p.chunks + [s.prog[s.pc.i].ev.chunk]))
  }

  ghost predicate Turned(s: Session, t: Session) {
    && (t.prog, t.store) == (s.prog, s.store)
    && PcNext(s, t.pc)
    && |t.pools| == |s.pools|
    && (t.pools == s.pools
        || (Site(s) < |s.pools| && t.pools == s.pools[Site(s) := t.pools[Site(s)]]
            && PoolNext(s, s.pools[Site(s)], t.pools[Site(s)])))
  }

  lemma LeaveTurns(s: Session, err: Error)
    requires PcNext(s, Stopping(0, Some(err)))
    ensures Turned(s, Leave(s, err))
  {
  }

  lemma PoolTurns(s: Session, k: nat, q: Pool, pc: Pc)
    requires k < |s.pools| && k == Site(s) && PoolNext(s, s.pools[k], q) && PcNext(s, pc)
    ensures Turned(s, SetPool(s, k, q).(pc := pc))
  {
  }

  lemma AppendTurns(s: Session, k: nat, c: Chunk)
    requires k < |s.pools| && (s.pc.Walking? || s.pc.Looking?) && s.pc.i < |s.prog| && s.prog[s.pc.i] == Instr(k, Emit(c))
    ensures PoolNext(s, s.pools[k], Append(s.pools[k], c))
  {
  }

  lemma WalkTurns(s: Session, choice: Choice)
    requires Wf(s) && s.pc.Walking?
    ensures Turned(s, WalkNext(s, s.pc.i, choice))
  {
    var i := s.pc.i;
    if choice.GiveUp? {
      LeaveTurns(s, ReadFailed(choice.code));
    } else if i < |s.prog| {
      var Instr(k, ev) := s.prog[i];
      var p := s.pools[k];
      match ev {
        case Check => if p.fatal.Some? { LeaveTurns(s, p.fatal.value); }
        case Emit(c) =>
          if p.fatal.Some? {
            LeaveTurns(s, p.fatal.value);
          } else if c.Fresh? {
            AppendTurns(s, k, c);
            PoolTurns(s, k, Append(p, c), Pushing(i));
          }
        case Stray => LeaveTurns(s, if p.fatal.Some? then p.fatal.value else BytesPending);
        case Eof => PoolTurns(s, k, Close(p), Draining(i));
      }
    }
  }

  lemma LookTurns(hash: Hash, sha: Hash, s: Session, choice: Choice)
    requires Wf(s) && s.pc.Looking?
    ensures Turned(s, DriveNext(hash, sha, s, choice))
  {
    var Instr(k, ev) := s.prog[s.pc.i];
    if ev.chunk.digest in s.pools[k].known {
      AppendTurns(s, k, ev.chunk);
      PoolTurns(s, k, Append(s.pools[k], ev.chunk), Walking(s.pc.i + 1));
    } else {
      LeaveTurns(s, NotInPreviousIndex);
    }
  }

  lemma PushTurns(hash: Hash, sha: Hash, s: Session, choice: Choice)
    requires Wf(s) && s.pc.Pushing? && DriveEnabled(s)
    ensures Turned(s, DriveNext(hash, sha, s, choice))
  {
    var Instr(k, ev) := s.prog[s.pc.i];
    PoolTurns(s, k, Push(s.pools[k], ev.chunk.data), Walking(s.pc.i + 1));
  }

  lemma DrainTurns(hash: Hash, sha: Hash, s: Session, choice: Choice)
    requires Wf(s) && s.pc.Draining? && DriveEnabled(s)
    ensures Turned(s, EofNext(sha, s, choice))
  {
    var k := s.prog[s.pc.i].k;
    PoolTurns(s, k, Cancel(s.pools[k]), Judging(s.pc.i));
  }

  lemma EofTurns(hash: Hash, sha: Hash, s: Session, choice: Choice)
    requires Wf(s) && (s.pc.Judging? || s.pc.Assigning? || s.pc.Sealing?)
    ensures Turned(s, EofNext(sha, s, choice))
  {
  }

  lemma StopTurns(hash: Hash, sha: Hash, s: Session, choice: Choice)
    requires Wf(s) && (s.pc.Stopping? || s.pc.Waiting?) && DriveEnabled(s)
    ensures Turned(s, DriveNext(hash, sha, s, choice))
  {
    if s.pc.Stopping? && s.pc.k < |s.pools| {
      PoolTurns(s, s.pc.k, Abandon(s.pools[s.pc.k]), Waiting(s.pc.k, s.pc.end));
    }
  }

  lemma EndTurns(hash: Hash, sha: Hash, s: Session, choice: Choice)
    requires Wf(s) && (s.pc.Blobs? || s.pc.Manifesting? || s.pc.Finishing?)
    ensures Turned(s, DriveNext(hash, sha, s, choice))
  {
  }

  /** Whatever the walk does next. */
  lemma DriveTurns(hash: Hash, sha: Hash, s: Session, choice: Choice, t: Session)
    requires Wf(s) && DriveEnabled(s) && t == DriveNext(hash, sha, s, choice)
    ensures Turned(s, t)
  {
    match s.pc {
      case Walking(_) => WalkTurns(s, choice);
      case Looking(_) => LookTurns(hash, sha, s, choice);
      case Pushing(_) => PushTurns(hash, sha, s, choice);
      case Draining(_) => DrainTurns(hash, sha, s, choice);
      case Judging(_) => EofTurns(hash, sha, s, choice);
      case Assigning(_, _) => EofTurns(hash, sha, s, choice);
      case Sealing(_) => EofTurns(hash, sha, s, choice);
      case Blobs(_) => EndTurns(hash, sha, s, choice);
      case Manifesting => EndTurns(hash, sha, s, choice);
      case Stopping(_, _) => StopTurns(hash, sha, s, choice);
      case Waiting(_, _) => StopTurns(hash, sha, s, choice);
      case Finishing => EndTurns(hash, sha, s, choice);
    }
  }
}
