/** One backup session as a transition system: the single walk that feeds the streams
    and then closes their indexes, the upload pool of each stream, and the server. */
module Session {
  import opened Types
  import opened Index
  import opened Pool

  /** What the walk does to one stream. */
  datatype Event =
    | Check                     // HandleData's look at uploadErr
    | Emit(chunk: Chunk)        // queue, or InjectKnownChunk for a reused chunk
    | Stray                     // InjectKnownChunk while bytes are pending
    | Eof                       // Eof, after its emitCurrent

  datatype Instr = Instr(k: nat, ev: Event)

  /** Where the walk is. i is the instruction, k a stream, end the error on the way out. */
  datatype Pc =
    | Walking(i: nat)
    | Looking(i: nat)                         // in InjectKnownChunk, before knownChunks.Get
    | Pushing(i: nat)                         // at the channel send
    | Draining(i: nat)                        // channel closed, in uploadWG.Wait
    | Judging(i: nat)                         // Eof's look at uploadErr
    | Assigning(i: nat, batch: nat)
    | Sealing(i: nat)                         // CloseDynamicIndex
    | Blobs(left: nat)                        // the side-car uploads
    | Manifesting
    | Stopping(k: nat, end: Option<Error>)    // the deferred stopUploads(true)
    | Waiting(k: nat, end: Option<Error>)
    | Finishing
    | Committed
    | Failed(err: Error)

  /** What the outside does to the walk: a request goes through or fails after its
      retries, or the walk itself ends in an error (a folder that cannot be listed). */
  datatype Choice = Go | Fails | GiveUp(code: nat)

  datatype Step = Work(k: nat, w: nat, o: Outcome) | Drive(choice: Choice)

  datatype Session = Session(
    prog: seq<Instr>,
    pools: seq<Pool>,
    store: Store,
    pc: Pc,
    requested: seq<seq<seq<Slot>>>,
    sealed: seq<Option<Closed>>,
    manifest: bool)
  {
    function PoolAt(k: nat): Pool {
      if k < |pools| then pools[k] else Started({})
    }

    function SealedAt(k: nat): Option<Closed> {
      if k < |sealed| then sealed[k] else None
    }
  }

  // ---- The program ----

  /** Every stream exists, and nothing is asked of a stream after its Eof. */
  ghost predicate WfProg(prog: seq<Instr>, n: nat) {
    && (forall i :: 0 <= i < |prog| ==> prog[i].k < n)
    && (forall i, j :: 0 <= i < j < |prog| && prog[i].ev.Eof? ==> prog[j].k != prog[i].k)
  }

  ghost predicate EndsAll(prog: seq<Instr>, n: nat) {
    forall k :: 0 <= k < n ==> Instr(k, Eof) in prog
  }

  /** The chunks the first i instructions append to stream k. */
  function Chunks(prog: seq<Instr>, i: nat, k: nat): seq<Chunk>
    requires i <= |prog|
  {
    if i == 0 then []
    else
      var before, ins := Chunks(prog, i - 1, k), prog[i - 1];
      if ins.k == k && ins.ev.Emit? then before + [ins.ev.chunk] else before
  }

  ghost predicate Wf(s: Session) {
    && |s.pools| == |s.requested| == |s.sealed| && WfProg(s.prog, |s.pools|)
    && (match s.pc
        case Walking(i) => i <= |s.prog|
        case Looking(i) => i < |s.prog| && s.prog[i].ev.Emit? && s.prog[i].ev.chunk.Reused?
        case Pushing(i) => i < |s.prog| && s.prog[i].ev.Emit? && s.prog[i].ev.chunk.Fresh?
                           && s.pools[s.prog[i].k].entries != []
        case Draining(i) => i < |s.prog| && s.prog[i].ev.Eof?
        case Judging(i) => i < |s.prog| && s.prog[i].ev.Eof?
        case Assigning(i, b) => i < |s.prog| && s.prog[i].ev.Eof? && b <= BatchCount(Slots(s.pools[s.prog[i].k].entries))
        case Sealing(i) => i < |s.prog| && s.prog[i].ev.Eof?
        case Stopping(k, _) => k <= |s.pools|
        case Waiting(k, _) => k < |s.pools|
        case Blobs(left) => left <= 2
        case _ => true)
  }

  // ---- The walk's steps ----

  function SetPool(s: Session, k: nat, p: Pool): Session
    requires k < |s.pools|
  {
    s.(pools := s.pools[k := p])
  }

  function Leave(s: Session, err: Error): Session {
    s.(pc := Stopping(0, Some(err)))
  }

  ghost predicate DriveEnabled(s: Session)
    requires Wf(s)
  {
    match s.pc
    case Pushing(i) => CanPush(s.pools[s.prog[i].k])
    case Draining(i) => s.pools[s.prog[i].k].AllExited()
    case Waiting(k, _) => s.pools[k].AllExited()
    case Committed => false
    case Failed(_) => false
    case _ => true
  }

  ghost function WalkNext(s: Session, i: nat, choice: Choice): Session
    requires Wf(s) && i <= |s.prog|
  {
    if choice.GiveUp? then Leave(s, ReadFailed(choice.code))
    else if i == |s.prog| then s.(pc := Blobs(2))
    else
      var Instr(k, ev) := s.prog[i];
      var p := s.pools[k];
      match ev
      case Check => if p.fatal.Some? then Leave(s, p.fatal.value) else s.(pc := Walking(i + 1))
      case Emit(c) =>
        if p.fatal.Some? then Leave(s, p.fatal.value)
        else if c.Reused? then s.(pc := Looking(i))
        else SetPool(s, k, Append(p, c)).(pc := Pushing(i))
      case Stray => Leave(s, if p.fatal.Some? then p.fatal.value else BytesPending)
      case Eof => SetPool(s, k, Close(p)).(pc := Draining(i))
  }

  /** CloseDynamicIndex: the server closes what it was assigned. */
  function SealNext(sha: Hash, s: Session, i: nat, k: nat): Session
    requires k < |s.pools| == |s.sealed| == |s.requested|
  {
    var p := s.pools[k];
    s.(sealed := s.sealed[k := Some(Closed(Flatten(s.requested[k]), Checksum(sha, p.entries), p.pos, p.count))],
       pc := Walking(i + 1))
  }

  ghost function EofNext(sha: Hash, s: Session, choice: Choice): Session
    requires Wf(s) && (s.pc.Draining? || s.pc.Judging? || s.pc.Assigning? || s.pc.Sealing?)
  {
    var i := s.pc.i;
    var k := s.prog[i].k;
    var p := s.pools[k];
    match s.pc
    case Draining(_) => SetPool(s, k, Cancel(p)).(pc := Judging(i))
    case Judging(_) => if p.fatal.Some? then Leave(s, p.fatal.value) else s.(pc := Assigning(i, 0))
    case Assigning(_, b) =>
      var slots := Slots(p.entries);
      if b == BatchCount(slots) then s.(pc := Sealing(i))
      else if choice.Fails? then Leave(s, AssignFailed)
      else s.(requested := s.requested[k := s.requested[k] + [Batch(slots, b)]], pc := Assigning(i, b + 1))
    case Sealing(_) =>
      if choice.Fails? then Leave(s, CloseFailed)
      else SealNext(sha, s, i, k)
  }

  ghost function DriveNext(hash: Hash, sha: Hash, s: Session, choice: Choice): Session
    requires Wf(s) && DriveEnabled(s)
  {
    match s.pc
    case Walking(i) => WalkNext(s, i, choice)
    case Looking(i) =>
      var Instr(k, ev) := s.prog[i];
      if ev.chunk.digest in s.pools[k].known then SetPool(s, k, Append(s.pools[k], ev.chunk)).(pc := Walking(i + 1))
      else Leave(s, NotInPreviousIndex)
    case Pushing(i) =>
      var Instr(k, ev) := s.prog[i];
      SetPool(s, k, Push(s.pools[k], ev.chunk.data)).(pc := Walking(i + 1))
    case Draining(_) => EofNext(sha, s, choice)
    case Judging(_) => EofNext(sha, s, choice)
    case Assigning(_, _) => EofNext(sha, s, choice)
    case Sealing(_) => EofNext(sha, s, choice)
    case Blobs(left) => s.(pc := if left > 1 then Blobs(left - 1) else Manifesting)
    case Manifesting =>
      if choice.Fails? then Leave(s, ManifestFailed) else s.(manifest := true, pc := Stopping(0, None))
    case Stopping(k, end) =>
      if k < |s.pools| then SetPool(s, k, Abandon(s.pools[k])).(pc := Waiting(k, end))
      else s.(pc := if end.Some? then Failed(end.value) else Finishing)
    case Waiting(k, end) => s.(pc := Stopping(k + 1, end))
    case Finishing => s.(pc := if choice.Fails? then Failed(FinishFailed) else Committed)
  }

  // ---- All steps ----

  ghost predicate Enabled(s: Session, step: Step)
    requires Wf(s)
  {
    match step
    case Work(k, w, _) => k < |s.pools| && WorkerEnabled(s.pools[k], w)
    case Drive(_) => DriveEnabled(s)
  }

  ghost function Next(hash: Hash, sha: Hash, s: Session, step: Step): Session
    requires Wf(s) && Enabled(s, step)
  {
    match step
    case Work(k, w, o) =>
      var (p, store) := WorkerNext(hash, s.pools[k], s.store, w, o);
      SetPool(s, k, p).(store := store)
    case Drive(choice) => DriveNext(hash, sha, s, choice)
  }

  function Begin(prog: seq<Instr>, initial: seq<set<Digest>>, store: Store): Session {
    Session(prog, seq(|initial|, k requires 0 <= k < |initial| => Started(initial[k])), store, Walking(0),
      seq(|initial|, _ => []), seq(|initial|, _ => None), false)
  }

  /** What every server holds to: a chunk is kept under its own digest. */
  ghost predicate Honest(hash: Hash, store: Store) {
    forall d :: d in store ==> hash(store[d]) == d
  }
}
