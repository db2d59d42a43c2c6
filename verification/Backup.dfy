/** A whole backup, from the archive writer's calls to what can be read back once it
    has committed. */
module Backups {
  import opened Types
  import opened Index
  import opened Pool
  import opened Session
  import opened SessionInv
  import opened SessionTurns
  import opened Programs
  import opened Runs
  import Buzhash
  import PoolSteps
  import Walk

  // ---- A refused call never commits ----

  /** The walk has not passed a refused call without an error. */
  ghost predicate StraysAhead(s: Session)
    requires Wf(s)
  {
    OnTrack(s.pc) ==>
      forall j :: 0 <= j < (if InWalk(s.pc) then s.pc.i else |s.prog|) ==> !s.prog[j].ev.Stray?
  }

  lemma TurnedStrays(s: Session, t: Session)
    requires Wf(s) && Wf(t) && Turned(s, t) && StraysAhead(s)
    ensures StraysAhead(t)
  {
  }

  lemma NextStrays(hash: Hash, sha: Hash, s: Session, step: Step, t: Session)
    requires Wf(s) && Enabled(s, step) && t == Next(hash, sha, s, step) && Wf(t) && StraysAhead(s)
    ensures StraysAhead(t)
  {
    match step {
      case Work(_, _, _) => assert t.pc == s.pc && t.prog == s.prog;
      case Drive(choice) =>
        DriveTurns(hash, sha, s, choice, t);
        TurnedStrays(s, t);
    }
  }

  lemma {:induction false} RunStrays(hash: Hash, sha: Hash, plan: Plan, tr: seq<Session>)
    requires Sound(hash, plan) && Run(hash, sha, plan, tr)
    ensures Wf(End(tr)) && StraysAhead(End(tr))
  {
    RunInv(hash, sha, plan, tr);
    if |tr| > 1 {
      var but := tr[..|tr| - 1];
      RunStrays(hash, sha, plan, but);
      assert CanStep(hash, sha, tr[|tr| - 2], tr[|tr| - 1]);
      var step :| Enabled(End(but), step) && End(tr) == Next(hash, sha, End(but), step);
      NextStrays(hash, sha, End(but), step, End(tr));
    }
  }

  /** A run that commits had no call refused. */
  lemma CommittedWithoutStrays(hash: Hash, sha: Hash, plan: Plan, tr: seq<Session>)
    requires Sound(hash, plan) && Run(hash, sha, plan, tr) && End(tr).pc.Committed?
    ensures NoStray(plan.prog)
  {
    RunInv(hash, sha, plan, tr);
    RunStrays(hash, sha, plan, tr);
  }

  // ---- Where the server's chunks come from ----

  /** The contents a session can put on the server, and those it finds there. */
  ghost function Contents(plan: Plan): set<Bytes> {
    (set i | 0 <= i < |plan.prog| && plan.prog[i].ev.Emit? && plan.prog[i].ev.chunk.Fresh? :: plan.prog[i].ev.chunk.data)
    + plan.store.Values
  }

  ghost predicate CollisionFree(hash: Hash, contents: set<Bytes>) {
    forall x, y :: x in contents && y in contents && hash(x) == hash(y) ==> x == y
  }

  /** A pool's chunks are the program's. */
  ghost predicate FromPlan(contents: set<Bytes>, p: Pool) {
    forall i :: 0 <= i < |p.chunks| && p.chunks[i].Fresh? ==> p.chunks[i].data in contents
  }

  ghost predicate AllFromPlan(contents: set<Bytes>, s: Session) {
    && (forall k :: 0 <= k < |s.pools| ==> FromPlan(contents, s.pools[k]))
    && (forall d :: d in s.store ==> s.store[d] in contents)
  }

  lemma WorkerFromPlan(hash: Hash, contents: set<Bytes>, p: Pool, store: Store, w: nat, o: Outcome)
    requires Placed(p) && FromPlan(contents, p) && WorkerEnabled(p, w)
    requires forall d :: d in store ==> store[d] in contents
    ensures var (q, store') := WorkerNext(hash, p, store, w, o);
            q.chunks == p.chunks && forall d :: d in store' ==> store'[d] in contents
  {
    PoolSteps.WorkerTurns(hash, p, store, w, o);
    if p.workers[w].Uploading? {
      PoolSteps.UploadingIs(hash, p, store, w, o);
      assert p.chunks[p.workers[w].job.idx].data == p.workers[w].job.data;
    }
  }

  lemma WorkFromPlan(hash: Hash, sha: Hash, contents: set<Bytes>, s: Session, k: nat, w: nat, o: Outcome, t: Session)
    requires SInv(hash, sha, s) && Enabled(s, Work(k, w, o)) && t == Next(hash, sha, s, Work(k, w, o))
    requires AllFromPlan(contents, s)
    ensures AllFromPlan(contents, t)
  {
    assert Inv(hash, s.pools[k], s.store);
    WorkerFromPlan(hash, contents, s.pools[k], s.store, w, o);
  }

  lemma TurnedFromPlan(plan: Plan, s: Session, t: Session)
    requires Turned(s, t) && s.prog == plan.prog && AllFromPlan(Contents(plan), s)
    ensures AllFromPlan(Contents(plan), t)
  {
    var contents := Contents(plan);
    forall k | 0 <= k < |t.pools| ensures FromPlan(contents, t.pools[k]) {
      assert FromPlan(contents, s.pools[k]);
    }
  }

  lemma {:induction false} RunFromPlan(hash: Hash, sha: Hash, plan: Plan, tr: seq<Session>)
    requires Sound(hash, plan) && Run(hash, sha, plan, tr)
    ensures AllFromPlan(Contents(plan), End(tr))
  {
    if |tr| > 1 {
      var but := tr[..|tr| - 1];
      RunFromPlan(hash, sha, plan, but);
      RunInv(hash, sha, plan, but);
      assert CanStep(hash, sha, tr[|tr| - 2], tr[|tr| - 1]);
      var step :| Enabled(End(but), step) && End(tr) == Next(hash, sha, End(but), step);
      match step {
        case Work(k, w, o) => WorkFromPlan(hash, sha, Contents(plan), End(but), k, w, o, End(tr));
        case Drive(choice) =>
          DriveTurns(hash, sha, End(but), choice, End(tr));
          TurnedFromPlan(plan, End(but), End(tr));
      }
    }
  }

  // ---- Reading a stream back ----

  /** The data the server keeps for each slot of an index, end to end. */
  function ReadBack(slots: seq<Slot>, store: Store): Bytes {
    if slots == [] then []
    else
      var d := slots[|slots| - 1].digest;
      ReadBack(slots[..|slots| - 1], store) + (if d in store then store[d] else [])
  }

  /** The server's data for a chunk's name is the chunk's. */
  ghost predicate Kept(hash: Hash, c: Chunk, before: Store, after: Store) {
    c.Name(hash) in after && after[c.Name(hash)] == Walk.Text(c, before)
  }

  lemma {:induction false} ReadBackSerial(hash: Hash, chunks: seq<Chunk>, before: Store, after: Store)
    requires forall i :: 0 <= i < |chunks| ==> Kept(hash, chunks[i], before, after)
    ensures ReadBack(Slots(SerialIndex(hash, chunks)), after) == Walk.Texts(chunks, before)
  {
    var slots := Slots(SerialIndex(hash, chunks));
    if chunks != [] {
      var n := |chunks| - 1;
      ReadBackSerial(hash, chunks[..n], before, after);
      assert slots[..n] == Slots(SerialIndex(hash, chunks[..n]));
      assert Kept(hash, chunks[n], before, after);
    }
  }

  /** A reused chunk's size is that of its data. */
  predicate TrueSizes(chunks: seq<Chunk>, before: Store) {
    forall i :: 0 <= i < |chunks| && chunks[i].Reused? ==>
      chunks[i].digest in before && |before[chunks[i].digest]| == chunks[i].len
  }

  lemma {:induction false} TextLength(chunks: seq<Chunk>, before: Store)
    requires TrueSizes(chunks, before)
    ensures |Walk.Texts(chunks, before)| == Total(chunks)
  {
    if chunks != [] {
      TextLength(chunks[..|chunks| - 1], before);
    }
  }

  /** Each slot's offset is where its chunk stands in what is read back. */
  lemma SlotsArePositions(hash: Hash, chunks: seq<Chunk>, before: Store, i: nat)
    requires TrueSizes(chunks, before) && i < |chunks|
    ensures Slots(SerialIndex(hash, chunks))[i].offset == |Walk.Texts(chunks[..i], before)|
  {
    SerialIndexAt(hash, chunks, i);
    TextLength(chunks[..i], before);
  }

  /** Entry i of a closed index: its offset is the length of what reads back before it,
      and the checksum covers, from byte 40 * i on, the eight bytes of its end, lowest
      first, and the 32 of its digest. */
  ghost predicate EntryReads(hash: Hash, chunks: seq<Chunk>, before: Store, c: Closed, input: Bytes, i: nat)
    requires i < |chunks|
  {
    && i < |c.slots| && 40 * i + 40 <= |input|
    && c.slots[i] == Slot(chunks[i].Name(hash), |Walk.Texts(chunks[..i], before)|)
    && (forall j :: 0 <= j < 8 ==> input[40 * i + j] == |Walk.Texts(chunks[..i + 1], before)| / Power256(j) % 256)
    && forall j :: 0 <= j < 32 ==> input[40 * i + 8 + j] == c.slots[i].digest[j]
  }

  lemma EntryEnds(hash: Hash, chunks: seq<Chunk>, before: Store, i: nat)
    requires TrueSizes(chunks, before) && i < |chunks|
    ensures var e := SerialIndex(hash, chunks)[i];
      && e.offset == |Walk.Texts(chunks[..i], before)| && e.End() == |Walk.Texts(chunks[..i + 1], before)|
      && e.digest == chunks[i].Name(hash)
  {
    SerialIndexAt(hash, chunks, i);
    TextLength(chunks[..i], before);
    TextLength(chunks[..i + 1], before);
    assert chunks[..i + 1][..i] == chunks[..i];
  }

  lemma EntryIsRead(hash: Hash, chunks: seq<Chunk>, before: Store, c: Closed, entries: seq<Entry>, input: Bytes, i: nat)
    requires TrueSizes(chunks, before) && i < |chunks|
    requires entries == SerialIndex(hash, chunks) && c.slots == Slots(entries) && input == ChecksumInput(entries, WORD_BYTES)
    ensures EntryReads(hash, chunks, before, c, input, i)
  {
    EntryEnds(hash, chunks, before, i);
    ChecksumByPosition(entries, i);
  }

  /** All of what a closed index says, against what is read back. */
  lemma ClosedByPosition(hash: Hash, sha: Hash, chunks: seq<Chunk>, before: Store) returns (input: Bytes)
    requires TrueSizes(chunks, before)
    ensures var c := ClosedOf(hash, sha, chunks);
      && c.csum == sha(input) && |input| == 40 * |chunks|
      && c.count == |c.slots| == |chunks| && c.size == |Walk.Texts(chunks, before)|
      && forall i :: 0 <= i < |chunks| ==> EntryReads(hash, chunks, before, c, input, i)
  {
    var entries := SerialIndex(hash, chunks);
    input := ChecksumInput(entries, WORD_BYTES);
    TextLength(chunks, before);
    InputLength(entries, WORD_BYTES, 40);
    forall i | 0 <= i < |chunks| ensures EntryReads(hash, chunks, before, ClosedOf(hash, sha, chunks), input, i) {
      EntryIsRead(hash, chunks, before, ClosedOf(hash, sha, chunks), entries, input, i);
    }
  }

  lemma {:induction false} ChunkFromProgram(prog: seq<Instr>, i: nat, k: nat, j: nat)
    requires i <= |prog| && j < |Chunks(prog, i, k)|
    ensures exists m :: 0 <= m < |prog| && prog[m].ev.Emit? && prog[m].ev.chunk == Chunks(prog, i, k)[j]
  {
    if j < |Chunks(prog, i - 1, k)| {
      ChunkFromProgram(prog, i - 1, k, j);
    } else {
      assert prog[i - 1].ev.Emit? && prog[i - 1].ev.chunk == Chunks(prog, i, k)[j];
    }
  }

  /** Each content of a backup under its digest: what a digest stands for, whichever run
      puts the content on the server, and whether it was there before. */
  ghost function Book(hash: Hash, plan: Plan): map<Digest, Bytes>
    requires CollisionFree(hash, Contents(plan))
  {
    map x | x in Contents(plan) :: hash(x) := x
  }

  /** On every run, at every point of it, the server keeps under a digest what the digest
      stands for. */
  lemma StoreFollowsBook(hash: Hash, sha: Hash, plan: Plan, tr: seq<Session>, d: Digest)
    requires Sound(hash, plan) && Run(hash, sha, plan, tr) && CollisionFree(hash, Contents(plan))
    requires d in End(tr).store
    ensures d in Book(hash, plan) && End(tr).store[d] == Book(hash, plan)[d]
  {
    RunInv(hash, sha, plan, tr);
    RunFromPlan(hash, sha, plan, tr);
    var x := End(tr).store[d];
    assert x in Contents(plan) && hash(x) == d;
    assert hash(x) in Book(hash, plan);
  }

  /** So does the server the backup found. */
  lemma BookFollowsStore(hash: Hash, plan: Plan, d: Digest)
    requires Sound(hash, plan) && CollisionFree(hash, Contents(plan)) && d in plan.store
    ensures d in Book(hash, plan) && Book(hash, plan)[d] == plan.store[d]
  {
    var x := plan.store[d];
    assert x in Contents(plan) && hash(x) == d;
    assert hash(x) in Book(hash, plan);
  }

  lemma ChunkIsKept(hash: Hash, sha: Hash, plan: Plan, tr: seq<Session>, k: nat, i: nat)
    requires Sound(hash, plan) && Run(hash, sha, plan, tr) && k < |plan.initial| && i < |Stream(plan, k)|
    requires End(tr).SealedAt(k).Some? && CollisionFree(hash, Contents(plan))
    ensures Kept(hash, Stream(plan, k)[i], Book(hash, plan), End(tr).store)
  {
    var c := Stream(plan, k)[i];
    ClosedIndexIsSafe(hash, sha, plan, tr, k);
    StoreFollowsBook(hash, sha, plan, tr, c.Name(hash));
    if c.Fresh? {
      ChunkFromProgram(plan.prog, |plan.prog|, k, i);
      assert c.data in Contents(plan);
    }
  }

  /** Whatever the schedule and the failures, an index that was closed reads back, from
      the server's chunks, as the chunks of its stream: also those reused by a digest
      that was only marked as known in this very run. */
  lemma ClosedIndexReadsBack(hash: Hash, sha: Hash, plan: Plan, tr: seq<Session>, k: nat)
    requires Sound(hash, plan) && Run(hash, sha, plan, tr) && k < |plan.initial|
    requires End(tr).SealedAt(k).Some? && CollisionFree(hash, Contents(plan))
    ensures ReadBack(End(tr).SealedAt(k).value.slots, End(tr).store) == Walk.Texts(Stream(plan, k), Book(hash, plan))
  {
    ClosedIndexIsSafe(hash, sha, plan, tr, k);
    forall i | 0 <= i < |Stream(plan, k)|
      ensures Kept(hash, Stream(plan, k)[i], Book(hash, plan), End(tr).store)
    {
      ChunkIsKept(hash, sha, plan, tr, k, i);
    }
    ReadBackSerial(hash, Stream(plan, k), Book(hash, plan), End(tr).store);
  }

  // ---- From the calls to the snapshot ----

  /** The session of n streams' calls. */
  ghost function PlanOf(cfg: Buzhash.Config, window: Bytes, calls: seq<Call>, initial: seq<set<Digest>>, store: Store): Plan
    requires cfg.Valid() && |window| == Buzhash.WINDOW
  {
    Plan(Program(cfg, window, calls, |initial|), initial, store)
  }

  /** Every index that was closed, on a run that commits or not, is the index of its
      own stream's calls, each taken one by one. */
  lemma ClosedIsOfItsCalls(
    hash: Hash, sha: Hash, cfg: Buzhash.Config, window: Bytes, calls: seq<Call>, initial: seq<set<Digest>>, store: Store,
    tr: seq<Session>, k: nat)
    requires cfg.Valid() && |window| == Buzhash.WINDOW && CallsOn(calls, |initial|)
    requires var plan := PlanOf(cfg, window, calls, initial, store);
             Sound(hash, plan) && Run(hash, sha, plan, tr)
    requires k < |initial| && End(tr).SealedAt(k).Some?
    ensures End(tr).SealedAt(k).value == ClosedOf(hash, sha, At(cfg, window, calls, k).Cut(Last).chunks)
  {
    var plan := PlanOf(cfg, window, calls, initial, store);
    ClosedIndexIsSafe(hash, sha, plan, tr, k);
    ProgramChunks(cfg, window, calls, |initial|, k);
  }

  /** Fidelity of a committed snapshot: whatever the archive writer's calls, whatever
      the schedule, the retries and the passing failures, each stream reads back as its
      logical bytes, the data written with the reused chunks in place. */
  lemma CommittedReadsBack(
    hash: Hash, sha: Hash, cfg: Buzhash.Config, window: Bytes, calls: seq<Call>, initial: seq<set<Digest>>, store: Store,
    tr: seq<Session>, k: nat)
    requires cfg.Valid() && |window| == Buzhash.WINDOW && CallsOn(calls, |initial|)
    requires var plan := PlanOf(cfg, window, calls, initial, store);
             Sound(hash, plan) && CollisionFree(hash, Contents(plan)) && Run(hash, sha, plan, tr)
    requires k < |initial| && End(tr).pc.Committed?
    ensures End(tr).SealedAt(k).Some?
    ensures ReadBack(End(tr).SealedAt(k).value.slots, End(tr).store) ==
            Walk.Stream(OpsOf(calls, k), Book(hash, PlanOf(cfg, window, calls, initial, store)))
  {
    var plan := PlanOf(cfg, window, calls, initial, store);
    ProgramShape(cfg, window, calls, |initial|);
    SealedAtFinish(hash, sha, plan, tr, k);
    ProgramChunks(cfg, window, calls, |initial|, k);
    ClosedIndexReadsBack(hash, sha, plan, tr, k);
    CommittedLegally(hash, sha, cfg, window, calls, initial, store, tr, k);
    Walk.ChunksAreTheStream(cfg, window, OpsOf(calls, k), Book(hash, plan));
  }

  /** The calls inject only chunks of their stream's previous index. */
  predicate InjectsPrevious(ops: seq<Walk.Op>, initial: set<Digest>) {
    forall i :: 0 <= i < |ops| && ops[i].Inject? ==> ops[i].digest in initial
  }

  lemma {:induction false} PreviousStream(hash: Hash, plan: Plan, ops: seq<Walk.Op>, k: nat)
    requires Sound(hash, plan) && CollisionFree(hash, Contents(plan)) && k < |plan.initial|
    requires InjectsPrevious(ops, plan.initial[k])
    ensures Walk.Stream(ops, Book(hash, plan)) == Walk.Stream(ops, plan.store)
  {
    if ops != [] {
      PreviousStream(hash, plan, ops[..|ops| - 1], k);
      var op := ops[|ops| - 1];
      if op.Inject? {
        assert op.digest in plan.initial[k] && op.digest in plan.store;
        BookFollowsStore(hash, plan, op.digest);
      }
    }
  }

  /** In particular, chunks reused from the previous index read back as the previous
      snapshot had them. */
  lemma CommittedKeepsPrevious(
    hash: Hash, sha: Hash, cfg: Buzhash.Config, window: Bytes, calls: seq<Call>, initial: seq<set<Digest>>, store: Store,
    tr: seq<Session>, k: nat)
    requires cfg.Valid() && |window| == Buzhash.WINDOW && CallsOn(calls, |initial|)
    requires var plan := PlanOf(cfg, window, calls, initial, store);
             Sound(hash, plan) && CollisionFree(hash, Contents(plan)) && Run(hash, sha, plan, tr)
    requires k < |initial| && End(tr).pc.Committed? && InjectsPrevious(OpsOf(calls, k), initial[k])
    ensures End(tr).SealedAt(k).Some?
    ensures ReadBack(End(tr).SealedAt(k).value.slots, End(tr).store) == Walk.Stream(OpsOf(calls, k), store)
  {
    CommittedReadsBack(hash, sha, cfg, window, calls, initial, store, tr, k);
    PreviousStream(hash, PlanOf(cfg, window, calls, initial, store), OpsOf(calls, k), k);
  }

  lemma CommittedLegally(
    hash: Hash, sha: Hash, cfg: Buzhash.Config, window: Bytes, calls: seq<Call>, initial: seq<set<Digest>>, store: Store,
    tr: seq<Session>, k: nat)
    requires cfg.Valid() && |window| == Buzhash.WINDOW
    requires var plan := PlanOf(cfg, window, calls, initial, store);
             Sound(hash, plan) && Run(hash, sha, plan, tr)
    requires End(tr).pc.Committed?
    ensures Walk.AllLegal(cfg, Walk.Start(window), OpsOf(calls, k))
    ensures At(cfg, window, calls, k) == Walk.ApplyAll(cfg, Walk.Start(window), OpsOf(calls, k))
  {
    var plan := PlanOf(cfg, window, calls, initial, store);
    CommittedWithoutStrays(hash, sha, plan, tr);
    var feeding := Feeding(cfg, window, calls);
    assert NoStray(feeding) by {
      assert forall i :: 0 <= i < |feeding| ==> feeding[i] == plan.prog[i];
    }
    WalkOfItsOwn(cfg, window, calls, k);
  }
}
