/** The session that the archive writer's calls on several streams make. */
module Programs {
  import opened Types
  import opened Buzhash
  import opened Walk
  import opened Session

  /** One call on stream k. Streams are numbered in the order of their Eofs. */
  datatype Call = Call(k: nat, op: Op)

  // ---- The session the calls make ----

  /** The walk of stream k after the calls; one that is refused changes nothing. */
  ghost function At(cfg: Config, window: Bytes, calls: seq<Call>, k: nat): (w: Walk)
    requires cfg.Valid() && |window| == WINDOW
    ensures w.Coupled(cfg)
    decreases |calls|
  {
    if calls == [] then Start(window)
    else
      var w, c := At(cfg, window, calls[..|calls| - 1], k), calls[|calls| - 1];
      if c.k == k && Legal(w, c.op) then Apply(cfg, w, c.op) else w
  }

  function Emits(k: nat, chunks: seq<Chunk>): seq<Instr> {
    seq(|chunks|, i requires 0 <= i < |chunks| => Instr(k, Emit(chunks[i])))
  }

  /** The chunks to of a stream has more than from. */
  function Grown(from: Walk, to: Walk): seq<Chunk> {
    if |from.chunks| <= |to.chunks| then to.chunks[|from.chunks|..] else []
  }

  ghost function Instrs(cfg: Config, w: Walk, c: Call): seq<Instr>
    requires cfg.Valid() && w.Coupled(cfg)
  {
    if !Legal(w, c.op) then [Instr(c.k, Stray)]
    else (if c.op.Data? then [Instr(c.k, Check)] else []) + Emits(c.k, Grown(w, Apply(cfg, w, c.op)))
  }

  /** What the calls make the walk do. */
  ghost function Feeding(cfg: Config, window: Bytes, calls: seq<Call>): seq<Instr>
    requires cfg.Valid() && |window| == WINDOW
    decreases |calls|
  {
    if calls == [] then []
    else
      var but, c := calls[..|calls| - 1], calls[|calls| - 1];
      Feeding(cfg, window, but) + Instrs(cfg, At(cfg, window, but, c.k), c)
  }

  /** A program with the end of stream j put after it. */
  function Ended(before: seq<Instr>, j: nat, last: seq<Chunk>): seq<Instr> {
    before + Emits(j, last) + [Instr(j, Eof)]
  }

  /** The Eof of each stream in turn, with the chunk its pending bytes make, if any. */
  function Endings(lasts: seq<seq<Chunk>>): seq<Instr> {
    if lasts == [] then []
    else Ended(Endings(lasts[..|lasts| - 1]), |lasts| - 1, lasts[|lasts| - 1])
  }

  ghost function Lasts(cfg: Config, window: Bytes, calls: seq<Call>, n: nat): (lasts: seq<seq<Chunk>>)
    requires cfg.Valid() && |window| == WINDOW
    ensures |lasts| == n
  {
    seq(n, k requires 0 <= k < n => var w := At(cfg, window, calls, k); Grown(w, w.Cut(Last)))
  }

  ghost function Program(cfg: Config, window: Bytes, calls: seq<Call>, n: nat): seq<Instr>
    requires cfg.Valid() && |window| == WINDOW
  {
    Feeding(cfg, window, calls) + Endings(Lasts(cfg, window, calls, n))
  }

  // ---- Its chunks are those of the walks ----

  lemma {:induction false} FeedGrows(cfg: Config, w: Walk, data: Bytes)
    requires cfg.Valid() && w.Coupled(cfg)
    ensures w.chunks <= Feed(cfg, w, data).chunks
    decreases |data|
  {
    if data != [] {
      FeedGrows(cfg, w, data[..|data| - 1]);
    }
  }

  lemma ApplyGrows(cfg: Config, w: Walk, op: Op)
    requires cfg.Valid() && w.Coupled(cfg) && Legal(w, op)
    ensures Apply(cfg, w, op).chunks == w.chunks + Grown(w, Apply(cfg, w, op))
  {
    if op.Data? {
      FeedGrows(cfg, w, op.bytes);
    }
  }

  lemma {:induction false} ChunksPrefix(a: seq<Instr>, b: seq<Instr>, i: nat, k: nat)
    requires i <= |a|
    ensures Chunks(a + b, i, k) == Chunks(a, i, k)
  {
    if i > 0 {
      ChunksPrefix(a, b, i - 1, k);
    }
  }

  lemma {:induction false} ChunksConcat(a: seq<Instr>, b: seq<Instr>, k: nat)
    ensures Chunks(a + b, |a + b|, k) == Chunks(a, |a|, k) + Chunks(b, |b|, k)
  {
    if b == [] {
      assert a + b == a;
    } else {
      var but := b[..|b| - 1];
      ChunksConcat(a, but, k);
      assert but + [b[|b| - 1]] == b && (a + but) + [b[|b| - 1]] == a + b;
      ChunksPrefix(a + but, [b[|b| - 1]], |a + but|, k);
      ChunksPrefix(but, [b[|b| - 1]], |but|, k);
    }
  }

  lemma {:induction false} ChunksEmits(j: nat, chunks: seq<Chunk>, i: nat, k: nat)
    requires i <= |chunks|
    ensures Chunks(Emits(j, chunks), i, k) == if j == k then chunks[..i] else []
  {
    if i > 0 {
      ChunksEmits(j, chunks, i - 1, k);
    }
  }

  lemma EmitsAll(j: nat, chunks: seq<Chunk>, k: nat)
    ensures Chunks(Emits(j, chunks), |chunks|, k) == if j == k then chunks else []
  {
    ChunksEmits(j, chunks, |chunks|, k);
    assert chunks[..|chunks|] == chunks;
  }

  lemma SingleChunks(ins: Instr, k: nat)
    requires !ins.ev.Emit?
    ensures Chunks([ins], 1, k) == []
  {
    assert Chunks([ins], 0, k) == [];
  }

  lemma InstrsChunks(cfg: Config, w: Walk, c: Call, k: nat)
    requires cfg.Valid() && w.Coupled(cfg)
    ensures var instrs := Instrs(cfg, w, c);
            Chunks(instrs, |instrs|, k) == if c.k == k && Legal(w, c.op) then Grown(w, Apply(cfg, w, c.op)) else []
  {
    if !Legal(w, c.op) {
      SingleChunks(Instr(c.k, Stray), k);
    } else {
      var emits := Emits(c.k, Grown(w, Apply(cfg, w, c.op)));
      EmitsAll(c.k, Grown(w, Apply(cfg, w, c.op)), k);
      if c.op.Data? {
        SingleChunks(Instr(c.k, Check), k);
        ChunksConcat([Instr(c.k, Check)], emits, k);
      } else {
        assert [] + emits == emits;
      }
    }
  }

  lemma {:induction false} FeedingChunks(cfg: Config, window: Bytes, calls: seq<Call>, k: nat)
    requires cfg.Valid() && |window| == WINDOW
    ensures var feeding := Feeding(cfg, window, calls);
            Chunks(feeding, |feeding|, k) == At(cfg, window, calls, k).chunks
    decreases |calls|
  {
    if calls != [] {
      var but, c := calls[..|calls| - 1], calls[|calls| - 1];
      var w := At(cfg, window, but, c.k);
      FeedingChunks(cfg, window, but, k);
      InstrsChunks(cfg, w, c, k);
      ChunksConcat(Feeding(cfg, window, but), Instrs(cfg, w, c), k);
      if Legal(w, c.op) {
        ApplyGrows(cfg, w, c.op);
      }
    }
  }

  lemma EndedChunks(before: seq<Instr>, j: nat, last: seq<Chunk>, k: nat)
    ensures var all := Ended(before, j, last);
            Chunks(all, |all|, k) == Chunks(before, |before|, k) + (if j == k then last else [])
  {
    EmitsAll(j, last, k);
    SingleChunks(Instr(j, Eof), k);
    ChunksConcat(before, Emits(j, last), k);
    ChunksConcat(before + Emits(j, last), [Instr(j, Eof)], k);
  }

  lemma {:induction false} EndingsChunks(lasts: seq<seq<Chunk>>, k: nat)
    ensures Chunks(Endings(lasts), |Endings(lasts)|, k) == if k < |lasts| then lasts[k] else []
  {
    if lasts != [] {
      var n := |lasts| - 1;
      EndingsChunks(lasts[..n], k);
      EndedChunks(Endings(lasts[..n]), n, lasts[n], k);
    }
  }

  /** The chunks the session makes of stream k are those the walk of its calls cuts. */
  lemma ProgramChunks(cfg: Config, window: Bytes, calls: seq<Call>, n: nat, k: nat)
    requires cfg.Valid() && |window| == WINDOW && k < n
    ensures var prog := Program(cfg, window, calls, n);
            Chunks(prog, |prog|, k) == At(cfg, window, calls, k).Cut(Last).chunks
  {
    FeedingChunks(cfg, window, calls, k);
    EndingsChunks(Lasts(cfg, window, calls, n), k);
    ChunksConcat(Feeding(cfg, window, calls), Endings(Lasts(cfg, window, calls, n)), k);
  }

  // ---- It is a proper program ----

  ghost predicate CallsOn(calls: seq<Call>, n: nat) {
    forall i :: 0 <= i < |calls| ==> calls[i].k < n
  }

  lemma {:induction false} FeedingShape(cfg: Config, window: Bytes, calls: seq<Call>, n: nat)
    requires cfg.Valid() && |window| == WINDOW && CallsOn(calls, n)
    ensures forall ins :: ins in Feeding(cfg, window, calls) ==> ins.k < n && !ins.ev.Eof?
    decreases |calls|
  {
    if calls != [] {
      FeedingShape(cfg, window, calls[..|calls| - 1], n);
      assert calls[|calls| - 1].k < n;
    }
  }

  lemma EndedShape(before: seq<Instr>, j: nat, last: seq<Chunk>)
    requires WfProg(before, j) && EndsAll(before, j)
    ensures WfProg(Ended(before, j, last), j + 1) && EndsAll(Ended(before, j, last), j + 1)
  {
    var all := Ended(before, j, last);
    forall k | 0 <= k < j + 1 ensures Instr(k, Eof) in all {
      if k < j {
        assert Instr(k, Eof) in before;
      } else {
        assert all[|all| - 1] == Instr(j, Eof);
      }
    }
    forall i | 0 <= i < |all|
      ensures if i < |before| then all[i] == before[i] else all[i].k == j && (all[i].ev.Eof? ==> i == |all| - 1)
    {
      if |before| <= i < |all| - 1 {
        assert all[i] == Emits(j, last)[i - |before|];
      }
    }
  }

  lemma {:induction false} EndingsShape(lasts: seq<seq<Chunk>>)
    ensures WfProg(Endings(lasts), |lasts|) && EndsAll(Endings(lasts), |lasts|)
  {
    if lasts != [] {
      var n := |lasts| - 1;
      EndingsShape(lasts[..n]);
      EndedShape(Endings(lasts[..n]), n, lasts[n]);
    }
  }

  lemma JoinedShape(feeding: seq<Instr>, endings: seq<Instr>, n: nat)
    requires forall ins :: ins in feeding ==> ins.k < n && !ins.ev.Eof?
    requires WfProg(endings, n) && EndsAll(endings, n)
    ensures WfProg(feeding + endings, n) && EndsAll(feeding + endings, n)
  {
    var prog := feeding + endings;
    forall k | 0 <= k < n ensures Instr(k, Eof) in prog {
      assert Instr(k, Eof) in endings;
    }
    forall i | 0 <= i < |prog| ensures prog[i].k < n && (i < |feeding| ==> !prog[i].ev.Eof?) {
      assert prog[i] == if i < |feeding| then feeding[i] else endings[i - |feeding|];
    }
  }

  /** The session of the calls is a proper program: each stream has one Eof, its last. */
  lemma ProgramShape(cfg: Config, window: Bytes, calls: seq<Call>, n: nat)
    requires cfg.Valid() && |window| == WINDOW && CallsOn(calls, n)
    ensures WfProg(Program(cfg, window, calls, n), n) && EndsAll(Program(cfg, window, calls, n), n)
  {
    FeedingShape(cfg, window, calls, n);
    EndingsShape(Lasts(cfg, window, calls, n));
    JoinedShape(Feeding(cfg, window, calls), Endings(Lasts(cfg, window, calls, n)), n);
  }

  // ---- Each stream's walk is that of its own calls ----

  /** The calls on stream k alone. */
  function OpsOf(calls: seq<Call>, k: nat): seq<Op> {
    if calls == [] then []
    else
      var before, c := OpsOf(calls[..|calls| - 1], k), calls[|calls| - 1];
      if c.k == k then before + [c.op] else before
  }

  predicate NoStray(prog: seq<Instr>) {
    forall i :: 0 <= i < |prog| ==> !prog[i].ev.Stray?
  }

  /** Unless a chunk was injected while bytes were pending, the walk of a stream is
      that of its own calls, whatever was done to other streams in between. */
  lemma {:induction false} WalkOfItsOwn(cfg: Config, window: Bytes, calls: seq<Call>, k: nat)
    requires cfg.Valid() && |window| == WINDOW && NoStray(Feeding(cfg, window, calls))
    ensures AllLegal(cfg, Start(window), OpsOf(calls, k))
    ensures At(cfg, window, calls, k) == ApplyAll(cfg, Start(window), OpsOf(calls, k))
    decreases |calls|
  {
    if calls != [] {
      var but, c := calls[..|calls| - 1], calls[|calls| - 1];
      var before, all := Feeding(cfg, window, but), Feeding(cfg, window, calls);
      assert NoStray(before) by {
        assert forall i :: 0 <= i < |before| ==> before[i] == all[i];
      }
      WalkOfItsOwn(cfg, window, but, k);
      assert Legal(At(cfg, window, but, c.k), c.op) by {
        var instrs := Instrs(cfg, At(cfg, window, but, c.k), c);
        assert all == before + instrs;
        assert instrs != [] ==> all[|before|] == instrs[0];
      }
      if c.k == k {
        assert OpsOf(calls, k)[..|OpsOf(calls, k)| - 1] == OpsOf(but, k);
      }
    }
  }
}
