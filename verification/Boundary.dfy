/** The boundaries asked for: each is the end of a chunk, and no other chunk says it is. */
module Boundary {
  import opened Types
  import opened Buzhash
  import opened Walk

  lemma {:induction false} FeedGrows(cfg: Config, w: Walk, data: Bytes)
    requires cfg.Valid() && w.Coupled(cfg)
    ensures w.chunks <= Feed(cfg, w, data).chunks
    ensures forall j :: |w.chunks| <= j < |Feed(cfg, w, data).chunks| ==>
      Feed(cfg, w, data).chunks[j].Fresh? && Feed(cfg, w, data).chunks[j].cut == Natural
    decreases |data|
  {
    if data != [] {
      FeedGrows(cfg, w, data[..|data| - 1]);
    }
  }

  lemma OpGrows(cfg: Config, w: Walk, op: Op)
    requires cfg.Valid() && w.Coupled(cfg) && Legal(w, op)
    ensures w.chunks <= Apply(cfg, w, op).chunks
  {
    if op.Data? {
      FeedGrows(cfg, w, op.bytes);
    }
  }

  /** What was legal and cut before stays so whatever else is asked. */
  lemma {:induction false} ChunksStay(cfg: Config, w: Walk, ops: seq<Op>, i: nat)
    requires cfg.Valid() && w.Coupled(cfg) && AllLegal(cfg, w, ops) && i <= |ops|
    ensures AllLegal(cfg, w, ops[..i])
    ensures ApplyAll(cfg, w, ops[..i]).chunks <= ApplyAll(cfg, w, ops).chunks
    decreases |ops|
  {
    if i == |ops| {
      assert ops[..i] == ops;
    } else {
      var n := |ops| - 1;
      ChunksStay(cfg, w, ops[..n], i);
      assert ops[..n][..i] == ops[..i];
      OpGrows(cfg, ApplyAll(cfg, w, ops[..n]), ops[n]);
    }
  }

  /** A call that ends the chunk in progress: a suggestion when that is of normal size,
      a boundary that is forced, or a reused chunk, before which nothing may be pending. */
  predicate Ending(cfg: Config, pending: Bytes, op: Op) {
    match op
    case Suggest => cfg.min <= |pending| <= cfg.max
    case Force => true
    case Inject(_, _) => pending == []
    case Data(_) => false
  }

  lemma EndedAfter(cfg: Config, w: Walk, op: Op)
    requires cfg.Valid() && w.Coupled(cfg) && Legal(w, op) && Ending(cfg, w.pending, op)
    ensures w.Cut(if op.Suggest? then Suggested else Forced).chunks <= Apply(cfg, w, op).chunks
  {
  }

  lemma CutInFront(w: Walk, cut: Cut, chunks: seq<Chunk>)
    requires w.Cut(cut).chunks <= chunks
    ensures var n := |w.Cut(cut).chunks|;
            chunks[..n] == w.Cut(cut).chunks && (w.pending != [] ==> n > 0 && chunks[n - 1] == Fresh(w.pending, cut))
  {
  }

  lemma InFront(a: seq<Chunk>, b: seq<Chunk>, c: seq<Chunk>, d: seq<Chunk>)
    requires a <= b <= c <= d
    ensures a <= d
  {
  }

  lemma InjectedNext(cfg: Config, w: Walk, op: Op, chunks: seq<Chunk>)
    requires cfg.Valid() && w.Coupled(cfg) && op.Inject? && Legal(w, op) && Apply(cfg, w, op).chunks <= chunks
    ensures |w.chunks| < |chunks| && chunks[|w.chunks|] == Reused(op.digest, op.len)
  {
  }

  /** In the whole stream, as it is when it ends, the bytes written before such a call end
      with a chunk; the chunk they end with is the one that was in progress, and a reused
      chunk comes next with the digest and size asked for. */
  lemma BoundaryIsKept(cfg: Config, window: Bytes, ops: seq<Op>, i: nat, book: map<Digest, Bytes>) returns (n: nat)
    requires cfg.Valid() && |window| == WINDOW && AllLegal(cfg, Start(window), ops) && i < |ops|
    requires AllLegal(cfg, Start(window), ops[..i])
    requires Ending(cfg, ApplyAll(cfg, Start(window), ops[..i]).pending, ops[i])
    ensures var chunks := ApplyAll(cfg, Start(window), ops).Cut(Last).chunks;
            var pending := ApplyAll(cfg, Start(window), ops[..i]).pending;
      && n <= |chunks| && Texts(chunks[..n], book) == Stream(ops[..i], book)
      && (pending != [] ==> n > 0 && chunks[n - 1] == Fresh(pending, if ops[i].Suggest? then Suggested else Forced))
      && (ops[i].Inject? ==> n < |chunks| && chunks[n] == Reused(ops[i].digest, ops[i].len))
  {
    var start := Start(window);
    ChunksStay(cfg, start, ops, i + 1);
    var w, next, end := ApplyAll(cfg, start, ops[..i]), ApplyAll(cfg, start, ops[..i + 1]), ApplyAll(cfg, start, ops);
    var cut := if ops[i].Suggest? then Suggested else Forced;
    assert ops[..i + 1][..i] == ops[..i];
    EndedAfter(cfg, w, ops[i]);
    ChunksAreTheStream(cfg, window, ops[..i], book);
    CutTexts(w, cut, book);
    n := |w.Cut(cut).chunks|;
    var chunks := end.Cut(Last).chunks;
    InFront(w.Cut(cut).chunks, next.chunks, end.chunks, chunks);
    InFront(next.chunks, next.chunks, end.chunks, chunks);
    CutInFront(w, cut, chunks);
    if ops[i].Inject? {
      InjectedNext(cfg, w, ops[i], chunks);
    }
  }

  /** And the other way round: a chunk cut by a suggestion, or by force, ends where there
      was such a call, and holds what was in progress then. */
  lemma {:induction false} CutsHaveCauses(cfg: Config, window: Bytes, ops: seq<Op>, j: nat) returns (i: nat)
    requires cfg.Valid() && |window| == WINDOW && AllLegal(cfg, Start(window), ops)
    requires j < |ApplyAll(cfg, Start(window), ops).chunks|
    requires var c := ApplyAll(cfg, Start(window), ops).chunks[j]; c.Fresh? && (c.cut == Suggested || c.cut == Forced)
    ensures i < |ops| && AllLegal(cfg, Start(window), ops[..i])
    ensures var c, w := ApplyAll(cfg, Start(window), ops).chunks[j], ApplyAll(cfg, Start(window), ops[..i]);
      && (if c.cut == Suggested then ops[i].Suggest? else ops[i].Force?)
      && w.chunks == ApplyAll(cfg, Start(window), ops).chunks[..j] && w.pending == c.data
    decreases |ops|
  {
    var n := |ops| - 1;
    var before, end := ApplyAll(cfg, Start(window), ops[..n]), ApplyAll(cfg, Start(window), ops);
    OpGrows(cfg, before, ops[n]);
    if j < |before.chunks| {
      i := CutsHaveCauses(cfg, window, ops[..n], j);
      assert ops[..n][..i] == ops[..i];
      assert before.chunks[..j] == end.chunks[..j];
    } else {
      i := n;
      if ops[n].Data? {
        FeedGrows(cfg, before, ops[n].bytes);
      }
      assert before.chunks == end.chunks[..j];
    }
  }
}
