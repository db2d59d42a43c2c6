/** The walk of one stream as a pure account of what it cuts: the reference the
    ChunkState methods and the upload pool are measured against. */
module Walk {
  import opened Types
  import opened Buzhash

  /** The chunks cut so far, the bytes of the chunk in progress, and the chunker. */
  datatype Walk = Walk(chunks: seq<Chunk>, pending: Bytes, roll: Roll) {
    /** The chunker has seen exactly the pending bytes since the last boundary. */
    ghost predicate Coupled(cfg: Config) {
      roll.Valid(cfg) && roll.chunkSize == |pending|
    }

    function Cut(cut: Cut): Walk {
      if pending == [] then this else this.(chunks := chunks + [Fresh(pending, cut)], pending := [])
    }

    function CutAndReset(cut: Cut): Walk {
      Cut(cut).(roll := roll.Reset())
    }
  }

  /** What the archive writer asks of a stream, in order. */
  datatype Op =
    | Data(bytes: Bytes)
    | Suggest
    | Force
    | Inject(digest: Digest, len: nat)

  function Start(window: Bytes): Walk {
    Walk([], [], Roll(0, 0, 0, window))
  }

  function FeedByte(cfg: Config, w: Walk, b: Byte): (res: Walk)
    requires cfg.Valid() && w.Coupled(cfg)
    ensures res.Coupled(cfg)
  {
    var (next, cut) := Step(cfg, w.roll, b);
    if cut then Walk(w.chunks + [Fresh(w.pending + [b], Natural)], [], next)
    else Walk(w.chunks, w.pending + [b], next)
  }

  /** The bytes taken in one at a time. */
  function Feed(cfg: Config, w: Walk, data: Bytes): (res: Walk)
    requires cfg.Valid() && w.Coupled(cfg)
    ensures res.Coupled(cfg)
    decreases |data|
  {
    if data == [] then w else FeedByte(cfg, Feed(cfg, w, data[..|data| - 1]), data[|data| - 1])
  }

  /** InjectKnownChunk refuses to append while bytes are pending. */
  predicate Legal(w: Walk, op: Op) {
    op.Inject? ==> w.pending == []
  }

  function Apply(cfg: Config, w: Walk, op: Op): (res: Walk)
    requires cfg.Valid() && w.Coupled(cfg) && Legal(w, op)
    ensures res.Coupled(cfg)
  {
    match op
    case Data(bytes) => Feed(cfg, w, bytes)
    case Suggest => if cfg.min <= |w.pending| <= cfg.max then w.CutAndReset(Suggested) else w
    case Force => w.CutAndReset(Forced)
    case Inject(digest, len) => w.(chunks := w.chunks + [Reused(digest, len)])
  }

  ghost predicate AllLegal(cfg: Config, w: Walk, ops: seq<Op>)
    requires cfg.Valid() && w.Coupled(cfg)
    decreases |ops|, 0
  {
    ops == [] || (
      var but := ops[..|ops| - 1];
      AllLegal(cfg, w, but) && Legal(ApplyAll(cfg, w, but), ops[|ops| - 1]))
  }

  ghost function ApplyAll(cfg: Config, w: Walk, ops: seq<Op>): (res: Walk)
    requires cfg.Valid() && w.Coupled(cfg) && AllLegal(cfg, w, ops)
    ensures res.Coupled(cfg)
    decreases |ops|, 1
  {
    if ops == [] then w else Apply(cfg, ApplyAll(cfg, w, ops[..|ops| - 1]), ops[|ops| - 1])
  }

  // ---- How the bytes are split over writes does not matter ----

  lemma {:induction false} FeedConcat(cfg: Config, w: Walk, a: Bytes, b: Bytes)
    requires cfg.Valid() && w.Coupled(cfg)
    ensures Feed(cfg, w, a + b) == Feed(cfg, Feed(cfg, w, a), b)
    decreases |b|
  {
    if b == [] {
      assert a + b == a;
    } else {
      var n := |b| - 1;
      assert (a + b)[..|a + b| - 1] == a + b[..n];
      FeedConcat(cfg, w, a, b[..n]);
    }
  }

  function Join(pieces: seq<Bytes>): Bytes {
    if pieces == [] then [] else Join(pieces[..|pieces| - 1]) + pieces[|pieces| - 1]
  }

  /** Any two ways of splitting the same bytes over writes leave the same walk. */
  lemma SplitIndependence(cfg: Config, w: Walk, writes: seq<Bytes>, others: seq<Bytes>)
    requires cfg.Valid() && w.Coupled(cfg) && Join(writes) == Join(others)
    requires AllLegal(cfg, w, Writes(writes)) && AllLegal(cfg, w, Writes(others))
    ensures ApplyAll(cfg, w, Writes(writes)) == ApplyAll(cfg, w, Writes(others))
  {
    WritesFeed(cfg, w, writes);
    WritesFeed(cfg, w, others);
  }

  function Writes(pieces: seq<Bytes>): (ops: seq<Op>)
    ensures |ops| == |pieces|
    ensures forall i :: 0 <= i < |ops| ==> ops[i] == Data(pieces[i])
  {
    seq(|pieces|, i requires 0 <= i < |pieces| => Data(pieces[i]))
  }

  lemma {:induction false} WritesFeed(cfg: Config, w: Walk, pieces: seq<Bytes>)
    requires cfg.Valid() && w.Coupled(cfg)
    ensures AllLegal(cfg, w, Writes(pieces))
    ensures ApplyAll(cfg, w, Writes(pieces)) == Feed(cfg, w, Join(pieces))
  {
    if pieces != [] {
      var n := |pieces| - 1;
      WritesFeed(cfg, w, pieces[..n]);
      assert Writes(pieces)[..n] == Writes(pieces[..n]);
      FeedConcat(cfg, w, Join(pieces[..n]), pieces[n]);
    }
  }

  // ---- What the chunker finds in one Scan ----

  lemma OneByteMore(pending: Bytes, data: Bytes, n: nat)
    requires 0 < n <= |data|
    ensures pending + data[..n - 1] + [data[n - 1]] == pending + data[..n]
  {
  }

  /** Bytes taken in without a break only grow the pending chunk. */
  lemma {:induction false} FeedQuiet(cfg: Config, w: Walk, data: Bytes, n: nat)
    requires cfg.Valid() && w.Coupled(cfg) && n <= |data| && Quiet(cfg, w.roll, data, n)
    ensures Feed(cfg, w, data[..n]) == w.(pending := w.pending + data[..n], roll := Run(cfg, w.roll, data[..n]))
  {
    if n > 0 {
      FeedQuiet(cfg, w, data, n - 1);
      assert data[..n][..n - 1] == data[..n - 1];
      OneByteMore(w.pending, data, n);
    } else {
      assert w.pending + data[..0] == w.pending;
    }
  }

  lemma FeedLast(cfg: Config, w: Walk, data: Bytes, pos: nat)
    requires cfg.Valid() && w.Coupled(cfg) && 0 < pos <= |data|
    ensures Feed(cfg, w, data[..pos]) == FeedByte(cfg, Feed(cfg, w, data[..pos - 1]), data[pos - 1])
  {
    assert data[..pos][..pos - 1] == data[..pos - 1];
  }

  lemma FeedCut(cfg: Config, w: Walk, b: Byte)
    requires cfg.Valid() && w.Coupled(cfg) && Step(cfg, w.roll, b).1
    ensures cfg.min <= |w.pending + [b]| <= cfg.max && Step(cfg, w.roll, b).0.chunkSize == 0
    ensures FeedByte(cfg, w, b) == Walk(w.chunks + [Fresh(w.pending + [b], Natural)], [], Step(cfg, w.roll, b).0)
  {
  }

  lemma BreakResets(cfg: Config, r: Roll, data: Bytes, roll: Roll, pos: nat)
    requires cfg.Valid() && r.Valid(cfg) && pos > 0 && Scanned(cfg, r, data, roll, pos)
    ensures pos <= |data| && Quiet(cfg, r, data, pos - 1)
    ensures (roll, true) == Step(cfg, Run(cfg, r, data[..pos - 1]), data[pos - 1])
  {
    RunByte(cfg, r, data, pos - 1);
  }

  /** A Scan that stops at pos > 0 has found the end of one natural chunk. */
  lemma FeedBreak(cfg: Config, w: Walk, data: Bytes, roll: Roll, pos: nat)
    requires cfg.Valid() && w.Coupled(cfg) && pos > 0 && Scanned(cfg, w.roll, data, roll, pos)
    ensures roll.Valid(cfg) && roll.chunkSize == 0
    ensures cfg.min <= |w.pending + data[..pos]| <= cfg.max
    ensures Feed(cfg, w, data[..pos]) == Walk(w.chunks + [Fresh(w.pending + data[..pos], Natural)], [], roll)
  {
    BreakResets(cfg, w.roll, data, roll, pos);
    FeedQuiet(cfg, w, data, pos - 1);
    FeedLast(cfg, w, data, pos);
    var before := w.(pending := w.pending + data[..pos - 1], roll := Run(cfg, w.roll, data[..pos - 1]));
    FeedCut(cfg, before, data[pos - 1]);
    OneByteMore(w.pending, data, pos);
  }

  // ---- Size bounds ----

  /** A chunk cut by the content or by a suggestion is of a normal size; one cut by
      force or by the end of the stream may be smaller, but is never empty. */
  predicate NormalSize(cfg: Config, c: Chunk) {
    c.Fresh? ==>
      && 0 < |c.data| <= cfg.max
      && (c.cut == Natural || c.cut == Suggested ==> cfg.min <= |c.data|)
  }

  predicate NormalSizes(cfg: Config, chunks: seq<Chunk>) {
    forall i :: 0 <= i < |chunks| ==> NormalSize(cfg, chunks[i])
  }

  lemma {:induction false} FeedSizes(cfg: Config, w: Walk, data: Bytes)
    requires cfg.Valid() && w.Coupled(cfg) && NormalSizes(cfg, w.chunks)
    ensures NormalSizes(cfg, Feed(cfg, w, data).chunks)
    decreases |data|
  {
    if data != [] {
      FeedSizes(cfg, w, data[..|data| - 1]);
    }
  }

  /** Whatever is asked of a stream, its chunks keep the size bounds, also the last
      one, which the end of the stream cuts. */
  lemma {:induction false} AllSizes(cfg: Config, w: Walk, ops: seq<Op>)
    requires cfg.Valid() && w.Coupled(cfg) && NormalSizes(cfg, w.chunks) && AllLegal(cfg, w, ops)
    ensures NormalSizes(cfg, ApplyAll(cfg, w, ops).Cut(Last).chunks)
    decreases |ops|
  {
    if ops != [] {
      var before := ApplyAll(cfg, w, ops[..|ops| - 1]);
      AllSizes(cfg, w, ops[..|ops| - 1]);
      assert NormalSizes(cfg, before.chunks) by {
        var cut := before.Cut(Last).chunks;
        assert forall i :: 0 <= i < |before.chunks| ==> before.chunks[i] == cut[i];
      }
      if ops[|ops| - 1].Data? {
        FeedSizes(cfg, before, ops[|ops| - 1].bytes);
      }
    }
  }

  // ---- Chunks after a boundary depend only on the bytes after it ----

  lemma {:induction false} FeedForgets(cfg: Config, a: Walk, b: Walk, data: Bytes)
    requires cfg.Valid() && a.Coupled(cfg) && b.Coupled(cfg)
    requires a.pending == b.pending == []
    ensures Alike(Feed(cfg, a, data).roll, Feed(cfg, b, data).roll)
    ensures Feed(cfg, a, data).pending == Feed(cfg, b, data).pending
    ensures exists cuts :: Feed(cfg, a, data).chunks == a.chunks + cuts && Feed(cfg, b, data).chunks == b.chunks + cuts
    decreases |data|
  {
    if data == [] {
      assert a.chunks == a.chunks + [] && b.chunks == b.chunks + [];
    } else {
      var but, x := data[..|data| - 1], data[|data| - 1];
      FeedForgets(cfg, a, b, but);
      var a', b' := Feed(cfg, a, but), Feed(cfg, b, but);
      AlikeStep(cfg, a'.roll, b'.roll, x);
      var cuts :| a'.chunks == a.chunks + cuts && b'.chunks == b.chunks + cuts;
      if Step(cfg, a'.roll, x).1 {
        var cuts' := cuts + [Fresh(a'.pending + [x], Natural)];
        assert a.chunks + cuts' == a'.chunks + [Fresh(a'.pending + [x], Natural)];
        assert b.chunks + cuts' == b'.chunks + [Fresh(a'.pending + [x], Natural)];
      }
    }
  }

  // ---- The chunks, read in order, are the stream ----

  /** The bytes a chunk stands for; a reused chunk's are those the book has for its digest. */
  function Text(c: Chunk, book: map<Digest, Bytes>): Bytes {
    match c
    case Fresh(data, _) => data
    case Reused(digest, _) => if digest in book then book[digest] else []
  }

  function Texts(chunks: seq<Chunk>, book: map<Digest, Bytes>): Bytes {
    if chunks == [] then []
    else Texts(chunks[..|chunks| - 1], book) + Text(chunks[|chunks| - 1], book)
  }

  /** The logical stream: the data written, with the reused chunks in place. */
  function Stream(ops: seq<Op>, book: map<Digest, Bytes>): Bytes {
    if ops == [] then []
    else
      Stream(ops[..|ops| - 1], book) + OpText(ops[|ops| - 1], book)
  }

  /** What one call adds to the logical stream. */
  function OpText(op: Op, book: map<Digest, Bytes>): Bytes {
    match op
    case Data(bytes) => bytes
    case Inject(digest, len) => Text(Reused(digest, len), book)
    case _ => []
  }

  lemma TextsAppend(chunks: seq<Chunk>, c: Chunk, book: map<Digest, Bytes>)
    ensures Texts(chunks + [c], book) == Texts(chunks, book) + Text(c, book)
  {
    assert (chunks + [c])[..|chunks|] == chunks;
  }

  lemma CutTexts(w: Walk, cut: Cut, book: map<Digest, Bytes>)
    ensures Texts(w.Cut(cut).chunks, book) + w.Cut(cut).pending == Texts(w.chunks, book) + w.pending
  {
    if w.pending != [] {
      TextsAppend(w.chunks, Fresh(w.pending, cut), book);
    }
  }

  lemma ByteTexts(cfg: Config, w: Walk, b: Byte, book: map<Digest, Bytes>)
    requires cfg.Valid() && w.Coupled(cfg)
    ensures var w' := FeedByte(cfg, w, b);
            Texts(w'.chunks, book) + w'.pending == Texts(w.chunks, book) + w.pending + [b]
  {
    TextsAppend(w.chunks, Fresh(w.pending + [b], Natural), book);
    var text := Texts(w.chunks, book);
    assert text + (w.pending + [b]) == text + w.pending + [b];
    assert (text + w.pending + [b]) + [] == text + w.pending + [b];
  }

  lemma {:induction false} FeedTexts(cfg: Config, w: Walk, data: Bytes, book: map<Digest, Bytes>)
    requires cfg.Valid() && w.Coupled(cfg)
    ensures var w' := Feed(cfg, w, data);
            Texts(w'.chunks, book) + w'.pending == Texts(w.chunks, book) + w.pending + data
    decreases |data|
  {
    var text := Texts(w.chunks, book) + w.pending;
    if data == [] {
      assert text + data == text;
    } else {
      var n := |data| - 1;
      FeedTexts(cfg, w, data[..n], book);
      ByteTexts(cfg, Feed(cfg, w, data[..n]), data[n], book);
      assert text + data == text + data[..n] + [data[n]];
    }
  }

  /** Each call adds its part to what has been cut and what is pending. */
  lemma OpTexts(cfg: Config, w: Walk, op: Op, book: map<Digest, Bytes>)
    requires cfg.Valid() && w.Coupled(cfg) && Legal(w, op)
    ensures var w' := Apply(cfg, w, op);
            Texts(w'.chunks, book) + w'.pending == Texts(w.chunks, book) + w.pending + OpText(op, book)
  {
    var text := Texts(w.chunks, book) + w.pending;
    assert text + [] == text;
    match op {
      case Data(bytes) => FeedTexts(cfg, w, bytes, book);
      case Suggest => CutTexts(w, Suggested, book);
      case Force => CutTexts(w, Forced, book);
      case Inject(digest, len) =>
        TextsAppend(w.chunks, Reused(digest, len), book);
        assert text == Texts(w.chunks, book);
    }
  }

  /** Read-back fidelity of the walk: the chunks cut by the end of the stream are the
      logical stream, nothing lost, doubled or moved. */
  lemma {:induction false} ChunksAreTheStream(cfg: Config, window: Bytes, ops: seq<Op>, book: map<Digest, Bytes>)
    requires cfg.Valid() && |window| == WINDOW && AllLegal(cfg, Start(window), ops)
    ensures var end := ApplyAll(cfg, Start(window), ops);
            Texts(end.Cut(Last).chunks, book) == Texts(end.chunks, book) + end.pending == Stream(ops, book)
    decreases |ops|
  {
    var start := Start(window);
    CutTexts(ApplyAll(cfg, start, ops), Last, book);
    if ops != [] {
      var n := |ops| - 1;
      ChunksAreTheStream(cfg, window, ops[..n], book);
      OpTexts(cfg, ApplyAll(cfg, start, ops[..n]), ops[n], book);
    }
  }
}
