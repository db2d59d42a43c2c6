/** Where the content ends a chunk: the chunker against the hash of the last 64 bytes,
    taken over the bytes alone. */
module Content {
  import opened Types
  import opened Buzhash
  import opened Walk

  /** x rotated left by one bit, d times. */
  function Rotated(x: bv32, d: nat): bv32 {
    if d == 0 then x else Rotated(x, d - 1).RotateLeft(1)
  }

  /** The hash of some bytes: the exclusive or of their table values, each rotated by its
      distance from the last. */
  function HashOf(table: seq<bv32>, data: Bytes): bv32
    requires |table| == 256
  {
    if data == [] then 0 else Rotated(table[data[0]], |data| - 1) ^ HashOf(table, data[1..])
  }

  function LastBytes(data: Bytes): Bytes {
    if |data| <= 64 then data else data[|data| - 64..]
  }

  // ---- The hash rolls ----

  lemma RotateXor(x: bv32, y: bv32)
    ensures (x ^ y).RotateLeft(1) == x.RotateLeft(1) ^ y.RotateLeft(1)
  {
  }

  lemma {:induction false} RotatedTwice(x: bv32, m: nat, n: nat)
    ensures Rotated(Rotated(x, m), n) == Rotated(x, m + n)
  {
    if n > 0 {
      RotatedTwice(x, m, n - 1);
    }
  }

  lemma Doubled(x: bv32)
    ensures x.RotateLeft(1).RotateLeft(1) == x.RotateLeft(2)
    ensures x.RotateLeft(2).RotateLeft(2) == x.RotateLeft(4)
    ensures x.RotateLeft(4).RotateLeft(4) == x.RotateLeft(8)
    ensures x.RotateLeft(8).RotateLeft(8) == x.RotateLeft(16)
    ensures x.RotateLeft(16).RotateLeft(16) == x
  {
  }

  lemma Rotated1(x: bv32)
    ensures Rotated(x, 1) == x.RotateLeft(1)
  {
    assert Rotated(x, 0) == x;
  }

  lemma Rotated2(x: bv32)
    ensures Rotated(x, 2) == x.RotateLeft(2)
  {
    Rotated1(x);
    Rotated1(x.RotateLeft(1));
    RotatedTwice(x, 1, 1);
    Doubled(x);
  }

  lemma Rotated4(x: bv32)
    ensures Rotated(x, 4) == x.RotateLeft(4)
  {
    Rotated2(x);
    Rotated2(x.RotateLeft(2));
    RotatedTwice(x, 2, 2);
    Doubled(x);
  }

  lemma Rotated8(x: bv32)
    ensures Rotated(x, 8) == x.RotateLeft(8)
  {
    Rotated4(x);
    Rotated4(x.RotateLeft(4));
    RotatedTwice(x, 4, 4);
    Doubled(x);
  }

  lemma Rotated16(x: bv32)
    ensures Rotated(x, 16) == x.RotateLeft(16)
  {
    Rotated8(x);
    Rotated8(x.RotateLeft(8));
    RotatedTwice(x, 8, 8);
    Doubled(x);
  }

  lemma Rotated32(x: bv32)
    ensures Rotated(x, 32) == x
  {
    Rotated16(x);
    Rotated16(x.RotateLeft(16));
    RotatedTwice(x, 16, 16);
    Doubled(x);
  }

  lemma RotatedNext(x: bv32, d: nat)
    ensures Rotated(x, d + 1) == Rotated(x, d).RotateLeft(1)
  {
  }

  /** As many rotations as the window is long take a value round twice. */
  lemma Turned(x: bv32, d: nat)
    requires d == 63
    ensures Rotated(x, d).RotateLeft(1) == x
  {
    Rotated32(x);
    RotatedTwice(x, 32, 32);
    RotatedNext(x, d);
  }

  lemma XorThree(x: bv32, y: bv32, z: bv32)
    ensures x ^ (y ^ z) == (x ^ y) ^ z
  {
  }

  lemma {:induction false} HashOfMore(table: seq<bv32>, data: Bytes, b: Byte)
    requires |table| == 256
    ensures HashOf(table, data + [b]) == HashOf(table, data).RotateLeft(1) ^ table[b]
  {
    if data == [] {
      assert data + [b] == [b] && [b][1..] == [];
    } else {
      var x, rest := Rotated(table[data[0]], |data| - 1), HashOf(table, data[1..]);
      HashOfMore(table, data[1..], b);
      assert (data + [b])[1..] == data[1..] + [b];
      RotateXor(x, rest);
      XorThree(x.RotateLeft(1), rest.RotateLeft(1), table[b]);
    }
  }

  lemma XorOut(x: bv32, h: bv32, b: bv32)
    ensures h.RotateLeft(1) ^ b == (x ^ h).RotateLeft(1) ^ x.RotateLeft(1) ^ b
  {
    RotateXor(x, h);
    Cancels(x.RotateLeft(1), h.RotateLeft(1));
  }

  lemma Cancels(x: bv32, y: bv32)
    ensures (x ^ y) ^ x == y
  {
  }

  lemma FirstOut(table: seq<bv32>, leave: Byte, rest: Bytes)
    requires |table| == 256
    ensures HashOf(table, [leave] + rest) == Rotated(table[leave], |rest|) ^ HashOf(table, rest)
  {
    assert ([leave] + rest)[1..] == rest;
  }

  lemma ByteIn(table: seq<bv32>, rest: Bytes, b: Byte, x: bv32, before: bv32)
    requires |table| == 256 && before == x ^ HashOf(table, rest)
    ensures HashOf(table, rest + [b]) == before.RotateLeft(1) ^ x.RotateLeft(1) ^ table[b]
  {
    HashOfMore(table, rest, b);
    XorOut(x, HashOf(table, rest), table[b]);
  }

  lemma ByteOut(table: seq<bv32>, leave: Byte, rest: Bytes, b: Byte, x: bv32, before: bv32)
    requires |table| == 256 && before == HashOf(table, [leave] + rest) && x == Rotated(table[leave], |rest|)
    ensures HashOf(table, rest + [b]) == before.RotateLeft(1) ^ x.RotateLeft(1) ^ table[b]
  {
    FirstOut(table, leave, rest);
    ByteIn(table, rest, b, x, before);
  }

  /** The window moves on by one byte. */
  lemma HashRolls(table: seq<bv32>, leave: Byte, rest: Bytes, b: Byte, before: bv32)
    requires |table| == 256 && |rest| == 63 && before == HashOf(table, [leave] + rest)
    ensures HashOf(table, rest + [b]) == before.RotateLeft(1) ^ table[leave] ^ table[b]
  {
    Turned(table[leave], |rest|);
    ByteOut(table, leave, rest, b, Rotated(table[leave], |rest|), before);
  }

  // ---- The chunker keeps it ----

  /** The chunker has taken in data since its last reset, and cut nothing. */
  ghost predicate Tracks(table: seq<bv32>, r: Roll, data: Bytes)
    requires |table| == 256
  {
    && r.chunkSize == |data| && |r.window| == 64
    && r.windowSize == (if |data| < 64 then |data| else 64)
    && r.h == HashOf(table, LastBytes(data))
    && forall i :: 0 <= i < |data| <= i + 64 ==> r.window[i % 64] == data[i]
  }

  lemma SlotsApart(i: nat, n: nat)
    requires i < n < i + 64
    ensures i % 64 != n % 64
  {
  }

  /** The byte 64 before the next one has its place in the window. */
  lemma WindowTracks(window: Bytes, data: Bytes, b: Byte)
    requires |window| == 64 && forall i :: 0 <= i < |data| <= i + 64 ==> window[i % 64] == data[i]
    ensures var more, next := data + [b], window[|data| % 64 := b];
            forall i :: 0 <= i < |more| <= i + 64 ==> next[i % 64] == more[i]
    ensures |data| >= 64 ==> window[|data| % 64] == data[|data| - 64]
  {
    var more, next := data + [b], window[|data| % 64 := b];
    forall i | 0 <= i < |more| <= i + 64 ensures next[i % 64] == more[i] {
      if i < |data| {
        SlotsApart(i, |data|);
      }
    }
    if |data| >= 64 {
      assert (|data| - 64) % 64 == |data| % 64;
    }
  }

  lemma LastBytesMore(data: Bytes, b: Byte)
    requires |data| >= 64
    ensures LastBytes(data) == [data[|data| - 64]] + data[|data| - 63..]
    ensures LastBytes(data + [b]) == data[|data| - 63..] + [b]
  {
  }

  /** The hash after one more byte. */
  lemma HashNext(table: seq<bv32>, h: bv32, window: Bytes, data: Bytes, b: Byte)
    requires |table| == 256 && |window| == 64 && h == HashOf(table, LastBytes(data))
    requires forall i :: 0 <= i < |data| <= i + 64 ==> window[i % 64] == data[i]
    ensures |data| < 64 ==> HashOf(table, LastBytes(data + [b])) == h.RotateLeft(1) ^ table[b]
    ensures |data| >= 64 ==>
      HashOf(table, LastBytes(data + [b])) == h.RotateLeft(1) ^ table[window[|data| % 64]] ^ table[b]
  {
    if |data| < 64 {
      HashOfMore(table, data, b);
    } else {
      WindowTracks(window, data, b);
      LastBytesMore(data, b);
      HashRolls(table, data[|data| - 64], data[|data| - 63..], b, h);
    }
  }

  lemma StepFills(average: nat, table: seq<bv32>, r: Roll, b: Byte, h: bv32)
    requires |table| == 256 && ForAverage(average, table).Valid() && r.Valid(ForAverage(average, table))
    requires r.windowSize < 64 && h == r.h.RotateLeft(1) ^ table[b]
    ensures Step(ForAverage(average, table), r, b) ==
            (Roll(h, r.windowSize + 1, r.chunkSize + 1, r.window[r.windowSize := b]), false)
  {
  }

  lemma StepRolls(average: nat, table: seq<bv32>, r: Roll, b: Byte, h: bv32)
    requires |table| == 256 && ForAverage(average, table).Valid() && r.Valid(ForAverage(average, table))
    requires r.windowSize == 64 && h == r.h.RotateLeft(1) ^ table[r.window[r.chunkSize % 64]] ^ table[b]
    ensures var cut, window := ShallBreak(ForAverage(average, table), h, r.chunkSize + 1), r.window[r.chunkSize % 64 := b];
            Step(ForAverage(average, table), r, b) ==
              (if cut then Roll(0, 0, 0, window) else Roll(h, 64, r.chunkSize + 1, window), cut)
  {
  }

  lemma FilledTracks(table: seq<bv32>, r: Roll, data: Bytes, b: Byte, h: bv32, more: Bytes)
    requires |table| == 256 && Tracks(table, r, data) && |data| < 64
    requires more == data + [b] && h == HashOf(table, LastBytes(more))
    ensures Tracks(table, Roll(h, |more|, |more|, r.window[|data| := b]), more)
  {
    WindowTracks(r.window, data, b);
    assert |data| % 64 == |data|;
  }

  lemma FillTracks(average: nat, table: seq<bv32>, r: Roll, data: Bytes, b: Byte, h: bv32, more: Bytes)
    requires |table| == 256 && ForAverage(average, table).Valid() && r.Valid(ForAverage(average, table))
    requires Tracks(table, r, data) && |data| < 64 && more == data + [b]
    requires h == r.h.RotateLeft(1) ^ table[b] && h == HashOf(table, LastBytes(more))
    ensures var (next, cut) := Step(ForAverage(average, table), r, b); !cut && Tracks(table, next, more)
  {
    FilledTracks(table, r, data, b, h, more);
    StepFills(average, table, r, b, h);
  }

  lemma ResetTracks(table: seq<bv32>, window: Bytes)
    requires |table| == 256 && |window| == 64
    ensures Tracks(table, Roll(0, 0, 0, window), [])
  {
    assert LastBytes([]) == [];
  }

  lemma RolledTracks(table: seq<bv32>, r: Roll, data: Bytes, b: Byte, h: bv32, more: Bytes)
    requires |table| == 256 && Tracks(table, r, data) && |data| >= 64
    requires more == data + [b] && h == HashOf(table, LastBytes(more))
    ensures Tracks(table, Roll(h, 64, |more|, r.window[|data| % 64 := b]), more)
  {
    WindowTracks(r.window, data, b);
  }

  lemma RollTracks(average: nat, table: seq<bv32>, r: Roll, data: Bytes, b: Byte, h: bv32, more: Bytes)
    requires |table| == 256 && ForAverage(average, table).Valid() && r.Valid(ForAverage(average, table))
    requires Tracks(table, r, data) && |data| >= 64 && more == data + [b]
    requires h == r.h.RotateLeft(1) ^ table[r.window[|data| % 64]] ^ table[b] && h == HashOf(table, LastBytes(more))
    ensures var (next, cut) := Step(ForAverage(average, table), r, b);
            && cut == ShallBreak(ForAverage(average, table), h, |more|)
            && Tracks(table, next, if cut then [] else more)
  {
    RolledTracks(table, r, data, b, h, more);
    ResetTracks(table, r.window[|data| % 64 := b]);
    StepRolls(average, table, r, b, h);
  }

  /** Whether the next byte ends the chunk, and the state after it. */
  lemma StepTracks(average: nat, table: seq<bv32>, r: Roll, data: Bytes, b: Byte)
    requires |table| == 256 && ForAverage(average, table).Valid() && r.Valid(ForAverage(average, table))
    requires Tracks(table, r, data)
    ensures var cfg := ForAverage(average, table);
            var (next, cut) := Step(cfg, r, b);
            && cut == (|data| >= 64 && ShallBreak(cfg, HashOf(table, LastBytes(data + [b])), |data| + 1))
            && Tracks(table, next, if cut then [] else data + [b])
  {
    if |data| < 64 {
      HashNext(table, r.h, r.window, data, b);
      FillTracks(average, table, r, data, b, HashOf(table, LastBytes(data + [b])), data + [b]);
    } else {
      HashNext(table, r.h, r.window, data, b);
      RollTracks(average, table, r, data, b, HashOf(table, LastBytes(data + [b])), data + [b]);
    }
  }
  lemma OneMore(data: Bytes, n: nat)
    requires 0 < n <= |data|
    ensures data[..n] == data[..n - 1] + [data[n - 1]]
  {
  }

  lemma ReadTracks(average: nat, table: seq<bv32>, r: Roll, data: Bytes, b: Byte, next: Roll, more: Bytes)
    requires |table| == 256 && ForAverage(average, table).Valid() && r.Valid(ForAverage(average, table))
    requires Tracks(table, r, data) && (next, false) == Step(ForAverage(average, table), r, b) && more == data + [b]
    ensures Tracks(table, next, more)
  {
    StepTracks(average, table, r, data, b);
  }

  lemma {:induction false} RunTracks(average: nat, table: seq<bv32>, r: Roll, data: Bytes, n: nat)
    requires |table| == 256 && ForAverage(average, table).Valid() && r.Valid(ForAverage(average, table))
    requires r.windowSize == 0 && n <= |data| && Quiet(ForAverage(average, table), r, data, n)
    ensures Tracks(table, Run(ForAverage(average, table), r, data[..n]), data[..n])
  {
    var cfg := ForAverage(average, table);
    if n == 0 {
      ResetTracks(table, r.window);
    } else {
      var before, now := Run(cfg, r, data[..n - 1]), Run(cfg, r, data[..n]);
      RunTracks(average, table, r, data, n - 1);
      RunByte(cfg, r, data, n - 1);
      OneMore(data, n);
      ReadTracks(average, table, before, data[..n - 1], data[n - 1], now, data[..n]);
    }
  }

  /** For any average and table: the rolling hash is the hash of the last 64 bytes taken
      in since the last reset, or of all of them while there are fewer. */
  lemma RollingHash(average: nat, table: seq<bv32>, r: Roll, data: Bytes)
    requires |table| == 256 && ForAverage(average, table).Valid() && r.Valid(ForAverage(average, table))
    requires r.windowSize == 0 && Quiet(ForAverage(average, table), r, data, |data|)
    ensures Run(ForAverage(average, table), r, data).h == HashOf(table, LastBytes(data))
  {
    RunTracks(average, table, r, data, |data|);
    assert data[..|data|] == data;
  }

  // ---- When a chunk ends ----

  /** The content ends a chunk with the last of these bytes: at 16 MiB, or from 1 MiB on
      where the low 23 bits of the hash of the last 64 bytes are one of the top three. */
  predicate Ends(table: seq<bv32>, data: Bytes)
    requires |table| == 256
  {
    |data| >= 16777216 || (|data| >= 1048576 && HashOf(table, LastBytes(data)) & 0x7fffff >= 0x7ffffd)
  }

  lemma AverageSizes(table: seq<bv32>)
    requires |table| == 256
    ensures var cfg := ForAverage(AVERAGE, table); cfg.Valid() && cfg.min == 1048576 && cfg.max == 16777216
  {
  }

  lemma AsWord(n: nat, k: bv32)
    requires n == k as int
    ensures n as bv32 == k
  {
    assert (k as int) as bv32 == k;
  }

  lemma MaskNumber(k: bv32)
    requires k == 0x7fffff
    ensures (AVERAGE * 2 - 1) % 0x1_0000_0000 == k as int
  {
  }

  lemma Masks()
    ensures ((AVERAGE * 2 - 1) % 0x1_0000_0000) as bv32 == 0x7fffff
  {
    MaskNumber(0x7fffff);
    AsWord((AVERAGE * 2 - 1) % 0x1_0000_0000, 0x7fffff);
  }

  lemma HitNumbers(table: seq<bv32>, h: bv32)
    requires |table| == 256
    ensures ForAverage(AVERAGE, table).hit(h) <==> h & 0x7fffff >= 0x7ffffd
  {
    Masks();
  }

  lemma BreakNumbers(table: seq<bv32>, h: bv32, size: nat)
    requires |table| == 256
    ensures ShallBreak(ForAverage(AVERAGE, table), h, size) <==>
            size >= 16777216 || (size >= 1048576 && h & 0x7fffff >= 0x7ffffd)
  {
    AverageSizes(table);
    HitNumbers(table, h);
  }

  lemma StepEnds(table: seq<bv32>, r: Roll, data: Bytes, b: Byte)
    requires |table| == 256 && ForAverage(AVERAGE, table).Valid() && r.Valid(ForAverage(AVERAGE, table))
    requires Tracks(table, r, data)
    ensures var (next, cut) := Step(ForAverage(AVERAGE, table), r, b);
            cut == Ends(table, data + [b]) && Tracks(table, next, if cut then [] else data + [b])
  {
    StepTracks(AVERAGE, table, r, data, b);
    BreakNumbers(table, HashOf(table, LastBytes(data + [b])), |data| + 1);
  }

  lemma ByteEnds(table: seq<bv32>, r: Roll, data: Bytes, b: Byte, more: Bytes)
    requires |table| == 256 && ForAverage(AVERAGE, table).Valid() && r.Valid(ForAverage(AVERAGE, table))
    requires Tracks(table, r, data) && more == data + [b]
    ensures Step(ForAverage(AVERAGE, table), r, b).1 == Ends(table, more)
  {
    StepEnds(table, r, data, b);
  }

  /** Scan breaks exactly where the content ends the chunk. */
  lemma CutsWhereItEnds(table: seq<bv32>, r: Roll, data: Bytes, n: nat)
    requires |table| == 256 && ForAverage(AVERAGE, table).Valid() && r.Valid(ForAverage(AVERAGE, table))
    requires r.windowSize == 0 && 0 < n <= |data| && Quiet(ForAverage(AVERAGE, table), r, data, n - 1)
    ensures CutsAt(ForAverage(AVERAGE, table), r, data, n) <==> Ends(table, data[..n])
  {
    RunTracks(AVERAGE, table, r, data, n - 1);
    OneMore(data, n);
    ByteEnds(table, Run(ForAverage(AVERAGE, table), r, data[..n - 1]), data[..n - 1], data[n - 1], data[..n]);
  }

  // ---- The chunks of a stream ----

  /** The content ends no chunk within these bytes. */
  predicate EndsNowhere(table: seq<bv32>, data: Bytes)
    requires |table| == 256
  {
    forall n :: 0 < n <= |data| ==> !Ends(table, data[..n])
  }

  /** The content ends the chunk where it does, or is as yet to end it, and no earlier. */
  predicate RightlyCut(table: seq<bv32>, c: Chunk)
    requires |table| == 256
  {
    c.Fresh? ==>
      && c.data != []
      && (c.cut == Natural <==> Ends(table, c.data))
      && EndsNowhere(table, c.data[..|c.data| - 1])
  }

  ghost predicate AllRightlyCut(table: seq<bv32>, chunks: seq<Chunk>)
    requires |table| == 256
  {
    forall i :: 0 <= i < |chunks| ==> RightlyCut(table, chunks[i])
  }

  ghost predicate Sound(table: seq<bv32>, w: Walk)
    requires |table| == 256
  {
    AllRightlyCut(table, w.chunks) && EndsNowhere(table, w.pending) && Tracks(table, w.roll, w.pending)
  }

  lemma NowhereMore(table: seq<bv32>, data: Bytes, b: Byte)
    requires |table| == 256 && EndsNowhere(table, data) && !Ends(table, data + [b])
    ensures EndsNowhere(table, data + [b])
  {
    forall n | 0 < n <= |data + [b]| ensures !Ends(table, (data + [b])[..n]) {
      if n <= |data| {
        assert (data + [b])[..n] == data[..n];
      } else {
        assert (data + [b])[..n] == data + [b];
      }
    }
  }

  lemma ByteSound(table: seq<bv32>, w: Walk, b: Byte)
    requires |table| == 256 && ForAverage(AVERAGE, table).Valid() && w.Coupled(ForAverage(AVERAGE, table))
    requires Sound(table, w)
    ensures Sound(table, FeedByte(ForAverage(AVERAGE, table), w, b))
  {
    StepEnds(table, w.roll, w.pending, b);
    var more := w.pending + [b];
    if Ends(table, more) {
      assert more[..|more| - 1] == w.pending;
      assert RightlyCut(table, Fresh(more, Natural));
    } else {
      NowhereMore(table, w.pending, b);
    }
  }

  lemma {:induction false} FeedSound(table: seq<bv32>, w: Walk, data: Bytes)
    requires |table| == 256 && ForAverage(AVERAGE, table).Valid() && w.Coupled(ForAverage(AVERAGE, table))
    requires Sound(table, w)
    ensures Sound(table, Feed(ForAverage(AVERAGE, table), w, data))
    decreases |data|
  {
    if data != [] {
      FeedSound(table, w, data[..|data| - 1]);
      ByteSound(table, Feed(ForAverage(AVERAGE, table), w, data[..|data| - 1]), data[|data| - 1]);
    }
  }

  lemma CutRightly(table: seq<bv32>, w: Walk, cut: Cut)
    requires |table| == 256 && cut != Natural && Sound(table, w)
    ensures AllRightlyCut(table, w.Cut(cut).chunks)
  {
    if w.pending != [] {
      assert w.pending[..|w.pending|] == w.pending;
      var but := w.pending[..|w.pending| - 1];
      forall n | 0 < n <= |but| ensures !Ends(table, but[..n]) {
        assert but[..n] == w.pending[..n];
      }
      assert RightlyCut(table, Fresh(w.pending, cut));
    }
  }

  lemma ResetSound(table: seq<bv32>, w: Walk, cut: Cut)
    requires |table| == 256 && |w.roll.window| == 64 && cut != Natural && Sound(table, w)
    ensures Sound(table, w.CutAndReset(cut))
  {
    CutRightly(table, w, cut);
    ResetTracks(table, w.roll.window);
  }

  lemma OpSound(table: seq<bv32>, w: Walk, op: Op)
    requires |table| == 256 && ForAverage(AVERAGE, table).Valid() && w.Coupled(ForAverage(AVERAGE, table))
    requires Legal(w, op) && Sound(table, w)
    ensures Sound(table, Apply(ForAverage(AVERAGE, table), w, op))
  {
    match op {
      case Data(bytes) => FeedSound(table, w, bytes);
      case Suggest => ResetSound(table, w, Suggested);
      case Force => ResetSound(table, w, Forced);
      case Inject(digest, len) => assert RightlyCut(table, Reused(digest, len));
    }
  }

  lemma {:induction false} AllSound(table: seq<bv32>, window: Bytes, ops: seq<Op>)
    requires |table| == 256 && |window| == 64 && ForAverage(AVERAGE, table).Valid()
    requires AllLegal(ForAverage(AVERAGE, table), Start(window), ops)
    ensures Sound(table, ApplyAll(ForAverage(AVERAGE, table), Start(window), ops))
    decreases |ops|
  {
    if ops == [] {
      ResetTracks(table, window);
    } else {
      AllSound(table, window, ops[..|ops| - 1]);
      OpSound(table, ApplyAll(ForAverage(AVERAGE, table), Start(window), ops[..|ops| - 1]), ops[|ops| - 1]);
    }
  }

  /** Whatever is written to a stream and however it is split, suggested, forced or
      reused: a chunk is cut by the content exactly at the first place where the hash of
      its last 64 bytes, or its size, ends it, and no chunk reaches beyond one. */
  lemma ChunksByContent(table: seq<bv32>, window: Bytes, ops: seq<Op>)
    requires |table| == 256 && |window| == 64 && ForAverage(AVERAGE, table).Valid()
    requires AllLegal(ForAverage(AVERAGE, table), Start(window), ops)
    ensures AllRightlyCut(table, ApplyAll(ForAverage(AVERAGE, table), Start(window), ops).Cut(Last).chunks)
  {
    AllSound(table, window, ops);
    CutRightly(table, ApplyAll(ForAverage(AVERAGE, table), Start(window), ops), Last);
  }
}
