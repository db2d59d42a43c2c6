/** The dynamic index of a stream: its entries, its checksum and the batches it is
    assigned to the server in. */
module Index {
  import opened Types

  const BATCH := 128
  const WORD_BYTES := 8

  datatype Entry = Entry(offset: nat, size: nat, digest: Digest) {
    function End(): nat {
      offset + size
    }
  }

  /** What one entry is to the server. */
  datatype Slot = Slot(digest: Digest, offset: nat)

  /** What the server keeps of an index once it is closed. */
  datatype Closed = Closed(slots: seq<Slot>, csum: Digest, size: nat, count: nat)

  // ---- The index made by hashing each chunk in turn ----

  /** The reference: one digest per chunk, in the stream's order. */
  function SerialIndex(hash: Hash, chunks: seq<Chunk>): (entries: seq<Entry>)
    ensures |entries| == |chunks|
  {
    if chunks == [] then []
    else
      var before, c := chunks[..|chunks| - 1], chunks[|chunks| - 1];
      SerialIndex(hash, before) + [Entry(Total(before), c.Size(), c.Name(hash))]
  }

  lemma {:induction false} SerialIndexAt(hash: Hash, chunks: seq<Chunk>, i: nat)
    requires i < |chunks|
    ensures SerialIndex(hash, chunks)[i] == Entry(Total(chunks[..i]), chunks[i].Size(), chunks[i].Name(hash))
  {
    var n := |chunks| - 1;
    if i < n {
      SerialIndexAt(hash, chunks[..n], i);
      assert chunks[..n][..i] == chunks[..i];
    }
  }

  /** The entries tile the stream: each starts where the one before ends. */
  predicate Tiles(entries: seq<Entry>) {
    && (entries != [] ==> entries[0].offset == 0)
    && forall i :: 0 < i < |entries| ==> entries[i].offset == entries[i - 1].End()
  }

  lemma {:induction false} SerialIndexTiles(hash: Hash, chunks: seq<Chunk>)
    ensures Tiles(SerialIndex(hash, chunks))
    ensures chunks != [] ==> SerialIndex(hash, chunks)[|chunks| - 1].End() == Total(chunks)
  {
    if chunks != [] {
      SerialIndexTiles(hash, chunks[..|chunks| - 1]);
    }
  }

  function Slots(entries: seq<Entry>): (slots: seq<Slot>)
    ensures |slots| == |entries|
    ensures forall i :: 0 <= i < |slots| ==> slots[i] == Slot(entries[i].digest, entries[i].offset)
  {
    seq(|entries|, i requires 0 <= i < |entries| => Slot(entries[i].digest, entries[i].offset))
  }

  // ---- The checksum ----

  /** The k low bytes of n, lowest first. */
  function LittleEndian(n: nat, k: nat): (b: Bytes)
    ensures |b| == k
  {
    if k == 0 then [] else [n % 256] + LittleEndian(n / 256, k - 1)
  }

  function FromLittleEndian(b: Bytes): nat {
    if b == [] then 0 else b[0] + 256 * FromLittleEndian(b[1..])
  }

  function Power256(k: nat): (p: nat)
    ensures p > 0
  {
    if k == 0 then 1 else 256 * Power256(k - 1)
  }

  lemma {:induction false} LittleEndianRoundTrip(n: nat, k: nat)
    requires n < Power256(k)
    ensures FromLittleEndian(LittleEndian(n, k)) == n
  {
    if k > 0 {
      LittleEndianRoundTrip(n / 256, k - 1);
      assert LittleEndian(n, k)[1..] == LittleEndian(n / 256, k - 1);
    }
  }

  lemma LittleEndianInjective(m: nat, n: nat, k: nat)
    requires m < Power256(k) && n < Power256(k) && LittleEndian(m, k) == LittleEndian(n, k)
    ensures m == n
  {
    LittleEndianRoundTrip(m, k);
    LittleEndianRoundTrip(n, k);
  }

  /** What the checksum is taken over: each entry's end, in width bytes lowest first
      (wrapping as an unsigned integer of that width does), and its digest. */
  function ChecksumInput(entries: seq<Entry>, width: nat): Bytes {
    if entries == [] then []
    else
      var e := entries[|entries| - 1];
      ChecksumInput(entries[..|entries| - 1], width) + (LittleEndian(e.End() % Power256(width), width) + e.digest)
  }

  /** The checksum of an index: SHA-256 over 64-bit ends and digests. */
  function Checksum(sha: Hash, entries: seq<Entry>): Digest {
    sha(ChecksumInput(entries, WORD_BYTES))
  }

  /** The index of a stream as the walk would have made it hashing each chunk itself. */
  function ClosedOf(hash: Hash, sha: Hash, chunks: seq<Chunk>): Closed {
    var entries := SerialIndex(hash, chunks);
    Closed(Slots(entries), Checksum(sha, entries), Total(chunks), |chunks|)
  }

  lemma {:induction false} LastEntryBytes(a: seq<Entry>, b: seq<Entry>, width: nat)
    requires a != [] && b != [] && ChecksumInput(a, width) == ChecksumInput(b, width)
    ensures ChecksumInput(a[..|a| - 1], width) == ChecksumInput(b[..|b| - 1], width)
    ensures LittleEndian(a[|a| - 1].End() % Power256(width), width) ==
            LittleEndian(b[|b| - 1].End() % Power256(width), width)
    ensures a[|a| - 1].digest == b[|b| - 1].digest
  {
    var x := LittleEndian(a[|a| - 1].End() % Power256(width), width);
    var y := LittleEndian(b[|b| - 1].End() % Power256(width), width);
    SameTail(ChecksumInput(a[..|a| - 1], width), x + a[|a| - 1].digest,
      ChecksumInput(b[..|b| - 1], width), y + b[|b| - 1].digest);
    SameTail(x, a[|a| - 1].digest, y, b[|b| - 1].digest);
  }

  lemma SameTail(a: Bytes, s: Bytes, b: Bytes, t: Bytes)
    requires a + s == b + t && |s| == |t|
    ensures a == b && s == t
  {
    assert a == (a + s)[..|a|] && b == (b + t)[..|b|];
    assert s == (a + s)[|a|..] && t == (b + t)[|b|..];
  }

  lemma Unwrapped(n: nat, m: nat)
    requires n < m
    ensures n % m == n
  {
  }

  /** Equal inputs end in the same entry: the same end and digest. */
  lemma SameLastEntry(a: seq<Entry>, b: seq<Entry>, width: nat)
    requires a != [] && b != [] && ChecksumInput(a, width) == ChecksumInput(b, width)
    requires a[|a| - 1].End() < Power256(width) && b[|b| - 1].End() < Power256(width)
    ensures ChecksumInput(a[..|a| - 1], width) == ChecksumInput(b[..|b| - 1], width)
    ensures a[|a| - 1].End() == b[|b| - 1].End() && a[|a| - 1].digest == b[|b| - 1].digest
  {
    LastEntryBytes(a, b, width);
    var x, y := a[|a| - 1].End(), b[|b| - 1].End();
    Unwrapped(x, Power256(width));
    Unwrapped(y, Power256(width));
    LittleEndianInjective(x, y, width);
  }

  lemma SameIndexes(a: seq<Entry>, b: seq<Entry>, n: nat)
    requires |a| == |b| == n + 1 && a[..n] == b[..n] && Tiles(a) && Tiles(b)
    requires a[n].End() == b[n].End() && a[n].digest == b[n].digest
    ensures a == b
  {
    if n > 0 {
      assert a[n - 1] == a[..n][n - 1] == b[..n][n - 1] == b[n - 1];
    }
    assert a[n] == b[n];
    assert a == a[..n] + [a[n]] && b == b[..n] + [b[n]];
  }

  /** As long as the ends fit their width, the checksum's input leaves no doubt about
      the index: its length, and each entry's place, size and digest. */
  lemma {:induction false} ChecksumInputIsInjective(a: seq<Entry>, b: seq<Entry>, width: nat)
    requires Tiles(a) && Tiles(b)
    requires forall i :: 0 <= i < |a| ==> a[i].End() < Power256(width)
    requires forall i :: 0 <= i < |b| ==> b[i].End() < Power256(width)
    requires ChecksumInput(a, width) == ChecksumInput(b, width)
    ensures a == b
  {
    if a != [] && b != [] {
      var m, n := |a| - 1, |b| - 1;
      SameLastEntry(a, b, width);
      ChecksumInputIsInjective(a[..m], b[..n], width);
      SameIndexes(a, b, n);
    }
  }

  // ---- The checksum's input, byte by byte ----

  lemma QuotientIs(n: nat, m: nat, q: nat, r: nat)
    requires r < m && n == m * q + r
    ensures n / m == q && n % m == r
  {
    var d := n / m - q;
    assert n == m * (n / m) + n % m;
    assert m * d == r - n % m;
  }

  lemma Regrouped(m: nat, q: nat, r: nat, s: nat)
    ensures 256 * (m * q + r) + s == (256 * m) * q + (256 * r + s)
  {
  }

  lemma NextDigit(n: nat, m: nat)
    requires m > 0
    ensures n / (256 * m) == (n / 256) / m
    ensures (n % (256 * m)) % 256 == n % 256 && (n % (256 * m)) / 256 == (n / 256) % m
  {
    var q, r, s := (n / 256) / m, (n / 256) % m, n % 256;
    assert n == 256 * (m * q + r) + s;
    Regrouped(m, q, r, s);
    QuotientIs(n, 256 * m, q, 256 * r + s);
  }

  lemma {:induction false} DigitAt(n: nat, k: nat, j: nat)
    requires j < k
    ensures LittleEndian(n, k)[j] == n / Power256(j) % 256
  {
    if j > 0 {
      DigitAt(n / 256, k - 1, j - 1);
      NextDigit(n, Power256(j - 1));
    }
  }

  /** The digits that do not fit are the ones left out. */
  lemma {:induction false} WrapKeepsDigits(n: nat, k: nat)
    ensures LittleEndian(n % Power256(k), k) == LittleEndian(n, k)
  {
    if k > 0 {
      NextDigit(n, Power256(k - 1));
      WrapKeepsDigits(n / 256, k - 1);
    }
  }

  /** Entry i's part: its end, lowest byte first, then its digest. */
  ghost predicate HoldsEntry(input: Bytes, at: nat, e: Entry, width: nat) {
    && at + width + 32 <= |input|
    && (forall j :: 0 <= j < width ==> input[at + j] == e.End() / Power256(j) % 256)
    && forall j :: 0 <= j < 32 ==> input[at + width + j] == e.digest[j]
  }

  lemma EntryBytes(before: Bytes, e: Entry, width: nat)
    ensures var part := LittleEndian(e.End() % Power256(width), width) + e.digest;
            |part| == width + 32 && HoldsEntry(before + part, |before|, e, width)
  {
    var ends := LittleEndian(e.End() % Power256(width), width);
    var all := before + (ends + e.digest);
    WrapKeepsDigits(e.End(), width);
    forall j | 0 <= j < width ensures all[|before| + j] == e.End() / Power256(j) % 256 {
      DigitAt(e.End(), width, j);
      assert all[|before| + j] == ends[j];
    }
    forall j | 0 <= j < 32 ensures all[|before| + width + j] == e.digest[j] {
      assert all[|before| + width + j] == (ends + e.digest)[width + j];
    }
  }

  lemma StillHolds(before: Bytes, part: Bytes, at: nat, e: Entry, width: nat)
    requires HoldsEntry(before, at, e, width)
    ensures HoldsEntry(before + part, at, e, width)
  {
  }

  lemma SizeMore(size: nat, n: nat)
    ensures size * (n + 1) == size * n + size
  {
  }

  lemma {:induction false} InputLength(entries: seq<Entry>, width: nat, size: nat)
    requires size == width + 32
    ensures |ChecksumInput(entries, width)| == size * |entries|
  {
    if entries != [] {
      InputLength(entries[..|entries| - 1], width, size);
      SizeMore(size, |entries| - 1);
    }
  }

  lemma {:induction false} EntryByPosition(entries: seq<Entry>, width: nat, size: nat, i: nat)
    requires size == width + 32 && i < |entries|
    ensures HoldsEntry(ChecksumInput(entries, width), size * i, entries[i], width)
  {
    var n := |entries| - 1;
    var before, e := ChecksumInput(entries[..n], width), entries[n];
    if i < n {
      EntryByPosition(entries[..n], width, size, i);
      StillHolds(before, LittleEndian(e.End() % Power256(width), width) + e.digest, size * i, entries[i], width);
    } else {
      InputLength(entries[..n], width, size);
      EntryBytes(before, e, width);
    }
  }

  /** The checksum is taken over 40 bytes for each entry: the end of its chunk in base
      256, the lowest of eight digits first, then the 32 bytes of its digest. */
  lemma ChecksumByPosition(entries: seq<Entry>, i: nat)
    requires i < |entries|
    ensures var input := ChecksumInput(entries, WORD_BYTES);
      && |input| == 40 * |entries|
      && (forall j :: 0 <= j < 8 ==> input[40 * i + j] == entries[i].End() / Power256(j) % 256)
      && forall j :: 0 <= j < 32 ==> input[40 * i + 8 + j] == entries[i].digest[j]
  {
    InputLength(entries, WORD_BYTES, 40);
    EntryByPosition(entries, WORD_BYTES, 40, i);
  }

  // ---- The batches ----

  function Min(a: nat, b: nat): nat {
    if a < b then a else b
  }

  /** The number-th batch of a list: its next 128 slots, or what is left of it. */
  function Batch(slots: seq<Slot>, number: nat): seq<Slot>
    requires BATCH * number <= |slots|
  {
    slots[BATCH * number..Min(BATCH * number + BATCH, |slots|)]
  }

  function BatchCount(slots: seq<Slot>): nat {
    (|slots| + BATCH - 1) / BATCH
  }

  /** The first count batches. */
  function Batches(slots: seq<Slot>, count: nat): (batches: seq<seq<Slot>>)
    requires count <= BatchCount(slots)
    ensures |batches| == count
  {
    if count == 0 then [] else Batches(slots, count - 1) + [Batch(slots, count - 1)]
  }

  function Flatten(batches: seq<seq<Slot>>): seq<Slot> {
    if batches == [] then [] else Flatten(batches[..|batches| - 1]) + batches[|batches| - 1]
  }

  /** The requests have 128 entries each, the last one 1 to 128, and are, end to end, the list so far. */
  lemma {:induction false} BatchesCover(slots: seq<Slot>, count: nat)
    requires count <= BatchCount(slots)
    ensures Flatten(Batches(slots, count)) == slots[..Min(BATCH * count, |slots|)]
    ensures forall i :: 0 <= i < count ==> 1 <= |Batches(slots, count)[i]| <= 128
    ensures forall i :: 0 <= i < count && i + 1 < BatchCount(slots) ==> |Batches(slots, count)[i]| == 128
  {
    if count > 0 {
      BatchesCover(slots, count - 1);
      assert Batches(slots, count)[..count - 1] == Batches(slots, count - 1);
    }
  }

  lemma AllBatches(slots: seq<Slot>)
    ensures Flatten(Batches(slots, BatchCount(slots))) == slots
    ensures slots == [] <==> BatchCount(slots) == 0
  {
    BatchesCover(slots, BatchCount(slots));
    assert slots[..|slots|] == slots;
  }
}
