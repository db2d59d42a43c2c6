/** The content-defined chunker (pbscommon/buzhash.go). */
module Buzhash {
  import opened Types

  const WINDOW := 64
  const AVERAGE := 4194304

  /** A chunker's fixed part: the size bounds, how the hash takes in a byte while the
      window fills and once it rolls, and which hash values end a chunk. */
  datatype Config = Config(
    min: nat,
    max: nat,
    enter: (bv32, Byte) -> bv32,
    roll: (bv32, Byte, Byte) -> bv32,
    hit: bv32 -> bool)
  {
    ghost predicate Valid() {
      0 < min <= max && WINDOW < max
    }
  }

  /** The chunker New makes for an average chunk size; the byte table is a parameter. */
  function ForAverage(average: nat, table: seq<bv32>): Config
    requires |table| == 256
  {
    var mask := ((average * 2 - 1) % 0x1_0000_0000) as bv32;
    var minimum := mask - 2;
    Config(
      average / 4,
      average * 4,
      (h: bv32, b: Byte) => h.RotateLeft(1) ^ table[b],
      (h: bv32, leave: Byte, enter: Byte) => h.RotateLeft(1) ^ table[leave] ^ table[enter],
      (h: bv32) => (h & mask) >= minimum)
  }

  /** The rolling state: the chunker's fields that change. */
  datatype Roll = Roll(h: bv32, windowSize: nat, chunkSize: nat, window: Bytes) {
    ghost predicate Valid(cfg: Config) {
      && |window| == WINDOW && windowSize <= WINDOW
      && (windowSize < WINDOW ==> chunkSize == windowSize)
      && (windowSize == 0 ==> h == 0)
      && (windowSize == WINDOW ==> WINDOW <= chunkSize)
      && chunkSize < cfg.max
    }

    function Reset(): Roll {
      this.(h := 0, chunkSize := 0, windowSize := 0)
    }
  }

  predicate ShallBreak(cfg: Config, h: bv32, chunkSize: nat) {
    if chunkSize >= cfg.max then true
    else if chunkSize < cfg.min then false
    else cfg.hit(h)
  }

  /** The chunker as an automaton over single bytes: the state after b, and whether
      the chunk ends with it. The first 64 bytes only fill the window. */
  function Step(cfg: Config, r: Roll, b: Byte): (res: (Roll, bool))
    requires cfg.Valid() && r.Valid(cfg)
    ensures res.0.Valid(cfg)
    ensures res.1 ==> res.0.chunkSize == 0 && cfg.min <= r.chunkSize + 1
    ensures !res.1 ==> res.0.chunkSize == r.chunkSize + 1
  {
    if r.windowSize < WINDOW then
      (Roll(cfg.enter(r.h, b), r.windowSize + 1, r.chunkSize + 1, r.window[r.windowSize := b]), false)
    else
      var idx := r.chunkSize % WINDOW;
      var h := cfg.roll(r.h, r.window[idx], b);
      var next := Roll(h, r.windowSize, r.chunkSize + 1, r.window[idx := b]);
      if ShallBreak(cfg, h, r.chunkSize + 1) then (next.Reset(), true) else (next, false)
  }

  /** The state after the bytes of data, one by one. */
  function Run(cfg: Config, r: Roll, data: Bytes): (res: Roll)
    requires cfg.Valid() && r.Valid(cfg)
    ensures res.Valid(cfg)
    decreases |data|
  {
    if data == [] then r else Step(cfg, Run(cfg, r, data[..|data| - 1]), data[|data| - 1]).0
  }

  /** Whether a chunk ends just after the first n bytes of data. */
  predicate CutsAt(cfg: Config, r: Roll, data: Bytes, n: nat)
    requires cfg.Valid() && r.Valid(cfg) && 0 < n <= |data|
  {
    Step(cfg, Run(cfg, r, data[..n - 1]), data[n - 1]).1
  }

  /** No chunk ends within the first n bytes of data. */
  ghost predicate Quiet(cfg: Config, r: Roll, data: Bytes, n: nat)
    requires cfg.Valid() && r.Valid(cfg) && n <= |data|
    decreases n
  {
    n == 0 || (Quiet(cfg, r, data, n - 1) && !CutsAt(cfg, r, data, n))
  }

  /** What Scan promises: the state and the position just after the first break in
      data, or 0 when all of data was taken in without one. */
  ghost predicate Scanned(cfg: Config, r: Roll, data: Bytes, r': Roll, pos: nat)
    requires cfg.Valid() && r.Valid(cfg)
  {
    if pos == 0 then
      Quiet(cfg, r, data, |data|) && r' == Run(cfg, r, data)
    else
      && pos <= |data|
      && Quiet(cfg, r, data, pos - 1) && CutsAt(cfg, r, data, pos)
      && r' == Run(cfg, r, data[..pos])
  }

  lemma RunByte(cfg: Config, r: Roll, data: Bytes, pos: nat)
    requires cfg.Valid() && r.Valid(cfg) && pos < |data|
    ensures Run(cfg, r, data[..pos + 1]) == Step(cfg, Run(cfg, r, data[..pos]), data[pos]).0
    ensures CutsAt(cfg, r, data, pos + 1) == Step(cfg, Run(cfg, r, data[..pos]), data[pos]).1
    ensures Quiet(cfg, r, data, pos + 1) == (Quiet(cfg, r, data, pos) && !CutsAt(cfg, r, data, pos + 1))
  {
    assert data[..pos + 1][..pos] == data[..pos];
  }

  /** In the middle of a Scan: no break in the first pos bytes, now is the state. */
  ghost predicate Reading(cfg: Config, r: Roll, data: Bytes, now: Roll, pos: nat)
    requires cfg.Valid() && r.Valid(cfg)
  {
    pos <= |data| && Quiet(cfg, r, data, pos) && now == Run(cfg, r, data[..pos])
  }

  lemma ReadByte(cfg: Config, r: Roll, data: Bytes, now: Roll, pos: nat)
    requires cfg.Valid() && r.Valid(cfg) && Reading(cfg, r, data, now, pos) && pos < |data|
    ensures var (next, cut) := Step(cfg, now, data[pos]);
            if cut then Scanned(cfg, r, data, next, pos + 1) else Reading(cfg, r, data, next, pos + 1)
  {
    RunByte(cfg, r, data, pos);
  }

  lemma ReadAll(cfg: Config, r: Roll, data: Bytes, now: Roll)
    requires cfg.Valid() && r.Valid(cfg) && Reading(cfg, r, data, now, |data|)
    ensures Scanned(cfg, r, data, now, 0)
  {
    assert data[..|data|] == data;
  }

  /** Two states that differ only in window bytes still to be overwritten. */
  ghost predicate Alike(a: Roll, b: Roll) {
    && a.h == b.h && a.windowSize == b.windowSize && a.chunkSize == b.chunkSize
    && |a.window| == |b.window| == WINDOW && a.windowSize <= WINDOW
    && a.window[..a.windowSize] == b.window[..a.windowSize]
  }

  /** The bytes a Reset leaves behind in the window are never looked at. */
  lemma AlikeStep(cfg: Config, a: Roll, b: Roll, x: Byte)
    requires cfg.Valid() && a.Valid(cfg) && b.Valid(cfg) && Alike(a, b)
    ensures Alike(Step(cfg, a, x).0, Step(cfg, b, x).0)
    ensures Step(cfg, a, x).1 == Step(cfg, b, x).1
  {
    var n := a.windowSize;
    if n < WINDOW {
      assert a.window[n := x][..n + 1] == a.window[..n] + [x];
      assert b.window[n := x][..n + 1] == b.window[..n] + [x];
    } else {
      assert a.window[..WINDOW] == a.window && b.window[..WINDOW] == b.window;
    }
  }

  class Chunker {
    const cfg: Config
    var h: bv32
    var windowSize: nat
    var chunkSize: nat
    var window: array<Byte>

    ghost function Abs(): Roll
      reads this, window
    {
      Roll(h, windowSize, chunkSize, window[..])
    }

    ghost predicate Valid()
      reads this, window
    {
      cfg.Valid() && window.Length == WINDOW && Abs().Valid(cfg)
    }

    constructor New(average: nat, table: seq<bv32>)
      requires |table| == 256
      ensures cfg == ForAverage(average, table) && (cfg.Valid() ==> Valid())
      ensures fresh(this) && fresh(window) && window.Length == WINDOW
      ensures Abs() == Roll(0, 0, 0, seq(WINDOW, _ => 0))
    {
      cfg := ForAverage(average, table);
      h := 0;
      windowSize := 0;
      chunkSize := 0;
      window := new Byte[WINDOW](_ => 0);
    }

    method Reset()
      requires Valid()
      modifies this
      ensures Valid() && window == old(window) && Abs() == old(Abs()).Reset()
    {
      h := 0;
      chunkSize := 0;
      windowSize := 0;
    }

    /** One turn of Scan's first loop: the window is still filling. */
    method FillByte(b: Byte)
      requires Valid() && windowSize < WINDOW
      modifies this, window
      ensures Valid() && window == old(window)
      ensures Abs() == Step(cfg, old(Abs()), b).0
    {
      window[windowSize] := b;
      h := cfg.enter(h, b);
      windowSize := windowSize + 1;
      chunkSize := chunkSize + 1;
      assert window[..] == old(window[..])[old(windowSize) := b];
    }

    /** One turn of Scan's second loop: the window rolls, and a break resets. */
    method RollByte(enter: Byte) returns (cut: bool)
      requires Valid() && windowSize == WINDOW
      modifies this, window
      ensures Valid() && window == old(window)
      ensures (Abs(), cut) == Step(cfg, old(Abs()), enter)
      ensures !cut ==> windowSize == WINDOW
    {
      var idx := chunkSize % WINDOW;
      var leave := window[idx];
      h := cfg.roll(h, leave, enter);
      chunkSize := chunkSize + 1;
      window[idx] := enter;
      assert window[..] == old(window[..])[idx := enter];
      cut := ShallBreak(cfg, h, chunkSize);
      if cut {
        h := 0;
        chunkSize := 0;
        windowSize := 0;
      }
    }

    /** Scan's first loop: fills the window. */
    method Fill(data: Bytes) returns (pos: nat)
      requires Valid()
      modifies this, window
      ensures Valid() && window == old(window)
      ensures Reading(cfg, old(Abs()), data, Abs(), pos)
      ensures windowSize < WINDOW ==> pos == |data|
    {
      pos := 0;
      while windowSize < WINDOW && pos < |data|
        invariant Valid() && window == old(window)
        invariant Reading(cfg, old(Abs()), data, Abs(), pos)
        decreases |data| - pos
      {
        ReadByte(cfg, old(Abs()), data, Abs(), pos);
        FillByte(data[pos]);
        pos := pos + 1;
      }
    }

    /** RollByte in the middle of a Scan that began in state start. */
    method RollNext(ghost start: Roll, data: Bytes, pos: nat) returns (cut: bool)
      requires Valid() && windowSize == WINDOW && pos < |data|
      requires start.Valid(cfg) && Reading(cfg, start, data, Abs(), pos)
      modifies this, window
      ensures Valid() && window == old(window)
      ensures if cut then Scanned(cfg, start, data, Abs(), pos + 1) else Reading(cfg, start, data, Abs(), pos + 1)
      ensures !cut ==> windowSize == WINDOW
    {
      ReadByte(cfg, start, data, Abs(), pos);
      cut := RollByte(data[pos]);
    }

    /** Scan's second loop: rolls on from a position in the data. */
    method RollOn(ghost start: Roll, data: Bytes, from: nat) returns (pos: nat)
      requires Valid() && windowSize == WINDOW
      requires start.Valid(cfg) && Reading(cfg, start, data, Abs(), from)
      modifies this, window
      ensures Valid() && window == old(window)
      ensures Scanned(cfg, start, data, Abs(), pos)
    {
      pos := from;
      while pos < |data|
        invariant Valid() && window == old(window) && windowSize == WINDOW
        invariant Reading(cfg, start, data, Abs(), pos)
      {
        var cut := RollNext(start, data, pos);
        pos := pos + 1;
        if cut {
          return pos;
        }
      }
      ReadAll(cfg, start, data, Abs());
      return 0;
    }

    /** The position just after the first break, 0 if there is none. */
    method Scan(data: Bytes) returns (pos: nat)
      requires Valid()
      modifies this, window
      ensures Valid() && window == old(window)
      ensures Scanned(cfg, old(Abs()), data, Abs(), pos)
    {
      ghost var start := Abs();
      pos := Fill(data);
      if windowSize < WINDOW {
        ReadAll(cfg, start, data, Abs());
        return 0;
      }
      pos := RollOn(start, data, pos);
    }
  }
}
