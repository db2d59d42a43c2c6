/** strings.ReplaceAll and strings.Trim, and what they do. A char stands for a byte. */
module Strings {

  /** Whether from stands at position i of s. */
  predicate At(s: string, from: string, i: nat) {
    i + |from| <= |s| && s[i..i + |from|] == from
  }

  predicate Occurs(s: string, from: string) {
    exists i :: 0 <= i <= |s| && At(s, from, i)
  }

  /** Replaces occurrences from the left, each looked for after the one before. */
  function ReplaceAll(s: string, from: string, into: string): string
    requires from != ""
  {
    if |s| < |from| then s
    else if s[..|from|] == from then into + ReplaceAll(s[|from|..], from, into)
    else [s[0]] + ReplaceAll(s[1..], from, into)
  }

  /** How many occurrences are replaced. */
  function Count(s: string, from: string): nat
    requires from != ""
  {
    if |s| < |from| then 0
    else if s[..|from|] == from then 1 + Count(s[|from|..], from)
    else Count(s[1..], from)
  }

  lemma OccursLater(s: string, from: string, i: nat)
    requires s != ""
    ensures At(s[1..], from, i) <==> At(s, from, i + 1)
  {
    if i + 1 + |from| <= |s| {
      assert s[1..][i..i + |from|] == s[i + 1..i + 1 + |from|];
    }
  }

  lemma {:induction false} CountIsZero(s: string, from: string)
    requires from != ""
    ensures Count(s, from) == 0 <==> !Occurs(s, from)
  {
    if |s| < |from| {
    } else if s[..|from|] == from {
      assert At(s, from, 0);
    } else {
      CountIsZero(s[1..], from);
      if Occurs(s[1..], from) {
        var i :| 0 <= i <= |s[1..]| && At(s[1..], from, i);
        OccursLater(s, from, i);
      }
      if Occurs(s, from) {
        var i :| 0 <= i <= |s| && At(s, from, i);
        OccursLater(s, from, i - 1);
      }
    }
  }

  function Times(n: nat, d: int): int {
    if n == 0 then 0 else d + Times(n - 1, d)
  }

  lemma {:induction false} TimesSign(n: nat, d: int)
    requires n > 0
    ensures d > 0 ==> Times(n, d) >= d
    ensures d < 0 ==> Times(n, d) <= d
    ensures d == 0 ==> Times(n, d) == 0
  {
    if n > 1 {
      TimesSign(n - 1, d);
    }
  }

  /** Each replacement changes the length by the same amount. */
  lemma {:induction false} ReplacedLength(s: string, from: string, into: string)
    requires from != ""
    ensures |ReplaceAll(s, from, into)| == |s| + Times(Count(s, from), |into| - |from|)
  {
    if |s| < |from| {
    } else if s[..|from|] == from {
      ReplacedLength(s[|from|..], from, into);
    } else {
      ReplacedLength(s[1..], from, into);
    }
  }

  lemma {:induction false} NothingToReplace(s: string, from: string, into: string)
    requires from != "" && Count(s, from) == 0
    ensures ReplaceAll(s, from, into) == s
  {
    if |s| >= |from| {
      NothingToReplace(s[1..], from, into);
      assert [s[0]] + s[1..] == s;
    }
  }

  lemma Front(a: string, b: string, c: string, d: string)
    requires a + b == c + d && |a| == |c|
    ensures a == c && b == d
  {
    assert (a + b)[..|a|] == a && (c + d)[..|c|] == c;
    assert (a + b)[|a|..] == b && (c + d)[|c|..] == d;
  }

  /** Of equal lengths, a replacement that changes nothing replaces nothing. */
  lemma {:induction false} SameOnlyIfNone(s: string, from: string, into: string)
    requires from != "" && into != from && |into| == |from| && Count(s, from) > 0
    ensures ReplaceAll(s, from, into) != s
  {
    if s[..|from|] == from {
      assert s == from + s[|from|..];
      if ReplaceAll(s, from, into) == s {
        Front(into, ReplaceAll(s[|from|..], from, into), from, s[|from|..]);
      }
    } else {
      SameOnlyIfNone(s[1..], from, into);
      assert s == [s[0]] + s[1..];
      assert ReplaceAll(s, from, into)[1..] == ReplaceAll(s[1..], from, into);
    }
  }

  /** ReplaceAll leaves exactly the strings without the from part unchanged. */
  lemma UnchangedIff(s: string, from: string, into: string)
    requires from != "" && into != from
    ensures ReplaceAll(s, from, into) == s <==> !Occurs(s, from)
  {
    CountIsZero(s, from);
    if Count(s, from) == 0 {
      NothingToReplace(s, from, into);
    } else if |into| == |from| {
      SameOnlyIfNone(s, from, into);
    } else {
      ReplacedLength(s, from, into);
      TimesSign(Count(s, from), |into| - |from|);
    }
  }

  /** Nothing of from is found before position |pre| of pre + from. */
  predicate FirstAt(pre: string, from: string) {
    forall i :: 0 <= i < |pre| ==> !At(pre + from, from, i)
  }

  lemma FirstAtTail(pre: string, from: string)
    requires FirstAt(pre, from) && pre != ""
    ensures FirstAt(pre[1..], from)
  {
    forall i | 0 <= i < |pre[1..]| ensures !At(pre[1..] + from, from, i) {
      assert (pre[1..] + from)[i..i + |from|] == (pre + from)[i + 1..i + 1 + |from|];
      assert !At(pre + from, from, i + 1);
    }
  }

  /** The leftmost occurrence is replaced, and the search goes on behind it. */
  lemma {:induction false} ReplaceFirst(pre: string, from: string, rest: string, into: string)
    requires from != "" && FirstAt(pre, from)
    ensures ReplaceAll(pre + from + rest, from, into) == pre + into + ReplaceAll(rest, from, into)
    ensures Count(pre + from + rest, from) == 1 + Count(rest, from)
  {
    var s := pre + from + rest;
    if pre == "" {
      assert s == from + rest && s[|from|..] == rest;
    } else {
      FirstAtTail(pre, from);
      ReplaceFirst(pre[1..], from, rest, into);
      assert s[1..] == pre[1..] + from + rest;
      assert s[..|from|] == (pre + from)[0..|from|];
      assert !At(pre + from, from, 0);
      assert [s[0]] + (pre[1..] + into + ReplaceAll(rest, from, into)) == pre + into + ReplaceAll(rest, from, into);
    }
  }

  // ---- Mentions ----

  /** A message made of texts with a name between any two of them. */
  function Told(texts: seq<string>, name: string): string
    requires texts != []
  {
    if |texts| == 1 then texts[0] else texts[0] + name + Told(texts[1..], name)
  }

  /** The name stands nowhere in the message but between the texts, as one reads it from
      the left. */
  predicate Clean(texts: seq<string>, name: string)
    requires texts != []
  {
    if |texts| == 1 then !Occurs(texts[0], name) else FirstAt(texts[0], name) && Clean(texts[1..], name)
  }

  /** Then replacing the name tells the message with the other. */
  lemma {:induction false} ReplaceTold(texts: seq<string>, from: string, into: string)
    requires from != "" && texts != [] && Clean(texts, from)
    ensures ReplaceAll(Told(texts, from), from, into) == Told(texts, into)
  {
    if |texts| == 1 {
      CountIsZero(texts[0], from);
      NothingToReplace(texts[0], from, into);
    } else {
      ReplaceTold(texts[1..], from, into);
      ReplaceFirst(texts[0], from, Told(texts[1..], from), into);
    }
  }

  /** A message as it is read from the left. */
  function Reading(s: string, name: string): (texts: seq<string>)
    requires name != ""
    ensures texts != []
  {
    if |s| < |name| then [s]
    else if s[..|name|] == name then [""] + Reading(s[|name|..], name)
    else
      var rest := Reading(s[1..], name);
      [[s[0]] + rest[0]] + rest[1..]
  }

  lemma ToldLonger(c: char, texts: seq<string>, name: string)
    requires texts != []
    ensures Told([[c] + texts[0]] + texts[1..], name) == [c] + Told(texts, name)
  {
    var longer := [[c] + texts[0]] + texts[1..];
    assert longer[1..] == texts[1..];
    if |texts| > 1 {
      assert ([c] + texts[0]) + name + Told(texts[1..], name) == [c] + (texts[0] + name + Told(texts[1..], name));
    }
  }

  lemma ToldAfter(texts: seq<string>, name: string)
    requires texts != []
    ensures Told([""] + texts, name) == name + Told(texts, name)
  {
    assert ([""] + texts)[1..] == texts;
  }

  /** The reading tells the message, and replacing the name tells the reading with the
      other: for every message. */
  lemma {:induction false} ReplaceTellsTheReading(s: string, from: string, into: string)
    requires from != ""
    ensures Told(Reading(s, from), from) == s
    ensures ReplaceAll(s, from, into) == Told(Reading(s, from), into)
  {
    if |s| < |from| {
    } else if s[..|from|] == from {
      var rest := Reading(s[|from|..], from);
      ReplaceTellsTheReading(s[|from|..], from, into);
      ToldAfter(rest, from);
      ToldAfter(rest, into);
    } else {
      var rest := Reading(s[1..], from);
      ReplaceTellsTheReading(s[1..], from, into);
      ToldLonger(s[0], rest, from);
      ToldLonger(s[0], rest, into);
    }
  }

  // ---- When a message is told rightly ----

  /** Neither name is how the other begins. */
  predicate Apart(a: string, b: string) {
    exists j :: 0 <= j < |a| && j < |b| && a[j] != b[j]
  }

  function FirstDifference(a: string, b: string): (j: nat)
    requires Apart(a, b)
    ensures j < |a| && j < |b| && a[j] != b[j] && a[..j] == b[..j]
  {
    if a[0] != b[0] then 0
    else
      var j :| 0 <= j < |a| && j < |b| && a[j] != b[j];
      assert a[1..][j - 1] != b[1..][j - 1];
      var k := 1 + FirstDifference(a[1..], b[1..]);
      assert a[..k] == [a[0]] + a[1..][..k - 1] && b[..k] == [b[0]] + b[1..][..k - 1];
      k
  }

  lemma {:induction false} Leftmost(pre: string, name: string, i: nat) returns (p: nat)
    requires i < |pre| && At(pre + name, name, i)
    ensures p < |pre| && At(pre + name, name, p) && FirstAt(pre[..p], name)
  {
    if k :| 0 <= k < i && At(pre + name, name, k) {
      p := Leftmost(pre, name, k);
    } else {
      p := i;
      var before := pre[..p] + name;
      assert before == (pre + name)[..p + |name|];
      forall k | 0 <= k < p ensures !At(before, name, k) {
        assert !At(pre + name, name, k);
      }
    }
  }

  /** An occurrence that begins earlier than the first mention is told otherwise, where
      the names differ. */
  lemma EarlierIsWrong(pre: string, from: string, rest: string, into: string, p: nat, told: string)
    requires from != "" && Apart(from, into) && p < |pre| && At(pre + from, from, p) && FirstAt(pre[..p], from)
    ensures ReplaceAll(pre + from + rest, from, into) != pre + into + told
  {
    var s := pre + from + rest;
    var after := s[p + |from|..];
    var j := FirstDifference(from, into);
    assert s == pre[..p] + from + after;
    ReplaceFirst(pre[..p], from, after, into);
    var got, expected := pre[..p] + into + ReplaceAll(after, from, into), pre + into + told;
    assert got[p + j] == into[j] && s[p + j] == from[j];
    if p + j < |pre| {
      assert expected[p + j] == pre[p + j] == from[j];
    } else {
      var k := p + j - |pre|;
      assert from[j] == s[p + j] == from[k];
      assert from[..j][k] == into[..j][k];
      assert expected[p + j] == into[k];
    }
  }

  lemma {:induction false} ToldIffApart(texts: seq<string>, from: string, into: string)
    requires from != "" && Apart(from, into) && texts != []
    ensures ReplaceAll(Told(texts, from), from, into) == Told(texts, into) <==> Clean(texts, from)
  {
    if |texts| == 1 {
      assert from != into;
      UnchangedIff(texts[0], from, into);
    } else if FirstAt(texts[0], from) {
      var rest := Told(texts[1..], from);
      ToldIffApart(texts[1..], from, into);
      ReplaceFirst(texts[0], from, rest, into);
      var got, expected := ReplaceAll(rest, from, into), Told(texts[1..], into);
      if texts[0] + into + got == texts[0] + into + expected {
        Front(texts[0] + into, got, texts[0] + into, expected);
      }
    } else {
      var i :| 0 <= i < |texts[0]| && At(texts[0] + from, from, i);
      var p := Leftmost(texts[0], from, i);
      EarlierIsWrong(texts[0], from, Told(texts[1..], from), into, p, Told(texts[1..], into));
    }
  }

  // ---- Names that do not overlap themselves ----

  predicate Overlaps(name: string) {
    exists k :: 0 < k < |name| && name[..k] == name[|name| - k..]
  }

  lemma OverlapFrom(pre: string, name: string, p: nat)
    requires p < |pre| < p + |name| && At(pre + name, name, p)
    ensures Overlaps(name)
  {
    var k := p + |name| - |pre|;
    var s := pre + name;
    assert name[..k] == s[|pre|..p + |name|] == s[p..p + |name|][|name| - k..] == name[|name| - k..];
  }

  lemma NoOverlap(pre: string, name: string, p: nat)
    requires !Overlaps(name) && name != "" && p < |pre| && At(pre + name, name, p)
    ensures p + |name| <= |pre| && At(pre, name, p)
  {
    if p + |name| > |pre| {
      OverlapFrom(pre, name, p);
    }
    assert pre[p..p + |name|] == (pre + name)[p..p + |name|];
  }

  lemma FirstAtIff(pre: string, name: string)
    requires !Overlaps(name) && name != ""
    ensures FirstAt(pre, name) <==> !Occurs(pre, name)
  {
    if !FirstAt(pre, name) {
      var p :| 0 <= p < |pre| && At(pre + name, name, p);
      NoOverlap(pre, name, p);
    }
    if Occurs(pre, name) {
      var p :| 0 <= p <= |pre| && At(pre, name, p);
      assert (pre + name)[p..p + |name|] == pre[p..p + |name|];
      assert At(pre + name, name, p);
    }
  }

  /** Occurrences before and after one do not get in its way. */
  lemma {:induction false} CountAround(pre: string, name: string, rest: string)
    requires !Overlaps(name) && name != ""
    ensures Count(pre + name + rest, name) == Count(pre, name) + 1 + Count(rest, name)
  {
    var s := pre + name + rest;
    if pre == "" {
      assert s == name + rest && s[|name|..] == rest;
    } else if s[..|name|] == name {
      assert (pre + name)[0..|name|] == s[..|name|];
      NoOverlap(pre, name, 0);
      CountAround(pre[|name|..], name, rest);
      assert s[|name|..] == pre[|name|..] + name + rest;
    } else {
      CountAround(pre[1..], name, rest);
      assert s[1..] == pre[1..] + name + rest;
      assert |pre| >= |name| ==> pre[..|name|] == s[..|name|];
    }
  }

  /** Occurrences in the texts, the mentions between them not counted. */
  function Stray(texts: seq<string>, name: string): nat
    requires name != ""
  {
    if texts == [] then 0 else Count(texts[0], name) + Stray(texts[1..], name)
  }

  lemma {:induction false} CountTold(texts: seq<string>, name: string)
    requires !Overlaps(name) && name != "" && texts != []
    ensures Count(Told(texts, name), name) == |texts| - 1 + Stray(texts, name)
  {
    if |texts| > 1 {
      CountTold(texts[1..], name);
      CountAround(texts[0], name, Told(texts[1..], name));
    }
  }

  /** Then the texts are clean exactly when none has the name in it. */
  lemma {:induction false} CleanIff(texts: seq<string>, name: string)
    requires !Overlaps(name) && name != "" && texts != []
    ensures Clean(texts, name) <==> Stray(texts, name) == 0
  {
    CountIsZero(texts[0], name);
    FirstAtIff(texts[0], name);
    if |texts| > 1 {
      CleanIff(texts[1..], name);
    }
  }

  lemma {:induction false} ToldLength(texts: seq<string>, from: string, into: string)
    requires texts != []
    ensures |Told(texts, into)| == |Told(texts, from)| + Times(|texts| - 1, |into| - |from|)
  {
    if |texts| > 1 {
      ToldLength(texts[1..], from, into);
    }
  }

  lemma {:induction false} TimesSum(m: nat, n: nat, d: int)
    ensures Times(m + n, d) == Times(m, d) + Times(n, d)
  {
    if m > 0 {
      TimesSum(m - 1, n, d);
    }
  }

  lemma StrayIsWrong(texts: seq<string>, from: string, into: string)
    requires from != "" && |from| != |into| && !Overlaps(from) && texts != [] && Stray(texts, from) > 0
    ensures |ReplaceAll(Told(texts, from), from, into)| != |Told(texts, into)|
  {
    var n, more, d := |texts| - 1, Stray(texts, from), |into| - |from|;
    CountTold(texts, from);
    ReplacedLength(Told(texts, from), from, into);
    ToldLength(texts, from, into);
    TimesSum(n, more, d);
    TimesSign(more, d);
  }

  lemma ToldIffAlone(texts: seq<string>, from: string, into: string)
    requires from != "" && |from| != |into| && !Overlaps(from) && texts != []
    ensures ReplaceAll(Told(texts, from), from, into) == Told(texts, into) <==> Clean(texts, from)
  {
    CleanIff(texts, from);
    if Clean(texts, from) {
      ReplaceTold(texts, from, into);
    } else {
      StrayIsWrong(texts, from, into);
    }
  }

  /** A message comes out with the other name in every place it was meant, and is
      otherwise as it was, exactly when the name stands in no other place. The names must
      not begin alike, or the name not overlap itself. */
  lemma ToldIff(texts: seq<string>, from: string, into: string)
    requires from != "" && from != into && (Apart(from, into) || !Overlaps(from)) && texts != []
    ensures ReplaceAll(Told(texts, from), from, into) == Told(texts, into) <==> Clean(texts, from)
  {
    if Apart(from, into) {
      ToldIffApart(texts, from, into);
    } else {
      assert |from| != |into|;
      ToldIffAlone(texts, from, into);
    }
  }

  // ---- Counting through a replacement ----

  /** More in front never means fewer occurrences, and at most one is lost with as much
      in front as the name is long. */
  lemma {:induction false} CountFront(u: string, s: string, name: string)
    requires name != ""
    ensures Count(u + s, name) >= Count(s, name)
    ensures |u| <= |name| ==> Count(u + s, name) <= 1 + Count(s, name)
    decreases |u| + |s|
  {
    var all := u + s;
    if u == "" {
      assert all == s;
    } else if |all| < |name| {
    } else if all[..|name|] == name {
      if |u| >= |name| {
        assert all[|name|..] == u[|name|..] + s;
        CountFront(u[|name|..], s, name);
      } else {
        var c := |name| - |u|;
        assert all[|name|..] == s[c..] && s == s[..c] + s[c..];
        CountFront(s[..c], s[c..], name);
      }
    } else {
      assert all[1..] == u[1..] + s;
      CountFront(u[1..], s, name);
    }
  }

  /** Reading from the left finds as many occurrences as there are side by side. */
  lemma {:induction false} CountSideBySide(pre: string, name: string, rest: string)
    requires name != ""
    ensures Count(pre + name + rest, name) >= 1 + Count(rest, name)
  {
    var s := pre + name + rest;
    if pre == "" {
      assert s == name + rest && s[|name|..] == rest;
    } else if s[..|name|] == name {
      if |pre| >= |name| {
        assert s[|name|..] == pre[|name|..] + name + rest;
        CountSideBySide(pre[|name|..], name, rest);
      } else {
        var tail := name[|name| - |pre|..];
        assert s[|name|..] == tail + rest;
        CountFront(tail, rest, name);
      }
    } else {
      assert s[1..] == pre[1..] + name + rest;
      CountSideBySide(pre[1..], name, rest);
    }
  }

  lemma {:induction false} CountMentions(texts: seq<string>, name: string)
    requires name != "" && texts != []
    ensures Count(Told(texts, name), name) >= |texts| - 1
  {
    if |texts| > 1 {
      CountMentions(texts[1..], name);
      CountSideBySide(texts[0], name, Told(texts[1..], name));
    }
  }

  /** Occurrences of a name that does not overlap itself, in two parts of a string. */
  lemma {:induction false} CountParts(a: string, b: string, name: string)
    requires !Overlaps(name) && name != ""
    ensures Count(a + b, name) >= Count(a, name) + Count(b, name)
  {
    if |a| < |name| {
      CountFront(a, b, name);
    } else if a[..|name|] == name {
      CountParts(a[|name|..], b, name);
      assert (a + b)[|name|..] == a[|name|..] + b && (a + b)[..|name|] == name;
    } else {
      CountParts(a[1..], b, name);
      assert (a + b)[1..] == a[1..] + b && (a + b)[..|name|] == a[..|name|];
    }
  }

  // ---- Trim ----

  function TrimLeft(s: string, c: char): (r: string)
    ensures r == "" || r[0] != c
  {
    if s != "" && s[0] == c then TrimLeft(s[1..], c) else s
  }

  function TrimRight(s: string, c: char): (r: string)
    ensures r == "" || r[|r| - 1] != c
    ensures r <= s
  {
    if s != "" && s[|s| - 1] == c then TrimRight(s[..|s| - 1], c) else s
  }

  function Trim(s: string, c: char): string {
    TrimRight(TrimLeft(s, c), c)
  }

  function Run(c: char, n: nat): string {
    seq(n, _ => c)
  }

  lemma {:induction false} TrimLeftSplit(s: string, c: char)
    ensures |TrimLeft(s, c)| <= |s| && s == Run(c, |s| - |TrimLeft(s, c)|) + TrimLeft(s, c)
  {
    if s != "" && s[0] == c {
      TrimLeftSplit(s[1..], c);
      assert s == [c] + s[1..];
      assert Run(c, |s| - |TrimLeft(s, c)|) == [c] + Run(c, |s[1..]| - |TrimLeft(s, c)|);
    }
  }

  lemma {:induction false} TrimRightSplit(s: string, c: char)
    ensures s == TrimRight(s, c) + Run(c, |s| - |TrimRight(s, c)|)
  {
    if s != "" && s[|s| - 1] == c {
      var but := s[..|s| - 1];
      TrimRightSplit(but, c);
      assert s == but + [c];
      assert Run(c, |s| - |TrimRight(s, c)|) == Run(c, |but| - |TrimRight(s, c)|) + [c];
    }
  }

  /** Trim takes off runs of c at the ends, all of them, and nothing else. */
  lemma TrimSplit(s: string, c: char) returns (left: nat, right: nat)
    ensures s == Run(c, left) + Trim(s, c) + Run(c, right)
    ensures Trim(s, c) != "" ==> Trim(s, c)[0] != c && Trim(s, c)[|Trim(s, c)| - 1] != c
  {
    TrimLeftSplit(s, c);
    TrimRightSplit(TrimLeft(s, c), c);
    left := |s| - |TrimLeft(s, c)|;
    right := |TrimLeft(s, c)| - |Trim(s, c)|;
  }
}
