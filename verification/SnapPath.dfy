/** Messages about a snapshot, told in the user's own paths (directorybackup/snappath.go). */
module SnapPath {
  import opened Types
  import opened Strings

  predicate Separator(c: char) {
    c == '\\' || c == '/'
  }

  /** A drive or file system root is named with its separator. */
  predicate IsRoot(dir: string) {
    dir != "" && Separator(dir[|dir| - 1])
  }

  function UnmapString(s: string, snap: string, orig: string): string {
    if snap == "" || snap == orig then s
    else
      var children := if IsRoot(orig) then ReplaceAll(s, snap + orig[|orig| - 1..], orig) else s;
      ReplaceAll(children, snap, orig)
  }

  /** Any message about a path in an ordinary folder comes out with the user's path,
      exactly when the snapshot's folder is not mentioned again further on. */
  lemma OrdinaryFolder(pre: string, snap: string, orig: string, rest: string)
    requires snap != "" && snap != orig && !IsRoot(orig) && FirstAt(pre, snap)
    ensures UnmapString(pre + snap + rest, snap, orig) == pre + orig + rest <==> !Occurs(rest, snap)
  {
    ReplaceFirst(pre, snap, rest, orig);
    UnchangedIff(rest, snap, orig);
    var got := ReplaceAll(rest, snap, orig);
    if pre + orig + got == pre + orig + rest {
      Front(pre + orig, got, pre + orig, rest);
    }
  }

  /** Two passes that each shorten or each lengthen cannot make up for each other. */
  lemma NoReplacements(m: nat, n: nat, d: int)
    requires Times(m, d - 1) + Times(n, d) == 0 && (d < 0 || d > 1)
    ensures m == 0 && n == 0
  {
    if m > 0 {
      TimesSign(m, d - 1);
    }
    if n > 0 {
      TimesSign(n, d);
    }
  }

  /** Under a root, with the lengths equal or one apart, only one pass changes lengths. */
  lemma OneLengthChanges(pre: string, snap: string, orig: string, rel: string)
    requires snap != "" && snap != orig && IsRoot(orig) && |snap| <= |orig| <= |snap| + 1
    requires var long := snap + orig[|orig| - 1..];
             ReplaceAll(pre + orig + ReplaceAll(rel, long, orig), snap, orig) == pre + orig + rel
    ensures !Occurs(rel, snap + orig[|orig| - 1..])
  {
    var long := snap + orig[|orig| - 1..];
    var first := pre + orig + ReplaceAll(rel, long, orig);
    ReplacedLength(rel, long, orig);
    ReplacedLength(first, snap, orig);
    CountIsZero(rel, long);
    if |orig| == |snap| {
      if Count(first, snap) > 0 {
        TimesSign(Count(first, snap), 0);
      }
      if Count(rel, long) > 0 {
        TimesSign(Count(rel, long), -1);
      }
    } else {
      if Count(rel, long) > 0 {
        TimesSign(Count(rel, long), 0);
      }
      if Count(first, snap) > 0 {
        TimesSign(Count(first, snap), 1);
      }
      NothingToReplace(first, snap, orig);
      Front(pre + orig, ReplaceAll(rel, long, orig), pre + orig, rel);
      if orig == long {
        assert first[|pre|..|pre| + |snap|] == snap;
        assert At(first, snap, |pre|);
        CountIsZero(first, snap);
      }
      UnchangedIff(rel, long, orig);
    }
  }

  lemma RootPasses(pre: string, snap: string, orig: string, rel: string)
    requires snap != "" && snap != orig && IsRoot(orig)
    ensures
      var long := snap + orig[|orig| - 1..];
      ReplaceAll(pre + orig + ReplaceAll(rel, long, orig), snap, orig) == pre + orig + rel
      <==> !Occurs(rel, long) && !Occurs(pre + orig + rel, snap)
  {
    var long := snap + orig[|orig| - 1..];
    var first := pre + orig + ReplaceAll(rel, long, orig);
    CountIsZero(rel, long);
    if Count(rel, long) == 0 {
      NothingToReplace(rel, long, orig);
      UnchangedIff(pre + orig + rel, snap, orig);
    } else if ReplaceAll(first, snap, orig) == pre + orig + rel {
      if |snap| <= |orig| <= |snap| + 1 {
        OneLengthChanges(pre, snap, orig, rel);
      } else {
        ReplacedLength(rel, long, orig);
        ReplacedLength(first, snap, orig);
        NoReplacements(Count(rel, long), Count(first, snap), |orig| - |snap|);
      }
    }
  }

  /** A child of a root comes out with the user's path and one separator, exactly when
      the snapshot's folder is found neither further on nor in the result. */
  lemma RootChild(pre: string, snap: string, orig: string, rel: string)
    requires snap != "" && snap != orig && IsRoot(orig)
    requires FirstAt(pre, snap + orig[|orig| - 1..])
    ensures
      var sep := orig[|orig| - 1..];
      UnmapString(pre + (snap + sep) + rel, snap, orig) == pre + orig + rel
      <==> !Occurs(rel, snap + sep) && !Occurs(pre + orig + rel, snap)
  {
    ReplaceFirst(pre, snap + orig[|orig| - 1..], rel, orig);
    RootPasses(pre, snap, orig, rel);
  }

  /** The root itself, mentioned without a child. */
  lemma RootItself(pre: string, snap: string, orig: string, rest: string)
    requires snap != "" && snap != orig && IsRoot(orig) && FirstAt(pre, snap)
    requires !Occurs(pre + snap + rest, snap + orig[|orig| - 1..])
    ensures UnmapString(pre + snap + rest, snap, orig) == pre + orig + rest <==> !Occurs(rest, snap)
  {
    CountIsZero(pre + snap + rest, snap + orig[|orig| - 1..]);
    NothingToReplace(pre + snap + rest, snap + orig[|orig| - 1..], orig);
    ReplaceFirst(pre, snap, rest, orig);
    UnchangedIff(rest, snap, orig);
    var got := ReplaceAll(rest, snap, orig);
    if pre + orig + got == pre + orig + rest {
      Front(pre + orig, got, pre + orig, rest);
    }
  }

  /** Roots are the drives' and the file system's: whatever the child's path, it comes out
      with one separator, exactly as RootChild has it. */
  lemma RootsAre(snap: string, rel: string, drive: char)
    requires snap != ""
    ensures var orig := [drive] + ":\\";
      snap != orig ==>
        (UnmapString(snap + "\\" + rel, snap, orig) == orig + rel
         <==> !Occurs(rel, snap + "\\") && !Occurs(orig + rel, snap))
    ensures snap != "/" ==>
      (UnmapString(snap + "/" + rel, snap, "/") == "/" + rel <==> !Occurs(rel, snap + "/") && !Occurs("/" + rel, snap))
  {
    ChildAlone(snap, [drive] + ":\\", "\\", rel);
    ChildAlone(snap, "/", "/", rel);
  }

  lemma ChildAlone(snap: string, orig: string, sep: string, rel: string)
    requires snap != "" && IsRoot(orig) && sep == orig[|orig| - 1..]
    ensures snap != orig ==>
      (UnmapString(snap + sep + rel, snap, orig) == orig + rel <==> !Occurs(rel, snap + sep) && !Occurs(orig + rel, snap))
  {
    if snap != orig {
      RootChild("", snap, orig, rel);
      assert "" + (snap + sep) + rel == snap + sep + rel && "" + orig + rel == orig + rel;
    }
  }

  // ---- Messages with any number of mentions ----

  /** A message about an ordinary folder: whatever it says of the snapshot's folder, once
      or often, comes out about the user's, and the rest as it was, exactly when the
      snapshot's folder is not found in any other place. The two folders must not begin
      alike, or the snapshot's not overlap itself. */
  lemma FolderMentions(texts: seq<string>, snap: string, orig: string)
    requires texts != [] && snap != "" && snap != orig && !IsRoot(orig) && (Apart(snap, orig) || !Overlaps(snap))
    ensures UnmapString(Told(texts, snap), snap, orig) == Told(texts, orig) <==> Clean(texts, snap)
  {
    ToldIff(texts, snap, orig);
  }

  /** And whatever the two folders, every message comes out as it reads from the left. */
  lemma FolderReading(s: string, snap: string, orig: string)
    requires snap != "" && snap != orig && !IsRoot(orig)
    ensures s == Told(Reading(s, snap), snap)
    ensures UnmapString(s, snap, orig) == Told(Reading(s, snap), orig)
  {
    ReplaceTellsTheReading(s, snap, orig);
  }

  /** Two mentions that come out rightly; a folder named like the snapshot's that does not;
      and, with folders that do begin alike, a message that is right by chance, though
      the first mention is found too early. */
  lemma FolderMessages()
    ensures UnmapString("/s a /s", "/s", "/d") == "/d a /d"
    ensures UnmapString("/s/s/x", "/s", "/d") == "/d/d/x" != "/d/s/x"
    ensures UnmapString(Told(["/a", ""], "/a/a"), "/a/a", "/a") == Told(["/a", ""], "/a") && !Clean(["/a", ""], "/a/a")
  {
    TwoMentions();
    NamedLikeTheFolder();
    RightByChance();
  }

  lemma TwoMentions()
    ensures UnmapString("/s a /s", "/s", "/d") == "/d a /d"
  {
    var between := " a ";
    var told := between + "/s";
    forall i | 0 <= i < |between| ensures !At(told, "/s", i) {
      assert told[i] == between[i] != '/';
      assert i + 2 <= |told| ==> told[i..i + 2][0] == told[i];
    }
    ReplaceFirst(between, "/s", "", "/d");
    ReplaceFirst("", "/s", told + "", "/d");
    assert ReplaceAll("", "/s", "/d") == "";
    assert "" + "/s" + (told + "") == "/s a /s";
    assert "" + "/d" + (between + "/d" + "") == "/d a /d";
  }

  lemma NamedLikeTheFolder()
    ensures UnmapString("/s/s/x", "/s", "/d") == "/d/d/x" != "/d/s/x"
  {
    assert "/s/s/x"[..2] == "/s" && "/s/s/x"[2..] == "/s/x";
    assert "/s/x"[..2] == "/s" && "/s/x"[2..] == "/x";
    assert "/x"[..2] == "/x" && "/x"[1..] == "x";
    assert ReplaceAll("x", "/s", "/d") == "x" && ReplaceAll("/x", "/s", "/d") == "/x";
    assert ReplaceAll("/s/x", "/s", "/d") == "/d/x";
    assert "/d/d/x"[1] == 'd' && "/d/d/x"[3] == 'd' && "/d/s/x"[3] == 's';
  }

  lemma RightByChance()
    ensures UnmapString(Told(["/a", ""], "/a/a"), "/a/a", "/a") == Told(["/a", ""], "/a") && !Clean(["/a", ""], "/a/a")
  {
    var texts := ["/a", ""];
    assert texts[1..] == [""];
    assert Told(texts, "/a/a") == "/a/a/a" && Told(texts, "/a") == "/a/a";
    assert "/a/a/a"[..4] == "/a/a" && "/a/a/a"[4..] == "/a";
    assert ReplaceAll("/a/a/a", "/a/a", "/a") == "/a" + "/a";
    assert At("/a" + "/a/a", "/a/a", 0);
  }

  // ---- Roots ----

  /** A message about a root: in each line the root itself is named between the texts, and
      between the lines one of its children is. */
  function Lines(lines: seq<seq<string>>, self: string): (told: seq<string>)
    requires forall i :: 0 <= i < |lines| ==> lines[i] != []
    ensures |told| == |lines|
  {
    if lines == [] then [] else [Told(lines[0], self)] + Lines(lines[1..], self)
  }

  ghost predicate Proper(lines: seq<seq<string>>) {
    lines != [] && forall i :: 0 <= i < |lines| ==> lines[i] != []
  }

  function Message(lines: seq<seq<string>>, self: string, child: string): string
    requires lines != [] && forall i :: 0 <= i < |lines| ==> lines[i] != []
  {
    Told(Lines(lines, self), child)
  }

  /** Two lists of texts made one, with glue between the last of a and the first of b. */
  function Joined(a: seq<string>, glue: string, b: seq<string>): (texts: seq<string>)
    requires a != [] && b != []
    ensures texts != []
  {
    if |a| == 1 then [a[0] + glue + b[0]] + b[1..] else [a[0]] + Joined(a[1..], glue, b)
  }

  /** The texts between the mentions of the root itself, when the children are told. */
  function Merged(lines: seq<seq<string>>, glue: string): (texts: seq<string>)
    requires lines != [] && forall i :: 0 <= i < |lines| ==> lines[i] != []
    ensures texts != []
  {
    if |lines| == 1 then lines[0] else Joined(lines[0], glue, Merged(lines[1..], glue))
  }

  lemma {:induction false} JoinedTold(a: seq<string>, glue: string, b: seq<string>, name: string)
    requires a != [] && b != []
    ensures Told(Joined(a, glue, b), name) == Told(a, name) + glue + Told(b, name)
  {
    var joined := Joined(a, glue, b);
    if |a| == 1 {
      assert joined[1..] == b[1..];
      if |b| > 1 {
        assert (a[0] + glue + b[0]) + name + Told(b[1..], name) == a[0] + glue + (b[0] + name + Told(b[1..], name));
      }
    } else {
      JoinedTold(a[1..], glue, b, name);
      assert joined[1..] == Joined(a[1..], glue, b);
      assert a[0] + name + (Told(a[1..], name) + glue + Told(b, name)) == (a[0] + name + Told(a[1..], name)) + glue + Told(b, name);
    }
  }

  lemma {:induction false} MergedTold(lines: seq<seq<string>>, glue: string, name: string)
    requires Proper(lines)
    ensures Told(Merged(lines, glue), name) == Message(lines, name, glue)
  {
    if |lines| > 1 {
      MergedTold(lines[1..], glue, name);
      JoinedTold(lines[0], glue, Merged(lines[1..], glue), name);
      assert Lines(lines, name)[1..] == Lines(lines[1..], name);
    }
  }

  lemma RootPassesRight(lines: seq<seq<string>>, snap: string, long: string, orig: string)
    requires Proper(lines) && snap != "" && long != "" && Clean(Lines(lines, snap), long) && Clean(Merged(lines, orig), snap)
    ensures ReplaceAll(ReplaceAll(Message(lines, snap, long), long, orig), snap, orig) == Message(lines, orig, orig)
  {
    ReplaceTold(Lines(lines, snap), long, orig);
    MergedTold(lines, orig, snap);
    ReplaceTold(Merged(lines, orig), snap, orig);
    MergedTold(lines, orig, orig);
  }

  /** Whatever the root and the snapshot: a message comes out rightly when the first pass
      finds only the children, and the second only the root itself. */
  lemma RootMessage(lines: seq<seq<string>>, snap: string, orig: string)
    requires Proper(lines) && snap != "" && snap != orig && IsRoot(orig)
    requires var long := snap + orig[|orig| - 1..];
             Clean(Lines(lines, snap), long) && Clean(Merged(lines, orig), snap)
    ensures UnmapString(Message(lines, snap, snap + orig[|orig| - 1..]), snap, orig) == Message(lines, orig, orig)
  {
    RootPassesRight(lines, snap, snap + orig[|orig| - 1..], orig);
  }

  // ---- Exactly when a message about a root is right ----

  function Prefixed(z: string, texts: seq<string>): (longer: seq<string>)
    requires texts != []
    ensures longer != []
  {
    [z + texts[0]] + texts[1..]
  }

  /** All mentions alike: the texts between the snapshot's folder, wherever it is named. */
  function Flat(lines: seq<seq<string>>, sep: string): (texts: seq<string>)
    requires lines != [] && forall i :: 0 <= i < |lines| ==> lines[i] != []
    ensures texts != []
  {
    if |lines| == 1 then lines[0] else lines[0] + Prefixed(sep, Flat(lines[1..], sep))
  }

  lemma {:induction false} ConcatTold(a: seq<string>, b: seq<string>, name: string)
    requires a != [] && b != []
    ensures Told(a + b, name) == Told(a, name) + name + Told(b, name)
  {
    if |a| == 1 {
      assert (a + b)[1..] == b;
    } else {
      ConcatTold(a[1..], b, name);
      assert (a + b)[1..] == a[1..] + b;
      assert a[0] + name + (Told(a[1..], name) + name + Told(b, name)) == (a[0] + name + Told(a[1..], name)) + name + Told(b, name);
    }
  }

  lemma PrefixedTold(z: string, texts: seq<string>, name: string)
    requires texts != []
    ensures Told(Prefixed(z, texts), name) == z + Told(texts, name)
  {
    assert Prefixed(z, texts)[1..] == texts[1..];
    if |texts| > 1 {
      assert (z + texts[0]) + name + Told(texts[1..], name) == z + (texts[0] + name + Told(texts[1..], name));
    }
  }

  lemma MessageStep(lines: seq<seq<string>>, self: string, child: string)
    requires Proper(lines) && |lines| > 1
    ensures Message(lines, self, child) == Told(lines[0], self) + child + Message(lines[1..], self, child)
  {
    assert Lines(lines, self)[1..] == Lines(lines[1..], self);
  }

  lemma {:induction false} FlatTold(lines: seq<seq<string>>, snap: string, sep: string)
    requires Proper(lines)
    ensures Told(Flat(lines, sep), snap) == Message(lines, snap, snap + sep)
  {
    if |lines| > 1 {
      var rest := Flat(lines[1..], sep);
      var front, back := Told(lines[0], snap), Told(rest, snap);
      FlatTold(lines[1..], snap, sep);
      PrefixedTold(sep, rest, snap);
      ConcatTold(lines[0], Prefixed(sep, rest), snap);
      MessageStep(lines, snap, snap + sep);
      Regrouped(front, snap, sep, back);
    }
  }

  lemma {:induction false} ConcatStray(a: seq<string>, b: seq<string>, name: string)
    requires name != ""
    ensures Stray(a + b, name) == Stray(a, name) + Stray(b, name)
  {
    if a == [] {
      assert a + b == b;
    } else {
      ConcatStray(a[1..], b, name);
      assert (a + b)[1..] == a[1..] + b;
    }
  }

  /** Glue that ends like a child's mention hides no occurrence that was there. */
  lemma {:induction false} JoinedStray(a: seq<string>, o: string, sep: string, b: seq<string>, name: string)
    requires !Overlaps(name) && name != "" && a != [] && b != []
    ensures Stray(Joined(a, o + sep, b), name) >= Stray(a, name) + Stray(Prefixed(sep, b), name)
  {
    var joined := Joined(a, o + sep, b);
    if |a| == 1 {
      assert a[0] + (o + sep) + b[0] == a[0] + (o + (sep + b[0]));
      CountParts(a[0], o + (sep + b[0]), name);
      CountParts(o, sep + b[0], name);
      assert joined[1..] == b[1..] == Prefixed(sep, b)[1..] && a[1..] == [];
    } else {
      JoinedStray(a[1..], o, sep, b, name);
      assert joined[1..] == Joined(a[1..], o + sep, b);
    }
  }

  lemma JoinedPrefixed(z: string, a: seq<string>, glue: string, b: seq<string>)
    requires a != [] && b != []
    ensures Prefixed(z, Joined(a, glue, b)) == Joined(Prefixed(z, a), glue, b)
  {
    if |a| == 1 {
      assert z + (a[0] + glue + b[0]) == (z + a[0]) + glue + b[0];
    }
  }

  lemma PrefixedConcat(z: string, a: seq<string>, b: seq<string>)
    requires a != [] && b != []
    ensures Prefixed(z, a + b) == Prefixed(z, a) + b
  {
  }

  /** So a message in which the snapshot's folder is in no other place once the children
      are told had it in no other place before. */
  lemma {:induction false} MergedStray(z: string, lines: seq<seq<string>>, o: string, sep: string, name: string)
    requires !Overlaps(name) && name != "" && Proper(lines)
    ensures Stray(Prefixed(z, Merged(lines, o + sep)), name) >= Stray(Prefixed(z, Flat(lines, sep)), name)
    decreases |lines|
  {
    if |lines| > 1 {
      var a, m, f := lines[0], Merged(lines[1..], o + sep), Flat(lines[1..], sep);
      MergedStray(sep, lines[1..], o, sep, name);
      JoinedPrefixed(z, a, o + sep, m);
      JoinedStray(Prefixed(z, a), o, sep, m, name);
      ConcatStray(Prefixed(z, a), Prefixed(sep, f), name);
      PrefixedConcat(z, a, Prefixed(sep, f));
    }
  }

  lemma PrefixedNothing(texts: seq<string>)
    requires texts != []
    ensures Prefixed("", texts) == texts
  {
    assert "" + texts[0] == texts[0];
  }

  lemma MergedHidesNothing(lines: seq<seq<string>>, o: string, sep: string, name: string)
    requires !Overlaps(name) && name != "" && Proper(lines)
    ensures Stray(Merged(lines, o + sep), name) >= Stray(Flat(lines, sep), name)
  {
    MergedStray("", lines, o, sep, name);
    PrefixedNothing(Merged(lines, o + sep));
    PrefixedNothing(Flat(lines, sep));
  }

  predicate BeginsWith(s: string, c: char) {
    s != "" && s[0] == c
  }

  /** Within a line, what follows the root itself is not a separator: with one, it would
      name a child. */
  predicate ItselfOnly(line: seq<string>, snap: string, sep: char, tail: string) {
    |line| > 1 ==> !BeginsWith(Told(line[1..], snap) + tail, sep) && ItselfOnly(line[1..], snap, sep, tail)
  }

  predicate ReadRight(lines: seq<seq<string>>, snap: string, sep: char) {
    lines != [] ==>
      && ItselfOnly(lines[0], snap, sep, if |lines| == 1 then "" else snap + [sep])
      && ReadRight(lines[1..], snap, sep)
  }

  lemma OverlapInside(name: string, after: string, q: nat)
    requires 0 < q < |name| && At(name + after, name, q)
    ensures Overlaps(name)
  {
    var s, k := name + after, |name| - q;
    assert name[..k] == s[q..q + |name|][..k] == s[q..|name|] == name[|name| - k..];
  }

  /** The folder's name at p, once a separator follows, is not the mention at the start. */
  lemma NotTheFirst(snap: string, sep: char, after: string, p: nat)
    requires !Overlaps(snap) && snap != "" && !BeginsWith(after, sep) && p < |snap|
    ensures !At(snap + after, snap + [sep], p)
  {
    var s, long := snap + after, snap + [sep];
    if At(s, long, p) {
      assert s[p..p + |long|][|snap|] == sep && s[p + |snap|] == sep;
      assert s[p..p + |snap|] == s[p..p + |long|][..|snap|] == snap;
      if p > 0 {
        OverlapInside(snap, after, p);
      }
    }
  }

  lemma Shifted(a: string, b: string, name: string, p: nat)
    requires p >= |a|
    ensures At(a + b, name, p) <==> At(b, name, p - |a|)
  {
    if p + |name| <= |a + b| {
      assert (a + b)[p..p + |name|] == b[p - |a|..p - |a| + |name|];
    }
  }

  /** No child is mentioned in a line, nor from it into what follows. */
  lemma {:induction false} NoChildInLine(line: seq<string>, snap: string, sep: char, tail: string, p: nat)
    requires !Overlaps(snap) && snap != "" && line != [] && Stray(line, snap) == 0
    requires tail == "" || tail == snap + [sep]
    requires ItselfOnly(line, snap, sep, tail)
    requires p < |Told(line, snap)|
    ensures !At(Told(line, snap) + tail, snap + [sep], p)
  {
    var t := line[0];
    if p < |t| {
      NoChildInText(line, snap, sep, tail, p);
    } else {
      var rest := Told(line[1..], snap);
      assert Told(line, snap) + tail == t + (snap + (rest + tail)) == (t + snap) + (rest + tail);
      if p < |t| + |snap| {
        NotTheFirst(snap, sep, rest + tail, p - |t|);
        Shifted(t, snap + (rest + tail), snap + [sep], p);
      } else {
        NoChildInLine(line[1..], snap, sep, tail, p - |t| - |snap|);
        Shifted(t + snap, rest + tail, snap + [sep], p);
      }
    }
  }

  lemma NoChildInText(line: seq<string>, snap: string, sep: char, tail: string, p: nat)
    requires !Overlaps(snap) && snap != "" && line != [] && Stray(line, snap) == 0
    requires (tail == "" || snap <= tail) && p < |line[0]|
    ensures !At(Told(line, snap) + tail, snap + [sep], p)
  {
    var s, long := Told(line, snap) + tail, snap + [sep];
    CountIsZero(line[0], snap);
    FirstAtIff(line[0], snap);
    if At(s, long, p) {
      assert s[p..p + |snap|] == s[p..p + |long|][..|snap|] == snap;
      EarlyInText(line, snap, tail, p);
    }
  }

  lemma EarlyInText(line: seq<string>, snap: string, tail: string, p: nat)
    requires line != [] && (tail == "" || snap <= tail) && p < |line[0]|
    requires p + |snap| <= |Told(line, snap) + tail| && (Told(line, snap) + tail)[p..p + |snap|] == snap
    ensures At(line[0] + snap, snap, p)
  {
    var s, t := Told(line, snap) + tail, line[0];
    var known := t + snap;
    if |line| > 1 {
      assert s == t + snap + (Told(line[1..], snap) + tail);
      assert s[..|known|] == known;
    } else if tail != "" {
      assert s == t + snap + tail[|snap|..];
      assert s[..|known|] == known;
    } else {
      assert s == t && known[..|t|] == t;
    }
    assert known[p..p + |snap|] == s[p..p + |snap|];
  }

  /** With the snapshot's folder in no other place, the first pass finds the children. */
  lemma {:induction false} ChildrenFound(lines: seq<seq<string>>, snap: string, sep: char)
    requires !Overlaps(snap) && snap != "" && Proper(lines) && ReadRight(lines, snap, sep)
    requires forall i :: 0 <= i < |lines| ==> Stray(lines[i], snap) == 0
    ensures Clean(Lines(lines, snap), snap + [sep])
  {
    var told, long := Told(lines[0], snap), snap + [sep];
    var tail := if |lines| == 1 then "" else long;
    assert told + "" == told;
    forall p | 0 <= p < |told| ensures !At(told + tail, long, p) {
      NoChildInLine(lines[0], snap, sep, tail, p);
    }
    if |lines| > 1 {
      ChildrenFound(lines[1..], snap, sep);
      assert Lines(lines, snap)[1..] == Lines(lines[1..], snap);
    }
  }

  lemma {:induction false} FlatCount(lines: seq<seq<string>>, sep: string, name: string)
    requires !Overlaps(name) && name != "" && Proper(lines) && Stray(Flat(lines, sep), name) == 0
    ensures forall i :: 0 <= i < |lines| ==> Stray(lines[i], name) == 0
  {
    if |lines| > 1 {
      var rest := Flat(lines[1..], sep);
      ConcatStray(lines[0], Prefixed(sep, rest), name);
      CountFront(sep, rest[0], name);
      assert Prefixed(sep, rest)[1..] == rest[1..];
      FlatCount(lines[1..], sep, name);
    }
  }

  lemma OneLess(z: string, o: string, after: string, snap: string)
    requires !Overlaps(snap) && snap != ""
    ensures Count(z + (o + after), snap) + 1 >= Count(z + snap + after, snap)
  {
    CountAround(z, snap, after);
    CountParts(z, o + after, snap);
    CountParts(o, after, snap);
  }

  lemma Regrouped(z: string, a: string, b: string, c: string)
    ensures z + (a + b) + c == z + (a + (b + c)) == z + ((a + b) + c) == z + a + (b + c)
  {
  }

  lemma SurvivesChild(z: string, o: string, sep: string, after: string, done: string, snap: string, k: nat)
    requires !Overlaps(snap) && snap != ""
    requires Count(z + (o + sep) + done, snap) + k >= Count(z + (o + sep) + after, snap)
    ensures Count(z + ((o + sep) + done), snap) + (k + 1) >= Count(z + ((snap + sep) + after), snap)
  {
    OneLess(z, o, sep + after, snap);
    Regrouped(z, o, sep, after);
    Regrouped(z, snap, sep, after);
    Regrouped(z, o, sep, done);
  }

  lemma OneFurther(z: string, c: char, y: string)
    ensures z + [c] + y == z + ([c] + y)
  {
  }

  lemma Beginning(y: string, long: string)
    requires |long| <= |y| && y[..|long|] == long
    ensures y == long + y[|long|..]
  {
  }

  /** The first pass takes away at most one place of the snapshot's folder for each child
      it tells, whatever path it puts there. */
  lemma {:induction false} Survives(z: string, y: string, snap: string, o: string, sep: string, long: string, orig: string)
    requires !Overlaps(snap) && snap != "" && long == snap + sep && orig == o + sep
    ensures Count(z + ReplaceAll(y, long, orig), snap) + Count(y, long) >= Count(z + y, snap)
    decreases |y|
  {
    if |y| < |long| {
    } else if y[..|long|] == long {
      var after := y[|long|..];
      Survives(z + orig, after, snap, o, sep, long, orig);
      SurvivesChild(z, o, sep, after, ReplaceAll(after, long, orig), snap, Count(after, long));
      Beginning(y, long);
    } else {
      Survives(z + [y[0]], y[1..], snap, o, sep, long, orig);
      OneFurther(z, y[0], ReplaceAll(y[1..], long, orig));
      OneFurther(z, y[0], y[1..]);
      Beginning(y, [y[0]]);
    }
  }

  lemma {:induction false} JoinedSize(a: seq<string>, glue: string, b: seq<string>)
    requires a != [] && b != []
    ensures |Joined(a, glue, b)| == |a| + |b| - 1
  {
    if |a| > 1 {
      JoinedSize(a[1..], glue, b);
    }
  }

  /** Each mention is of a child or of the root itself. */
  lemma {:induction false} MentionsAre(lines: seq<seq<string>>, glue: string, sep: string)
    requires Proper(lines)
    ensures |Flat(lines, sep)| == |lines| - 1 + |Merged(lines, glue)|
  {
    if |lines| > 1 {
      MentionsAre(lines[1..], glue, sep);
      JoinedSize(lines[0], glue, Merged(lines[1..], glue));
    }
  }

  lemma {:induction false} TimesLess(n: nat, d: int)
    ensures Times(n, d - 1) == Times(n, d) - n
  {
    if n > 0 {
      TimesLess(n - 1, d);
    }
  }

  /** With the lengths right, no pass has replaced more than it was to. */
  lemma NoneMore(a: nat, b: nat, more: nat, k1: nat, k2: nat, d: int)
    requires d < 0 && k1 >= a && k1 + k2 >= a + b + more
    requires Times(k1, d - 1) + Times(k2, d) == Times(a, d - 1) + Times(b, d)
    ensures k1 == a && k2 == b && more == 0
  {
    var extra := k1 + k2 - a - b;
    TimesLess(k1, d);
    TimesLess(a, d);
    TimesSum(k1, k2, d);
    TimesSum(a, b, d);
    TimesSum(a + b, extra, d);
    if extra > 0 {
      TimesSign(extra, d);
    }
  }

  lemma RootLengths(lines: seq<seq<string>>, snap: string, orig: string, long: string, s: string, first: string)
    requires Proper(lines) && snap != "" && |long| == |snap| + 1
    requires s == Message(lines, snap, long) && first == ReplaceAll(s, long, orig)
    ensures |ReplaceAll(first, snap, orig)| == |s| + Times(Count(s, long), |orig| - |long|) + Times(Count(first, snap), |orig| - |snap|)
    ensures |Message(lines, orig, orig)| == |s| + Times(|lines| - 1, |orig| - |long|) + Times(|Merged(lines, orig)| - 1, |orig| - |snap|)
  {
    ReplacedLength(s, long, orig);
    ReplacedLength(first, snap, orig);
    MergedTold(lines, orig, orig);
    MergedTold(lines, orig, snap);
    ToldLength(Merged(lines, orig), snap, orig);
    ToldLength(Lines(lines, snap), long, orig);
  }

  lemma RootCounts(lines: seq<seq<string>>, snap: string, o: string, sep: string, orig: string, long: string, s: string, first: string)
    requires Proper(lines) && snap != "" && !Overlaps(snap) && long == snap + sep && orig == o + sep
    requires s == Message(lines, snap, long) && first == ReplaceAll(s, long, orig)
    ensures Count(s, long) >= |lines| - 1
    ensures Count(s, long) + Count(first, snap) >= |Flat(lines, sep)| - 1 + Stray(Flat(lines, sep), snap)
  {
    CountMentions(Lines(lines, snap), long);
    Survives("", s, snap, o, sep, long, orig);
    assert "" + first == first && "" + s == s;
    FlatTold(lines, snap, sep);
    CountTold(Flat(lines, sep), snap);
  }

  /** So when the length comes out right, the snapshot's folder is in no other place
      before the passes, and the second pass finds the root itself only. */
  lemma AsLong(lines: seq<seq<string>>, snap: string, orig: string, long: string, s: string, first: string, mentions: int, more: nat)
    requires Proper(lines) && snap != "" && |long| == |snap| + 1 && |orig| < |snap|
    requires s == Message(lines, snap, long) && first == ReplaceAll(s, long, orig)
    requires mentions == |lines| - 1 + |Merged(lines, orig)| - 1
    requires Count(s, long) >= |lines| - 1 && Count(s, long) + Count(first, snap) >= mentions + more
    requires |ReplaceAll(first, snap, orig)| == |Message(lines, orig, orig)|
    ensures more == 0 && Count(first, snap) == |Merged(lines, orig)| - 1
  {
    RootLengths(lines, snap, orig, long, s, first);
    NoneMore(|lines| - 1, |Merged(lines, orig)| - 1, more, Count(s, long), Count(first, snap), |orig| - |snap|);
  }

  /** Nor is it between the passes. */
  lemma CleanBetween(lines: seq<seq<string>>, snap: string, o: string, sep: char, first: string)
    requires Proper(lines) && snap != "" && !Overlaps(snap) && ReadRight(lines, snap, sep)
    requires first == ReplaceAll(Message(lines, snap, snap + [sep]), snap + [sep], o + [sep])
    requires Stray(Flat(lines, [sep]), snap) == 0 && Count(first, snap) == |Merged(lines, o + [sep])| - 1
    ensures Clean(Merged(lines, o + [sep]), snap)
  {
    FlatCount(lines, [sep], snap);
    ChildrenFound(lines, snap, sep);
    ReplaceTold(Lines(lines, snap), snap + [sep], o + [sep]);
    MergedTold(lines, o + [sep], snap);
    CountTold(Merged(lines, o + [sep]), snap);
    CleanIff(Merged(lines, o + [sep]), snap);
  }

  lemma CleanIsRight(lines: seq<seq<string>>, snap: string, o: string, sep: char)
    requires Proper(lines) && snap != "" && !Overlaps(snap) && ReadRight(lines, snap, sep)
    requires Clean(Merged(lines, o + [sep]), snap)
    ensures Clean(Lines(lines, snap), snap + [sep])
  {
    CleanIff(Merged(lines, o + [sep]), snap);
    MergedHidesNothing(lines, o, [sep], snap);
    FlatCount(lines, [sep], snap);
    ChildrenFound(lines, snap, sep);
  }

  lemma RootSplit(lines: seq<seq<string>>, snap: string, o: string, sep: char, long: string, orig: string)
    requires Proper(lines) && snap != "" && !Overlaps(snap) && |orig| < |snap| && ReadRight(lines, snap, sep)
    requires long == snap + [sep] && orig == o + [sep]
    ensures
      ReplaceAll(ReplaceAll(Message(lines, snap, long), long, orig), snap, orig) == Message(lines, orig, orig)
      <==> Clean(Merged(lines, orig), snap)
  {
    var s := Message(lines, snap, long);
    var first := ReplaceAll(s, long, orig);
    if Clean(Merged(lines, orig), snap) {
      CleanIsRight(lines, snap, o, sep);
      RootPassesRight(lines, snap, long, orig);
    } else if ReplaceAll(first, snap, orig) == Message(lines, orig, orig) {
      RootCounts(lines, snap, o, [sep], orig, long, s, first);
      MentionsAre(lines, orig, [sep]);
      var flat := Flat(lines, [sep]);
      AsLong(lines, snap, orig, long, s, first, |flat| - 1, Stray(flat, snap));
      CleanBetween(lines, snap, o, sep, first);
    }
  }

  /** A message about a root, whatever it says of it and of its children, comes out about
      the user's exactly when the snapshot's folder is found in no other place once the
      children are told. The root's name is the shorter, as a root's is, and the
      snapshot's does not overlap itself. */
  lemma RootMentions(lines: seq<seq<string>>, snap: string, orig: string)
    requires Proper(lines) && snap != "" && !Overlaps(snap) && IsRoot(orig) && |orig| < |snap|
    requires ReadRight(lines, snap, orig[|orig| - 1])
    ensures
      UnmapString(Message(lines, snap, snap + orig[|orig| - 1..]), snap, orig) == Message(lines, orig, orig)
      <==> Clean(Merged(lines, orig), snap)
  {
    var o, sep := orig[..|orig| - 1], orig[|orig| - 1];
    assert orig[|orig| - 1..] == [sep] && orig == o + [sep];
    RootSplit(lines, snap, o, sep, snap + [sep], orig);
  }

  /** Such is the link to a shadow copy: a path with a drive's colon and no other, that
      does not end in the drive's letter. */
  lemma DrivePath(snap: string)
    requires |snap| > 2 && snap[1] == ':' && forall i :: 2 <= i < |snap| ==> snap[i] != ':'
    requires snap[|snap| - 1] != snap[0]
    ensures !Overlaps(snap)
  {
    forall k | 0 < k < |snap| ensures snap[..k] != snap[|snap| - k..] {
      var front, back := snap[..k], snap[|snap| - k..];
      assert if k == 1 then front[0] != back[0] else front[1] != back[1];
    }
  }

  /** Under a root, a child whose own path looks like the snapshot's is misnamed: the
      second pass takes the first one's result apart. */
  lemma NamedLikeTheSnapshot()
    ensures UnmapString("/s/s/x", "/s", "/") == "//x"
  {
    assert "/s" + "/"[|"/"| - 1..] == "/s/";
    var s := "/s/s/x";
    assert s[..3] == "/s/" && s[3..] == "s/x";
    assert ReplaceAll("s/x", "/s/", "/") == "s/x" by {
      assert "s/x"[..3] == "s/x" && "s/x"[1..] == "/x";
    }
    assert ReplaceAll(s, "/s/", "/") == "/s/x";
    assert "/s/x"[..2] == "/s" && "/s/x"[2..] == "/x";
    assert ReplaceAll("/x", "/s", "/") == "/x" by {
      assert "/x"[..2] == "/x" && "/x"[1..] == "x";
      assert ReplaceAll("x", "/s", "/") == "x";
    }
  }

  /** The messages of a backup, each unmapped when a snapshot was used. */
  method ByRealPath(msgs: array<string>, vssUsed: bool, snap: string, orig: string) returns (out: array<string>)
    ensures out.Length == msgs.Length && (vssUsed ==> fresh(out)) && (!vssUsed ==> out == msgs)
    ensures msgs[..] == old(msgs[..])
    ensures vssUsed ==> forall i :: 0 <= i < out.Length ==> out[i] == UnmapString(msgs[i], snap, orig)
  {
    if !vssUsed {
      return msgs;
    }
    out := new string[msgs.Length];
    for i := 0 to msgs.Length
      invariant forall j :: 0 <= j < i ==> out[j] == UnmapString(msgs[j], snap, orig)
    {
      out[i] := UnmapString(msgs[i], snap, orig);
    }
  }

  /** An error: its message and what it wraps. */
  datatype Failure = Plain(text: string) | Unmapped(msg: string, err: Failure) {
    function Message(): string {
      if Plain? then text else msg
    }

    /** Everything errors.Is can find in it. */
    function Chain(): seq<Failure> {
      if Plain? then [this] else [this] + err.Chain()
    }
  }

  /** The error as the user sees it: the message unmapped, and every error it wraps
      still to be found; an error with nothing to unmap is handed on as it is. */
  function UnmapError(err: Option<Failure>, snap: string, orig: string): (res: Option<Failure>)
    ensures res.Some? == err.Some?
    ensures err.Some? ==> res.value.Message() == UnmapString(err.value.Message(), snap, orig)
    ensures err.Some? ==> forall e :: e in err.value.Chain() ==> e in res.value.Chain()
    ensures res == err <==> err.None? || UnmapString(err.value.Message(), snap, orig) == err.value.Message()
  {
    if err.None? || snap == "" || snap == orig then err
    else
      var mapped := UnmapString(err.value.Message(), snap, orig);
      if mapped == err.value.Message() then err else Some(Unmapped(mapped, err.value))
  }
}
