/** The backup-id of one directory (clientcommon/backupid.go). A char stands for a byte;
    the cleaning of the path is a parameter, and may do anything. */
module BackupId {
  import opened Strings

  /** What an id may begin with: a letter, a digit or _. */
  predicate First(c: char) {
    'A' <= c <= 'Z' || 'a' <= c <= 'z' || '0' <= c <= '9' || c == '_'
  }

  /** What may follow: also . and -. */
  predicate Allowed(c: char) {
    First(c) || c in {'.', '-'}
  }

  /** PBS's rule. */
  predicate Valid(id: string) {
    id != "" && First(id[0]) && forall i :: 0 <= i < |id| ==> Allowed(id[i])
  }

  /** What the filter keeps. */
  predicate Kept(c: char) {
    || (c >= 'A' && c <= 'Z') || (c >= 'a' && c <= 'z') || (c >= '0' && c <= '9')
    || c == '_' || c == '.' || c == '-'
  }

  // ---- The stages ----

  function Replaced(clean: string): string {
    ReplaceAll(ReplaceAll(ReplaceAll(ReplaceAll(clean, "\\", "_"), "/", "_"), ":", ""), " ", "-")
  }

  function Filter(s: string): (r: string)
    ensures forall i :: 0 <= i < |r| ==> Kept(r[i])
  {
    if s == "" then ""
    else Filter(s[..|s| - 1]) + (if Kept(s[|s| - 1]) then [s[|s| - 1]] else "")
  }

  /** The path's part of the id. */
  function Part(clean: string): string {
    Trim(Filter(Replaced(clean)), '_')
  }

  function IdOf(base: string, clean: string): string {
    if Part(clean) == "" then base else base + "_" + Part(clean)
  }

  method GenerateBackupID(base: string, path: string, clean: string -> string) returns (id: string)
    ensures id == IdOf(base, clean(path))
  {
    var cleanPath := clean(path);
    cleanPath := ReplaceAll(cleanPath, "\\", "_");
    cleanPath := ReplaceAll(cleanPath, "/", "_");
    cleanPath := ReplaceAll(cleanPath, ":", "");
    cleanPath := ReplaceAll(cleanPath, " ", "-");
    var sanitized := "";
    for i := 0 to |cleanPath|
      invariant sanitized == Filter(cleanPath[..i])
    {
      assert cleanPath[..i + 1][..i] == cleanPath[..i];
      if Kept(cleanPath[i]) {
        sanitized := sanitized + [cleanPath[i]];
      }
    }
    assert cleanPath[..|cleanPath|] == cleanPath;
    cleanPath := Trim(sanitized, '_');
    if cleanPath == "" {
      return base;
    }
    return base + "_" + cleanPath;
  }

  // ---- What the stages come to ----

  /** One char of the path in the id: _ for a separator, - for a space, a char PBS allows
      as it is, and nothing for the rest. */
  function Letter(c: char): string {
    if c == '\\' || c == '/' then "_"
    else if c == ' ' then "-"
    else if Kept(c) then [c]
    else ""
  }

  function Letters(s: string): string {
    if s == "" then "" else Letter(s[0]) + Letters(s[1..])
  }

  /** Replacing a single char is done char by char. */
  function Swap(c: char, from: char, into: string): string {
    if c == from then into else [c]
  }

  lemma ReplaceHead(s: string, from: char, into: string)
    requires s != ""
    ensures ReplaceAll(s, [from], into) == Swap(s[0], from, into) + ReplaceAll(s[1..], [from], into)
  {
    assert s[..1] == [s[0]];
  }

  lemma HeadOfConcat(a: string, b: string, from: char, into: string)
    requires a != ""
    ensures ReplaceAll(a + b, [from], into) == Swap(a[0], from, into) + ReplaceAll(a[1..] + b, [from], into)
  {
    ReplaceHead(a + b, from, into);
    assert (a + b)[1..] == a[1..] + b;
  }

  lemma Associates(a: string, b: string, c: string)
    ensures a + (b + c) == a + b + c
  {
  }

  lemma {:induction false} ReplaceConcat(a: string, b: string, from: char, into: string)
    ensures ReplaceAll(a + b, [from], into) == ReplaceAll(a, [from], into) + ReplaceAll(b, [from], into)
  {
    if a == "" {
      assert a + b == b;
    } else {
      ReplaceConcat(a[1..], b, from, into);
      ReplaceHead(a, from, into);
      HeadOfConcat(a, b, from, into);
      Associates(Swap(a[0], from, into), ReplaceAll(a[1..], [from], into), ReplaceAll(b, [from], into));
    }
  }

  lemma {:induction false} FilterConcat(a: string, b: string)
    ensures Filter(a + b) == Filter(a) + Filter(b)
  {
    if b == "" {
      assert a + b == a;
    } else {
      assert (a + b)[..|a + b| - 1] == a + b[..|b| - 1];
      FilterConcat(a, b[..|b| - 1]);
    }
  }

  lemma ReplacedConcat(a: string, b: string)
    ensures Replaced(a + b) == Replaced(a) + Replaced(b)
  {
    var a1, b1 := ReplaceAll(a, "\\", "_"), ReplaceAll(b, "\\", "_");
    var a2, b2 := ReplaceAll(a1, "/", "_"), ReplaceAll(b1, "/", "_");
    var a3, b3 := ReplaceAll(a2, ":", ""), ReplaceAll(b2, ":", "");
    ReplaceConcat(a, b, '\\', "_");
    ReplaceConcat(a1, b1, '/', "_");
    ReplaceConcat(a2, b2, ':', "");
    ReplaceConcat(a3, b3, ' ', "-");
  }

  lemma SingleSwap(c: char, from: char, into: string)
    ensures ReplaceAll([c], [from], into) == Swap(c, from, into)
  {
    ReplaceHead([c], from, into);
    assert Swap(c, from, into) + "" == Swap(c, from, into);
  }

  lemma EmptySwap(from: char, into: string)
    ensures ReplaceAll("", [from], into) == ""
  {
  }

  lemma SingleLetter(c: char)
    ensures Filter(Replaced([c])) == Letter(c)
  {
    SingleSwap(c, '\\', "_");
    var c1 := if c == '\\' then '_' else c;
    SingleSwap(c1, '/', "_");
    var c2 := if c1 == '/' then '_' else c1;
    SingleSwap(c2, ':', "");
    if c2 == ':' {
      EmptySwap(' ', "-");
      assert Filter("") == "";
    } else {
      SingleSwap(c2, ' ', "-");
      var c3 := if c2 == ' ' then '-' else c2;
      assert Filter([c3]) == if Kept(c3) then [c3] else "" by {
        assert [c3][..0] == "";
      }
    }
  }

  /** The four replacements and the filter, one after the other over the whole path, are
      one pass that looks at each char once. */
  lemma {:induction false} StagesAreOnePass(s: string)
    ensures Filter(Replaced(s)) == Letters(s)
  {
    if s == "" {
      EmptySwap('\\', "_");
      EmptySwap('/', "_");
      EmptySwap(':', "");
      EmptySwap(' ', "-");
    } else {
      assert s == [s[0]] + s[1..];
      ReplacedConcat([s[0]], s[1..]);
      FilterConcat(Replaced([s[0]]), Replaced(s[1..]));
      SingleLetter(s[0]);
      StagesAreOnePass(s[1..]);
    }
  }

  // ---- What the id is good for ----

  /** The part has only chars PBS allows, neither starts nor ends with _, and is what
      lies between the runs of _ at the ends of the path's letters. */
  lemma PartIsClean(clean: string) returns (left: nat, right: nat)
    ensures Letters(clean) == Strings.Run('_', left) + Part(clean) + Strings.Run('_', right)
    ensures forall i :: 0 <= i < |Part(clean)| ==> Allowed(Part(clean)[i])
    ensures Part(clean) != "" ==> Part(clean)[0] != '_' && Part(clean)[|Part(clean)| - 1] != '_'
  {
    StagesAreOnePass(clean);
    var s := Filter(Replaced(clean));
    left, right := TrimSplit(s, '_');
    forall i | 0 <= i < |Part(clean)| ensures Allowed(Part(clean)[i]) {
      assert s[left + i] == Part(clean)[i];
    }
  }

  /** The id is one PBS accepts exactly when the base is, or is empty with something to
      follow it: so for every valid base, whatever the path and its cleaning. */
  lemma ValidIff(base: string, clean: string)
    ensures Valid(IdOf(base, clean)) <==> Valid(base) || (base == "" && Part(clean) != "")
  {
    var part, id := Part(clean), IdOf(base, clean);
    var left, right := PartIsClean(clean);
    if part != "" {
      assert forall i :: 0 <= i < |base| ==> id[i] == base[i];
      assert id[|base|] == '_';
      assert forall i :: 0 <= i < |part| ==> id[|base| + 1 + i] == part[i];
    }
  }

  lemma {:induction false} KeptLetters(s: string)
    requires forall i :: 0 <= i < |s| ==> Allowed(s[i])
    ensures Letters(s) == s
  {
    if s != "" {
      KeptLetters(s[1..]);
      assert [s[0]] + s[1..] == s;
    }
  }

  lemma RootPart()
    ensures Part("/") == ""
  {
    StagesAreOnePass("/");
    assert "/"[1..] == "" && "_"[1..] == "";
    assert Letters("") == "";
  }

  lemma FolderPart(name: string)
    requires name != "" && name[0] != '_' && name[|name| - 1] != '_' && forall i :: 0 <= i < |name| ==> Allowed(name[i])
    ensures Part("/" + name) == name
  {
    var path, letters := "/" + name, "_" + name;
    StagesAreOnePass(path);
    KeptLetters(name);
    assert path[0] == '/' && path[1..] == name && letters[1..] == name;
    assert Letters(path) == letters;
    assert TrimLeft(letters, '_') == TrimLeft(name, '_') == name;
    assert TrimRight(name, '_') == name;
  }

  lemma LettersConcat(x: string, y: string)
    ensures Letters(x + y) == Letters(x) + Letters(y)
  {
    ReplacedConcat(x, y);
    FilterConcat(Replaced(x), Replaced(y));
    StagesAreOnePass(x);
    StagesAreOnePass(y);
    StagesAreOnePass(x + y);
  }

  lemma FewLetters(c: char)
    ensures Letters([c]) == Letter(c)
    ensures Letters(":\\") == "_" && Letters("\\") == "_"
  {
    assert [c][1..] == "" && ":\\"[1..] == "\\" && "\\"[1..] == "";
    assert Letters("") == "" && Letters("\\") == "_";
  }

  lemma NothingTrimmed(s: string, c: char)
    requires s != "" && s[0] != c && s[|s| - 1] != c
    ensures Trim(s, c) == s
  {
  }

  lemma DriveLetters(drive: char, a: string, b: string)
    requires First(drive) && (forall i :: 0 <= i < |a| ==> Allowed(a[i])) && forall i :: 0 <= i < |b| ==> Allowed(b[i])
    ensures Letters([drive] + ":\\" + a + "\\" + b) == [drive] + "_" + a + "_" + b
  {
    FewLetters(drive);
    KeptLetters(a);
    KeptLetters(b);
    LettersConcat([drive], ":\\");
    LettersConcat([drive] + ":\\", a);
    LettersConcat([drive] + ":\\" + a, "\\");
    LettersConcat([drive] + ":\\" + a + "\\", b);
  }

  /** As in the comment's example: the drive's letter and each folder's name, _ between. */
  lemma DriveFolder(base: string, drive: char, a: string, b: string)
    requires First(drive) && drive != '_' && b != "" && b[|b| - 1] != '_'
    requires (forall i :: 0 <= i < |a| ==> Allowed(a[i])) && forall i :: 0 <= i < |b| ==> Allowed(b[i])
    ensures IdOf(base, [drive] + ":\\" + a + "\\" + b) == base + "_" + ([drive] + "_" + a + "_" + b)
  {
    DriveLetters(drive, a, b);
    StagesAreOnePass([drive] + ":\\" + a + "\\" + b);
    var letters := [drive] + "_" + a + "_" + b;
    assert letters[0] == drive && letters[|letters| - 1] == b[|b| - 1];
    NothingTrimmed(letters, '_');
  }

  /** A base PBS refuses is not put right, for a root or for any other directory: the
      id then does not match its rule. */
  lemma BadBaseStays(name: string)
    requires name != "" && name[0] != '_' && name[|name| - 1] != '_' && forall i :: 0 <= i < |name| ==> Allowed(name[i])
    ensures IdOf("my host", "/") == "my host" && !Valid(IdOf("my host", "/"))
    ensures IdOf("my host", "/" + name) == "my host" + "_" + name && !Valid(IdOf("my host", "/" + name))
  {
    RootPart();
    FolderPart(name);
    assert "my host"[2] == ' ' && !Allowed("my host"[2]);
    var id := IdOf("my host", "/" + name);
    assert id[2] == ' ' && !Allowed(id[2]);
  }

  lemma LettersAround(x: string, c: char, y: string)
    ensures Filter(Replaced(x + [c] + y)) == Letters(x) + Letter(c) + Letters(y)
  {
    ReplacedConcat(x + [c], y);
    ReplacedConcat(x, [c]);
    FilterConcat(Replaced(x) + Replaced([c]), Replaced(y));
    FilterConcat(Replaced(x), Replaced([c]));
    SingleLetter(c);
    StagesAreOnePass(x);
    StagesAreOnePass(y);
  }

  /** Different directories can share an id: those that differ in a char that gives the
      same letters, a space and a hyphen, say, or two chars PBS does not allow. Hence
      the check before several are backed up. */
  lemma IdsCollide(base: string, x: string, c: char, d: char, y: string)
    requires Letter(c) == Letter(d)
    ensures IdOf(base, x + [c] + y) == IdOf(base, x + [d] + y)
    ensures Letter(' ') == Letter('-')
  {
    LettersAround(x, c, y);
    LettersAround(x, d, y);
  }
}
