/** core/pathmap.go: the mapping of a path, read off the path itself. */
module PathmapMeaning {
  import opened Wrappers
  import opened Pathmap

  // ---------- Separators ----------

  function Run(c: char, n: nat): string {
    seq(n, _ => c)
  }

  /** In a run of backslashes each pair makes one slash and one left over another; what stands around it is replaced
      as if it stood alone. */
  lemma {:induction false} SlashesExactly(a: string, n: nat, b: string)
    requires a == "" || a[|a| - 1] != '\\'
    requires b == "" || b[0] != '\\'
    ensures Slashes(a + Run('\\', n) + b) == Slashes(a) + Run('/', (n + 1) / 2) + Slashes(b)
  {
    hide Halved, Slashed, Run;
    var k, odd, more := n / 2, if n % 2 == 1 then "\\" else "", if n % 2 == 1 then "/" else "";
    OddRun(n);
    HalvedParts(a, Run('\\', n) + b);
    HalvedRun(k, odd, b);
    var x, y, z := Halved(a), Run('/', k), Halved(b);
    assert Slashes(a + Run('\\', n) + b) == Slashed(x + (y + odd + z)) by {
      assert a + Run('\\', n) + b == a + (Run('\\', n) + b);
      assert Run('\\', n) + b == Run('\\', 2 * k) + odd + b;
    }
    SlashedParts(x, y + odd + z);
    SlashedParts(y + odd, z);
    SlashedParts(y, odd);
    SlashedRun(k);
    assert Slashed(x) + (y + more + Slashed(z)) == Slashed(x) + (y + more) + Slashed(z);
  }

  lemma {:induction false} OddRun(n: nat)
    ensures Run('\\', n) == Run('\\', 2 * (n / 2)) + if n % 2 == 1 then "\\" else ""
    ensures Run('/', (n + 1) / 2) == Run('/', n / 2) + if n % 2 == 1 then "/" else ""
    ensures Slashed(if n % 2 == 1 then "\\" else "") == if n % 2 == 1 then "/" else ""
  {
  }

  lemma {:induction false} HalvedPair(s: string)
    ensures Halved("\\\\" + s) == "/" + Halved(s)
  {
    assert ("\\\\" + s)[2..] == s;
  }

  lemma {:induction false} HalvedOne(c: char, s: string)
    requires c != '\\' || s == "" || s[0] != '\\'
    ensures Halved([c] + s) == [c] + Halved(s)
  {
    assert ([c] + s)[1..] == s;
    assert s != "" ==> ([c] + s)[1] == s[0];
  }

  lemma {:induction false} HalvedRun(k: nat, odd: string, b: string)
    requires odd == "" || odd == "\\"
    requires b == "" || b[0] != '\\'
    ensures Halved(Run('\\', 2 * k) + odd + b) == Run('/', k) + odd + Halved(b)
  {
    hide Halved;
    if k > 0 {
      var s := Run('\\', 2 * (k - 1)) + odd + b;
      HalvedRun(k - 1, odd, b);
      HalvedPair(s);
      assert Run('\\', 2 * k) + odd + b == "\\\\" + s;
      assert Run('/', k) + odd + Halved(b) == "/" + (Run('/', k - 1) + odd + Halved(b));
    } else {
      assert Run('\\', 0) + odd + b == odd + b && Run('/', 0) + odd + Halved(b) == odd + Halved(b);
      if odd == "" {
        assert odd + b == b && odd + Halved(b) == Halved(b);
      } else {
        HalvedOne('\\', b);
      }
    }
  }

  lemma {:induction false} HalvedParts(a: string, s: string)
    requires a == "" || a[|a| - 1] != '\\'
    ensures Halved(a + s) == Halved(a) + Halved(s)
    decreases |a|, 1
  {
    if a == "" {
      assert a + s == s && Halved("") == "";
    } else {
      HalvedFirst(a, s);
    }
  }

  lemma {:induction false} HalvedFirst(a: string, s: string)
    requires a != "" && a[|a| - 1] != '\\'
    ensures Halved(a + s) == Halved(a) + Halved(s)
    decreases |a|, 0
  {
    hide Halved;
    var c := a[0];
    if c == '\\' && a[1] == '\\' {
      var rest := a[2..];
      HalvedParts(rest, s);
      HalvedPair(rest);
      HalvedPair(rest + s);
      assert a == "\\\\" + rest && a + s == "\\\\" + (rest + s);
    } else {
      var rest := a[1..];
      HalvedParts(rest, s);
      HalvedOne(c, rest);
      HalvedOne(c, rest + s);
      assert a == [c] + rest && a + s == [c] + (rest + s);
    }
  }

  lemma {:induction false} SlashedParts(a: string, b: string)
    ensures Slashed(a + b) == Slashed(a) + Slashed(b)
  {
    if a == "" {
      assert a + b == b;
    } else {
      SlashedParts(a[1..], b);
      assert (a + b)[1..] == a[1..] + b;
    }
  }

  lemma {:induction false} SlashedRun(n: nat)
    ensures Slashed(Run('/', n)) == Run('/', n)
  {
    if n > 0 {
      SlashedRun(n - 1);
      assert Run('/', n)[1..] == Run('/', n - 1);
      assert Run('/', n) == "/" + Run('/', n - 1);
    }
  }

  // ---------- Directories ----------

  /** A directory is used without the separators at its end. */
  lemma {:induction false} CleanRootExactly(dir: string, root: string)
    ensures CleanRoot(dir) == root
       <==> (root == "" || root[|root| - 1] != '/') && exists n: nat :: Slashes(dir) == root + Run('/', n)
  {
    var n := TrimmedRun(Slashes(dir));
    CleanRootIsClean(dir);
    if n: nat :| (root == "" || root[|root| - 1] != '/') && Slashes(dir) == root + Run('/', n) {
      RunIsTrimmed(root, n);
    }
  }

  lemma {:induction false} TrimmedRun(s: string) returns (n: nat)
    ensures s == TrimRight(s, IsSlash) + Run('/', n)
  {
    n := 0;
    if s != "" && s[|s| - 1] == '/' {
      n := TrimmedRun(s[..|s| - 1]);
      assert Run('/', n + 1) == Run('/', n) + "/";
      n := n + 1;
    }
  }

  lemma {:induction false} RunIsTrimmed(root: string, n: nat)
    requires root == "" || root[|root| - 1] != '/'
    ensures TrimRight(root + Run('/', n), IsSlash) == root
  {
    var s := root + Run('/', n);
    if n == 0 {
      assert s == root;
    } else {
      RunIsTrimmed(root, n - 1);
      assert s[..|s| - 1] == root + Run('/', n - 1);
    }
  }

  /** One separator stands between a directory and what is below it, however many were written. */
  lemma {:induction false} JoinExactly(root: string, n: nat, sub: string)
    requires sub == "" || sub[0] != '/'
    ensures JoinRoot(root, Run('/', n) + sub) == if sub == "" then root else root + "/" + sub
  {
    var s := Run('/', n) + sub;
    if n == 0 {
      assert s == sub;
    } else {
      JoinExactly(root, n - 1, sub);
      assert s[1..] == Run('/', n - 1) + sub;
    }
  }

  // ---------- Which paths are mapped ----------

  /** The drive letters are the ASCII letters, capital and small. */
  lemma {:induction false} LettersAre(c: char)
    ensures IsDriveLetter(c) <==> 65 <= c as int <= 90 || 97 <= c as int <= 122
  {
  }

  /** The path is the prefix, or goes on behind it at a separator. */
  predicate Below(path: string, prefix: string, rest: string) {
    path == prefix + rest && (rest == "" || rest[0] == '/')
  }

  ghost predicate UnderDir(path: string, prefix: string, dir: string, out: string) {
    CleanRoot(dir) != "" && exists rest :: Below(path, prefix, rest) && out == JoinRoot(CleanRoot(dir), rest)
  }

  ghost predicate MountedDrive(path: string, out: string) {
    exists c, tail :: IsDriveLetter(c) && Below(path, "/mnt/" + [c], tail) && out == OnDrive(c, tail)
  }

  ghost predicate NamedDrive(path: string, out: string) {
    exists c, tail :: && IsDriveLetter(c) && (path == "/" + [c] + "/" + tail || path == "/" + [c] + ":/" + tail)
                      && out == [Upper(c)] + ":/" + tail
  }

  /** What a path with slashes is mapped to: "/workspace" anywhere, "/tmp", "/mnt/c", "/c/" and "/c:/" on Windows. */
  ghost predicate Mapped(path: string, place: Place, out: string) {
    || UnderDir(path, "/workspace", place.root, out)
    || (place.windows && (UnderDir(path, "/tmp", place.temp, out) || MountedDrive(path, out) || NamedDrive(path, out)))
  }

  /** A path is mapped to what its shape says, and comes back as it was written if it has none of the shapes. */
  lemma {:induction false} MapExactly(p: string, place: Place, out: string)
    ensures Map(p, place) == out
       <==> if exists o :: Mapped(Slashes(p), place, o) then Mapped(Slashes(p), place, out) else out == p
  {
    hide *;
    var path := Slashes(p);
    forall o: string
      ensures FirstAnswer(TABLE, path, place) == Some(o) <==> Mapped(path, place, o)
    {
      AnswerExactly(path, place, o);
    }
    MapIsAnswer(p, place);
    var answer := FirstAnswer(TABLE, path, place);
    assert answer == None || answer == Some(answer.value);
  }

  lemma {:induction false} MapIsAnswer(p: string, place: Place)
    ensures Map(p, place) == var answer := FirstAnswer(TABLE, Slashes(p), place);
                             if answer.Some? then answer.value else p
  {
    if p == "" {
      assert Slashes(p) == "";
      forall rule: Rule
        ensures Try(rule, "", place) == None
      {
      }
      NoAnswer(TABLE, "", place);
    }
  }

  lemma {:induction false} AnswerExactly(path: string, place: Place, out: string)
    ensures FirstAnswer(TABLE, path, place) == Some(out) <==> Mapped(path, place, out)
  {
    OrderIrrelevant(TABLE, path, place, out);
    TryUnder(Workspace, path, place, out);
    TryUnder(Tmp, path, place, out);
    TryMnt(path, place, out);
    TryLetter(path, place, out);
    hide Try, FirstAnswer, UnderDir, MountedDrive, NamedDrive;
    forall rule: Rule
      ensures rule in TABLE
    {
      match rule
      case Mnt => assert TABLE[0] == rule;
      case Tmp => assert TABLE[1] == rule;
      case Workspace => assert TABLE[2] == rule;
      case DriveLetter => assert TABLE[3] == rule;
    }
  }

  lemma {:induction false} TryUnder(rule: Rule, path: string, place: Place, out: string)
    requires rule.Workspace? || rule.Tmp?
    ensures var (prefix, dir) := if rule.Workspace? then ("/workspace", place.root) else ("/tmp", place.temp);
            Try(rule, path, place) == Some(out)
            <==> (rule.Workspace? || place.windows) && UnderDir(path, prefix, dir, out)
  {
    hide CleanRoot, JoinRoot;
    var (prefix, dir) := if rule.Workspace? then ("/workspace", place.root) else ("/tmp", place.temp);
    if Try(rule, path, place) == Some(out) {
      var rest := path[|prefix|..];
      assert path == path[..|prefix|] + rest;
      assert Below(path, prefix, rest);
    }
    if rest :| Below(path, prefix, rest) && CleanRoot(dir) != "" && out == JoinRoot(CleanRoot(dir), rest) {
      assert path[..|prefix|] == prefix && path[|prefix|..] == rest;
    }
  }

  lemma {:induction false} TryMnt(path: string, place: Place, out: string)
    ensures Try(Mnt, path, place) == Some(out) <==> place.windows && MountedDrive(path, out)
  {
    hide ResolveMnt, OnDrive;
    if c, tail :| IsDriveLetter(c) && Below(path, "/mnt/" + [c], tail) && out == OnDrive(c, tail) {
      var rest := "/" + [c] + tail;
      assert path == "/mnt" + rest && path[..4] == "/mnt" && path[4..] == rest;
      MntExactly(rest, out);
    }
    if Try(Mnt, path, place) == Some(out) {
      var rest := path[4..];
      MntExactly(rest, out);
      var c, tail :| IsDriveLetter(c) && (tail == "" || tail[0] == '/') && rest == "/" + [c] + tail
                     && out == OnDrive(c, tail);
      assert path == path[..4] + rest == "/mnt/" + [c] + tail;
      assert Below(path, "/mnt/" + [c], tail);
    }
  }

  lemma {:induction false} TryLetter(path: string, place: Place, out: string)
    ensures Try(DriveLetter, path, place) == Some(out) <==> place.windows && NamedDrive(path, out)
  {
    assert path[0..] == path;
    assert path[..0] == "";
    if c, tail :| IsDriveLetter(c) && (path == "/" + [c] + "/" + tail || path == "/" + [c] + ":/" + tail)
                  && out == [Upper(c)] + ":/" + tail {
      LetterTakes(c, tail);
    }
    if Try(DriveLetter, path, place) == Some(out) {
      LetterOnly(path);
      var c, tail :| IsDriveLetter(c) && (path == "/" + [c] + "/" + tail || path == "/" + [c] + ":/" + tail);
      LetterTakes(c, tail);
    }
  }
}
