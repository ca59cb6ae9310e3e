/** core/pathmap.go: when mapping a path a second time changes nothing. */
module PathmapLaws {
  import opened Wrappers
  import opened Pathmap

  predicate Clean(dir: string) {
    dir != "" && NoBackslash(dir) && dir[|dir| - 1] != '/'
  }

  /** Something below a directory. */
  predicate Relative(s: string) {
    s != "" && s[0] != '/' && NoBackslash(s)
  }

  predicate SelfMapped(p: string, place: Place) {
    Map(p, place) == p
  }

  /** The directory and a path right below it come back as they are. */
  predicate Settled(dir: string, place: Place) {
    var d := CleanRoot(dir);
    d == "" || (SelfMapped(d, place) && SelfMapped(d + "/x", place))
  }

  lemma {:induction false} AnswerIs(rule: Rule, path: string, place: Place)
    requires path != "" && NoBackslash(path) && rule in TABLE && Try(rule, path, place).Some?
    ensures Map(path, place) == Try(rule, path, place).value
  {
    SlashesStay(path);
    OrderIrrelevant(TABLE, path, place, Try(rule, path, place).value);
  }

  // What stands between a prefix's remainder and what is below it.
  function Lead(y: string): string {
    if TrimLeft(y, IsSlash) == "" then "" else TrimLeft(y, IsSlash) + "/"
  }

  lemma {:induction false} TrimSplit(y: string, s: string)
    requires s != "" && s[0] != '/'
    ensures TrimLeft(y + "/" + s, IsSlash) == Lead(y) + s
  {
    if y == "" {
      assert y + "/" + s == "/" + s && ("/" + s)[1..] == s;
    } else if y[0] == '/' {
      assert (y + "/" + s)[1..] == y[1..] + "/" + s;
      TrimSplit(y[1..], s);
    } else {
      assert (y + "/" + s)[0] == y[0];
    }
  }

  // A word rule that answers below a directory has its whole prefix inside the directory.
  lemma {:induction false} PrefixInside(word: Rule, d: string, s: string, place: Place)
    requires !word.DriveLetter? && Clean(d) && Relative(s) && Try(word, d + "/" + s, place).Some?
    ensures StartsWith(d, Prefix(word))
    ensures var y := d[|Prefix(word)|..]; y == "" || y[0] == '/'
  {
    var q, prefix := d + "/" + s, Prefix(word);
    assert q[..|prefix|] == prefix;
    assert forall k | 0 < k < |prefix| :: prefix[k] != '/';
    assert q[|d|] == '/';
    assert forall k | 0 <= k < |prefix| :: q[..|prefix|][k] == q[k];
    assert d == q[..|d|];
    assert d[..|prefix|] == q[..|prefix|];
    if |d| > |prefix| {
      assert q[|prefix|..] != "" && q[|prefix|..][0] == q[|prefix|] == d[|prefix|];
      assert d[|prefix|..][0] == d[|prefix|];
    }
  }

  lemma {:induction false} MntReaches(d: string, s: string, place: Place)
    requires Clean(d) && Relative(s) && Try(Mnt, d + "/" + s, place).Some?
    ensures Try(Mnt, d, place).Some? || Try(Mnt, d + "/x", place).Some?
  {
    PrefixInside(Mnt, d, s, place);
    var y := d[4..];
    if y == "" {
      assert d + "/x" == "/mnt" + "/x" && (d + "/x")[4..] == "/x";
      assert Body("/x") == "x" && "x"[1..] == "";
    } else {
      assert (d + "/" + s)[4..] == y + "/" + s;
      assert Body(y + "/" + s) == y[1..] + "/" + s && Body(y) == y[1..];
      assert y[|y| - 1] == d[|d| - 1];
      if |y| > 2 {
        assert (y[1..] + "/" + s)[1] == y[1..][1];
      }
    }
  }

  lemma {:induction false} LetterReaches(d: string, s: string, place: Place)
    requires Clean(d) && Relative(s) && Try(DriveLetter, d + "/" + s, place).Some?
    ensures Try(DriveLetter, d, place).Some? || Try(DriveLetter, d + "/x", place).Some?
  {
    var q := d + "/" + s;
    assert q[0..] == q && d[0..] == d && (d + "/x")[0..] == d + "/x";
    assert q[0] == '/' && d[0] == '/';
    assert Body(q) == q[1..] && Body(d) == d[1..] && Body(d + "/x") == (d + "/x")[1..];
    assert q[1] == d[1] && (d + "/x")[1] == d[1];
    if |d| == 2 {
      assert q[2] == '/' && (d + "/x")[2] == '/';
    } else {
      assert q[2] == d[2];
      if d[2] == ':' && |d| == 3 {
        assert (d + "/x")[1..][2..] == "/x";
      } else if d[2] == ':' {
        assert q[1..][2..][0] == q[3] == d[3];
        assert d[1..][2..][0] == d[3];
      }
    }
  }

  // What a drive rule answers is another path.
  lemma {:induction false} DriveIsElsewhere(rule: Rule, path: string, place: Place)
    requires (rule.Mnt? || rule.DriveLetter?) && path != "" && NoBackslash(path) && Try(rule, path, place).Some?
    ensures !SelfMapped(path, place)
  {
    AnswerIs(rule, path, place);
    var rest := path[|Prefix(rule)|..];
    assert path[0] == '/' by {
      assert rule.Mnt? ==> path[..4] == "/mnt";
    }
    var body := Body(rest);
    UpperIsNoSlash(body[0]);
  }

  lemma {:induction false} NoDriveBelow(d: string, s: string, place: Place)
    requires Clean(d) && Relative(s) && SelfMapped(d, place) && SelfMapped(d + "/x", place)
    ensures Try(Mnt, d + "/" + s, place) == None && Try(DriveLetter, d + "/" + s, place) == None
  {
    hide Map;
    if Try(Mnt, d + "/" + s, place).Some? {
      MntReaches(d, s, place);
      Elsewhere(Mnt, d, place);
      Elsewhere(Mnt, d + "/x", place);
    }
    if Try(DriveLetter, d + "/" + s, place).Some? {
      LetterReaches(d, s, place);
      Elsewhere(DriveLetter, d, place);
      Elsewhere(DriveLetter, d + "/x", place);
    }
  }

  lemma {:induction false} Elsewhere(rule: Rule, path: string, place: Place)
    requires (rule.Mnt? || rule.DriveLetter?) && path != "" && NoBackslash(path)
    ensures Try(rule, path, place).Some? ==> !SelfMapped(path, place)
  {
    if Try(rule, path, place).Some? {
      DriveIsElsewhere(rule, path, place);
    }
  }

  function BaseOf(word: Rule, place: Place): string
    requires word.Tmp? || word.Workspace?
  {
    if word.Tmp? then place.temp else place.root
  }

  // What the alias rules answer for a prefix and what follows it.
  lemma {:induction false} AliasTry(word: Rule, y: string, place: Place)
    requires (word.Tmp? || word.Workspace?) && (y == "" || y[0] == '/')
    ensures var path := Prefix(word) + y;
            Try(word, path, place) == if Applies(word, place) then ResolveUnder(BaseOf(word, place), y) else None
  {
    var path := Prefix(word) + y;
    assert path[..|Prefix(word)|] == Prefix(word) && path[|Prefix(word)|..] == y;
  }

  // An alias that maps one path below a directory to itself does so with all.
  lemma {:induction false} AliasBelow(word: Rule, d: string, s: string, place: Place)
    requires (word.Tmp? || word.Workspace?) && Clean(d) && Relative(s) && SelfMapped(d + "/x", place)
    requires Try(word, d + "/" + s, place).Some?
    ensures Try(word, d + "/" + s, place) == Some(d + "/" + s)
  {
    PrefixInside(word, d, s, place);
    var prefix := Prefix(word);
    var y := d[|prefix|..];
    assert d == prefix + y;
    assert Relative("x");
    hide *;
    AliasBelowAt(word, y, d, s, place);
  }

  lemma {:induction false} AliasBelowAt(word: Rule, y: string, d: string, s: string, place: Place)
    requires (word.Tmp? || word.Workspace?) && (y == "" || y[0] == '/') && d == Prefix(word) + y
    requires Relative(s) && Relative("x") && NoBackslash(d) && SelfMapped(d + "/x", place)
    requires Try(word, d + "/" + s, place).Some?
    ensures Try(word, d + "/" + s, place) == Some(d + "/" + s)
  {
    hide *;
    Joined(Prefix(word), y, s);
    Joined(Prefix(word), y, "x");
    assert d + "/" + "x" == d + "/x";
    AliasAnswers(word, y, s, place);
    AliasAnswers(word, y, "x", place);
    NoBackslashBelow(d);
    SelfIs(word, d + "/x", place);
    SameLead(CleanRoot(BaseOf(word, place)), Lead(y), d, s);
  }

  lemma {:induction false} Joined(prefix: string, y: string, s: string)
    ensures prefix + (y + "/" + s) == prefix + y + "/" + s
  {
  }

  lemma {:induction false} NoBackslashBelow(d: string)
    requires NoBackslash(d)
    ensures NoBackslash(d + "/x")
  {
  }

  lemma {:induction false} AliasAnswers(word: Rule, y: string, s: string, place: Place)
    requires (word.Tmp? || word.Workspace?) && (y == "" || y[0] == '/') && Relative(s)
    ensures var base, path := CleanRoot(BaseOf(word, place)), Prefix(word) + (y + "/" + s);
            && (Try(word, path, place).Some? <==> Applies(word, place) && base != "")
            && (Try(word, path, place).Some? ==> Try(word, path, place).value == base + "/" + (Lead(y) + s))
  {
    assert (y + "/" + s)[0] == '/';
    hide CleanRoot;
    AliasTry(word, y + "/" + s, place);
    TrimSplit(y, s);
  }

  lemma {:induction false} SameLead(base: string, lead: string, d: string, s: string)
    requires base + "/" + (lead + "x") == d + "/x"
    ensures base + "/" + (lead + s) == d + "/" + s
  {
    var whole := d + "/x";
    assert whole == base + "/" + lead + "x";
    assert whole[..|d| + 1] == d + "/";
    assert whole[..|whole| - 1] == base + "/" + lead;
    assert base + "/" + (lead + s) == base + "/" + lead + s;
  }

  lemma {:induction false} SelfIs(rule: Rule, path: string, place: Place)
    requires path != "" && NoBackslash(path) && Try(rule, path, place).Some? && SelfMapped(path, place)
    ensures Try(rule, path, place) == Some(path)
  {
    hide Map;
    AnswerIs(rule, path, place);
  }

  /** All below a settled directory comes back as it is. */
  lemma {:induction false} BelowStays(d: string, s: string, place: Place)
    requires Clean(d) && Relative(s) && SelfMapped(d, place) && SelfMapped(d + "/x", place)
    ensures SelfMapped(d + "/" + s, place)
  {
    var q := d + "/" + s;
    SlashesStay(q);
    NoDriveBelow(d, s, place);
    if FirstAnswer(TABLE, q, place).Some? {
      var rule := AnswerIsATry(TABLE, q, place);
      AliasBelow(rule, d, s, place);
    }
  }

  lemma {:induction false} JoinStays(base: string, rest: string, place: Place)
    requires CleanRoot(base) != "" && NoBackslash(rest) && Settled(base, place)
    ensures SelfMapped(JoinRoot(CleanRoot(base), rest), place)
  {
    CleanRootIsClean(base);
    TrimsKeep(rest);
    hide CleanRoot, Map;
    var sub := TrimLeft(rest, IsSlash);
    if sub != "" {
      BelowStays(CleanRoot(base), sub, place);
    }
  }

  lemma {:induction false} DriveStays(rule: Rule, rest: string, place: Place)
    requires (rule.Mnt? || rule.DriveLetter?) && NoBackslash(rest) && Resolve(rule, rest, place).Some?
    ensures SelfMapped(Resolve(rule, rest, place).value, place)
  {
    var out := Resolve(rule, rest, place).value;
    var nowhere := Place("", "", place.windows);
    assert Resolve(rule, rest, nowhere) == Resolve(rule, rest, place);
    assert CleanRoot("") == "";
    AnswerOffSlash(rule, rest, nowhere);
    SlashesStay(out);
    NoSlashNoAnswer(out, place);
  }

  lemma {:induction false} SettledMapsTwice(p: string, place: Place)
    requires Settled(place.root, place) && (place.windows ==> Settled(place.temp, place))
    ensures Map(Map(p, place), place) == Map(p, place)
  {
    var path := Slashes(p);
    SlashesHaveNone(Halved(p));
    if p != "" && FirstAnswer(TABLE, path, place).Some? {
      var rule := AnswerIsATry(TABLE, path, place);
      var rest := path[|Prefix(rule)|..];
      assert forall c | c in rest :: c in path;
      assert Map(p, place) == Resolve(rule, rest, place).value;
      hide Map, CleanRoot;
      if rule.Mnt? || rule.DriveLetter? {
        DriveStays(rule, rest, place);
      } else {
        JoinStays(BaseOf(rule, place), rest, place);
      }
    }
  }

  // What the alias and a path right below it are mapped to.
  lemma {:induction false} AliasProbes(word: Rule, place: Place)
    requires (word.Tmp? || word.Workspace?) && Applies(word, place) && CleanRoot(BaseOf(word, place)) != ""
    ensures Map(Prefix(word), place) == CleanRoot(BaseOf(word, place))
    ensures Map(Prefix(word) + "/x", place) == CleanRoot(BaseOf(word, place)) + "/x"
  {
    hide CleanRoot, Map;
    var prefix := Prefix(word);
    AliasTry(word, "", place);
    AliasTry(word, "/x", place);
    assert prefix + "" == prefix;
    assert TrimLeft("/x", IsSlash) == "x" by {
      assert "/x"[1..] == "x";
    }
    AnswerIs(word, prefix, place);
    AnswerIs(word, prefix + "/x", place);
    var base := CleanRoot(BaseOf(word, place));
    assert base + "/" + "x" == base + "/x";
  }

  /** On any host, mapping twice is mapping once, for every path, if and only if the workspace root, and on Windows the
      temporary directory, comes back as it is together with one path right below it. */
  lemma {:induction false} TwiceIsOnceExactly(place: Place)
    ensures (forall p :: Map(Map(p, place), place) == Map(p, place))
       <==> Settled(place.root, place) && (place.windows ==> Settled(place.temp, place))
  {
    hide *;
    if Settled(place.root, place) && (place.windows ==> Settled(place.temp, place)) {
      forall p
        ensures Map(Map(p, place), place) == Map(p, place)
      {
        SettledMapsTwice(p, place);
      }
    }
    if forall p :: Map(Map(p, place), place) == Map(p, place) {
      StableSettles(Workspace, place);
      StableSettles(Tmp, place);
      Bases(place);
    }
  }

  lemma {:induction false} Bases(place: Place)
    ensures BaseOf(Workspace, place) == place.root && BaseOf(Tmp, place) == place.temp
    ensures Applies(Workspace, place) && (Applies(Tmp, place) <==> place.windows)
  {
  }

  lemma {:induction false} StableSettles(word: Rule, place: Place)
    requires (word.Tmp? || word.Workspace?) && forall p :: Map(Map(p, place), place) == Map(p, place)
    ensures Applies(word, place) ==> Settled(BaseOf(word, place), place)
  {
    hide Map, CleanRoot, Applies;
    if Applies(word, place) && CleanRoot(BaseOf(word, place)) != "" {
      AliasProbes(word, place);
      assert Map(Map(Prefix(word), place), place) == Map(Prefix(word), place);
      assert Map(Map(Prefix(word) + "/x", place), place) == Map(Prefix(word) + "/x", place);
    }
  }

  /** A drive path is settled. */
  lemma {:induction false} DriveIsSettled(dir: string, place: Place)
    requires OffSlash(dir)
    ensures Settled(dir, place)
  {
    var d := CleanRoot(dir);
    if d != "" {
      CleanRootIsClean(dir);
      hide CleanRoot;
      SlashesStay(d);
      SlashesStay(d + "/x");
      NoSlashNoAnswer(d, place);
      NoSlashNoAnswer(d + "/x", place);
    }
  }
}
