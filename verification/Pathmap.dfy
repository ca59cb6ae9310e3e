/** core/pathmap.go: the virtual roots of the paths a model writes. */
module Pathmap {
  import opened Wrappers

  datatype Rule = Mnt | Tmp | Workspace | DriveLetter

  /** Where the process runs: its workspace root, its temporary directory, and whether it runs on Windows. */
  datatype Place = Place(root: string, temp: string, windows: bool)

  const TABLE := [Mnt, Tmp, Workspace, DriveLetter]

  function Prefix(rule: Rule): string {
    match rule
    case Mnt => "/mnt"
    case Tmp => "/tmp"
    case Workspace => "/workspace"
    case DriveLetter => ""
  }

  // ---------- Text ----------

  predicate StartsWith(s: string, prefix: string) {
    |prefix| <= |s| && s[..|prefix|] == prefix
  }

  /** Every pair of backslashes becomes one slash. */
  function Halved(s: string): string {
    if |s| >= 2 && s[0] == '\\' && s[1] == '\\' then "/" + Halved(s[2..])
    else if s == "" then ""
    else [s[0]] + Halved(s[1..])
  }

  /** Every remaining backslash becomes a slash. */
  function Slashed(s: string): string {
    if s == "" then "" else [if s[0] == '\\' then '/' else s[0]] + Slashed(s[1..])
  }

  function Slashes(s: string): string {
    Slashed(Halved(s))
  }

  predicate IsSlash(c: char) {
    c == '/'
  }

  function CleanRoot(root: string): string {
    TrimRight(Slashes(root), IsSlash)
  }

  function JoinRoot(root: string, rest: string): string {
    var sub := TrimLeft(rest, IsSlash);
    if sub == "" then root else root + "/" + sub
  }

  predicate IsDriveLetter(c: char) {
    'a' <= c <= 'z' || 'A' <= c <= 'Z'
  }

  function Upper(c: char): char {
    if 'a' <= c <= 'z' then c - 32 as char else c
  }

  // ---------- The rules ----------

  function Drive(c: char, after: string): Option<string> {
    if !IsDriveLetter(c) then None
    else if after == "" then Some([Upper(c)] + ":/")
    else Some([Upper(c)] + ":" + after)
  }

  /** What comes behind one leading slash. */
  function Body(rest: string): string {
    if rest != "" && rest[0] == '/' then rest[1..] else rest
  }

  function ResolveMnt(rest: string): Option<string> {
    var body := Body(rest);
    if body == "" then None
    else if |body| > 1 && body[1] != '/' then None
    else Drive(body[0], body[1..])
  }

  function ResolveLetter(rest: string): Option<string> {
    var body := Body(rest);
    if body == "" || !IsDriveLetter(body[0]) then None
    else
      var colon := |body| > 1 && body[1] == ':';
      var after := if colon then body[2..] else body[1..];
      if after == "" || after[0] != '/' then None else Drive(body[0], after)
  }

  function ResolveUnder(base: string, rest: string): Option<string> {
    if CleanRoot(base) == "" then None else Some(JoinRoot(CleanRoot(base), rest))
  }

  function Resolve(rule: Rule, rest: string, place: Place): Option<string> {
    match rule
    case Mnt => ResolveMnt(rest)
    case Tmp => ResolveUnder(place.temp, rest)
    case Workspace => ResolveUnder(place.root, rest)
    case DriveLetter => ResolveLetter(rest)
  }

  predicate Applies(rule: Rule, place: Place) {
    rule.Workspace? || place.windows
  }

  /** The rule's answer for a path with slashes, if its prefix ends at a separator or at the end. */
  function Try(rule: Rule, path: string, place: Place): Option<string> {
    if !Applies(rule, place) || !StartsWith(path, Prefix(rule)) then None
    else
      var rest := path[|Prefix(rule)|..];
      if rest != "" && rest[0] != '/' then None else Resolve(rule, rest, place)
  }

  function FirstAnswer(rules: seq<Rule>, path: string, place: Place): Option<string> {
    if rules == [] then None
    else if Try(rules[0], path, place).Some? then Try(rules[0], path, place)
    else FirstAnswer(rules[1..], path, place)
  }

  function MapWith(rules: seq<Rule>, p: string, place: Place): string {
    if p == "" then p
    else
      var answer := FirstAnswer(rules, Slashes(p), place);
      if answer.Some? then answer.value else p
  }

  function Map(p: string, place: Place): string {
    MapWith(TABLE, p, place)
  }

  // ---------- Drive letters ----------

  lemma {:induction false} LetterTakes(c: char, tail: string)
    requires IsDriveLetter(c)
    ensures ResolveLetter("/" + [c] + "/" + tail) == Some([Upper(c)] + ":/" + tail)
    ensures ResolveLetter("/" + [c] + ":/" + tail) == Some([Upper(c)] + ":/" + tail)
  {
    var plain, colon := "/" + [c] + "/" + tail, "/" + [c] + ":/" + tail;
    assert Body(plain) == [c] + ("/" + tail) && Body(plain)[1..] == "/" + tail;
    assert Body(colon) == [c] + ":" + ("/" + tail) && Body(colon)[2..] == "/" + tail;
    assert [Upper(c)] + ":" + ("/" + tail) == [Upper(c)] + ":/" + tail;
  }

  /** The drive-letter rule takes exactly "/c/..." and "/c:/..." of a letter c. */
  lemma {:induction false} LetterExactly(rest: string)
    requires rest == "" || rest[0] == '/'
    ensures ResolveLetter(rest).Some?
       <==> exists c, tail :: IsDriveLetter(c) && (rest == "/" + [c] + "/" + tail || rest == "/" + [c] + ":/" + tail)
  {
    if c, tail :| IsDriveLetter(c) && (rest == "/" + [c] + "/" + tail || rest == "/" + [c] + ":/" + tail) {
      LetterTakes(c, tail);
    }
    if ResolveLetter(rest).Some? {
      LetterOnly(rest);
    }
  }

  lemma {:induction false} LetterOnly(rest: string)
    requires rest == "" || rest[0] == '/'
    requires ResolveLetter(rest).Some?
    ensures exists c, tail :: IsDriveLetter(c) && (rest == "/" + [c] + "/" + tail || rest == "/" + [c] + ":/" + tail)
  {
    var c := rest[1];
    var colon := |rest| > 2 && rest[2] == ':';
    var after := if colon then rest[3..] else rest[2..];
    assert Body(rest) == rest[1..] && rest[1..][0] == c && IsDriveLetter(c);
    assert after == if colon then rest[1..][2..] else rest[1..][1..];
    var tail := after[1..];
    assert after == "/" + tail;
    if colon {
      assert rest == "/" + [c] + ":/" + tail;
    } else {
      assert rest == "/" + [c] + "/" + tail;
    }
  }

  /** A drive and a path on it. */
  function OnDrive(c: char, tail: string): string {
    if tail == "" then [Upper(c)] + ":/" else [Upper(c)] + ":" + tail
  }

  /** Behind "/mnt" the drive rule takes exactly "/c", for the drive's root, and "/c/..." of a letter c. */
  lemma {:induction false} MntExactly(rest: string, out: string)
    requires rest == "" || rest[0] == '/'
    ensures ResolveMnt(rest) == Some(out)
       <==> exists c, tail :: IsDriveLetter(c) && (tail == "" || tail[0] == '/') && rest == "/" + [c] + tail
                              && out == OnDrive(c, tail)
  {
    if c, tail :| IsDriveLetter(c) && (tail == "" || tail[0] == '/') && rest == "/" + [c] + tail
                  && out == OnDrive(c, tail) {
      assert Body(rest) == [c] + tail && Body(rest)[1..] == tail;
    }
    if ResolveMnt(rest) == Some(out) {
      MntOnly(rest, out);
    }
  }

  lemma {:induction false} MntOnly(rest: string, out: string)
    requires rest == "" || rest[0] == '/'
    requires ResolveMnt(rest) == Some(out)
    ensures exists c, tail :: IsDriveLetter(c) && (tail == "" || tail[0] == '/') && rest == "/" + [c] + tail
                              && out == OnDrive(c, tail)
  {
    var body := Body(rest);
    assert body == rest[1..];
    var c, tail := body[0], body[1..];
    assert rest == "/" + [c] + tail;
    assert tail != "" ==> tail[0] == body[1];
    assert out == OnDrive(c, tail);
  }

  /** The capital of a small letter is the letter with the same place in the alphabet; all else stays. */
  lemma {:induction false} UpperIs(c: char)
    ensures 'a' <= c <= 'z' ==> 'A' <= Upper(c) <= 'Z' && Upper(c) as int - 'A' as int == c as int - 'a' as int
    ensures !('a' <= c <= 'z') ==> Upper(c) == c
  {
  }

  /** On any host a bare "/x" and a bare "/x:", in slashes or backslashes, come back as they are. */
  lemma {:induction false} BareLetterStays(p: string, c: char, place: Place)
    requires Slashes(p) == "/" + [c] || Slashes(p) == "/" + [c] + ":"
    ensures Map(p, place) == p
  {
    var path := Slashes(p);
    forall rule: Rule
      ensures Try(rule, path, place) == None
    {
    }
    NoAnswer(TABLE, path, place);
  }

  lemma {:induction false} NoAnswer(rules: seq<Rule>, path: string, place: Place)
    requires forall rule :: Try(rule, path, place) == None
    ensures FirstAnswer(rules, path, place) == None
  {
    if rules != [] {
      NoAnswer(rules[1..], path, place);
    }
  }

  // ---------- One rule at most ----------

  /** No path is resolved by two rules. */
  lemma {:induction false} OneRuleAtMost(path: string, place: Place, a: Rule, b: Rule)
    requires Try(a, path, place).Some? && Try(b, path, place).Some?
    ensures a == b
  {
    if |path| > 1 {
      if a.DriveLetter? && !b.DriveLetter? {
        LetterHasNoWord(path, place, b);
      } else if b.DriveLetter? && !a.DriveLetter? {
        LetterHasNoWord(path, place, a);
      }
      assert !a.DriveLetter? ==> path[1] == Prefix(a)[1];
      assert !b.DriveLetter? ==> path[1] == Prefix(b)[1];
    }
  }

  // The second letter of a word is no separator.
  lemma {:induction false} LetterHasNoWord(path: string, place: Place, word: Rule)
    requires !word.DriveLetter? && Try(word, path, place).Some? && |path| > 1
    ensures Try(DriveLetter, path, place) == None
  {
    assert path[0] == Prefix(word)[0] == '/';
    assert path[2] == Prefix(word)[2];
    assert path[0..] == path && Body(path) == path[1..];
    assert path[1..][1] == path[2];
  }

  /** The order of the table is irrelevant: a list of rules answers exactly what one of them answers. */
  lemma {:induction false} OrderIrrelevant(rules: seq<Rule>, path: string, place: Place, out: string)
    ensures FirstAnswer(rules, path, place) == Some(out)
          <==> exists rule :: rule in rules && Try(rule, path, place) == Some(out)
  {
    if rules != [] {
      OrderIrrelevant(rules[1..], path, place, out);
      if Try(rules[0], path, place).Some? {
        forall rule | rule in rules && Try(rule, path, place).Some?
          ensures rule == rules[0]
        {
          OneRuleAtMost(path, place, rule, rules[0]);
        }
        assert rules[0] in rules;
      } else {
        forall rule | rule in rules && Try(rule, path, place).Some?
          ensures rule in rules[1..]
        {
        }
      }
    }
  }

  /** Two tables with the same rules map alike. */
  lemma {:induction false} SameRulesSameMap(a: seq<Rule>, b: seq<Rule>, p: string, place: Place)
    requires forall rule :: rule in a <==> rule in b
    ensures MapWith(a, p, place) == MapWith(b, p, place)
  {
    var path := Slashes(p);
    var one, two := FirstAnswer(a, path, place), FirstAnswer(b, path, place);
    if one.Some? {
      OrderIrrelevant(a, path, place, one.value);
      OrderIrrelevant(b, path, place, one.value);
    } else if two.Some? {
      OrderIrrelevant(a, path, place, two.value);
      OrderIrrelevant(b, path, place, two.value);
    }
  }

  // ---------- Mapping twice ----------

  predicate NoBackslash(s: string) {
    '\\' !in s
  }

  lemma {:induction false} SlashesStay(s: string)
    requires NoBackslash(s)
    ensures Slashes(s) == s
  {
    if s != "" {
      assert s[0] in s && forall c | c in s[1..] :: c in s;
      SlashesStay(s[1..]);
      assert Halved(s) == [s[0]] + Halved(s[1..]);
      assert Halved(s)[1..] == Halved(s[1..]);
      assert s == [s[0]] + s[1..];
    }
  }

  lemma {:induction false} SlashesHaveNone(s: string)
    ensures NoBackslash(Slashed(s))
  {
    if s != "" {
      SlashesHaveNone(s[1..]);
    }
  }

  lemma {:induction false} TrimsKeep(s: string)
    requires NoBackslash(s)
    ensures NoBackslash(TrimLeft(s, IsSlash)) && NoBackslash(TrimRight(s, IsSlash))
    ensures TrimRight(s, IsSlash) != "" ==> s != "" && TrimRight(s, IsSlash)[0] == s[0]
    ensures TrimRight(s, IsSlash) == "" || TrimRight(s, IsSlash)[|TrimRight(s, IsSlash)| - 1] != '/'
    ensures TrimLeft(s, IsSlash) == "" || TrimLeft(s, IsSlash)[0] != '/'
    decreases |s|
  {
    if s != "" {
      if s[0] == '/' {
        TrimsKeep(s[1..]);
      }
      if s[|s| - 1] == '/' {
        TrimsKeep(s[..|s| - 1]);
      }
    }
  }

  lemma {:induction false} CleanRootIsClean(root: string)
    ensures NoBackslash(CleanRoot(root))
    ensures CleanRoot(root) == "" || CleanRoot(root)[|CleanRoot(root)| - 1] != '/'
  {
    SlashesHaveNone(Halved(root));
    TrimsKeep(Slashes(root));
  }

  // Nothing but a slash in front makes a path a candidate.
  lemma {:induction false} NoSlashNoAnswer(path: string, place: Place)
    requires path == "" || path[0] != '/'
    ensures path != "" ==> FirstAnswer(TABLE, path, place) == None
  {
    if path != "" {
      forall rule: Rule
        ensures Try(rule, path, place) == None
      {
        assert StartsWith(path, Prefix(rule)) ==> path[..|Prefix(rule)|] == Prefix(rule);
        assert !rule.DriveLetter? ==> Prefix(rule)[0] == '/';
        assert path[0..] == path;
      }
      NoAnswer(TABLE, path, place);
    }
  }

  lemma {:induction false} AnswerIsATry(rules: seq<Rule>, path: string, place: Place) returns (rule: Rule)
    requires FirstAnswer(rules, path, place).Some?
    ensures rule in rules && Try(rule, path, place) == FirstAnswer(rules, path, place)
  {
    if Try(rules[0], path, place).Some? {
      rule := rules[0];
    } else {
      rule := AnswerIsATry(rules[1..], path, place);
    }
  }

  lemma {:induction false} UpperIsNoSlash(c: char)
    requires IsDriveLetter(c)
    ensures Upper(c) != '/' && Upper(c) != '\\'
  {
  }

  lemma {:induction false} JoinedShape(base: string, rest: string)
    requires CleanRoot(base) != "" && NoBackslash(rest)
    ensures var out := JoinRoot(CleanRoot(base), rest);
            NoBackslash(out) && out != "" && out[0] == CleanRoot(base)[0]
  {
    CleanRootIsClean(base);
    TrimsKeep(rest);
  }

  /** A directory that is not below any slash: a drive path, for one. */
  predicate OffSlash(dir: string) {
    CleanRoot(dir) == "" || CleanRoot(dir)[0] != '/'
  }

  lemma {:induction false} AnswerOffSlash(rule: Rule, rest: string, place: Place)
    requires OffSlash(place.root) && OffSlash(place.temp) && NoBackslash(rest)
    requires Resolve(rule, rest, place).Some?
    ensures var out := Resolve(rule, rest, place).value; NoBackslash(out) && out != "" && out[0] != '/'
  {
    match rule
    case Tmp =>
      JoinedShape(place.temp, rest);
    case Workspace =>
      JoinedShape(place.root, rest);
    case Mnt =>
      var body := Body(rest);
      UpperIsNoSlash(body[0]);
      assert forall c | c in body[1..] :: c in rest;
    case DriveLetter =>
      var body := Body(rest);
      UpperIsNoSlash(body[0]);
      var after := if |body| > 1 && body[1] == ':' then body[2..] else body[1..];
      assert forall c | c in after :: c in rest;
  }

  // ---------- The workspace alias elsewhere ----------

  /** Off Windows only the workspace alias is mapped. */
  lemma {:induction false} OnlyWorkspace(path: string, place: Place)
    requires !place.windows
    ensures FirstAnswer(TABLE, path, place) == Try(Workspace, path, place)
  {
    assert TABLE == [Mnt] + ([Tmp] + ([Workspace] + ([DriveLetter] + [])));
    AnswerHead(Mnt, [Tmp] + ([Workspace] + ([DriveLetter] + [])), path, place);
    AnswerHead(Tmp, [Workspace] + ([DriveLetter] + []), path, place);
    AnswerHead(Workspace, [DriveLetter] + [], path, place);
    AnswerHead(DriveLetter, [], path, place);
  }

  lemma {:induction false} AnswerHead(rule: Rule, rules: seq<Rule>, path: string, place: Place)
    ensures FirstAnswer([rule] + rules, path, place)
         == if Try(rule, path, place).Some? then Try(rule, path, place) else FirstAnswer(rules, path, place)
  {
    assert ([rule] + rules)[1..] == rules;
  }

  /** Off Windows mapping twice is mapping once, for every path, if and only if the root is not below the alias. */
  lemma {:induction false} MapTwiceExactly(place: Place)
    requires !place.windows
    ensures (forall p :: Map(Map(p, place), place) == Map(p, place))
          <==> !StartsWith(CleanRoot(place.root), "/workspace/")
  {
    hide Map, CleanRoot, StartsWith;
    var root := CleanRoot(place.root);
    if StartsWith(root, "/workspace/") {
      BelowTheAlias(place);
    } else {
      forall p
        ensures Map(Map(p, place), place) == Map(p, place)
      {
        OffTheAlias(p, place);
      }
    }
  }

  // What the alias rule makes of the alias and of a path below it.
  lemma {:induction false} AliasAnswer(rest: string, place: Place)
    requires !place.windows && CleanRoot(place.root) != "" && NoBackslash(rest) && (rest == "" || rest[0] == '/')
    ensures Map("/workspace" + rest, place) == JoinRoot(CleanRoot(place.root), rest)
  {
    var p := "/workspace" + rest;
    SlashesStay(p);
    hide Slashes, CleanRoot;
    OnlyWorkspace(p, place);
    assert p[..|Prefix(Workspace)|] == Prefix(Workspace) && p[|Prefix(Workspace)|..] == rest;
  }

  lemma {:induction false} BelowTheAlias(place: Place)
    requires !place.windows && StartsWith(CleanRoot(place.root), "/workspace/")
    ensures Map(Map("/workspace", place), place) != Map("/workspace", place)
  {
    var p, root := "/workspace", CleanRoot(place.root);
    CleanRootIsClean(place.root);
    hide CleanRoot, Map;
    var rest := root[|p|..];
    assert root == p + rest && p + "" == p by {
      assert root[..|p|] == root[..|p| + 1][..|p|];
    }
    assert rest[0] == root[|p|] == '/' by {
      assert root[|p|] == root[..|p| + 1][|p|];
    }
    assert forall c | c in rest :: c in root;
    assert rest[|rest| - 1] == root[|root| - 1];
    AliasAnswer("", place);
    AliasAnswer(rest, place);
    TrimmedEnd(rest);
    assert |JoinRoot(root, rest)| > |root|;
  }

  lemma {:induction false} TrimmedEnd(s: string)
    requires s != "" && s[|s| - 1] != '/'
    ensures TrimLeft(s, IsSlash) != ""
  {
    if s[0] == '/' {
      TrimmedEnd(s[1..]);
    }
  }

  lemma {:induction false} OffTheAlias(p: string, place: Place)
    requires !place.windows && !StartsWith(CleanRoot(place.root), "/workspace/")
    ensures Map(Map(p, place), place) == Map(p, place)
  {
    var path, root := Slashes(p), CleanRoot(place.root);
    SlashesHaveNone(Halved(p));
    OnlyWorkspace(path, place);
    if p != "" && Try(Workspace, path, place).Some? {
      var rest := path[|Prefix(Workspace)|..];
      assert forall c | c in rest :: c in path;
      JoinedShape(place.root, rest);
      var out := JoinRoot(root, rest);
      SlashesStay(out);
      OnlyWorkspace(out, place);
      TrimsKeep(rest);
      var sub := TrimLeft(rest, IsSlash);
      if Try(Workspace, out, place).Some? {
        AliasRoot(root, sub);
        assert sub != "" ==> out[|root|..] == "/" + sub;
        assert sub != "" ==> TrimLeft("/" + sub, IsSlash) == TrimLeft(sub, IsSlash) == sub by {
          assert ("/" + sub)[1..] == sub;
        }
      }
    }
  }

  // Only the alias itself, as a root, gives paths under the alias.
  lemma {:induction false} AliasRoot(root: string, sub: string)
    requires root != "" && !StartsWith(root, "/workspace/")
    requires var out := if sub == "" then root else root + "/" + sub;
             StartsWith(out, "/workspace") && (|out| == 10 || out[10] == '/')
    ensures root == "/workspace"
  {
    var alias := "/workspace";
    var out := if sub == "" then root else root + "/" + sub;
    assert out[..|root|] == root;
    assert forall k | 0 < k < |alias| :: alias[k] != '/';
    assert forall k | 0 <= k < |alias| :: out[..|alias|][k] == out[k];
    assert sub != "" ==> out[|root|] == '/';
    if |root| >= |alias| {
      assert root[..|alias|] == out[..|alias|];
    }
    assert |root| > |alias| ==> out[|alias|] == out[..|root|][|alias|];
    BelowPrefix(root);
  }

  lemma {:induction false} BelowPrefix(s: string)
    ensures StartsWith(s, "/workspace/") <==> StartsWith(s, "/workspace") && |s| > 10 && s[10] == '/'
  {
    if |s| > 10 {
      assert s[..11] == s[..10] + [s[10]];
    }
  }
}
