/** When a credential survives being written to its file and read back. */
module CredentialLaws {
  import opened Wrappers
  import opened Ordering
  import opened Credentials

  // ---------- Values ----------

  predicate Ascii(s: string) {
    forall i | 0 <= i < |s| :: s[i] as int < 128
  }

  /** A backslash followed by the letter `x`. */
  predicate PairAt(s: string, i: int, x: char) {
    0 <= i < |s| - 1 && s[i] == '\\' && s[i + 1] == x
  }

  predicate SpaceOrTab(c: char) {
    c == ' ' || c == '\t'
  }

  /** ASCII, no blank at either end, and no text that already looks like an escape. */
  predicate GoodValue(v: string) {
    && Ascii(v)
    && (v != "" ==> !SpaceOrTab(v[0]) && !SpaceOrTab(v[|v| - 1]))
    && NoPairsOf(v, 'n') && NoPairsOf(v, 'r')
  }

  /** What a value has become after one save and one load. */
  function Returned(v: string): string {
    Unescaped(Trimmed(Escaped(v)))
  }

  function EscapedChar(c: char): string {
    if c == '\n' then "\\n" else if c == '\r' then "\\r" else [c]
  }

  function EscapedChars(v: string): string {
    if v == "" then "" else EscapedChar(v[0]) + EscapedChars(v[1..])
  }

  function CrEscaped(v: string): string {
    if v == "" then "" else (if v[0] == '\r' then "\\r" else [v[0]]) + CrEscaped(v[1..])
  }

  lemma {:induction false} SingleAppend(a: string, b: string, f: char, into: string)
    ensures Replaced(a + b, [f], into) == Replaced(a, [f], into) + Replaced(b, [f], into)
  {
    if a == "" {
      assert a + b == b;
    } else {
      assert (a + b)[1..] == a[1..] + b;
      assert (a + b)[..1] == a[..1];
      SingleAppend(a[1..], b, f, into);
    }
  }

  lemma {:induction false} EscapeIsCharwise(v: string)
    requires Ascii(v)
    ensures Escaped(v) == EscapedChars(v)
  {
    if v != "" {
      var c, t := v[0], v[1..];
      EscapeIsCharwise(t);
      var first := Replaced([c], "\n", "\\n");
      assert v == [c] + t;
      SingleAppend([c], t, '\n', "\\n");
      SingleAppend(first, Replaced(t, "\n", "\\n"), '\r', "\\r");
      EscapeOne(c);
    }
  }

  lemma {:induction false} ReplaceOne(c: char, f: char, into: string)
    ensures Replaced([c], [f], into) == if c == f then into else Rune(c)
  {
    assert [c][1..] == "" && [c][..1] == [c];
    assert into + "" == into && Rune(c) + "" == Rune(c);
  }

  lemma {:induction false} EscapeOne(c: char)
    requires c as int < 128
    ensures Escaped([c]) == EscapedChar(c)
  {
    ReplaceOne(c, '\n', "\\n");
    if c == '\n' {
      assert "\\n" == ['\\'] + ['n'];
      SingleAppend(['\\'], ['n'], '\r', "\\r");
      ReplaceOne('\\', '\r', "\\r");
      ReplaceOne('n', '\r', "\\r");
    } else {
      ReplaceOne(c, '\r', "\\r");
    }
  }

  /** One step of a two-character replacement that does not match. */
  lemma {:induction false} StepOver(c: char, t: string, x: char, into: string)
    requires !(c == '\\' && t != "" && t[0] == x)
    ensures Replaced([c] + t, ['\\', x], into) == Rune(c) + Replaced(t, ['\\', x], into)
  {
    var s := [c] + t;
    assert s[1..] == t;
    if |s| >= 2 {
      assert s[..2] == [c, t[0]];
      assert s[..2][0] == c && s[..2][1] == t[0];
    }
  }

  lemma {:induction false} StepMatch(t: string, x: char, into: string)
    ensures Replaced(['\\', x] + t, ['\\', x], into) == into + Replaced(t, ['\\', x], into)
  {
    var s := ['\\', x] + t;
    assert s[..2] == ['\\', x] && s[2..] == t;
  }

  predicate NoPairsOf(v: string, x: char) {
    forall i | 0 <= i < |v| :: !PairAt(v, i, x)
  }

  lemma {:induction false} TailHasNoPairs(v: string, x: char)
    requires v != "" && NoPairsOf(v, x)
    ensures NoPairsOf(v[1..], x)
    ensures !(v[0] == '\\' && v[1..] != "" && v[1..][0] == x)
  {
    var t := v[1..];
    assert forall i | 0 <= i < |t| :: PairAt(t, i, x) ==> PairAt(v, i + 1, x);
    assert v[0] == '\\' && t != "" && t[0] == x ==> PairAt(v, 0, x);
  }

  lemma {:induction false} UnescapeOneNewline(c: char, rest: string)
    requires c as int < 128 && !(c == '\\' && rest != "" && rest[0] == 'n')
    ensures Replaced(EscapedChar(c) + rest, "\\n", "\n")
         == (if c == '\r' then "\\r" else [c]) + Replaced(rest, "\\n", "\n")
  {
    assert "\\n" == ['\\', 'n'];
    if c == '\n' {
      StepMatch(rest, 'n', "\n");
    } else if c == '\r' {
      StepOver('r', rest, 'n', "\n");
      StepOver('\\', ['r'] + rest, 'n', "\n");
      assert "\\r" + rest == ['\\'] + (['r'] + rest);
    } else {
      StepOver(c, rest, 'n', "\n");
    }
  }

  lemma {:induction false} UnescapeNewlines(v: string)
    requires Ascii(v) && NoPairsOf(v, 'n')
    ensures Replaced(EscapedChars(v), "\\n", "\n") == CrEscaped(v)
  {
    if v != "" {
      TailHasNoPairs(v, 'n');
      UnescapeNewlines(v[1..]);
      assert EscapedChars(v[1..]) != "" ==>
          v[1..] != "" && (EscapedChars(v[1..])[0] == v[1] || EscapedChars(v[1..])[0] == '\\');
      UnescapeOneNewline(v[0], EscapedChars(v[1..]));
    }
  }

  lemma {:induction false} UnescapeReturns(v: string)
    requires Ascii(v) && NoPairsOf(v, 'r')
    ensures Replaced(CrEscaped(v), "\\r", "\r") == v
  {
    if v != "" {
      TailHasNoPairs(v, 'r');
      UnescapeReturns(v[1..]);
      var c, rest := v[0], CrEscaped(v[1..]);
      assert "\\r" == ['\\', 'r'] && v == [c] + v[1..];
      if c == '\r' {
        StepMatch(rest, 'r', "\r");
      } else {
        StepOver(c, rest, 'r', "\r");
      }
    }
  }

  lemma {:induction false} EscapedEnds(v: string)
    requires v != ""
    ensures var x := EscapedChars(v);
            && x != "" && (IsBlank(x[0]) <==> SpaceOrTab(v[0])) && (IsBlank(x[|x| - 1]) <==> SpaceOrTab(v[|v| - 1]))
  {
    if |v| > 1 {
      EscapedEnds(v[1..]);
    }
  }

  lemma {:induction false} NothingToTrim(s: string)
    requires s != "" ==> !IsBlank(s[0]) && !IsBlank(s[|s| - 1])
    ensures Trimmed(s) == s
  {
  }

  lemma {:induction false} GoodValueReturns(v: string)
    requires GoodValue(v)
    ensures Returned(v) == v
  {
    EscapeIsCharwise(v);
    if v != "" {
      EscapedEnds(v);
    }
    NothingToTrim(EscapedChars(v));
    UnescapeNewlines(v);
    UnescapeReturns(v);
  }

  // ---------- Bad values change ----------

  function NonAscii(s: string): nat {
    if s == "" then 0 else (if s[0] as int < 128 then 0 else 1) + NonAscii(s[1..])
  }

  lemma {:induction false} NonAsciiAppend(a: string, b: string)
    ensures NonAscii(a + b) == NonAscii(a) + NonAscii(b)
  {
    if a == "" {
      assert a + b == b;
    } else {
      assert (a + b)[1..] == a[1..] + b;
      NonAsciiAppend(a[1..], b);
    }
  }

  lemma {:induction false} AsciiMeansNone(s: string)
    ensures Ascii(s) <==> NonAscii(s) == 0
  {
    if s != "" {
      AsciiMeansNone(s[1..]);
      assert s == [s[0]] + s[1..];
    }
  }

  /** Every byte from 128 up is doubled by every pass. */
  lemma {:induction false} ReplacedDoubles(s: string, from: string, into: string)
    requires from != "" && Ascii(from) && Ascii(into)
    ensures NonAscii(Replaced(s, from, into)) == 2 * NonAscii(s)
  {
    if s != "" {
      if |from| <= |s| && s[..|from|] == from {
        AsciiMeansNone(from);
        AsciiMeansNone(into);
        assert s == from + s[|from|..];
        NonAsciiAppend(from, s[|from|..]);
        NonAsciiAppend(into, Replaced(s[|from|..], from, into));
        ReplacedDoubles(s[|from|..], from, into);
      } else {
        NonAsciiAppend(Rune(s[0]), Replaced(s[1..], from, into));
        RuneCount(s[0]);
        ReplacedDoubles(s[1..], from, into);
      }
    }
  }

  lemma {:induction false} RuneCount(c: char)
    ensures NonAscii(Rune(c)) == if c as int < 128 then 0 else 2
  {
    if c as int < 128 {
      assert [c][1..] == "";
    } else {
      var second := Rune(c)[1];
      assert Rune(c)[1..] == [second] && [second][1..] == "";
      assert second as int >= 128 && Rune(c)[0] as int >= 128;
      assert NonAscii([second]) == 1;
    }
  }

  lemma {:induction false} TrimKeepsNonAscii(s: string)
    ensures NonAscii(TrimLeft(s, IsBlank)) == NonAscii(s)
    ensures NonAscii(TrimRight(s, IsBlank)) == NonAscii(s)
    decreases |s|
  {
    if s != "" {
      TrimKeepsNonAscii(s[1..]);
      TrimKeepsNonAscii(s[..|s| - 1]);
      assert s == s[..|s| - 1] + [s[|s| - 1]];
      NonAsciiAppend(s[..|s| - 1], [s[|s| - 1]]);
    }
  }

  lemma {:induction false} ReturnedNonAscii(v: string)
    ensures NonAscii(Returned(v)) == 16 * NonAscii(v)
  {
    var once := Replaced(v, "\n", "\\n");
    ReplacedDoubles(v, "\n", "\\n");
    ReplacedDoubles(once, "\r", "\\r");
    TrimKeepsNonAscii(Escaped(v));
    TrimKeepsNonAscii(TrimLeft(Escaped(v), IsBlank));
    var x := Trimmed(Escaped(v));
    ReplacedDoubles(x, "\\n", "\n");
    ReplacedDoubles(Replaced(x, "\\n", "\n"), "\\r", "\r");
  }

  /** How many backslash-x pairs a text holds. */
  function Pairs(s: string, x: char): nat {
    if s == "" then 0 else (if PairAt(s, 0, x) then 1 else 0) + Pairs(s[1..], x)
  }

  function Count(s: string, c: char): nat {
    if s == "" then 0 else (if s[0] == c then 1 else 0) + Count(s[1..], c)
  }

  lemma {:induction false} NoPairs(s: string, x: char)
    ensures Pairs(s, x) == 0 <==> NoPairsOf(s, x)
  {
    if s != "" {
      var t := s[1..];
      NoPairs(t, x);
      assert forall i | 0 <= i < |t| :: PairAt(t, i, x) <==> PairAt(s, i + 1, x);
      assert forall i | 0 < i < |s| :: PairAt(s, i, x) <==> PairAt(t, i - 1, x);
    }
  }

  /** Undoing one escape shortens the text by one per pair, and leaves the other kind of pair alone. */
  lemma {:induction false} UnescapeLength(s: string, x: char, y: char, z: char)
    requires Ascii(s) && x != '\\' && z != '\\' && y != '\\' && x != z && y != z && y as int < 128
    ensures var r := Replaced(s, ['\\', x], [y]);
            && |r| == |s| - Pairs(s, x) && Pairs(r, z) == Pairs(s, z) && Ascii(r)
            && (s != "" ==> r != "" && (r[0] == s[0] || (PairAt(s, 0, x) && r[0] == y)))
  {
    if s != "" {
      if PairAt(s, 0, x) {
        var t := s[2..];
        assert s == ['\\', x] + t && s[1..] == [x] + t && s[1..][1..] == t;
        UnescapeLength(t, x, y, z);
        StepMatch(t, x, [y]);
        assert Replaced(s, ['\\', x], [y])[1..] == Replaced(t, ['\\', x], [y]);
      } else {
        var c, t := s[0], s[1..];
        assert s == [c] + t;
        UnescapeLength(t, x, y, z);
        StepOver(c, t, x, [y]);
        var r := Replaced(t, ['\\', x], [y]);
        assert ([c] + r)[1..] == r;
      }
    }
  }

  lemma {:induction false} PairsOfEscaped(v: string, x: char, source: char)
    requires (x == 'n' && source == '\n') || (x == 'r' && source == '\r')
    ensures Pairs(EscapedChars(v), x) == Count(v, source) + Pairs(v, x)
  {
    if v != "" {
      var c, rest, whole := v[0], EscapedChars(v[1..]), EscapedChars(v);
      PairsOfEscaped(v[1..], x, source);
      if c == '\n' || c == '\r' {
        assert whole[1..] == [whole[1]] + rest && whole[1..][1..] == rest;
      } else {
        assert whole[1..] == rest;
      }
    }
  }

  lemma {:induction false} EscapedLength(v: string)
    ensures |EscapedChars(v)| == |v| + Count(v, '\n') + Count(v, '\r')
  {
    if v != "" {
      EscapedLength(v[1..]);
    }
  }

  lemma {:induction false} PairsSnoc(s: string, b: char, x: char)
    requires b != x
    ensures Pairs(s + [b], x) == Pairs(s, x)
  {
    if s == "" {
      assert s + [b] == [b];
    } else {
      assert (s + [b])[1..] == s[1..] + [b];
      PairsSnoc(s[1..], b, x);
    }
  }

  /** Trimming shortens exactly the texts with a blank end, and breaks no pair. */
  lemma {:induction false} TrimEffect(s: string, x: char)
    requires x == 'n' || x == 'r'
    ensures Pairs(TrimLeft(s, IsBlank), x) == Pairs(s, x) && Pairs(TrimRight(s, IsBlank), x) == Pairs(s, x)
    ensures |TrimLeft(s, IsBlank)| <= |s| && |TrimRight(s, IsBlank)| <= |s|
    ensures s != "" && IsBlank(s[0]) ==> |TrimLeft(s, IsBlank)| < |s|
    ensures s != "" && IsBlank(s[|s| - 1]) ==> |TrimRight(s, IsBlank)| < |s|
    ensures s != "" && !IsBlank(s[0]) ==> TrimLeft(s, IsBlank) == s
    decreases |s|
  {
    if s != "" {
      TrimEffect(s[1..], x);
      TrimEffect(s[..|s| - 1], x);
      assert s == s[..|s| - 1] + [s[|s| - 1]];
      if IsBlank(s[|s| - 1]) {
        PairsSnoc(s[..|s| - 1], s[|s| - 1], x);
      }
    }
  }

  lemma {:induction false} ReturnedLength(v: string)
    requires Ascii(v)
    ensures Ascii(Trimmed(Escaped(v)))
    ensures |Returned(v)| == |v| - Pairs(v, 'n') - Pairs(v, 'r') - (|Escaped(v)| - |Trimmed(Escaped(v))|)
  {
    EscapeIsCharwise(v);
    EscapedLength(v);
    PairsOfEscaped(v, 'n', '\n');
    PairsOfEscaped(v, 'r', '\r');
    var x := Escaped(v);
    TrimEffect(x, 'n');
    TrimEffect(x, 'r');
    TrimEffect(TrimLeft(x, IsBlank), 'n');
    TrimEffect(TrimLeft(x, IsBlank), 'r');
    AsciiEscaped(v);
    var t := Trimmed(x);
    assert "\\n" == ['\\', 'n'] && "\\r" == ['\\', 'r'] && "\n" == ['\n'] && "\r" == ['\r'];
    UnescapeLength(t, 'n', '\n', 'r');
    UnescapeLength(Replaced(t, "\\n", "\n"), 'r', '\r', 'n');
  }

  lemma {:induction false} AsciiEscaped(v: string)
    requires Ascii(v)
    ensures Ascii(Escaped(v)) && Ascii(Trimmed(Escaped(v)))
  {
    var once := Replaced(v, "\n", "\\n");
    ReplacedDoubles(v, "\n", "\\n");
    ReplacedDoubles(once, "\r", "\\r");
    TrimKeepsNonAscii(Escaped(v));
    TrimKeepsNonAscii(TrimLeft(Escaped(v), IsBlank));
    AsciiMeansNone(v);
    AsciiMeansNone(Escaped(v));
    AsciiMeansNone(Trimmed(Escaped(v)));
  }

  lemma {:induction false} ReturningIsGood(v: string)
    requires Returned(v) == v
    ensures GoodValue(v)
  {
    hide Returned, Escaped, EscapedChars, Pairs, NonAscii, Ascii, NoPairsOf, TrimLeft, TrimRight;
    ReturnedNonAscii(v);
    AsciiMeansNone(v);
    ReturnedLength(v);
    EscapeIsCharwise(v);
    NoPairs(v, 'n');
    NoPairs(v, 'r');
    TrimShortens(Escaped(v));
    if v != "" {
      EscapedEnds(v);
    }
  }

  lemma {:induction false} TrimShortens(x: string)
    ensures |Trimmed(x)| <= |x|
    ensures x != "" && (IsBlank(x[0]) || IsBlank(x[|x| - 1])) ==> |Trimmed(x)| < |x|
  {
    TrimEffect(x, 'n');
    TrimEffect(TrimLeft(x, IsBlank), 'n');
  }

  /** A value comes back from the file unchanged if and only if it is a good one. */
  lemma {:induction false} ValueRoundTrip(v: string)
    ensures Returned(v) == v <==> GoodValue(v)
  {
    if GoodValue(v) {
      GoodValueReturns(v);
    }
    if Returned(v) == v {
      ReturningIsGood(v);
    }
  }

  // ---------- Lines ----------

  predicate Lacks(s: string, c: char) {
    forall i | 0 <= i < |s| :: s[i] != c
  }

  /** Can stand before '=' at the start of a line and be found again. */
  predicate GoodKey(k: string) {
    && Lacks(k, '=') && Lacks(k, '\n')
    && (k != "" ==> k[0] != '#' && !IsBlank(k[0]) && !IsBlank(k[|k| - 1]))
  }

  lemma {:induction false} ReplacedLacks(s: string, f: char, into: string, c: char)
    requires c as int < 128 && Lacks(into, c) && (c == f || Lacks(s, c))
    ensures Lacks(Replaced(s, [f], into), c)
  {
    if s != "" {
      ReplacedLacks(s[1..], f, into, c);
      assert s[..1] == [s[0]];
    }
  }

  lemma {:induction false} EscapedIsOneLine(v: string)
    ensures Lacks(Escaped(v), '\n')
  {
    ReplacedLacks(v, '\n', "\\n", '\n');
    ReplacedLacks(Replaced(v, "\n", "\\n"), '\r', "\\r", '\n');
  }

  lemma {:induction false} TrimRightIsPrefix(s: string)
    ensures |TrimRight(s, IsBlank)| <= |s| && TrimRight(s, IsBlank) == s[..|TrimRight(s, IsBlank)|]
    ensures TrimRight(s, IsBlank) != "" ==> !IsBlank(TrimRight(s, IsBlank)[|TrimRight(s, IsBlank)| - 1])
  {
    if s != "" && IsBlank(s[|s| - 1]) {
      TrimRightIsPrefix(s[..|s| - 1]);
    }
  }

  lemma {:induction false} TrimLeftIsSuffix(s: string)
    ensures |TrimLeft(s, IsBlank)| <= |s| && TrimLeft(s, IsBlank) == s[|s| - |TrimLeft(s, IsBlank)|..]
    ensures TrimLeft(s, IsBlank) != "" ==> !IsBlank(TrimLeft(s, IsBlank)[0])
  {
    if s != "" && IsBlank(s[0]) {
      TrimLeftIsSuffix(s[1..]);
    }
  }

  lemma {:induction false} TrimmedEnds(s: string, c: char)
    ensures Lacks(s, c) ==> Lacks(Trimmed(s), c)
    ensures Trimmed(s) != "" ==> !IsBlank(Trimmed(s)[0]) && !IsBlank(Trimmed(s)[|Trimmed(s)| - 1])
  {
    TrimLeftIsSuffix(s);
    TrimRightIsPrefix(TrimLeft(s, IsBlank));
  }

  lemma {:induction false} TrimRightAfter(a: string, x: string)
    requires a != "" && !IsBlank(a[|a| - 1])
    ensures TrimRight(a + x, IsBlank) == a + TrimRight(x, IsBlank)
    decreases |x|
  {
    if x == "" {
      assert a + x == a;
    } else {
      assert (a + x)[..|a + x| - 1] == a + x[..|x| - 1];
      TrimRightAfter(a, x[..|x| - 1]);
    }
  }

  lemma {:induction false} TrimLeftBefore(y: string, b: char)
    requires IsBlank(b)
    ensures TrimLeft(y + [b], IsBlank) == if TrimLeft(y, IsBlank) == "" then "" else TrimLeft(y, IsBlank) + [b]
  {
    if y == "" {
      assert y + [b] == [b] && [b][1..] == "";
    } else if IsBlank(y[0]) {
      assert (y + [b])[1..] == y[1..] + [b];
      TrimLeftBefore(y[1..], b);
    }
  }

  lemma {:induction false} TrimAgain(x: string)
    ensures Trimmed(TrimRight(x, IsBlank)) == Trimmed(x)
  {
    if x != "" && IsBlank(x[|x| - 1]) {
      var y, b := x[..|x| - 1], x[|x| - 1];
      assert x == y + [b];
      TrimAgain(y);
      TrimLeftBefore(y, b);
      if TrimLeft(y, IsBlank) != "" {
        assert (TrimLeft(y, IsBlank) + [b])[..|TrimLeft(y, IsBlank)|] == TrimLeft(y, IsBlank);
      }
    }
  }

  /** A printed line with a good key parses back to that key. */
  lemma {:induction false} LineRoundTrip(k: string, v: string)
    requires GoodKey(k)
    ensures ParsedLine(PrintedLine(k, v)) == Some((k, Returned(v)))
  {
    var x := Escaped(v);
    var start := k + "=";
    var line := start + x;
    assert PrintedLine(k, v) == line;
    assert !IsBlank(line[0]);
    TrimRightAfter(start, x);
    var l := start + TrimRight(x, IsBlank);
    assert Trimmed(line) == l;
    FirstOfIs(l, '=', |k|);
    assert l[..|k|] == k && l[|k| + 1..] == TrimRight(x, IsBlank);
    NothingToTrim(k);
    TrimAgain(x);
  }

  lemma {:induction false} ParsedKeyIsGood(line: string)
    requires Lacks(line, '\n')
    ensures ParsedLine(line).Some? ==> GoodKey(ParsedLine(line).value.0)
  {
    var l := Trimmed(line);
    TrimmedEnds(line, '\n');
    var eq := FirstOf(l, '=');
    if ParsedLine(line).Some? && eq > 0 {
      var prefix := l[..eq];
      TrimmedEnds(prefix, '=');
      TrimmedEnds(prefix, '\n');
      TrimRightIsPrefix(prefix);
      assert TrimLeft(prefix, IsBlank) == prefix && prefix[0] == l[0];
    }
  }

  // ---------- Files ----------

  lemma {:induction false} LinesLackNewlines(s: string)
    ensures forall i | 0 <= i < |Lines(s)| :: Lacks(Lines(s)[i], '\n')
  {
    if s != "" {
      var n := FirstOf(s, '\n');
      if n < |s| {
        LinesLackNewlines(s[n + 1..]);
      }
    }
  }

  lemma {:induction false} LoadedKeysAreGood(lines: seq<string>)
    requires forall i | 0 <= i < |lines| :: Lacks(lines[i], '\n')
    ensures forall k | k in LoadedLines(lines) :: GoodKey(k)
  {
    if lines != [] {
      LoadedKeysAreGood(lines[..|lines| - 1]);
      ParsedKeyIsGood(lines[|lines| - 1]);
    }
  }

  function PrintedLines(creds: Creds, keys: seq<string>): seq<string>
    requires forall i | 0 <= i < |keys| :: keys[i] in creds
  {
    seq(|keys|, i requires 0 <= i < |keys| => PrintedLine(keys[i], creds[keys[i]]))
  }

  lemma {:induction false} FirstLine(line: string, rest: string)
    requires Lacks(line, '\n')
    ensures Lines(line + "\n" + rest) == [line] + Lines(rest)
  {
    var s := line + "\n" + rest;
    FirstOfIs(s, '\n', |line|);
    assert s[..|line|] == line && s[|line| + 1..] == rest;
  }

  lemma {:induction false} LinesOfPrinted(creds: Creds, keys: seq<string>)
    requires forall i | 0 <= i < |keys| :: keys[i] in creds && GoodKey(keys[i])
    ensures Lines(Printed(creds, keys)) == PrintedLines(creds, keys)
  {
    if keys == [] {
      assert PrintedLines(creds, keys) == [];
    } else {
      hide *;
      FirstPrintedLine(creds, keys);
      LinesOfPrinted(creds, keys[1..]);
      PrintedLinesHead(creds, keys);
    }
  }

  lemma {:induction false} FirstPrintedLine(creds: Creds, keys: seq<string>)
    requires keys != [] && forall i | 0 <= i < |keys| :: keys[i] in creds && GoodKey(keys[i])
    ensures Lines(Printed(creds, keys)) == [PrintedLine(keys[0], creds[keys[0]])] + Lines(Printed(creds, keys[1..]))
  {
    hide Lines, Escaped;
    var k := keys[0];
    EscapedIsOneLine(creds[k]);
    assert Lacks(PrintedLine(k, creds[k]), '\n');
    hide PrintedLine, Lacks, GoodKey;
    FirstLine(PrintedLine(k, creds[k]), Printed(creds, keys[1..]));
  }

  lemma {:induction false} PrintedLinesHead(creds: Creds, keys: seq<string>)
    requires keys != [] && forall i | 0 <= i < |keys| :: keys[i] in creds
    ensures PrintedLines(creds, keys) == [PrintedLine(keys[0], creds[keys[0]])] + PrintedLines(creds, keys[1..])
  {
  }

  lemma {:induction false} LoadOneMore(lines: seq<string>, k: string, v: string)
    requires GoodKey(k)
    ensures LoadedLines(lines + [PrintedLine(k, v)]) == LoadedLines(lines)[k := Returned(v)]
  {
    hide ParsedLine, PrintedLine, GoodKey, Returned;
    LineRoundTrip(k, v);
    assert (lines + [PrintedLine(k, v)])[..|lines|] == lines;
  }

  ghost predicate AllGood(creds: Creds, keys: seq<string>) {
    forall i | 0 <= i < |keys| :: keys[i] in creds && GoodKey(keys[i])
  }

  lemma {:induction false} LoadPrinted(creds: Creds, keys: seq<string>)
    requires AllGood(creds, keys)
    ensures LoadedLines(PrintedLines(creds, keys)) == map k | k in keys :: Returned(creds[k])
  {
    hide LoadedLines, GoodKey, PrintedLine, Returned;
    if keys == [] {
      hide *;
      LoadNothing(creds);
    } else {
      var most, last := keys[..|keys| - 1], keys[|keys| - 1];
      assert keys == most + [last];
      assert AllGood(creds, most);
      LoadPrinted(creds, most);
      assert PrintedLines(creds, keys) == PrintedLines(creds, most) + [PrintedLine(last, creds[last])];
      LoadOneMore(PrintedLines(creds, most), last, creds[last]);
    }
  }

  lemma {:induction false} LoadNothing(creds: Creds)
    ensures LoadedLines(PrintedLines(creds, [])) == map[]
  {
  }

  lemma {:induction false} GoodKeysReturn(creds: Creds, keys: seq<string>)
    requires Lists(keys, creds) && AllGood(creds, keys)
    ensures Loaded(Printed(creds, keys)) == map k | k in creds :: Returned(creds[k])
  {
    hide LoadedLines, Lines, GoodKey, Returned, Printed, PrintedLines;
    LinesOfPrinted(creds, keys);
    LoadPrinted(creds, keys);
  }

  lemma {:induction false} LoadedKeys(data: string)
    ensures forall k | k in Loaded(data) :: GoodKey(k)
  {
    LinesLackNewlines(data);
    LoadedKeysAreGood(Lines(data));
  }

  /** Loading what was saved gives the same credentials if and only if every key and every value is good. */
  lemma {:induction false} FileRoundTrip(creds: Creds, keys: seq<string>)
    requires Lists(keys, creds)
    ensures Loaded(Printed(creds, keys)) == creds <==> forall k | k in creds :: GoodKey(k) && GoodValue(creds[k])
  {
    hide Loaded, GoodKey, GoodValue, Returned, Printed;
    LoadedKeys(Printed(creds, keys));
    if forall k | k in creds :: GoodKey(k) {
      assert forall i | 0 <= i < |keys| :: keys[i] in keys;
      GoodKeysReturn(creds, keys);
      forall k | k in creds
        ensures Returned(creds[k]) == creds[k] <==> GoodValue(creds[k])
      {
        ValueRoundTrip(creds[k]);
      }
      var loaded := Loaded(Printed(creds, keys));
      assert loaded.Keys == creds.Keys;
      assert loaded == creds <==> forall k | k in creds :: loaded[k] == creds[k];
    }
  }

  /** A saved file read by a fresh process gives back what was saved, exactly when all of it is good. */
  lemma {:induction false} SavedFileReturns(data: string, creds: Creds)
    requires IsFileOf(data, creds)
    ensures Loaded(data) == creds <==> forall k | k in creds :: GoodKey(k) && GoodValue(creds[k])
  {
    hide Loaded, Printed, GoodKey, GoodValue, Sorted;
    var keys :| Lists(keys, creds) && Sorted(keys) && data == Printed(creds, keys);
    FileRoundTrip(creds, keys);
  }

  /** Setting a credential on a plugin that is only on disk keeps the plugin's other credentials if and only if
      there are none. */
  lemma {:induction false} ColdSetForgets(data: string, after: string, key: string, value: string)
    requires IsFileOf(after, map[key := value]) && GoodKey(key) && GoodValue(value)
    ensures Loaded(after) == Loaded(data)[key := value] <==> Loaded(data).Keys <= {key}
  {
    hide Loaded, GoodKey, GoodValue, IsFileOf;
    SavedFileReturns(after, map[key := value]);
    assert Loaded(after) == map[key := value];
    var both := Loaded(data)[key := value];
    assert both.Keys == Loaded(data).Keys + {key};
    if Loaded(data).Keys <= {key} {
      assert both.Keys == {key};
    }
  }

  // ---------- Bytes and blanks ----------

  /** A byte below 128 stays; any other becomes the two bytes that encode it, six bits in the second. */
  lemma {:induction false} RuneExactly(c: char)
    requires c as int < 256
    ensures c as int < 128 ==> Rune(c) == [c]
    ensures c as int >= 128 ==>
              && |Rune(c)| == 2 && 0x80 <= Rune(c)[1] as int < 0xC0
              && (Rune(c)[0] as int - 0xC0) * 0x40 + (Rune(c)[1] as int - 0x80) == c as int
  {
  }

  predicate AllBlank(s: string) {
    forall i | 0 <= i < |s| :: s[i] in [' ', '\t', '\r']
  }

  predicate NoBlankEnds(s: string) {
    s != "" ==> s[0] !in [' ', '\t', '\r'] && s[|s| - 1] !in [' ', '\t', '\r']
  }

  /** Trimming takes spaces, tabs and carriage returns off both ends, all of them and nothing else. */
  lemma {:induction false} TrimmedExactly(s: string, t: string)
    ensures Trimmed(s) == t
       <==> NoBlankEnds(t) && exists a, b :: s == a + t + b && AllBlank(a) && AllBlank(b)
  {
    hide *;
    var a, b := TrimmedBetween(s);
    if a, b :| s == a + t + b && AllBlank(a) && AllBlank(b) && NoBlankEnds(t) {
      TrimsTo(a, t, b);
    }
  }

  lemma {:induction false} TrimmedBetween(s: string) returns (a: string, b: string)
    ensures s == a + Trimmed(s) + b && AllBlank(a) && AllBlank(b) && NoBlankEnds(Trimmed(s))
  {
    var x := TrimLeft(s, IsBlank);
    a := TrimmedLeft(s);
    b := TrimmedRight(x);
    if Trimmed(s) != "" {
      assert x[0] == Trimmed(s)[0];
    }
    assert a + (Trimmed(s) + b) == a + Trimmed(s) + b;
  }

  lemma {:induction false} TrimsTo(a: string, t: string, b: string)
    requires AllBlank(a) && AllBlank(b) && NoBlankEnds(t)
    ensures Trimmed(a + t + b) == t
  {
    assert a + t + b == a + (t + b);
    LeftTrims(a, t + b);
    if t == "" {
      assert t + b == b + "";
      LeftTrims(b, "");
    } else {
      assert (t + b)[0] == t[0];
      RightTrims(t, b);
    }
  }

  lemma {:induction false} TrimmedLeft(s: string) returns (a: string)
    ensures s == a + TrimLeft(s, IsBlank) && AllBlank(a)
    ensures TrimLeft(s, IsBlank) != "" ==> !IsBlank(TrimLeft(s, IsBlank)[0])
  {
    a := "";
    if s != "" && IsBlank(s[0]) {
      a := TrimmedLeft(s[1..]);
      a := [s[0]] + a;
    }
  }

  lemma {:induction false} TrimmedRight(s: string) returns (b: string)
    ensures s == TrimRight(s, IsBlank) + b && AllBlank(b)
    ensures TrimRight(s, IsBlank) != "" ==> !IsBlank(TrimRight(s, IsBlank)[|TrimRight(s, IsBlank)| - 1])
  {
    b := "";
    if s != "" && IsBlank(s[|s| - 1]) {
      b := TrimmedRight(s[..|s| - 1]);
      b := b + [s[|s| - 1]];
    }
  }

  lemma {:induction false} LeftTrims(a: string, x: string)
    requires AllBlank(a)
    ensures TrimLeft(a + x, IsBlank) == TrimLeft(x, IsBlank)
  {
    if a == "" {
      assert a + x == x;
    } else {
      LeftTrims(a[1..], x);
      assert (a + x)[1..] == a[1..] + x;
    }
  }

  lemma {:induction false} RightTrims(x: string, b: string)
    requires AllBlank(b)
    ensures TrimRight(x + b, IsBlank) == TrimRight(x, IsBlank)
  {
    if b == "" {
      assert x + b == x;
    } else {
      RightTrims(x, b[..|b| - 1]);
      assert (x + b)[..|x + b| - 1] == x + b[..|b| - 1];
    }
  }

  // ---------- The name in the environment ----------

  /** The capital of a small letter, an underscore for a dash, any other character as it is. */
  function EnvChar(c: char): char {
    if 'a' <= c <= 'z' then (c as int - 'a' as int + 'A' as int) as char else if c == '-' then '_' else c
  }

  lemma {:induction false} DashesAre(s: string)
    requires Ascii(s)
    ensures |Replaced(s, "-", "_")| == |s|
    ensures forall i | 0 <= i < |s| :: Replaced(s, "-", "_")[i] == if s[i] == '-' then '_' else s[i]
  {
    if s != "" {
      DashesAre(s[1..]);
      assert Replaced(s, "-", "_") == [if s[0] == '-' then '_' else s[0]] + Replaced(s[1..], "-", "_") by {
        assert s[..1] == "-" <==> s[0] == '-';
      }
      assert forall i | 0 < i < |s| :: s[i] == s[1..][i - 1];
    }
  }

  /** The variable for a credential: plugin and key with an underscore between, character by character. */
  lemma {:induction false} EnvKeyExactly(plugin: string, key: string)
    requires Ascii(plugin) && Ascii(key)
    ensures var name := plugin + "_" + key;
            |EnvKey(plugin, key)| == |name| && forall i | 0 <= i < |name| :: EnvKey(plugin, key)[i] == EnvChar(name[i])
  {
    var name := plugin + "_" + key;
    assert Ascii(name);
    DashesAre(name);
  }
}
