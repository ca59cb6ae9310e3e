/** core/overflow_adjust.go: what a run of refusals comes to, read off its reports. */
module OverflowMeaning {
  import opened Wrappers
  import opened Overflow

  /** The bias one refusal shows, between 1 and 8: its count over the estimate, or if it names none what the estimate
      was over the window. */
  function Bias(window: int, r: Report): real {
    var q := if r.actual > 0 && r.sent > 0 then r.actual as real / r.sent as real
             else if 0 < window < r.sent then r.sent as real / window as real else 1.0;
    if q <= 1.0 then 1.0 else if q >= 8.0 then 8.0 else q
  }

  /** A limit some refusal named, or one known before. */
  ghost predicate IsNamed(t: Tight, reports: seq<Report>, n: int) {
    n > 0 && ((t.adj.Some? && t.adj.value.maxTokens == n) || exists i :: 0 <= i < |reports| && reports[i].max == n)
  }

  /** The window known before, or a limit of at least 1024 tokens that some refusal named. */
  ghost predicate IsOffered(t: Tight, reports: seq<Report>, n: int) {
    (n > 0 && t.window == n) || (n >= 1024 && exists i :: 0 <= i < |reports| && reports[i].max == n)
  }

  /** A bias some refusal showed, in the window it met, or one known before. */
  ghost predicate IsShown(t: Tight, reports: seq<Report>, f: real) {
    || (t.adj.Some? && t.adj.value.inflation == f)
    || exists i :: 0 <= i < |reports| && f == Bias(t.After(reports[..i]).window, reports[i])
  }

  /** 0 if no limit was named, or else the least. */
  ghost predicate Strictest(t: Tight, reports: seq<Report>, n: int) {
    if exists m :: IsNamed(t, reports, m) then IsNamed(t, reports, n) && forall m | IsNamed(t, reports, m) :: n <= m
    else n == 0
  }

  /** The least window on offer; the unknown one if there is none. */
  ghost predicate Smallest(t: Tight, reports: seq<Report>, n: int) {
    if exists m :: IsOffered(t, reports, m) then
      IsOffered(t, reports, n) && forall m | IsOffered(t, reports, m) :: n <= m
    else n == t.window
  }

  ghost predicate Largest(t: Tight, reports: seq<Report>, f: real) {
    IsShown(t, reports, f) && forall g | IsShown(t, reports, g) :: g <= f
  }

  function Attempts(t: Tight): int {
    if t.adj.Some? then t.adj.value.attempts else 0
  }

  /** The refusals are counted, the strictest limit and the largest bias are known, and the window is the smallest. */
  ghost predicate Taught(t: Tight, reports: seq<Report>, u: Tight) {
    && u.named && u.validated == t.validated && u.anchored == t.anchored
    && Attempts(u) == Attempts(t) + |reports| && (u.adj.None? <==> t.adj.None? && reports == [])
    && Strictest(t, reports, if u.adj.Some? then u.adj.value.maxTokens else 0)
    && (u.adj.Some? ==> Largest(t, reports, u.adj.value.inflation))
    && Smallest(t, reports, u.window)
  }

  /** Any run of refusals of a named session comes to just that. */
  lemma {:induction false} RunTeaches(t: Tight, reports: seq<Report>)
    requires t.named && t.Sound()
    ensures Taught(t, reports, t.After(reports))
  {
    if reports == [] {
      NothingTaught(t);
    } else {
      var k := |reports| - 1;
      var rest, r := reports[..k], reports[k];
      assert reports == rest + [r] && [r][1..] == [];
      RunTeaches(t, rest);
      AfterAppend(t, rest, [r]);
      hide Taught;
      TaughtMore(t, rest, t.After(rest), r);
    }
  }

  lemma {:induction false} NothingTaught(t: Tight)
    requires t.named && t.Sound()
    ensures Taught(t, [], t)
  {
    if t.adj.Some? {
      assert t.adj.value.maxTokens > 0 ==> IsNamed(t, [], t.adj.value.maxTokens);
      assert IsShown(t, [], t.adj.value.inflation);
    }
    assert t.window > 0 ==> IsOffered(t, [], t.window);
  }

  lemma {:induction false} TaughtMore(t: Tight, rest: seq<Report>, s: Tight, r: Report)
    requires t.named && s == t.After(rest) && Taught(t, rest, s)
    ensures Taught(t, rest + [r], s.Noted(r))
  {
    StrictestMore(t, rest, if s.adj.Some? then s.adj.value.maxTokens else 0, r);
    SmallestMore(t, rest, s.window, r);
    LargestMore(t, rest, s, r);
    BiasIs(s.window, r);
    hide Strictest, Smallest, Largest, Bias, Clamp, MeasuredInflation, LoweredWindow;
  }

  lemma {:induction false} StrictestMore(t: Tight, rest: seq<Report>, n: int, r: Report)
    requires Strictest(t, rest, n)
    ensures Strictest(t, rest + [r], StricterMax(n, r.max))
  {
    NamedMore(t, rest, r);
    hide IsNamed;
    if r.max > 0 {
      assert IsNamed(t, rest + [r], r.max);
    }
    if n > 0 && IsNamed(t, rest, n) {
      assert IsNamed(t, rest + [r], n);
    }
  }

  lemma {:induction false} SmallestMore(t: Tight, rest: seq<Report>, n: int, r: Report)
    requires Smallest(t, rest, n)
    ensures Smallest(t, rest + [r], LoweredWindow(n, r.max))
  {
    OfferedMore(t, rest, r);
    hide IsOffered;
    if r.max >= 1024 {
      assert IsOffered(t, rest + [r], r.max);
    }
    if IsOffered(t, rest, n) {
      assert IsOffered(t, rest + [r], n);
    }
  }

  lemma {:induction false} LargestMore(t: Tight, rest: seq<Report>, s: Tight, r: Report)
    requires s == t.After(rest) && (s.adj.None? <==> t.adj.None? && rest == [])
    requires s.adj.Some? ==> Largest(t, rest, s.adj.value.inflation)
    ensures var f := Bias(s.window, r);
            Largest(t, rest + [r], if s.adj.Some? && s.adj.value.inflation > f then s.adj.value.inflation else f)
  {
    ShownMore(t, rest, r);
    hide IsShown, Bias;
    var f := Bias(s.window, r);
    assert IsShown(t, rest + [r], f);
    if s.adj.Some? {
      assert IsShown(t, rest + [r], s.adj.value.inflation);
    }
  }

  lemma {:induction false} BiasIs(window: int, r: Report)
    ensures Clamp(MeasuredInflation(window, r)) == Bias(window, r) >= 1.0
  {
  }

  lemma {:induction false} NamedMore(t: Tight, rest: seq<Report>, r: Report)
    ensures forall n :: IsNamed(t, rest + [r], n) <==> IsNamed(t, rest, n) || (n > 0 && r.max == n)
    ensures forall n | IsNamed(t, rest, n) :: n > 0
  {
    var all := rest + [r];
    assert all[|rest|] == r && forall i | 0 <= i < |rest| :: all[i] == rest[i];
  }

  lemma {:induction false} OfferedMore(t: Tight, rest: seq<Report>, r: Report)
    ensures forall n :: IsOffered(t, rest + [r], n) <==> IsOffered(t, rest, n) || (n >= 1024 && r.max == n)
    ensures forall n | IsOffered(t, rest, n) :: n > 0
    ensures t.window > 0 ==> IsOffered(t, rest, t.window)
  {
    var all := rest + [r];
    assert all[|rest|] == r && forall i | 0 <= i < |rest| :: all[i] == rest[i];
  }

  lemma {:induction false} ShownMore(t: Tight, rest: seq<Report>, r: Report)
    ensures forall f :: IsShown(t, rest + [r], f) <==> IsShown(t, rest, f) || f == Bias(t.After(rest).window, r)
    ensures t.adj.None? && rest == [] ==> forall f :: !IsShown(t, rest, f)
  {
    var all := rest + [r];
    assert all[|rest|] == r && all[..|rest|] == rest;
    assert forall i | 0 <= i < |rest| :: all[i] == rest[i] && all[..i] == rest[..i];
    hide Bias;
  }

  /** The window requests are measured against is the smaller of the known one and the strictest named, 131072 if
      neither is known. */
  lemma {:induction false} WindowExactly(window: int, adj: Option<Adjustment>)
    ensures var named := if adj.Some? then adj.value.maxTokens else 0;
            var w := CeilingWindow(window, adj);
            && (window > 0 ==> w <= window) && (named > 0 ==> w <= named)
            && (w == 131072 || (w == window > 0) || (w == named > 0))
            && (window <= 0 && named <= 0 ==> w == 131072)
            && (window > 0 && named <= 0 ==> w == window) && (window <= 0 && named > 0 ==> w == named)
  {
  }

  /** The allowed share of the window: 0.90, or 0.80 while nothing of the session has been counted, and at most 0.78,
      0.68 and 0.60 after one, two and more refusals. */
  lemma {:induction false} RatioExactly(validated: bool, adj: Option<Adjustment>)
    ensures var most := if adj.None? || adj.value.attempts <= 0 then 1.0
                        else if adj.value.attempts == 1 then 0.78 else if adj.value.attempts == 2 then 0.68 else 0.60;
            var usual := if validated then 0.90 else 0.80;
            CeilingRatio(validated, adj) == if most < usual then most else usual
  {
  }
}
