/** core/context_search_tool.go: reading one recorded message in pages that fit the request's headroom. */
module Paging {
  import opened Messages
  import opened Ceiling

  const MIN_FETCH_TOKENS := 1000
  const UNKNOWN_WINDOW_CHARS := 8000

  // ---------- The longest prefix within a budget ----------

  predicate Fits(est: string -> nat, text: string, budget: int, n: nat) {
    n <= |text| && est(text[..n]) <= budget
  }

  /** A prefix that fits (or is empty) while one more character does not; without a budget a fixed length. */
  predicate Fitted(est: string -> nat, text: string, budget: int, n: nat) {
    if budget <= 0 then n == if |text| < UNKNOWN_WINDOW_CHARS then |text| else UNKNOWN_WINDOW_CHARS
    else
      && n <= |text|
      && (n == 0 || Fits(est, text, budget, n))
      && (n < |text| ==> !Fits(est, text, budget, n + 1))
  }

  method FitRunes(est: string -> nat, text: string, budget: int) returns (n: nat)
    ensures n <= |text| && Fitted(est, text, budget, n)
  {
    if |text| == 0 {
      return 0;
    }
    if budget <= 0 {
      return if |text| < UNKNOWN_WINDOW_CHARS then |text| else UNKNOWN_WINDOW_CHARS;
    }
    var lo, hi := 0, |text|;
    while lo < hi
      invariant 0 <= lo <= hi <= |text|
      invariant lo == 0 || Fits(est, text, budget, lo)
      invariant hi < |text| ==> !Fits(est, text, budget, hi + 1)
    {
      var mid := (lo + hi + 1) / 2;
      if est(text[..mid]) <= budget {
        lo := mid;
      } else {
        hi := mid - 1;
      }
    }
    return lo;
  }

  /** Longer prefixes of the text never cost less. */
  ghost predicate Monotone(est: string -> nat, text: string) {
    forall i, j | 0 <= i <= j <= |text| :: est(text[..i]) <= est(text[..j])
  }

  /** Without a budget the whole text is taken, or 8000 characters of it. */
  lemma {:induction false} UnknownWindowExactly(est: string -> nat, text: string, budget: int, n: nat)
    requires budget <= 0
    ensures Fitted(est, text, budget, n) <==> n <= |text| && n <= 8000 && (n < |text| ==> n == 8000)
  {
  }

  /** If the estimator is monotone on the text, the answer is the one longest prefix that fits. */
  lemma {:induction false} FittedIsLargest(est: string -> nat, text: string, budget: int, n: nat)
    requires budget > 0 && Monotone(est, text) && est("") <= budget
    ensures Fitted(est, text, budget, n)
          <==> Fits(est, text, budget, n) && forall k: nat | Fits(est, text, budget, k) :: k <= n
  {
    assert text[..0] == "";
    if Fitted(est, text, budget, n) {
      forall k: nat | n < k <= |text|
        ensures !Fits(est, text, budget, k)
      {
        assert est(text[..n + 1]) <= est(text[..k]);
      }
    }
  }

  // ---------- One fetch ----------

  /** A page: the slice it shows, and the offset to read on from if it stops short. */
  datatype Page = Page(start: nat, end: nat, body: string, more: bool)

  /** The page a fetch may answer with. */
  ghost predicate Answers(est: string -> nat, full: string, budget: int, maxChars: int, offset: int, page: Page) {
    && page.start == (if offset < 0 then 0 else if offset > |full| then |full| else offset)
    && page.start <= page.end <= |full| && page.body == full[page.start..page.end]
    && (page.more <==> page.end < |full|)
    && exists n: nat :: Fitted(est, full[page.start..], budget, n)
         && page.end - page.start == if 0 < maxChars < n then maxChars else n
  }

  method FetchMessage(est: string -> nat, full: string, budget: int, maxChars: int, offset0: int) returns (page: Page)
    ensures Answers(est, full, budget, maxChars, offset0, page)
  {
    var offset := offset0;
    if offset < 0 {
      offset := 0;
    }
    if offset > |full| {
      offset := |full|;
    }
    var fitted := FitRunes(est, full[offset..], budget);
    var count := fitted;
    if 0 < maxChars < count {
      count := maxChars;
    }
    var end := offset + count;
    page := Page(offset, end, full[offset..end], end < |full|);
    assert Fitted(est, full[page.start..], budget, fitted);
  }

  /** With budget for one character of what is left, or with the window unknown, a fetch gets on; with a monotone
      estimator only then. */
  lemma {:induction false} FetchGetsOn(
    est: string -> nat, full: string, budget: int, maxChars: int, offset: nat, page: Page)
    requires offset < |full| && Answers(est, full, budget, maxChars, offset, page)
    ensures budget <= 0 || est([full[offset]]) <= budget ==> page.end > page.start
    ensures Monotone(est, full[offset..]) ==> (page.end > page.start <==> budget <= 0 || est([full[offset]]) <= budget)
  {
    var rest := full[offset..];
    assert rest[..1] == [full[offset]];
    var n: nat :| Fitted(est, rest, budget, n) && page.end - page.start == if 0 < maxChars < n then maxChars else n;
    if n > 0 && Monotone(est, rest) && budget > 0 {
      assert est(rest[..1]) <= est(rest[..n]);
    }
  }

  // ---------- Reading on ----------

  /** The offset of the i-th fetch: the start, or where the page before it stopped short. */
  function OffsetAt(pages: seq<Page>, i: nat): nat
    requires i <= |pages|
  {
    if i == 0 then 0 else pages[i - 1].end
  }

  ghost predicate Turn(est: string -> nat, full: string, budget: int, maxChars: int, pages: seq<Page>, i: nat)
    requires i < |pages|
  {
    (i > 0 ==> pages[i - 1].more) && Answers(est, full, budget, maxChars, OffsetAt(pages, i), pages[i])
  }

  /** Each page answers a fetch at the offset the one before it named; budgets and caps may differ. */
  ghost predicate Reading(est: string -> nat, full: string, budgets: seq<int>, caps: seq<int>, pages: seq<Page>) {
    && |pages| == |budgets| == |caps|
    && forall i | 0 <= i < |pages| :: Turn(est, full, budgets[i], caps[i], pages, i)
  }

  lemma {:induction false} ReadingBefore(
    est: string -> nat, full: string, budgets: seq<int>, caps: seq<int>, pages: seq<Page>)
    requires Reading(est, full, budgets, caps, pages) && pages != []
    ensures var k := |pages| - 1; Reading(est, full, budgets[..k], caps[..k], pages[..k])
  {
    var k := |pages| - 1;
    forall i | 0 <= i < k
      ensures Turn(est, full, budgets[..k][i], caps[..k][i], pages[..k], i)
    {
      assert Turn(est, full, budgets[i], caps[i], pages, i);
      assert OffsetAt(pages[..k], i) == OffsetAt(pages, i);
    }
  }

  function Bodies(pages: seq<Page>): string {
    if pages == [] then "" else Bodies(pages[..|pages| - 1]) + pages[|pages| - 1].body
  }

  /** At any point what was read is the text up to the last page's end. */
  lemma {:induction false} ReadSoFar(
    est: string -> nat, full: string, budgets: seq<int>, caps: seq<int>, pages: seq<Page>)
    requires Reading(est, full, budgets, caps, pages) && pages != []
    ensures pages[|pages| - 1].end <= |full| && Bodies(pages) == full[..pages[|pages| - 1].end]
    decreases |pages|
  {
    var k := |pages| - 1;
    var last := pages[k];
    assert Turn(est, full, budgets[k], caps[k], pages, k);
    if k == 0 {
      assert pages[..0] == [];
    } else {
      var fewer := pages[..k];
      ReadingBefore(est, full, budgets, caps, pages);
      ReadSoFar(est, full, budgets[..k], caps[..k], fewer);
      assert fewer[k - 1] == pages[k - 1];
      assert last.start == pages[k - 1].end;
      assert full[..last.end] == full[..last.start] + full[last.start..last.end];
    }
  }

  /** A reading whose last page says there is no more has read exactly the whole text. */
  lemma {:induction false} ReadingIsWhole(
    est: string -> nat, full: string, budgets: seq<int>, caps: seq<int>, pages: seq<Page>)
    requires Reading(est, full, budgets, caps, pages) && pages != []
    ensures !pages[|pages| - 1].more <==> Bodies(pages) == full
  {
    ReadSoFar(est, full, budgets, caps, pages);
    assert Turn(est, full, budgets[|pages| - 1], caps[|pages| - 1], pages, |pages| - 1);
    var end := pages[|pages| - 1].end;
    assert full[..|full|] == full;
    assert |full[..end]| == end;
  }

  /** If every budget has room for any one character, no reading takes more fetches than the text has characters,
      or one for an empty text. */
  lemma {:induction false} ReadingEnds(
    est: string -> nat, full: string, budgets: seq<int>, caps: seq<int>, pages: seq<Page>)
    requires Reading(est, full, budgets, caps, pages) && pages != []
    requires forall i, c | 0 <= i < |budgets| && c in full :: budgets[i] <= 0 || est([c]) <= budgets[i]
    ensures |pages| <= pages[|pages| - 1].end || full == ""
    ensures |pages| <= if full == "" then 1 else |full|
    decreases |pages|
  {
    var k := |pages| - 1;
    var last := pages[k];
    assert Turn(est, full, budgets[k], caps[k], pages, k);
    if k > 0 {
      var fewer := pages[..k];
      ReadingBefore(est, full, budgets, caps, pages);
      ReadingEnds(est, full, budgets[..k], caps[..k], fewer);
      assert Turn(est, full, budgets[k - 1], caps[k - 1], pages, k - 1);
      assert fewer[k - 1] == pages[k - 1] && pages[k - 1].more;
    }
    if last.start < |full| {
      assert full[last.start] in full;
      FetchGetsOn(est, full, budgets[k], caps[k], last.start, last);
    }
  }

  // ---------- The headroom ----------

  /** The estimate at which a request of this window counts as full. */
  function FullSurface(window: int, inflation: real): int {
    var limit := window as real * CEILING_RATIO;
    (if inflation > 1.0 then limit / inflation else limit).Floor
  }

  /** The tokens a request can still take; 0 while the window is unknown. */
  function HeadroomTokens(window: int, inflation: real, surface: nat): (headroom: int)
    ensures headroom == 0 || headroom >= MIN_FETCH_TOKENS
  {
    if window <= 0 then 0
    else
      var headroom := FullSurface(window, inflation) - surface;
      if headroom < MIN_FETCH_TOKENS then MIN_FETCH_TOKENS else headroom
  }

  /** So many tokens on top of the surface stay, scaled by the known bias, within nine tenths of the window. */
  predicate HasRoom(window: int, inflation: real, surface: nat, tokens: int) {
    (surface + tokens) as real * (if inflation > 1.0 then inflation else 1.0) <= window as real * 0.9
  }

  /** The headroom is the most tokens there is room for, but never under 1000; 0 if and only if there is no window. */
  lemma {:induction false} HeadroomExactly(window: int, inflation: real, surface: nat, headroom: int)
    ensures HeadroomTokens(window, inflation, surface) == headroom
       <==> if window <= 0 then headroom == 0
            else
              && headroom >= 1000 && (headroom > 1000 ==> HasRoom(window, inflation, surface, headroom))
              && !HasRoom(window, inflation, surface, headroom + 1)
  {
    RoomUpToFull(window, inflation, surface, headroom);
    RoomUpToFull(window, inflation, surface, headroom + 1);
    hide HasRoom, FullSurface;
  }

  lemma {:induction false} RoomUpToFull(window: int, inflation: real, surface: nat, tokens: int)
    ensures HasRoom(window, inflation, surface, tokens) <==> surface + tokens <= FullSurface(window, inflation)
  {
    var n, limit := surface + tokens, window as real * CEILING_RATIO;
    if inflation > 1.0 {
      var q := limit / inflation;
      assert q * inflation == limit;
      assert n as real <= q ==> n as real * inflation <= q * inflation;
      assert n as real > q ==> n as real * inflation > q * inflation;
    }
  }

  /** Unless the headroom is the bare minimum, adding a message of up to that many tokens, and more while the excess
      scales to no more than a tenth of the window, leaves a request of that surface untrimmed. */
  lemma {:induction false} HeadroomIsSafe(
    e: Estimator, msgs: seq<Message>, m: Message, tools: nat, window: int, inflation: real, ratio: real, excess: nat)
    requires window > 0
    requires var headroom := HeadroomTokens(window, inflation, TotalTokens(e, msgs) + tools);
             headroom > MIN_FETCH_TOKENS && MessageTokens(e, m) <= headroom + excess
    requires excess as real * AtLeastOne(inflation) <= window as real * (1.0 - CEILING_RATIO)
    ensures var v := EnforceCeiling(e, msgs + [m], tools, window, inflation, ratio);
            v.fits && v.dropped == 0 && v.out == msgs + [m]
  {
    hide *;
    var f := AtLeastOne(inflation);
    var surface := TotalTokens(e, msgs) + tools;
    var headroom := HeadroomTokens(window, inflation, surface);
    OneMore(e, msgs, m);
    RoomIsShare(window, inflation, surface);
    AtLeastOneIs(inflation);
    StillWithin(surface + MessageTokens(e, m), surface + headroom, excess, window, f);
    Untouched(e, msgs + [m], tools, window, inflation, ratio);
  }

  lemma {:induction false} AtLeastOneIs(inflation: real)
    ensures AtLeastOne(inflation) >= 1.0
  {
  }

  lemma {:induction false} OneMore(e: Estimator, msgs: seq<Message>, m: Message)
    ensures TotalTokens(e, msgs + [m]) == TotalTokens(e, msgs) + MessageTokens(e, m)
  {
    TotalTokensAppend(e, msgs, [m]);
    assert [m][1..] == [];
  }

  // Within the window nothing is done.
  lemma {:induction false} Untouched(
    e: Estimator, msgs: seq<Message>, tools: nat, window: int, inflation: real, ratio: real)
    requires window > 0 && msgs != []
    ensures var v := EnforceCeiling(e, msgs, tools, window, inflation, ratio);
            && (v.fits && v.dropped == 0 <==> Scaled(TotalTokens(e, msgs) + tools, AtLeastOne(inflation)) <= window)
            && (v.dropped == 0 ==> v.out == msgs)
  {
    hide *;
    FitMeansWithinWindow(e, msgs, tools, window, inflation, ratio);
    EarlyExit(e, msgs, tools, window, inflation, ratio);
  }

  lemma {:induction false} EarlyExit(
    e: Estimator, msgs: seq<Message>, tools: nat, window: int, inflation: real, ratio: real)
    ensures Scaled(TotalTokens(e, msgs) + tools, AtLeastOne(inflation)) <= window ==>
              EnforceCeiling(e, msgs, tools, window, inflation, ratio).dropped == 0
  {
    hide TotalTokens, Capped, LimitFor, Scaled, AtLeastOne;
  }

  lemma {:induction false} RoomIsShare(window: int, inflation: real, surface: nat)
    requires HeadroomTokens(window, inflation, surface) > MIN_FETCH_TOKENS
    ensures var filled := surface + HeadroomTokens(window, inflation, surface);
            && filled == FullSurface(window, inflation)
            && filled as real * AtLeastOne(inflation) <= window as real * CEILING_RATIO
  {
    WithinShare(FullSurface(window, inflation), window as real * CEILING_RATIO, AtLeastOne(inflation));
  }

  lemma {:induction false} StillWithin(n: int, known: int, excess: nat, window: int, f: real)
    requires f >= 1.0 && n <= known + excess
    requires known as real * f <= window as real * CEILING_RATIO
    requires excess as real * f <= window as real * (1.0 - CEILING_RATIO)
    ensures Scaled(n, f) <= window
  {
    ScaledMonotone(n, known + excess, f);
    assert (known + excess) as real * f == known as real * f + excess as real * f;
    assert window as real * CEILING_RATIO + window as real * (1.0 - CEILING_RATIO) == window as real;
  }

  /** A message that fills the headroom exactly stays untrimmed if and only if a full surface is within the window the
      ceiling enforces, which a refusal may have lowered while the headroom is still taken from the configured one. */
  lemma {:induction false} FilledHeadroomExactly(
    e: Estimator, msgs: seq<Message>, m: Message, tools: nat, window: int, enforced: int, inflation: real, ratio: real)
    requires enforced > 0
          && MessageTokens(e, m) == HeadroomTokens(window, inflation, TotalTokens(e, msgs) + tools) > MIN_FETCH_TOKENS
    ensures var v := EnforceCeiling(e, msgs + [m], tools, enforced, inflation, ratio);
            v.fits && v.dropped == 0 <==> Scaled(FullSurface(window, inflation), AtLeastOne(inflation)) <= enforced
  {
    hide *;
    OneMore(e, msgs, m);
    RoomIsShare(window, inflation, TotalTokens(e, msgs) + tools);
    Untouched(e, msgs + [m], tools, enforced, inflation, ratio);
  }

  lemma {:induction false} WithinShare(n: int, limit: real, f: real)
    requires f >= 1.0 && n <= (if f > 1.0 then limit / f else limit).Floor
    ensures n as real * f <= limit
  {
    var q := limit / f;
    assert q * f == limit;
    assert n as real <= q;
    assert n as real * f <= q * f;
  }
}
