/** core/context_ceiling.go: trimming a history so that the request fits the model's window. */
module Ceiling {
  import opened Messages
  import opened Pairing
  import opened PairingLaws

  const CEILING_RATIO := 0.90
  const CEILING_UNVALIDATED_RATIO := 0.80
  const ESTIMATE_INFLATION_MAX := 1.5
  const DEFAULT_CEILING_WINDOW := 131072
  const OVERFLOW_INFLATION_MAX := 8.0
  const SLIDE_NOTE_CAP := 64
  const OUTPUT_BUDGET_RESERVE := 512
  const OUTPUT_BUDGET_MIN := 128

  // ---------- The cut ----------

  /** The tail from `k` on fits `limit` together with the tool catalogue. */
  predicate TailFits(e: Estimator, msgs: seq<Message>, tools: nat, limit: int, k: nat)
    requires k <= |msgs|
  {
    tools + TotalTokens(e, msgs[k..]) <= limit
  }

  /** Walks towards the head while the tail still fits. */
  function WalkCut(e: Estimator, msgs: seq<Message>, tools: nat, limit: int, head: nat, cut: nat): (c: nat)
    requires head <= cut < |msgs|
    ensures head <= c <= cut
  {
    if cut == head || !TailFits(e, msgs, tools, limit, cut - 1) then cut
    else WalkCut(e, msgs, tools, limit, head, cut - 1)
  }

  function SkipOrphans(msgs: seq<Message>, cut: nat): (c: nat)
    requires cut <= |msgs|
    ensures cut <= c <= |msgs|
    ensures c < |msgs| ==> !msgs[c].role.Tool?
    ensures forall k | cut <= k < c :: msgs[k].role.Tool?
    decreases |msgs| - cut
  {
    if cut < |msgs| && msgs[cut].role.Tool? then SkipOrphans(msgs, cut + 1) else cut
  }

  function Digits(n: nat): string {
    if n < 10 then [('0' as int + n) as char] else Digits(n / 10) + [('0' as int + n % 10) as char]
  }

  /** The one line that says how much was left out. */
  function SlideNote(dropped: nat, tokens: nat): Message {
    Message("", System,
            "[滑窗] 已省略更早的 " + Digits(dropped) + " 条消息（约 " + Digits(tokens)
            + " tokens）；会话记录仍完整，以下为窗口内的原始消息。", "", [], [])
  }

  // ---------- The trimmed list ----------

  datatype Trim = Trim(kept: seq<Message>, dropped: int)

  /** The budget left once the note's room is set aside. */
  function Reduced(limit: int): int {
    if limit - SLIDE_NOTE_CAP <= 0 then 1 else limit - SLIDE_NOTE_CAP
  }

  function Head(msgs: seq<Message>): (head: nat)
    requires msgs != []
    ensures head < |msgs| && head <= 1
  {
    if msgs[0].role.System? && |msgs| > 1 then 1 else 0
  }

  function RawCut(e: Estimator, msgs: seq<Message>, tools: nat, limit: int): nat
    requires msgs != []
  {
    WalkCut(e, msgs, tools, Reduced(limit), Head(msgs), |msgs| - 1)
  }

  /** Where the kept tail starts. */
  function Cut(e: Estimator, msgs: seq<Message>, tools: nat, limit: int): (c: nat)
    requires msgs != []
    ensures c <= |msgs|
  {
    SkipOrphans(msgs, RawCut(e, msgs, tools, limit))
  }

  function Note(e: Estimator, msgs: seq<Message>, cut: nat, body: seq<Message>): Message
    requires body != [] && msgs != [] && Head(msgs) <= cut <= |msgs|
  {
    var note := SlideNote(cut - Head(msgs), TotalTokens(e, msgs[Head(msgs)..cut]));
    if body[0].role.User? then note else note.(role := User)
  }

  /** The list that keeps the tail from `cut` on; the input itself when that leaves nothing sendable. */
  function CutAt(e: Estimator, msgs: seq<Message>, cut: nat): Trim
    requires msgs != []
  {
    if cut <= Head(msgs) || cut >= |msgs| || Sanitized(msgs[cut..]) == [] then Trim(msgs, 0)
    else
      var body := Sanitized(msgs[cut..]);
      Trim(msgs[..Head(msgs)] + [Note(e, msgs, cut, body)] + body, cut - Head(msgs) + Lost(msgs[cut..], body))
  }

  function Capped(e: Estimator, msgs: seq<Message>, tools: nat, limit: int): Trim {
    if msgs == [] || limit <= 0 || tools + TotalTokens(e, msgs) <= limit then Trim(msgs, 0)
    else CutAt(e, msgs, Cut(e, msgs, tools, limit))
  }

  // ---------- The imperative trim ----------

  method SkipOrphanResults(msgs: seq<Message>, cut0: nat) returns (cut: nat)
    requires cut0 <= |msgs|
    ensures cut == SkipOrphans(msgs, cut0)
  {
    cut := cut0;
    while cut < |msgs| && msgs[cut].role.Tool?
      invariant cut <= |msgs| && SkipOrphans(msgs, cut) == SkipOrphans(msgs, cut0)
    {
      cut := cut + 1;
    }
  }

  method MeasureEach(e: Estimator, msgs: seq<Message>, tools: nat) returns (per: array<int>, total: int)
    ensures fresh(per) && per.Length == |msgs|
    ensures forall k | 0 <= k < |msgs| :: per[k] == MessageTokens(e, msgs[k])
    ensures total == tools + TotalTokens(e, msgs)
  {
    per := new int[|msgs|];
    total := tools;
    for i := 0 to |msgs|
      invariant forall k | 0 <= k < i :: per[k] == MessageTokens(e, msgs[k])
      invariant total + TotalTokens(e, msgs[i..]) == tools + TotalTokens(e, msgs)
    {
      assert msgs[i..][1..] == msgs[i + 1..];
      per[i] := MessageTokens(e, msgs[i]);
      total := total + per[i];
    }
  }

  method FindCut(
    e: Estimator, msgs: seq<Message>, per: array<int>, tools: nat, limit: int, head: nat) returns (cut: nat)
    requires head < |msgs| == per.Length
    requires forall k | 0 <= k < |msgs| :: per[k] == MessageTokens(e, msgs[k])
    ensures cut == WalkCut(e, msgs, tools, limit, head, |msgs| - 1)
  {
    cut := |msgs| - 1;
    var acc := per[|msgs| - 1] + tools;
    assert msgs[|msgs| - 1..][1..] == [];
    var i := |msgs| - 2;
    while i >= head
      invariant head <= i + 1 == cut < |msgs|
      invariant acc == tools + TotalTokens(e, msgs[cut..])
      invariant WalkCut(e, msgs, tools, limit, head, cut) == WalkCut(e, msgs, tools, limit, head, |msgs| - 1)
    {
      assert msgs[i..][1..] == msgs[i + 1..];
      if acc + per[i] > limit {
        break;
      }
      acc := acc + per[i];
      cut := i;
      i := i - 1;
    }
  }

  method ChooseCut(
    e: Estimator, msgs: seq<Message>, per: array<int>, tools: nat, limit0: int) returns (head: nat, cut: nat)
    requires 0 < |msgs| == per.Length
    requires forall k | 0 <= k < |msgs| :: per[k] == MessageTokens(e, msgs[k])
    ensures head == Head(msgs) && cut == Cut(e, msgs, tools, limit0)
  {
    var limit := limit0 - SLIDE_NOTE_CAP;
    if limit <= 0 {
      limit := 1;
    }
    head := 0;
    if msgs[0].role.System? && |msgs| > 1 {
      head := 1;
    }
    cut := FindCut(e, msgs, per, tools, limit, head);
    cut := SkipOrphanResults(msgs, cut);
  }

  method KeepFrom(e: Estimator, msgs: seq<Message>, head: nat, cut: nat) returns (kept: seq<Message>, dropped: int)
    requires msgs != [] && head == Head(msgs)
    ensures Trim(kept, dropped) == CutAt(e, msgs, cut)
  {
    if cut <= head || cut >= |msgs| {
      return msgs, 0;
    }
    var body, bodyDropped := SanitizeToolPairing(msgs[cut..]);
    if |body| == 0 {
      return msgs, 0;
    }
    var note := SlideNote(cut - head, TotalTokens(e, msgs[head..cut]));
    if !body[0].role.User? {
      note := note.(role := User);
    }
    kept := [];
    if head == 1 {
      kept := kept + [msgs[0]];
    }
    assert kept == msgs[..head];
    kept := kept + [note];
    kept := kept + body;
    dropped := cut - head + bodyDropped;
  }

  /** Drops from the head until the rest fits; the kept messages are originals behind one note. */
  method CapMessagesToWindow(e: Estimator, msgs: seq<Message>, tools: nat, limit: int)
    returns (kept: seq<Message>, dropped: int)
    ensures Trim(kept, dropped) == Capped(e, msgs, tools, limit)
  {
    if |msgs| == 0 || limit <= 0 {
      return msgs, 0;
    }
    var per, total := MeasureEach(e, msgs, tools);
    if total <= limit {
      return msgs, 0;
    }
    var head, cut := ChooseCut(e, msgs, per, tools, limit);
    kept, dropped := KeepFrom(e, msgs, head, cut);
  }

  // ---------- The ceiling ----------

  datatype Verdict = Verdict(out: seq<Message>, dropped: int, before: int, after: int, fits: bool)

  /** What the provider is expected to count for an estimate of `n`; Go truncates the product. */
  function Scaled(n: int, inflation: real): int {
    (n as real * inflation).Floor
  }

  /** Only ever scales up. */
  function AtLeastOne(inflation: real): (f: real)
    ensures f >= 1.0
  {
    if inflation < 1.0 then 1.0 else inflation
  }

  function SaneRatio(ratio: real): (r: real)
    ensures 0.0 < r <= 1.0
  {
    if ratio <= 0.0 || ratio > 1.0 then CEILING_RATIO else ratio
  }

  function Share(window: int, ratio: real): int {
    (window as real * ratio).Floor
  }

  function Shrunk(limit: int, f: real): int
    requires f >= 1.0
  {
    if f > 1.0 then (limit as real / f).Floor else limit
  }

  function LimitFor(window: int, inflation: real, ratio: real): int {
    Shrunk(Share(window, SaneRatio(ratio)), AtLeastOne(inflation))
  }

  function EnforceCeiling(
    e: Estimator, msgs: seq<Message>, tools: nat, window: int, inflation: real, ratio: real): Verdict {
    if window <= 0 || msgs == [] then Verdict(msgs, 0, 0, 0, true)
    else
      var before := TotalTokens(e, msgs) + tools;
      if Scaled(before, AtLeastOne(inflation)) <= window then Verdict(msgs, 0, before, before, true)
      else
        var limit := LimitFor(window, inflation, ratio);
        var trim := Capped(e, msgs, tools, limit);
        var after := TotalTokens(e, trim.kept) + tools;
        if trim.dropped == 0 then Verdict(msgs, 0, before, before, after <= limit)
        else Verdict(trim.kept, trim.dropped, before, after, after <= limit)
  }

  /** The max_tokens a frame can carry; 0 leaves the field to the provider. */
  function OutputBudget(surface: int, window: int, cap: int, explicitCap: bool): (budget: int)
    ensures budget >= 0 && (budget > 0 ==> surface + budget + OUTPUT_BUDGET_RESERVE <= window)
    ensures budget > 0 && cap > 0 ==> budget <= cap
  {
    if window <= 0 || explicitCap then 0
    else
      var room := window - surface - OUTPUT_BUDGET_RESERVE;
      if room < OUTPUT_BUDGET_MIN then 0
      else if cap > 0 && cap < room then cap
      else room
  }

  // ---------- Where the cut falls ----------

  lemma {:induction false} TailGrows(e: Estimator, msgs: seq<Message>, i: nat, j: nat)
    requires i <= j <= |msgs|
    ensures TotalTokens(e, msgs[j..]) <= TotalTokens(e, msgs[i..])
  {
    assert msgs[i..][j - i..] == msgs[j..];
    TotalTokensSplit(e, msgs[i..], j - i);
  }

  /** The walk stops at the earliest start whose tail fits, and never passes the last message. */
  lemma {:induction false} CutIsEarliest(e: Estimator, msgs: seq<Message>, tools: nat, limit: int, head: nat, cut: nat)
    requires head <= cut < |msgs|
    requires cut < |msgs| - 1 ==> TailFits(e, msgs, tools, limit, cut)
    ensures var c := WalkCut(e, msgs, tools, limit, head, cut);
            && (c < |msgs| - 1 ==> TailFits(e, msgs, tools, limit, c))
            && forall k | head <= k < c :: !TailFits(e, msgs, tools, limit, k)
    decreases cut
  {
    if cut > head && TailFits(e, msgs, tools, limit, cut - 1) {
      CutIsEarliest(e, msgs, tools, limit, head, cut - 1);
    } else {
      forall k | head <= k < cut
        ensures !TailFits(e, msgs, tools, limit, k)
      {
        TailGrows(e, msgs, k, cut - 1);
      }
    }
  }

  // ---------- The shape of a trimmed list ----------

  predicate Trims(e: Estimator, msgs: seq<Message>, tools: nat, limit: int) {
    Capped(e, msgs, tools, limit).dropped != 0
  }

  /** A list that comes back with nothing dropped is the input, and nothing is ever dropped negatively. */
  lemma {:induction false} UntrimmedIsInput(e: Estimator, msgs: seq<Message>, tools: nat, limit: int)
    ensures Capped(e, msgs, tools, limit).dropped >= 0
    ensures !Trims(e, msgs, tools, limit) ==> Capped(e, msgs, tools, limit).kept == msgs
  {
    if msgs != [] && Cut(e, msgs, tools, limit) <= |msgs| {
      LostIsNatural(msgs[Cut(e, msgs, tools, limit)..]);
    }
  }

  /** The parts of a trimmed list: the kept system message if any, the note, the body. */
  lemma {:induction false} TrimShape(e: Estimator, msgs: seq<Message>, tools: nat, limit: int)
    requires Trims(e, msgs, tools, limit)
    ensures msgs != [] && Head(msgs) < Cut(e, msgs, tools, limit) < |msgs|
    ensures var head, cut := Head(msgs), Cut(e, msgs, tools, limit);
            var kept := Capped(e, msgs, tools, limit).kept;
            var body := kept[head + 1..];
            && |kept| > head + 1
            && kept[..head] == msgs[..head]
            && body == Sanitized(msgs[cut..])
            && kept[head] == Note(e, msgs, cut, body)
            && !body[0].role.Tool?
            && (kept[head].role.User? || (kept[head].role.System? && body[0].role.User?))
            && (head == 1 ==> kept[0].role.System?)
            && (Bystander(msgs[|msgs| - 1]) ==> kept[|kept| - 1] == msgs[|msgs| - 1])
  {
    hide Sanitized, TotalTokens, Cut, Lost;
    var head, cut := Head(msgs), Cut(e, msgs, tools, limit);
    var tail := msgs[cut..];
    var kept := Capped(e, msgs, tools, limit).kept;
    var body := Sanitized(tail);
    assert kept == msgs[..head] + [Note(e, msgs, cut, body)] + body;
    assert kept[head + 1..] == body && kept[head] == Note(e, msgs, cut, body);
    BodyEnds(tail);
  }

  lemma {:induction false} BodyEnds(tail: seq<Message>)
    requires tail != []
    ensures var body := Sanitized(tail);
            && (body != [] ==> !body[0].role.Tool?)
            && (Bystander(tail[|tail| - 1]) ==> body != [] && body[|body| - 1] == tail[|tail| - 1])
  {
    NoLeadingResult(tail, ResultIndex(tail), {});
    if Bystander(tail[|tail| - 1]) {
      RebuiltLast(tail, ResultIndex(tail), {});
    }
  }

  lemma {:induction false} RawCutFits(e: Estimator, msgs: seq<Message>, tools: nat, limit: int)
    requires msgs != []
    ensures Head(msgs) <= RawCut(e, msgs, tools, limit) < |msgs|
    ensures RawCut(e, msgs, tools, limit) < |msgs| - 1 ==>
              TailFits(e, msgs, tools, Reduced(limit), RawCut(e, msgs, tools, limit))
    ensures forall k | Head(msgs) <= k < RawCut(e, msgs, tools, limit) :: !TailFits(e, msgs, tools, Reduced(limit), k)
  {
    CutIsEarliest(e, msgs, tools, Reduced(limit), Head(msgs), |msgs| - 1);
  }

  /** What survives fits the reduced limit, unless only the last message could be kept; and no start
      before the first fitting one would have fit. */
  lemma {:induction false} TrimFits(e: Estimator, msgs: seq<Message>, tools: nat, limit: int)
    requires Trims(e, msgs, tools, limit)
    ensures Cut(e, msgs, tools, limit) < |msgs| - 1 ==>
              TotalTokens(e, Sanitized(msgs[Cut(e, msgs, tools, limit)..])) + tools <= Reduced(limit)
    ensures forall k | Head(msgs) <= k < RawCut(e, msgs, tools, limit) :: !TailFits(e, msgs, tools, Reduced(limit), k)
  {
    var raw, cut := RawCut(e, msgs, tools, limit), Cut(e, msgs, tools, limit);
    RawCutFits(e, msgs, tools, limit);
    if cut < |msgs| - 1 {
      TailGrows(e, msgs, raw, cut);
      TokensNeverRise(e, msgs[cut..]);
    }
  }

  /** Trim, then repair: the repair finds nothing to do. */
  lemma {:induction false} TrimIsStable(e: Estimator, msgs: seq<Message>, tools: nat, limit: int)
    requires Trims(e, msgs, tools, limit)
    ensures var kept := Capped(e, msgs, tools, limit).kept;
            Sanitized(kept) == kept && Lost(kept, Sanitized(kept)) == 0
  {
    TrimShape(e, msgs, tools, limit);
    hide Trims, Cut, TotalTokens, Sanitized;
    var head, cut := Head(msgs), Cut(e, msgs, tools, limit);
    var kept := Capped(e, msgs, tools, limit).kept;
    var prefix, body := kept[..head + 1], kept[head + 1..];
    assert kept == prefix + body;
    SanitizedIdempotent(msgs[cut..]);
    CommutesWithPrefix(prefix, body);
  }

  // ---------- Nothing over the window is sent ----------

  lemma {:induction false} ScaleBack(n: int, m: int, f: real)
    requires f > 0.0 && n <= (m as real / f).Floor
    ensures n as real * f <= m as real
  {
    var q := m as real / f;
    assert n as real <= q;
    assert n as real * f <= q * f;
    assert q * f == m as real;
  }

  lemma {:induction false} ScaledMonotone(a: int, b: int, f: real)
    requires a <= b && f > 0.0
    ensures a as real * f <= b as real * f
    ensures Scaled(a, f) <= Scaled(b, f)
  {
    assert (b - a) as real * f >= 0.0;
    assert b as real * f - a as real * f == (b - a) as real * f;
  }

  lemma {:induction false} ShareOf(window: int, r: real)
    requires window > 0 && 0.0 < r <= 1.0
    ensures 0 <= Share(window, r) <= window
  {
    assert window as real * (1.0 - r) >= 0.0;
    assert window as real * r == window as real - window as real * (1.0 - r);
    assert window as real * r >= 0.0;
  }

  lemma {:induction false} ShrunkIsSafe(n: int, limit: int, window: int, f: real)
    requires f >= 1.0 && limit <= window && n <= Shrunk(limit, f)
    ensures Scaled(n, f) <= window
  {
    if f > 1.0 {
      ScaleBack(n, limit, f);
    } else {
      assert n as real * f == n as real;
    }
  }

  /** An estimate within the limit is within the window once scaled up. */
  lemma {:induction false} LimitIsSafe(n: int, window: int, inflation: real, ratio: real)
    requires window > 0 && n <= LimitFor(window, inflation, ratio)
    ensures Scaled(n, AtLeastOne(inflation)) <= window
  {
    ShareOf(window, SaneRatio(ratio));
    ShrunkIsSafe(n, Share(window, SaneRatio(ratio)), window, AtLeastOne(inflation));
  }

  /** On every exit that says it fits, the scaled estimate of what goes out is within the window; the exit
      with nothing to drop never says it fits unless the input fitted to begin with. */
  lemma {:induction false} FitMeansWithinWindow(
    e: Estimator, msgs: seq<Message>, tools: nat, window: int, inflation: real, ratio: real)
    requires window > 0 && msgs != []
    ensures var v := EnforceCeiling(e, msgs, tools, window, inflation, ratio);
            && v.after == TotalTokens(e, v.out) + tools
            && (v.fits ==> Scaled(v.after, AtLeastOne(inflation)) <= window)
            && (v.dropped == 0 ==> v.out == msgs)
            && (v.dropped == 0 ==> (v.fits <==> Scaled(TotalTokens(e, msgs) + tools, AtLeastOne(inflation)) <= window))
  {
    hide Scaled, Shrunk, Share, Capped, TotalTokens, AtLeastOne, SaneRatio;
    var v := EnforceCeiling(e, msgs, tools, window, inflation, ratio);
    UntrimmedIsInput(e, msgs, tools, LimitFor(window, inflation, ratio));
    if v.after <= LimitFor(window, inflation, ratio) {
      LimitIsSafe(v.after, window, inflation, ratio);
    }
  }

  lemma {:induction false} RepairStaysWithin(e: Estimator, out: seq<Message>, tools: nat, window: int, f: real)
    requires f >= 1.0 && Scaled(TotalTokens(e, out) + tools, f) <= window
    ensures Scaled(TotalTokens(e, Sanitized(out)) + tools, f) <= window
  {
    hide *;
    TokensNeverRise(e, out);
    ScaledMonotone(TotalTokens(e, Sanitized(out)) + tools, TotalTokens(e, out) + tools, f);
  }

  lemma {:induction false} AcceptedIsWithin(
    e: Estimator, msgs: seq<Message>, tools: nat, window: int, inflation: real, ratio: real, v: Verdict)
    requires window > 0 && msgs != [] && v == EnforceCeiling(e, msgs, tools, window, inflation, ratio) && v.fits
    ensures Scaled(TotalTokens(e, v.out) + tools, AtLeastOne(inflation)) <= window
  {
    hide *;
    FitMeansWithinWindow(e, msgs, tools, window, inflation, ratio);
  }

  /** The later pairing repair keeps an accepted request within the window. */
  lemma {:induction false} RepairKeepsFit(
    e: Estimator, msgs: seq<Message>, tools: nat, window: int, inflation: real, ratio: real, v: Verdict)
    requires window > 0 && msgs != [] && v == EnforceCeiling(e, msgs, tools, window, inflation, ratio) && v.fits
    ensures Scaled(TotalTokens(e, Sanitized(v.out)) + tools, AtLeastOne(inflation)) <= window
  {
    hide *;
    AcceptedIsWithin(e, msgs, tools, window, inflation, ratio, v);
    RepairStaysWithin(e, v.out, tools, window, AtLeastOne(inflation));
  }

  /** The later pairing repair leaves a trimmed request alone. */
  lemma {:induction false} RepairKeepsTrim(
    e: Estimator, msgs: seq<Message>, tools: nat, window: int, inflation: real, ratio: real)
    requires EnforceCeiling(e, msgs, tools, window, inflation, ratio).dropped > 0
    ensures var out := EnforceCeiling(e, msgs, tools, window, inflation, ratio).out;
            Sanitized(out) == out && Lost(out, Sanitized(out)) == 0
  {
    TrimIsStable(e, msgs, tools, LimitFor(window, inflation, ratio));
  }
}
