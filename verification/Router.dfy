/** core/llm_router.go and core/llm_pipeline.go: what is sent to a provider, and when a call is repeated. */
module Router {
  import opened Wrappers
  import opened Messages
  import opened Pairing
  import opened PairingLaws
  import opened Ceiling
  import opened CeilingLaws
  import opened Overflow
  import Calibration

  // ---------- The last step before a request goes out ----------

  /** A chat request; the tool catalogue only enters by its estimate. `maxTokens` 0 is not filled. */
  datatype Request = Request(messages: seq<Message>, toolTokens: nat, maxTokens: int, session: string,
      newUserInput: bool)

  datatype Result<+T> = Ok(value: T) | Err

  /** Everything the ceiling reads from the host at one moment. */
  datatype Limits = Limits(window: int, inflation: real, ratio: real, outputCap: int, outputExplicit: bool)

  /** Go's conversion to int32. */
  function AsInt32(n: int): int {
    var r := n % 0x1_0000_0000;
    if r >= 0x8000_0000 then r - 0x1_0000_0000 else r
  }

  /** The one int32 that differs from the number by a multiple of 2 to the 32nd. */
  lemma {:induction false} AsInt32Exactly(n: int, r: int)
    ensures AsInt32(n) == r <==> -2147483648 <= r <= 2147483647 && exists k: int :: n - r == k * 4294967296
  {
    assert n == (n / 4294967296) * 4294967296 + n % 4294967296;
    if AsInt32(n) == r {
      var k := if n % 4294967296 >= 2147483648 then n / 4294967296 + 1 else n / 4294967296;
      assert n - r == k * 4294967296;
    }
    if k: int :| n - r == k * 4294967296 && -2147483648 <= r <= 2147483647 {
      OneRemainder(n, r, k);
    }
  }

  lemma {:induction false} OneRemainder(n: int, r: int, k: int)
    requires n - r == k * 4294967296 && -2147483648 <= r <= 2147483647
    ensures AsInt32(n) == r
  {
    var q, m := n / 4294967296, n % 4294967296;
    assert (k - q) * 4294967296 == m - r;
    if r >= 0 {
      assert -1 < k - q < 1;
    } else {
      assert 0 < k - q < 2;
    }
  }

  function LimitsOf(m: Manager, session: string): Limits
    reads m
  {
    var adj := m.OverflowFor(session);
    Limits(CeilingWindow(m.contextWindow, adj),
           CeilingInflation(m.EstimateInflation(session, m.modelName), adj),
           CeilingRatio(session != "" && session in m.sessionAnchors, adj),
           m.maxOutputBudget, m.maxOutputExplicit)
  }

  /** Measures the rewritten messages, trims them if needed, fills the output budget. */
  function FinishPreStep(
    e: Estimator, limits: Limits, req: Request, msgs: seq<Message>, changed: bool): (r: Result<Request>)
    ensures r.Ok? ==> r.value.session == req.session && r.value.toolTokens == req.toolTokens
  {
    var v := EnforceCeiling(e, msgs, req.toolTokens, limits.window, limits.inflation, limits.ratio);
    if !v.fits then Err
    else
      var budget := if req.maxTokens == 0
                    then OutputBudget(v.after, limits.window, limits.outputCap, limits.outputExplicit) else 0;
      if !changed && v.dropped == 0 && budget == 0 then Ok(req)
      else Ok(req.(messages := v.out, maxTokens := if budget > 0 then AsInt32(budget) else req.maxTokens))
  }

  function Surface(e: Estimator, req: Request): nat {
    TotalTokens(e, req.messages) + req.toolTokens
  }

  function Repaired(req: Request): Request {
    req.(messages := Sanitized(req.messages))
  }

  /** The request, scaled up by the known bias, is within the window. */
  predicate WithinWindow(e: Estimator, limits: Limits, req: Request) {
    Scaled(Surface(e, req), AtLeastOne(limits.inflation)) <= limits.window
  }

  lemma {:induction false} AsInt32Lowers(n: nat)
    ensures AsInt32(n) <= n
    ensures n < 0x8000_0000 ==> AsInt32(n) == n
  {
  }

  /** What is accepted is within the window, before and after the pairing repair, and a trimmed list is
      sent as trimmed. */
  lemma {:induction false} AcceptedRequest(
    e: Estimator, limits: Limits, req: Request, msgs: seq<Message>, changed: bool)
    requires limits.window > 0 && msgs != [] && (!changed ==> msgs == req.messages)
    requires FinishPreStep(e, limits, req, msgs, changed).Ok?
    ensures var out := FinishPreStep(e, limits, req, msgs, changed).value;
            && WithinWindow(e, limits, out)
            && WithinWindow(e, limits, Repaired(out))
            && (out.messages != msgs ==> Repaired(out) == out)
  {
    hide Scaled, Sanitized, TotalTokens, OutputBudget, AsInt32, Lost, EnforceCeiling;
    var v := EnforceCeiling(e, msgs, req.toolTokens, limits.window, limits.inflation, limits.ratio);
    var out := FinishPreStep(e, limits, req, msgs, changed).value;
    FitMeansWithinWindow(e, msgs, req.toolTokens, limits.window, limits.inflation, limits.ratio);
    assert out.messages == v.out;
    AcceptedIsWithin(e, msgs, req.toolTokens, limits.window, limits.inflation, limits.ratio, v);
    RepairKeepsFit(e, msgs, req.toolTokens, limits.window, limits.inflation, limits.ratio, v);
    DroppedIsNatural(e, msgs, req.toolTokens, limits.window, limits.inflation, limits.ratio);
    if v.dropped > 0 {
      RepairKeepsTrim(e, msgs, req.toolTokens, limits.window, limits.inflation, limits.ratio);
    }
  }

  lemma {:induction false} DroppedIsNatural(
    e: Estimator, msgs: seq<Message>, tools: nat, window: int, inflation: real, ratio: real)
    ensures EnforceCeiling(e, msgs, tools, window, inflation, ratio).dropped >= 0
  {
    hide Scaled, TotalTokens, Capped;
    UntrimmedIsInput(e, msgs, tools, LimitFor(window, inflation, ratio));
  }

  /** An output budget filled into a request that came without one leaves the reserve free. */
  lemma {:induction false} FilledBudgetFits(
    e: Estimator, limits: Limits, req: Request, msgs: seq<Message>, changed: bool)
    requires limits.window > 0 && msgs != [] && (!changed ==> msgs == req.messages)
    requires req.maxTokens == 0 && FinishPreStep(e, limits, req, msgs, changed).Ok?
    ensures var out := FinishPreStep(e, limits, req, msgs, changed).value;
            out.maxTokens == 0 || Surface(e, out) + out.maxTokens + OUTPUT_BUDGET_RESERVE <= limits.window
  {
    hide Scaled, TotalTokens, EnforceCeiling, AsInt32;
    var v := EnforceCeiling(e, msgs, req.toolTokens, limits.window, limits.inflation, limits.ratio);
    FitMeansWithinWindow(e, msgs, req.toolTokens, limits.window, limits.inflation, limits.ratio);
    AsInt32Lowers(OutputBudget(v.after, limits.window, limits.outputCap, limits.outputExplicit));
  }

  /** What a filled budget leaves of the window beside the reserve: nothing, unless a cap keeps it smaller. */
  function Unused(limits: Limits): int {
    if 0 < limits.outputCap < limits.window - OUTPUT_BUDGET_RESERVE
    then limits.window - OUTPUT_BUDGET_RESERVE - limits.outputCap else 0
  }

  /** An empty message list is measured as nothing at all, tool catalogue included: the budget filled for it leaves
      the reserve free exactly when the catalogue fits what the budget leaves unused. */
  lemma {:induction false} EmptyListIsUnmeasured(e: Estimator, limits: Limits, req: Request)
    requires req.messages == [] && req.maxTokens == 0
    ensures var out := FinishPreStep(e, limits, req, [], false).value;
            var budget := OutputBudget(0, limits.window, limits.outputCap, limits.outputExplicit);
            budget == 0 || (Surface(e, out) + out.maxTokens + OUTPUT_BUDGET_RESERVE <= limits.window
                            <==> req.toolTokens <= Unused(limits) + (budget - AsInt32(budget)))
  {
  }

  /** The room a request leaves beside its estimate. */
  function Room(e: Estimator, limits: Limits, req: Request): int {
    limits.window - Surface(e, req)
  }

  /** The room a budget was filled for: the caller's cap may ask for less. */
  function AskedRoom(room: int, cap: int): int {
    if cap > 0 && cap + OUTPUT_BUDGET_RESERVE < room then cap + OUTPUT_BUDGET_RESERVE else room
  }

  predicate BudgetFits(e: Estimator, limits: Limits, req: Request) {
    req.maxTokens + OUTPUT_BUDGET_RESERVE <= Room(e, limits, req)
  }

  /** A budget is never recomputed once it is there. Carried to an accepted retry it still fits if and only if the
      retry leaves the room that it was filled for: as much as at first, or the cap and the reserve. */
  lemma {:induction false} CarriedBudgetExactly(
    e: Estimator, wide: Limits, narrow: Limits, req: Request, msgs: seq<Message>, changed: bool, msgs': seq<Message>,
    changed': bool)
    requires msgs != [] && req.maxTokens == 0 && (!changed ==> msgs == req.messages)
    requires FinishPreStep(e, wide, req, msgs, changed).Ok?
          && FinishPreStep(e, wide, req, msgs, changed).value.maxTokens != 0
    requires var carried := Repaired(FinishPreStep(e, wide, req, msgs, changed).value);
             FinishPreStep(e, narrow, carried, msgs', changed').Ok? && (!changed' ==> msgs' == carried.messages)
    ensures var first := FinishPreStep(e, wide, req, msgs, changed).value;
            var again := FinishPreStep(e, narrow, Repaired(first), msgs', changed').value;
            var asked := AskedRoom(Room(e, wide, first), wide.outputCap);
            && again.maxTokens == first.maxTokens == AsInt32(asked - OUTPUT_BUDGET_RESERVE)
            && (asked < 0x8000_0000 ==> (BudgetFits(e, narrow, again) <==> asked <= Room(e, narrow, again)))
  {
    hide EnforceCeiling, Sanitized;
    FilledFor(e, wide, req, msgs, changed);
    hide *;
    var first := FinishPreStep(e, wide, req, msgs, changed).value;
    BudgetStays(e, narrow, Repaired(first), msgs', changed');
    RepairedBudget(first);
    FitsIs(e, narrow, FinishPreStep(e, narrow, Repaired(first), msgs', changed').value);
  }

  lemma {:induction false} RepairedBudget(req: Request)
    ensures Repaired(req).maxTokens == req.maxTokens
  {
  }

  lemma {:induction false} FitsIs(e: Estimator, limits: Limits, req: Request)
    ensures BudgetFits(e, limits, req) <==> req.maxTokens + OUTPUT_BUDGET_RESERVE <= Room(e, limits, req)
  {
  }

  lemma {:induction false} BudgetStays(e: Estimator, limits: Limits, req: Request, msgs: seq<Message>, changed: bool)
    requires req.maxTokens != 0 && FinishPreStep(e, limits, req, msgs, changed).Ok?
    ensures FinishPreStep(e, limits, req, msgs, changed).value.maxTokens == req.maxTokens
  {
    hide EnforceCeiling;
  }

  lemma {:induction false} FilledFor(e: Estimator, limits: Limits, req: Request, msgs: seq<Message>, changed: bool)
    requires msgs != [] && req.maxTokens == 0 && (!changed ==> msgs == req.messages)
    requires FinishPreStep(e, limits, req, msgs, changed).Ok?
          && FinishPreStep(e, limits, req, msgs, changed).value.maxTokens != 0
    ensures var first := FinishPreStep(e, limits, req, msgs, changed).value;
            var asked := AskedRoom(Room(e, limits, first), limits.outputCap);
            && first.maxTokens == AsInt32(asked - OUTPUT_BUDGET_RESERVE)
            && (OUTPUT_BUDGET_RESERVE <= asked < 0x8000_0000 ==> first.maxTokens == asked - OUTPUT_BUDGET_RESERVE)
            && OUTPUT_BUDGET_RESERVE <= asked
  {
    hide Scaled, TotalTokens, EnforceCeiling, AsInt32;
    var v := EnforceCeiling(e, msgs, req.toolTokens, limits.window, limits.inflation, limits.ratio);
    FitMeansWithinWindow(e, msgs, req.toolTokens, limits.window, limits.inflation, limits.ratio);
    AsInt32Lowers(OutputBudget(v.after, limits.window, limits.outputCap, limits.outputExplicit));
  }

  /** A retry under a smaller window keeps a budget that no longer fits. */
  lemma {:induction false} CarriedBudgetMayOverfill()
    ensures var e := Estimator(s => 10, s => 0);
            var req := Request([Message("", User, "hi", "", [], [])], 0, 0, "s", false);
            var wide, narrow := Limits(2000, 1.0, 0.9, 0, false), Limits(1000, 1.0, 0.9, 0, false);
            var first := FinishPreStep(e, wide, req, req.messages, false).value;
            var again := FinishPreStep(e, narrow, first, first.messages, false);
            && again == Ok(first) && first.maxTokens == 1474
            && BudgetFits(e, wide, first) && !BudgetFits(e, narrow, first)
  {
    var e := Estimator(s => 10, s => 0);
    var msgs := [Message("", User, "hi", "", [], [])];
    assert msgs[1..] == [];
    assert TotalTokens(e, msgs) == 14;
    assert Scaled(14, 1.0) == 14;
  }

  /** The budget is computed from the unscaled estimate. Counted the way the ceiling counts, prompt, budget and reserve
      fit the window exactly when the known bias adds nothing, or the cap leaves room for what it adds. */
  lemma {:induction false} BudgetIgnoresBias(surface: int, limits: Limits)
    requires surface >= 0 && OutputBudget(surface, limits.window, limits.outputCap, limits.outputExplicit) > 0
    ensures var budget := OutputBudget(surface, limits.window, limits.outputCap, limits.outputExplicit);
            var scaled := Scaled(surface, AtLeastOne(limits.inflation));
            scaled + budget + OUTPUT_BUDGET_RESERVE <= limits.window
            <==> || scaled == surface
                 || (limits.outputCap > 0 && scaled + limits.outputCap + OUTPUT_BUDGET_RESERVE <= limits.window)
  {
    var f := AtLeastOne(limits.inflation);
    assert surface as real * (f - 1.0) >= 0.0;
    assert surface as real * f == surface as real + surface as real * (f - 1.0);
  }

  // ---------- What a request becomes ----------

  /** The plugins' list if they give one, or else the one at hand. */
  function ListFor(rewritten: Option<seq<Message>>, carried: seq<Message>): seq<Message> {
    match rewritten
    case None => carried
    case Some(msgs) => if |msgs| > 0 then msgs else carried
  }

  /** The budget for a surface: the room beside it and the reserve, or the cap if that asks for less; none below 128, or
      where the operator has set a limit explicitly. It is stored as an int32. */
  ghost predicate IsBudget(budget: int, surface: int, limits: Limits) {
    var room := limits.window - surface - 512;
    if limits.outputExplicit || room < 128 then budget == 0
    else exists wanted :: && AsInt32(wanted) == budget && wanted <= room
                          && (wanted == room || (wanted == limits.outputCap && wanted > 0))
                          && (limits.outputCap > 0 ==> wanted <= limits.outputCap)
  }

  /** What an attempt may send of the request: the list with the ceiling's and the repair's changes, tools, session and
      input mark as they are, the budget there is or a fresh one; nothing exactly if the ceiling refuses the list. */
  ghost predicate Prepares(
    e: Estimator, limits: Limits, rewritten: Option<seq<Message>>, req: Request, out: Result<Request>)
  {
    var list := ListFor(rewritten, req.messages);
    if list == [] then out.Ok? && Carried(req, 0, limits, out.value) && out.value.messages == []
    else exists v :: Rules(e, list, req.toolTokens, limits.window, limits.inflation, limits.ratio, v)
                     && (out.Ok? <==> v.fits)
                     && (out.Ok? ==> Carried(req, v.after, limits, out.value) && out.value.messages == Sanitized(v.out))
  }

  ghost predicate Carried(req: Request, surface: int, limits: Limits, out: Request) {
    && out.toolTokens == req.toolTokens && out.session == req.session && out.newUserInput == req.newUserInput
    && (if req.maxTokens != 0 then out.maxTokens == req.maxTokens else IsBudget(out.maxTokens, surface, limits))
  }

  function Sendable(r: Result<Request>): Result<Request> {
    if r.Ok? then Ok(Repaired(r.value)) else Err
  }

  lemma {:induction false} BudgetIs(surface: int, limits: Limits)
    requires limits.window > 0
    ensures var budget := OutputBudget(surface, limits.window, limits.outputCap, limits.outputExplicit);
            IsBudget(AsInt32(budget), surface, limits)
  {
    hide AsInt32;
    var budget := OutputBudget(surface, limits.window, limits.outputCap, limits.outputExplicit);
    assert AsInt32(0) == 0 by {
      AsInt32Lowers(0);
    }
    if !limits.outputExplicit && limits.window - surface - 512 >= 128 {
      assert AsInt32(budget) == AsInt32(budget) && budget <= limits.window - surface - 512;
    }
  }

  lemma {:induction false} FinishedFields(
    e: Estimator, limits: Limits, req: Request, msgs: seq<Message>, changed: bool)
    requires limits.window > 0 && (!changed ==> msgs == req.messages)
    ensures var v := EnforceCeiling(e, msgs, req.toolTokens, limits.window, limits.inflation, limits.ratio);
            var out := FinishPreStep(e, limits, req, msgs, changed);
            && (out.Ok? <==> v.fits)
            && (out.Ok? ==> Carried(req, v.after, limits, out.value) && out.value.messages == v.out)
  {
    var v := EnforceCeiling(e, msgs, req.toolTokens, limits.window, limits.inflation, limits.ratio);
    BudgetIs(v.after, limits);
    if msgs != [] {
      FitMeansWithinWindow(e, msgs, req.toolTokens, limits.window, limits.inflation, limits.ratio);
    }
    UnmeasuredPasses(e, [], req.toolTokens, limits.window, limits.inflation, limits.ratio);
    AsInt32Lowers(0);
    hide EnforceCeiling, IsBudget, AsInt32, OutputBudget, Scaled, TotalTokens;
  }

  /** The pre-step and the repair prepare a request as the rules say. */
  lemma {:induction false} PreparedByRules(
    e: Estimator, limits: Limits, rewritten: Option<seq<Message>>, req: Request, changed: bool)
    requires limits.window > 0
    requires changed <==> rewritten.Some? && rewritten.value != []
    ensures Prepares(e, limits, rewritten, req,
                     Sendable(FinishPreStep(e, limits, req, ListFor(rewritten, req.messages), changed)))
  {
    var list := ListFor(rewritten, req.messages);
    var r := FinishPreStep(e, limits, req, list, changed);
    var v := EnforceCeiling(e, list, req.toolTokens, limits.window, limits.inflation, limits.ratio);
    FinishedFields(e, limits, req, list, changed);
    UnmeasuredPasses(e, [], req.toolTokens, limits.window, limits.inflation, limits.ratio);
    assert Sanitized([]) == [];
    hide EnforceCeiling, FinishPreStep, IsBudget, Sanitized, Rules;
    if list != [] {
      CeilingRules(e, list, req.toolTokens, limits.window, limits.inflation, limits.ratio);
    }
  }

  // ---------- One provider call ----------

  /** Why a call failed: the provider said the context is too long (with what its text named), or anything else. */
  datatype Failure = Overflowed(actual: nat, max: nat) | OtherFailure

  /** One item of a provider's stream. `promptTokens` 0: no usage. `undelivered`: sending it on failed. */
  datatype Frame = Frame(error: Option<Failure>, content: string, reasoning: string, toolCalls: seq<ToolCall>,
                         promptTokens: nat, undelivered: bool)

  /** How one provider call goes. */
  datatype Script = Script(refused: Option<Failure>, frames: seq<Frame>)

  /** The frame carries output; usage-only and empty frames do not. */
  predicate Carries(f: Frame) {
    f.content != "" || f.reasoning != "" || f.toolCalls != []
  }

  /** How many frames reach the client. */
  function Reach(frames: seq<Frame>): (n: nat)
    ensures n <= |frames|
  {
    if frames == [] || frames[0].error.Some? || frames[0].undelivered then 0 else 1 + Reach(frames[1..])
  }

  /** The frames that reach the client. */
  function Delivered(s: Script): seq<Frame> {
    if s.refused.Some? then [] else s.frames[..Reach(s.frames)]
  }

  function FailureAmong(frames: seq<Frame>): Option<Failure> {
    if frames == [] then None
    else if frames[0].error.Some? then frames[0].error
    else if frames[0].undelivered then Some(OtherFailure)
    else FailureAmong(frames[1..])
  }

  function FailureOf(s: Script): Option<Failure> {
    if s.refused.Some? then s.refused else FailureAmong(s.frames)
  }

  predicate StartsAmong(frames: seq<Frame>) {
    frames != [] && frames[0].error.None?
        && (Carries(frames[0]) || (!frames[0].undelivered && StartsAmong(frames[1..])))
  }

  /** Output was handed on, or was about to be when sending failed. */
  predicate Starts(s: Script) {
    s.refused.None? && StartsAmong(s.frames)
  }

  function UsageAmong(frames: seq<Frame>, seen: nat): nat {
    if frames == [] || frames[0].error.Some? then seen
    else
      var now := if frames[0].promptTokens > 0 then frames[0].promptTokens else seen;
      if frames[0].undelivered then now else UsageAmong(frames[1..], now)
  }

  function UsageOf(s: Script, seen: nat): nat {
    if s.refused.Some? then seen else UsageAmong(s.frames, seen)
  }

  lemma {:induction false} DeliveredOutputStarts(frames: seq<Frame>, i: nat)
    requires i < Reach(frames) && Carries(frames[i])
    ensures StartsAmong(frames)
  {
    if i > 0 && !Carries(frames[0]) {
      DeliveredOutputStarts(frames[1..], i - 1);
    }
  }

  // ---------- A stream, frame by frame ----------

  /** The stream stops at this frame. */
  predicate Stops(f: Frame) {
    f.error.Some? || f.undelivered
  }

  /** A frame with text, reasoning or tool calls that was not an error. */
  predicate PutsOut(f: Frame) {
    f.error.None? && (f.content != "" || f.reasoning != "" || f.toolCalls != [])
  }

  /** The frames up to the first that stops the stream, and that one. */
  ghost predicate Seen(frames: seq<Frame>, n: nat, last: nat) {
    && n <= |frames| && (forall i | 0 <= i < n :: !Stops(frames[i])) && (n < |frames| ==> Stops(frames[n]))
    && last == if n < |frames| then n + 1 else n
  }

  /** The latest usage among the first `last` frames, errors aside. */
  ghost predicate LatestUsage(frames: seq<Frame>, last: nat, seen: nat, usage: nat)
    requires last <= |frames|
  {
    || (usage == seen && forall i | 0 <= i < last && frames[i].error.None? :: frames[i].promptTokens == 0)
    || exists i :: 0 <= i < last && frames[i].error.None? && usage == frames[i].promptTokens > 0
                   && forall j | i < j < last && frames[j].error.None? :: frames[j].promptTokens == 0
  }

  /** A refused call has only its refusal to show; any other is what its stream comes to. */
  lemma {:induction false} CallExactly(s: Script, seen: nat)
    ensures s.refused.Some? ==>
              FailureOf(s) == s.refused && Delivered(s) == [] && !Starts(s) && UsageOf(s, seen) == seen
    ensures s.refused.None? ==>
              && FailureOf(s) == FailureAmong(s.frames) && Delivered(s) == s.frames[..Reach(s.frames)]
              && (Starts(s) <==> StartsAmong(s.frames)) && UsageOf(s, seen) == UsageAmong(s.frames, seen)
  {
  }

  /** What a stream comes to: delivered is what stands before its first stop; the failure is that stop's; output has
      started if anything seen puts out; the usage is the latest one seen. */
  lemma {:induction false} StreamExactly(frames: seq<Frame>, seen: nat)
    ensures var n := Reach(frames);
            var last := if n < |frames| then n + 1 else n;
            && Seen(frames, n, last)
            && FailureAmong(frames) == (if n == |frames| then None
                                        else if frames[n].error.Some? then frames[n].error else Some(OtherFailure))
            && (StartsAmong(frames) <==> exists i :: 0 <= i < last && PutsOut(frames[i]))
            && LatestUsage(frames, last, seen, UsageAmong(frames, seen))
  {
    if frames != [] && !Stops(frames[0]) {
      var rest, n := frames[1..], Reach(frames);
      var now := if frames[0].promptTokens > 0 then frames[0].promptTokens else seen;
      StreamExactly(rest, now);
      assert frames == [frames[0]] + rest;
      assert n == 1 + Reach(rest);
      StartsLater(frames);
      UsageLater(frames, now, seen);
    }
  }

  lemma {:induction false} StartsLater(frames: seq<Frame>)
    requires frames != [] && !Stops(frames[0])
    requires var rest := frames[1..];
             var last := if Reach(rest) < |rest| then Reach(rest) + 1 else Reach(rest);
             StartsAmong(rest) <==> exists i :: 0 <= i < last && PutsOut(rest[i])
    ensures var last := if Reach(frames) < |frames| then Reach(frames) + 1 else Reach(frames);
            StartsAmong(frames) <==> exists i :: 0 <= i < last && PutsOut(frames[i])
  {
    var rest := frames[1..];
    if i :| 0 <= i < (if Reach(rest) < |rest| then Reach(rest) + 1 else Reach(rest)) && PutsOut(rest[i]) {
      assert PutsOut(frames[i + 1]);
    }
    if PutsOut(frames[0]) {
      assert StartsAmong(frames);
    }
    assert forall i | 0 < i < |frames| :: frames[i] == rest[i - 1];
  }

  lemma {:induction false} UsageLater(frames: seq<Frame>, now: nat, seen: nat)
    requires frames != [] && !Stops(frames[0])
    requires now == if frames[0].promptTokens > 0 then frames[0].promptTokens else seen
    requires var rest := frames[1..];
             var last := if Reach(rest) < |rest| then Reach(rest) + 1 else Reach(rest);
             LatestUsage(rest, last, now, UsageAmong(rest, now))
    ensures var last := if Reach(frames) < |frames| then Reach(frames) + 1 else Reach(frames);
            LatestUsage(frames, last, seen, UsageAmong(frames, seen))
  {
    var rest := frames[1..];
    var usage := UsageAmong(rest, now);
    var last := if Reach(rest) < |rest| then Reach(rest) + 1 else Reach(rest);
    assert UsageAmong(frames, seen) == usage;
    assert forall i | 0 < i < |frames| :: frames[i] == rest[i - 1];
    if i :| 0 <= i < last && rest[i].error.None? && usage == rest[i].promptTokens > 0
            && forall j | i < j < last && rest[j].error.None? :: rest[j].promptTokens == 0 {
      assert usage == frames[i + 1].promptTokens > 0;
    } else if frames[0].promptTokens > 0 {
      assert usage == frames[0].promptTokens;
    }
  }

  // ---------- A whole streaming request ----------

  /** What the outside does: the n-th provider call, the plugins' rewrite and the retry verdict of each attempt,
      and the route each attempt finds. */
  datatype World = World(script: nat -> Script, rewrite: nat -> Option<seq<Message>>, retry: nat -> bool,
      route: nat -> seq<string>)

  datatype Outcome = Settled | Rejected | Broken(why: Failure) | Exhausted(why: Failure) | NoProvider

  datatype Delivery = Delivery(call: nat, frame: Frame)

  /** One dispatch to a provider, with the limits in force. */
  datatype Dispatch = Dispatch(provider: string, request: Request, limits: Limits)

  /** One attempt: the request it began with, the limits it met, what it could send, the calls made before it, and what
      was learnt before it. */
  datatype Step = Step(before: Request, limits: Limits, after: Result<Request>, first: nat, known: seq<Report>)

  /** What the attempts so far made of the request and sent, and the request that is now at hand. */
  ghost predicate Story(e: Estimator, w: World, steps: seq<Step>, log: seq<Dispatch>, request: Request, now: Request) {
    && (forall a | 0 <= a < |steps| :: Told(e, w, steps, log, request, a))
    && now == if steps == [] then request
              else if steps[|steps| - 1].after.Ok? then steps[|steps| - 1].after.value else steps[|steps| - 1].before
  }

  /** An attempt begins with what the one before it could send, and with what its refusal taught; it prepares the
      request by the rules and sends just that, to the providers of its route in order, each up to twice. */
  ghost predicate Told(e: Estimator, w: World, steps: seq<Step>, log: seq<Dispatch>, request: Request, a: nat)
    requires a < |steps|
  {
    var step := steps[a];
    var end := if a + 1 < |steps| then steps[a + 1].first else |log|;
    && (if a == 0 then step.first == 0 && step.before == request
        else steps[a - 1].after == Ok(step.before))
    && step.known == (if a == 0 then [] else steps[a - 1].known + Lesson(e, w, step.first, step.before))
    && Prepares(e, step.limits, w.rewrite(a), step.before, step.after)
    && (a + 1 < |steps| ==> Retried(w, a, end))
    && step.first <= end <= |log| && (step.after.Err? ==> end == step.first && a + 1 == |steps|)
    && SentAlong(log[step.first..end], w.route(a), step)
  }

  /** The last call failed, and for a reason to try again: the request was too long, or the plugins ask for it. */
  predicate Retried(w: World, a: nat, calls: nat) {
    calls > 0 && FailureOf(w.script(calls - 1)).Some?
    && (FailureOf(w.script(calls - 1)).value.Overflowed? || w.retry(a))
  }

  ghost predicate SentAlong(sent: seq<Dispatch>, route: seq<string>, step: Step) {
    && |sent| <= MAX_CALLS * |route|
    && forall t | 0 <= t < |sent| ::
         step.after == Ok(sent[t].request) && sent[t].limits == step.limits && sent[t].provider == route[t / MAX_CALLS]
  }

  /** What a failure teaches: a refusal for length is a report of what was sent, anything else is not. */
  function LessonOf(e: Estimator, why: Failure, sent: Request): seq<Report> {
    if why.Overflowed? then [Report(why.actual, why.max, Surface(e, sent))] else []
  }

  /** What the last of `calls` calls taught. */
  function Lesson(e: Estimator, w: World, calls: nat, sent: Request): seq<Report> {
    if calls > 0 && FailureOf(w.script(calls - 1)).Some? then LessonOf(e, FailureOf(w.script(calls - 1)).value, sent)
    else []
  }

  /** Nothing has been sent yet, or there is reason to try again with what was sent last, wiser by its refusal. */
  predicate TriedAgain(
    e: Estimator, w: World, steps: seq<Step>, log: seq<Dispatch>, now: Request, refusals: seq<Report>)
  {
    if steps == [] then log == [] && refusals == []
    else
      var last := steps[|steps| - 1];
      && last.after == Ok(now) && Retried(w, |steps| - 1, |log|)
      && refusals == last.known + Lesson(e, w, |log|, now)
  }

  /** The limits a session's state comes to. */
  function LimitsIn(t: Tight, cap: int, explicit: bool): Limits {
    Limits(t.Window(), CeilingInflation(Estimated(t.anchored, t.calibration), t.adj), t.Ratio(), cap, explicit)
  }

  lemma {:induction false} LimitsAre(m: Manager, session: string)
    ensures LimitsOf(m, session) == LimitsIn(m.TightOf(session), m.maxOutputBudget, m.maxOutputExplicit)
  {
  }

  lemma {:induction false} NothingTold(e: Estimator, w: World, log: seq<Dispatch>, request: Request)
    requires log == []
    ensures Story(e, w, [], log, request, request) && TriedAgain(e, w, [], log, request, [])
  {
  }

  lemma {:induction false} StoryGrows(
    e: Estimator, w: World, steps: seq<Step>, log: seq<Dispatch>, request: Request, now: Request, step: Step,
    more: seq<Dispatch>, next: Request)
    requires Story(e, w, steps, log, request, now) && TriedAgain(e, w, steps, log, now, step.known)
    requires step.before == now && step.first == |log|
    requires Prepares(e, step.limits, w.rewrite(|steps|), now, step.after) && SentAlong(more, w.route(|steps|), step)
    requires if step.after.Ok? then next == step.after.value else next == now && more == []
    ensures Story(e, w, steps + [step], log + more, request, next)
  {
    hide Prepares, SentAlong, Retried, Lesson;
    var all, sent := steps + [step], log + more;
    forall a | 0 <= a < |all|
      ensures Told(e, w, all, sent, request, a)
    {
      if a < |steps| {
        assert Told(e, w, steps, log, request, a);
        var end := if a + 1 < |steps| then steps[a + 1].first else |log|;
        assert sent[steps[a].first..end] == log[steps[a].first..end];
      } else {
        assert sent[|log|..] == more && sent[|log|..|sent|] == more;
      }
    }
  }

  lemma {:induction false} StoryEnds(
    e: Estimator, w: World, steps: seq<Step>, log: seq<Dispatch>, request: Request, now: Request, step: Step)
    requires Story(e, w, steps, log, request, now) && TriedAgain(e, w, steps, log, now, step.known)
    requires step.before == now && step.first == |log| && step.after.Err?
    requires Prepares(e, step.limits, w.rewrite(|steps|), now, step.after)
    ensures Story(e, w, steps + [step], log, request, now)
  {
    hide Prepares, Story;
    assert log + [] == log;
    StoryGrows(e, w, steps, log, request, now, step, [], now);
  }

  lemma {:induction false} StoryGoesOn(
    e: Estimator, w: World, steps: seq<Step>, before: seq<Dispatch>, after: seq<Dispatch>, request: Request,
    now: Request, step: Step)
    requires Story(e, w, steps, before, request, now) && TriedAgain(e, w, steps, before, now, step.known)
    requires step.before == now && step.first == |before| && step.after.Ok?
    requires Prepares(e, step.limits, w.rewrite(|steps|), now, step.after)
    requires Continues(before, after, step.after.value, step.limits) && AlongRoute(after, |before|, w.route(|steps|))
    ensures Story(e, w, steps + [step], after, request, step.after.value)
  {
    hide *;
    SentOn(before, after, w.route(|steps|), step);
    var more := after[|before|..];
    StoryGrows(e, w, steps, before, request, now, step, more, step.after.value);
  }

  lemma {:induction false} SentOn(before: seq<Dispatch>, after: seq<Dispatch>, route: seq<string>, step: Step)
    requires step.after.Ok?
    requires Continues(before, after, step.after.value, step.limits) && AlongRoute(after, |before|, route)
    ensures |before| <= |after| && before + after[|before|..] == after
    ensures SentAlong(after[|before|..], route, step)
  {
  }

  lemma {:induction false} CallsAreEven(w: World, attempts: nat)
    ensures RouteCalls(w, attempts) % MAX_CALLS == 0
  {
    if attempts > 0 {
      CallsAreEven(w, attempts - 1);
    }
  }

  /** The prompt tokens the last of `calls` calls reported; a repeated call keeps what the first one reported. */
  function Reported(w: World, calls: nat): nat
    requires calls > 0
  {
    var last := calls - 1;
    if last % MAX_CALLS == 0 then UsageOf(w.script(last), 0)
    else UsageOf(w.script(last), UsageOf(w.script(last - 1), 0))
  }

  /** The budgets of the dispatches so far, for a request that came with `original` and now carries `current`: its own
      all along, or none until one is filled, which leaves the reserve where it is filled and stays. */
  predicate BudgetLaw(e: Estimator, log: seq<Dispatch>, original: int, current: int) {
    if original != 0 then current == original && forall i | 0 <= i < |log| :: log[i].request.maxTokens == original
    else
      && (forall i | 0 <= i < |log| :: log[i].request.maxTokens in {0, current})
      && (forall i, j | 0 <= i < j < |log| :: log[i].request.maxTokens != 0 ==> log[j].request.maxTokens != 0)
      && (current != 0 ==> log != [] && log[|log| - 1].request.maxTokens != 0)
      && forall i | 0 <= i < |log| && FillsBudget(log, i) :: FreshBudgetFits(e, log[i])
  }

  /** The first dispatch with a budget. */
  predicate FillsBudget(log: seq<Dispatch>, i: nat)
    requires i < |log|
  {
    log[i].request.maxTokens != 0 && (i > 0 ==> log[i - 1].request.maxTokens == 0)
  }

  predicate FreshBudgetFits(e: Estimator, d: Dispatch) {
    d.request.messages == [] || BudgetFits(e, d.limits, d.request)
  }

  /** The log goes on with dispatches of this request under these limits. */
  predicate Continues(before: seq<Dispatch>, after: seq<Dispatch>, request: Request, limits: Limits) {
    && |before| <= |after| && after[..|before|] == before
    && forall i | |before| <= i < |after| :: after[i].request == request && after[i].limits == limits
  }

  /** From `start` on the log goes along the route, each provider up to twice. */
  predicate AlongRoute(log: seq<Dispatch>, start: nat, route: seq<string>) {
    && start <= |log| <= start + MAX_CALLS * |route|
    && forall i | start <= i < |log| :: log[i].provider == route[(i - start) / MAX_CALLS]
  }

  lemma {:induction false} BudgetGrows(
    e: Estimator, log: seq<Dispatch>, more: seq<Dispatch>, original: int, current: int, request: Request,
        limits: Limits)
    requires BudgetLaw(e, log, original, current) && more != []
    requires forall i | 0 <= i < |more| :: more[i].request == request && more[i].limits == limits
    requires current != 0 ==> request.maxTokens == current
    requires current == 0 ==> request.maxTokens == 0 || request.messages == [] || BudgetFits(e, limits, request)
    ensures BudgetLaw(e, log + more, original, request.maxTokens)
  {
    hide BudgetFits;
    var all := log + more;
    assert all[|all| - 1] == more[|more| - 1];
    if original == 0 {
      forall i | 0 <= i < |all| && FillsBudget(all, i)
        ensures FreshBudgetFits(e, all[i])
      {
        if i < |log| {
          assert FillsBudget(log, i);
        }
      }
    }
  }

  datatype RouteEnd = Completed(usage: nat) | Cut(why: Failure) | AllFailed(last: Option<Failure>)

  const MAX_RETRIES := 3
  const MAX_CALLS := 2

  function Tagged(call: nat, frames: seq<Frame>): seq<Delivery> {
    seq(|frames|, i requires 0 <= i < |frames| => Delivery(call, frames[i]))
  }

  /** The frames of the first `calls` provider calls, each cut where its stream broke. */
  function AllDelivered(w: World, calls: nat): seq<Delivery> {
    if calls == 0 then [] else AllDelivered(w, calls - 1) + Tagged(calls - 1, Delivered(w.script(calls - 1)))
  }

  /** The call failed before any output: repeating it duplicates nothing. */
  predicate Silent(w: World, call: nat) {
    FailureOf(w.script(call)).Some? && !Starts(w.script(call))
  }

  function RouteCalls(w: World, attempts: nat): nat {
    if attempts == 0 then 0 else RouteCalls(w, attempts - 1) + MAX_CALLS * |w.route(attempts - 1)|
  }

  class Stream {
    const w: World
    const e: Estimator
    const m: Manager
    var calls: nat
    var attempts: nat
    var sent: seq<Delivery>
    var log: seq<Dispatch>
    ghost var steps: seq<Step>

    constructor (w: World, e: Estimator, m: Manager)
      ensures this.w == w && this.e == e && this.m == m
      ensures calls == 0 && attempts == 0 && sent == [] && log == [] && steps == []
    {
      this.w, this.e, this.m := w, e, m;
      calls, attempts, sent, log, steps := 0, 0, [], [], [];
    }

    /** What was sent is what the calls so far delivered, and every dispatch of a non-empty request was within its
        window. */
    ghost predicate Valid()
      reads this`calls, this`sent, this`log
    {
      && sent == AllDelivered(w, calls)
      && |log| == calls
      && (forall i | 0 <= i < |log| :: log[i].request.messages != [] ==> WithinWindow(e, log[i].limits, log[i].request))
    }

    /** The first `n` calls all failed silently. */
    ghost predicate Quiet(n: nat)
      reads this`calls
    {
      n <= calls && forall k | 0 <= k < n :: Silent(w, k)
    }

    /** Forwards one provider's stream frame by frame. */
    method Forward(frames: seq<Frame>, seen: nat) returns (failure: Option<Failure>, started: bool, usage: nat)
      modifies this`sent
      ensures sent == old(sent) + Tagged(calls, frames[..Reach(frames)])
      ensures failure == FailureAmong(frames) && started == StartsAmong(frames) && usage == UsageAmong(frames, seen)
    {
      failure, started, usage := None, false, seen;
      ghost var before := sent;
      var i := 0;
      while i < |frames|
        invariant 0 <= i <= |frames|
        invariant failure == None
        invariant Reach(frames) == i + Reach(frames[i..])
        invariant sent == before + Tagged(calls, frames[..i])
        invariant FailureAmong(frames) == FailureAmong(frames[i..])
        invariant StartsAmong(frames) == (started || StartsAmong(frames[i..]))
        invariant UsageAmong(frames, seen) == UsageAmong(frames[i..], usage)
      {
        var item := frames[i];
        if item.error.Some? {
          failure := item.error;
          break;
        }
        if item.promptTokens > 0 {
          usage := item.promptTokens;
        }
        if Carries(item) {
          started := true;
        }
        if item.undelivered {
          failure := Some(OtherFailure);
          break;
        }
        sent := sent + [Delivery(calls, item)];
        i := i + 1;
      }
      assert Reach(frames) == i;
    }

    method CallProvider(provider: string, request: Request, limits: Limits, seen: nat)
      returns (failure: Option<Failure>, started: bool, usage: nat)
      requires Valid()
      requires request.messages != [] ==> WithinWindow(e, limits, request)
      modifies this`calls, this`sent, this`log
      ensures Valid() && calls == old(calls) + 1
      ensures log == old(log) + [Dispatch(provider, request, limits)]
      ensures failure == FailureOf(w.script(old(calls))) && started == Starts(w.script(old(calls)))
      ensures usage == UsageOf(w.script(old(calls)), seen)
    {
      var s := w.script(calls);
      if s.refused.Some? {
        failure, started, usage := s.refused, false, seen;
        assert Tagged(calls, Delivered(s)) == [];
      } else {
        failure, started, usage := Forward(s.frames, seen);
      }
      calls := calls + 1;
      log := log + [Dispatch(provider, request, limits)];
    }

    /** The built-in retry around one provider: again, unless output has started. */
    method CallWithRetry(provider: string, request: Request, limits: Limits)
      returns (failure: Option<Failure>, started: bool, usage: nat)
      requires Valid() && Quiet(calls)
      requires request.messages != [] ==> WithinWindow(e, limits, request)
      modifies this`calls, this`sent, this`log
      ensures Valid() && old(calls) < calls <= old(calls) + MAX_CALLS && Quiet(calls - 1)
      ensures failure == FailureOf(w.script(calls - 1)) && started == Starts(w.script(calls - 1))
      ensures Silent(w, calls - 1) ==> calls == old(calls) + MAX_CALLS
      ensures Continues(old(log), log, request, limits)
      ensures forall i | old(calls) <= i < calls :: log[i].provider == provider
      ensures old(calls) % MAX_CALLS == 0 ==> usage == Reported(w, calls)
    {
      hide WithinWindow, AllDelivered, UsageOf, FailureOf, Starts;
      var attempt := 0;
      usage := 0;
      while true
        invariant 0 <= attempt < MAX_CALLS && calls == old(calls) + attempt
        invariant Valid() && Quiet(calls)
        invariant Continues(old(log), log, request, limits)
        invariant forall i | old(calls) <= i < calls :: log[i].provider == provider
        invariant usage == if attempt == 0 then 0 else UsageOf(w.script(old(calls)), 0)
        decreases MAX_CALLS - attempt
      {
        failure, started, usage := CallProvider(provider, request, limits, usage);
        if failure.None? {
          return;
        }
        if attempt + 1 >= MAX_CALLS || started {
          return;
        }
        attempt := attempt + 1;
      }
    }

    /** One pass over the route: the next provider is tried only while nothing was put out. */
    method TryRoute(route: seq<string>, request: Request, limits: Limits) returns (end: RouteEnd)
      requires Valid() && Quiet(calls)
      requires request.messages != [] ==> WithinWindow(e, limits, request)
      modifies this`calls, this`sent, this`log
      ensures Valid() && old(calls) <= calls <= old(calls) + MAX_CALLS * |route|
      ensures EndMatches(end, old(calls))
      ensures end.AllFailed? ==> calls == old(calls) + MAX_CALLS * |route| && (end.last.None? <==> route == [])
      ensures Continues(old(log), log, request, limits) && AlongRoute(log, old(calls), route)
      ensures end.Completed? && old(calls) % MAX_CALLS == 0 ==> end.usage == Reported(w, calls)
    {
      hide WithinWindow, AllDelivered, FailureOf, Starts;
      end := AllFailed(None);
      for k := 0 to |route|
        invariant Valid() && Quiet(calls) && calls == old(calls) + MAX_CALLS * k
        invariant end.AllFailed? && EndMatches(end, old(calls)) && (end.last.None? <==> k == 0)
        invariant Continues(old(log), log, request, limits)
        invariant forall i | old(calls) <= i < calls :: log[i].provider == route[(i - old(calls)) / MAX_CALLS]
      {
        var failure, started, usage := CallWithRetry(route[k], request, limits);
        if failure.None? {
          return Completed(usage);
        }
        if started {
          return Cut(failure.value);
        }
        end := AllFailed(failure);
      }
    }

    /** How the pass over the route ended, told by the calls it made. */
    ghost predicate EndMatches(end: RouteEnd, before: nat)
      reads this`calls
    {
      match end
      case Completed(_) => before < calls && Quiet(calls - 1) && FailureOf(w.script(calls - 1)).None?
      case Cut(why) => before < calls && Quiet(calls - 1) && Starts(w.script(calls - 1))
          && FailureOf(w.script(calls - 1)) == Some(why)
      case AllFailed(last) =>
        before <= calls && Quiet(calls) && (last.Some? ==> before < calls && FailureOf(w.script(calls - 1)) == last)
    }

    /** Rewrites, measures, trims and budgets the request of one attempt. */
    method ApplyPreStep(req: Request, attempt: nat) returns (r: Result<Request>, limits: Limits)
      ensures limits == LimitsOf(m, req.session)
      ensures r.Ok? ==> r.value.session == req.session
      ensures r.Ok? && Repaired(r.value).messages != [] ==> WithinWindow(e, limits, Repaired(r.value))
      ensures r.Ok? ==> BudgetFrom(e, limits, req.maxTokens, Repaired(r.value))
      ensures Prepares(e, limits, w.rewrite(attempt), req, Sendable(r))
    {
      hide FinishPreStep, WithinWindow, Sanitized, BudgetFrom, Prepares;
      limits := LimitsOf(m, req.session);
      var msgs, changed := req.messages, false;
      var rewritten := w.rewrite(attempt);
      if rewritten.Some? && rewritten.value != [] {
        msgs, changed := rewritten.value, true;
      }
      r := FinishPreStep(e, limits, req, msgs, changed);
      PreparedByRules(e, limits, rewritten, req, changed);
      if r.Ok? {
        AcceptedOrEmpty(e, limits, req, msgs, changed);
        BudgetOfPreStep(e, limits, req, msgs, changed);
      }
    }

    /** Decides about another attempt; a refusal for length is learnt from and always tried again. */
    method RequestError(why: Failure, req: Request, attempt: nat) returns (retry: bool, ghost learnt: seq<Report>)
      modifies m`overflowAdj, m`contextWindow, m`calibration
      ensures retry == (why.Overflowed? || w.retry(attempt))
      ensures learnt == if why.Overflowed? then [Report(why.actual, why.max, Surface(e, req))] else []
      ensures Elsewhere(req.session) == old(Elsewhere(req.session))
      ensures m.TightOf(req.session) == old(m.TightOf(req.session)).After(learnt)
    {
      learnt := [];
      if why.Overflowed? {
        var report := Report(why.actual, why.max, Surface(e, req));
        m.NoteOverflow(req.session, report);
        if why.actual > 0 {
          m.RecordUsageSample(m.modelName, Surface(e, req), why.actual);
        }
        learnt := [report];
        if req.session != "" {
          OtherAdjustments(old(m.overflowAdj), req.session, m.overflowAdj[req.session]);
        }
        OtherAverages(old(m.calibration), m.calibration, m.modelName);
        assert learnt[1..] == [];
        return true, learnt;
      }
      return w.retry(attempt), learnt;
    }

    /** Dispatches so far never got a looser limit, and `limit` is none either. */
    ghost predicate NeverLooser(limit: int)
      reads this`log
    {
      && (forall i | 0 <= i < |log| :: limit <= TrimLimit(log[i].limits))
      && (forall i, j | 0 <= i < j < |log| :: TrimLimit(log[j].limits) <= TrimLimit(log[i].limits))
    }

    /** One attempt: pre-step, pairing repair, and a pass over the route. */
    method Attempt(req: Request, attempt: nat, ghost request: Request, ghost start: Tight, ghost known: seq<Report>)
      returns (end: Option<RouteEnd>, final: Request)
      requires BudgetLaw(e, log, request.maxTokens, req.maxTokens)
      requires Telling(request, req, known) && |steps| == attempt && (attempt == 0 ==> calls == 0)
      requires Measured(start) && m.TightOf(req.session) == start.After(known)
      requires Valid() && Quiet(calls) && calls == RouteCalls(w, attempt)
      modifies this`calls, this`sent, this`log, this`steps
      ensures Valid() && RouteCalls(w, attempt) <= calls <= RouteCalls(w, attempt + 1)
      ensures final.session == req.session
      ensures end.None? ==> calls == old(calls) && Quiet(calls)
      ensures end.Some? ==> EndMatches(end.value, old(calls))
      ensures end.Some? && end.value.AllFailed? ==>
                calls == RouteCalls(w, attempt + 1) && (end.value.last.None? <==> w.route(attempt) == [])
      ensures old(NeverLooser(TrimLimit(LimitsOf(m, req.session)))) ==> NeverLooser(TrimLimit(LimitsOf(m, req.session)))
      ensures BudgetLaw(e, log, request.maxTokens, if calls > old(calls) then final.maxTokens else req.maxTokens)
      ensures |steps| == attempt + 1 && Story(e, w, steps, log, request, final)
      ensures Measured(start) && steps[attempt].known == known
      ensures if end.None? then steps[attempt].after.Err? else steps[attempt].after == Ok(final)
      ensures end.Some? && end.value.Completed? ==> calls > 0 && end.value.usage == Reported(w, calls)
    {
      hide WithinWindow, Sanitized, TrimLimit, LimitsOf, AllDelivered, FailureOf, Starts, BudgetLaw, BudgetFrom;
      hide Prepares, Story, Reported, SentAlong, AlongRoute, LimitsIn, Lesson;
      var r, limits := ApplyPreStep(req, attempt);
      ghost var step := Step(req, limits, Sendable(r), calls, known);
      LimitsAre(m, req.session);
      CallsAreEven(w, attempt);
      if r.Err? {
        steps := steps + [step];
        StoryEnds(e, w, old(steps), log, request, req, step);
        return None, req;
      }
      final := Repaired(r.value);
      var passed := TryRoute(w.route(attempt), final, limits);
      end := Some(passed);
      steps := steps + [step];
      StoryGoesOn(e, w, old(steps), old(log), log, request, req, step);
      BudgetAfter(e, old(log), log, request.maxTokens, req.maxTokens, final, limits);
      assert forall i | 0 <= i < old(calls) :: log[i] == log[..old(calls)][i];
    }

    /** The story so far ends with a request that may be tried again. */
    ghost predicate Telling(request: Request, now: Request, refusals: seq<Report>)
      reads this
    {
      Story(e, w, steps, log, request, now) && TriedAgain(e, w, steps, log, now, refusals)
    }

    /** Each attempt met the limits of the state that the refusals before it had led to. */
    ghost predicate Measured(start: Tight)
      reads this`steps, m`maxOutputBudget, m`maxOutputExplicit
    {
      forall a | 0 <= a < |steps| ::
        steps[a].limits == LimitsIn(start.After(steps[a].known), m.maxOutputBudget, m.maxOutputExplicit)
    }

    /** What the host knows of other sessions and other models. */
    ghost function Elsewhere(session: string)
      : (map<string, Adjustment>, map<string, AnchorSet>, map<string, Calibration.Average>)
      reads m`overflowAdj, m`sessionAnchors, m`calibration, m`modelName
    {
      (m.overflowAdj - {session}, m.sessionAnchors - {session}, m.calibration - {m.modelName})
    }

    /** What a failed attempt leads to: the verdict, and limits that are at most as loose as before. */
    method LearnFrom(why: Failure, req: Request, attempt: nat, ghost start: Tight, ghost known: seq<Report>)
      returns (retry: bool, ghost refusals: seq<Report>)
      requires m.TightOf(req.session) == start.After(known)
      modifies m`overflowAdj, m`contextWindow, m`calibration
      ensures retry == (why.Overflowed? || w.retry(attempt))
      ensures refusals == known + LessonOf(e, why, req) && m.TightOf(req.session) == start.After(refusals)
      ensures Elsewhere(req.session) == old(Elsewhere(req.session))
      ensures start.Calm() ==> TrimLimit(LimitsOf(m, req.session)) <= old(TrimLimit(LimitsOf(m, req.session)))
    {
      hide TrimLimit, LimitsOf, Surface;
      LimitsFollow(m, req.session);
      ghost var learnt;
      retry, learnt := RequestError(why, req, attempt);
      refusals := known + learnt;
      AfterAppend(start, known, learnt);
      if start.Calm() {
        LearningLowers(start, known, learnt);
        LimitsFollow(m, req.session);
      }
    }

    /** The state between two attempts. */
    ghost predicate Between(session: string, start: Tight, refusals: seq<Report>)
      reads this, m
    {
      && Valid() && Quiet(calls) && calls == RouteCalls(w, attempts)
      && |refusals| <= attempts <= MAX_RETRIES && m.TightOf(session) == start.After(refusals)
      && (start.Calm() ==> NeverLooser(TrimLimit(LimitsOf(m, session))))
    }

    /** The state when the request is over. */
    ghost predicate Over(session: string, start: Tight, refusals: seq<Report>, outcome: Outcome)
      reads this, m
    {
      && Valid() && OutcomeMatches(outcome) && attempts <= MAX_RETRIES + 1 && calls <= RouteCalls(w, attempts)
      && |refusals| <= MAX_RETRIES && (!outcome.Settled? ==> m.TightOf(session) == start.After(refusals))
      && (start.Calm() ==>
            forall i, j | 0 <= i < j < |log| :: TrimLimit(log[j].limits) <= TrimLimit(log[i].limits))
    }

    /** One attempt and the decision what follows it. */
    method Round(req: Request, ghost start: Tight, ghost known: seq<Report>, ghost request: Request)
      returns (done: Option<Outcome>, next: Request, ghost refusals: seq<Report>)
      requires Between(req.session, start, known) && BudgetLaw(e, log, request.maxTokens, req.maxTokens)
      requires Telling(request, req, known) && |steps| == attempts && Measured(start)
      modifies this`calls, this`attempts, this`sent, this`log, this`steps
      modifies m`overflowAdj, m`contextWindow, m`sessionAnchors, m`calibration
      ensures Measured(start) && Elsewhere(req.session) == old(Elsewhere(req.session))
      ensures attempts == old(attempts) + 1 && next.session == req.session
      ensures done.Some? ==> Over(req.session, start, refusals, done.value)
      ensures done.None? ==> Between(req.session, start, refusals)
      ensures BudgetLaw(e, log, request.maxTokens, if calls > old(calls) then next.maxTokens else req.maxTokens)
      ensures done.None? ==> calls > old(calls)
      ensures |steps| == attempts && Story(e, w, steps, log, request, next)
      ensures done == Some(Rejected) <==> steps[attempts - 1].after.Err?
      ensures done == Some(Settled) ==> Recorded(next, start.After(refusals))
      ensures if done.None? then TriedAgain(e, w, steps, log, next, refusals)
              else refusals == steps[attempts - 1].known
    {
      hide TrimLimit, LimitsOf, Surface, FailureOf, Starts, AllDelivered, OutcomeMatches, Silent, Tagged, BudgetLaw;
      hide Story, Reported, Elsewhere, Measured, Recorded, TriedAgain, LessonOf, EndMatches, Over, Quiet;
      hide Valid;
      refusals := known;
      ghost var before := calls;
      var end;
      end, next := Attempt(req, attempts, request, start, known);
      attempts := attempts + 1;
      if end.None? {
        RejectedIsOver(req.session, start, known);
        return Some(Rejected), next, refusals;
      }
      done, refusals := Conclude(end.value, next, start, known, before);
    }

    /** What the end of a pass over the route leads to. */
    method Conclude(end: RouteEnd, final: Request, ghost start: Tight, ghost known: seq<Report>, ghost before: nat)
      returns (done: Option<Outcome>, ghost refusals: seq<Report>)
      requires Valid() && EndMatches(end, before) && |known| < attempts == |steps| && attempts <= MAX_RETRIES + 1
      requires calls <= RouteCalls(w, attempts) && m.TightOf(final.session) == start.After(known)
      requires start.Calm() ==> NeverLooser(TrimLimit(LimitsOf(m, final.session)))
      requires steps[attempts - 1].after == Ok(final) && steps[attempts - 1].known == known
      requires end.AllFailed? ==>
                 calls == RouteCalls(w, attempts) && (end.last.None? <==> w.route(attempts - 1) == [])
      requires end.Completed? ==> calls > 0 && end.usage == Reported(w, calls)
      modifies m`overflowAdj, m`contextWindow, m`sessionAnchors, m`calibration
      ensures done != Some(Rejected) && Elsewhere(final.session) == old(Elsewhere(final.session))
      ensures done.Some? ==> Over(final.session, start, refusals, done.value) && refusals == known
      ensures done.None? ==> Between(final.session, start, refusals) && calls > before
      ensures done.None? ==> TriedAgain(e, w, steps, log, final, refusals)
      ensures done == Some(Settled) ==> Recorded(final, start.After(refusals))
    {
      hide TrimLimit, LimitsOf, Surface, FailureOf, Starts, AllDelivered, OutcomeMatches, Silent, Tagged;
      hide Reported, Elsewhere, Recorded, TriedAgain, LessonOf;
      refusals := known;
      match end {
        case Completed(usage) =>
          hide Quiet;
          done := Settle(final, usage, start, known, end, before);
        case Cut(why) =>
          EndedOutcome(Broken(why), end, before);
          return Some(Broken(why)), refusals;
        case AllFailed(last) =>
          hide Quiet;
          done, refusals := AfterFailure(last, final, start, known);
          if done.None? {
            MayTryAgain(last.value, final, known, refusals);
          }
      }
    }

    lemma {:induction false} RejectedIsOver(session: string, start: Tight, known: seq<Report>)
      requires Valid() && Quiet(calls) && |known| < attempts <= MAX_RETRIES + 1 && calls <= RouteCalls(w, attempts)
      requires m.TightOf(session) == start.After(known)
      requires start.Calm() ==> NeverLooser(TrimLimit(LimitsOf(m, session)))
      ensures Over(session, start, known, Rejected)
    {
      hide TrimLimit, LimitsOf, FailureOf, Starts, AllDelivered, OutcomeMatches, Silent;
      QuietOutcome(Rejected);
    }

    lemma {:induction false} MayTryAgain(why: Failure, now: Request, known: seq<Report>, refusals: seq<Report>)
      requires steps != [] && steps[|steps| - 1].after == Ok(now) && steps[|steps| - 1].known == known
      requires |log| == calls > 0 && FailureOf(w.script(calls - 1)) == Some(why)
      requires why.Overflowed? || w.retry(|steps| - 1)
      requires refusals == known + LessonOf(e, why, now)
      ensures TriedAgain(e, w, steps, log, now, refusals)
    {
      hide FailureOf, LessonOf;
    }

    /** What a request that went through leaves of the state before: the same, or what its usage confirms. */
    ghost predicate Recorded(req: Request, before: Tight)
      reads this, m
    {
      var usage := if calls > 0 then Reported(w, calls) else 0;
      && m.TightOf(req.session) == (if usage > 0 then before.Confirmed(usage, Surface(e, req)) else before)
      && (usage > 0 && req.session != "" ==> Anchored(req, usage))
    }

    /** Records the usage of a request that went through. */
    method Settle(
      req: Request, usage: nat, ghost start: Tight, ghost known: seq<Report>, ghost end: RouteEnd, ghost before: nat)
      returns (done: Option<Outcome>)
      requires Valid() && EndMatches(end, before) && end.Completed? && m.TightOf(req.session) == start.After(known)
      requires attempts <= MAX_RETRIES + 1 && calls <= RouteCalls(w, attempts) && |known| <= MAX_RETRIES
      requires start.Calm() ==> forall i, j | 0 <= i < j < |log| :: TrimLimit(log[j].limits) <= TrimLimit(log[i].limits)
      modifies m`overflowAdj, m`sessionAnchors, m`calibration
      ensures done == Some(Settled) && Over(req.session, start, known, Settled)
      ensures calls > 0 && usage == Reported(w, calls) ==> Recorded(req, start.After(known))
      ensures Elsewhere(req.session) == old(Elsewhere(req.session))
    {
      EndedOutcome(Settled, end, before);
      SettledIsOver(req.session, start, known);
      hide *;
      if usage > 0 {
        RecordUsage(req, usage);
      }
      SettledIsOver(req.session, start, known);
      UsageIsRecorded(req, usage, start.After(known));
      return Some(Settled);
    }

    /** The anchor of the session and the average of the model learn the usage. */
    method RecordUsage(req: Request, usage: nat)
      requires usage > 0
      modifies m`overflowAdj, m`sessionAnchors, m`calibration
      ensures req.session != "" ==> Anchored(req, usage)
      ensures m.TightOf(req.session) == old(m.TightOf(req.session)).Confirmed(usage, Surface(e, req))
      ensures Elsewhere(req.session) == old(Elsewhere(req.session))
    {
      hide Survive, Shown, Surface, Calibration.Observed;
      ghost var known := if req.session in m.sessionAnchors then m.sessionAnchors[req.session].byModel else map[];
      ghost var before := m.TightOf(req.session);
      var anchor := Anchor(usage, Surface(e, req), m.modelName);
      m.RecordSessionAnchor(req.session, anchor);
      if req.session != "" {
        JustRecorded(m, req.session, anchor, known);
        OtherAnchors(old(m.sessionAnchors), m.sessionAnchors, req.session);
        OtherAdjustments(old(m.overflowAdj), req.session, Adjustment(1.0, 0, 0));
      }
      ghost var anchored := m.TightOf(req.session);
      assert anchored == if req.session == "" then before
                         else before.(validated := true, anchored := Shown(usage, Surface(e, req)), adj := None);
      m.RecordUsageSample(m.modelName, Surface(e, req), usage);
      OtherAverages(old(m.calibration), m.calibration, m.modelName);
      assert m.TightOf(req.session) == anchored.(calibration := m.CalibrationOf(m.modelName));
    }

    ghost predicate Anchored(req: Request, usage: nat)
      reads this, m
    {
      && req.session in m.sessionAnchors
      && m.sessionAnchors[req.session].latest == Anchor(usage, Surface(e, req), m.modelName)
    }

    lemma {:induction false} SettledIsOver(session: string, start: Tight, known: seq<Report>)
      requires Valid() && OutcomeMatches(Settled)
      requires attempts <= MAX_RETRIES + 1 && calls <= RouteCalls(w, attempts) && |known| <= MAX_RETRIES
      requires start.Calm() ==> forall i, j | 0 <= i < j < |log| :: TrimLimit(log[j].limits) <= TrimLimit(log[i].limits)
      ensures Over(session, start, known, Settled)
    {
      hide OutcomeMatches, Valid, TrimLimit;
    }

    lemma {:induction false} UsageIsRecorded(req: Request, usage: nat, before: Tight)
      requires usage > 0 && req.session != "" ==> Anchored(req, usage)
      requires m.TightOf(req.session) == if usage > 0 then before.Confirmed(usage, Surface(e, req)) else before
      ensures calls > 0 && usage == Reported(w, calls) ==> Recorded(req, before)
    {
      hide Reported;
    }

    /** The state when an attempt has failed on its whole route. */
    ghost predicate AttemptFailed(session: string, start: Tight, refusals: seq<Report>, last: Option<Failure>)
      reads this, m
    {
      && Valid() && Quiet(calls) && |refusals| < attempts <= MAX_RETRIES + 1 && calls == RouteCalls(w, attempts)
      && m.TightOf(session) == start.After(refusals)
      && (start.Calm() ==> NeverLooser(TrimLimit(LimitsOf(m, session))))
      && (last.None? <==> w.route(attempts - 1) == [])
      && (last.Some? ==> calls > 0 && FailureOf(w.script(calls - 1)) == last)
    }

    /** Gives up, or learns from the failure and lets the next attempt begin. */
    method AfterFailure(last: Option<Failure>, req: Request, ghost start: Tight, ghost known: seq<Report>)
      returns (done: Option<Outcome>, ghost refusals: seq<Report>)
      requires AttemptFailed(req.session, start, known, last)
      modifies m`overflowAdj, m`contextWindow, m`calibration
      ensures done.Some? ==> Over(req.session, start, refusals, done.value)
      ensures done.Some? ==> done.value.Exhausted? || done.value.NoProvider?
      ensures done.None? ==> last.Some? && Between(req.session, start, refusals)
      ensures done.None? ==> last.value.Overflowed? || w.retry(attempts - 1)
      ensures refusals == if done.None? then known + LessonOf(e, last.value, req) else known
      ensures Elsewhere(req.session) == old(Elsewhere(req.session))
    {
      hide TrimLimit, LimitsOf, Surface, FailureOf, Starts, AllDelivered, OutcomeMatches, Silent, Tagged;
      refusals := known;
      if last.None? {
        QuietOutcome(NoProvider);
        return Some(NoProvider), refusals;
      }
      if attempts > MAX_RETRIES {
        QuietOutcome(Exhausted(last.value));
        return Some(Exhausted(last.value)), refusals;
      }
      var retry;
      retry, refusals := LearnFrom(last.value, req, attempts - 1, start, refusals);
      if !retry {
        QuietOutcome(Exhausted(last.value));
        return Some(Exhausted(last.value)), refusals;
      }
      return None, refusals;
    }

    /** A whole streaming request. `refusals` is what the provider's refusals taught. */
    method ChatStream(request: Request) returns (outcome: Outcome, ghost refusals: seq<Report>)
      requires Valid() && calls == 0 && attempts == 0 && steps == []
      modifies this`calls, this`attempts, this`sent, this`log, this`steps
      modifies m`overflowAdj, m`contextWindow, m`sessionAnchors, m`calibration
      ensures Over(request.session, old(m.TightOf(request.session)), refusals, outcome)
      ensures forall i | 0 <= i < |sent| && Carries(sent[i].frame) :: sent[i].call == calls - 1
      ensures exists budget :: BudgetLaw(e, log, request.maxTokens, budget)
      ensures 0 < attempts == |steps| <= 4
      ensures exists final :: && Story(e, w, steps, log, request, final)
                              && (outcome.Settled? ==> Recorded(final, old(m.TightOf(request.session)).After(refusals)))
      ensures refusals == steps[attempts - 1].known && Measured(old(m.TightOf(request.session)))
      ensures outcome.Rejected? <==> steps[attempts - 1].after.Err?
      ensures Elsewhere(request.session) == old(Elsewhere(request.session))
    {
      hide BudgetLaw, Recorded, Story, TriedAgain, TrimLimit, LimitsOf, FailureOf, Starts, Silent;
      var req, done := request, None;
      refusals := [];
      NoBudgetYet(e, log, request.maxTokens);
      ghost var start := m.TightOf(request.session);
      NothingTold(e, w, log, request);
      while true
        invariant req.session == request.session && Between(request.session, start, refusals)
        invariant BudgetLaw(e, log, request.maxTokens, req.maxTokens)
        invariant Telling(request, req, refusals) && |steps| == attempts
        invariant Measured(start) && Elsewhere(request.session) == old(Elsewhere(request.session))
        decreases MAX_RETRIES - attempts
      {
        done, req, refusals := Round(req, start, refusals, request);
        if done.Some? {
          OneSource();
          return done.value, refusals;
        }
      }
    }

    lemma {:induction false} OneSource()
      requires Valid() && (calls > 0 ==> Quiet(calls - 1))
      ensures forall i | 0 <= i < |sent| && Carries(sent[i].frame) :: sent[i].call == calls - 1
    {
      OutputFromLastCall(w, calls);
    }

    /** After a quiet run the outcome is neither a success nor a broken stream. */
    lemma {:induction false} QuietOutcome(outcome: Outcome)
      requires Quiet(calls) && !outcome.Settled? && !outcome.Broken?
      requires outcome.Exhausted? ==>
                 && attempts > 0 && calls == RouteCalls(w, attempts)
                 && calls > 0 && Some(outcome.why) == FailureOf(w.script(calls - 1))
                 && (attempts <= MAX_RETRIES ==> outcome.why.OtherFailure? && !w.retry(attempts - 1))
      requires outcome.NoProvider? ==> attempts > 0 && calls == RouteCalls(w, attempts) && w.route(attempts - 1) == []
      ensures OutcomeMatches(outcome)
    {
      assert calls > 0 ==> Silent(w, calls - 1);
    }

    lemma {:induction false} EndedOutcome(outcome: Outcome, end: RouteEnd, before: nat)
      requires EndMatches(end, before)
      requires (end.Completed? && outcome == Settled) || (end.Cut? && outcome == Broken(end.why))
      ensures OutcomeMatches(outcome)
    {
    }

    /** The outcome, told by the provider calls alone. */
    ghost predicate OutcomeMatches(outcome: Outcome)
      reads this
    {
      && (calls > 0 ==> Quiet(calls - 1))
      && (outcome.Settled? <==> calls > 0 && FailureOf(w.script(calls - 1)).None?)
      && (outcome.Broken? <==> calls > 0 && Starts(w.script(calls - 1)) && FailureOf(w.script(calls - 1)).Some?)
      && (outcome.Broken? || outcome.Exhausted? ==> calls > 0 && Some(outcome.why) == FailureOf(w.script(calls - 1)))
      && (outcome.Exhausted? || outcome.NoProvider? ==> attempts > 0 && calls == RouteCalls(w, attempts))
      && (outcome.Exhausted? && attempts < 4 ==> outcome.why.OtherFailure? && !w.retry(attempts - 1))
      && (outcome.NoProvider? ==> w.route(attempts - 1) == [])
    }
  }

  /** What the pre-step makes of a budget: what is there stays, what is filled fits. */
  predicate BudgetFrom(e: Estimator, limits: Limits, before: int, out: Request) {
    if before != 0 then out.maxTokens == before
    else out.maxTokens == 0 || out.messages == [] || BudgetFits(e, limits, out)
  }

  lemma {:induction false} BudgetOfPreStep(
    e: Estimator, limits: Limits, req: Request, msgs: seq<Message>, changed: bool)
    requires limits.window > 0 && (!changed ==> msgs == req.messages)
    requires FinishPreStep(e, limits, req, msgs, changed).Ok?
    ensures BudgetFrom(e, limits, req.maxTokens, Repaired(FinishPreStep(e, limits, req, msgs, changed).value))
  {
    hide *;
    var out := FinishPreStep(e, limits, req, msgs, changed).value;
    RepairedBudget(out);
    if req.maxTokens != 0 {
      BudgetStays(e, limits, req, msgs, changed);
      KeptBudget(e, limits, req.maxTokens, Repaired(out));
    } else if msgs == [] {
      EmptyStays(e, limits, req, changed);
      UnmeasuredBudget(e, limits, Repaired(out));
    } else {
      FilledBudgetFits(e, limits, req, msgs, changed);
      RepairedSurface(e, out);
      FilledBudget(e, limits, out);
    }
  }

  lemma {:induction false} KeptBudget(e: Estimator, limits: Limits, budget: int, out: Request)
    requires budget != 0 && out.maxTokens == budget
    ensures BudgetFrom(e, limits, budget, out)
  {
  }

  lemma {:induction false} UnmeasuredBudget(e: Estimator, limits: Limits, out: Request)
    requires out.messages == []
    ensures BudgetFrom(e, limits, 0, out)
  {
  }

  lemma {:induction false} FilledBudget(e: Estimator, limits: Limits, out: Request)
    requires out.maxTokens == 0 || Surface(e, out) + out.maxTokens + OUTPUT_BUDGET_RESERVE <= limits.window
    requires Surface(e, Repaired(out)) <= Surface(e, out) && Repaired(out).maxTokens == out.maxTokens
    ensures BudgetFrom(e, limits, 0, Repaired(out))
  {
    hide Surface, Repaired;
  }

  lemma {:induction false} RepairedSurface(e: Estimator, req: Request)
    ensures Surface(e, Repaired(req)) <= Surface(e, req)
  {
    TokensNeverRise(e, req.messages);
    hide TotalTokens, Sanitized;
  }

  lemma {:induction false} EmptyStays(e: Estimator, limits: Limits, req: Request, changed: bool)
    requires (!changed ==> req.messages == []) && FinishPreStep(e, limits, req, [], changed).Ok?
    ensures Repaired(FinishPreStep(e, limits, req, [], changed).value).messages == []
  {
  }

  lemma {:induction false} NoBudgetYet(e: Estimator, log: seq<Dispatch>, original: int)
    requires log == []
    ensures BudgetLaw(e, log, original, original)
  {
  }

  lemma {:induction false} BudgetAfter(
    e: Estimator, before: seq<Dispatch>, after: seq<Dispatch>, original: int, current: int, request: Request,
    limits: Limits)
    requires BudgetLaw(e, before, original, current) && Continues(before, after, request, limits)
    requires BudgetFrom(e, limits, current, request)
    ensures BudgetLaw(e, after, original, if |after| > |before| then request.maxTokens else current)
  {
    hide BudgetLaw, BudgetFits;
    var more := after[|before|..];
    assert after == before + more;
    if more != [] {
      BudgetGrows(e, before, more, original, current, request, limits);
    } else {
      assert after == before;
    }
  }

  lemma {:induction false} LimitsFollow(m: Manager, session: string)
    ensures TrimLimit(LimitsOf(m, session))
         == m.TightOf(session).Limit()
  {
  }

  /** A call that fails silently delivers no output. */
  lemma {:induction false} SilentDeliversNothing(s: Script)
    requires !Starts(s)
    ensures forall i | 0 <= i < |Delivered(s)| :: !Carries(Delivered(s)[i])
  {
    if s.refused.None? {
      forall i | 0 <= i < Reach(s.frames)
        ensures !Carries(s.frames[i])
      {
        if Carries(s.frames[i]) {
          DeliveredOutputStarts(s.frames, i);
        }
      }
    }
  }

  /** If every call but the last failed silently, all output the client ever saw came from the last call. */
  lemma {:induction false} OutputFromLastCall(w: World, calls: nat)
    requires forall k | 0 <= k < calls - 1 :: Silent(w, k)
    ensures forall i | 0 <= i < |AllDelivered(w, calls)| && Carries(AllDelivered(w, calls)[i].frame) ::
              AllDelivered(w, calls)[i].call == calls - 1
  {
    if calls > 0 {
      SilentRunDeliversNothing(w, calls - 1);
    }
  }

  lemma {:induction false} SilentRunDeliversNothing(w: World, calls: nat)
    requires forall k | 0 <= k < calls :: Silent(w, k)
    ensures forall i | 0 <= i < |AllDelivered(w, calls)| :: !Carries(AllDelivered(w, calls)[i].frame)
  {
    if calls > 0 {
      SilentRunDeliversNothing(w, calls - 1);
      assert Silent(w, calls - 1);
      SilentDeliversNothing(w.script(calls - 1));
    }
  }

  /** With one route for the whole request there are at most 4 x 2 calls per provider. */
  lemma {:induction false} FixedRouteBound(w: World, attempts: nat, route: seq<string>)
    requires attempts <= 4 && forall a | 0 <= a < attempts :: w.route(a) == route
    ensures RouteCalls(w, attempts) <= 4 * 2 * |route|
  {
    RouteCallsFixed(w, attempts, route);
    assert MAX_CALLS * |route| * (4 - attempts) >= 0;
  }

  lemma {:induction false} RouteCallsFixed(w: World, attempts: nat, route: seq<string>)
    requires forall a | 0 <= a < attempts :: w.route(a) == route
    ensures RouteCalls(w, attempts) == attempts * (MAX_CALLS * |route|)
  {
    if attempts > 0 {
      RouteCallsFixed(w, attempts - 1, route);
    }
  }

  /** The call's very first step fails. */
  predicate FailsAtOnce(s: Script) {
    s.refused.Some? || s.frames == [] || s.frames[0].error.Some? || s.frames[0].undelivered
  }

  lemma {:induction false} DeliversNothing(s: Script)
    ensures Delivered(s) == [] <==> FailsAtOnce(s)
  {
    if s.refused.None? && s.frames != [] && s.frames[0].error.None? && !s.frames[0].undelivered {
      assert Reach(s.frames) >= 1;
      assert Delivered(s)[0] == s.frames[0];
    }
  }

  lemma {:induction false} DeliveredBy(w: World, calls: nat, d: Delivery)
    ensures d in AllDelivered(w, calls) <==> d.call < calls && d.frame in Delivered(w.script(d.call))
  {
    if calls > 0 {
      DeliveredBy(w, calls - 1, d);
      TaggedBy(calls - 1, Delivered(w.script(calls - 1)), d);
    }
  }

  lemma {:induction false} TaggedBy(call: nat, frames: seq<Frame>, d: Delivery)
    ensures d in Tagged(call, frames) <==> d.call == call && d.frame in frames
  {
    if d.call == call && d.frame in frames {
      var i :| 0 <= i < |frames| && frames[i] == d.frame;
      assert Tagged(call, frames)[i] == d;
    }
  }

  /** All frames a client saw, with or without output, come from the last call if and only if every call before it
      failed at its very first step. */
  lemma {:induction false} FramesComeOnce(w: World, calls: nat)
    ensures (forall d | d in AllDelivered(w, calls) :: d.call == calls - 1)
       <==> forall k | 0 <= k < calls - 1 :: FailsAtOnce(w.script(k))
  {
    if forall d | d in AllDelivered(w, calls) :: d.call == calls - 1 {
      forall k | 0 <= k < calls - 1
        ensures FailsAtOnce(w.script(k))
      {
        DeliversNothing(w.script(k));
        if Delivered(w.script(k)) != [] {
          DeliveredBy(w, calls, Delivery(k, Delivered(w.script(k))[0]));
        }
      }
    }
    if forall k | 0 <= k < calls - 1 :: FailsAtOnce(w.script(k)) {
      forall d | d in AllDelivered(w, calls)
        ensures d.call == calls - 1
      {
        DeliveredBy(w, calls, d);
        DeliversNothing(w.script(d.call));
      }
    }
  }

  /** Frames without output are not protected: a call that delivered only such frames is repeated, and the
      client sees them again. */
  lemma {:induction false} EmptyFramesRepeat(w: World, usage: Frame, broken: Frame)
    requires usage.error.None? && !usage.undelivered && !Carries(usage) && broken.error.Some?
    requires forall n :: w.script(n) == Script(None, [usage, broken])
    ensures Silent(w, 0) && Silent(w, 1)
    ensures AllDelivered(w, 2) == [Delivery(0, usage), Delivery(1, usage)]
  {
    var frames := [usage, broken];
    assert frames[1..] == [broken] && frames[..1] == [usage];
    assert Reach([broken]) == 0 && FailureAmong([broken]).Some? && !StartsAmong([broken]);
    assert Reach(frames) == 1 && FailureAmong(frames).Some? && !StartsAmong(frames);
    assert w.script(0) == w.script(1) == Script(None, frames);
    assert Delivered(w.script(0)) == Delivered(w.script(1)) == [usage];
    assert AllDelivered(w, 1) == AllDelivered(w, 0) + [Delivery(0, usage)];
    assert AllDelivered(w, 2) == AllDelivered(w, 1) + [Delivery(1, usage)];
  }

  function TrimLimit(limits: Limits): int {
    LimitFor(limits.window, limits.inflation, limits.ratio)
  }

  lemma {:induction false} AcceptedOrEmpty(
    e: Estimator, limits: Limits, req: Request, msgs: seq<Message>, changed: bool)
    requires limits.window > 0 && (!changed ==> msgs == req.messages)
    requires FinishPreStep(e, limits, req, msgs, changed).Ok?
    ensures var out := Repaired(FinishPreStep(e, limits, req, msgs, changed).value);
            out.messages != [] ==> WithinWindow(e, limits, out)
  {
    if msgs != [] {
      AcceptedRequest(e, limits, req, msgs, changed);
    }
  }

  lemma {:induction false} LearningLowers(t: Tight, reports: seq<Report>, more: seq<Report>)
    requires t.Calm()
    ensures t.After(reports + more).Limit() <= t.After(reports).Limit()
  {
    hide *;
    CalmIs(t);
    RunTightens(t, reports);
    AfterAppend(t, reports, more);
    RunTightens(t.After(reports), more);
  }

  lemma {:induction false} CalmIs(t: Tight)
    requires t.Calm()
    ensures t.Sound() && t.Known() && t.Steady()
  {
  }
}
