/** core/overflow_adjust.go and the inflation estimate of core/context_ceiling.go: what a refused request teaches. */
module Overflow {
  import opened Wrappers
  import opened Ceiling
  import opened Calibration

  /** What one session learnt from refusals; `maxTokens` 0 is unknown. */
  datatype Adjustment = Adjustment(inflation: real, maxTokens: int, attempts: int)

  /** One refusal: what the provider counted, the limit it named (0 when the text names none), our estimate. */
  datatype Report = Report(actual: nat, max: nat, sent: nat)

  /** The usage of one accepted request: the provider's count against our estimate. */
  datatype Anchor = Anchor(promptTokens: int, sentEstimate: int, model: string)

  datatype AnchorSet = AnchorSet(latest: Anchor, byModel: map<string, Anchor>)

  function TrimRatio(attempts: int): real {
    if attempts <= 0 then 0.0 else if attempts == 1 then 0.78 else if attempts == 2 then 0.68 else 0.60
  }

  function Clamp(x: real): (f: real)
    ensures 1.0 <= f <= OVERFLOW_INFLATION_MAX
  {
    var f := if x < 1.0 then 1.0 else x;
    if f > OVERFLOW_INFLATION_MAX then OVERFLOW_INFLATION_MAX else f
  }

  function MeasuredInflation(window: int, r: Report): real {
    if r.actual > 0 && r.sent > 0 then r.actual as real / r.sent as real
    else if r.sent > 0 && window > 0 && r.sent > window then r.sent as real / window as real
    else 0.0
  }

  /** The stricter of two named limits, 0 standing for none. */
  function StricterMax(prev: int, max: int): int {
    if prev > 0 && (max == 0 || prev < max) then prev else max
  }

  function Tightened(window: int, prev: Option<Adjustment>, r: Report): Adjustment {
    var f := Clamp(MeasuredInflation(window, r));
    match prev
    case None => Adjustment(f, r.max, 1)
    case Some(p) =>
      Adjustment(if p.inflation > f then p.inflation else f, StricterMax(p.maxTokens, r.max), p.attempts + 1)
  }

  function LoweredWindow(window: int, max: int): int {
    if max >= 1024 && (window <= 0 || max < window) then max else window
  }

  function EffectiveWindow(window: int, adj: Option<Adjustment>): int {
    if adj.Some? && adj.value.maxTokens > 0 && (window <= 0 || adj.value.maxTokens < window)
    then adj.value.maxTokens else window
  }

  /** The window a request is measured against: an unknown one is replaced by a conservative default. */
  function CeilingWindow(window: int, adj: Option<Adjustment>): int {
    var w := EffectiveWindow(window, adj);
    if w <= 0 then DEFAULT_CEILING_WINDOW else w
  }

  /** The bias of the estimate: by the anchor, or else by the model's average, or else none. */
  function Estimated(anchored: Option<real>, calibration: Option<Average>): real {
    match anchored
    case Some(f) => f
    case None => if calibration.Some? then ColdInflation(calibration.value) else 1.0
  }

  function CeilingInflation(estimated: real, adj: Option<Adjustment>): real {
    var f := if adj.Some? && adj.value.inflation > estimated then adj.value.inflation else estimated;
    if f > OVERFLOW_INFLATION_MAX then OVERFLOW_INFLATION_MAX else f
  }

  function CeilingRatio(validated: bool, adj: Option<Adjustment>): real {
    var ratio := if validated then CEILING_RATIO else CEILING_UNVALIDATED_RATIO;
    var r := if adj.Some? then TrimRatio(adj.value.attempts) else 0.0;
    if 0.0 < r < ratio then r else ratio
  }

  lemma {:induction false} SomeOtherModel(byModel: map<string, Anchor>, model: string)
    requires |byModel| >= 2
    ensures exists k :: k in byModel && k != model
  {
    var some :| some in byModel;
    assert |byModel.Keys - {some}| >= 1;
    var other :| other in byModel.Keys - {some};
    assert some != model || other != model;
  }

  lemma {:induction false} OneMoreSession(anchors: map<string, AnchorSet>, session: string, known: AnchorSet)
    ensures anchors[session := known].Keys == anchors.Keys + {session}
  {
  }

  lemma {:induction false} NothingLost(byModel: map<string, Anchor>, a: Anchor)
    requires a.model == ""
    ensures Survive(byModel, byModel, a)
  {
  }

  /** Keeps the anchor under its model, at the price of any other once there are four. */
  method Remember(byModel: map<string, Anchor>, a: Anchor) returns (kept: map<string, Anchor>)
    requires a.model != ""
    ensures Survive(byModel, kept, a)
  {
    kept := byModel;
    if |byModel| >= 4 {
      SomeOtherModel(byModel, a.model);
      var k :| k in byModel && k != a.model;
      kept := byModel - {k};
      assert |kept| == |byModel| - 1 by {
        assert byModel == kept[k := byModel[k]];
      }
    }
    kept := kept[a.model := a];
  }

  /** The models' anchors after a new one: nothing is invented, at most one other anchor goes, and none while there
      is room for four. */
  ghost predicate Survive(before: map<string, Anchor>, after: map<string, Anchor>, a: Anchor) {
    if a.model == "" then after == before
    else
      && a.model in after && after[a.model] == a
      && (forall k | k in after && k != a.model :: k in before && after[k] == before[k])
      && (|before| < 4 ==> before.Keys <= after.Keys)
      && (|before| >= 4 ==>
           exists gone :: gone in before && gone != a.model && after.Keys == before.Keys - {gone} + {a.model})
      && (|before| <= 4 ==> |after| <= 4)
  }

  lemma {:induction false} OtherAverages(before: map<string, Average>, after: map<string, Average>, model: string)
    requires forall other | other != model ::
               (other in after <==> other in before) && (other in before ==> after[other] == before[other])
    ensures after - {model} == before - {model}
  {
  }

  lemma {:induction false} OtherAdjustments(before: map<string, Adjustment>, session: string, adj: Adjustment)
    ensures before[session := adj] - {session} == before - {session} == before - {session} - {session}
  {
  }

  lemma {:induction false} OtherAnchors(before: map<string, AnchorSet>, after: map<string, AnchorSet>, session: string)
    requires after.Keys == before.Keys + {session}
    requires forall other | other in before && other != session :: after[other] == before[other]
    ensures after - {session} == before - {session}
  {
  }

  /** The bias an anchor shows. */
  function Shown(usage: int, sent: int): Option<real> {
    if usage <= 0 || sent <= 0 then None
    else
      var f := usage as real / sent as real;
      Some(if f < 1.0 then 1.0 else if f > ESTIMATE_INFLATION_MAX then ESTIMATE_INFLATION_MAX else f)
  }

  // ---------- The host's state ----------

  class Manager {
    var contextWindow: int
    var modelName: string
    var overflowAdj: map<string, Adjustment>
    var sessionAnchors: map<string, AnchorSet>
    var calibration: map<string, Average>
    var maxOutputBudget: int
    var maxOutputExplicit: bool

    constructor (window: int, model: string, factors: map<string, Average>)
      ensures contextWindow == window && modelName == model && calibration == factors
      ensures overflowAdj == map[] && sessionAnchors == map[] && maxOutputBudget == 0 && !maxOutputExplicit
    {
      contextWindow, modelName, calibration := window, model, factors;
      overflowAdj, sessionAnchors, maxOutputBudget, maxOutputExplicit := map[], map[], 0, false;
    }

    function OverflowFor(session: string): Option<Adjustment>
      reads this
    {
      if session in overflowAdj then Some(overflowAdj[session]) else None
    }

    /** Everything the limit of the session's next request is computed from. */
    function TightOf(session: string): Tight
      reads this
    {
      Tight(session != "", session != "" && session in sessionAnchors, AnchoredInflation(session, modelName),
            contextWindow, OverflowFor(session), CalibrationOf(modelName))
    }

    function AnchorForModel(session: string, model: string): Option<Anchor>
      reads this`sessionAnchors
    {
      if session == "" || session !in sessionAnchors then None
      else
        var known := sessionAnchors[session];
        if model != "" && model in known.byModel then Some(known.byModel[model])
        else if known.latest.promptTokens > 0 && known.latest.sentEstimate > 0 then Some(known.latest)
        else None
    }

    /** The bias a usable anchor shows. */
    function AnchoredInflation(session: string, model: string): Option<real>
      reads this`sessionAnchors
    {
      var anchor := AnchorForModel(session, model);
      if anchor.None? then None else Shown(anchor.value.promptTokens, anchor.value.sentEstimate)
    }

    /** The model's average; no model has none. */
    function CalibrationOf(model: string): Option<Average>
      reads this`calibration
    {
      if model == "" then None else Some(if model in calibration then calibration[model] else NOTHING)
    }

    function EstimateInflation(session: string, model: string): real
      reads this`sessionAnchors, this`calibration
    {
      Estimated(AnchoredInflation(session, model), CalibrationOf(model))
    }

    /** Takes one settled or refused request into the model's average. */
    method RecordUsageSample(model: string, sent: nat, actual: nat)
      modifies this`calibration
      ensures calibration ==
                if model == "" || !Sampled(actual, sent) then old(calibration)
                else
                  var c := if model in old(calibration) then old(calibration)[model] else Average(0.0, 0);
                  old(calibration)[model := Observed(c, actual, sent)]
      ensures model != "" ==> CalibrationOf(model) == Some(Observed(old(CalibrationOf(model)).value, actual, sent))
      ensures forall other | other != model ::
                (other in calibration <==> other in old(calibration))
                && (other in calibration ==> calibration[other] == old(calibration)[other])
    {
      if actual <= 0 || sent <= 0 || model == "" {
        return;
      }
      var ratio := actual as real / sent as real;
      if ratio < 1.0 / MAX_RATIO || ratio > MAX_RATIO {
        return;
      }
      var c := if model in calibration then calibration[model] else NOTHING;
      if c.samples == 0 {
        c := c.(factor := ratio);
      } else {
        c := c.(factor := c.factor * (1.0 - ALPHA) + ratio * ALPHA);
      }
      calibration := calibration[model := c.(samples := c.samples + 1)];
    }

    /** Records one refusal: this session's budget tightens, and so may the window of the whole process. */
    method NoteOverflow(session: string, r: Report)
      modifies this`overflowAdj, this`contextWindow
      ensures session == "" ==> overflowAdj == old(overflowAdj) && contextWindow == old(contextWindow)
      ensures session != "" ==>
                && overflowAdj == old(overflowAdj)[session :=
                     Tightened(old(contextWindow),
                               if session in old(overflowAdj) then Some(old(overflowAdj)[session]) else None, r)]
                && contextWindow == LoweredWindow(old(contextWindow), r.max)
    {
      if session == "" {
        return;
      }
      var adj := Adjustment(0.0, r.max, 0);
      if r.actual > 0 && r.sent > 0 {
        adj := adj.(inflation := r.actual as real / r.sent as real);
      } else if r.sent > 0 && contextWindow > 0 && r.sent > contextWindow {
        adj := adj.(inflation := r.sent as real / contextWindow as real);
      }
      if adj.inflation < 1.0 {
        adj := adj.(inflation := 1.0);
      }
      if adj.inflation > OVERFLOW_INFLATION_MAX {
        adj := adj.(inflation := OVERFLOW_INFLATION_MAX);
      }
      if session in overflowAdj {
        var prev := overflowAdj[session];
        if prev.inflation > adj.inflation {
          adj := adj.(inflation := prev.inflation);
        }
        if prev.maxTokens > 0 && (adj.maxTokens == 0 || prev.maxTokens < adj.maxTokens) {
          adj := adj.(maxTokens := prev.maxTokens);
        }
        adj := adj.(attempts := prev.attempts);
      }
      adj := adj.(attempts := adj.attempts + 1);
      overflowAdj := overflowAdj[session := adj];
      if r.max >= 1024 {
        if contextWindow <= 0 || r.max < contextWindow {
          contextWindow := r.max;
        }
      }
    }

    /** Forgets what refusals taught about one session. */
    method ClearOverflow(session: string)
      modifies this`overflowAdj
      ensures overflowAdj == if session == "" then old(overflowAdj) else old(overflowAdj) - {session}
    {
      if session == "" {
        return;
      }
      overflowAdj := overflowAdj - {session};
    }

    /** An accepted request: the refusals of the session are forgotten and its usage becomes the anchor. */
    method RecordSessionAnchor(session: string, a: Anchor)
      modifies this`overflowAdj, this`sessionAnchors
      ensures session == "" || a.promptTokens <= 0 ==>
                overflowAdj == old(overflowAdj) && sessionAnchors == old(sessionAnchors)
      ensures session != "" && a.promptTokens > 0 ==>
                && overflowAdj == old(overflowAdj) - {session}
                && sessionAnchors.Keys == old(sessionAnchors).Keys + {session}
                && sessionAnchors[session].latest == a
                && (forall other | other in old(sessionAnchors) && other != session ::
                      sessionAnchors[other] == old(sessionAnchors)[other])
                && Survive(if session in old(sessionAnchors) then old(sessionAnchors)[session].byModel else map[],
                           sessionAnchors[session].byModel, a)
    {
      hide *;
      if session == "" || a.promptTokens <= 0 {
        return;
      }
      ClearOverflow(session);
      var byModel := if session in sessionAnchors then sessionAnchors[session].byModel else map[];
      if a.model != "" {
        byModel := Remember(byModel, a);
      } else {
        NothingLost(byModel, a);
      }
      OneMoreSession(sessionAnchors, session, AnchorSet(a, byModel));
      sessionAnchors := sessionAnchors[session := AnchorSet(a, byModel)];
    }
  }

  /** The anchor that speaks for a model: its own, or else the session's latest one. */
  ghost predicate SpeaksFor(m: Manager, session: string, model: string, a: Anchor)
    reads m
  {
    && session != "" && session in m.sessionAnchors
    && if model != "" && model in m.sessionAnchors[session].byModel then a == m.sessionAnchors[session].byModel[model]
       else a == m.sessionAnchors[session].latest
  }

  /** A usage just recorded for the host's model is what its anchor shows. */
  lemma {:induction false} JustRecorded(m: Manager, session: string, a: Anchor, before: map<string, Anchor>)
    requires session != "" && session in m.sessionAnchors && a.promptTokens > 0 && a.model == m.modelName
    requires m.sessionAnchors[session].latest == a && Survive(before, m.sessionAnchors[session].byModel, a)
    ensures m.AnchoredInflation(session, m.modelName) == Shown(a.promptTokens, a.sentEstimate)
  {
  }

  /** The anchored bias is the count over the estimate of the anchor that speaks for the model, if both are positive,
      and is kept between 1 and 1.5. */
  lemma {:induction false} AnchoredExactly(m: Manager, session: string, model: string, f: real)
    ensures m.AnchoredInflation(session, model) == Some(f)
       <==> exists a :: SpeaksFor(m, session, model, a) && a.promptTokens > 0 && a.sentEstimate > 0
                        && (var q := a.promptTokens as real / a.sentEstimate as real;
                            f == if q < 1.0 then 1.0 else if q > 1.5 then 1.5 else q)
  {
    if session != "" && session in m.sessionAnchors {
      var known := m.sessionAnchors[session];
      var a := if model != "" && model in known.byModel then known.byModel[model] else known.latest;
      assert SpeaksFor(m, session, model, a);
    }
  }

  /** Without a usable anchor the bias is the model's average once it rests on three samples, and none before. */
  lemma {:induction false} ColdExactly(m: Manager, session: string, model: string)
    requires m.AnchoredInflation(session, model).None?
    ensures m.EstimateInflation(session, model)
         == if model != "" && model in m.calibration && m.calibration[model].samples >= 3
               && m.calibration[model].factor > 0.0
            then m.calibration[model].factor else 1.0
  {
  }

  // ---------- A run of refusals ----------

  /** What the limit of a session's next request is computed from. An unnamed session keeps no record of refusals;
      a validated one has an anchor of some model, an anchored one a usable anchor with the bias it shows. */
  datatype Tight = Tight(named: bool, validated: bool, anchored: Option<real>, window: int, adj: Option<Adjustment>,
                         calibration: Option<Average>)
  {
    /** A refusal also moves the model's average when the provider names its count. */
    function Noted(r: Report): Tight {
      var average := if calibration.Some? then Some(Observed(calibration.value, r.actual, r.sent)) else None;
      if named then this.(window := LoweredWindow(window, r.max), adj := Some(Tightened(window, adj, r)),
          calibration := average)
      else this.(calibration := average)
    }

    /** A request of `sent` tokens went through and was counted as `usage`: that is the anchor and a sample, and what
        refusals taught is forgotten. */
    function Confirmed(usage: nat, sent: nat): Tight {
      var average := if calibration.Some? then Some(Observed(calibration.value, usage, sent)) else None;
      if named then this.(validated := true, anchored := Shown(usage, sent), adj := None, calibration := average)
      else this.(calibration := average)
    }

    function After(reports: seq<Report>): Tight
      decreases |reports|
    {
      if reports == [] then this else Noted(reports[0]).After(reports[1..])
    }

    function Window(): int {
      CeilingWindow(window, adj)
    }

    /** The factor estimates are scaled by; `LimitFor` only ever scales up. */
    function Inflation(): (f: real)
      ensures f >= 1.0
    {
      AtLeastOne(CeilingInflation(Estimated(anchored, calibration), adj))
    }

    function Ratio(): real {
      CeilingRatio(validated, adj)
    }

    /** The token limit the next request is trimmed to. */
    function Limit(): int {
      LimitFor(Window(), Inflation(), Ratio())
    }

    /** That many tokens, scaled up by `f`, fit the share of the window. */
    predicate Affords(tokens: int, f: real) {
      tokens as real * f <= Share(Window(), Ratio()) as real
    }

    predicate Known() {
      EffectiveWindow(window, adj) > 0
    }

    /** Holds of every adjustment `NoteOverflow` ever stored. */
    predicate Sound() {
      adj.Some? ==>
          1.0 <= adj.value.inflation <= OVERFLOW_INFLATION_MAX && adj.value.maxTokens >= 0 && adj.value.attempts >= 1
    }

    /** The inflation that refusals have taught. */
    function Learnt(): real {
      if adj.Some? then adj.value.inflation else 1.0
    }

    /** No refusal can talk the estimate down: it rests on an anchor, or there is no average, or the average stands
        below what refusals taught. */
    predicate Steady() {
      anchored.Some? || calibration.None? || (named && calibration.value.factor <= Learnt())
    }

    /** Refusals can only tighten from here on. */
    predicate Calm() {
      Sound() && Known() && Steady()
    }
  }

  lemma {:induction false} AfterAppend(t: Tight, reports: seq<Report>, more: seq<Report>)
    ensures t.After(reports + more) == t.After(reports).After(more)
    decreases |reports|
  {
    if reports == [] {
      assert reports + more == more;
    } else {
      assert (reports + more)[1..] == reports[1..] + more;
      AfterAppend(t.Noted(reports[0]), reports[1..], more);
    }
  }

  lemma {:induction false} NotedTightens(t: Tight, r: Report)
    requires t.Sound()
    ensures t.Noted(r).Sound()
    ensures t.Learnt() <= t.Noted(r).Learnt()
    ensures t.named ==>
          t.Noted(r).adj.Some? && t.Noted(r).adj.value.attempts == (if t.adj.Some? then t.adj.value.attempts else 0) + 1
    ensures t.Known() ==>
          t.Noted(r).Known() && EffectiveWindow(t.Noted(r).window, t.Noted(r).adj) <= EffectiveWindow(t.window, t.adj)
    ensures t.Known() ==> 0 < t.Noted(r).Window() <= t.Window()
    ensures 0.0 < t.Noted(r).Ratio() <= t.Ratio() <= 1.0
  {
  }

  /** One refusal never widens the window a request is measured against, if and only if the session is unnamed, or a
      window was known before, or the provider names no limit above the 128K default that stood in for it. */
  lemma {:induction false} WindowNeverWidens(t: Tight, r: Report)
    requires t.Sound()
    ensures t.Noted(r).Window() <= t.Window() <==> !t.named || t.Known() || r.max <= DEFAULT_CEILING_WINDOW
  {
  }

  // The inflation of a steady state is what refusals taught, unless an anchor says more.
  lemma {:induction false} SteadyInflation(t: Tight)
    requires t.Sound() && t.Steady()
    ensures t.anchored.None? ==> t.Inflation() == t.Learnt()
  {
  }

  lemma {:induction false} SteadyStays(t: Tight, r: Report)
    requires t.Sound() && t.Steady()
    ensures t.Noted(r).Steady() && t.Noted(r).Inflation() >= t.Inflation()
  {
    if t.anchored.None? {
      if t.calibration.Some? && Sampled(r.actual, r.sent) {
        BlendIsBetween(t.calibration.value.factor, Calibration.Ratio(r.actual, r.sent));
      }
      NotedTightens(t, r);
      assert t.Noted(r).Steady();
      SteadyInflation(t);
      SteadyInflation(t.Noted(r));
    }
  }

  /** The refusal is a sample that counts, of an average that is trusted, and no anchor stands before it. */
  predicate Speaks(t: Tight, r: Report) {
    t.anchored.None? && t.calibration.Some? && Trusted(t.calibration.value) && Sampled(r.actual, r.sent)
  }

  /** A refusal lowers the inflation if and only if no anchor stands before a trusted average that is above both what
      refusals taught and what this one reports, and the cap of 8 does not hide it. */
  lemma {:induction false} InflationFallsExactly(t: Tight, r: Report)
    requires t.Sound()
    ensures t.Noted(r).Inflation() < t.Inflation()
       <==> && Speaks(t, r)
            && var average, reported := t.calibration.value.factor, Calibration.Ratio(r.actual, r.sent);
               && t.Learnt() < average && t.Learnt() < OVERFLOW_INFLATION_MAX
               && reported < average && Blend(average, reported) < OVERFLOW_INFLATION_MAX
  {
    if t.calibration.Some? && Sampled(r.actual, r.sent) {
      BlendIsBetween(t.calibration.value.factor, Calibration.Ratio(r.actual, r.sent));
    }
  }

  lemma {:induction false} SmallerShare(w1: int, w2: int, r1: real, r2: real)
    requires 0 <= w1 <= w2 && 0.0 < r1 <= r2
    ensures 0 <= Share(w1, r1) <= Share(w2, r2)
  {
    assert w1 as real * r1 >= 0.0;
    assert (w2 - w1) as real * r1 >= 0.0;
    assert w2 as real * (r2 - r1) >= 0.0;
    assert w1 as real * r1 <= w2 as real * r1 <= w2 as real * r2;
  }

  lemma {:induction false} SmallerShrunk(l1: int, l2: int, f1: real, f2: real)
    requires 0 <= l1 <= l2 && f1 >= f2 >= 1.0
    ensures Shrunk(l1, f1) <= Shrunk(l2, f2)
  {
    DivideLess(l1 as real, l2 as real, f1, f2);
    assert l2 as real / 1.0 == l2 as real;
  }

  lemma {:induction false} DivideLess(a: real, b: real, f: real, g: real)
    requires 0.0 <= a <= b && f >= g >= 1.0
    ensures a / f <= b / g
  {
    var q := a / f;
    assert q * f == a && q >= 0.0;
    assert q * (f - g) >= 0.0;
    assert q * g <= b;
    var p := b / g;
    assert p * g == b;
    assert (p - q) * g >= 0.0;
    if p < q {
      assert (q - p) * g > 0.0;
    }
  }

  lemma {:induction false} LimitMonotone(w1: int, w2: int, f1: real, f2: real, r1: real, r2: real)
    requires 0 <= w1 <= w2 && f1 >= f2 && 0.0 < r1 <= r2 <= 1.0
    ensures LimitFor(w1, f1, r1) <= LimitFor(w2, f2, r2)
  {
    hide Share, Shrunk;
    SmallerShare(w1, w2, SaneRatio(r1), SaneRatio(r2));
    SmallerShrunk(Share(w1, SaneRatio(r1)), Share(w2, SaneRatio(r2)), AtLeastOne(f1), AtLeastOne(f2));
  }

  lemma {:induction false} NotedLowersLimit(t: Tight, r: Report)
    requires t.Sound() && t.Known() && t.Noted(r).Inflation() >= t.Inflation()
    ensures t.Noted(r).Limit() <= t.Limit()
  {
    NotedTightens(t, r);
    hide *;
    LimitMonotone(t.Noted(r).Window(), t.Window(), t.Noted(r).Inflation(), t.Inflation(), t.Noted(r).Ratio(),
        t.Ratio());
  }

  /** Over any run of refusals of one session with a known window, from a steady state: the inflation stays in [1, 8]
      and never falls, the window never widens, and the limit the next request is trimmed to never grows. */
  lemma {:induction false} RunTightens(t: Tight, reports: seq<Report>)
    requires t.Sound() && t.Known() && t.Steady()
    ensures var t' := t.After(reports);
            && t'.Sound() && t'.Known() && t'.Steady()
            && t.Learnt() <= t'.Learnt() && t.Inflation() <= t'.Inflation()
            && t'.Window() <= t.Window() && t'.Limit() <= t.Limit()
    decreases |reports|
  {
    if reports != [] {
      NotedTightens(t, reports[0]);
      SteadyStays(t, reports[0]);
      NotedLowersLimit(t, reports[0]);
      hide *;
      AfterFirst(t, reports);
      RunTightens(t.Noted(reports[0]), reports[1..]);
    }
  }

  lemma {:induction false} AfterFirst(t: Tight, reports: seq<Report>)
    requires reports != []
    ensures t.After(reports) == t.Noted(reports[0]).After(reports[1..])
  {
  }

  /** The strongest ratio that speaks after a refusal that moves the average, up to the cap. */
  function Evidence(t: Tight, r: Report): real
    requires Speaks(t, r)
  {
    var reported := Calibration.Ratio(r.actual, r.sent);
    var strongest := Larger(Larger(t.Learnt(), if t.named then reported else 1.0),
                            Larger(1.0, Blend(t.calibration.value.factor, reported)));
    if strongest > OVERFLOW_INFLATION_MAX then OVERFLOW_INFLATION_MAX else strongest
  }

  function Larger(a: real, b: real): real {
    if a < b then b else a
  }

  lemma {:induction false} EvidenceIsInflation(t: Tight, r: Report)
    requires t.Sound() && Speaks(t, r)
    ensures t.Noted(r).Inflation() == Evidence(t, r)
  {
    BlendIsBetween(t.calibration.value.factor, Calibration.Ratio(r.actual, r.sent));
  }

  // A floored quotient passes a bound exactly when the dividend does.
  lemma {:induction false} ShrunkAbove(share: int, f: real, limit: int)
    requires f >= 1.0
    ensures Shrunk(share, f) > limit <==> (limit + 1) as real * f <= share as real
  {
    if f > 1.0 {
      var q := share as real / f;
      assert q * f == share as real;
      assert q.Floor > limit <==> q >= (limit + 1) as real;
      if q >= (limit + 1) as real {
        assert (q - (limit + 1) as real) * f >= 0.0;
      } else {
        assert ((limit + 1) as real - q) * f > 0.0;
      }
    }
  }

  /** Where a given refusal moves the average, the next limit grows if and only if one token more than the present
      limit, scaled by all that speaks after the refusal, still fits the share of the window that is left. */
  lemma {:induction false} LimitGrowsExactly(t: Tight, r: Report)
    requires t.Sound() && t.Known() && Speaks(t, r)
    ensures t.Noted(r).Limit() > t.Limit()
       <==> t.Noted(r).Affords(t.Limit() + 1, Evidence(t, r))
  {
    EvidenceIsInflation(t, r);
    NotedTightens(t, r);
    hide *;
    LimitAbove(t.Noted(r), t.Limit(), Evidence(t, r));
  }

  lemma {:induction false} LimitAbove(t: Tight, limit: int, f: real)
    requires 0.0 < t.Ratio() <= 1.0 && f == t.Inflation()
    ensures t.Limit() > limit <==> t.Affords(limit + 1, f)
  {
    hide *;
    LimitIs(t);
    AffordsIs(t, limit + 1, f);
    ShrunkAbove(Share(t.Window(), t.Ratio()), t.Inflation(), limit);
  }

  lemma {:induction false} AffordsIs(t: Tight, tokens: int, f: real)
    ensures t.Affords(tokens, f) <==> tokens as real * f <= Share(t.Window(), t.Ratio()) as real
  {
  }

  lemma {:induction false} LimitIs(t: Tight)
    requires 0.0 < t.Ratio() <= 1.0
    ensures t.Limit() == Shrunk(Share(t.Window(), t.Ratio()), t.Inflation())
  {
  }

  // ---------- Whether any refusal can loosen ----------

  /** The trim ratio after one more refusal, whatever it says. */
  function NextRatio(t: Tight): real {
    var attempts := if t.adj.Some? then t.adj.value.attempts else 0;
    CeilingRatio(t.validated, if t.named then Some(Adjustment(1.0, 0, attempts + 1)) else t.adj)
  }

  /** The least inflation a refusal can leave of a trusted average: one that reports an eighth of the estimate, the
      lowest ratio that still counts as a sample. */
  function LeastInflation(t: Tight): real
    requires t.calibration.Some?
  {
    var strongest := Larger(t.Learnt(), Larger(1.0, Blend(t.calibration.value.factor, 1.0 / MAX_RATIO)));
    if strongest > OVERFLOW_INFLATION_MAX then OVERFLOW_INFLATION_MAX else strongest
  }

  /** No anchor stands before a trusted average, and one token more than the present limit, scaled by the least
      inflation a refusal can leave, fits the share of the window the next retry has. */
  predicate CanLoosen(t: Tight) {
    && t.anchored.None? && t.calibration.Some? && Trusted(t.calibration.value)
    && (t.Limit() + 1) as real * LeastInflation(t) <= Share(t.Window(), NextRatio(t)) as real
  }

  const LOWEST := Report(1, 0, 8)

  /** In a state with a known window some refusal makes the next limit grow if and only if the state can loosen. */
  lemma {:induction false} LoosensExactly(t: Tight)
    requires t.Sound() && t.Known()
    ensures (exists r :: t.Noted(r).Limit() > t.Limit()) <==> CanLoosen(t)
  {
    if r :| t.Noted(r).Limit() > t.Limit() {
      GrowthNeedsLoose(t, r);
    }
    if CanLoosen(t) {
      LowestLoosens(t);
    }
  }

  lemma {:induction false} LowestLoosens(t: Tight)
    requires t.Sound() && t.Known() && CanLoosen(t)
    ensures t.Noted(LOWEST).Limit() > t.Limit()
  {
    hide *;
    LooseMeans(t);
    LowestSpeaks(t);
    LowestKeepsWindow(t);
    RatioIsNext(t, LOWEST);
    AffordsIs(t.Noted(LOWEST), t.Limit() + 1, LeastInflation(t));
    LimitGrowsExactly(t, LOWEST);
  }

  lemma {:induction false} LooseMeans(t: Tight)
    requires CanLoosen(t)
    ensures t.anchored.None? && t.calibration.Some? && Trusted(t.calibration.value)
    ensures (t.Limit() + 1) as real * LeastInflation(t) <= Share(t.Window(), NextRatio(t)) as real
  {
    hide LeastInflation, NextRatio, Share;
  }

  lemma {:induction false} LowestSpeaks(t: Tight)
    requires t.anchored.None? && t.calibration.Some? && Trusted(t.calibration.value) && t.Sound()
    ensures Speaks(t, LOWEST) && Evidence(t, LOWEST) == LeastInflation(t)
  {
    assert Calibration.Ratio(1, 8) == 1.0 / MAX_RATIO;
  }

  lemma {:induction false} LowestKeepsWindow(t: Tight)
    requires t.Sound() && t.Known()
    ensures t.Noted(LOWEST).Window() == t.Window()
  {
  }

  lemma {:induction false} RatioIsNext(t: Tight, r: Report)
    ensures t.Noted(r).Ratio() == NextRatio(t)
  {
  }

  lemma {:induction false} GrowthNeedsLoose(t: Tight, r: Report)
    requires t.Sound() && t.Known() && t.Noted(r).Limit() > t.Limit()
    ensures CanLoosen(t)
  {
    hide *;
    if t.Noted(r).Inflation() >= t.Inflation() {
      NotedLowersLimit(t, r);
    }
    InflationFallsExactly(t, r);
    GrowthSpeaks(t, r);
    LimitGrowsExactly(t, r);
    NotedTightens(t, r);
    RatioIsNext(t, r);
    AffordsIs(t.Noted(r), t.Limit() + 1, Evidence(t, r));
    SmallerShare(t.Noted(r).Window(), t.Window(), NextRatio(t), NextRatio(t));
    LimitIsNatural(t);
    LeastIsLeast(t, r);
    LessScaled(t.Limit() + 1, LeastInflation(t), Evidence(t, r));
    LooseIs(t);
  }

  lemma {:induction false} GrowthSpeaks(t: Tight, r: Report)
    requires Speaks(t, r)
    ensures t.anchored.None? && t.calibration.Some? && Trusted(t.calibration.value)
  {
  }

  lemma {:induction false} LooseIs(t: Tight)
    requires t.anchored.None? && t.calibration.Some? && Trusted(t.calibration.value)
    requires (t.Limit() + 1) as real * LeastInflation(t) <= Share(t.Window(), NextRatio(t)) as real
    ensures CanLoosen(t)
  {
    hide LeastInflation, NextRatio, Share;
  }

  lemma {:induction false} LimitIsNatural(t: Tight)
    requires t.Sound() && t.Known()
    ensures t.Limit() >= 0
  {
    NotedTightens(t, LOWEST);
    LimitIs(t);
    SmallerShare(0, t.Window(), t.Ratio(), t.Ratio());
    hide Share;
    if t.Inflation() > 1.0 {
      assert Share(t.Window(), t.Ratio()) as real / t.Inflation() >= 0.0;
    }
  }

  lemma {:induction false} LeastIsLeast(t: Tight, r: Report)
    requires Speaks(t, r)
    ensures LeastInflation(t) <= Evidence(t, r)
  {
    var reported := Calibration.Ratio(r.actual, r.sent);
    assert Blend(t.calibration.value.factor, 1.0 / MAX_RATIO) <= Blend(t.calibration.value.factor, reported);
  }

  lemma {:induction false} LessScaled(n: int, a: real, b: real)
    requires n >= 0 && a <= b
    ensures n as real * a <= n as real * b
  {
    assert n as real * (b - a) >= 0.0;
  }

  /** A session without an anchor whose average was high: a refusal that reports the estimate as exact talks the
      average down, and the next request may be larger. */
  lemma {:induction false} RefusalLoosens()
    ensures var t := Tight(true, false, None, 100000, None, Some(Average(1.2, 3)));
            t.Limit() == 66666 && t.Noted(Report(60000, 0, 60000)).Limit() == 67241
  {
    var t := Tight(true, false, None, 100000, None, Some(Average(1.2, 3)));
    var t' := t.Noted(Report(60000, 0, 60000));
    assert Calibration.Ratio(60000, 60000) == 1.0;
    assert t'.calibration == Some(Average(1.16, 4));
    assert t.Inflation() == 1.2 && t'.Inflation() == 1.16;
    assert (80000.0 / 1.2).Floor == 66666 && (78000.0 / 1.16).Floor == 67241;
  }

  function RatioAfter(refusals: nat): real
    requires refusals > 0
  {
    if refusals == 1 then 0.78 else if refusals == 2 then 0.68 else 0.60
  }

  /** From a clean session the trim ratio steps 0.78, 0.68, 0.60 and holds there. */
  lemma {:induction false} RatioSteps(t: Tight, reports: seq<Report>)
    requires t.Sound() && t.named && reports != []
    ensures var t' := t.After(reports);
            && t'.adj.Some? && t'.adj.value.attempts == (if t.adj.Some? then t.adj.value.attempts else 0) + |reports|
            && (t.adj.None? ==> t'.Ratio() == RatioAfter(|reports|))
    decreases |reports|
  {
    NotedTightens(t, reports[0]);
    if |reports| > 1 {
      RatioSteps(t.Noted(reports[0]), reports[1..]);
    }
  }
}
