/** Whom the gates ask, and what their refusals say. */
module GateReasons {
  import opened Wrappers
  import opened Gates
  import opened GateLaws

  // ---------- The policy in force ----------

  /** No prompt may be shown: the call says so, or, unless it says otherwise, its session does, or else the global
      setting if there is one, or else full access. */
  predicate MayNotAsk(s: Settings, c: Call) {
    || c.policy == "never"
    || (c.policy != "ask"
        && if c.session != "" && c.session in s.sessionApproval then s.sessionApproval[c.session] == Never
           else if s.globalExplicit then s.globalApproval == Never
           else s.sandbox == FullAccess)
  }

  lemma {:induction false} PolicyExactly(s: Settings, c: Call)
    ensures EffectivePolicy(s, c) == Never <==> MayNotAsk(s, c)
  {
  }

  // ---------- Arguments ----------

  /** The wish for a mode and its justification are the arguments' own. */
  lemma {:induction false} WishesAre(c: Call)
    ensures c.args.Some? ==>
              Permissions(c) == c.args.value.permissions && Justification(c) == c.args.value.justification
    ensures c.args.None? ==> Permissions(c) == "" && Justification(c) == ""
  {
  }

  // ---------- Questions ----------

  /** The user is asked about a wider mode. */
  predicate AsksForMode(env: Env, s: Settings, c: Call) {
    && Confined(c) && WiderTarget(env, s, c).Some? && Trim(Justification(c)) != ""
    && !s.userGrantAll && !MayNotAsk(s, c)
  }

  /** The user is asked about the tool. */
  predicate AsksForTool(s: Settings, c: Call) {
    && c.info.Asks? && Trim(c.info.reason) != ""
    && !(s.perScope && c.info.scopes != [] && Names(c.info.scopes) <= s.granted)
    && !c.userGrant && !s.userGrantAll && !MayNotAsk(s, c)
  }

  /** What the question about the tool names: at per-scope granularity what is missing, otherwise all it declares. */
  function Named(s: Settings, c: Call): seq<string> {
    if !c.info.Asks? then []
    else if s.perScope && c.info.scopes != [] then Missing(s.granted, c.info.scopes) else c.info.scopes
  }

  function Questions(env: Env, s: Settings, c: Call): seq<Question> {
    (if AsksForMode(env, s, c) then [EscalateTo(WiderTarget(env, s, c).value)] else [])
    + (if EscalationConsent(env, s, c) && AsksForTool(s, c) then [RunTool(Named(s, c))] else [])
  }

  lemma {:induction false} EscalationAsks(env: Env, c: Call, s: Settings)
    ensures EscalationGate(env, c, Run(s, Unmarked, [])).run.questions
         == if AsksForMode(env, s, c) then [EscalateTo(WiderTarget(env, s, c).value)] else []
    ensures EscalationGate(env, c, Run(s, Unmarked, [])).run.s == s
  {
    PolicyExactly(s, c);
    BlankTrims();
  }

  lemma {:induction false} ToolAsks(c: Call, run: Run)
    ensures ToolGate(c, run).run.questions
         == run.questions + if AsksForTool(run.s, c) then [RunTool(Named(run.s, c))] else []
  {
    PolicyExactly(run.s, c);
    if c.info.Asks? {
      MissingNothing(run.s.granted, c.info.scopes);
    }
  }

  lemma {:induction false} OthersAskNothing(env: Env, ls: seq<Listener>, c: Call, run: Run)
    requires Escalation !in ls && ToolApproval !in ls
    ensures Chain(env, ls, c, run).run == run
  {
    if ls != [] {
      assert ls == [ls[0]] + ls[1..];
      OthersAskNothing(env, ls[1..], c, run);
    }
  }

  /** With the registered gates the user is asked exactly these questions, in this order. */
  lemma {:induction false} QuestionsExactly(env: Env, policies: seq<Listener>, c: Call, s: Settings)
    requires AllPolicies(policies)
    ensures Handle(env, REGISTERED + policies, c, s).run.questions == Questions(env, s, c)
  {
    var run := Run(s, Unmarked, []);
    var one := EscalationGate(env, c, run);
    var rest := [ToolApproval] + ([NeverApproval, Sandbox] + policies);
    assert REGISTERED + policies == [Escalation] + rest;
    ChainHead(env, Escalation, rest, c, run);
    EscalationAsks(env, c, s);
    EscalationExactly(env, c, s);
    if one.Go? {
      var two := ToolGate(c, one.run);
      ChainHead(env, ToolApproval, [NeverApproval, Sandbox] + policies, c, one.run);
      ToolAsks(c, one.run);
      NoGatesBehind(policies);
      OthersAskNothing(env, [NeverApproval, Sandbox] + policies, c, two.run);
    }
  }

  lemma {:induction false} NoGatesBehind(policies: seq<Listener>)
    requires AllPolicies(policies)
    ensures Escalation !in [NeverApproval, Sandbox] + policies && ToolApproval !in [NeverApproval, Sandbox] + policies
  {
  }

  // ---------- Refusals ----------

  /** What a refusal says is so. */
  predicate IsTrue(env: Env, s: Settings, c: Call, policies: seq<Listener>, why: Refusal) {
    match why
    case BadMode => Confined(c) && Permissions(c) != "" && ParseMode(env, Permissions(c)).None?
    case NoJustification => WiderTarget(env, s, c).Some? && Justification(c) == ""
    case BlankJustification => WiderTarget(env, s, c).Some? && Justification(c) != "" && Trim(Justification(c)) == ""
    case PromptsDisabled => MayNotAsk(s, c) && !s.userGrantAll
    case NeedsNever => !c.info.Unknown? && c.info.requiresNever && !MayNotAsk(s, c)
    case PolicyDenied => Policy(true) in policies
    case SandboxDenied(mode) => mode == JudgedUnder(env, s, c) && !Permits(env, mode, c.tool, c.args)
    case Declined(answer) =>
      || (AsksForMode(env, s, c) && answer == c.onEscalation && answer != AllowedOnce)
      || (AsksForTool(s, c) && answer == c.onTool && answer != AllowedOnce)
    case HookVetoed => false
  }

  lemma {:induction false} EscalationIsTrue(env: Env, c: Call, s: Settings, policies: seq<Listener>)
    ensures var step := EscalationGate(env, c, Run(s, Unmarked, []));
            step.Stop? ==> IsTrue(env, s, c, policies, step.why)
  {
    PolicyExactly(s, c);
    BlankTrims();
  }

  lemma {:induction false} ToolIsTrue(env: Env, c: Call, run: Run, s: Settings, policies: seq<Listener>)
    requires run.s == s
    ensures ToolGate(c, run).Stop? ==> IsTrue(env, s, c, policies, ToolGate(c, run).why)
  {
    PolicyExactly(s, c);
    if c.info.Asks? {
      MissingNothing(s.granted, c.info.scopes);
    }
  }

  lemma {:induction false} PoliciesAreTrue(env: Env, policies: seq<Listener>, c: Call, run: Run)
    requires AllPolicies(policies)
    ensures var step := Chain(env, policies, c, run);
            step.Stop? ==> step.why == PolicyDenied && Policy(true) in policies
  {
    if policies != [] {
      assert policies == [policies[0]] + policies[1..];
      PoliciesAreTrue(env, policies[1..], c, run);
    }
  }

  /** Whatever the registered gates and the policies refuse with is so. */
  lemma {:induction false} RefusalsAreTrue(env: Env, policies: seq<Listener>, c: Call, s: Settings)
    requires AllPolicies(policies)
    ensures var step := Handle(env, REGISTERED + policies, c, s); step.Stop? ==> IsTrue(env, s, c, policies, step.why)
  {
    var run := Run(s, Unmarked, []);
    var one := EscalationGate(env, c, run);
    assert REGISTERED + policies == [Escalation] + ([ToolApproval] + ([NeverApproval] + ([Sandbox] + policies)));
    ChainHead(env, Escalation, [ToolApproval] + ([NeverApproval] + ([Sandbox] + policies)), c, run);
    EscalationIsTrue(env, c, s, policies);
    EscalationExactly(env, c, s);
    if one.Go? {
      var two := ToolGate(c, one.run);
      ChainHead(env, ToolApproval, [NeverApproval] + ([Sandbox] + policies), c, one.run);
      ToolIsTrue(env, c, one.run, s, policies);
      ToolExactly(c, one.run);
      if two.Go? {
        ChainHead(env, NeverApproval, [Sandbox] + policies, c, two.run);
        SamePolicy(s, two.run.s, c);
        PolicyExactly(s, c);
        ChainHead(env, Sandbox, policies, c, two.run);
        SandboxIsTrue(env, c, s, one.run, two.run, policies);
        PoliciesAreTrue(env, policies, c, two.run);
        hide EscalationGate, ToolGate, ModeOf, JudgedUnder, Permits, SandboxAllows, EffectivePolicy, MayNotAsk;
        hide AsksForMode;
      }
    }
  }

  lemma {:induction false} SandboxIsTrue(env: Env, c: Call, s: Settings, one: Run, two: Run, policies: seq<Listener>)
    requires one.s == s && ModeOf(one) == JudgedUnder(env, s, c) && two.mark == one.mark && Fixed(two.s) == Fixed(s)
    ensures ModeOf(two) == JudgedUnder(env, s, c)
    ensures !SandboxAllows(env, ModeOf(two), c.tool, c.args) ==> IsTrue(env, s, c, policies, SandboxDenied(ModeOf(two)))
  {
    assert two.s.sandbox == s.sandbox;
    PermitsExactly(env, ModeOf(two), c.tool, c.args);
    hide JudgedUnder, Permits, SandboxAllows;
  }
}
