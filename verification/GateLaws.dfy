/** What the gates in front of a tool body guarantee, per call and over runs of calls. */
module GateLaws {
  import opened Wrappers
  import Messages
  import opened Gates

  // ---------- One call ----------

  /** The settings apart from the ledger. */
  function Fixed(s: Settings): Settings {
    s.(granted := {}, asked := {})
  }

  /** `r'` continues `r`: the same settings, and the questions of `r` first. */
  predicate Continues(r: Run, r': Run) {
    && Fixed(r'.s) == Fixed(r.s) && r.s.granted <= r'.s.granted && r.s.asked <= r'.s.asked
    && |r.questions| <= |r'.questions| && r'.questions[..|r.questions|] == r.questions
  }

  lemma {:induction false} GateContinues(env: Env, l: Listener, c: Call, run: Run)
    ensures Continues(run, Gate(env, l, c, run).run)
  {
  }

  lemma {:induction false} ContinuesTwice(a: Run, b: Run, c: Run)
    requires Continues(a, b) && Continues(b, c)
    ensures Continues(a, c)
  {
    assert c.questions[..|a.questions|] == c.questions[..|b.questions|][..|a.questions|];
  }

  /** A call changes nothing but the ledger: the mark of an allowed escalation ends with it. */
  lemma {:induction false} OnlyTheLedgerChanges(env: Env, ls: seq<Listener>, c: Call, run: Run)
    ensures Continues(run, Chain(env, ls, c, run).run)
  {
    if ls != [] {
      var step := Gate(env, ls[0], c, run);
      GateContinues(env, ls[0], c, run);
      if step.Go? {
        OnlyTheLedgerChanges(env, ls[1..], c, step.run);
        ContinuesTwice(run, step.run, Chain(env, ls[1..], c, step.run).run);
      }
    }
  }

  /** The call names a strictly wider mode with a justification, and someone entitled to has agreed to it. */
  predicate Licensed(env: Env, s: Settings, c: Call, mode: Mode, questions: seq<Question>) {
    && Confined(c) && Permissions(c) != "" && ParseMode(env, Permissions(c)) == Some(mode)
    && Widenable(s.sandbox, mode) && Trim(Justification(c)) != ""
    && (s.userGrantAll || (EffectivePolicy(s, c).Ask? && c.onEscalation.AllowedOnce? && EscalateTo(mode) in questions))
  }

  predicate MarkLicensed(env: Env, c: Call, run: Run) {
    run.mark.Escalated? ==> Licensed(env, run.s, c, run.mark.mode, run.questions)
  }

  lemma {:induction false} GateKeepsLicence(env: Env, l: Listener, c: Call, run: Run)
    requires MarkLicensed(env, c, run)
    ensures MarkLicensed(env, c, Gate(env, l, c, run).run)
  {
    GateContinues(env, l, c, run);
  }

  /** The sandbox allows these arguments under the session's mode, or under a wider one the call is licensed for. */
  predicate SafeWith(env: Env, s: Settings, c: Call, questions: seq<Question>, args: Option<Args>) {
    || SandboxAllows(env, s.sandbox, c.tool, args)
    || exists mode :: Licensed(env, s, c, mode, questions) && SandboxAllows(env, mode, c.tool, args)
  }

  lemma {:induction false} SafeLater(env: Env, c: Call, r: Run, r': Run)
    requires SafeWith(env, r.s, c, r.questions, c.args) && Continues(r, r')
    ensures SafeWith(env, r'.s, c, r'.questions, c.args)
  {
    assert r'.s.sandbox == r.s.sandbox;
    if mode :| Licensed(env, r.s, c, mode, r.questions) && SandboxAllows(env, mode, c.tool, c.args) {
      assert EscalateTo(mode) in r.questions ==> EscalateTo(mode) in r'.questions[..|r.questions|];
      assert EffectivePolicy(r'.s, c) == EffectivePolicy(r.s, c);
      assert Licensed(env, r'.s, c, mode, r'.questions);
    }
  }

  lemma {:induction false} ChainIsSafe(env: Env, ls: seq<Listener>, c: Call, run: Run)
    requires Sandbox in ls && MarkLicensed(env, c, run)
    requires Chain(env, ls, c, run).Go?
    ensures SafeWith(env, Chain(env, ls, c, run).run.s, c, Chain(env, ls, c, run).run.questions, c.args)
  {
    var step := Gate(env, ls[0], c, run);
    if ls[0].Sandbox? {
      assert SafeWith(env, run.s, c, run.questions, c.args);
      OnlyTheLedgerChanges(env, ls, c, run);
      hide Gate, Chain, Continues, SafeWith;
      SafeLater(env, c, run, Chain(env, ls, c, run).run);
    } else {
      GateKeepsLicence(env, ls[0], c, run);
      ChainIsSafe(env, ls[1..], c, step.run);
    }
  }

  /** Wherever the sandbox stands among the listeners, they pass a call on only if the sandbox allows the call under
      the session's mode, or under a strictly wider one that the call names, justifies and is allowed. */
  lemma {:induction false} BodyOnlyIfSafe(env: Env, ls: seq<Listener>, c: Call, s: Settings)
    requires Sandbox in ls && Handle(env, ls, c, s).Go?
    ensures SafeWith(env, s, c, Handle(env, ls, c, s).run.questions, c.args)
  {
    ChainIsSafe(env, ls, c, Run(s, Unmarked, []));
    OnlyTheLedgerChanges(env, ls, c, Run(s, Unmarked, []));
    var end := Handle(env, ls, c, s).run;
    if mode :| Licensed(env, end.s, c, mode, end.questions) && SandboxAllows(env, mode, c.tool, c.args) {
      assert EffectivePolicy(end.s, c) == EffectivePolicy(s, c);
      assert Licensed(env, s, c, mode, end.questions);
    }
  }

  /** Wherever the sandbox stands, arguments that no hook has changed are safe to execute. */
  lemma {:induction false} UnchangedIsSafe(
    env: Env, ls: seq<Listener>, hooks: seq<Hook>, policies: seq<Verdict>, c: Call, s: Settings)
    requires Sandbox in ls && Executed(env, ls, hooks, policies, c, s) == Some(c.args)
    ensures SafeWith(env, s, c, Handle(env, ls, c, s).run.questions, c.args)
  {
    BodyOnlyIfSafe(env, ls, c, s);
  }

  /** Under policy never no listener asks anything. */
  lemma {:induction false} NeverAsksNothing(env: Env, ls: seq<Listener>, c: Call, run: Run)
    requires EffectivePolicy(run.s, c).Never?
    ensures Chain(env, ls, c, run).run.questions == run.questions && Chain(env, ls, c, run).run.s == run.s
  {
    if ls != [] {
      var step := Gate(env, ls[0], c, run);
      if step.Go? {
        NeverAsksNothing(env, ls[1..], c, step.run);
      }
    }
  }

  // ---------- The body exactly ----------

  /** The mode the sandbox judges by once the escalation gate has passed the call on. */
  function JudgedUnder(env: Env, s: Settings, c: Call): Mode {
    if Confined(c) && WiderTarget(env, s, c).Some? then WiderTarget(env, s, c).value else s.sandbox
  }

  /** The strictly wider mode the call names, if it names one. */
  function WiderTarget(env: Env, s: Settings, c: Call): Option<Mode> {
    if && Permissions(c) != "" && ParseMode(env, Permissions(c)).Some?
       && Widenable(s.sandbox, ParseMode(env, Permissions(c)).value)
    then ParseMode(env, Permissions(c)) else None
  }

  /** What is named is a mode, and a wider one is justified and agreed to. */
  predicate EscalationConsent(env: Env, s: Settings, c: Call) {
    Confined(c) && Permissions(c) != "" ==>
      && ParseMode(env, Permissions(c)).Some?
      && (WiderTarget(env, s, c).Some? ==>
            && Trim(Justification(c)) != ""
            && (s.userGrantAll || (EffectivePolicy(s, c).Ask? && c.onEscalation.AllowedOnce?)))
  }

  /** The tool gives no reason, or its scopes are granted, or someone agrees. */
  predicate ToolConsent(s: Settings, c: Call) {
    c.info.Asks? && Trim(c.info.reason) != "" ==>
      || (s.perScope && c.info.scopes != [] && Names(c.info.scopes) <= s.granted)
      || c.userGrant || s.userGrantAll
      || (EffectivePolicy(s, c).Ask? && c.onTool.AllowedOnce?)
  }

  predicate NeverConsent(s: Settings, c: Call) {
    !c.info.Unknown? && c.info.requiresNever ==> EffectivePolicy(s, c).Never?
  }

  predicate NoneDenies(policies: seq<Listener>) {
    forall i | 0 <= i < |policies| :: policies[i] == Policy(false)
  }

  predicate AllPolicies(policies: seq<Listener>) {
    forall i | 0 <= i < |policies| :: policies[i].Policy?
  }

  lemma {:induction false} BlankTrims()
    ensures Trim("") == ""
  {
  }

  lemma {:induction false} EscalationExactly(env: Env, c: Call, s: Settings)
    ensures var step := EscalationGate(env, c, Run(s, Unmarked, []));
            && (step.Go? <==> EscalationConsent(env, s, c))
            && (step.Go? ==> ModeOf(step.run) == JudgedUnder(env, s, c) && step.run.s == s)
  {
    BlankTrims();
  }

  lemma {:induction false} ToolExactly(c: Call, run: Run)
    ensures var step := ToolGate(c, run);
            && (step.Go? <==> ToolConsent(run.s, c))
            && step.run.mark == run.mark && Fixed(step.run.s) == Fixed(run.s)
  {
    if c.info.Asks? {
      MissingIsTrimmed(run.s.granted, c.info.scopes);
      MissingNothing(run.s.granted, c.info.scopes);
    }
  }

  lemma {:induction false} PoliciesExactly(env: Env, policies: seq<Listener>, c: Call, run: Run)
    requires AllPolicies(policies)
    ensures Chain(env, policies, c, run).Go? <==> NoneDenies(policies)
  {
    if policies != [] && policies[0] == Policy(false) {
      PoliciesExactly(env, policies[1..], c, run);
      assert NoneDenies(policies) <==> NoneDenies(policies[1..]) by {
        assert forall i | 0 < i < |policies| :: policies[i] == policies[1..][i - 1];
      }
    }
  }

  lemma {:induction false} ChainSplits(env: Env, a: seq<Listener>, b: seq<Listener>, c: Call, run: Run)
    ensures var first := Chain(env, a, c, run);
            Chain(env, a + b, c, run) == if first.Stop? then first else Chain(env, b, c, first.run)
  {
    if a == [] {
      assert a + b == b;
    } else {
      assert (a + b)[1..] == a[1..] + b;
      var step := Gate(env, a[0], c, run);
      if step.Go? {
        ChainSplits(env, a[1..], b, c, step.run);
      }
    }
  }

  /** With the registered gates and any policies behind them, the gates let a call pass if and only if all consent and
      the sandbox allows the call. */
  lemma {:induction false} PassesExactly(env: Env, policies: seq<Listener>, c: Call, s: Settings)
    requires AllPolicies(policies)
    ensures Handle(env, REGISTERED + policies, c, s).Go?
       <==> && EscalationConsent(env, s, c) && ToolConsent(s, c) && NeverConsent(s, c)
            && SandboxAllows(env, JudgedUnder(env, s, c), c.tool, c.args) && NoneDenies(policies)
  {
    var run := Run(s, Unmarked, []);
    ChainSplits(env, REGISTERED, policies, c, run);
    var one := EscalationGate(env, c, run);
    EscalationExactly(env, c, s);
    FourGates(env, c, run);
    if one.Go? {
      var two := ToolGate(c, one.run);
      ToolExactly(c, one.run);
      if two.Go? {
        SamePolicy(s, two.run.s, c);
        if Chain(env, REGISTERED, c, run).Go? {
          PoliciesExactly(env, policies, c, Chain(env, REGISTERED, c, run).run);
        }
      }
    }
  }

  /** The body is reached, with the given arguments, if and only if moreover no hook vetoes, these are what the hooks
      make of the call's, and no policy denies them at execution. */
  lemma {:induction false} BodyExactly(env: Env, policies: seq<Listener>, hooks: seq<Hook>, verdicts: seq<Verdict>,
                                       c: Call, s: Settings, args: Option<Args>)
    requires AllPolicies(policies)
    ensures Executed(env, REGISTERED + policies, hooks, verdicts, c, s) == Some(args)
       <==> && EscalationConsent(env, s, c) && ToolConsent(s, c) && NeverConsent(s, c)
            && SandboxAllows(env, JudgedUnder(env, s, c), c.tool, c.args) && NoneDenies(policies)
            && Hooked(hooks, c.args) == Some(args) && !Denied(verdicts, args)
  {
    hide *;
    PassesExactly(env, policies, c, s);
    ExecutedIs(env, REGISTERED + policies, hooks, verdicts, c, s);
  }

  lemma {:induction false} ExecutedIs(
    env: Env, ls: seq<Listener>, hooks: seq<Hook>, verdicts: seq<Verdict>, c: Call, s: Settings)
    ensures Executed(env, ls, hooks, verdicts, c, s)
         == if Handle(env, ls, c, s).Stop? || Hooked(hooks, c.args).None?
             || Denied(verdicts, Hooked(hooks, c.args).value)
            then None else Hooked(hooks, c.args)
  {
  }

  // The question about a wider mode is on record once the call has passed.
  lemma {:induction false} WiderIsLicensed(env: Env, policies: seq<Listener>, c: Call, s: Settings)
    requires AllPolicies(policies) && Handle(env, REGISTERED + policies, c, s).Go?
    requires Confined(c) && WiderTarget(env, s, c).Some?
    ensures Licensed(env, s, c, JudgedUnder(env, s, c), Handle(env, REGISTERED + policies, c, s).run.questions)
  {
    var run := Run(s, Unmarked, []);
    PassesExactly(env, policies, c, s);
    var one := EscalationGate(env, c, run).run;
    var all := REGISTERED + policies;
    var rest := all[1..];
    assert all == [Escalation] + rest;
    BlankTrims();
    ChainHead(env, Escalation, rest, c, run);
    OnlyTheLedgerChanges(env, rest, c, one);
    var end := Chain(env, rest, c, one).run;
    assert one.questions == end.questions[..|one.questions|];
    var asked := EscalateTo(JudgedUnder(env, s, c));
    assert asked in one.questions ==> asked in end.questions;
  }

  /** What the hooks leave to execute is safe if and only if the mode the gates judged by allows it; without a rewrite
      it always is. */
  lemma {:induction false} ExecutedSafeExactly(
    env: Env, policies: seq<Listener>, hooks: seq<Hook>, verdicts: seq<Verdict>, c: Call, s: Settings)
    requires AllPolicies(policies) && Executed(env, REGISTERED + policies, hooks, verdicts, c, s).Some?
    ensures var args := Executed(env, REGISTERED + policies, hooks, verdicts, c, s).value;
            var questions := Handle(env, REGISTERED + policies, c, s).run.questions;
            && (SafeWith(env, s, c, questions, args) <==> SandboxAllows(env, JudgedUnder(env, s, c), c.tool, args))
            && (args == c.args ==> SafeWith(env, s, c, questions, args))
  {
    var args := Executed(env, REGISTERED + policies, hooks, verdicts, c, s).value;
    var questions := Handle(env, REGISTERED + policies, c, s).run.questions;
    PassesExactly(env, policies, c, s);
    if Confined(c) && WiderTarget(env, s, c).Some? {
      WiderIsLicensed(env, policies, c, s);
    }
    hide Handle, Executed, EscalationConsent, ToolConsent, NeverConsent, Confined;
    if mode :| Licensed(env, s, c, mode, questions) && SandboxAllows(env, mode, c.tool, args) {
      assert mode == JudgedUnder(env, s, c);
    }
  }

  /** In a read-only session a hook that turns a view into a write gets its write executed. */
  lemma {:induction false} HookEscapes(env: Env, s: Settings, path: string)
    requires s.sandbox == ReadOnly
    ensures var look := Some(Args(path, "view", "", ""));
            var c := Call(EDITOR, look, "", "", false, Plain(false), Unavailable, Unavailable);
            var hook: Hook := args => Rewrite(Edit(path));
            && Executed(env, REGISTERED, [hook], [], c, s) == Some(Edit(path))
            && !SafeWith(env, s, c, Handle(env, REGISTERED, c, s).run.questions, Edit(path))
  {
    var look := Some(Args(path, "view", "", ""));
    var c := Call(EDITOR, look, "", "", false, Plain(false), Unavailable, Unavailable);
    var hook: Hook := args => Rewrite(Edit(path));
    assert REGISTERED + [] == REGISTERED;
    assert [hook][1..] == [];
    assert Hooked([hook], c.args) == Some(Edit(path));
    BodyExactly(env, [], [hook], [], c, s, Edit(path));
  }

  lemma {:induction false} SamePolicy(s: Settings, s': Settings, c: Call)
    requires Fixed(s) == Fixed(s')
    ensures EffectivePolicy(s, c) == EffectivePolicy(s', c)
  {
  }

  lemma {:induction false} FourGates(env: Env, c: Call, run: Run)
    ensures var one := EscalationGate(env, c, run);
            var two := ToolGate(c, one.run);
            var three := NeverGate(c, two.run);
            Chain(env, REGISTERED, c, run).Go?
            <==> one.Go? && two.Go? && three.Go? && SandboxAllows(env, ModeOf(three.run), c.tool, c.args)
  {
    hide EscalationGate, ToolGate, NeverGate, SandboxAllows;
    var one := EscalationGate(env, c, run);
    var two := ToolGate(c, one.run);
    var three := NeverGate(c, two.run);
    assert REGISTERED == [Escalation] + ([ToolApproval] + ([NeverApproval] + ([Sandbox] + [])));
    ChainHead(env, Escalation, [ToolApproval] + ([NeverApproval] + ([Sandbox] + [])), c, run);
    ChainHead(env, ToolApproval, [NeverApproval] + ([Sandbox] + []), c, one.run);
    ChainHead(env, NeverApproval, [Sandbox] + [], c, two.run);
    ChainHead(env, Sandbox, [], c, three.run);
  }

  lemma {:induction false} ChainHead(env: Env, l: Listener, rest: seq<Listener>, c: Call, run: Run)
    ensures var step := Gate(env, l, c, run);
            Chain(env, [l] + rest, c, run) == if step.Stop? then step else Chain(env, rest, c, step.run)
  {
    assert ([l] + rest)[1..] == rest;
  }

  // ---------- The ledger ----------

  /** The call's question about its tool was answered so that its scopes are remembered. */
  predicate Earns(s: Settings, c: Call) {
    && s.perScope && c.info.Asks? && Trim(c.info.reason) != "" && !(Names(c.info.scopes) <= s.granted)
    && !c.userGrant && !s.userGrantAll && EffectivePolicy(s, c).Ask? && c.onTool.AllowedOnce?
  }

  /** The tool gate writes the ledger exactly when the call earns it, and then with all the scopes it names. */
  lemma {:induction false} ToolGateWrites(c: Call, run: Run)
    ensures ToolGate(c, run).run.s.granted == run.s.granted + if Earns(run.s, c) then Names(c.info.scopes) else {}
  {
    if c.info.Asks? {
      MissingIsTrimmed(run.s.granted, c.info.scopes);
      MissingNothing(run.s.granted, c.info.scopes);
    }
  }

  /** Over a whole chain the ledger grows only by the scopes of a call that earns them. */
  lemma {:induction false} GrantsAreEarned(env: Env, ls: seq<Listener>, c: Call, run: Run)
    ensures var after := Chain(env, ls, c, run).run.s.granted;
            after == run.s.granted || (Earns(run.s, c) && after == run.s.granted + Names(c.info.scopes))
  {
    if ls != [] {
      var step := Gate(env, ls[0], c, run);
      if ls[0].ToolApproval? {
        ToolGateWrites(c, run);
      }
      GateContinues(env, ls[0], c, run);
      SamePolicy(run.s, step.run.s, c);
      if step.Go? {
        GrantsAreEarned(env, ls[1..], c, step.run);
      }
    }
  }

  /** With its scopes granted a tool asks nothing at per-scope granularity, wherever its gate stands. */
  lemma {:induction false} GrantedAsksNothing(env: Env, ls: seq<Listener>, c: Call, run: Run)
    requires run.s.perScope && (c.info.Asks? ==> c.info.scopes != [] && Names(c.info.scopes) <= run.s.granted)
    ensures forall scopes :: RunTool(scopes) in Chain(env, ls, c, run).run.questions ==>
          RunTool(scopes) in run.questions
  {
    if ls != [] {
      var step := Gate(env, ls[0], c, run);
      GateContinues(env, ls[0], c, run);
      if ls[0].ToolApproval? && c.info.Asks? {
        MissingNothing(run.s.granted, c.info.scopes);
        assert step == Go(run);
      }
      if step.Go? {
        GrantedAsksNothing(env, ls[1..], c, step.run);
      }
    }
  }

  function Granting(step: Step, granted: set<string>): Step {
    match step
    case Go(run) => Go(run.(s := run.s.(granted := granted)))
    case Stop(run, why) => Stop(run.(s := run.s.(granted := granted)), why)
  }

  /** At per-tool granularity the ledger is neither read nor written: with any other ledger the same happens. */
  lemma {:induction false} PerToolIgnoresLedger(env: Env, ls: seq<Listener>, c: Call, run: Run, granted: set<string>)
    requires !run.s.perScope
    ensures Chain(env, ls, c, run.(s := run.s.(granted := granted))) == Granting(Chain(env, ls, c, run), granted)
    ensures Chain(env, ls, c, run).run.s == run.s
  {
    if ls != [] {
      GateIgnoresLedger(env, ls[0], c, run, granted);
      var step := Gate(env, ls[0], c, run);
      hide Gate;
      if step.Go? {
        PerToolIgnoresLedger(env, ls[1..], c, step.run, granted);
      }
    }
  }

  lemma {:induction false} GateIgnoresLedger(env: Env, l: Listener, c: Call, run: Run, granted: set<string>)
    requires !run.s.perScope
    ensures Gate(env, l, c, run.(s := run.s.(granted := granted))) == Granting(Gate(env, l, c, run), granted)
    ensures Gate(env, l, c, run).run.s == run.s
  {
    SamePolicy(run.s, run.s.(granted := granted), c);
    hide EffectivePolicy, SandboxAllows, ParseMode, Widenable;
  }

  // ---------- Runs ----------

  /** What can happen to the host between and in calls. */
  datatype Action =
    | Invoke(call: Call)
    | SetSandbox(mode: Mode)
    | SetApproval(session: string, approval: Approval)
    | SetGrantAll(on: bool)
    | SetPerScope(on: bool)
    | Seed(scopes: seq<string>)

  function Act(env: Env, ls: seq<Listener>, a: Action, s: Settings): Settings {
    match a
    case Invoke(c) => Handle(env, ls, c, s).run.s
    case SetSandbox(mode) => s.(sandbox := mode)
    case SetApproval(session, approval) =>
      if session == "" then s.(globalApproval := approval, globalExplicit := true)
      else s.(sessionApproval := s.sessionApproval[session := approval])
    case SetGrantAll(on) => s.(userGrantAll := on)
    case SetPerScope(on) => s.(perScope := on)
    case Seed(scopes) => s.(granted := s.granted + Names(scopes))
  }

  function Acts(env: Env, ls: seq<Listener>, actions: seq<Action>, s: Settings): Settings {
    if actions == [] then s else Acts(env, ls, actions[1..], Act(env, ls, actions[0], s))
  }

  /** The action, taken in state `s`, entitles to the scope: it seeds it, or is a call that earns it. */
  predicate Entitles(a: Action, s: Settings, scope: string) {
    match a
    case Seed(scopes) => scope in Names(scopes)
    case Invoke(c) => Earns(s, c) && scope in Names(c.info.scopes)
    case _ => false
  }

  /** Whatever happens, grants stay, and every new one goes back to an action that entitles to it. */
  lemma {:induction false} LedgerOverRun(env: Env, ls: seq<Listener>, actions: seq<Action>, s: Settings)
    ensures s.granted <= Acts(env, ls, actions, s).granted
    ensures forall scope | scope in Acts(env, ls, actions, s).granted - s.granted ::
              exists i :: 0 <= i < |actions| && Entitles(actions[i], Acts(env, ls, actions[..i], s), scope)
  {
    if actions != [] {
      var s' := Act(env, ls, actions[0], s);
      LedgerOverAct(env, ls, actions[0], s);
      LedgerOverRun(env, ls, actions[1..], s');
      hide Act, Entitles;
      forall scope | scope in Acts(env, ls, actions, s).granted - s.granted
        ensures exists i :: 0 <= i < |actions| && Entitles(actions[i], Acts(env, ls, actions[..i], s), scope)
      {
        if scope in s'.granted {
          assert actions[..0] == [];
          assert Entitles(actions[0], Acts(env, ls, actions[..0], s), scope);
        } else {
          assert scope in Acts(env, ls, actions[1..], s').granted - s'.granted;
          var i :| 0 <= i < |actions[1..]| && Entitles(actions[1..][i], Acts(env, ls, actions[1..][..i], s'), scope);
          assert actions[..i + 1][1..] == actions[1..][..i];
          assert Entitles(actions[i + 1], Acts(env, ls, actions[..i + 1], s), scope);
        }
      }
    }
  }

  lemma {:induction false} LedgerOverAct(env: Env, ls: seq<Listener>, a: Action, s: Settings)
    ensures s.granted <= Act(env, ls, a, s).granted
    ensures forall scope | scope in Act(env, ls, a, s).granted - s.granted :: Entitles(a, s, scope)
  {
    if a.Invoke? {
      GrantsAreEarned(env, ls, a.call, Run(s, Unmarked, []));
    }
  }

  /** Once allowed, never asked again: after a call that earned its scopes, and anything else in between, a tool
      whose scopes are among them runs its gate without a question. */
  lemma {:induction false} ConsentIsRemembered(
    env: Env, before: seq<Listener>, after: seq<Listener>, c: Call, s: Settings, actions: seq<Action>, later: Call)
    requires Earns(s, c) && Chain(env, before, c, Run(s, Unmarked, [])).Go?
    requires later.info.Asks? && later.info.scopes != [] && Names(later.info.scopes) <= Names(c.info.scopes)
    requires var ls := before + [ToolApproval] + after; Acts(env, ls, [Invoke(c)] + actions, s).perScope
    ensures var ls := before + [ToolApproval] + after;
            forall scopes ::
                RunTool(scopes) !in Handle(env, ls, later, Acts(env, ls, [Invoke(c)] + actions, s)).run.questions
  {
    var ls := before + [ToolApproval] + after;
    var all := [Invoke(c)] + actions;
    var s' := Act(env, ls, Invoke(c), s);
    assert all[1..] == actions;
    EarnedIsGranted(env, before, after, c, s);
    LedgerOverRun(env, ls, actions, s');
    GrantedAsksNothing(env, ls, later, Run(Acts(env, ls, all, s), Unmarked, []));
  }

  lemma {:induction false} EarnedIsGranted(env: Env, before: seq<Listener>, after: seq<Listener>, c: Call, s: Settings)
    requires Earns(s, c) && Chain(env, before, c, Run(s, Unmarked, [])).Go?
    ensures Names(c.info.scopes) <= Handle(env, before + [ToolApproval] + after, c, s).run.s.granted
  {
    var start := Run(s, Unmarked, []);
    var mid := Chain(env, before, c, start).run;
    var tail := [ToolApproval] + after;
    assert before + [ToolApproval] + after == before + tail;
    ChainSplits(env, before, tail, c, start);
    OnlyTheLedgerChanges(env, before, c, start);
    GrantsAreEarned(env, before, c, start);
    SamePolicy(s, mid.s, c);
    ToolGateWrites(c, mid);
    var step := ToolGate(c, mid);
    assert tail[1..] == after;
    if step.Go? {
      OnlyTheLedgerChanges(env, after, c, step.run);
    }
    assert Names(c.info.scopes) <= step.run.s.granted;
  }

  // ---------- What the modes allow ----------

  /** Whether a call that asks for no wider mode may run: in a read-only session no shell and no editor command but
      "view"; with workspace writes also editor commands on a path inside the workspace. */
  predicate Permits(env: Env, mode: Mode, tool: string, args: Option<Args>) {
    match mode
    case FullAccess => true
    case ReadOnly => tool != "shell" && (tool == "str_replace_editor" ==> args.Some? && args.value.command == "view")
    case WorkspaceWrite =>
      tool == "str_replace_editor" ==>
        args.Some? && (args.value.command == "view" || (args.value.path != "" && env.inWorkspace(args.value.path)))
  }

  lemma {:induction false} PermitsExactly(env: Env, mode: Mode, tool: string, args: Option<Args>)
    ensures SandboxAllows(env, mode, tool, args) <==> Permits(env, mode, tool, args)
  {
  }

  /** Arguments without a wish for another mode. */
  predicate AsksForNoMode(c: Call) {
    c.args.None? || c.args.value.permissions == ""
  }

  /** A call that asks for no wider mode and meets no hook runs, with its own arguments, if and only if the session's
      mode permits it, its tool is consented to, and no policy denies it. */
  lemma {:induction false} PlainCallExactly(
    env: Env, policies: seq<Listener>, verdicts: seq<Verdict>, c: Call, s: Settings, args: Option<Args>)
    requires AllPolicies(policies) && AsksForNoMode(c)
    ensures Executed(env, REGISTERED + policies, [], verdicts, c, s) == Some(args)
       <==> && args == c.args && Permits(env, s.sandbox, c.tool, args)
            && ToolConsent(s, c) && NeverConsent(s, c) && NoneDenies(policies)
            && forall i | 0 <= i < |verdicts| :: !verdicts[i](args)
  {
    BodyExactly(env, policies, [], verdicts, c, s, args);
    PermitsExactly(env, JudgedUnder(env, s, c), c.tool, c.args);
    hide Executed, SandboxAllows, ToolConsent, NeverConsent, NoneDenies;
  }

  /** The tools that may ask for a wider mode: the shell, and the editor unless it views. */
  lemma {:induction false} ConfinedExactly(c: Call)
    ensures Confined(c) <==>
              c.tool == "shell" || (c.tool == "str_replace_editor" && (c.args.None? || c.args.value.command != "view"))
  {
  }

  /** The mode names, where lower-casing leaves them alone. */
  lemma {:induction false} ModeNames(env: Env, s: string)
    requires env.lower(s) == s && Trim(s) == s
    ensures ParseMode(env, s) == Some(ReadOnly) <==> s == "read" || s == "read-only" || s == "readonly"
    ensures ParseMode(env, s) == Some(WorkspaceWrite) <==> s == "workspace" || s == "workspace-write"
    ensures ParseMode(env, s) == Some(FullAccess) <==>
              s == "full" || s == "full-access" || s == "danger-full-access" || s == "danger"
  {
  }

  /** A text is blank if and only if trimming leaves nothing of it. */
  lemma {:induction false} BlankIsTrimmed(s: string)
    ensures Messages.Blank(s) <==> Trim(s) == ""
  {
    LeftTrimsBlank(s);
    TrimRightEdges(TrimLeft(s, Messages.IsSpace));
    TrimLeftEdge(s);
    if TrimLeft(s, Messages.IsSpace) != "" {
      RightKeeps(TrimLeft(s, Messages.IsSpace));
    }
  }

  lemma {:induction false} LeftTrimsBlank(s: string)
    ensures TrimLeft(s, Messages.IsSpace) == "" <==> Messages.Blank(s)
  {
    if s != "" {
      LeftTrimsBlank(s[1..]);
      assert s == [s[0]] + s[1..];
      assert Messages.Blank(s) <==> Messages.IsSpace(s[0]) && Messages.Blank(s[1..]) by {
        assert forall i | 0 < i < |s| :: s[i] == s[1..][i - 1];
        assert forall i | 0 <= i < |s| - 1 :: s[1..][i] == s[i + 1];
      }
    }
  }

  lemma {:induction false} RightKeeps(s: string)
    requires s != "" && !Messages.IsSpace(s[0])
    ensures TrimRight(s, Messages.IsSpace) != ""
  {
    if Messages.IsSpace(s[|s| - 1]) {
      RightKeeps(s[..|s| - 1]);
    }
  }
}
