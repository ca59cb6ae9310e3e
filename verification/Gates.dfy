/** core/eventbus.go, approval.go, authorization.go, never_approval_gate.go,
    sandbox.go: what stands before a tool body. */
module Gates {
  import opened Wrappers
  import Messages

  // ---------- Sandbox ----------

  datatype Mode = ReadOnly | WorkspaceWrite | FullAccess

  /** The arguments the gates look at, already parsed; an absent or non-string one is "". */
  datatype Args = Args(path: string, command: string, permissions: string, justification: string)

  /** What the host cannot see into: the workspace test and the lower-casing of mode names. */
  datatype Env = Env(inWorkspace: string -> bool, lower: string -> string)

  const EDITOR := "str_replace_editor"
  const SHELL := "shell"

  /** The write target and whether the call writes; arguments that do not parse count as a write. */
  function WriteCallInfo(tool: string, args: Option<Args>): (string, bool) {
    if tool != EDITOR then ("", false)
    else match args
      case None => ("", true)
      case Some(a) => (a.path, a.command != "view")
  }

  predicate IsExecutor(tool: string) {
    tool == SHELL
  }

  predicate SandboxAllows(env: Env, mode: Mode, tool: string, args: Option<Args>) {
    var (path, write) := WriteCallInfo(tool, args);
    match mode
    case FullAccess => true
    case ReadOnly => !write && !IsExecutor(tool)
    case WorkspaceWrite => write ==> path != "" && env.inWorkspace(path)
  }

  predicate Widenable(effective: Mode, target: Mode) {
    match effective
    case ReadOnly => target.WorkspaceWrite? || target.FullAccess?
    case WorkspaceWrite => target.FullAccess?
    case FullAccess => false
  }

  // An edit of the given path, and a shell command.
  function Edit(path: string): Option<Args> {
    Some(Args(path, "create", "", ""))
  }

  /** One mode allows all that another allows if and only if it is the same or wider. */
  lemma {:induction false} WiderAllowsMore(env: Env, narrow: Mode, wide: Mode, inside: string, outside: string)
    requires inside != "" && env.inWorkspace(inside) && !env.inWorkspace(outside)
    ensures narrow == wide || Widenable(narrow, wide)
       <==> forall tool, args | SandboxAllows(env, narrow, tool, args) :: SandboxAllows(env, wide, tool, args)
  {
    if narrow != wide && !Widenable(narrow, wide) {
      var path := if wide.ReadOnly? then inside else outside;
      assert SandboxAllows(env, narrow, EDITOR, Edit(path)) && !SandboxAllows(env, wide, EDITOR, Edit(path));
    }
  }

  // ---------- Text ----------

  function Trim(s: string): string {
    TrimRight(TrimLeft(s, Messages.IsSpace), Messages.IsSpace)
  }

  lemma {:induction false} TrimLeftEdge(s: string)
    ensures TrimLeft(s, Messages.IsSpace) == "" || !Messages.IsSpace(TrimLeft(s, Messages.IsSpace)[0])
  {
    if s != "" && Messages.IsSpace(s[0]) {
      TrimLeftEdge(s[1..]);
    }
  }

  lemma {:induction false} TrimRightEdges(s: string)
    ensures TrimRight(s, Messages.IsSpace) == ""
          || !Messages.IsSpace(TrimRight(s, Messages.IsSpace)[|TrimRight(s, Messages.IsSpace)| - 1])
    ensures TrimRight(s, Messages.IsSpace) != "" ==> s != "" && TrimRight(s, Messages.IsSpace)[0] == s[0]
  {
    if s != "" && Messages.IsSpace(s[|s| - 1]) {
      TrimRightEdges(s[..|s| - 1]);
    }
  }

  lemma {:induction false} TrimTwice(s: string)
    ensures Trim(Trim(s)) == Trim(s)
  {
    TrimLeftEdge(s);
    TrimRightEdges(TrimLeft(s, Messages.IsSpace));
  }

  /** The mode a name stands for, in any case and with blanks around it. */
  function ParseMode(env: Env, s: string): Option<Mode> {
    var name := env.lower(Trim(s));
    if name in {"read", "read-only", "readonly"} then Some(ReadOnly)
    else if name in {"workspace", "workspace-write"} then Some(WorkspaceWrite)
    else if name in {"full", "full-access", "danger-full-access", "danger"} then Some(FullAccess)
    else None
  }

  // ---------- State and calls ----------

  datatype Approval = Ask | Never

  datatype Answer = AllowedOnce | Rejected | Cancelled | Unavailable

  /** What the registry knows of the tool, with the reason it gives for this call. */
  datatype Tool = Unknown | Plain(requiresNever: bool) | Asks(reason: string, scopes: seq<string>, requiresNever: bool)

  /** One invocation, and how the user would answer its two possible questions. */
  datatype Call = Call(tool: string, args: Option<Args>, session: string, policy: string, userGrant: bool, info: Tool,
                       onEscalation: Answer, onTool: Answer)

  datatype Settings = Settings(sandbox: Mode, sessionApproval: map<string, Approval>, globalApproval: Approval,
                               globalExplicit: bool, userGrantAll: bool, perScope: bool,
                               granted: set<string>, asked: set<string>)

  /** The mark an allowed escalation leaves on its call. */
  datatype Mark = Unmarked | Escalated(mode: Mode)

  datatype Question = EscalateTo(mode: Mode) | RunTool(scopes: seq<string>)

  datatype Refusal =
    | BadMode | NoJustification | BlankJustification | PromptsDisabled | NeedsNever | PolicyDenied
    | SandboxDenied(mode: Mode) | Declined(answer: Answer) | HookVetoed

  datatype Listener = Escalation | ToolApproval | NeverApproval | Sandbox | Policy(denies: bool)

  /** The state a chain works on: the settings, the mark, the questions asked so far. */
  datatype Run = Run(s: Settings, mark: Mark, questions: seq<Question>)

  /** What a gate does: pass on, or veto. */
  datatype Step = Go(run: Run) | Stop(run: Run, why: Refusal)

  function SessionPolicy(s: Settings, session: string): Approval {
    if session != "" && session in s.sessionApproval then s.sessionApproval[session]
    else if s.globalExplicit then s.globalApproval
    else if s.sandbox.FullAccess? then Never else Ask
  }

  /** The policy forwarded with the call, or else the host's for its session. */
  function EffectivePolicy(s: Settings, c: Call): Approval {
    if c.policy == "ask" then Ask else if c.policy == "never" then Never else SessionPolicy(s, c.session)
  }

  function Permissions(c: Call): string {
    if c.args.Some? then c.args.value.permissions else ""
  }

  function Justification(c: Call): string {
    if c.args.Some? then c.args.value.justification else ""
  }

  /** Only tools the sandbox confines carry escalations. */
  predicate Confined(c: Call) {
    WriteCallInfo(c.tool, c.args).1 || IsExecutor(c.tool)
  }

  // ---------- The gates ----------

  function EscalationGate(env: Env, c: Call, run: Run): Step {
    if !Confined(c) || Permissions(c) == "" then Go(run)
    else match ParseMode(env, Permissions(c))
      case None => Stop(run, BadMode)
      case Some(target) =>
        if target.ReadOnly? || !Widenable(run.s.sandbox, target) then Go(run)
        else if Justification(c) == "" then Stop(run, NoJustification)
        else if Trim(Justification(c)) == "" then Stop(run, BlankJustification)
        else if run.s.userGrantAll then Go(run.(mark := Escalated(target)))
        else if EffectivePolicy(run.s, c).Never? then Stop(run, PromptsDisabled)
        else
          var after := run.(questions := run.questions + [EscalateTo(target)]);
          if c.onEscalation.AllowedOnce? then Go(after.(mark := Escalated(target)))
          else Stop(after, Declined(c.onEscalation))
  }

  /** The scopes to ask for: trimmed, in order, without blanks, repetitions and granted ones. */
  function Missing(granted: set<string>, scopes: seq<string>): seq<string>
    decreases |scopes|
  {
    if scopes == [] then []
    else
      var first := Trim(scopes[0]);
      if first == "" || first in granted then Missing(granted, scopes[1..])
      else [first] + Missing(granted + {first}, scopes[1..])
  }

  function Names(scopes: seq<string>): set<string> {
    set i | 0 <= i < |scopes| && Trim(scopes[i]) != "" :: Trim(scopes[i])
  }

  function Remembered(s: Settings, scopes: seq<string>): Settings {
    s.(granted := s.granted + Names(scopes), asked := s.asked + Names(scopes))
  }

  function ToolGate(c: Call, run: Run): Step {
    if !c.info.Asks? || Trim(c.info.reason) == "" then Go(run)
    else
      var perScope := run.s.perScope && c.info.scopes != [];
      var missing := if perScope then Missing(run.s.granted, c.info.scopes) else c.info.scopes;
      if perScope && missing == [] then Go(run)
      else if c.userGrant || run.s.userGrantAll then Go(run)
      else if EffectivePolicy(run.s, c).Never? then Stop(run, PromptsDisabled)
      else
        var after := run.(questions := run.questions + [RunTool(missing)]);
        if !c.onTool.AllowedOnce? then Stop(after, Declined(c.onTool))
        else if perScope then Go(after.(s := Remembered(after.s, missing)))
        else Go(after)
  }

  function NeverGate(c: Call, run: Run): Step {
    if c.info.Unknown? || !c.info.requiresNever || EffectivePolicy(run.s, c).Never? then Go(run)
    else Stop(run, NeedsNever)
  }

  function ModeOf(run: Run): Mode {
    if run.mark.Escalated? then run.mark.mode else run.s.sandbox
  }

  function Gate(env: Env, l: Listener, c: Call, run: Run): Step {
    match l
    case Escalation => EscalationGate(env, c, run)
    case ToolApproval => ToolGate(c, run)
    case NeverApproval => NeverGate(c, run)
    case Sandbox =>
      if SandboxAllows(env, ModeOf(run), c.tool, c.args) then Go(run) else Stop(run, SandboxDenied(ModeOf(run)))
    case Policy(denies) => if denies then Stop(run, PolicyDenied) else Go(run)
  }

  /** The listeners in order, each deciding whether the next one runs; Go means that the body is reached. */
  function Chain(env: Env, ls: seq<Listener>, c: Call, run: Run): Step {
    if ls == [] then Go(run)
    else
      var step := Gate(env, ls[0], c, run);
      if step.Stop? then step else Chain(env, ls[1..], c, step.run)
  }

  function Handle(env: Env, ls: seq<Listener>, c: Call, s: Settings): Step {
    Chain(env, ls, c, Run(s, Unmarked, []))
  }

  // ---------- Behind the gates ----------

  /** What a plugin's or a script's hook makes of a call the gates let pass. */
  datatype HookReply = Veto | Keep | Rewrite(args: Option<Args>)

  type Hook = Option<Args> -> HookReply

  /** The arguments after all hooks in load order; none if one of them vetoes. */
  function Hooked(hooks: seq<Hook>, args: Option<Args>): Option<Option<Args>> {
    if hooks == [] then Some(args)
    else match hooks[0](args)
      case Veto => None
      case Keep => Hooked(hooks[1..], args)
      case Rewrite(other) => Hooked(hooks[1..], other)
  }

  /** A policy's verdict on the arguments about to be executed. */
  type Verdict = Option<Args> -> bool

  predicate Denied(policies: seq<Verdict>, args: Option<Args>) {
    exists i :: 0 <= i < |policies| && policies[i](args)
  }

  /** The arguments the tool body runs with; none if it is not reached. */
  function Executed(
    env: Env, ls: seq<Listener>, hooks: seq<Hook>, policies: seq<Verdict>, c: Call, s: Settings): Option<Option<Args>> {
    if Handle(env, ls, c, s).Stop? then None
    else
      var args := Hooked(hooks, c.args);
      if args.None? || Denied(policies, args.value) then None else args
  }

  /** The order in which the host registers its gates; policy plugins add theirs behind. */
  const REGISTERED := [Escalation, ToolApproval, NeverApproval, Sandbox]

  // ---------- The gates on the host's own state ----------

  /** One tool invocation; the escalation gate marks it. */
  class Invocation {
    const call: Call
    var args: Option<Args>
    var escalated: bool
    var escalatedMode: Mode
    ghost var questions: seq<Question>

    constructor (c: Call)
      ensures call == c && args == c.args && !escalated && questions == []
    {
      call, args, escalated, escalatedMode, questions := c, c.args, false, FullAccess, [];
    }
  }

  class Manager {
    const env: Env
    var sandbox: Mode
    var sessionApproval: map<string, Approval>
    var globalApproval: Approval
    var globalExplicit: bool
    var userGrantAll: bool
    var perScope: bool
    var granted: set<string>
    var asked: set<string>

    function Now(): Settings
      reads this
    {
      Settings(sandbox, sessionApproval, globalApproval, globalExplicit, userGrantAll, perScope, granted, asked)
    }

    ghost function At(inv: Invocation): Run
      reads this, inv
    {
      Run(Now(), if inv.escalated then Escalated(inv.escalatedMode) else Unmarked, inv.questions)
    }

    /** A gate's answer and the state it leaves agree with its specification. */
    ghost predicate Does(inv: Invocation, veto: Option<Refusal>, step: Step)
      reads this, inv
    {
      At(inv) == step.run && veto == if step.Stop? then Some(step.why) else None
    }

    method MissingScopes(scopes: seq<string>) returns (missing: seq<string>)
      ensures missing == Missing(granted, scopes)
    {
      missing := [];
      var seen: set<string> := {};
      var i := 0;
      assert granted + seen == granted && scopes[0..] == scopes;
      while i < |scopes|
        invariant 0 <= i <= |scopes|
        invariant missing + Missing(granted + seen, scopes[i..]) == Missing(granted, scopes)
      {
        assert scopes[i..][1..] == scopes[i + 1..];
        var scope := Trim(scopes[i]);
        i := i + 1;
        if scope == "" || scope in seen {
          continue;
        }
        seen := seen + {scope};
        if scope !in granted {
          missing := missing + [scope];
        }
        assert granted + (seen - {scope}) + {scope} == granted + seen;
        if scope in granted {
          assert granted + seen == granted + (seen - {scope});
        }
      }
    }

    method SeedScopes(scopes: seq<string>)
      modifies this`granted
      ensures granted == old(granted) + Names(scopes)
    {
      var i := 0;
      while i < |scopes|
        invariant 0 <= i <= |scopes|
        invariant granted == old(granted) + Names(scopes[..i])
      {
        var scope := Trim(scopes[i]);
        NamesOneMore(scopes, i);
        if scope != "" {
          granted := granted + {scope};
        }
        i := i + 1;
      }
      assert scopes[..i] == scopes;
    }

    method ApprovalEscalation(inv: Invocation) returns (veto: Option<Refusal>)
      modifies inv`escalated, inv`escalatedMode, inv`questions
      ensures Does(inv, veto, EscalationGate(env, inv.call, old(At(inv))))
    {
      var c := inv.call;
      if !Confined(c) {
        return None;
      }
      var permissions, justification := Permissions(c), Justification(c);
      if permissions == "" {
        return None;
      }
      var mode := ParseMode(env, permissions);
      if mode.None? {
        return Some(BadMode);
      }
      var target := mode.value;
      if target.ReadOnly? || !Widenable(sandbox, target) {
        return None;
      }
      if justification == "" {
        return Some(NoJustification);
      }
      if Trim(justification) == "" {
        return Some(BlankJustification);
      }
      if userGrantAll {
        inv.escalated, inv.escalatedMode := true, target;
        return None;
      }
      if EffectivePolicy(Now(), c).Never? {
        return Some(PromptsDisabled);
      }
      inv.questions := inv.questions + [EscalateTo(target)];
      if !c.onEscalation.AllowedOnce? {
        return Some(Declined(c.onEscalation));
      }
      inv.escalated, inv.escalatedMode := true, target;
      return None;
    }

    method ToolApprovalGate(inv: Invocation) returns (veto: Option<Refusal>)
      modifies inv`questions, this`granted, this`asked
      ensures Does(inv, veto, ToolGate(inv.call, old(At(inv))))
    {
      var c := inv.call;
      if !c.info.Asks? || Trim(c.info.reason) == "" {
        return None;
      }
      var missing := c.info.scopes;
      var byScope := perScope && |c.info.scopes| > 0;
      if byScope {
        missing := MissingScopes(c.info.scopes);
        if |missing| == 0 {
          return None;
        }
      }
      if c.userGrant || userGrantAll {
        return None;
      }
      if EffectivePolicy(Now(), c).Never? {
        return Some(PromptsDisabled);
      }
      inv.questions := inv.questions + [RunTool(missing)];
      if !c.onTool.AllowedOnce? {
        return Some(Declined(c.onTool));
      }
      if byScope {
        SeedScopes(missing);
        MissingIsTrimmed(old(granted), c.info.scopes);
        asked := asked + Elements(missing);
      }
      return None;
    }

    method CallListener(l: Listener, inv: Invocation) returns (veto: Option<Refusal>)
      modifies inv`escalated, inv`escalatedMode, inv`questions, this`granted, this`asked
      ensures Does(inv, veto, Gate(env, l, inv.call, old(At(inv))))
    {
      match l
      case Escalation =>
        veto := ApprovalEscalation(inv);
      case ToolApproval =>
        veto := ToolApprovalGate(inv);
      case NeverApproval =>
        var free := inv.call.info.Unknown? || !inv.call.info.requiresNever || EffectivePolicy(Now(), inv.call).Never?;
        veto := if free then None else Some(NeedsNever);
      case Sandbox =>
        var mode := if inv.escalated then inv.escalatedMode else sandbox;
        veto := if SandboxAllows(env, mode, inv.call.tool, inv.call.args) then None else Some(SandboxDenied(mode));
      case Policy(denies) =>
        veto := if denies then Some(PolicyDenied) else None;
    }

    /** The innermost `next`: the hooks in load order, each of which may veto or rewrite the arguments. */
    method RunBeforeTool(hooks: seq<Hook>, inv: Invocation) returns (veto: bool)
      modifies inv`args
      ensures veto <==> Hooked(hooks, old(inv.args)).None?
      ensures !veto ==> Hooked(hooks, old(inv.args)) == Some(inv.args)
    {
      assert hooks[0..] == hooks;
      for i := 0 to |hooks|
        invariant Hooked(hooks[i..], inv.args) == Hooked(hooks, old(inv.args))
      {
        assert hooks[i..][1..] == hooks[i + 1..];
        var reply := hooks[i](inv.args);
        if reply.Veto? {
          return true;
        }
        if reply.Rewrite? {
          inv.args := reply.args;
        }
      }
      return false;
    }

    /** The chain passed the call on and no hook vetoed it, or the veto says who did. */
    ghost predicate Passes(hooks: seq<Hook>, args: Option<Args>, inv: Invocation, veto: Option<Refusal>, step: Step)
      reads this, inv
    {
      && At(inv) == step.run
      && (step.Stop? ==> veto == Some(step.why))
      && (step.Go? ==> veto == (if Hooked(hooks, args).None? then Some(HookVetoed) else None)
                       && (veto.None? ==> Hooked(hooks, args) == Some(inv.args)))
    }

    /** The closure around the listeners from `i` on; `None` once the innermost `next` has run and agreed. */
    method Next(listeners: seq<Listener>, hooks: seq<Hook>, inv: Invocation, i: nat) returns (veto: Option<Refusal>)
      requires i <= |listeners|
      modifies inv, this`granted, this`asked
      ensures Passes(hooks, old(inv.args), inv, veto, Chain(env, listeners[i..], inv.call, old(At(inv))))
      decreases |listeners| - i
    {
      if i == |listeners| {
        var vetoed := RunBeforeTool(hooks, inv);
        return if vetoed then Some(HookVetoed) else None;
      }
      assert listeners[i..][0] == listeners[i] && listeners[i..][1..] == listeners[i + 1..];
      hide Gate, Hooked;
      veto := CallListener(listeners[i], inv);
      if veto.None? {
        veto := Next(listeners, hooks, inv, i + 1);
      }
    }

    /** Sends a fresh invocation through gates and hooks and asks the policies once more before the body. */
    method ExecuteTool(listeners: seq<Listener>, hooks: seq<Hook>, policies: seq<Verdict>, c: Call)
      returns (ran: Option<Option<Args>>, ghost questions: seq<Question>)
      modifies this`granted, this`asked
      ensures ran == Executed(env, listeners, hooks, policies, c, old(Now()))
      ensures Now() == Handle(env, listeners, c, old(Now())).run.s
      ensures questions == Handle(env, listeners, c, old(Now())).run.questions
    {
      var inv := new Invocation(c);
      assert listeners[0..] == listeners;
      var veto := Next(listeners, hooks, inv, 0);
      questions := inv.questions;
      if veto.Some? {
        return None, questions;
      }
      for i := 0 to |policies|
        invariant forall k | 0 <= k < i :: !policies[k](inv.args)
      {
        if policies[i](inv.args) {
          return None, questions;
        }
      }
      return Some(inv.args), questions;
    }
  }

  lemma {:induction false} NamesOneMore(scopes: seq<string>, i: nat)
    requires i < |scopes|
    ensures Names(scopes[..i + 1]) == Names(scopes[..i]) + if Trim(scopes[i]) == "" then {} else {Trim(scopes[i])}
  {
    var more := scopes[..i + 1];
    forall k | 0 <= k < i
      ensures more[k] == scopes[..i][k]
    {
    }
    if Trim(scopes[i]) != "" {
      assert Trim(more[i]) == Trim(scopes[i]);
    }
    forall n | n in Names(scopes[..i])
      ensures n in Names(more)
    {
      var k :| 0 <= k < i && Trim(scopes[..i][k]) != "" && Trim(scopes[..i][k]) == n;
      assert Trim(more[k]) == n;
    }
  }

  /** What is missing: the named scopes that are not granted, each once, already trimmed. */
  lemma {:induction false} MissingIsTrimmed(granted: set<string>, scopes: seq<string>)
    ensures var missing := Missing(granted, scopes);
            && (forall i | 0 <= i < |missing| :: Trim(missing[i]) == missing[i] && missing[i] != "")
            && Elements(missing) == Names(missing) == Names(scopes) - granted
            && (forall i, j | 0 <= i < j < |missing| :: missing[i] != missing[j])
    decreases |scopes|
  {
    if scopes != [] {
      var first := Trim(scopes[0]);
      var rest := scopes[1..];
      TrimTwice(scopes[0]);
      NamesHead(scopes);
      if first == "" || first in granted {
        MissingIsTrimmed(granted, rest);
      } else {
        MissingIsTrimmed(granted + {first}, rest);
        var later := Missing(granted + {first}, rest);
        var missing := Missing(granted, scopes);
        assert missing == [first] + later;
        NamesHead(missing);
        assert missing[1..] == later;
        assert first !in Names(later);
        assert Elements(missing) == {first} + Elements(later);
      }
    }
  }

  lemma {:induction false} NamesHead(scopes: seq<string>)
    requires scopes != []
    ensures Names(scopes) == Names(scopes[1..]) + if Trim(scopes[0]) == "" then {} else {Trim(scopes[0])}
  {
    var rest := scopes[1..];
    forall n | n in Names(scopes)
      ensures n == Trim(scopes[0]) || n in Names(rest)
    {
      var k :| 0 <= k < |scopes| && Trim(scopes[k]) != "" && Trim(scopes[k]) == n;
      if k > 0 {
        assert Trim(rest[k - 1]) == n;
      }
    }
    forall n | n in Names(rest)
      ensures n in Names(scopes)
    {
      var k :| 0 <= k < |rest| && Trim(rest[k]) != "" && Trim(rest[k]) == n;
      assert Trim(scopes[k + 1]) == n;
    }
  }

  /** Nothing is missing if and only if every named scope is granted. */
  lemma {:induction false} MissingNothing(granted: set<string>, scopes: seq<string>)
    ensures Missing(granted, scopes) == [] <==> Names(scopes) <= granted
  {
    MissingIsTrimmed(granted, scopes);
    var missing := Missing(granted, scopes);
    if missing != [] {
      assert missing[0] in Elements(missing);
    } else {
      assert Names(scopes) - granted == {};
      assert forall n | n in Names(scopes) :: n in granted || n in Names(scopes) - granted;
    }
  }
}
