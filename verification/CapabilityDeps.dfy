/** core/capability_deps.go and the compaction role of core/notify.go: who provides a capability. */
module CapabilityDeps {
  import opened Wrappers
  import opened Ordering

  datatype PluginType = AgentType | LlmType | ToolType | PolicyType | DscType | OtherType(name: string)

  /** What a plugin publishes: its type and its capability keys. */
  datatype Info = Info(ptype: PluginType, capabilities: map<string, string>)

  datatype Requirement = Requirement(ptype: PluginType, capability: string)

  /** A requirement with the provider found for it; "" while there is none. */
  datatype Dep = Dep(ptype: PluginType, capability: string, provider: string)

  const REQUIRES_PREFIX := "requires/"
  const COMPACTION := "compaction"

  // ---------- Declarations ----------

  /** The parts of a requirement key. */
  predicate Parts(t: string, c: string) {
    t != "" && c != "" && '/' !in t && '/' !in c
  }

  function KeyFor(t: string, c: string): string {
    REQUIRES_PREFIX + t + "/" + c
  }

  function FirstSlash(s: string): (n: nat)
    ensures n <= |s| && (n < |s| ==> s[n] == '/') && forall i | 0 <= i < n :: s[i] != '/'
  {
    if s == "" || s[0] == '/' then 0 else 1 + FirstSlash(s[1..])
  }

  function ParseKey(key: string): Option<(string, string)> {
    if |key| <= |REQUIRES_PREFIX| || key[..|REQUIRES_PREFIX|] != REQUIRES_PREFIX then None
    else
      var rest := key[|REQUIRES_PREFIX|..];
      var n := FirstSlash(rest);
      if n < |rest| && rest[..n] != "" && rest[n + 1..] != "" && '/' !in rest[n + 1..]
      then Some((rest[..n], rest[n + 1..])) else None
  }

  /** A key parses to a type and a capability exactly when it is the key written for them. */
  lemma {:induction false} ParseKeyExact(key: string, t: string, c: string)
    ensures ParseKey(key) == Some((t, c))
       <==> t != "" && c != "" && '/' !in t && '/' !in c && key == "requires/" + t + "/" + c
  {
    if Parts(t, c) && key == KeyFor(t, c) {
      var rest := key[|REQUIRES_PREFIX|..];
      assert key[..|REQUIRES_PREFIX|] == REQUIRES_PREFIX && rest == t + "/" + c;
      var n := FirstSlash(rest);
      assert rest[|t|] == '/' && forall i | 0 <= i < |t| :: rest[i] == t[i];
      assert n == |t|;
      assert rest[..n] == t && rest[n + 1..] == c;
    }
    if ParseKey(key) == Some((t, c)) {
      var rest := key[|REQUIRES_PREFIX|..];
      assert rest == t + "/" + c;
      assert key == REQUIRES_PREFIX + rest;
    }
  }

  method ParseRequiresCapability(key: string) returns (parsed: Option<(string, string)>)
    ensures parsed == ParseKey(key)
  {
    if |key| <= |REQUIRES_PREFIX| {
      return None;
    }
    if key[..|REQUIRES_PREFIX|] != REQUIRES_PREFIX {
      return None;
    }
    var rest := key[|REQUIRES_PREFIX|..];
    for i := 0 to |rest|
      invariant forall k | 0 <= k < i :: rest[k] != '/'
    {
      if rest[i] == '/' {
        SlashAt(rest, i);
        var t, c := rest[..i], rest[i + 1..];
        if t != "" && c != "" && '/' !in c {
          return Some((t, c));
        }
        return None;
      }
    }
    SlashAt(rest, |rest|);
    return None;
  }

  lemma {:induction false} SlashAt(s: string, n: nat)
    requires n <= |s| && (n < |s| ==> s[n] == '/') && forall k | 0 <= k < n :: s[k] != '/'
    ensures FirstSlash(s) == n
  {
  }

  function TypeOf(name: string): PluginType {
    if name == "agent" then AgentType
    else if name == "llm" then LlmType
    else if name == "tool" then ToolType
    else if name == "policy" then PolicyType
    else if name == "dsc" then DscType
    else OtherType(name)
  }

  /** The five type names the host knows, and every other name as itself. */
  lemma {:induction false} TypeNames()
    ensures TypeOf("agent") == AgentType && TypeOf("llm") == LlmType && TypeOf("tool") == ToolType
    ensures TypeOf("policy") == PolicyType && TypeOf("dsc") == DscType
    ensures forall name :: name !in {"agent", "llm", "tool", "policy", "dsc"} ==> TypeOf(name) == OtherType(name)
  {
  }

  /** A plugin requires a capability of a type exactly if it has the key written for them. */
  lemma {:induction false} RequiresExactly(info: Info, q: Requirement)
    ensures q in Requires(info) <==>
              exists t :: Parts(t, q.capability) && TypeOf(t) == q.ptype && KeyFor(t, q.capability) in info.capabilities
  {
    if q in Requires(info) {
      var k :| k in info.capabilities && ParseKey(k).Some?
               && q == Requirement(TypeOf(ParseKey(k).value.0), ParseKey(k).value.1);
      ParseKeyExact(k, ParseKey(k).value.0, ParseKey(k).value.1);
    }
    if t :| Parts(t, q.capability) && TypeOf(t) == q.ptype && KeyFor(t, q.capability) in info.capabilities {
      ParseKeyExact(KeyFor(t, q.capability), t, q.capability);
    }
  }

  function Requires(info: Info): set<Requirement> {
    set k | k in info.capabilities && ParseKey(k).Some? ::
      Requirement(TypeOf(ParseKey(k).value.0), ParseKey(k).value.1)
  }

  predicate Declares(info: Info, capability: string) {
    capability in info.capabilities && info.capabilities[capability] != "false"
  }

  // ---------- The state a resolution reads ----------

  datatype Host = Host(
    metadata: map<string, Info>, hooks: set<string>,
    llmServices: set<string>, toolServices: set<string>, agents: set<string>, typeMap: set<string>,
    agentLLM: string, compaction: string)

  predicate Available(h: Host, name: string) {
    name in h.llmServices || name in h.toolServices || name in h.agents || name in h.typeMap
  }

  predicate TypeFits(info: Info, t: Option<PluginType>) {
    t.None? || info.ptype == t.value
  }

  /** The loaded plugins that could hold the compaction role. */
  function Candidates(h: Host, t: Option<PluginType>): set<string> {
    set n | n in h.metadata && n in h.hooks && TypeFits(h.metadata[n], t) && Declares(h.metadata[n], COMPACTION)
  }

  /** Whether the configured backend can take the role: loaded, and its declaration neither empty nor "false". */
  predicate ConfiguredFits(h: Host) {
    && h.compaction in h.hooks && h.compaction in h.metadata
    && COMPACTION in h.metadata[h.compaction].capabilities
    && h.metadata[h.compaction].capabilities[COMPACTION] != ""
    && h.metadata[h.compaction].capabilities[COMPACTION] != "false"
  }

  /** The holder of the compaction role; "" when it is vacant. */
  ghost function Holder(h: Host, t: Option<PluginType>): string {
    if h.compaction != "" then (if ConfiguredFits(h) then h.compaction else "")
    else if |Candidates(h, t)| == 1 then Least(Candidates(h, t))
    else ""
  }

  function Declarers(h: Host, t: PluginType, capability: string, self: string): set<string> {
    set n | n in h.metadata && n != self && h.metadata[n].ptype == t && Declares(h.metadata[n], capability)
  }

  datatype Found = Provider(name: string) | Nobody | Conflict

  ghost function Find(h: Host, t: PluginType, capability: string, self: string): Found {
    if capability == "" then Nobody
    else if capability == COMPACTION then
      if Holder(h, Some(t)) != "" then Provider(Holder(h, Some(t)))
      else if |Candidates(h, Some(t))| <= 1 then Nobody
      else Conflict
    else
      var names := Declarers(h, t, capability, self);
      if names == {} then Nobody
      else if |names| == 1 then Provider(Least(names))
      else if t.LlmType? then Provider(if h.agentLLM != "" && h.agentLLM in names then h.agentLLM else Least(names))
      else Conflict
  }

  ghost function Resolve(h: Host, r: Requirement, self: string): Dep {
    match Find(h, r.ptype, r.capability, self)
    case Provider(name) => Dep(r.ptype, r.capability, name)
    case _ => Dep(r.ptype, r.capability, "")
  }

  predicate DepOk(h: Host, d: Dep) {
    d.provider != "" && Available(h, d.provider)
  }

  predicate DepsOk(h: Host, deps: set<Dep>) {
    forall d | d in deps :: DepOk(h, d)
  }

  // ---------- Laws of the resolution ----------

  lemma {:induction false} Single(s: set<string>)
    requires |s| == 1
    ensures s == {Least(s)}
  {
    var x := Least(s);
    assert |s - {x}| == 0;
  }

  /** The declarers are the other plugins of the type with the capability and not as "false". */
  lemma {:induction false} DeclarersExactly(h: Host, t: PluginType, capability: string, self: string, n: string)
    ensures n in Declarers(h, t, capability, self)
       <==> && n != self && n in h.metadata && h.metadata[n].ptype == t
            && capability in h.metadata[n].capabilities && h.metadata[n].capabilities[capability] != "false"
  {
  }

  /** The plugin is loaded, of the type asked for, and declares compaction. */
  predicate CanCompact(h: Host, t: Option<PluginType>, name: string) {
    && name in h.hooks && name in h.metadata && (t.Some? ==> h.metadata[name].ptype == t.value)
    && "compaction" in h.metadata[name].capabilities && h.metadata[name].capabilities["compaction"] != "false"
  }

  /** A configured backend holds the role if it is loaded and its declaration is not blank, whatever its type; with
      none configured the only plugin that can compact holds it. */
  lemma {:induction false} HolderExactly(h: Host, t: Option<PluginType>, name: string)
    requires name != ""
    ensures Holder(h, t) == name
       <==> if h.compaction != "" then
              name == h.compaction && CanCompact(h, None, name) && h.metadata[name].capabilities["compaction"] != ""
            else CanCompact(h, t, name) && forall other | CanCompact(h, t, other) :: other == name
  {
    CandidatesExactly(h, t);
    if |Candidates(h, t)| == 1 {
      Single(Candidates(h, t));
    }
    if CanCompact(h, t, name) && forall other | CanCompact(h, t, other) :: other == name {
      assert Candidates(h, t) == {name};
    }
  }

  lemma {:induction false} CandidatesExactly(h: Host, t: Option<PluginType>)
    ensures forall n :: n in Candidates(h, t) <==> CanCompact(h, t, n)
  {
  }

  /** A requirement of compaction leads to the role's holder, and is in conflict exactly if the role is vacant and two
      plugins of the type can compact. */
  lemma {:induction false} CompactionExactly(h: Host, t: PluginType, self: string, name: string)
    ensures Find(h, t, "compaction", self) == Provider(name) <==> name != "" && Holder(h, Some(t)) == name
    ensures Find(h, t, "compaction", self) == Conflict
       <==> && Holder(h, Some(t)) == ""
            && exists a, b :: a != b && CanCompact(h, Some(t), a) && CanCompact(h, Some(t), b)
  {
    CandidatesExactly(h, Some(t));
    var names := Candidates(h, Some(t));
    if |names| > 1 {
      var a :| a in names;
      assert |names - {a}| > 0;
      var b :| b in names - {a};
      assert CanCompact(h, Some(t), a) && CanCompact(h, Some(t), b);
    }
    if a, b :| a != b && CanCompact(h, Some(t), a) && CanCompact(h, Some(t), b) {
      SubsetSize({a, b}, names);
    }
    hide Candidates, CanCompact, Holder;
  }

  lemma {:induction false} SubsetSize(a: set<string>, b: set<string>)
    requires a <= b
    ensures |a| <= |b|
  {
    if x :| x in a {
      SubsetSize(a - {x}, b - {x});
    }
  }

  /** Outside llm and compaction, an answer is the one declarer besides the asker, and one declarer is the answer. */
  lemma {:induction false} AnswerIsTheOnlyDeclarer(
    h: Host, t: PluginType, capability: string, self: string, name: string)
    requires !t.LlmType? && capability != "" && capability != "compaction"
    ensures Find(h, t, capability, self) == Provider(name) <==> Declarers(h, t, capability, self) == {name}
    ensures Find(h, t, capability, self) == Nobody <==> Declarers(h, t, capability, self) == {}
  {
    var names := Declarers(h, t, capability, self);
    if |names| == 1 {
      Single(names);
    }
    if names == {name} {
      assert |names| == 1;
    }
  }

  function Preferring(h: Host, llm: string): Host {
    h.(agentLLM := llm)
  }

  // Which declarer of an llm capability a preference leads to.
  lemma {:induction false} Preferred(h: Host, capability: string, self: string, llm: string)
    requires capability != "" && capability != COMPACTION
    ensures var names := Declarers(h, LlmType, capability, self);
            var found := Find(Preferring(h, llm), LlmType, capability, self);
            if names == {} then found == Nobody
            else
              && found.Provider? && found.name in names
              && (if llm in names then found.name == llm else IsLeast(found.name, names))
  {
    var names := Declarers(h, LlmType, capability, self);
    assert Declarers(Preferring(h, llm), LlmType, capability, self) == names;
    if names != {} && llm in names {
      if |names| == 1 {
        Single(names);
      } else if llm == "" {
        EmptyIsLeast(names);
      }
    }
  }

  lemma {:induction false} EmptyIsLeast(names: set<string>)
    requires "" in names
    ensures Least(names) == ""
  {
    BelowAntisymmetric(Least(names), "");
  }

  /** Two preferences give the same llm provider if and only if they are the same, or neither names a declarer but
      the first by name. */
  lemma {:induction false} PreferenceMatters(h: Host, capability: string, self: string, a: string, b: string)
    requires capability != "" && capability != COMPACTION
    ensures var names := Declarers(h, LlmType, capability, self);
            Find(Preferring(h, a), LlmType, capability, self) == Find(Preferring(h, b), LlmType, capability, self)
            <==> a == b || ((a in names ==> IsLeast(a, names)) && (b in names ==> IsLeast(b, names)))
  {
    var names := Declarers(h, LlmType, capability, self);
    Preferred(h, capability, self, a);
    Preferred(h, capability, self, b);
    if names != {} {
      var one := Find(Preferring(h, a), LlmType, capability, self).name;
      var two := Find(Preferring(h, b), LlmType, capability, self).name;
      if IsLeast(one, names) && IsLeast(two, names) {
        BelowAntisymmetric(one, two);
      }
    }
  }

  /** A declarer that can be used. */
  predicate Usable(h: Host, name: string) {
    name != "" && Available(h, name)
  }

  ghost predicate MetUnder(h: Host, llm: string, capability: string, self: string) {
    Find(Preferring(h, llm), LlmType, capability, self).Provider?
    && Usable(h, Find(Preferring(h, llm), LlmType, capability, self).name)
  }

  /** An llm dependency is met under some preference exactly if some declarer is usable, and under every preference
      exactly if there is one and all are. */
  lemma {:induction false} PreferenceDecides(h: Host, capability: string, self: string)
    requires capability != "" && capability != COMPACTION
    ensures var names := Declarers(h, LlmType, capability, self);
            && ((exists llm :: MetUnder(h, llm, capability, self)) <==> exists p :: p in names && Usable(h, p))
            && ((forall llm :: MetUnder(h, llm, capability, self))
                 <==> names != {} && forall p :: p in names ==> Usable(h, p))
  {
    var names := Declarers(h, LlmType, capability, self);
    forall llm: string
      ensures MetUnder(h, llm, capability, self)
            <==> names != {} && Usable(h, Find(Preferring(h, llm), LlmType, capability, self).name)
      ensures llm in names ==> (MetUnder(h, llm, capability, self) <==> Usable(h, llm))
      ensures MetUnder(h, llm, capability, self) ==> exists p :: p in names && Usable(h, p)
      ensures (names != {} && forall p :: p in names ==> Usable(h, p)) ==> MetUnder(h, llm, capability, self)
    {
      Preferred(h, capability, self, llm);
    }
    if forall llm :: MetUnder(h, llm, capability, self) {
      assert MetUnder(h, "", capability, self);
    }
  }

  /** The dependency on compaction and the role itself give the same holder if and only if a backend is
      configured, or no candidate has another type, or neither selection has exactly one candidate. */
  lemma {:induction false} RoleAgreement(h: Host, t: PluginType)
    requires "" !in h.metadata
    ensures Holder(h, Some(t)) == Holder(h, None)
       <==> h.compaction != "" || Candidates(h, Some(t)) == Candidates(h, None)
            || (|Candidates(h, Some(t))| != 1 && |Candidates(h, None)| != 1)
  {
    var typed, all := Candidates(h, Some(t)), Candidates(h, None);
    if |typed| == 1 {
      Single(typed);
    }
    if |all| == 1 {
      Single(all);
    }
    if |typed| == 1 && |all| == 1 {
      assert typed <= all;
    }
  }
}
