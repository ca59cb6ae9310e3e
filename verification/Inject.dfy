/** core/inject.go: promoting plugins whose capability dependencies have become available. */
module Inject {
  import opened Wrappers
  import opened Ordering
  import opened CapabilityDeps

  /** Metadata, stored dependencies and waiting entries, by plugin name. */
  type Infos = map<string, Info>
  type Deps = map<string, set<Dep>>
  type Pending = map<string, PluginType>

  // ---------- The primary LLM of an agent ----------

  predicate LlmCandidate(d: Dep) {
    d.ptype.LlmType? && d.provider != ""
  }

  /** `name` provides the llm dependency with the least capability name; "" when none is resolved. */
  ghost predicate IsPrimary(name: string, deps: set<Dep>) {
    if exists d :: d in deps && LlmCandidate(d) then
      exists d :: d in deps && LlmCandidate(d) && d.provider == name
                  && forall other | other in deps && LlmCandidate(other) :: Below(d.capability, other.capability)
    else name == ""
  }

  /** A plugin is the primary LLM exactly if it provides an llm dependency that no other one with a provider comes
      before; there is none exactly if no llm dependency has a provider. */
  lemma {:induction false} PrimaryExactly(name: string, deps: set<Dep>)
    ensures IsPrimary(name, deps)
       <==> || (name == "" && forall d | d in deps && d.ptype.LlmType? :: d.provider == "")
            || exists d :: && d in deps && d.ptype.LlmType? && d.provider == name && name != ""
                           && forall other | other in deps && other.ptype.LlmType? && other.provider != "" ::
                                Below(d.capability, other.capability)
  {
    if exists d :: d in deps && LlmCandidate(d) {
      var some :| some in deps && LlmCandidate(some);
      if IsPrimary(name, deps) {
        var d :| d in deps && LlmCandidate(d) && d.provider == name
                 && forall other | other in deps && LlmCandidate(other) :: Below(d.capability, other.capability);
        assert d.ptype.LlmType? && name != "";
      }
      if d :| && d in deps && d.ptype.LlmType? && d.provider == name && name != ""
              && forall other | other in deps && other.ptype.LlmType? && other.provider != "" ::
                   Below(d.capability, other.capability) {
        assert LlmCandidate(d);
      }
    }
  }

  predicate SortedDeps(deps: seq<Dep>) {
    forall i, j | 0 <= i < j < |deps| :: Below(deps[i].capability, deps[j].capability)
  }

  // All in order up to `i`, but for the dependency at `j`, which is below those after it.
  predicate Sinking(deps: seq<Dep>, j: int, i: nat) {
    && 0 <= j <= i < |deps|
    && (forall a, b | 0 <= a < b <= i && a != j && b != j :: Below(deps[a].capability, deps[b].capability))
    && forall b | j < b <= i :: Below(deps[j].capability, deps[b].capability)
  }

  /** One turn of the insertion sort: the dependency at `i` sinks to its place. */
  method SinkDep(candidates: seq<Dep>, i: nat) returns (sorted: seq<Dep>)
    requires i < |candidates| && SortedDeps(candidates[..i])
    ensures |sorted| == |candidates| && SortedDeps(sorted[..i + 1])
    ensures multiset(sorted) == multiset(candidates)
  {
    sorted := candidates;
    var j := i;
    SinkStarts(sorted, i);
    hide Sinking, SortedDeps;
    while j > 0 && !Below(sorted[j - 1].capability, sorted[j].capability)
      invariant 0 <= j <= i && |sorted| == |candidates|
      invariant multiset(sorted) == multiset(candidates)
      invariant Sinking(sorted, j, i)
    {
      SinkStep(sorted, j, i);
      SwapKeepsAll(sorted, j);
      sorted := sorted[j - 1 := sorted[j]][j := sorted[j - 1]];
      j := j - 1;
    }
    Sunk(sorted, j, i);
  }

  lemma {:induction false} SinkStarts(s: seq<Dep>, i: nat)
    requires i < |s| && SortedDeps(s[..i])
    ensures Sinking(s, i, i)
  {
    forall a, b | 0 <= a < b < i
      ensures Below(s[a].capability, s[b].capability)
    {
      assert s[..i][a] == s[a] && s[..i][b] == s[b];
    }
  }

  lemma {:induction false} SinkStep(s: seq<Dep>, j: int, i: nat)
    requires Sinking(s, j, i) && j > 0 && !Below(s[j - 1].capability, s[j].capability)
    ensures Sinking(s[j - 1 := s[j]][j := s[j - 1]], j - 1, i)
  {
    BelowTotal(s[j - 1].capability, s[j].capability);
  }

  lemma {:induction false} Sunk(s: seq<Dep>, j: int, i: nat)
    requires Sinking(s, j, i) && (j > 0 ==> Below(s[j - 1].capability, s[j].capability))
    ensures SortedDeps(s[..i + 1])
  {
    forall a | 0 <= a < j
      ensures Below(s[a].capability, s[j].capability)
    {
      if a < j - 1 {
        BelowTransitive(s[a].capability, s[j - 1].capability, s[j].capability);
      }
    }
  }

  lemma {:induction false} SwapKeepsAll(s: seq<Dep>, j: nat)
    requires 0 < j < |s|
    ensures multiset(s[j - 1 := s[j]][j := s[j - 1]]) == multiset(s)
  {
  }

  method PickPrimaryLLM(deps: seq<Dep>) returns (name: string)
    ensures IsPrimary(name, set d | d in deps)
  {
    var candidates: seq<Dep> := [];
    for i := 0 to |deps|
      invariant forall d :: d in candidates <==> d in deps[..i] && LlmCandidate(d)
    {
      if deps[i].ptype.LlmType? && deps[i].provider != "" {
        candidates := candidates + [deps[i]];
      }
    }
    assert deps[..|deps|] == deps;
    if |candidates| == 0 {
      return "";
    }
    ghost var all := candidates;
    var i := 1;
    while i < |candidates|
      invariant 1 <= i <= |candidates| == |all|
      invariant multiset(candidates) == multiset(all)
      invariant SortedDeps(candidates[..i])
    {
      candidates := SinkDep(candidates, i);
      i := i + 1;
    }
    assert candidates[..i] == candidates;
    FirstIsPrimary(deps, all, candidates);
    return candidates[0].provider;
  }

  lemma {:induction false} FirstIsPrimary(deps: seq<Dep>, all: seq<Dep>, sorted: seq<Dep>)
    requires forall d :: d in all <==> d in deps && LlmCandidate(d)
    requires sorted != [] && SortedDeps(sorted) && multiset(sorted) == multiset(all)
    ensures IsPrimary(sorted[0].provider, set d | d in deps)
  {
    var first := sorted[0];
    assert first in multiset(sorted);
    assert first in all;
    forall other | other in deps && LlmCandidate(other)
      ensures Below(first.capability, other.capability)
    {
      assert other in multiset(all);
      assert other in sorted;
      BelowReflexive(first.capability);
    }
  }

  // ---------- The host ----------

  /** What loading a plugin does: fail, or publish the metadata. Whether an agent accepts its services. */
  datatype World = World(load: string -> Option<Info>, register: string -> bool)

  /** What one visit of a pending entry did. */
  datatype Visit = Promoted | Stays | Failed

  /** What activating an agent rests on besides the host: who waits, which LLMs are loaded, whether they are served. */
  datatype Crew = Crew(waiting: set<string>, llms: set<string>, serving: bool)

  class Manager {
    const world: World
    const brokerUp: bool
    const compaction: string
    var metadata: Infos
    var hooks: set<string>
    var llms: set<string>
    var llmServices: set<string>
    var toolServices: set<string>
    var agents: set<string>
    var typeMap: set<string>
    var agentLLM: string
    var serving: bool
    /** The plugins in state PENDING. */
    var waiting: set<string>
    var pending: Pending
    var resolved: Deps

    function Snapshot(): Host
      reads this
    {
      Host(metadata, hooks, llmServices, toolServices, agents, typeMap, agentLLM, compaction)
    }

    function CrewNow(): Crew
      reads this
    {
      Crew(waiting, llms, serving)
    }

    method FindProvider(t: PluginType, capability: string, self: string) returns (found: Found)
      ensures found == Find(Snapshot(), t, capability, self)
    {
      if capability == "" {
        return Nobody;
      }
      if capability == COMPACTION {
        var holder, candidates := PickCompaction(Some(t));
        if holder != "" {
          return Provider(holder);
        }
        return if |candidates| <= 1 then Nobody else Conflict;
      }
      var names := CollectDeclarers(t, capability, self);
      hide Declarers, Holder, Candidates;
      if |names| == 0 {
        return Nobody;
      }
      var first := FirstByName(names);
      if |names| == 1 {
        return Provider(first);
      }
      if t.LlmType? {
        return Provider(if agentLLM != "" && agentLLM in names then agentLLM else first);
      }
      return Conflict;
    }

    /** Collects the declarers in whatever order the map yields them. */
    method CollectDeclarers(t: PluginType, capability: string, self: string) returns (names: set<string>)
      ensures names == Declarers(Snapshot(), t, capability, self)
    {
      names := {};
      var rest := metadata.Keys;
      while rest != {}
        invariant rest <= metadata.Keys
        invariant names == set n | n in Declarers(Snapshot(), t, capability, self) && n !in rest
        decreases |rest|
      {
        var name :| name in rest;
        rest := rest - {name};
        if name == self {
          continue;
        }
        if metadata[name].ptype != t {
          continue;
        }
        if Declares(metadata[name], capability) {
          names := names + {name};
        }
      }
      assert names == Declarers(Snapshot(), t, capability, self);
    }

    /** The role's holder and all candidates, in whatever order the map yields them. */
    method PickCompaction(t: Option<PluginType>) returns (holder: string, candidates: set<string>)
      ensures holder == Holder(Snapshot(), t) && candidates == Candidates(Snapshot(), t)
    {
      candidates := CollectCandidates(t);
      hide Candidates, Declares;
      if compaction != "" {
        if compaction !in hooks {
          return "", candidates;
        }
        if compaction !in metadata || COMPACTION !in metadata[compaction].capabilities
           || metadata[compaction].capabilities[COMPACTION] == ""
           || metadata[compaction].capabilities[COMPACTION] == "false" {
          return "", candidates;
        }
        return compaction, candidates;
      }
      if |candidates| == 1 {
        var only := FirstByName(candidates);
        return only, candidates;
      }
      return "", candidates;
    }

    method CollectCandidates(t: Option<PluginType>) returns (candidates: set<string>)
      ensures candidates == Candidates(Snapshot(), t)
    {
      candidates := {};
      var rest := metadata.Keys;
      while rest != {}
        invariant rest <= metadata.Keys
        invariant candidates == set n | n in Candidates(Snapshot(), t) && n !in rest
        decreases |rest|
      {
        var name :| name in rest;
        rest := rest - {name};
        if name in hooks && TypeFits(metadata[name], t) && Declares(metadata[name], COMPACTION) {
          candidates := candidates + {name};
        }
      }
      assert candidates == Candidates(Snapshot(), t);
    }

    method ResolveRequired(info: Info, self: string) returns (deps: set<Dep>)
      ensures deps == ResolvedAll(Snapshot(), info, self)
    {
      deps := {};
      var rest := Requires(info);
      while rest != {}
        invariant rest <= Requires(info)
        invariant deps == set r | r in Requires(info) && r !in rest :: Resolve(Snapshot(), r, self)
        decreases |rest|
      {
        var r :| r in rest;
        rest := rest - {r};
        var found := FindProvider(r.ptype, r.capability, self);
        deps := deps + {Dep(r.ptype, r.capability, if found.Provider? then found.name else "")};
      }
    }

    /** Loads a provider: its metadata, hook and services appear together. */
    method LoadProvider(name: string, t: PluginType) returns (ok: bool)
      requires t.LlmType? || t.ToolType? || t.PolicyType?
      modifies this`metadata, this`hooks, this`llms, this`llmServices, this`toolServices, this`typeMap, this`waiting
      ensures ok <==> brokerUp && world.load(name).Some?
      ensures ok ==> Snapshot() == Publish(old(Snapshot()), name, t, world.load(name).value)
      ensures ok ==> waiting == old(waiting) - {name} && llms == if t.LlmType? then old(llms) + {name} else old(llms)
      ensures waiting <= old(waiting)
    {
      if !t.LlmType? && !brokerUp {
        return false;
      }
      var info := world.load(name);
      waiting := waiting - {name};
      if info.None? {
        return false;
      }
      typeMap, hooks, metadata := typeMap + {name}, hooks + {name}, metadata[name := info.value];
      if t.LlmType? {
        llms := llms + {name};
        if !brokerUp {
          return false;
        }
        llmServices := llmServices + {name};
      } else if t.ToolType? {
        toolServices := toolServices + {name};
      }
      return true;
    }

    /** Hands a waiting agent its services once its primary LLM is there. */
    method ReactivateAgent(name: string)
      modifies this`agentLLM, this`serving, this`waiting
      ensures waiting == if name in old(waiting) && Primary(agentLLM, resolved, name) && (old(serving) || brokerUp)
                            && agentLLM in llms && name in agents && world.register(name)
                         then old(waiting) - {name} else old(waiting)
      ensures serving == (old(serving) || (brokerUp && name in old(waiting) && Primary(agentLLM, resolved, name)))
      ensures if name in old(waiting) && name in resolved && (exists d :: d in resolved[name] && LlmCandidate(d))
              then agentLLM != "" && IsPrimary(agentLLM, resolved[name])
              else agentLLM == old(agentLLM)
    {
      if name !in waiting || name !in resolved {
        return;
      }
      var listed := ListDeps(resolved[name]);
      var primary := PickPrimaryLLM(listed);
      if primary == "" {
        return;
      }
      agentLLM := primary;
      if !serving {
        if !brokerUp {
          return;
        }
        serving := true;
      }
      if primary !in llms || name !in agents || !world.register(name) {
        return;
      }
      waiting := waiting - {name};
    }

    /** Re-resolves the dependencies of one entry and judges it by them. */
    method Refresh(name: string) returns (depsOk: bool)
      modifies this`resolved
      ensures resolved - {name} == old(resolved) - {name}
      ensures name in resolved ==> resolved[name] == DepsFor(Snapshot(), old(resolved), name)
      ensures name !in resolved ==> name !in old(resolved) && DepsFor(Snapshot(), old(resolved), name) == {}
      ensures depsOk <==> Ready(Snapshot(), old(resolved), name)
    {
      if name in metadata {
        var deps := ResolveRequired(metadata[name], name);
        NoDepsNoRequirements(Snapshot(), metadata[name], name);
        if deps != {} {
          resolved := resolved[name := deps];
        }
      }
      depsOk := name !in resolved || DepsOk(Snapshot(), resolved[name]);
    }

    /** Acts on an entry whose dependencies are met. */
    method Promote(name: string, t: PluginType) returns (v: Visit)
      modifies this`metadata, this`hooks, this`llms, this`llmServices, this`toolServices, this`typeMap
      modifies this`waiting, this`agentLLM, this`serving
      ensures t.AgentType? ==> !v.Failed? && SameBut(Snapshot(), old(Snapshot()))
      ensures t.AgentType? ==> agentLLM == old(agentLLM) || Primary(agentLLM, resolved, name)
      ensures t.AgentType? ==>
                waiting == if name in old(waiting) && Primary(agentLLM, resolved, name)
                              && Activates(world, brokerUp, old(Snapshot()), old(CrewNow()), agentLLM, name)
                           then old(waiting) - {name} else old(waiting)
      ensures t.AgentType? ==> (v.Promoted? <==> name !in waiting)
      ensures waiting <= old(waiting)
      ensures v.Stays? ==> SameCrew(brokerUp, old(CrewNow()), CrewNow())
      ensures v.Stays? ==> AtRest(world, brokerUp, Snapshot(), CrewNow(), resolved, name)
      ensures !t.AgentType? && !Loads(t) ==> v.Promoted? && Snapshot() == old(Snapshot())
      ensures Loads(t) ==> (v.Promoted? <==> brokerUp && world.load(name).Some?) && !v.Stays?
      ensures Loads(t) && v.Promoted? ==> Snapshot() == Publish(old(Snapshot()), name, t, world.load(name).value)
      ensures Loads(t) && v.Promoted? ==>
                waiting == old(waiting) - {name} && llms == if t.LlmType? then old(llms) + {name} else old(llms)
    {
      if t.AgentType? {
        ReactivateAgent(name);
        PrimaryHasCandidate(resolved, name);
        return if name in waiting then Stays else Promoted;
      }
      if Loads(t) {
        var ok := LoadProvider(name, t);
        return if ok then Promoted else Failed;
      }
      return Promoted;
    }

    /** One pending entry: gone if loaded meanwhile, promoted if its re-resolved dependencies are met. */
    method VisitPending(name: string) returns (v: Visit)
      requires name in pending
      modifies this`metadata, this`hooks, this`llms, this`llmServices, this`toolServices, this`typeMap
      modifies this`waiting, this`agentLLM, this`serving, this`pending, this`resolved
      ensures Visited(world, brokerUp, old(Snapshot()), old(resolved), old(pending), Snapshot(), resolved, pending,
            name, v)
      ensures v.Stays? ==> SameCrew(brokerUp, old(CrewNow()), CrewNow())
      ensures v.Stays? && pending[name].AgentType? ==> Held(world, brokerUp, Snapshot(), CrewNow(), resolved, name)
      ensures waiting <= old(waiting)
      ensures v.Promoted? && old(pending)[name].AgentType? ==> name !in waiting
    {
      hide DepsFor, Publish, SameBut, Primary, IsPrimary, AtRest;
      var t := pending[name];
      if !t.AgentType? && (name in agents || name in typeMap) {
        pending := pending - {name};
        return Promoted;
      }
      var depsOk := Refresh(name);
      if !depsOk {
        return Stays;
      }
      v := Promote(name, t);
      if v.Promoted? {
        pending := pending - {name};
      }
    }

    /** Visits all pending entries by name until a whole round promotes nothing. */
    method RepairPending(ghost u: Infos) returns (ok: bool)
      modifies this`metadata, this`hooks, this`llms, this`llmServices, this`toolServices, this`typeMap
      modifies this`waiting, this`agentLLM, this`serving, this`pending, this`resolved
      ensures pending.Keys <= old(pending).Keys
      ensures ok ==> Stuck(Snapshot(), resolved, pending)
      ensures ok ==> AllHeld(world, brokerUp, Snapshot(), CrewNow(), resolved, pending, {})
      ensures waiting <= old(waiting) && NoneLeftBehind(old(pending), pending, waiting)
      ensures ok && (forall n | n in pending :: !pending[n].AgentType?) ==>
                forall n | n in pending :: !Ready(Snapshot(), resolved, n)
      ensures ok ==> forall n | n in pending && !pending[n].AgentType? && !Contested(Snapshot(), n) ::
                !Ready(Snapshot(), resolved, n)
      ensures ok && Published(u, old(Snapshot())) && Publishes(u, world) ==>
                forall n | n in pending && !pending[n].AgentType? && Uncontested(u, n) ::
                  !Ready(Snapshot(), resolved, n)
      ensures ok && KnownAreUsable(old(Snapshot())) && "" !in old(pending) ==>
                && KnownAreUsable(Snapshot())
                && forall n | n in pending && !pending[n].AgentType? :: !Ready(Snapshot(), resolved, n)
      ensures ok && (forall n | n in old(pending) :: !old(pending)[n].AgentType?) ==>
                forall n | n in pending :: !Ready(Snapshot(), resolved, n)
      ensures Orderly(u, world, brokerUp, old(Snapshot()), old(pending)) ==>
                ok && LeastFixpoint(u, old(Snapshot()), old(resolved), old(pending), Gone(old(pending), pending))
      ensures Orderly(u, world, brokerUp, old(Snapshot()), old(pending)) ==>
                SameBut(Snapshot(), HostWith(u, old(Snapshot()), old(pending), Gone(old(pending), pending)))
    {
      hide *;
      ghost var h0, r0, p0 := Snapshot(), resolved, pending;
      ghost var waiting0 := waiting;
      KeptAtFirst(u, world, brokerUp, h0, r0, p0);
      LeavesNone(p0, p0, waiting, p0, waiting, "");
      while true
        invariant Kept(u, world, brokerUp, h0, r0, p0, Snapshot(), resolved, pending)
        invariant waiting <= waiting0 && NoneLeftBehind(p0, pending, waiting)
        decreases |pending|
      {
        ghost var h1, p1 := Snapshot(), pending;
        var progressed := false;
        var rest := pending.Keys;
        IdleAtFirst(h1, resolved, p1);
        NoneVisited(world, brokerUp, h1, CrewNow(), resolved, p1);
        while rest != {}
          invariant rest <= pending.Keys && |pending| <= |p1|
          invariant progressed ==> |pending| < |p1|
          invariant !progressed ==> Idle(h1, p1, Snapshot(), resolved, pending, rest)
          invariant !progressed ==> AllHeld(world, brokerUp, Snapshot(), CrewNow(), resolved, pending, rest)
          invariant Kept(u, world, brokerUp, h0, r0, p0, Snapshot(), resolved, pending)
          invariant waiting <= waiting0 && NoneLeftBehind(p0, pending, waiting)
          decreases |rest|
        {
          var name := FirstByName(rest);
          ghost var all := rest;
          rest := rest - {name};
          assert all == rest + {name};
          ghost var h, r, p, crew, waiting1 := Snapshot(), resolved, pending, CrewNow(), waiting;
          var v := VisitPending(name);
          PendingAfter(world, brokerUp, h, r, p, Snapshot(), resolved, pending, name, v);
          LeavesNone(p0, p, waiting1, pending, waiting, name);
          KeptStep(u, world, brokerUp, h0, r0, p0, h, r, p, Snapshot(), resolved, pending, name, v);
          if v.Failed? {
            return false;
          }
          if v.Promoted? {
            progressed := true;
          } else if !progressed {
            IdleStep(world, brokerUp, h1, p1, h, r, p, Snapshot(), resolved, pending, rest, name);
            HeldStep(world, brokerUp, h, r, p, crew, Snapshot(), resolved, pending, CrewNow(), rest, name);
          }
        }
        if !progressed {
          assert rest == {};
          KeptEnd(u, world, brokerUp, h0, r0, p0, h1, p1, Snapshot(), resolved, pending);
          return true;
        }
      }
    }
  }

  // ---------- Agents that wait ----------

  /** The agents that were visited and stay are held. */
  ghost predicate AllHeld(
    w: World, brokerUp: bool, h: Host, crew: Crew, resolved: Deps, pending: Pending, rest: set<string>)
  {
    forall n | n in pending && n !in rest && pending[n].AgentType? :: Held(w, brokerUp, h, crew, resolved, n)
  }

  /** No agent leaves the pending entries while it waits. */
  predicate NoneLeftBehind(p0: Pending, pending: Pending, waiting: set<string>) {
    && (forall n | n in pending :: n in p0 && pending[n] == p0[n])
    && forall n | n in p0 && p0[n].AgentType? :: n in pending || n !in waiting
  }

  lemma {:induction false} LeavesNone(
    p0: Pending, p: Pending, waiting: set<string>, p': Pending, waiting': set<string>, name: string)
    requires p == p0 || NoneLeftBehind(p0, p, waiting)
    requires waiting' <= waiting && (p' == p || p' == p - {name})
    requires p' != p && name in p && p[name].AgentType? ==> name !in waiting'
    ensures NoneLeftBehind(p0, p', waiting')
  {
  }

  lemma {:induction false} NoneVisited(w: World, brokerUp: bool, h: Host, crew: Crew, resolved: Deps, pending: Pending)
    ensures AllHeld(w, brokerUp, h, crew, resolved, pending, pending.Keys)
  {
  }

  lemma {:induction false} HeldStep(
    w: World, brokerUp: bool, h: Host, r: Deps, p: Pending, crew: Crew,
    h': Host, r': Deps, p': Pending, crew': Crew, rest: set<string>, name: string)
    requires Visited(w, brokerUp, h, r, p, h', r', p', name, Stays) && SameCrew(brokerUp, crew, crew')
    requires AllHeld(w, brokerUp, h, crew, r, p, rest + {name})
    requires p'[name].AgentType? ==> Held(w, brokerUp, h', crew', r', name)
    ensures AllHeld(w, brokerUp, h', crew', r', p', rest)
  {
    VisitedHost(w, brokerUp, h, r, p, h', r', p', name, Stays);
    forall n | n in p' && n !in rest && p'[n].AgentType?
      ensures Held(w, brokerUp, h', crew', r', n)
    {
      StoredDeps(w, brokerUp, h, r, p, h', r', p', name, Stays, n);
      hide Visited, DepsFor;
      if n != name {
        StillHeld(w, brokerUp, h, crew, r, h', crew', r', n);
      }
    }
  }

  lemma {:induction false} StillHeld(
    w: World, brokerUp: bool, h: Host, crew: Crew, r: Deps, h': Host, crew': Crew, r': Deps, n: string)
    requires Held(w, brokerUp, h, crew, r, n) && SameBut(h', h) && SameCrew(brokerUp, crew, crew')
    requires (n in r' <==> n in r) && (n in r ==> r'[n] == r[n])
    ensures Held(w, brokerUp, h', crew', r', n)
  {
    hide IsPrimary;
    if n in r {
      assert DepsOk(h', r'[n]) <==> DepsOk(h, r[n]) by {
        assert forall d :: DepOk(h', d) <==> DepOk(h, d);
      }
    }
    forall llm: string
      ensures Primary(llm, r', n) <==> Primary(llm, r, n)
      ensures Activates(w, brokerUp, h', crew', llm, n) <==> Activates(w, brokerUp, h, crew, llm, n)
    {
    }
  }

  /** With one dependency for each llm capability, as resolving gives, the primary is one. */
  lemma {:induction false} PrimaryIsOne(a: string, b: string, deps: set<Dep>)
    requires IsPrimary(a, deps) && IsPrimary(b, deps)
    requires forall d, d' | d in deps && d' in deps && d.ptype.LlmType? && d'.ptype.LlmType? ::
               d.capability == d'.capability ==> d == d'
    ensures a == b
  {
    if exists d :: d in deps && LlmCandidate(d) {
      var d :| d in deps && LlmCandidate(d) && d.provider == a
               && forall other | other in deps && LlmCandidate(other) :: Below(d.capability, other.capability);
      var d' :| d' in deps && LlmCandidate(d') && d'.provider == b
               && forall other | other in deps && LlmCandidate(other) :: Below(d'.capability, other.capability);
      BelowAntisymmetric(d.capability, d'.capability);
    }
  }

  // ---------- A repair under way ----------

  /** What holds of a repair from visit to visit, of the state it started in and the one it is in. */
  ghost predicate Kept(
    u: Infos, w: World, brokerUp: bool, h0: Host, r0: Deps, p0: Pending, h: Host, r: Deps, p: Pending)
  {
    && p.Keys <= p0.Keys && (forall n | n in p :: p[n] == p0[n])
    && (Published(u, h0) && Publishes(u, w) ==> Published(u, h))
    && (KnownAreUsable(h0) && "" !in p0 ==> KnownAreUsable(h))
    && (Orderly(u, w, brokerUp, h0, p0) ==> Reached(u, h0, r0, p0, h, r, p))
  }

  lemma {:induction false} KeptAtFirst(u: Infos, w: World, brokerUp: bool, h0: Host, r0: Deps, p0: Pending)
    ensures Kept(u, w, brokerUp, h0, r0, p0, h0, r0, p0)
  {
    hide Published, Publishes, KnownAreUsable, Orderly, Reached;
    GoneNothing(u, h0, r0, p0);
  }

  lemma {:induction false} KeptStep(
    u: Infos, w: World, brokerUp: bool, h0: Host, r0: Deps, p0: Pending,
    h: Host, r: Deps, p: Pending, h': Host, r': Deps, p': Pending, name: string, v: Visit)
    requires Kept(u, w, brokerUp, h0, r0, p0, h, r, p)
    requires Visited(w, brokerUp, h, r, p, h', r', p', name, v)
    ensures p'.Keys <= p0.Keys
    ensures v.Failed? ==> !Orderly(u, w, brokerUp, h0, p0)
    ensures !v.Failed? ==> Kept(u, w, brokerUp, h0, r0, p0, h', r', p')
  {
    hide Published, Publishes, KnownAreUsable, Orderly, Reached, Visited;
    PendingAfter(w, brokerUp, h, r, p, h', r', p', name, v);
    if Orderly(u, w, brokerUp, h0, p0) {
      ReachedStep(u, w, brokerUp, h0, r0, p0, h, r, p, h', r', p', name, v);
    }
    if !v.Failed? && Published(u, h0) && Publishes(u, w) {
      PublishedStays(u, w, brokerUp, h, r, p, h', r', p', name, v);
    }
    if !v.Failed? && KnownAreUsable(h0) && "" !in p0 {
      UsableStays(w, brokerUp, h, r, p, h', r', p', name, v);
    }
  }

  lemma {:induction false} KeptEnd(
    u: Infos, w: World, brokerUp: bool, h0: Host, r0: Deps, p0: Pending,
    h1: Host, p1: Pending, h: Host, r: Deps, p: Pending)
    requires Kept(u, w, brokerUp, h0, r0, p0, h, r, p) && Idle(h1, p1, h, r, p, {})
    ensures p.Keys <= p0.Keys && Stuck(h, r, p)
    ensures forall n | n in p && !p[n].AgentType? && !Contested(h, n) :: !Ready(h, r, n)
    ensures (forall n | n in p :: !p[n].AgentType?) ==> forall n | n in p :: !Ready(h, r, n)
    ensures (forall n | n in p0 :: !p0[n].AgentType?) ==> forall n | n in p :: !Ready(h, r, n)
    ensures Published(u, h0) && Publishes(u, w) ==>
              forall n | n in p && !p[n].AgentType? && Uncontested(u, n) :: !Ready(h, r, n)
    ensures KnownAreUsable(h0) && "" !in p0 ==>
              KnownAreUsable(h) && forall n | n in p && !p[n].AgentType? :: !Ready(h, r, n)
    ensures Orderly(u, w, brokerUp, h0, p0) ==>
              LeastFixpoint(u, h0, r0, p0, Gone(p0, p)) && SameBut(h, HostWith(u, h0, p0, Gone(p0, p)))
  {
    hide Published, Publishes, KnownAreUsable, Orderly, Reached, Idle, Stuck, Contested, Ready, Uncontested;
    hide LeastFixpoint, Gone, HostWith, SameBut;
    IdleIsStuck(h1, p1, h, r, p);
    if Published(u, h0) && Publishes(u, w) {
      UncontestedAreNot(u, h, r, p);
    }
    if KnownAreUsable(h0) && "" !in p0 {
      UsableAreUncontested(h);
    }
    if Orderly(u, w, brokerUp, h0, p0) {
      StuckIsLeast(u, w, brokerUp, h0, r0, p0, h, r, p);
    }
  }

  // ---------- Where a repair stops ----------

  /** The entries that left. */
  function Gone(before: Pending, after: Pending): set<string> {
    set n | n in before && n !in after && !before[n].AgentType?
  }

  /** Not loaded, and held back by dependencies that were resolved in this very host, up to its preferred LLM. */
  ghost predicate HeldBack(h: Host, resolved: Deps, name: string) {
    && !Loaded(h, name) && name in resolved && !DepsOk(h, resolved[name])
    && exists llm :: resolved[name] == DepsFor(Preferring(h, llm), resolved, name)
  }

  ghost predicate Stuck(h: Host, resolved: Deps, pending: Pending) {
    forall n | n in pending && !pending[n].AgentType? :: HeldBack(h, resolved, n)
  }

  /** A round without progress so far: nothing but the preferred LLM moved, and every visited provider is stuck. */
  ghost predicate Idle(h1: Host, p1: Pending, h: Host, resolved: Deps,
                       pending: Pending, rest: set<string>)
  {
    && pending == p1 && SameBut(h, h1)
    && (forall n | n in pending && n !in rest && !pending[n].AgentType? :: HeldBack(h, resolved, n))
    && ((forall n | n in pending :: !pending[n].AgentType?) ==>
          h == h1 && forall n | n in pending && n !in rest :: !Ready(h, resolved, n))
  }

  lemma {:induction false} NoDepsNoRequirements(h: Host, info: Info, self: string)
    ensures ResolvedAll(h, info, self) == {} <==> Requires(info) == {}
  {
    if Requires(info) != {} {
      var r :| r in Requires(info);
      assert Resolve(h, r, self) in ResolvedAll(h, info, self);
    }
  }

  predicate Loads(t: PluginType) {
    t.LlmType? || t.ToolType? || t.PolicyType?
  }

  predicate Loaded(h: Host, name: string) {
    name in h.agents || name in h.typeMap
  }

  /** The host once a provider is loaded. */
  function Publish(h: Host, name: string, t: PluginType, info: Info): Host {
    h.(metadata := h.metadata[name := info], hooks := h.hooks + {name}, typeMap := h.typeMap + {name},
       llmServices := if t.LlmType? then h.llmServices + {name} else h.llmServices,
       toolServices := if t.ToolType? then h.toolServices + {name} else h.toolServices)
  }

  ghost function ResolvedAll(h: Host, info: Info, self: string): set<Dep> {
    set r | r in Requires(info) :: Resolve(h, r, self)
  }

  /** The dependencies an entry is judged by: freshly resolved ones if its metadata names any, else the stored ones. */
  ghost function DepsFor(h: Host, resolved: Deps, name: string): set<Dep> {
    if name in h.metadata && Requires(h.metadata[name]) != {} then ResolvedAll(h, h.metadata[name], name)
    else Stored(resolved, name)
  }

  function Stored(resolved: Deps, name: string): set<Dep> {
    if name in resolved then resolved[name] else {}
  }

  ghost predicate Ready(h: Host, resolved: Deps, name: string) {
    DepsOk(h, DepsFor(h, resolved, name))
  }

  /** The name is one that can serve: an llm or a tool with its services, an agent, or any plugin under its type. */
  predicate Serves(h: Host, name: string) {
    name != "" && name in h.llmServices + h.toolServices + h.agents + h.typeMap
  }

  /** An entry with requirement keys is ready if and only if each leads to a provider that serves, and any other if
      and only if the providers stored for it serve. */
  lemma {:induction false} ReadyExactly(h: Host, resolved: Deps, name: string)
    ensures Ready(h, resolved, name)
       <==> if name in h.metadata && Requires(h.metadata[name]) != {} then
              forall t, c | Parts(t, c) && KeyFor(t, c) in h.metadata[name].capabilities ::
                var found := Find(h, TypeOf(t), c, name); found.Provider? && Serves(h, found.name)
            else name in resolved ==> forall d | d in resolved[name] :: Serves(h, d.provider)
  {
    hide Find, Requires;
    if name in h.metadata && Requires(h.metadata[name]) != {} {
      var info := h.metadata[name];
      forall t, c | Parts(t, c) && KeyFor(t, c) in info.capabilities
        ensures Requirement(TypeOf(t), c) in Requires(info)
        ensures Resolve(h, Requirement(TypeOf(t), c), name) in ResolvedAll(h, info, name)
      {
        RequiresExactly(info, Requirement(TypeOf(t), c));
      }
      forall q | q in Requires(info)
        ensures exists t :: && Parts(t, q.capability) && TypeOf(t) == q.ptype
                            && KeyFor(t, q.capability) in info.capabilities
      {
        RequiresExactly(info, q);
      }
    }
  }

  /** With this primary the agent gets its services and becomes active. */
  predicate Activates(w: World, brokerUp: bool, h: Host, crew: Crew, llm: string, name: string) {
    (crew.serving || brokerUp) && llm in crew.llms && name in h.agents && w.register(name)
  }

  predicate SameCrew(brokerUp: bool, a: Crew, b: Crew) {
    a.waiting == b.waiting && a.llms == b.llms && (a.serving || brokerUp <==> b.serving || brokerUp)
  }

  /** The agent waits for want of a primary, or of something that activating it with the primary takes. */
  ghost predicate AtRest(w: World, brokerUp: bool, h: Host, crew: Crew, resolved: Deps, name: string) {
    && name in crew.waiting
    && ((exists llm :: Primary(llm, resolved, name)) ==>
          exists llm :: Primary(llm, resolved, name) && !Activates(w, brokerUp, h, crew, llm, name))
  }

  /** The agent is held back by its dependencies, or it is at rest. */
  ghost predicate Held(w: World, brokerUp: bool, h: Host, crew: Crew, resolved: Deps, name: string) {
    (name in resolved && !DepsOk(h, resolved[name])) || AtRest(w, brokerUp, h, crew, resolved, name)
  }

  /** The name is the primary LLM by the entry's stored dependencies. */
  ghost predicate Primary(llm: string, resolved: Deps, name: string) {
    llm != "" && name in resolved && IsPrimary(llm, resolved[name])
  }

  lemma {:induction false} PrimaryHasCandidate(resolved: Deps, name: string)
    ensures (exists llm :: Primary(llm, resolved, name)) ==>
              name in resolved && exists d :: d in resolved[name] && LlmCandidate(d)
  {
  }

  predicate SameBut(h: Host, h': Host) {
    h.(agentLLM := "") == h'.(agentLLM := "")
  }

  /** One visit, as a relation between the states before and after. */
  ghost predicate Visited(w: World, brokerUp: bool,
                          h: Host, resolved: Deps, pending: Pending,
                          h': Host, resolved': Deps, pending': Pending, name: string, v: Visit)
  {
    && name in pending
    && pending' == (if v.Promoted? then pending - {name} else pending)
    && if !pending[name].AgentType? && Loaded(h, name) then v.Promoted? && h' == h && resolved' == resolved
       else
         && resolved' - {name} == resolved - {name}
         && (name in resolved' ==> resolved'[name] == DepsFor(h, resolved, name))
         && (name !in resolved' ==> name !in resolved && DepsFor(h, resolved, name) == {})
         && if !Ready(h, resolved, name) then v.Stays? && h' == h
            else if pending[name].AgentType? then
              && !v.Failed? && SameBut(h', h)
              && (h'.agentLLM == h.agentLLM || Primary(h'.agentLLM, resolved', name))
            else if Loads(pending[name]) then
              && !v.Stays? && (v.Promoted? <==> brokerUp && w.load(name).Some?)
              && (v.Promoted? ==> h' == Publish(h, name, pending[name], w.load(name).value))
            else v.Promoted? && h' == h
  }

  /** What a visit does: a provider that is loaded already is cleared, an entry that is not ready stays; a ready llm,
      tool or policy plugin is loaded if the broker is up and its load succeeds, and the visit fails otherwise; a ready
      plugin of a type without services just goes. */
  lemma {:induction false} VisitExactly(
    w: World, brokerUp: bool, h: Host, resolved: Deps, pending: Pending,
    h': Host, resolved': Deps, pending': Pending, name: string, v: Visit)
    requires Visited(w, brokerUp, h, resolved, pending, h', resolved', pending', name, v) && !pending[name].AgentType?
    ensures var t := pending[name];
            if name in h.agents || name in h.typeMap then v.Promoted? && h' == h && resolved' == resolved
            else if !Ready(h, resolved, name) then v.Stays? && h' == h
            else if t != LlmType && t != ToolType && t != PolicyType then v.Promoted? && h' == h
            else if !brokerUp || w.load(name).None? then v.Failed?
            else
              && v.Promoted? && name in h'.typeMap && name in h'.hooks && name in h'.metadata
              && h'.metadata == h.metadata[name := w.load(name).value]
              && h'.llmServices == h.llmServices + (if t == LlmType then {name} else {})
              && h'.toolServices == h.toolServices + (if t == ToolType then {name} else {})
              && h'.typeMap - {name} == h.typeMap - {name} && h'.hooks - {name} == h.hooks - {name}
              && h'.agents == h.agents && h'.agentLLM == h.agentLLM && h'.compaction == h.compaction
    ensures pending' == if v.Promoted? then pending - {name} else pending
  {
    hide Ready, DepsFor;
  }

  /** The deps in no particular order. */
  method ListDeps(deps: set<Dep>) returns (listed: seq<Dep>)
    ensures deps == set d | d in listed
  {
    listed := [];
    var rest := deps;
    while rest != {}
      invariant rest <= deps && forall d :: d in listed <==> d in deps - rest
      decreases |rest|
    {
      var d :| d in rest;
      listed := listed + [d];
      rest := rest - {d};
    }
  }

  /** The head of the sorted names. */
  method FirstByName(names: set<string>) returns (first: string)
    requires names != {}
    ensures first == Least(names) && first in names
  {
    first :| first in names;
    var rest := names - {first};
    BelowReflexive(first);
    while rest != {}
      invariant rest <= names && first in names && first !in rest
      invariant forall n | n in names && n !in rest :: Below(first, n)
      decreases |rest|
    {
      var n :| n in rest;
      rest := rest - {n};
      BelowTotal(first, n);
      BelowReflexive(n);
      if !Below(first, n) {
        forall other | other in names && other !in rest && other != n
          ensures Below(n, other)
        {
          BelowTransitive(n, first, other);
        }
        first := n;
      }
    }
    BelowAntisymmetric(first, Least(names));
  }

  // ---------- The least fixpoint ----------

  /** `p` could provide what `self` requires. The role of compaction may be held by the asker itself. */
  predicate Eligible(u: Infos, q: Requirement, self: string, p: string) {
    p in u && u[p].ptype == q.ptype && Declares(u[p], q.capability) && (p != self || q.capability == COMPACTION)
  }

  /** At most one plugin could provide it, or the configured backend does. */
  ghost predicate SoleDeclarer(u: Infos, compaction: string, q: Requirement, self: string) {
    || (q.capability == COMPACTION && compaction != "")
    || forall p1, p2 | Eligible(u, q, self, p1) && Eligible(u, q, self, p2) :: p1 == p2
  }

  /** Each thing that a waiting provider entry requires has a sole declarer. */
  ghost predicate UniqueDeclarers(u: Infos, compaction: string, pending: Pending) {
    forall n, q | n in pending && !pending[n].AgentType? && n in u && q in Requires(u[n]) ::
      SoleDeclarer(u, compaction, q, n)
  }

  /** What the host knows of plugins is what `u` says of them. */
  ghost predicate Published(u: Infos, h: Host) {
    forall n | n in h.metadata :: n in u && h.metadata[n] == u[n]
  }

  /** `u` is what every plugin publishes, and loads succeed. */
  ghost predicate Orderly(u: Infos, w: World, brokerUp: bool, h: Host, pending: Pending) {
    && brokerUp && UniqueDeclarers(u, h.compaction, pending) && "" !in u && Published(u, h)
    && (forall n | n in pending && Loads(pending[n]) :: n in u && w.load(n) == Some(u[n]))
  }

  /** The entries of `s` that a load puts in place. */
  function LoadSet(h: Host, pending: Pending, s: set<string>): set<string> {
    set n | n in s && n in pending && Loads(pending[n]) && !Loaded(h, n)
  }

  /** The host once exactly the entries of `s` have gone. */
  function HostWith(u: Infos, h: Host, pending: Pending, s: set<string>): Host {
    var ls := LoadSet(h, pending, s);
    h.(metadata := h.metadata + (map n | n in ls && n in u :: u[n]),
       hooks := h.hooks + ls, typeMap := h.typeMap + ls,
       llmServices := h.llmServices + (set n | n in ls && pending[n].LlmType?),
       toolServices := h.toolServices + (set n | n in ls && pending[n].ToolType?))
  }

  /** Every provider entry that is loaded, or ready once the entries of `s` have gone, is in `s`. */
  ghost predicate Closed(u: Infos, h: Host, resolved: Deps, pending: Pending, s: set<string>) {
    && (forall n | n in s :: n in pending && !pending[n].AgentType?)
    && forall n | n in pending && !pending[n].AgentType? ::
         Loaded(h, n) || Ready(HostWith(u, h, pending, s), resolved, n) ==> n in s
  }

  ghost predicate LeastFixpoint(u: Infos, h: Host, resolved: Deps, pending: Pending, s: set<string>) {
    Closed(u, h, resolved, pending, s) && forall other | Closed(u, h, resolved, pending, other) :: s <= other
  }

  /** The state of an orderly repair under way. */
  ghost predicate Reached(u: Infos, h0: Host, r0: Deps, p0: Pending,
                          h: Host, r: Deps, p: Pending)
  {
    && p.Keys <= p0.Keys && (forall n | n in p :: p[n] == p0[n])
    && SameBut(h, HostWith(u, h0, p0, Gone(p0, p)))
    && (forall n | n in p && !(n in h0.metadata && Requires(h0.metadata[n]) != {}) :: Stored(r, n) == Stored(r0, n))
    && forall other | Closed(u, h0, r0, p0, other) :: Gone(p0, p) <= other
  }

  // h2 knows all that h1 knows, and both know only what is published.
  ghost predicate Grows(u: Infos, h1: Host, h2: Host) {
    && (forall n | n in h1.metadata :: n in h2.metadata && h2.metadata[n] == h1.metadata[n])
    && Published(u, h2)
    && h1.hooks <= h2.hooks && h1.compaction == h2.compaction
    && (forall n | Available(h1, n) :: Available(h2, n))
  }

  /** With unique declarers a met requirement stays met when the host grows, whatever LLM is preferred. */
  lemma {:induction false} MetStaysMet(u: Infos, h1: Host, h2: Host, r: Requirement, self: string)
    requires SoleDeclarer(u, h1.compaction, r, self) && "" !in u && Grows(u, h1, h2)
    requires DepOk(h1, Resolve(h1, r, self))
    ensures DepOk(h2, Resolve(h2, r, self))
  {
    var p := Resolve(h1, r, self).provider;
    if r.capability == COMPACTION {
      var c1, c2 := Candidates(h1, Some(r.ptype)), Candidates(h2, Some(r.ptype));
      if h1.compaction == "" {
        Single(c1);
        assert p in c1 && c1 <= c2;
        assert forall n | n in c2 :: Eligible(u, r, self, n);
        assert forall n | n in c2 :: n == p;
        assert c2 == {p};
      }
    } else {
      var d1, d2 := Declarers(h1, r.ptype, r.capability, self), Declarers(h2, r.ptype, r.capability, self);
      assert p in d1 && d1 <= d2;
      assert forall n | n in d2 :: Eligible(u, r, self, n);
      assert forall n | n in d2 :: n == p;
      assert d2 == {p};
    }
  }

  lemma {:induction false} ReadyStaysReady(u: Infos, h1: Host, h2: Host, resolved: Deps, name: string)
    requires name in u ==> forall q | q in Requires(u[name]) :: SoleDeclarer(u, h1.compaction, q, name)
    requires "" !in u && Grows(u, h1, h2)
    requires name in h2.metadata ==> name in h1.metadata
    requires Ready(h1, resolved, name)
    ensures Ready(h2, resolved, name)
  {
    if name in h1.metadata && Requires(h1.metadata[name]) != {} {
      var info := h1.metadata[name];
      forall d | d in ResolvedAll(h2, info, name)
        ensures DepOk(h2, d)
      {
        var r :| r in Requires(info) && d == Resolve(h2, r, name);
        assert Resolve(h1, r, name) in ResolvedAll(h1, info, name);
        MetStaysMet(u, h1, h2, r, name);
      }
    }
  }

  lemma {:induction false} GoneNothing(u: Infos, h: Host, resolved: Deps, pending: Pending)
    ensures Reached(u, h, resolved, pending, h, resolved, pending)
  {
    assert Gone(pending, pending) == {};
    assert LoadSet(h, pending, {}) == {};
    hide LoadSet, Gone, Closed, Requires;
    assert SameBut(h, HostWith(u, h, pending, {}));
  }

  lemma {:induction false} IdleAtFirst(h: Host, r: Deps, p: Pending)
    ensures Idle(h, p, h, r, p, p.Keys)
  {
  }

  lemma {:induction false} PendingAfter(
    w: World, brokerUp: bool, h: Host, r: Deps, p: Pending,
    h': Host, r': Deps, p': Pending, name: string, v: Visit)
    requires Visited(w, brokerUp, h, r, p, h', r', p', name, v)
    ensures name in p && p' == if v.Promoted? then p - {name} else p
    ensures v.Promoted? ==> |p'| == |p| - 1
  {
    if v.Promoted? {
      assert p == p'[name := p[name]];
    }
  }

  /** A round that promoted nothing leaves every provider entry held back. */
  lemma {:induction false} IdleIsStuck(h1: Host, p1: Pending, h: Host, r: Deps, p: Pending)
    requires Idle(h1, p1, h, r, p, {})
    ensures Stuck(h, r, p)
    ensures forall n | n in p && !p[n].AgentType? && !Contested(h, n) :: !Ready(h, r, n)
    ensures (forall n | n in p :: !p[n].AgentType?) ==> forall n | n in p :: !Ready(h, r, n)
  {
    hide Ready, HeldBack, Contested;
    forall n | n in p && !p[n].AgentType? && !Contested(h, n)
      ensures !Ready(h, r, n)
    {
      if Ready(h, r, n) {
        ReopenedIsContested(h, r, n);
      }
    }
  }

  /** The preferred LLM decides whether the requirement is met: several others declare the llm capability, and one
      of them cannot be used. */
  ghost predicate Wavers(h: Host, q: Requirement, self: string) {
    && q.ptype.LlmType? && q.capability != COMPACTION && |Declarers(h, LlmType, q.capability, self)| > 1
    && exists p :: p in Declarers(h, LlmType, q.capability, self) && !Usable(h, p)
  }

  ghost predicate Contested(h: Host, name: string) {
    name in h.metadata && exists q :: q in Requires(h.metadata[name]) && Wavers(h, q, name)
  }

  /** An entry that was held back and yet is ready now requires a contested llm capability. */
  lemma {:induction false} ReopenedIsContested(h: Host, r: Deps, n: string)
    requires HeldBack(h, r, n) && Ready(h, r, n)
    ensures Contested(h, n)
  {
    var llm :| r[n] == DepsFor(Preferring(h, llm), r, n);
    hide Requires, Resolve, Wavers;
    var d :| d in r[n] && !DepOk(h, d);
    var info := h.metadata[n];
    var q :| q in Requires(info) && d == Resolve(Preferring(h, llm), q, n);
    assert Resolve(h, q, n) in ResolvedAll(h, info, n);
    assert Preferring(h, h.agentLLM) == h;
    MovedByPreference(h, h.agentLLM, llm, q, n);
  }

  lemma {:induction false} MovedByPreference(h: Host, good: string, bad: string, q: Requirement, self: string)
    requires DepOk(h, Resolve(Preferring(h, good), q, self)) && !DepOk(h, Resolve(Preferring(h, bad), q, self))
    ensures Wavers(h, q, self)
  {
    var names := Declarers(h, q.ptype, q.capability, self);
    assert Declarers(Preferring(h, bad), q.ptype, q.capability, self) == names;
    assert Declarers(Preferring(h, good), q.ptype, q.capability, self) == names;
    assert Candidates(Preferring(h, bad), Some(q.ptype)) == Candidates(h, Some(q.ptype));
    assert Candidates(Preferring(h, good), Some(q.ptype)) == Candidates(h, Some(q.ptype));
  }

  /** All requirements of the plugin are met under the preference. */
  ghost predicate AllMet(h: Host, llm: string, name: string)
    requires name in h.metadata
  {
    forall q | q in Requires(h.metadata[name]) :: DepOk(h, Resolve(Preferring(h, llm), q, name))
  }

  /** Of a plugin that some preference makes ready, another preference holds it back if and only if it requires a
      contested llm capability. */
  lemma {:induction false} PreferenceHoldsBack(h: Host, name: string, good: string)
    requires name in h.metadata && AllMet(h, good, name)
    ensures (exists bad :: !AllMet(h, bad, name)) <==> Contested(h, name)
  {
    hide Requires, Resolve, Wavers;
    if bad :| !AllMet(h, bad, name) {
      var q :| q in Requires(h.metadata[name]) && !DepOk(h, Resolve(Preferring(h, bad), q, name));
      MovedByPreference(h, good, bad, q, name);
    }
    if Contested(h, name) {
      var q :| q in Requires(h.metadata[name]) && Wavers(h, q, name);
      var bad := Spoiler(h, q, name);
      assert !AllMet(h, bad, name);
    }
  }

  lemma {:induction false} Spoiler(h: Host, q: Requirement, self: string) returns (bad: string)
    requires Wavers(h, q, self)
    ensures !DepOk(h, Resolve(Preferring(h, bad), q, self))
  {
    var names := Declarers(h, LlmType, q.capability, self);
    bad :| bad in names && !Usable(h, bad);
    if q.capability != "" {
      Preferred(h, q.capability, self, bad);
    }
  }

  /** Seen from what all plugins publish, no llm capability the plugin requires has two declarers. */
  ghost predicate Uncontested(u: Infos, name: string) {
    name in u ==>
      forall q | q in Requires(u[name]) && q.ptype.LlmType? && q.capability != COMPACTION ::
        SoleDeclarer(u, "", q, name)
  }

  lemma {:induction false} UncontestedStays(u: Infos, h: Host, name: string)
    requires Uncontested(u, name) && Published(u, h)
    ensures !Contested(h, name)
  {
    if name in h.metadata {
      forall q | q in Requires(h.metadata[name])
        ensures !Wavers(h, q, name)
      {
        hide Requires;
        if q.ptype.LlmType? && q.capability != COMPACTION {
          var names := Declarers(h, LlmType, q.capability, name);
          forall p, p' | p in names && p' in names
            ensures p == p'
          {
            assert Eligible(u, q, name, p) && Eligible(u, q, name, p');
          }
          AtMostOne(names);
        }
      }
    }
  }

  lemma {:induction false} AtMostOne(names: set<string>)
    requires forall p, p' | p in names && p' in names :: p == p'
    ensures |names| <= 1
  {
    if p :| p in names {
      assert names == {p};
    }
  }

  lemma {:induction false} UncontestedAreNot(u: Infos, h: Host, r: Deps, p: Pending)
    requires Published(u, h)
    requires forall n | n in p && !p[n].AgentType? && !Contested(h, n) :: !Ready(h, r, n)
    ensures forall n | n in p && !p[n].AgentType? && Uncontested(u, n) :: !Ready(h, r, n)
  {
    hide *;
    forall n | n in p && !p[n].AgentType? && Uncontested(u, n)
      ensures !Ready(h, r, n)
    {
      UncontestedStays(u, h, n);
    }
  }

  /** All a load can publish is in `u`. */
  ghost predicate Publishes(u: Infos, w: World) {
    forall n | w.load(n).Some? :: n in u && u[n] == w.load(n).value
  }

  lemma {:induction false} PublishedStays(
    u: Infos, w: World, brokerUp: bool, h: Host, r: Deps, p: Pending,
    h': Host, r': Deps, p': Pending, name: string, v: Visit)
    requires Visited(w, brokerUp, h, r, p, h', r', p', name, v) && !v.Failed?
    requires Published(u, h) && Publishes(u, w)
    ensures Published(u, h')
  {
    VisitedHost(w, brokerUp, h, r, p, h', r', p', name, v);
    hide Visited;
  }

  /** Every LLM the host knows of is loaded or served: the loaders write its metadata and its type together. */
  ghost predicate KnownAreUsable(h: Host) {
    forall n | n in h.metadata && h.metadata[n].ptype.LlmType? :: Usable(h, n)
  }

  lemma {:induction false} UsableStays(
    w: World, brokerUp: bool, h: Host, r: Deps, p: Pending,
    h': Host, r': Deps, p': Pending, name: string, v: Visit)
    requires Visited(w, brokerUp, h, r, p, h', r', p', name, v) && !v.Failed?
    requires KnownAreUsable(h) && name != ""
    ensures KnownAreUsable(h')
  {
    VisitedHost(w, brokerUp, h, r, p, h', r', p', name, v);
    hide Visited;
  }

  /** Among usable LLMs no preference holds anything back. */
  lemma {:induction false} UsableAreUncontested(h: Host)
    requires KnownAreUsable(h)
    ensures forall n :: !Contested(h, n)
  {
    forall n, q | n in h.metadata && q in Requires(h.metadata[n])
      ensures !Wavers(h, q, n)
    {
      hide Requires;
    }
  }

  lemma {:induction false} IdleStep(
    w: World, brokerUp: bool, h1: Host, p1: Pending,
    h: Host, r: Deps, p: Pending,
    h': Host, r': Deps, p': Pending, rest: set<string>, name: string)
    requires name !in rest && Idle(h1, p1, h, r, p, rest + {name})
    requires Visited(w, brokerUp, h, r, p, h', r', p', name, Stays)
    ensures Idle(h1, p1, h', r', p', rest)
  {
    hide DepsFor, Requires, ResolvedAll;
    forall n | n in p && n !in rest && !p[n].AgentType?
      ensures HeldBack(h', r', n) && (h' == h && !Ready(h, r, n) ==> !Ready(h', r', n))
    {
      StoredDeps(w, brokerUp, h, r, p, h', r', p', name, Stays, n);
      if n == name {
        HeldBackNow(w, brokerUp, h, r, p, h', r', p', name);
      } else {
        HeldBackStill(h, r, h', r', n);
      }
    }
  }

  // What a visit leaves of the stored dependencies: those of other entries, and the answer for the visited one.
  lemma {:induction false} StoredDeps(
    w: World, brokerUp: bool, h: Host, r: Deps, p: Pending,
    h': Host, r': Deps, p': Pending, name: string, v: Visit, n: string)
    requires Visited(w, brokerUp, h, r, p, h', r', p', name, v)
    ensures n != name ==> (n in r' <==> n in r) && (n in r ==> r'[n] == r[n])
    ensures DepsFor(h, r', n) == DepsFor(h, r, n)
  {
    assert n != name ==> (n in r' - {name} <==> n in r - {name});
    assert n != name && n in r ==> (r - {name})[n] == r[n] && (r' - {name})[n] == r'[n];
  }

  lemma {:induction false} HeldBackNow(
    w: World, brokerUp: bool, h: Host, r: Deps, p: Pending,
    h': Host, r': Deps, p': Pending, name: string)
    requires Visited(w, brokerUp, h, r, p, h', r', p', name, Stays) && !p[name].AgentType?
    ensures h' == h && HeldBack(h', r', name) && !Ready(h', r', name)
  {
    StoredDeps(w, brokerUp, h, r, p, h', r', p', name, Stays, name);
    assert Preferring(h, h.agentLLM) == h;
    hide Requires, ResolvedAll;
    assert r'[name] == DepsFor(Preferring(h, h.agentLLM), r', name);
  }

  lemma {:induction false} HeldBackStill(h: Host, r: Deps, h': Host, r': Deps, n: string)
    requires HeldBack(h, r, n) && SameBut(h', h) && n in r' && r'[n] == r[n]
    ensures HeldBack(h', r', n)
  {
    hide Requires, ResolvedAll;
    var llm :| r[n] == DepsFor(Preferring(h, llm), r, n);
    assert Preferring(h', llm) == Preferring(h, llm);
    assert r'[n] == DepsFor(Preferring(h', llm), r', n);
  }

  // The host with more entries gone knows more.
  lemma {:induction false} HostGrows(u: Infos, w: World, brokerUp: bool, h: Host, pending: Pending,
                                     s1: set<string>, s2: set<string>)
    requires Orderly(u, w, brokerUp, h, pending) && s1 <= s2
    ensures Grows(u, HostWith(u, h, pending, s1), HostWith(u, h, pending, s2))
  {
    hide UniqueDeclarers, Available;
    DataGrows(u, h, pending, s1, s2);
    AvailabilityGrows(u, h, pending, s1, s2);
    hide HostWith;
  }

  lemma {:induction false} DataGrows(u: Infos, h: Host, pending: Pending, s1: set<string>, s2: set<string>)
    requires s1 <= s2 && forall n | n in h.metadata :: n in u && h.metadata[n] == u[n]
    ensures var d1, d2 := HostWith(u, h, pending, s1).metadata, HostWith(u, h, pending, s2).metadata;
            && (forall n | n in d1 :: n in d2 && d2[n] == d1[n]) && (forall n | n in d2 :: n in u && d2[n] == u[n])
    ensures HostWith(u, h, pending, s1).hooks <= HostWith(u, h, pending, s2).hooks
    ensures HostWith(u, h, pending, s1).compaction == HostWith(u, h, pending, s2).compaction
  {
    assert LoadSet(h, pending, s1) <= LoadSet(h, pending, s2);
    hide LoadSet;
  }

  lemma {:induction false} AvailabilityGrows(u: Infos, h: Host, pending: Pending, s1: set<string>, s2: set<string>)
    requires s1 <= s2
    ensures forall n | Available(HostWith(u, h, pending, s1), n) :: Available(HostWith(u, h, pending, s2), n)
  {
    var l1, l2 := LoadSet(h, pending, s1), LoadSet(h, pending, s2);
    assert l1 <= l2 && forall n | n in l2 :: n in pending;
    hide LoadSet;
  }

  lemma {:induction false} SameGrows(u: Infos, h1: Host, h1': Host, h2: Host, h2': Host)
    requires Grows(u, h1, h2) && SameBut(h1', h1) && SameBut(h2', h2)
    ensures Grows(u, h1', h2')
  {
    assert forall n :: Available(h1', n) == Available(h1, n) && Available(h2', n) == Available(h2, n);
  }

  /** An entry that is ready on the way is in every closed set. */
  lemma {:induction false} ReadyIsForced(
    u: Infos, w: World, brokerUp: bool, h0: Host, r0: Deps, p0: Pending,
    h: Host, r: Deps, p: Pending, name: string, other: set<string>)
    requires Orderly(u, w, brokerUp, h0, p0) && Reached(u, h0, r0, p0, h, r, p)
    requires name in p && !p[name].AgentType? && Ready(h, r, name)
    requires Closed(u, h0, r0, p0, other)
    ensures name in other
  {
    hide Ready;
    if name !in other {
      var now, later := HostWith(u, h0, p0, Gone(p0, p)), HostWith(u, h0, p0, other);
      HostGrows(u, w, brokerUp, h0, p0, Gone(p0, p), other);
      SameGrows(u, now, h, later, later);
      SameDeps(h0, r0, h, r, name);
      ReadyStaysReady(u, h, later, r0, name);
    }
  }

  // An entry whose requirements are unknown keeps its stored dependencies.
  lemma {:induction false} SameDeps(h0: Host, r0: Deps, h: Host, r: Deps, name: string)
    requires name in h0.metadata ==> name in h.metadata && h.metadata[name] == h0.metadata[name]
    requires !(name in h0.metadata && Requires(h0.metadata[name]) != {}) ==> Stored(r, name) == Stored(r0, name)
    ensures Ready(h, r, name) <==> Ready(h, r0, name)
  {
    hide Requires, ResolvedAll;
  }

  lemma {:induction false} GoneOneMore(p0: Pending, p: Pending, name: string)
    requires p.Keys <= p0.Keys && name in p
    ensures Gone(p0, p - {name}) == Gone(p0, p) + (if p0[name].AgentType? then {} else {name})
  {
  }

  // One more load is one more publication.
  lemma {:induction false} PublishedHost(u: Infos, h: Host, pending: Pending, s: set<string>, name: string)
    requires name in u && name in pending && name !in s && Loads(pending[name]) && !Loaded(h, name)
    ensures HostWith(u, h, pending, s + {name}) == Publish(HostWith(u, h, pending, s), name, pending[name], u[name])
  {
    var ls := LoadSet(h, pending, s);
    assert LoadSet(h, pending, s + {name}) == ls + {name};
    hide LoadSet;
    PublishedData(u, h.metadata, ls, name);
    LlmOf(pending, ls, name);
    assert h.hooks + (ls + {name}) == h.hooks + ls + {name};
    assert h.typeMap + (ls + {name}) == h.typeMap + ls + {name};
  }

  lemma {:induction false} PublishedData(u: Infos, data: Infos, ls: set<string>, name: string)
    requires name in u
    ensures data + (map n | n in ls + {name} && n in u :: u[n])
          == (data + (map n | n in ls && n in u :: u[n]))[name := u[name]]
  {
  }

  lemma {:induction false} LlmOf(pending: Pending, ls: set<string>, name: string)
    requires name in pending && forall n | n in ls :: n in pending
    ensures (set n | n in ls + {name} && pending[n].LlmType?)
         == (set n | n in ls && pending[n].LlmType?) + if pending[name].LlmType? then {name} else {}
    ensures (set n | n in ls + {name} && pending[n].ToolType?)
         == (set n | n in ls && pending[n].ToolType?) + if pending[name].ToolType? then {name} else {}
  {
  }

  lemma {:induction false} UnloadedHost(u: Infos, h: Host, pending: Pending, s: set<string>, name: string)
    requires name in pending && (!Loads(pending[name]) || Loaded(h, name))
    ensures HostWith(u, h, pending, s + {name}) == HostWith(u, h, pending, s)
  {
    assert LoadSet(h, pending, s + {name}) == LoadSet(h, pending, s);
  }

  // The host after a visit is the one with exactly the departed entries gone.
  lemma {:induction false} HostStep(
    u: Infos, w: World, brokerUp: bool, h0: Host, r0: Deps, p0: Pending,
    h: Host, r: Deps, p: Pending,
    h': Host, r': Deps, p': Pending, name: string, v: Visit)
    requires Orderly(u, w, brokerUp, h0, p0) && Reached(u, h0, r0, p0, h, r, p)
    requires Visited(w, brokerUp, h, r, p, h', r', p', name, v)
    ensures !v.Failed? && SameBut(h', HostWith(u, h0, p0, Gone(p0, p')))
  {
    PendingAfter(w, brokerUp, h, r, p, h', r', p', name, v);
    VisitedHost(w, brokerUp, h, r, p, h', r', p', name, v);
    hide Ready, DepsFor, Closed, UniqueDeclarers, Visited, Requires;
    GoneOneMore(p0, p, name);
    var gone := Gone(p0, p);
    assert Loaded(h, name) == Loaded(h0, name) by {
      assert name !in LoadSet(h0, p0, gone);
    }
    var was := HostWith(u, h0, p0, gone);
    hide HostWith, LoadSet, Publish, Gone;
    if v.Promoted? && !p[name].AgentType? {
      if !Loads(p[name]) || Loaded(h, name) {
        UnloadedHost(u, h0, p0, gone, name);
      } else {
        PublishedHost(u, h0, p0, gone, name);
        SamePublish(h, was, name, p[name], u[name]);
      }
    }
  }

  // What a visit does to the host.
  lemma {:induction false} VisitedHost(
    w: World, brokerUp: bool, h: Host, r: Deps, p: Pending,
    h': Host, r': Deps, p': Pending, name: string, v: Visit)
    requires Visited(w, brokerUp, h, r, p, h', r', p', name, v)
    ensures v.Failed? ==> Loads(p[name]) && !(brokerUp && w.load(name).Some?)
    ensures v.Promoted? && Loads(p[name]) && !Loaded(h, name) ==>
              w.load(name).Some? && h' == Publish(h, name, p[name], w.load(name).value)
    ensures !v.Failed? && !(v.Promoted? && Loads(p[name]) && !Loaded(h, name)) ==> SameBut(h', h)
  {
    hide Ready, DepsFor;
  }

  lemma {:induction false} SamePublish(h: Host, h': Host, name: string, t: PluginType, info: Info)
    requires SameBut(h, h')
    ensures SameBut(Publish(h, name, t, info), Publish(h', name, t, info))
  {
  }

  /** A visit in an orderly repair does not fail, and promotes only what every closed set holds. */
  lemma {:induction false} ReachedStep(
    u: Infos, w: World, brokerUp: bool, h0: Host, r0: Deps, p0: Pending,
    h: Host, r: Deps, p: Pending,
    h': Host, r': Deps, p': Pending, name: string, v: Visit)
    requires Orderly(u, w, brokerUp, h0, p0) && Reached(u, h0, r0, p0, h, r, p)
    requires Visited(w, brokerUp, h, r, p, h', r', p', name, v)
    ensures !v.Failed? && Reached(u, h0, r0, p0, h', r', p')
  {
    HostStep(u, w, brokerUp, h0, r0, p0, h, r, p, h', r', p', name, v);
    GoneOneMore(p0, p, name);
    forall n | n in p' && !(n in h0.metadata && Requires(h0.metadata[n]) != {})
      ensures Stored(r', n) == Stored(r0, n)
    {
      StoredStep(u, w, brokerUp, h0, r0, p0, h, r, p, h', r', p', name, v, n);
    }
    forall other | Closed(u, h0, r0, p0, other)
      ensures Gone(p0, p') <= other
    {
      ForcedStep(u, w, brokerUp, h0, r0, p0, h, r, p, h', r', p', name, v, other);
    }
  }

  lemma {:induction false} StoredStep(
    u: Infos, w: World, brokerUp: bool, h0: Host, r0: Deps, p0: Pending,
    h: Host, r: Deps, p: Pending,
    h': Host, r': Deps, p': Pending, name: string, v: Visit, n: string)
    requires Reached(u, h0, r0, p0, h, r, p) && Visited(w, brokerUp, h, r, p, h', r', p', name, v)
    requires n in p && !(n in h0.metadata && Requires(h0.metadata[n]) != {})
    ensures Stored(r', n) == Stored(r0, n)
  {
    StoredDeps(w, brokerUp, h, r, p, h', r', p', name, v, n);
    assert n !in LoadSet(h0, p0, Gone(p0, p));
    hide Requires, ResolvedAll, Ready, Closed;
    StoredStill(h, r, r', n);
  }

  lemma {:induction false} ForcedStep(
    u: Infos, w: World, brokerUp: bool, h0: Host, r0: Deps, p0: Pending,
    h: Host, r: Deps, p: Pending,
    h': Host, r': Deps, p': Pending, name: string, v: Visit, other: set<string>)
    requires Orderly(u, w, brokerUp, h0, p0) && Reached(u, h0, r0, p0, h, r, p)
    requires Visited(w, brokerUp, h, r, p, h', r', p', name, v)
    requires Closed(u, h0, r0, p0, other)
    ensures Gone(p0, p') <= other
  {
    hide Ready, DepsFor;
    GoneOneMore(p0, p, name);
    assert Gone(p0, p) <= other;
    if v.Promoted? && !p[name].AgentType? {
      if Loaded(h, name) {
        assert name !in LoadSet(h0, p0, Gone(p0, p));
        assert Loaded(h0, name);
      } else {
        ReadyIsForced(u, w, brokerUp, h0, r0, p0, h, r, p, name, other);
      }
    }
  }

  lemma {:induction false} StuckIsLeast(
    u: Infos, w: World, brokerUp: bool, h0: Host, r0: Deps, p0: Pending,
    h: Host, r: Deps, p: Pending)
    requires Orderly(u, w, brokerUp, h0, p0) && Reached(u, h0, r0, p0, h, r, p) && Stuck(h, r, p)
    ensures LeastFixpoint(u, h0, r0, p0, Gone(p0, p)) && SameBut(h, HostWith(u, h0, p0, Gone(p0, p)))
  {
    hide Ready;
    var gone := Gone(p0, p);
    var end := HostWith(u, h0, p0, gone);
    forall n | n in p0 && !p0[n].AgentType? && (Loaded(h0, n) || Ready(end, r0, n))
      ensures n in gone
    {
      if n in p {
        StuckIsNotReady(u, w, brokerUp, h0, r0, p0, h, r, p, n);
      }
    }
  }

  lemma {:induction false} SoleFor(u: Infos, w: World, brokerUp: bool, h: Host, pending: Pending, n: string)
    requires Orderly(u, w, brokerUp, h, pending) && n in pending && !pending[n].AgentType?
    ensures n in u ==> forall q | q in Requires(u[n]) :: SoleDeclarer(u, h.compaction, q, n)
    ensures "" !in u && Published(u, h)
  {
  }

  lemma {:induction false} StuckIsNotReady(
    u: Infos, w: World, brokerUp: bool, h0: Host, r0: Deps, p0: Pending,
    h: Host, r: Deps, p: Pending, n: string)
    requires Orderly(u, w, brokerUp, h0, p0) && Reached(u, h0, r0, p0, h, r, p)
    requires n in p && !p[n].AgentType? && HeldBack(h, r, n)
    ensures !Loaded(h0, n) && !Ready(HostWith(u, h0, p0, Gone(p0, p)), r0, n)
  {
    var end := HostWith(u, h0, p0, Gone(p0, p));
    var llm :| r[n] == DepsFor(Preferring(h, llm), r, n);
    var later := Preferring(h, llm);
    SoleFor(u, w, brokerUp, h0, p0, n);
    assert !Loaded(h0, n) && end.compaction == h0.compaction;
    assert (n in end.metadata <==> n in h0.metadata) && (n in h0.metadata ==> end.metadata[n] == h0.metadata[n]) by {
      assert n !in LoadSet(h0, p0, Gone(p0, p));
    }
    hide Ready, DepsFor, SoleDeclarer, Requires, Closed, HostWith, Gone, Orderly;
    HostGrows(u, w, brokerUp, h0, p0, Gone(p0, p), Gone(p0, p));
    SameGrows(u, end, end, end, later);
    if Ready(end, r0, n) {
      ReadyStaysReady(u, end, later, r0, n);
      SameDeps(h0, r0, later, r, n);
      NotReady(h, r, n, llm);
    }
  }

  lemma {:induction false} NotReady(h: Host, r: Deps, n: string, llm: string)
    requires n in r && !DepsOk(h, r[n]) && r[n] == DepsFor(Preferring(h, llm), r, n)
    ensures !Ready(Preferring(h, llm), r, n)
  {
    hide DepsFor;
    var d :| d in r[n] && !DepOk(h, d);
    assert !DepOk(Preferring(h, llm), d);
  }

  lemma {:induction false} StoredStill(h: Host, r: Deps, r': Deps, n: string)
    requires DepsFor(h, r', n) == DepsFor(h, r, n)
    requires !(n in h.metadata && Requires(h.metadata[n]) != {})
    ensures Stored(r', n) == Stored(r, n)
  {
  }
}
