/** core/sync_tools.go and the tool registry it writes: bringing the catalogue in line with a plugin's latest tools. */
module SyncTools {
  import opened Wrappers

  datatype Tool = Tool(name: string, description: string, schema: string, hidden: bool, scopes: seq<string>,
                       management: string, capabilities: seq<string>)

  /** Tools and the services they belong to, by tool name. */
  type Catalogue = map<string, Tool>
  type Services = map<string, int>

  // ---------- Fingerprints ----------

  const NUL: string := ['\0']

  function Join(parts: seq<string>): string {
    if parts == [] then ""
    else if |parts| == 1 then parts[0]
    else parts[0] + "," + Join(parts[1..])
  }

  function HiddenMark(t: Tool): string {
    if t.hidden then "hidden" else ""
  }

  function Fingerprint(t: Tool): string {
    t.name + (NUL + (t.description
        + (NUL + (t.schema + (NUL + (HiddenMark(t) + (NUL + (Join(t.scopes) + (NUL + t.management)))))))))
  }

  predicate NoNul(s: string) {
    '\0' !in s
  }

  /** The text before the first NUL and the text behind it are determined by the whole. */
  lemma {:induction false} FirstField(a: string, x: string, b: string, y: string)
    requires NoNul(a) && NoNul(b)
    ensures a + (NUL + x) == b + (NUL + y) <==> a == b && x == y
  {
    if a + (NUL + x) == b + (NUL + y) {
      var whole := a + (NUL + x);
      assert whole[|a|] == '\0' && whole[|b|] == '\0';
      assert forall i | 0 <= i < |a| :: whole[i] == a[i];
      assert forall i | 0 <= i < |b| :: whole[i] == b[i];
      assert |a| == |b|;
      assert a == whole[..|a|] == b;
      assert x == whole[|a| + 1..] == y;
    }
  }

  /** Joining puts one comma between any two parts. */
  lemma {:induction false} JoinExactly(a: seq<string>, b: seq<string>, part: string)
    ensures Join([]) == "" && Join([part]) == part
    ensures a != [] && b != [] ==> Join(a + b) == Join(a) + "," + Join(b)
  {
    if |a| == 1 && b != [] {
      assert (a + b)[1..] == b;
    } else if |a| > 1 && b != [] {
      JoinExactly(a[1..], b, part);
      assert (a + b)[1..] == a[1..] + b;
    }
  }

  /** Every field agrees but the capabilities, scopes being compared as they are joined. */
  predicate SameFields(a: Tool, b: Tool) {
    && a.name == b.name && a.description == b.description && a.schema == b.schema && a.hidden == b.hidden
    && Join(a.scopes) == Join(b.scopes) && a.management == b.management
  }

  /** Tools that agree in every field but the capabilities have one fingerprint, and the other way round where the
      texts hold no NUL. */
  lemma {:induction false} FingerprintExactly(a: Tool, b: Tool)
    ensures SameFields(a, b) ==> Fingerprint(a) == Fingerprint(b)
    ensures (forall t | t in [a, b] ::
               '\0' !in t.name && '\0' !in t.description && '\0' !in t.schema && '\0' !in Join(t.scopes)) ==>
              (Fingerprint(a) == Fingerprint(b) <==> SameFields(a, b))
  {
    assert a in [a, b] && b in [a, b];
    if forall t | t in [a, b] ::
         '\0' !in t.name && '\0' !in t.description && '\0' !in t.schema && '\0' !in Join(t.scopes) {
      PlainFingerprints(a, b);
    }
  }

  lemma {:induction false} PlainFingerprints(a: Tool, b: Tool)
    requires NoNul(a.name) && NoNul(a.description) && NoNul(a.schema) && NoNul(Join(a.scopes))
    requires NoNul(b.name) && NoNul(b.description) && NoNul(b.schema) && NoNul(Join(b.scopes))
    ensures Fingerprint(a) == Fingerprint(b) <==> SameFields(a, b)
  {
    FirstField(Join(a.scopes), a.management, Join(b.scopes), b.management);
    var a4, b4 := Join(a.scopes) + (NUL + a.management), Join(b.scopes) + (NUL + b.management);
    FirstField(HiddenMark(a), a4, HiddenMark(b), b4);
    var a3, b3 := HiddenMark(a) + (NUL + a4), HiddenMark(b) + (NUL + b4);
    FirstField(a.schema, a3, b.schema, b3);
    var a2, b2 := a.schema + (NUL + a3), b.schema + (NUL + b3);
    FirstField(a.description, a2, b.description, b2);
    FirstField(a.name, a.description + (NUL + a2), b.name, b.description + (NUL + b2));
  }

  /** A NUL inside a text can pass for the separator: two different tools with one fingerprint. */
  lemma {:induction false} NulCollides(t: Tool)
    requires t.name == "n" && t.description == "d" && t.schema == NUL
    ensures var other := t.(description := "d" + NUL, schema := "");
            Fingerprint(t) == Fingerprint(other) && !SameFields(t, other)
  {
    var other := t.(description := "d" + NUL, schema := "");
    var tail := NUL + (HiddenMark(t) + (NUL + (Join(t.scopes) + (NUL + t.management))));
    assert "d" + (NUL + (NUL + tail)) == ("d" + NUL) + (NUL + ("" + tail));
    assert |t.description| != |other.description|;
  }

  // ---------- What a sync does ----------

  /** The definitions by name; of several with one name the last. */
  function ByName(defs: seq<Tool>): Catalogue {
    if defs == [] then map[] else ByName(defs[..|defs| - 1])[defs[|defs| - 1].name := defs[|defs| - 1]]
  }

  /** The definition at `i` is the last one of its name. */
  predicate LastOfName(defs: seq<Tool>, i: nat, t: Tool) {
    i < |defs| && defs[i] == t && forall j | i < j < |defs| :: defs[j].name != t.name
  }

  /** The definition kept for a name is the last one reported for it. */
  lemma {:induction false} ByNameExactly(defs: seq<Tool>, n: string, t: Tool)
    ensures n in ByName(defs) && ByName(defs)[n] == t <==> t.name == n && exists i: nat :: LastOfName(defs, i, t)
  {
    if defs != [] {
      var k := |defs| - 1;
      ByNameExactly(defs[..k], n, t);
      LastOfMore(defs, t);
      hide LastOfName;
      assert defs[k].name == n && t.name == n ==> ((exists i: nat :: LastOfName(defs, i, t)) <==> defs[k] == t);
    }
  }

  lemma {:induction false} LastOfMore(defs: seq<Tool>, t: Tool)
    requires defs != []
    ensures var k := |defs| - 1;
            && (LastOfName(defs, k, t) <==> defs[k] == t)
            && forall i: nat | i != k ::
                 LastOfName(defs, i, t) <==> LastOfName(defs[..k], i, t) && defs[k].name != t.name
  {
    var k := |defs| - 1;
    var rest := defs[..k];
    forall i: nat | i != k
      ensures LastOfName(defs, i, t) <==> LastOfName(rest, i, t) && defs[k].name != t.name
    {
      if i < k && LastOfName(defs, i, t) {
        assert forall j | i < j < k :: rest[j] == defs[j];
      }
      if i < k && LastOfName(rest, i, t) && defs[k].name != t.name {
        assert forall j | i < j < |defs| :: j == k || defs[j] == rest[j];
      }
    }
  }

  predicate SameTool(a: Tool, b: Tool) {
    Fingerprint(a) == Fingerprint(b)
  }

  /** Whether the registry gets the reported definition. */
  predicate Written(tools: Catalogue, owned: set<string>, reported: set<string>, defs: Catalogue, n: string) {
    n in reported && n in defs && (n in tools ==> n in owned && !SameTool(tools[n], defs[n]))
  }

  /** The registry once the names of `reported` were aligned and those of `dropped` removed. */
  function Partly(tools: Catalogue, owned: set<string>, reported: set<string>, dropped: set<string>,
                  defs: Catalogue): Catalogue
  {
    map n | n in tools.Keys + defs.Keys
            && (Written(tools, owned, reported, defs, n) || (n in tools && n !in dropped)) ::
      if Written(tools, owned, reported, defs, n) then defs[n] else tools[n]
  }

  function PartlyServed(services: Services, id: int, tools: Catalogue, owned: set<string>,
                        reported: set<string>, dropped: set<string>, defs: Catalogue): Services
  {
    map n | n in services.Keys + defs.Keys
            && (Written(tools, owned, reported, defs, n) || (n in services && n !in dropped)) ::
      if Written(tools, owned, reported, defs, n) then id else services[n]
  }

  function Synced(tools: Catalogue, owned: set<string>, reported: set<string>, defs: Catalogue): Catalogue {
    Partly(tools, owned, reported, owned - reported, defs)
  }

  function SyncedServices(services: Services, id: int, tools: Catalogue, owned: set<string>,
                          reported: set<string>, defs: Catalogue): Services
  {
    PartlyServed(services, id, tools, owned, reported, owned - reported, defs)
  }

  predicate Writes(tools: Catalogue, owned: set<string>, d: Tool, n: string) {
    n in tools ==> n in owned && !SameTool(tools[n], d)
  }

  lemma {:induction false} AlignOne(tools: Catalogue, services: Services, id: int, owned: set<string>,
                                    seen: set<string>, defs: Catalogue, n: string)
    ensures var now, served := Partly(tools, owned, seen, {}, defs),
          PartlyServed(services, id, tools, owned, seen, {}, defs);
            var next, serves := Partly(tools, owned, seen + {n}, {}, defs),
                                PartlyServed(services, id, tools, owned, seen + {n}, {}, defs);
            if n in defs && Writes(now, owned, defs[n], n) then next == now[n := defs[n]] && serves == served[n := id]
            else next == now && serves == served
  {
    hide *;
    WrittenOne(tools, owned, seen, defs, n);
    if n in defs && Writes(Partly(tools, owned, seen, {}, defs), owned, defs[n], n) {
      WrittenMore(tools, services, id, owned, seen, defs, n);
    } else {
      WrittenAlike(tools, services, id, owned, seen, defs, n);
    }
  }

  lemma {:induction false} WrittenMore(tools: Catalogue, services: Services, id: int, owned: set<string>,
                                       seen: set<string>, defs: Catalogue, n: string)
    requires n in defs && Written(tools, owned, seen + {n}, defs, n)
    requires forall m | m != n :: Written(tools, owned, seen + {n}, defs, m) == Written(tools, owned, seen, defs, m)
    ensures Partly(tools, owned, seen + {n}, {}, defs) == Partly(tools, owned, seen, {}, defs)[n := defs[n]]
    ensures PartlyServed(services, id, tools, owned, seen + {n}, {}, defs)
         == PartlyServed(services, id, tools, owned, seen, {}, defs)[n := id]
  {
    hide Written;
  }

  lemma {:induction false} WrittenAlike(tools: Catalogue, services: Services, id: int, owned: set<string>,
                                        seen: set<string>, defs: Catalogue, n: string)
    requires Written(tools, owned, seen + {n}, defs, n) == Written(tools, owned, seen, defs, n)
    requires forall m | m != n :: Written(tools, owned, seen + {n}, defs, m) == Written(tools, owned, seen, defs, m)
    ensures Partly(tools, owned, seen + {n}, {}, defs) == Partly(tools, owned, seen, {}, defs)
    ensures PartlyServed(services, id, tools, owned, seen + {n}, {}, defs)
          == PartlyServed(services, id, tools, owned, seen, {}, defs)
  {
    assert forall m :: Written(tools, owned, seen + {n}, defs, m) == Written(tools, owned, seen, defs, m);
    hide Written;
  }

  lemma {:induction false} WrittenOne(
    tools: Catalogue, owned: set<string>, seen: set<string>, defs: Catalogue, n: string)
    ensures forall m | m != n :: Written(tools, owned, seen + {n}, defs, m) == Written(tools, owned, seen, defs, m)
    ensures Written(tools, owned, seen + {n}, defs, n)
       <==> || Written(tools, owned, seen, defs, n)
            || (n in defs && Writes(Partly(tools, owned, seen, {}, defs), owned, defs[n], n))
    ensures n in defs && Writes(Partly(tools, owned, seen, {}, defs), owned, defs[n], n) ==>
          !Written(tools, owned, seen, defs, n)
  {
    hide Fingerprint;
    var now := Partly(tools, owned, seen, {}, defs);
    if Written(tools, owned, seen, defs, n) {
      assert now[n] == defs[n] && SameTool(now[n], defs[n]);
    } else {
      assert n in now <==> n in tools;
    }
  }

  lemma {:induction false} DropOne(tools: Catalogue, services: Services, id: int, owned: set<string>,
                                   reported: set<string>, dropped: set<string>, defs: Catalogue, n: string)
    requires n !in reported
    ensures Partly(tools, owned, reported, dropped + {n}, defs) == Partly(tools, owned, reported, dropped, defs) - {n}
    ensures PartlyServed(services, id, tools, owned, reported, dropped + {n}, defs)
         == PartlyServed(services, id, tools, owned, reported, dropped, defs) - {n}
  {
  }

  lemma {:induction false} NothingYet(
    tools: Catalogue, services: Services, id: int, owned: set<string>, defs: Catalogue)
    ensures Partly(tools, owned, {}, {}, defs) == tools
          && PartlyServed(services, id, tools, owned, {}, {}, defs) == services
  {
  }

  lemma {:induction false} OneMore(names: seq<string>, i: nat)
    requires i < |names|
    ensures Elements(names[..i + 1]) == Elements(names[..i]) + {names[i]}
  {
    assert names[..i + 1] == names[..i] + [names[i]];
  }

  class Manager {
    const toolServiceIDs: Services
    var tools: Catalogue
    var services: Services
    var coreToolNames: map<string, seq<string>>

    /** The names the plugin registered last. */
    function Owned(plugin: string): (names: seq<string>)
      reads this
      ensures if plugin in coreToolNames then names == coreToolNames[plugin] else names == []
    {
      if plugin in coreToolNames then coreToolNames[plugin] else []
    }

    method Index(defs: seq<Tool>) returns (byName: Catalogue)
      ensures byName == ByName(defs)
    {
      byName := map[];
      for i := 0 to |defs|
        invariant byName == ByName(defs[..i])
      {
        assert defs[..i + 1][..i] == defs[..i];
        byName := byName[defs[i].name := defs[i]];
      }
      assert defs[..|defs|] == defs;
    }

    /** Registers or replaces the reported definition of one name. */
    method Align(n: string, owned: set<string>, defs: Catalogue, id: int)
      requires n in defs
      modifies this`tools, this`services
      ensures tools == if Writes(old(tools), owned, defs[n], n) then old(tools)[n := defs[n]] else old(tools)
      ensures services == if Writes(old(tools), owned, defs[n], n) then old(services)[n := id] else old(services)
    {
      if n !in owned {
        if n in tools {
          return;
        }
        tools, services := tools[n := defs[n]], services[n := id];
        return;
      }
      if n in tools && Fingerprint(tools[n]) == Fingerprint(defs[n]) {
        return;
      }
      tools, services := tools[n := defs[n]], services[n := id];
    }

    method ApplyPluginTools(plugin: string, defs: seq<Tool>, names: seq<string>)
      modifies this
      ensures tools == Synced(old(tools), Elements(old(Owned(plugin))), Elements(names), ByName(defs))
      ensures services == SyncedServices(old(services), if plugin in toolServiceIDs then toolServiceIDs[plugin] else 0,
                                         old(tools), Elements(old(Owned(plugin))), Elements(names), ByName(defs))
      ensures coreToolNames == old(coreToolNames)[plugin := names]
    {
      var previous := Owned(plugin);
      var owned := Elements(previous);
      var reported := Elements(names);
      var byName := Index(defs);
      var id := if plugin in toolServiceIDs then toolServiceIDs[plugin] else 0;
      ghost var tools0, services0 := tools, services;
      hide *;
      NothingYet(tools, services, id, owned, byName);
      var i := 0;
      while i < |names|
        invariant 0 <= i <= |names| && coreToolNames == old(coreToolNames)
        invariant tools == Partly(tools0, owned, Elements(names[..i]), {}, byName)
        invariant services == PartlyServed(services0, id, tools0, owned, Elements(names[..i]), {}, byName)
      {
        var n := names[i];
        AlignOne(tools0, services0, id, owned, Elements(names[..i]), byName, n);
        OneMore(names, i);
        if n in byName {
          Align(n, owned, byName, id);
        }
        i := i + 1;
      }
      assert names[..i] == names;
      Unregister(previous, reported, tools0, services0, id, byName);
      coreToolNames := coreToolNames[plugin := names];
    }

    /** Removes the owned names that are no longer reported. */
    method Unregister(previous: seq<string>, reported: set<string>, ghost tools0: Catalogue,
                      ghost services0: Services, ghost id: int, ghost defs: Catalogue)
      requires tools == Partly(tools0, Elements(previous), reported, {}, defs)
      requires services == PartlyServed(services0, id, tools0, Elements(previous), reported, {}, defs)
      modifies this`tools, this`services
      ensures tools == Synced(tools0, Elements(previous), reported, defs)
      ensures services == SyncedServices(services0, id, tools0, Elements(previous), reported, defs)
    {
      ghost var owned := Elements(previous);
      hide Partly, PartlyServed;
      var i := 0;
      assert Elements(previous[..i]) - reported == {};
      while i < |previous|
        invariant 0 <= i <= |previous|
        invariant tools == Partly(tools0, owned, reported, Elements(previous[..i]) - reported, defs)
        invariant services
              == PartlyServed(services0, id, tools0, owned, reported, Elements(previous[..i]) - reported, defs)
      {
        var n := previous[i];
        OneMore(previous, i);
        ghost var dropped := Elements(previous[..i]) - reported;
        if n in reported {
          assert Elements(previous[..i + 1]) - reported == dropped;
        } else {
          DropOne(tools0, services0, id, owned, reported, dropped, defs, n);
          assert Elements(previous[..i + 1]) - reported == dropped + {n};
          tools, services := tools - {n}, services - {n};
        }
        i := i + 1;
      }
      assert previous[..i] == previous;
    }
  }

  // ---------- Against rebuilding the catalogue ----------

  /** The catalogue without the plugin's old names and with all its new definitions. */
  function Rebuilt(tools: Catalogue, owned: set<string>, reported: set<string>, defs: Catalogue): Catalogue {
    (tools - owned) + map n | n in reported && n in defs :: defs[n]
  }

  predicate SameCatalogue(a: Catalogue, b: Catalogue) {
    a.Keys == b.Keys && forall n | n in a.Keys * b.Keys :: SameTool(a[n], b[n])
  }

  /** A reported name that is new to the plugin is free, or taken by a tool of the same fingerprint. */
  predicate NoConflict(tools: Catalogue, owned: set<string>, reported: set<string>, defs: Catalogue) {
    forall n | n in reported && n in defs && n !in owned && n in tools :: SameTool(tools[n], defs[n])
  }

  /** The incremental sync is a rebuild, up to fingerprints, if and only if no new name is in conflict and no owned tool
      is reported by name alone: that one stays, where a rebuild would lose it. */
  lemma {:induction false} SyncIsRebuild(tools: Catalogue, owned: set<string>, reported: set<string>, defs: Catalogue)
    ensures SameCatalogue(Synced(tools, owned, reported, defs), Rebuilt(tools, owned, reported, defs))
       <==> && NoConflict(tools, owned, reported, defs)
            && forall n | n in owned && n in reported && n in tools :: n in defs
  {
    hide Fingerprint;
    var synced, rebuilt := Synced(tools, owned, reported, defs), Rebuilt(tools, owned, reported, defs);
    if n :| n in reported && n in defs && n !in owned && n in tools && !SameTool(tools[n], defs[n]) {
      assert n in synced.Keys * rebuilt.Keys && !SameTool(synced[n], rebuilt[n]);
    }
    if n :| n in owned && n in reported && n in tools && n !in defs {
      assert n in synced && n !in rebuilt;
    } else {
      assert synced.Keys == rebuilt.Keys;
    }
  }

  /** A second identical sync changes nothing if and only if the first met no conflict; otherwise it takes over the
      other plugin's tool. */
  lemma {:induction false} SecondSyncExactly(
    tools: Catalogue, owned: set<string>, reported: set<string>, defs: Catalogue)
    ensures var once := Synced(tools, owned, reported, defs);
            var twice := Synced(once, reported, reported, defs);
            && (twice == once <==> NoConflict(tools, owned, reported, defs))
            && (forall n | n in reported && n in defs && n !in owned && n in tools && !SameTool(tools[n], defs[n]) ::
                  n in once && once[n] == tools[n] && n in twice && twice[n] == defs[n])
  {
    hide Fingerprint;
    var once := Synced(tools, owned, reported, defs);
    var twice := Synced(once, reported, reported, defs);
    if n :| n in reported && n in defs && n !in owned && n in tools && !SameTool(tools[n], defs[n]) {
      assert once[n] == tools[n] && twice[n] == defs[n];
      assert once[n] != twice[n];
    } else {
      assert forall n | n in once :: n in twice && twice[n] == once[n];
      assert forall n | n in twice :: n in once;
    }
  }

  /** Tools of names the plugin neither owned nor reports are left alone, and so are taken ones, this time. */
  lemma {:induction false} OthersUntouched(
    tools: Catalogue, owned: set<string>, reported: set<string>, defs: Catalogue, n: string)
    requires n !in owned && (n in tools || n !in reported)
    ensures var after := Synced(tools, owned, reported, defs);
            (n in after <==> n in tools) && (n in tools ==> after[n] == tools[n])
  {
  }

  /** An owned tool has the reported definition after the sync exactly if it had it before or differs in fingerprint,
      so that a change of capabilities alone is missed. */
  lemma {:induction false} UpdateExactly(
    tools: Catalogue, owned: set<string>, reported: set<string>, defs: Catalogue, n: string)
    requires n in owned && n in reported && n in defs && n in tools
    ensures var after := Synced(tools, owned, reported, defs);
            && n in after
            && (after[n] == defs[n] <==> tools[n] == defs[n] || Fingerprint(tools[n]) != Fingerprint(defs[n]))
  {
    hide Fingerprint;
  }

  // ---------- Ownership ----------

  /** No name belongs to two plugins, and every owned name is in the catalogue. */
  predicate Sound(tools: Catalogue, owners: map<string, set<string>>) {
    && (forall p, q | p in owners && q in owners && p != q :: owners[p] !! owners[q])
    && forall p | p in owners :: owners[p] <= tools.Keys
  }

  /** Sound ownership survives a sync if and only if no reported name belongs to another plugin, and what is reported
      by name alone is in the catalogue. */
  lemma {:induction false} OwnershipExactly(tools: Catalogue, owners: map<string, set<string>>, p: string,
                                            reported: set<string>, defs: Catalogue)
    requires Sound(tools, owners)
    ensures var owned := if p in owners then owners[p] else {};
            var kept := Sound(Synced(tools, owned, reported, defs), owners[p := reported]);
            kept <==> (forall q | q in owners && q != p :: owners[q] !! reported) && reported - defs.Keys <= tools.Keys
  {
    var owned := if p in owners then owners[p] else {};
    var after, owners' := Synced(tools, owned, reported, defs), owners[p := reported];
    assert reported <= after.Keys <==> reported - defs.Keys <= tools.Keys;
    if forall q | q in owners && q != p :: owners[q] !! reported {
      forall q | q in owners'
        ensures q != p ==> owners'[q] <= after.Keys
      {
      }
      assert owners'[p] == reported;
    } else {
      var q :| q in owners && q != p && !(owners[q] !! reported);
      assert !(owners'[q] !! owners'[p]);
    }
  }

  /** A name taken from another plugin and then given up takes that plugin's tool out of the catalogue. */
  lemma {:induction false} TakenThenGivenUp(
    tools: Catalogue, owned: set<string>, reported: set<string>, defs: Catalogue, fewer: set<string>, defs': Catalogue,
    n: string)
    requires n !in owned && n in tools && n in reported && n !in fewer
    ensures n in Synced(tools, owned, reported, defs)
    ensures n !in Synced(Synced(tools, owned, reported, defs), reported, fewer, defs')
  {
  }
}
