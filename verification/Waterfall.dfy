/** core/notify.go: dispatching agent/pre-step and agent/request-error to the plugins. */
module Waterfall {
  import opened Wrappers
  import opened CapabilityDeps

  /** A JSON object, as far as the host looks into it. */
  datatype Doc = Doc(fields: map<string, string>, messages: Option<string>, append: seq<string>)

  /** A decoded payload: an object, or anything else. */
  datatype Payload = Parsed(doc: Doc) | Raw(text: string)

  /** What calling a plugin yields. */
  datatype Reply = Unreachable | Refused(error: string) | Silent | Answered(text: string)

  datatype Client = Client(name: string, reply: string -> Reply, project: string -> Reply)

  datatype End = Final(text: string) | Vetoed(name: string, error: string)

  /** What one dispatch fixes: the role holder, the payload without messages ("" if there is none), who gets the
      full payload all the same, whether appended messages are collected, and the JSON decoder. */
  datatype Stage = Stage(holder: string, light: string, full: set<string>, collects: bool, parse: string -> Option<Doc>)
  {
    predicate Adopts(c: Client) {
      holder != "" && c.name == holder
    }

    function PayloadFor(c: Client, data: string): string {
      if light != "" && c.name != holder && c.name !in full then light else data
    }

    function ReplyOf(c: Client, data: string): Reply {
      c.reply(PayloadFor(c, data))
    }

    /** The payload after the client was called. */
    function After(c: Client, data: string): string {
      if Adopts(c) && ReplyOf(c, data).Answered? then ReplyOf(c, data).text else data
    }

    function Collected(text: string): seq<string> {
      if collects && text != "" && parse(text).Some? then parse(text).value.append else []
    }

    /** What the client asks to append. */
    function Asked(c: Client, data: string): seq<string> {
      if ReplyOf(c, data).Answered? then Collected(ReplyOf(c, data).text) else []
    }

    function Decoded(text: string): Payload {
      if text != "" && parse(text).Some? then Parsed(parse(text).value) else Raw(text)
    }
  }

  /** The course of a chain: how it ends, what was asked to be appended, the payloads sent. */
  datatype Course = Course(end: End, appends: seq<string>, sent: seq<string>)

  ghost function Run(st: Stage, cs: seq<Client>, data: string): Course {
    if cs == [] then Course(Final(data), [], [])
    else if st.ReplyOf(cs[0], data).Refused? then
      Course(Vetoed(cs[0].name, st.ReplyOf(cs[0], data).error), [], [st.PayloadFor(cs[0], data)])
    else Before(st, cs[0], data, Run(st, cs[1..], st.After(cs[0], data)))
  }

  ghost function Before(st: Stage, c: Client, data: string, rest: Course): Course {
    Course(rest.end, st.Asked(c, data) + rest.appends, [st.PayloadFor(c, data)] + rest.sent)
  }

  /** The variables the closures of one dispatch share. */
  class Chain {
    const st: Stage
    const clients: seq<Client>
    var dataJSON: string
    var appends: seq<string>
    ghost var sent: seq<string>

    constructor (st: Stage, clients: seq<Client>, data: string)
      ensures this.st == st && this.clients == clients && dataJSON == data && appends == [] && sent == []
    {
      this.st, this.clients, dataJSON, appends, sent := st, clients, data, [], [];
    }

    /** The closure wrapped around the clients from `i` on. */
    method Next(i: nat) returns (end: End)
      requires i <= |clients|
      modifies this
      ensures var ran := Run(st, clients[i..], old(dataJSON));
              end == ran.end && appends == old(appends) + ran.appends && sent == old(sent) + ran.sent
      decreases |clients| - i
    {
      ghost var data := dataJSON;
      RunUnfolds(st, clients, i, data);
      hide Run, Stage.After, Stage.Asked, Stage.PayloadFor;
      if i == |clients| {
        return Final(dataJSON);
      }
      var veto := Call(clients[i]);
      if veto.Some? {
        return veto.value;
      }
      assert !st.ReplyOf(clients[i], data).Refused?;
      end := Next(i + 1);
    }

    /** Calls one plugin: a veto ends the chain, an answer may rewrite the payload. */
    method Call(c: Client) returns (veto: Option<End>)
      modifies this
      ensures sent == old(sent) + [st.PayloadFor(c, old(dataJSON))]
      ensures var reply := st.ReplyOf(c, old(dataJSON));
              if reply.Refused? then
                veto == Some(Vetoed(c.name, reply.error)) && dataJSON == old(dataJSON) && appends == old(appends)
              else
                veto == None && dataJSON == st.After(c, old(dataJSON))
                    && appends == old(appends) + st.Asked(c, old(dataJSON))
    {
      var payload := dataJSON;
      if st.light != "" && c.name != st.holder && c.name !in st.full {
        payload := st.light;
      }
      var reply := c.reply(payload);
      sent := sent + [payload];
      if reply.Refused? {
        return Some(Vetoed(c.name, reply.error));
      }
      if reply.Answered? {
        appends := appends + st.Collected(reply.text);
        if st.Adopts(c) {
          dataJSON := reply.text;
        }
      }
      return None;
    }
  }

  lemma {:induction false} RunUnfolds(st: Stage, cs: seq<Client>, i: nat, data: string)
    requires i <= |cs|
    ensures Run(st, cs[i..], data) ==
              if i == |cs| then Course(Final(data), [], [])
              else if st.ReplyOf(cs[i], data).Refused?
              then Course(Vetoed(cs[i].name, st.ReplyOf(cs[i], data).error), [], [st.PayloadFor(cs[i], data)])
              else Before(st, cs[i], data, Run(st, cs[i + 1..], st.After(cs[i], data)))
  {
    if i < |cs| {
      assert cs[i..][0] == cs[i] && cs[i..][1..] == cs[i + 1..];
    }
  }

  // ---------- What a chain computes ----------

  /** The payload after `cs`, vetoes aside. */
  ghost function Rewritten(st: Stage, cs: seq<Client>, data: string): string {
    if cs == [] then data else Rewritten(st, cs[1..], st.After(cs[0], data))
  }

  /** All that `cs` ask to append, in load order. */
  ghost function AllAsked(st: Stage, cs: seq<Client>, data: string): seq<string> {
    if cs == [] then [] else st.Asked(cs[0], data) + AllAsked(st, cs[1..], st.After(cs[0], data))
  }

  ghost predicate Refuses(st: Stage, cs: seq<Client>, data: string, i: nat) {
    i < |cs| && st.ReplyOf(cs[i], Rewritten(st, cs[..i], data)).Refused?
  }

  lemma {:induction false} RewrittenSplit(st: Stage, a: seq<Client>, b: seq<Client>, data: string)
    ensures Rewritten(st, a + b, data) == Rewritten(st, b, Rewritten(st, a, data))
    ensures AllAsked(st, a + b, data) == AllAsked(st, a, data) + AllAsked(st, b, Rewritten(st, a, data))
  {
    if a == [] {
      assert a + b == b;
    } else {
      assert (a + b)[1..] == a[1..] + b;
      RewrittenSplit(st, a[1..], b, st.After(a[0], data));
    }
  }

  /** Without a veto every client is called, every request to append is collected in load order, and the result
      is the rewrite. */
  lemma {:induction false} FinalCourse(st: Stage, cs: seq<Client>, data: string)
    requires Run(st, cs, data).end.Final?
    ensures var ran := Run(st, cs, data);
            ran.end.text == Rewritten(st, cs, data) && ran.appends == AllAsked(st, cs, data) && |ran.sent| == |cs|
  {
    if cs != [] {
      FinalCourse(st, cs[1..], st.After(cs[0], data));
    }
  }

  // The prefix of a non-empty list, seen from its tail.
  lemma {:induction false} RewrittenPrefix(st: Stage, cs: seq<Client>, data: string, i: nat)
    requires 0 < i <= |cs|
    ensures Rewritten(st, cs[..i], data) == Rewritten(st, cs[1..][..i - 1], st.After(cs[0], data))
  {
    assert cs[..i][1..] == cs[1..][..i - 1];
  }

  /** The payload each client is sent: without messages, or as rewritten by the clients before it. */
  lemma {:induction false} SentPayload(st: Stage, cs: seq<Client>, data: string, i: nat)
    requires i < |Run(st, cs, data).sent|
    ensures i < |cs| && Run(st, cs, data).sent[i] == st.PayloadFor(cs[i], Rewritten(st, cs[..i], data))
  {
    if i == 0 {
      assert cs[..0] == [];
    } else {
      SentPayload(st, cs[1..], st.After(cs[0], data), i - 1);
      RewrittenPrefix(st, cs, data, i);
    }
  }

  /** A chain ends in a veto if and only if some client refuses the payload it would be sent. */
  lemma {:induction false} VetoExactly(st: Stage, cs: seq<Client>, data: string)
    ensures Run(st, cs, data).end.Vetoed? <==> exists i: nat :: Refuses(st, cs, data, i)
  {
    if cs != [] {
      var after := st.After(cs[0], data);
      VetoExactly(st, cs[1..], after);
      assert cs[..0] == [];
      if st.ReplyOf(cs[0], data).Refused? {
        assert Refuses(st, cs, data, 0);
      } else if i: nat :| Refuses(st, cs[1..], after, i) {
        RewrittenPrefix(st, cs, data, i + 1);
        assert Refuses(st, cs, data, i + 1);
      } else if i: nat :| Refuses(st, cs, data, i) {
        assert i > 0;
        RewrittenPrefix(st, cs, data, i);
        assert Refuses(st, cs[1..], after, i - 1);
      }
    }
  }

  // ---------- Who decides ----------

  function Named(cs: seq<Client>, name: string): seq<Client> {
    if cs == [] then [] else (if cs[0].name == name then [cs[0]] else []) + Named(cs[1..], name)
  }

  /** Without a veto the chain ends exactly as if the role holder had been the only plugin. */
  lemma {:induction false} HolderAlone(st: Stage, cs: seq<Client>, data: string)
    requires Run(st, cs, data).end.Final?
    ensures Run(st, Named(cs, st.holder), data).end == Run(st, cs, data).end
  {
    if cs != [] {
      HolderAlone(st, cs[1..], st.After(cs[0], data));
      var rest := Named(cs[1..], st.holder);
      if cs[0].name == st.holder {
        assert Named(cs, st.holder)[1..] == rest;
      } else {
        assert Named(cs, st.holder) == rest;
      }
    }
  }

  predicate DistinctNames(cs: seq<Client>) {
    forall i, j | 0 <= i < j < |cs| :: cs[i].name != cs[j].name
  }

  /** The position of the role holder, or the length without one. */
  function HolderAt(st: Stage, cs: seq<Client>): (k: nat)
    ensures k <= |cs| && (k < |cs| ==> st.Adopts(cs[k])) && forall i | 0 <= i < k :: !st.Adopts(cs[i])
  {
    if cs == [] || st.Adopts(cs[0]) then 0 else 1 + HolderAt(st, cs[1..])
  }

  /** The holder's answer to the original event, or the original event. */
  function HolderAnswer(st: Stage, cs: seq<Client>, data: string): string {
    var k := HolderAt(st, cs);
    if k < |cs| && cs[k].reply(data).Answered? then cs[k].reply(data).text else data
  }

  /** The holder is the first plugin with the name that is configured; its answer counts if it gives one. */
  lemma {:induction false} HolderAnswerExactly(st: Stage, cs: seq<Client>, data: string, k: nat)
    requires k <= |cs| && forall i | 0 <= i < k :: cs[i].name != st.holder
    ensures k < |cs| && st.holder != "" && cs[k].name == st.holder ==>
              HolderAnswer(st, cs, data) == if cs[k].reply(data).Answered? then cs[k].reply(data).text else data
    ensures k == |cs| || st.holder == "" ==> HolderAnswer(st, cs, data) == data
  {
    var at := HolderAt(st, cs);
    assert at < |cs| ==> st.Adopts(cs[at]);
    assert k < |cs| && st.Adopts(cs[k]) ==> at == k;
  }

  lemma {:induction false} NobodyRewrites(st: Stage, cs: seq<Client>, data: string)
    requires forall i | 0 <= i < |cs| :: !st.Adopts(cs[i])
    ensures Rewritten(st, cs, data) == data
  {
    if cs != [] {
      NobodyRewrites(st, cs[1..], data);
    }
  }

  /** With distinct names the payload is the original one up to the holder, and its answer from there on. */
  lemma {:induction false} HolderDecides(st: Stage, cs: seq<Client>, data: string, i: nat)
    requires DistinctNames(cs) && i <= |cs|
    ensures Rewritten(st, cs[..i], data) == if i <= HolderAt(st, cs) then data else HolderAnswer(st, cs, data)
  {
    var k := HolderAt(st, cs);
    if i <= k {
      NobodyRewrites(st, cs[..i], data);
    } else {
      assert cs[..i] == cs[..k] + ([cs[k]] + cs[k + 1..i]);
      NobodyRewrites(st, cs[..k], data);
      RewrittenSplit(st, cs[..k], [cs[k]] + cs[k + 1..i], data);
      RewrittenSplit(st, [cs[k]], cs[k + 1..i], data);
      assert [cs[k]][1..] == [];
      NobodyRewrites(st, cs[k + 1..i], st.After(cs[k], data));
    }
  }

  /** Without a veto, and with distinct names, the outcome is the holder's answer to the original event. */
  lemma {:induction false} OutcomeIsHolders(st: Stage, cs: seq<Client>, data: string)
    requires DistinctNames(cs) && Run(st, cs, data).end.Final?
    ensures Run(st, cs, data).end.text == HolderAnswer(st, cs, data)
  {
    FinalCourse(st, cs, data);
    HolderDecides(st, cs, data, |cs|);
    assert cs[..|cs|] == cs;
  }

  /** The holder and those who ask for it get the full payload; so does everybody when there is no other. */
  lemma {:induction false} PayloadExactly(st: Stage, c: Client, data: string)
    ensures st.PayloadFor(c, data)
         == if st.light == "" || c.name == st.holder || c.name in st.full then data else st.light
  {
  }

  /** Who asks for it: the plugins that declare the capability and not as "false". */
  lemma {:induction false} FullExactly(
    cs: seq<Client>, metadata: map<string, Info>, holder: string, light: string, name: string,
    parse: string -> Option<Doc>)
    ensures name in PreStepStage(cs, metadata, parse, holder, light).full
       <==> && name in metadata && "pre-step-messages" in metadata[name].capabilities
            && metadata[name].capabilities["pre-step-messages"] != "false"
            && exists i :: 0 <= i < |cs| && cs[i].name == name
  {
    WantingNames(cs, metadata, FULL_MESSAGES, name);
  }

  lemma {:induction false} WantingNames(cs: seq<Client>, metadata: map<string, Info>, capability: string, name: string)
    ensures name in NamesOf(Wanting(cs, metadata, capability))
       <==> Wants(metadata, name, capability) && exists i :: 0 <= i < |cs| && cs[i].name == name
  {
    if cs != [] {
      WantingNames(cs[1..], metadata, capability, name);
      var rest := Wanting(cs[1..], metadata, capability);
      var all := Wanting(cs, metadata, capability);
      assert cs == [cs[0]] + cs[1..];
      if Wants(metadata, cs[0].name, capability) {
        assert all == [cs[0]] + rest;
        NamesHead(cs[0], rest, name);
      } else {
        assert all == rest;
      }
      NamesHead(cs[0], cs[1..], name);
      assert (exists i :: 0 <= i < |cs| && cs[i].name == name) <==> name in NamesOf(cs);
      assert (exists i :: 0 <= i < |cs[1..]| && cs[1..][i].name == name) <==> name in NamesOf(cs[1..]);
    }
  }

  lemma {:induction false} NamesHead(c: Client, cs: seq<Client>, name: string)
    ensures name in NamesOf([c] + cs) <==> c.name == name || name in NamesOf(cs)
  {
    var all := [c] + cs;
    if i :| 0 <= i < |cs| && cs[i].name == name {
      assert all[i + 1].name == name;
    }
    if i :| 0 <= i < |all| && all[i].name == name {
      if i > 0 {
        assert cs[i - 1].name == name;
      }
    }
    assert all[0].name == c.name;
  }

  // ---------- Projections ----------

  /** The messages a projection's answer carries, if any. */
  function NextView(c: Client, parse: string -> Option<Doc>, msgs: string): Option<string> {
    var reply := c.project(msgs);
    if reply.Answered? && reply.text != "" && parse(reply.text).Some? then parse(reply.text).value.messages else None
  }

  /** A projection counts exactly if it answers, with an object that carries messages. */
  lemma {:induction false} NextViewExactly(c: Client, parse: string -> Option<Doc>, msgs: string, next: string)
    ensures NextView(c, parse, msgs) == Some(next)
       <==> exists t, doc :: && c.project(msgs) == Answered(t) && t != "" && parse(t) == Some(doc)
                             && doc.messages == Some(next)
  {
    if NextView(c, parse, msgs) == Some(next) {
      var t := c.project(msgs).text;
      assert parse(t) == Some(parse(t).value);
    }
  }

  /** A run of views: each projection either counts, and gives the next view, or leaves the view as it is. */
  ghost predicate IsViewRun(cs: seq<Client>, parse: string -> Option<Doc>, views: seq<string>) {
    |views| == |cs| + 1
    && forall i | 0 <= i < |cs| ::
         if NextView(cs[i], parse, views[i]).Some? then Some(views[i + 1]) == NextView(cs[i], parse, views[i])
         else views[i + 1] == views[i]
  }

  /** The last view of the run, and whether any two neighbours differ. */
  lemma {:induction false} ViewsExactly(cs: seq<Client>, parse: string -> Option<Doc>, views: seq<string>)
    requires IsViewRun(cs, parse, views)
    ensures Views(cs, parse, views[0])
         == (views[|cs|], exists i :: 0 <= i < |cs| && views[i] != views[i + 1])
  {
    if cs != [] {
      var rest := views[1..];
      assert IsViewRun(cs[1..], parse, rest);
      ViewsExactly(cs[1..], parse, rest);
      assert rest[|cs| - 1] == views[|cs|];
      if i :| 0 <= i < |cs| - 1 && rest[i] != rest[i + 1] {
        assert views[i + 1] != views[i + 2];
      }
      if i :| 0 <= i < |cs| && views[i] != views[i + 1] {
        if i > 0 {
          assert rest[i - 1] != rest[i];
        }
      }
      assert views[0] != views[1] ==> exists i :: 0 <= i < |cs| && views[i] != views[i + 1];
    }
  }

  /** The messages after all projections, and whether any of them changed something on the way. */
  function Views(cs: seq<Client>, parse: string -> Option<Doc>, msgs: string): (string, bool) {
    if cs == [] then (msgs, false)
    else
      var next := NextView(cs[0], parse, msgs);
      if next.None? || next.value == msgs then Views(cs[1..], parse, msgs)
      else (Views(cs[1..], parse, next.value).0, true)
  }

  function StartView(p: Payload, eventMessages: string): string {
    if p.Parsed? && p.doc.messages.Some? then p.doc.messages.value else eventMessages
  }

  function WithMessages(p: Payload, msgs: string): Payload {
    match p
    case Parsed(o) => Parsed(o.(messages := Some(msgs)))
    case Raw(_) => Parsed(Doc(map[], Some(msgs), []))
  }

  function Projected(cs: seq<Client>, parse: string -> Option<Doc>, p: Payload, eventMessages: string): Payload {
    var start := StartView(p, eventMessages);
    if start == "" || !Views(cs, parse, start).1 then p else WithMessages(p, Views(cs, parse, start).0)
  }

  /** A projection that fails, or answers without messages, might as well not exist. */
  lemma {:induction false} FailedProjectionIsSkipped(
    a: seq<Client>, c: Client, b: seq<Client>, parse: string -> Option<Doc>, msgs: string)
    requires NextView(c, parse, Views(a, parse, msgs).0).None?
    ensures Views(a + [c] + b, parse, msgs) == Views(a + b, parse, msgs)
  {
    if a == [] {
      assert a + [c] + b == [c] + b && ([c] + b)[1..] == b && a + b == b;
    } else {
      assert (a + [c] + b)[1..] == a[1..] + [c] + b && (a + b)[1..] == a[1..] + b;
      var next := NextView(a[0], parse, msgs);
      FailedProjectionIsSkipped(a[1..], c, b, parse, if next.None? then msgs else next.value);
    }
  }

  /** Projections touch the messages and nothing else. */
  lemma {:induction false} ProjectionKeepsRest(
    cs: seq<Client>, parse: string -> Option<Doc>, p: Payload, eventMessages: string)
    ensures Appends(Projected(cs, parse, p, eventMessages)) == Appends(p)
    ensures p.Parsed? ==> Projected(cs, parse, p, eventMessages).Parsed?
    ensures p.Parsed? ==> Projected(cs, parse, p, eventMessages).doc.fields == p.doc.fields
  {
  }

  // ---------- Appended messages ----------

  function Appends(p: Payload): seq<string> {
    if p.Parsed? then p.doc.append else []
  }

  function Merged(p: Payload, items: seq<string>): Payload {
    if items == [] then p
    else match p
      case Parsed(o) => Parsed(o.(append := o.append + items))
      case Raw(_) => Parsed(Doc(map[], None, items))
  }

  /** What a chain without a veto delivers: the holder's own list, or the event's, stands before everything that was
      asked for, so each request is delivered once if and only if that list is empty. */
  lemma {:induction false} DeliveredAppends(st: Stage, cs: seq<Client>, data: string)
    requires DistinctNames(cs) && Run(st, cs, data).end.Final?
    ensures var ran := Run(st, cs, data);
            var own := Appends(st.Decoded(HolderAnswer(st, cs, data)));
            var delivered := Appends(Merged(st.Decoded(ran.end.text), ran.appends));
            delivered == own + AllAsked(st, cs, data) && (delivered == AllAsked(st, cs, data) <==> own == [])
  {
    FinalCourse(st, cs, data);
    OutcomeIsHolders(st, cs, data);
  }

  /** A holder that answers with an object has its own list delivered twice, around the requests of the plugins
      loaded before it, which are those they made on the original event. */
  lemma {:induction false} HoldersListTwice(st: Stage, cs: seq<Client>, data: string, k: nat)
    requires DistinctNames(cs) && Run(st, cs, data).end.Final? && st.collects
    requires k == HolderAt(st, cs) && k < |cs| && cs[k].reply(data).Answered?
    ensures var ran := Run(st, cs, data);
            var answer := cs[k].reply(data).text;
            var own := st.Collected(answer);
            Appends(Merged(st.Decoded(ran.end.text), ran.appends))
            == own + AllAsked(st, cs[..k], data) + own + AllAsked(st, cs[k + 1..], answer)
  {
    hide Run, AllAsked, Rewritten, Merged, DistinctNames;
    DeliveredAppends(st, cs, data);
    AskedAround(st, cs, data, k);
    NobodyRewrites(st, cs[..k], data);
    var answer := cs[k].reply(data).text;
    HoldersOwn(st, cs, data, k);
    hide *;
    assert st.Asked(cs[k], data) == st.Collected(answer);
  }

  lemma {:induction false} HoldersOwn(st: Stage, cs: seq<Client>, data: string, k: nat)
    requires st.collects && k == HolderAt(st, cs) && k < |cs| && cs[k].reply(data).Answered?
    ensures var answer := cs[k].reply(data).text;
            && HolderAnswer(st, cs, data) == answer == st.After(cs[k], data)
            && Appends(st.Decoded(answer)) == st.Collected(answer) == st.Asked(cs[k], data)
  {
    assert st.PayloadFor(cs[k], data) == data;
  }

  lemma {:induction false} AskedAround(st: Stage, cs: seq<Client>, data: string, k: nat)
    requires k < |cs|
    ensures var here := Rewritten(st, cs[..k], data);
            AllAsked(st, cs, data)
            == AllAsked(st, cs[..k], data) + st.Asked(cs[k], here) + AllAsked(st, cs[k + 1..], st.After(cs[k], here))
  {
    var tail := cs[k..];
    assert cs == cs[..k] + tail;
    RewrittenSplit(st, cs[..k], tail, data);
    assert tail[0] == cs[k] && tail[1..] == cs[k + 1..];
    var here := Rewritten(st, cs[..k], data);
    assert AllAsked(st, tail, here) == st.Asked(cs[k], here) + AllAsked(st, tail[1..], st.After(cs[k], here));
  }

  /** Without a holder every plugin's request is made on the original event and stands in load order. */
  lemma {:induction false} RequestsOnTheOriginal(st: Stage, cs: seq<Client>, data: string, k: nat)
    requires k < |cs| && (forall j | 0 <= j < |cs| :: !st.Adopts(cs[j]))
    ensures AllAsked(st, cs, data)
          == AllAsked(st, cs[..k], data) + st.Asked(cs[k], data) + AllAsked(st, cs[k + 1..], data)
  {
    AskedAround(st, cs, data, k);
    NobodyRewrites(st, cs[..k], data);
  }

  // ---------- The dispatches ----------

  datatype Dispatched = Refusal(name: string, error: string) | Untouched | Result(payload: Payload)

  const FULL_MESSAGES := "pre-step-messages"
  const TRANSFORM := "pre-step-transform"

  predicate Wants(metadata: map<string, Info>, name: string, capability: string) {
    name in metadata && Declares(metadata[name], capability)
  }

  function Wanting(cs: seq<Client>, metadata: map<string, Info>, capability: string): seq<Client> {
    if cs == [] then []
    else (if Wants(metadata, cs[0].name, capability) then [cs[0]] else []) + Wanting(cs[1..], metadata, capability)
  }

  // The suffixes a loop starts and ends with.
  lemma {:induction false} WantingEnds(cs: seq<Client>, metadata: map<string, Info>, capability: string)
    ensures cs[0..] == cs && Wanting(cs[|cs|..], metadata, capability) == []
  {
  }

  lemma {:induction false} NamedEnds(cs: seq<Client>, name: string)
    ensures cs[0..] == cs && Named(cs[|cs|..], name) == []
  {
  }

  lemma {:induction false} ViewsEnds(cs: seq<Client>, parse: string -> Option<Doc>)
    ensures cs[0..] == cs && forall msgs :: Views(cs[|cs|..], parse, msgs) == (msgs, false)
  {
  }

  lemma {:induction false} WantingStep(cs: seq<Client>, i: nat, metadata: map<string, Info>, capability: string)
    requires i < |cs|
    ensures Wanting(cs[i..], metadata, capability)
         == (if Wants(metadata, cs[i].name, capability) then [cs[i]] else [])
             + Wanting(cs[i + 1..], metadata, capability)
  {
    assert cs[i..][1..] == cs[i + 1..];
  }

  lemma {:induction false} NamedStep(cs: seq<Client>, i: nat, name: string)
    requires i < |cs|
    ensures Named(cs[i..], name) == (if cs[i].name == name then [cs[i]] else []) + Named(cs[i + 1..], name)
  {
    assert cs[i..][1..] == cs[i + 1..];
  }

  function OrChanged(view: (string, bool), changed: bool): (string, bool) {
    (view.0, changed || view.1)
  }

  lemma {:induction false} ViewsStep(cs: seq<Client>, i: nat, parse: string -> Option<Doc>, msgs: string)
    requires i < |cs|
    ensures var next := NextView(cs[i], parse, msgs);
            Views(cs[i..], parse, msgs)
            == if next.None? || next.value == msgs then Views(cs[i + 1..], parse, msgs)
               else OrChanged(Views(cs[i + 1..], parse, next.value), true)
  {
    assert cs[i..][1..] == cs[i + 1..];
  }

  function NamesOf(cs: seq<Client>): set<string> {
    set i | 0 <= i < |cs| :: cs[i].name
  }

  class Manager {
    const clients: seq<Client>
    const metadata: map<string, Info>
    const parse: string -> Option<Doc>

    /** The clients that declare a capability, in load order. */
    method SelectWanting(capability: string) returns (selected: seq<Client>)
      ensures selected == Wanting(clients, metadata, capability)
    {
      hide Wanting;
      WantingEnds(clients, metadata, capability);
      selected := [];
      var i := 0;
      while i < |clients|
        invariant 0 <= i <= |clients|
        invariant selected + Wanting(clients[i..], metadata, capability) == Wanting(clients, metadata, capability)
      {
        WantingStep(clients, i, metadata, capability);
        if Wants(metadata, clients[i].name, capability) {
          selected := selected + [clients[i]];
        }
        i := i + 1;
      }
    }

    method KeepNamed(name: string) returns (kept: seq<Client>)
      ensures kept == Named(clients, name)
    {
      hide Named;
      NamedEnds(clients, name);
      kept := [];
      var i := 0;
      while i < |clients|
        invariant 0 <= i <= |clients|
        invariant kept + Named(clients[i..], name) == Named(clients, name)
      {
        NamedStep(clients, i, name);
        if clients[i].name == name {
          kept := kept + [clients[i]];
        }
        i := i + 1;
      }
    }

    /** Applies the transforms in load order to the current view. */
    method RunProjections(transforms: seq<Client>, start: string) returns (msgs: string, changed: bool)
      ensures (msgs, changed) == Views(transforms, parse, start)
    {
      hide Views;
      ViewsEnds(transforms, parse);
      msgs, changed := start, false;
      var i := 0;
      while i < |transforms|
        invariant 0 <= i <= |transforms|
        invariant Views(transforms, parse, start) == OrChanged(Views(transforms[i..], parse, msgs), changed)
      {
        ViewsStep(transforms, i, parse, msgs);
        var next := NextView(transforms[i], parse, msgs);
        i := i + 1;
        if next.None? || next.value == msgs {
          continue;
        }
        msgs, changed := next.value, true;
      }
    }

    method ApplyProjections(eventMessages: string, result: Payload) returns (out: Payload)
      ensures out == Projected(Wanting(clients, metadata, TRANSFORM), parse, result, eventMessages)
    {
      var transforms := SelectWanting(TRANSFORM);
      hide Wanting;
      if transforms == [] {
        return result;
      }
      var msgs := if result.Parsed? && result.doc.messages.Some? then result.doc.messages.value else eventMessages;
      if msgs == "" {
        return result;
      }
      hide Views;
      var changed;
      msgs, changed := RunProjections(transforms, msgs);
      if !changed {
        return result;
      }
      return WithMessages(result, msgs);
    }

    method PreStep(holder: string, data: string, light: string, eventMessages: string) returns (out: Dispatched)
      ensures out == PreStepOutcome(clients, metadata, parse, holder, data, light, eventMessages)
    {
      if clients == [] {
        return Untouched;
      }
      var observers := SelectWanting(FULL_MESSAGES);
      var st := Stage(holder, light, NamesOf(observers), true, parse);
      var chain := new Chain(st, clients, data);
      assert clients[0..] == clients;
      var end := chain.Next(0);
      if end.Vetoed? {
        return Refusal(end.name, end.error);
      }
      var result := ApplyProjections(eventMessages, st.Decoded(end.text));
      assert chain.appends == Run(st, clients, data).appends;
      assert st == PreStepStage(clients, metadata, parse, holder, light);
      return Result(Merged(result, chain.appends));
    }

    method RequestError(holder: string, data: string) returns (out: Dispatched)
      ensures out == RequestErrorOutcome(clients, parse, holder, data)
    {
      if clients == [] {
        return Untouched;
      }
      var st := Stage(holder, "", {}, false, parse);
      if holder == "" {
        return Result(st.Decoded(data));
      }
      var kept := KeepNamed(holder);
      if kept == [] {
        return Result(st.Decoded(data));
      }
      var chain := new Chain(st, kept, data);
      var end := chain.Next(0);
      assert kept[0..] == kept;
      if end.Vetoed? {
        return Refusal(end.name, end.error);
      }
      return Result(st.Decoded(end.text));
    }
  }

  function PreStepStage(
    cs: seq<Client>, metadata: map<string, Info>, parse: string -> Option<Doc>, holder: string, light: string): Stage {
    Stage(holder, light, NamesOf(Wanting(cs, metadata, FULL_MESSAGES)), true, parse)
  }

  ghost function PreStepOutcome(cs: seq<Client>, metadata: map<string, Info>, parse: string -> Option<Doc>,
                                holder: string, data: string, light: string, eventMessages: string): Dispatched
  {
    var st := PreStepStage(cs, metadata, parse, holder, light);
    var ran := Run(st, cs, data);
    if cs == [] then Untouched
    else if ran.end.Vetoed? then Refusal(ran.end.name, ran.end.error)
    else
      Result(Merged(Projected(Wanting(cs, metadata, TRANSFORM), parse, st.Decoded(ran.end.text), eventMessages),
          ran.appends))
  }

  ghost function RequestErrorOutcome(
    cs: seq<Client>, parse: string -> Option<Doc>, holder: string, data: string): Dispatched {
    var st := Stage(holder, "", {}, false, parse);
    var ran := Run(st, Named(cs, holder), data);
    if cs == [] then Untouched
    else if holder == "" then Result(st.Decoded(data))
    else if ran.end.Vetoed? then Refusal(ran.end.name, ran.end.error)
    else Result(st.Decoded(ran.end.text))
  }

  // ---------- What the dispatches guarantee ----------

  function MessagesOf(p: Payload): Option<string> {
    if p.Parsed? then p.doc.messages else None
  }

  /** The messages delivered: those of the structural answer, or else of the event, as the transforms leave them; an
      answer without messages gets some only if a transform changed the event's. */
  function Viewed(
    transforms: seq<Client>, parse: string -> Option<Doc>, answer: Payload, eventMessages: string): Option<string> {
    var start := if MessagesOf(answer).Some? then MessagesOf(answer).value else eventMessages;
    if start != "" && Views(transforms, parse, start).1 then Some(Views(transforms, parse, start).0)
    else MessagesOf(answer)
  }

  /** Two plugin lists with the same role holder, and no veto in either, end the chain alike. */
  lemma {:induction false} OthersCannotInterfere(st: Stage, cs: seq<Client>, others: seq<Client>, data: string)
    requires Named(cs, st.holder) == Named(others, st.holder)
    requires Run(st, cs, data).end.Final? && Run(st, others, data).end.Final?
    ensures Run(st, cs, data).end == Run(st, others, data).end
  {
    HolderAlone(st, cs, data);
    HolderAlone(st, others, data);
  }

  /** The pre-step result: refused exactly when some plugin refuses its payload; otherwise the fields are those of
      the holder's answer to the original event, and every plugin's requests are appended. */
  lemma {:induction false} PreStepResult(cs: seq<Client>, metadata: map<string, Info>, parse: string -> Option<Doc>,
                                         holder: string, data: string, light: string, eventMessages: string)
    requires cs != [] && DistinctNames(cs)
    ensures var st := PreStepStage(cs, metadata, parse, holder, light);
            var out := PreStepOutcome(cs, metadata, parse, holder, data, light, eventMessages);
            var answer := st.Decoded(HolderAnswer(st, cs, data));
            && !out.Untouched? && (out.Refusal? <==> exists i: nat :: Refuses(st, cs, data, i))
            && (out.Result? ==> Appends(out.payload) == Appends(answer) + AllAsked(st, cs, data))
            && (out.Result? && answer.Parsed? ==> out.payload.Parsed? && out.payload.doc.fields == answer.doc.fields)
            && (out.Result? ==>
                 MessagesOf(out.payload)
                 == Viewed(Wanting(cs, metadata, "pre-step-transform"), parse, answer, eventMessages))
  {
    var st := PreStepStage(cs, metadata, parse, holder, light);
    VetoExactly(st, cs, data);
    var ran := Run(st, cs, data);
    if ran.end.Final? {
      FinalCourse(st, cs, data);
      OutcomeIsHolders(st, cs, data);
      var transforms := Wanting(cs, metadata, TRANSFORM);
      var answer := st.Decoded(ran.end.text);
      ProjectionKeepsRest(transforms, parse, answer, eventMessages);
      MergedKeepsFields(Projected(transforms, parse, answer, eventMessages), ran.appends);
    }
  }

  lemma {:induction false} MergedKeepsFields(p: Payload, items: seq<string>)
    ensures Appends(Merged(p, items)) == Appends(p) + items
    ensures p.Parsed? ==> Merged(p, items).Parsed? && Merged(p, items).doc.fields == p.doc.fields
    ensures MessagesOf(Merged(p, items)) == MessagesOf(p)
  {
  }

  /** Sending request-error to the holder alone decides as a broadcast without a veto would. */
  lemma {:induction false} RequestErrorAsBroadcast(
    cs: seq<Client>, parse: string -> Option<Doc>, holder: string, data: string)
    requires cs != [] && Run(Stage(holder, "", {}, false, parse), cs, data).end.Final?
    ensures var st := Stage(holder, "", {}, false, parse);
            RequestErrorOutcome(cs, parse, holder, data) == Result(st.Decoded(Run(st, cs, data).end.text))
  {
    var st := Stage(holder, "", {}, false, parse);
    HolderAlone(st, cs, data);
    if holder == "" {
      FinalCourse(st, cs, data);
      NobodyRewrites(st, cs, data);
    }
  }
}
