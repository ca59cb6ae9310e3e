/** What the tool-call repair makes of a list, told by the list alone. */
module PairingMeaning {
  import opened Messages
  import opened Pairing
  import opened PairingLaws

  // ---------- The messages that are no results ----------

  /** What is left of one message: nothing of a tool message, an answered part of a calling one, any other as it is.
      A calling message that keeps all its calls is the original; otherwise it is a copy without the message id. */
  ghost function Survivor(m: Message, all: seq<Message>): seq<Message> {
    if m.role.Tool? then []
    else if !m.role.Assistant? || m.toolCalls == [] then [m]
    else
      var kept := AnswerableCalls(m.toolCalls, all);
      if kept == [] && Blank(m.content) then []
      else if forall c | c in m.toolCalls :: Answerable(all, c.id) then [m]
      else [m.(id := "", toolCalls := kept)]
  }

  ghost function Survivors(msgs: seq<Message>, all: seq<Message>): seq<Message> {
    if msgs == [] then [] else Survivor(msgs[0], all) + Survivors(msgs[1..], all)
  }

  /** A call survives as often as it was made if some tool message answers it, and not at all otherwise. */
  lemma {:induction false} AnswerableCallsAre(calls: seq<ToolCall>, msgs: seq<Message>)
    ensures SubCalls(AnswerableCalls(calls, msgs), calls)
    ensures forall c :: multiset(AnswerableCalls(calls, msgs))[c]
                        == if Answerable(msgs, c.id) then multiset(calls)[c] else 0
  {
    if calls != [] {
      var rest := AnswerableCalls(calls[1..], msgs);
      AnswerableCallsAre(calls[1..], msgs);
      assert calls == [calls[0]] + calls[1..];
      if Answerable(msgs, calls[0].id) {
        assert AnswerableCalls(calls, msgs) == [calls[0]] + rest;
        assert multiset([calls[0]] + rest) == multiset([calls[0]]) + multiset(rest);
      } else {
        assert AnswerableCalls(calls, msgs) == rest;
      }
    }
  }

  lemma {:induction false} AllAnswered(calls: seq<ToolCall>, msgs: seq<Message>)
    ensures |AnswerableCalls(calls, msgs)| <= |calls|
    ensures (forall c | c in calls :: Answerable(msgs, c.id)) <==> |AnswerableCalls(calls, msgs)| == |calls|
  {
    if calls != [] {
      AllAnswered(calls[1..], msgs);
      assert calls == [calls[0]] + calls[1..];
    }
  }

  lemma {:induction false} SurvivorOf(m: Message, all: seq<Message>, used: set<string>)
    ensures NonTools(Piece(m, ResultIndex(all), used)) == Survivor(m, all)
  {
    var results := ResultIndex(all);
    ResultIndexEntries(all);
    KeptAreAnswerable(m, all);
    AllAnswered(m.toolCalls, all);
    hide ResultIndex, Answerable, AnswerableCalls, Claimed, Blank;
    if CallsTools(m) {
      var kept := KeptCalls(m, results);
      ClaimedTools(kept, results, used);
      ResultsAreTools(Claimed(kept, results, used));
      NonToolsAppend(Remainder(m, kept), Claimed(kept, results, used));
    }
  }

  lemma {:induction false} SurvivorsOf(msgs: seq<Message>, all: seq<Message>, used: set<string>)
    ensures NonTools(Rebuilt(msgs, ResultIndex(all), used)) == Survivors(msgs, all)
  {
    if msgs != [] {
      var results := ResultIndex(all);
      var used' := used + Ids(KeptCalls(msgs[0], results));
      SurvivorsOf(msgs[1..], all, used');
      SurvivorOf(msgs[0], all, used);
      hide Piece, Survivor, KeptCalls;
      NonToolsAppend(Piece(msgs[0], results, used), Rebuilt(msgs[1..], results, used'));
    }
  }

  // ---------- The results ----------

  /** The first tool message of the list that answers the id. */
  ghost predicate IsFirstResult(r: Message, msgs: seq<Message>, id: string) {
    exists i :: 0 <= i < |msgs| && msgs[i] == r && Names(r, id) && forall j | 0 <= j < i :: !Names(msgs[j], id)
  }

  predicate Names(r: Message, id: string) {
    r.role.Tool? && r.toolCallId == id
  }

  lemma {:induction false} IndexedIsFirst(msgs: seq<Message>, id: string)
    requires id in ResultIndex(msgs)
    ensures IsFirstResult(ResultIndex(msgs)[id], msgs, id)
  {
    ResultIndexEntries(msgs);
    if Names(msgs[0], id) {
      assert id != "";
    } else {
      var rest := msgs[1..];
      IndexedIsFirst(rest, id);
      var r := ResultIndex(msgs)[id];
      var i :| 0 <= i < |rest| && rest[i] == r && Names(r, id) && forall j | 0 <= j < i :: !Names(rest[j], id);
      assert msgs[i + 1] == r;
      assert forall j | 0 < j < i + 1 :: msgs[j] == rest[j - 1];
    }
  }

  lemma {:induction false} FirstIsUnique(r: Message, r': Message, msgs: seq<Message>, id: string)
    requires IsFirstResult(r, msgs, id) && IsFirstResult(r', msgs, id)
    ensures r == r'
  {
  }

  ghost predicate FirstResultsOnly(out: seq<Message>, msgs: seq<Message>) {
    forall k | 0 <= k < |out| && out[k].role.Tool? :: IsFirstResult(out[k], msgs, out[k].toolCallId)
  }

  lemma {:induction false} ClaimedAreFirst(kept: seq<ToolCall>, msgs: seq<Message>, used: set<string>)
    requires Answered(kept, ResultIndex(msgs))
    ensures FirstResultsOnly(Claimed(kept, ResultIndex(msgs), used), msgs)
  {
    if kept != [] {
      var id := kept[0].id;
      ResultIndexEntries(msgs);
      IndexedIsFirst(msgs, id);
      ClaimedAreFirst(kept[1..], msgs, if id in used then used else used + {id});
    }
  }

  lemma {:induction false} RebuiltFirst(msgs: seq<Message>, all: seq<Message>, used: set<string>)
    ensures FirstResultsOnly(Rebuilt(msgs, ResultIndex(all), used), all)
  {
    if msgs != [] {
      var results := ResultIndex(all);
      var kept := KeptCalls(msgs[0], results);
      RebuiltFirst(msgs[1..], all, used + Ids(kept));
      ClaimedAreFirst(kept, all, used);
      hide IsFirstResult;
    }
  }

  // ---------- Where they stand ----------

  /** The ids the calls make for the first time, in order. */
  ghost function NewIds(calls: seq<ToolCall>, used: set<string>): seq<string> {
    if calls == [] then []
    else if calls[0].id in used then NewIds(calls[1..], used)
    else [calls[0].id] + NewIds(calls[1..], used + {calls[0].id})
  }

  ghost predicate StandsFor(block: seq<Message>, ids: seq<string>) {
    |block| == |ids| && forall k | 0 <= k < |ids| :: Names(block[k], ids[k])
  }

  function CallsOf(m: Message): seq<ToolCall> {
    if m.role.Assistant? then m.toolCalls else []
  }

  /** Behind every message stand the results of the calls it is the first to make, in order, and nothing else stands
      for a tool. */
  ghost predicate InBlocks(out: seq<Message>, used: set<string>) {
    if out == [] then true
    else if out[0].role.Tool? then false
    else
      var calls := CallsOf(out[0]);
      var n := |NewIds(calls, used)|;
      n < |out| && StandsFor(out[1..n + 1], NewIds(calls, used)) && InBlocks(out[n + 1..], used + Ids(calls))
  }

  lemma {:induction false} ClaimedStand(kept: seq<ToolCall>, results: Results, used: set<string>)
    requires Answered(kept, results) && WellKeyed(results)
    ensures StandsFor(Claimed(kept, results, used), NewIds(kept, used))
  {
    if kept != [] {
      ClaimedStand(kept[1..], results, if kept[0].id in used then used else used + {kept[0].id});
    }
  }

  lemma {:induction false} BlockAhead(first: Message, block: seq<Message>, rest: seq<Message>, used: set<string>)
    requires !first.role.Tool?
    requires StandsFor(block, NewIds(CallsOf(first), used)) && InBlocks(rest, used + Ids(CallsOf(first)))
    ensures InBlocks([first] + block + rest, used)
  {
    var out, n := [first] + block + rest, |block|;
    assert out[0] == first && out[1..n + 1] == block && out[n + 1..] == rest;
  }

  lemma {:induction false} PieceInBlocks(m: Message, results: Results, used: set<string>, rest: seq<Message>)
    requires WellKeyed(results) && InBlocks(rest, used + Ids(KeptCalls(m, results)))
    ensures InBlocks(Piece(m, results, used) + rest, used)
  {
    var kept := KeptCalls(m, results);
    assert used + Ids([]) == used;
    if m.role.Tool? {
      assert Piece(m, results, used) + rest == rest;
    } else if !CallsTools(m) {
      BlockAhead(m, [], rest, used);
      assert Piece(m, results, used) + rest == [m] + [] + rest;
    } else if kept == [] && Blank(m.content) {
      assert Piece(m, results, used) + rest == rest;
    } else {
      FullyKept(m.toolCalls, results);
      var first := Remainder(m, kept)[0];
      assert first.role.Assistant? && first.toolCalls == kept;
      ClaimedStand(kept, results, used);
      BlockAhead(first, Claimed(kept, results, used), rest, used);
      assert Piece(m, results, used) + rest == [first] + Claimed(kept, results, used) + rest;
    }
  }

  lemma {:induction false} RebuiltInBlocks(msgs: seq<Message>, results: Results, used: set<string>)
    requires WellKeyed(results)
    ensures InBlocks(Rebuilt(msgs, results, used), used)
  {
    if msgs != [] {
      var used' := used + Ids(KeptCalls(msgs[0], results));
      RebuiltInBlocks(msgs[1..], results, used');
      PieceInBlocks(msgs[0], results, used, Rebuilt(msgs[1..], results, used'));
    }
  }

  // ---------- The repair, exactly ----------

  /** The list is what the repair should make of `msgs`. */
  ghost predicate IsRepaired(out: seq<Message>, msgs: seq<Message>) {
    NonTools(out) == Survivors(msgs, msgs) && FirstResultsOnly(out, msgs) && InBlocks(out, {})
  }

  lemma {:induction false} BehindBlock(a: seq<Message>, msgs: seq<Message>, used: set<string>)
    requires a != [] && InBlocks(a, used) && FirstResultsOnly(a, msgs)
    ensures var n := |NewIds(CallsOf(a[0]), used)|;
            n < |a| && InBlocks(a[n + 1..], used + Ids(CallsOf(a[0]))) && FirstResultsOnly(a[n + 1..], msgs)
  {
  }

  // Lists in blocks are determined by their other messages and by what stands for each id.
  lemma {:induction false} BlocksDetermine(a: seq<Message>, b: seq<Message>, msgs: seq<Message>, used: set<string>)
    requires InBlocks(a, used) && InBlocks(b, used) && NonTools(a) == NonTools(b)
    requires FirstResultsOnly(a, msgs) && FirstResultsOnly(b, msgs)
    ensures a == b
    decreases |a|
  {
    hide *;
    FirstOfBlocks(a, used);
    FirstOfBlocks(b, used);
    if a != [] && b != [] {
      BehindBlock(a, msgs, used);
      BehindBlock(b, msgs, used);
      var calls := CallsOf(a[0]);
      var n := |NewIds(calls, used)|;
      var restA, restB := NonTools(a[n + 1..]), NonTools(b[|NewIds(CallsOf(b[0]), used)| + 1..]);
      assert ([a[0]] + restA)[0] == ([b[0]] + restB)[0];
      assert a[0] == b[0];
      assert ([a[0]] + restA)[1..] == restA && ([b[0]] + restB)[1..] == restB;
      SameBlock(a, b, msgs, used);
      BlocksDetermine(a[n + 1..], b[n + 1..], msgs, used + Ids(calls));
      assert a == a[..n + 1] + a[n + 1..] && b == b[..n + 1] + b[n + 1..];
    }
  }

  // Behind equal messages stand equal blocks.
  lemma {:induction false} SameBlock(a: seq<Message>, b: seq<Message>, msgs: seq<Message>, used: set<string>)
    requires a != [] && b != [] && a[0] == b[0] && InBlocks(a, used) && InBlocks(b, used)
    requires FirstResultsOnly(a, msgs) && FirstResultsOnly(b, msgs)
    ensures var n := |NewIds(CallsOf(a[0]), used)|; n < |a| && n < |b| && a[..n + 1] == b[..n + 1]
  {
    var ids := NewIds(CallsOf(a[0]), used);
    var n := |ids|;
    forall k | 0 < k < n + 1
      ensures a[k] == b[k]
    {
      assert Names(a[1..n + 1][k - 1], ids[k - 1]) && Names(b[1..n + 1][k - 1], ids[k - 1]);
      FirstIsUnique(a[k], b[k], msgs, a[k].toolCallId);
    }
  }

  lemma {:induction false} FirstOfBlocks(a: seq<Message>, used: set<string>)
    requires InBlocks(a, used)
    ensures a == [] <==> NonTools(a) == []
    ensures a != [] ==> |NewIds(CallsOf(a[0]), used)| < |a|
    ensures a != [] ==> NonTools(a) == [a[0]] + NonTools(a[|NewIds(CallsOf(a[0]), used)| + 1..])
  {
    if a != [] {
      FirstBlock(a, used);
      hide *;
      var ids := NewIds(CallsOf(a[0]), used);
      var block, rest := a[1..|ids| + 1], a[|ids| + 1..];
      BlockIsTools(block, ids);
      NonToolsAppend(block, rest);
      NonToolsFirst(a[0], block + rest);
    }
  }

  lemma {:induction false} FirstBlock(a: seq<Message>, used: set<string>)
    requires a != [] && InBlocks(a, used)
    ensures var ids := NewIds(CallsOf(a[0]), used);
            && |ids| < |a| && !a[0].role.Tool? && StandsFor(a[1..|ids| + 1], ids)
            && a == [a[0]] + (a[1..|ids| + 1] + a[|ids| + 1..])
  {
  }

  lemma {:induction false} NonToolsFirst(m: Message, rest: seq<Message>)
    requires !m.role.Tool?
    ensures NonTools([m] + rest) == [m] + NonTools(rest)
  {
    assert ([m] + rest)[1..] == rest;
  }

  lemma {:induction false} BlockIsTools(block: seq<Message>, ids: seq<string>)
    requires StandsFor(block, ids)
    ensures NonTools(block) == []
  {
    assert forall k | 0 <= k < |ids| :: Names(block[k], ids[k]);
    ResultsAreTools(block);
  }

  /** A list is the repaired one if and only if its other messages are the survivors in order, each tool message is the
      first answer to its id, and the answers stand behind the first message that calls for them, in declared order. */
  lemma {:induction false} RepairedExactly(msgs: seq<Message>, out: seq<Message>)
    ensures out == Sanitized(msgs) <==> IsRepaired(out, msgs)
  {
    ResultIndexEntries(msgs);
    SurvivorsOf(msgs, msgs, {});
    RebuiltFirst(msgs, msgs, {});
    RebuiltInBlocks(msgs, ResultIndex(msgs), {});
    if IsRepaired(out, msgs) {
      BlocksDetermine(out, Sanitized(msgs), msgs, {});
    }
  }

  /** The first answer to every answered call is in the repaired list. */
  lemma {:induction false} AnswersAreKept(msgs: seq<Message>, i: nat, c: ToolCall)
    requires i < |msgs| && msgs[i].role.Assistant? && c in msgs[i].toolCalls && Answerable(msgs, c.id)
    ensures exists r :: r in Sanitized(msgs) && IsFirstResult(r, msgs, c.id)
  {
    var results := ResultIndex(msgs);
    ResultIndexEntries(msgs);
    IndexedIsAnswerable(msgs, c.id);
    CallIsKept(msgs[i].toolCalls, msgs, c);
    KeptAreAnswerable(msgs[i], msgs);
    ClaimedOnce(msgs, i, results, c.id);
    IndexOfRebuilt(msgs, results, {});
    ResultIndexEntries(Sanitized(msgs));
    IndexedIsFirst(msgs, c.id);
    assert ResultIndex(Sanitized(msgs))[c.id] == results[c.id];
  }

  lemma {:induction false} CallIsKept(calls: seq<ToolCall>, msgs: seq<Message>, c: ToolCall)
    requires c in calls && Answerable(msgs, c.id)
    ensures c.id in Ids(AnswerableCalls(calls, msgs))
  {
    var rest := AnswerableCalls(calls[1..], msgs);
    assert ([calls[0]] + rest)[1..] == rest && [] + rest == rest;
    if calls[0] != c {
      CallIsKept(calls[1..], msgs, c);
    }
  }

  lemma {:induction false} ClaimedOnce(msgs: seq<Message>, i: nat, results: Results, id: string)
    requires i < |msgs| && id in Ids(KeptCalls(msgs[i], results))
    ensures id in ClaimIds(msgs, results)
  {
    if i > 0 {
      ClaimedOnce(msgs[1..], i - 1, results, id);
    }
  }

  // ---------- What is counted as dropped ----------

  /** The ids that are called and answered. */
  ghost function AnsweredIds(msgs: seq<Message>, all: seq<Message>): set<string> {
    if msgs == [] then {} else Ids(Surviving(msgs[0], all)) + AnsweredIds(msgs[1..], all)
  }

  lemma {:induction false} AnsweredIdsAre(msgs: seq<Message>, all: seq<Message>)
    ensures ClaimIds(msgs, ResultIndex(all)) == AnsweredIds(msgs, all)
  {
    if msgs != [] {
      KeptAreAnswerable(msgs[0], all);
      AnsweredIdsAre(msgs[1..], all);
    }
  }

  /** The drop count: the calls nobody answers, and the answers beyond one for each answered id. */
  lemma {:induction false} DroppedExactly(msgs: seq<Message>)
    ensures Lost(msgs, Sanitized(msgs))
         == UnansweredCalls(msgs, msgs) + ResultCount(msgs) - |AnsweredIds(msgs, msgs)|
  {
    var results := ResultIndex(msgs);
    ResultIndexEntries(msgs);
    Balance(msgs, results, {});
    UnansweredAre(msgs, msgs);
    ResultsOut(msgs, results, {});
    AnsweredIdsAre(msgs, msgs);
    assert {} + ClaimIds(msgs, results) == ClaimIds(msgs, results);
  }
}
