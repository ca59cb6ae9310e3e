/** core/llm_pairing.go: making tool calls and tool results match before a request is sent. */
module Pairing {
  import opened Messages

  /** Tool results by the id of their call. */
  type Results = map<string, Message>

  // ---------- What the repair computes ----------

  /** Results by call id; of several results for one call the first is kept. */
  function ResultIndex(msgs: seq<Message>): Results {
    if msgs == [] then map[]
    else
      var rest := ResultIndex(msgs[1..]);
      if IsResult(msgs[0]) then rest[msgs[0].toolCallId := msgs[0]] else rest
  }

  /** The calls that have a result, in declared order. */
  function Resolved(calls: seq<ToolCall>, results: Results): (kept: seq<ToolCall>)
    ensures |kept| <= |calls|
    ensures Answered(kept, results) && forall j | 0 <= j < |kept| :: kept[j].id != ""
  {
    if calls == [] then []
    else if calls[0].id != "" && calls[0].id in results then [calls[0]] + Resolved(calls[1..], results)
    else Resolved(calls[1..], results)
  }

  predicate Answered(calls: seq<ToolCall>, results: Results) {
    forall j | 0 <= j < |calls| :: calls[j].id in results
  }

  function Ids(calls: seq<ToolCall>): set<string> {
    if calls == [] then {} else {calls[0].id} + Ids(calls[1..])
  }

  lemma {:induction false} IdsContain(calls: seq<ToolCall>, j: nat)
    requires j < |calls|
    ensures calls[j].id in Ids(calls)
  {
    if j > 0 {
      IdsContain(calls[1..], j - 1);
    }
  }

  /** The results of `kept` that were not given out before. */
  function Claimed(kept: seq<ToolCall>, results: Results, used: set<string>): (claimed: seq<Message>)
    requires Answered(kept, results)
    ensures |claimed| <= |kept|
  {
    if kept == [] then []
    else if kept[0].id in used then Claimed(kept[1..], results, used)
    else [results[kept[0].id]] + Claimed(kept[1..], results, used + {kept[0].id})
  }

  /** A field-by-field copy with other calls; the stable message id is not copied. */
  function WithCalls(m: Message, calls: seq<ToolCall>): Message {
    Message("", m.role, m.content, m.toolCallId, calls, m.images)
  }

  /** What is left of a calling message: itself, a copy with fewer calls, or nothing. */
  function Remainder(m: Message, kept: seq<ToolCall>): seq<Message> {
    if kept == [] then (if Blank(m.content) then [] else [WithCalls(m, [])])
    else if |kept| == |m.toolCalls| then [m]
    else [WithCalls(m, kept)]
  }

  /** The calls of a message that survive; empty unless it is an assistant message with calls. */
  function KeptCalls(m: Message, results: Results): (kept: seq<ToolCall>)
    ensures Answered(kept, results)
  {
    if CallsTools(m) then Resolved(m.toolCalls, results) else []
  }

  /** What one message contributes to the output. */
  function Piece(m: Message, results: Results, used: set<string>): seq<Message> {
    if m.role.Tool? then []
    else if CallsTools(m) then Remainder(m, KeptCalls(m, results)) + Claimed(KeptCalls(m, results), results, used)
    else [m]
  }

  function Rebuilt(msgs: seq<Message>, results: Results, used: set<string>): seq<Message> {
    if msgs == [] then []
    else Piece(msgs[0], results, used) + Rebuilt(msgs[1..], results, used + Ids(KeptCalls(msgs[0], results)))
  }

  function Sanitized(msgs: seq<Message>): seq<Message> {
    Rebuilt(msgs, ResultIndex(msgs), {})
  }

  // ---------- Counting ----------

  function ResultCount(msgs: seq<Message>): nat {
    if msgs == [] then 0 else (if IsResult(msgs[0]) then 1 else 0) + ResultCount(msgs[1..])
  }

  function ToolCount(msgs: seq<Message>): nat {
    if msgs == [] then 0 else (if msgs[0].role.Tool? then 1 else 0) + ToolCount(msgs[1..])
  }

  function CallCount(msgs: seq<Message>): nat {
    if msgs == [] then 0 else (if CallsTools(msgs[0]) then |msgs[0].toolCalls| else 0) + CallCount(msgs[1..])
  }

  /** Results that left the list plus calls that left the list. */
  function Lost(msgs: seq<Message>, out: seq<Message>): int {
    (ResultCount(msgs) - ToolCount(out)) + (CallCount(msgs) - CallCount(out))
  }

  lemma {:induction false} CountsAppend(a: seq<Message>, b: seq<Message>)
    ensures ResultCount(a + b) == ResultCount(a) + ResultCount(b)
    ensures ToolCount(a + b) == ToolCount(a) + ToolCount(b)
    ensures CallCount(a + b) == CallCount(a) + CallCount(b)
  {
    if a == [] {
      assert a + b == b;
    } else {
      assert (a + b)[1..] == a[1..] + b;
      CountsAppend(a[1..], b);
    }
  }

  // ---------- The result index ----------

  lemma {:induction false} ResultIndexAppend(a: seq<Message>, b: seq<Message>)
    ensures ResultIndex(a + b) == ResultIndex(b) + ResultIndex(a)
  {
    if a == [] {
      assert a + b == b;
    } else {
      assert (a + b)[1..] == a[1..] + b;
      ResultIndexAppend(a[1..], b);
    }
  }

  lemma {:induction false} ResultIndexEntries(msgs: seq<Message>)
    ensures forall id | id in ResultIndex(msgs) ::
              IsResult(ResultIndex(msgs)[id]) && ResultIndex(msgs)[id].toolCallId == id && ResultIndex(msgs)[id] in msgs
    ensures forall m | m in msgs && IsResult(m) :: m.toolCallId in ResultIndex(msgs)
  {
    if msgs != [] {
      ResultIndexEntries(msgs[1..]);
      assert msgs == [msgs[0]] + msgs[1..];
    }
  }

  /** Every entry is a result carrying its own key. */
  ghost predicate WellKeyed(results: Results) {
    forall id | id in results :: IsResult(results[id]) && results[id].toolCallId == id
  }

  lemma {:induction false} IndexStep(msgs: seq<Message>, i: nat)
    requires i < |msgs|
    ensures ResultIndex(msgs[..i + 1])
         == if IsResult(msgs[i]) && msgs[i].toolCallId !in ResultIndex(msgs[..i])
            then ResultIndex(msgs[..i])[msgs[i].toolCallId := msgs[i]] else ResultIndex(msgs[..i])
    ensures ResultCount(msgs[..i + 1]) == ResultCount(msgs[..i]) + if IsResult(msgs[i]) then 1 else 0
  {
    assert msgs[..i + 1] == msgs[..i] + [msgs[i]];
    ResultIndexAppend(msgs[..i], [msgs[i]]);
    CountsAppend(msgs[..i], [msgs[i]]);
  }

  // ---------- Which calls survive ----------

  /** Some tool message answers a call of this id. */
  ghost predicate Answerable(msgs: seq<Message>, id: string) {
    id != "" && exists r :: r in msgs && r.role.Tool? && r.toolCallId == id
  }

  /** The calls of a message that some tool message of the list answers, in declared order. */
  ghost function AnswerableCalls(calls: seq<ToolCall>, msgs: seq<Message>): seq<ToolCall> {
    if calls == [] then []
    else (if Answerable(msgs, calls[0].id) then [calls[0]] else []) + AnswerableCalls(calls[1..], msgs)
  }

  ghost function Surviving(m: Message, msgs: seq<Message>): seq<ToolCall> {
    if m.role.Assistant? then AnswerableCalls(m.toolCalls, msgs) else []
  }

  lemma {:induction false} IndexedIsAnswerable(msgs: seq<Message>, id: string)
    ensures id != "" && id in ResultIndex(msgs) <==> Answerable(msgs, id)
  {
    ResultIndexEntries(msgs);
  }

  lemma {:induction false} ResolvedAreAnswerable(calls: seq<ToolCall>, msgs: seq<Message>)
    ensures Resolved(calls, ResultIndex(msgs)) == AnswerableCalls(calls, msgs)
  {
    if calls != [] {
      IndexedIsAnswerable(msgs, calls[0].id);
      ResolvedAreAnswerable(calls[1..], msgs);
    }
  }

  /** The calls the repair keeps of a message are exactly those some tool message answers. */
  lemma {:induction false} KeptAreAnswerable(m: Message, msgs: seq<Message>)
    ensures KeptCalls(m, ResultIndex(msgs)) == Surviving(m, msgs)
  {
    ResolvedAreAnswerable(m.toolCalls, msgs);
  }

  // ---------- The imperative repair ----------

  method HasToolTraffic(msgs: seq<Message>) returns (traffic: bool)
    ensures traffic <==> exists i | 0 <= i < |msgs| :: !Bystander(msgs[i])
  {
    for i := 0 to |msgs|
      invariant forall k | 0 <= k < i :: Bystander(msgs[k])
    {
      if msgs[i].role.Tool? {
        assert !Bystander(msgs[i]);
        return true;
      }
      if msgs[i].role.Assistant? && |msgs[i].toolCalls| > 0 {
        assert !Bystander(msgs[i]);
        return true;
      }
    }
    return false;
  }

  method IndexResults(msgs: seq<Message>) returns (results: Results, duplicates: int)
    ensures results == ResultIndex(msgs)
    ensures duplicates == ResultCount(msgs) - |results|
  {
    results, duplicates := map[], 0;
    for i := 0 to |msgs|
      invariant results == ResultIndex(msgs[..i])
      invariant duplicates == ResultCount(msgs[..i]) - |results|
    {
      var m := msgs[i];
      IndexStep(msgs, i);
      if !m.role.Tool? || m.toolCallId == "" {
        continue;
      }
      if m.toolCallId in results {
        duplicates := duplicates + 1;
        continue;
      }
      results := results[m.toolCallId := m];
    }
    assert msgs[..|msgs|] == msgs;
  }

  method KeepResolved(calls: seq<ToolCall>, results: Results) returns (kept: seq<ToolCall>, unresolved: int)
    ensures kept == Resolved(calls, results)
    ensures unresolved == |calls| - |kept|
  {
    kept, unresolved := [], 0;
    for j := 0 to |calls|
      invariant kept + Resolved(calls[j..], results) == Resolved(calls, results)
      invariant unresolved == j - |kept|
    {
      assert calls[j..][1..] == calls[j + 1..];
      if calls[j].id != "" && calls[j].id in results {
        kept := kept + [calls[j]];
        continue;
      }
      unresolved := unresolved + 1;
    }
  }

  /** The innermost loop: each kept call brings its result along once. */
  method GiveOut(kept: seq<ToolCall>, results: Results, used0: set<string>)
    returns (used: set<string>, given: seq<Message>)
    requires Answered(kept, results)
    ensures used == used0 + Ids(kept)
    ensures given == Claimed(kept, results, used0)
    ensures |given| == |used| - |used0|
  {
    used, given := used0, [];
    for k := 0 to |kept|
      invariant used + Ids(kept[k..]) == used0 + Ids(kept)
      invariant given + Claimed(kept[k..], results, used) == Claimed(kept, results, used0)
      invariant |given| == |used| - |used0|
    {
      GiveOutStep(kept, k, results, used, given);
      if kept[k].id in used {
        continue;
      }
      used := used + {kept[k].id};
      given := given + [results[kept[k].id]];
    }
  }

  lemma {:induction false} GiveOutStep(
    kept: seq<ToolCall>, k: nat, results: Results, used: set<string>, given: seq<Message>)
    requires k < |kept| && Answered(kept, results)
    ensures used + Ids(kept[k..]) == (if kept[k].id in used then used else used + {kept[k].id}) + Ids(kept[k + 1..])
    ensures given + Claimed(kept[k..], results, used)
         == if kept[k].id in used then given + Claimed(kept[k + 1..], results, used)
            else (given + [results[kept[k].id]]) + Claimed(kept[k + 1..], results, used + {kept[k].id})
  {
    assert kept[k..][1..] == kept[k + 1..];
  }

  /** One turn of the repair loop. */
  method RepairOne(m: Message, results: Results, used0: set<string>)
    returns (used: set<string>, piece: seq<Message>, lost: int)
    requires WellKeyed(results)
    ensures piece == Piece(m, results, used0)
    ensures used == used0 + Ids(KeptCalls(m, results))
    ensures ToolCount(piece) == |used| - |used0|
    ensures lost == CallCount([m]) - CallCount(piece)
  {
    PieceCounts(m, results, used0);
    used, piece, lost := used0, [], 0;
    if m.role.Tool? {
      return;
    }
    if m.role.Assistant? && |m.toolCalls| > 0 {
      var kept;
      kept, lost := KeepResolved(m.toolCalls, results);
      if |kept| == 0 {
        if !Blank(m.content) {
          piece := [WithCalls(m, [])];
        }
        return;
      }
      piece := if |kept| == |m.toolCalls| then [m] else [WithCalls(m, kept)];
      var given;
      used, given := GiveOut(kept, results, used);
      piece := piece + given;
    } else {
      piece := [m];
    }
  }

  method RepairAll(msgs: seq<Message>, results: Results) returns (out: seq<Message>, used: set<string>, lost: int)
    requires WellKeyed(results)
    ensures out == Rebuilt(msgs, results, {})
    ensures ToolCount(out) == |used|
    ensures lost == CallCount(msgs) - CallCount(out)
  {
    used, out, lost := {}, [], 0;
    for i := 0 to |msgs|
      invariant out + Rebuilt(msgs[i..], results, used) == Rebuilt(msgs, results, {})
      invariant ToolCount(out) == |used|
      invariant lost + CallCount(msgs[i..]) + CallCount(out) == CallCount(msgs)
    {
      RebuiltStep(msgs, i, results, used, out);
      var piece, lostHere;
      used, piece, lostHere := RepairOne(msgs[i], results, used);
      out := out + piece;
      lost := lost + lostHere;
    }
  }

  /** Repairs the pairing; `dropped` counts the results and the calls that left the list. */
  method SanitizeToolPairing(msgs: seq<Message>) returns (out: seq<Message>, dropped: int)
    ensures out == Sanitized(msgs)
    ensures dropped == Lost(msgs, out)
  {
    var traffic := HasToolTraffic(msgs);
    if !traffic {
      BystandersStay(msgs, map[], {});
      BystandersHaveNoIndex(msgs);
      return msgs, 0;
    }
    var results, duplicates := IndexResults(msgs);
    ResultIndexEntries(msgs);
    var used, lost;
    out, used, lost := RepairAll(msgs, results);
    dropped := duplicates + lost + (|results| - |used|);
  }

  lemma {:induction false} RebuiltStep(
    msgs: seq<Message>, i: nat, results: Results, used: set<string>, out: seq<Message>)
    requires i < |msgs|
    ensures var piece := Piece(msgs[i], results, used);
            && out + Rebuilt(msgs[i..], results, used)
               == (out + piece) + Rebuilt(msgs[i + 1..], results, used + Ids(KeptCalls(msgs[i], results)))
            && ToolCount(out + piece) == ToolCount(out) + ToolCount(piece)
            && CallCount(out + piece) == CallCount(out) + CallCount(piece)
            && CallCount(msgs[i..]) == CallCount([msgs[i]]) + CallCount(msgs[i + 1..])
  {
    hide Piece, KeptCalls, ToolCount, ResultCount;
    assert msgs[i..][1..] == msgs[i + 1..];
    CountsAppend(out, Piece(msgs[i], results, used));
  }

  lemma {:induction false} PieceCounts(m: Message, results: Results, used: set<string>)
    requires WellKeyed(results)
    ensures var kept := KeptCalls(m, results);
            && ToolCount(Piece(m, results, used)) == ResultCount(Piece(m, results, used))
                 == |Claimed(kept, results, used)|
            && CallCount(Piece(m, results, used)) == |kept|
  {
    if CallsTools(m) {
      var kept := KeptCalls(m, results);
      RemainderCounts(m, kept);
      ClaimedAreResults(kept, results, used);
      CountsAppend(Remainder(m, kept), Claimed(kept, results, used));
    }
  }

  lemma {:induction false} RemainderCounts(m: Message, kept: seq<ToolCall>)
    requires m.role.Assistant?
    ensures CallCount(Remainder(m, kept)) == |kept|
    ensures ToolCount(Remainder(m, kept)) == ResultCount(Remainder(m, kept)) == 0
  {
  }

  // ---------- Lists without tool traffic ----------

  lemma {:induction false} BystandersStay(msgs: seq<Message>, results: Results, used: set<string>)
    requires forall k | 0 <= k < |msgs| :: Bystander(msgs[k])
    ensures Rebuilt(msgs, results, used) == msgs
    ensures ToolCount(msgs) == 0 && ResultCount(msgs) == 0
  {
    if msgs != [] {
      assert msgs[0] in msgs;
      assert msgs == [msgs[0]] + msgs[1..];
      assert used + Ids(KeptCalls(msgs[0], results)) == used;
      BystandersStay(msgs[1..], results, used);
    }
  }

  lemma {:induction false} BystandersHaveNoIndex(msgs: seq<Message>)
    requires forall k | 0 <= k < |msgs| :: Bystander(msgs[k])
    ensures ResultIndex(msgs) == map[]
  {
    if msgs != [] {
      assert msgs[0] in msgs;
      BystandersHaveNoIndex(msgs[1..]);
    }
  }

  // ---------- Blocks of tool results ----------

  lemma {:induction false} ClaimedAreResults(kept: seq<ToolCall>, results: Results, used: set<string>)
    requires WellKeyed(results) && Answered(kept, results)
    ensures var claimed := Claimed(kept, results, used);
            && (forall m | m in claimed :: IsResult(m) && m.toolCallId in results && results[m.toolCallId] == m)
            && ToolCount(claimed) == |claimed| == ResultCount(claimed) && CallCount(claimed) == 0
  {
    if kept != [] {
      var used' := if kept[0].id in used then used else used + {kept[0].id};
      ClaimedAreResults(kept[1..], results, used');
    }
  }

  /** The claimed results are indexed under exactly the new ids of `kept`. */
  lemma {:induction false} IndexOfClaimed(kept: seq<ToolCall>, results: Results, used: set<string>)
    requires WellKeyed(results) && Answered(kept, results)
    ensures var index := ResultIndex(Claimed(kept, results, used));
            && index.Keys == Ids(kept) - used
            && forall id | id in index :: id in results && index[id] == results[id]
  {
    if kept != [] {
      assert kept == [kept[0]] + kept[1..];
      assert Ids(kept) == {kept[0].id} + Ids(kept[1..]);
      if kept[0].id in used {
        IndexOfClaimed(kept[1..], results, used);
      } else {
        var rest := Claimed(kept[1..], results, used + {kept[0].id});
        IndexOfClaimed(kept[1..], results, used + {kept[0].id});
        assert Claimed(kept, results, used)[1..] == rest;
      }
    }
  }

  lemma {:induction false} SkipResults(block: seq<Message>, rest: seq<Message>, results: Results, used: set<string>)
    requires forall m | m in block :: m.role.Tool?
    ensures Rebuilt(block + rest, results, used) == Rebuilt(rest, results, used)
  {
    if block == [] {
      assert block + rest == rest;
    } else {
      assert (block + rest)[1..] == block[1..] + rest;
      assert used + Ids(KeptCalls(block[0], results)) == used;
      SkipResults(block[1..], rest, results, used);
    }
  }

  // ---------- Idempotence ----------

  /** The result ids some calling message resolves. */
  function ClaimIds(msgs: seq<Message>, results: Results): set<string> {
    if msgs == [] then {} else Ids(KeptCalls(msgs[0], results)) + ClaimIds(msgs[1..], results)
  }

  ghost predicate Agree(ids: set<string>, results: Results, results2: Results) {
    forall id | id in ids :: id in results && id in results2 && results[id] == results2[id]
  }

  lemma {:induction false} ResolvedAgain(kept: seq<ToolCall>, results: Results)
    requires Answered(kept, results) && forall j | 0 <= j < |kept| :: kept[j].id != ""
    ensures Resolved(kept, results) == kept
  {
    if kept != [] {
      ResolvedAgain(kept[1..], results);
    }
  }

  lemma {:induction false} FullyKept(calls: seq<ToolCall>, results: Results)
    ensures |Resolved(calls, results)| == |calls| ==> Resolved(calls, results) == calls
  {
    if calls != [] {
      FullyKept(calls[1..], results);
    }
  }

  lemma {:induction false} ClaimedAgain(kept: seq<ToolCall>, results: Results, results2: Results, used: set<string>)
    requires Answered(kept, results) && Answered(kept, results2) && Agree(Ids(kept), results, results2)
    ensures Claimed(kept, results, used) == Claimed(kept, results2, used)
  {
    if kept != [] {
      var used' := if kept[0].id in used then used else used + {kept[0].id};
      ClaimedAgain(kept[1..], results, results2, used');
    }
  }

  lemma {:induction false} AgreeAnswers(kept: seq<ToolCall>, results: Results, results2: Results)
    requires Answered(kept, results) && Agree(Ids(kept), results, results2)
    ensures Answered(kept, results2)
  {
    forall j | 0 <= j < |kept|
      ensures kept[j].id in results2
    {
      IdsContain(kept, j);
    }
  }

  /** What is left of a calling message keeps all its calls when it is repaired once more. */
  lemma {:induction false} RemainderAgain(m: Message, results: Results, results2: Results)
    requires CallsTools(m) && Agree(Ids(KeptCalls(m, results)), results, results2)
    ensures var kept := KeptCalls(m, results);
            kept != [] ==>
              && |Remainder(m, kept)| == 1 && CallsTools(Remainder(m, kept)[0])
              && Remainder(m, kept)[0].toolCalls == kept
              && Remainder(Remainder(m, kept)[0], kept) == Remainder(m, kept)
              && KeptCalls(Remainder(m, kept)[0], results2) == kept
  {
    var kept := KeptCalls(m, results);
    FullyKept(m.toolCalls, results);
    AgreeAnswers(kept, results, results2);
    ResolvedAgain(kept, results2);
  }

  /** Repairing one repaired piece against an index that agrees with the first gives the piece back. */
  lemma {:induction false} PieceAgain(
    m: Message, rest: seq<Message>, results: Results, results2: Results, used: set<string>)
    requires WellKeyed(results) && Agree(Ids(KeptCalls(m, results)), results, results2)
    ensures Rebuilt(Piece(m, results, used) + rest, results2, used)
         == Piece(m, results, used) + Rebuilt(rest, results2, used + Ids(KeptCalls(m, results)))
  {
    var kept := KeptCalls(m, results);
    if m.role.Tool? {
      assert Piece(m, results, used) + rest == rest;
      assert used + Ids(kept) == used;
    } else if kept == [] {
      assert used + Ids(kept) == used;
      if Piece(m, results, used) == [] {
        assert Piece(m, results, used) + rest == rest;
      } else {
        var only := Piece(m, results, used)[0];
        assert Piece(m, results, used) == [only] && Bystander(only);
        SingleAgain(only, rest, results2, used);
      }
    } else {
      RemainderAgain(m, results, results2);
      AgreeAnswers(kept, results, results2);
      var first, claimed := Remainder(m, kept)[0], Claimed(kept, results, used);
      ClaimedAgain(kept, results, results2, used);
      ClaimedAreResults(kept, results, used);
      assert Piece(m, results, used) + rest == [first] + (claimed + rest);
      assert ([first] + (claimed + rest))[1..] == claimed + rest;
      SkipResults(claimed, rest, results2, used + Ids(kept));
      assert Piece(first, results2, used) == Piece(m, results, used);
    }
  }

  lemma {:induction false} SingleAgain(m: Message, rest: seq<Message>, results: Results, used: set<string>)
    requires Bystander(m)
    ensures Rebuilt([m] + rest, results, used) == [m] + Rebuilt(rest, results, used)
  {
    assert ([m] + rest)[1..] == rest;
    assert used + Ids(KeptCalls(m, results)) == used;
  }

  lemma {:induction false} RebuiltAgain(msgs: seq<Message>, results: Results, results2: Results, used: set<string>)
    requires WellKeyed(results) && Agree(ClaimIds(msgs, results), results, results2)
    ensures Rebuilt(Rebuilt(msgs, results, used), results2, used) == Rebuilt(msgs, results, used)
  {
    if msgs != [] {
      var used' := used + Ids(KeptCalls(msgs[0], results));
      RebuiltAgain(msgs[1..], results, results2, used');
      PieceAgain(msgs[0], Rebuilt(msgs[1..], results, used'), results, results2, used);
    }
  }

  /** Everything claimed is found again in the output, under the same id; nothing else is. */
  lemma {:induction false} IndexOfRebuilt(msgs: seq<Message>, results: Results, used: set<string>)
    requires WellKeyed(results)
    ensures var index := ResultIndex(Rebuilt(msgs, results, used));
            && index.Keys == ClaimIds(msgs, results) - used
            && forall id | id in index :: id in results && index[id] == results[id]
  {
    if msgs != [] {
      var kept := KeptCalls(msgs[0], results);
      IndexOfPiece(msgs[0], results, used);
      IndexOfRebuilt(msgs[1..], results, used + Ids(kept));
      ResultIndexAppend(Piece(msgs[0], results, used), Rebuilt(msgs[1..], results, used + Ids(kept)));
    }
  }

  lemma {:induction false} IndexOfPiece(m: Message, results: Results, used: set<string>)
    requires WellKeyed(results)
    ensures var index := ResultIndex(Piece(m, results, used));
            && index.Keys == Ids(KeptCalls(m, results)) - used
            && forall id | id in index :: id in results && index[id] == results[id]
  {
    if CallsTools(m) {
      var kept := KeptCalls(m, results);
      IndexOfClaimed(kept, results, used);
      ResultIndexAppend(Remainder(m, kept), Claimed(kept, results, used));
      assert ResultIndex(Remainder(m, kept)) == map[];
    }
  }

  lemma {:induction false} RebuiltCounts(msgs: seq<Message>, results: Results, used: set<string>)
    requires WellKeyed(results)
    ensures ToolCount(Rebuilt(msgs, results, used)) == ResultCount(Rebuilt(msgs, results, used))
  {
    if msgs != [] {
      var used' := used + Ids(KeptCalls(msgs[0], results));
      PieceCounts(msgs[0], results, used);
      RebuiltCounts(msgs[1..], results, used');
      CountsAppend(Piece(msgs[0], results, used), Rebuilt(msgs[1..], results, used'));
    }
  }

  /** Repairing a repaired list changes nothing and loses nothing, whatever the input was. */
  lemma {:induction false} SanitizedIdempotent(msgs: seq<Message>)
    ensures Sanitized(Sanitized(msgs)) == Sanitized(msgs)
    ensures Lost(Sanitized(msgs), Sanitized(msgs)) == 0
  {
    ResultIndexEntries(msgs);
    var results := ResultIndex(msgs);
    IndexOfRebuilt(msgs, results, {});
    ClaimIdsKnown(msgs, results);
    RebuiltCounts(msgs, results, {});
    RebuiltAgain(msgs, results, ResultIndex(Sanitized(msgs)), {});
  }

  lemma {:induction false} ClaimIdsKnown(msgs: seq<Message>, results: Results)
    ensures ClaimIds(msgs, results) <= results.Keys
  {
    if msgs != [] {
      IdsKnown(KeptCalls(msgs[0], results), results);
      ClaimIdsKnown(msgs[1..], results);
    }
  }

  lemma {:induction false} IdsKnown(kept: seq<ToolCall>, results: Results)
    requires Answered(kept, results)
    ensures Ids(kept) <= results.Keys
  {
    if kept != [] {
      IdsKnown(kept[1..], results);
    }
  }
}
