/** What the tool-call repair guarantees about the list a provider receives. */
module PairingLaws {
  import opened Messages
  import opened Pairing

  // ---------- Exact pairing ----------

  /** `block` answers `calls` one by one, in declared order. */
  predicate Answers(block: seq<Message>, calls: seq<ToolCall>) {
    |block| == |calls| && forall k | 0 <= k < |block| :: block[k].role.Tool? && block[k].toolCallId == calls[k].id
  }

  /** Every calling message is followed at once by exactly its results, and no other tool message appears. */
  predicate Paired(msgs: seq<Message>) {
    if msgs == [] then true
    else if msgs[0].role.Tool? then false
    else
      var n := if CallsTools(msgs[0]) then |msgs[0].toolCalls| else 0;
      n < |msgs| && (n > 0 ==> Answers(msgs[1..n + 1], msgs[0].toolCalls)) && Paired(msgs[n + 1..])
  }

  function IdList(calls: seq<ToolCall>): seq<string> {
    if calls == [] then [] else [calls[0].id] + IdList(calls[1..])
  }

  /** The ids of all calls that have a result, in the order the list makes them. */
  function ResolvedIds(msgs: seq<Message>, results: Results): seq<string> {
    if msgs == [] then [] else IdList(KeptCalls(msgs[0], results)) + ResolvedIds(msgs[1..], results)
  }

  /** The ids of all calls that some tool message of `all` answers, in the order the list makes them. */
  ghost function AnswerableIds(msgs: seq<Message>, all: seq<Message>): seq<string> {
    if msgs == [] then [] else IdList(Surviving(msgs[0], all)) + AnswerableIds(msgs[1..], all)
  }

  lemma {:induction false} ResolvedIdsAre(msgs: seq<Message>, all: seq<Message>)
    ensures ResolvedIds(msgs, ResultIndex(all)) == AnswerableIds(msgs, all)
  {
    if msgs != [] {
      KeptAreAnswerable(msgs[0], all);
      ResolvedIdsAre(msgs[1..], all);
    }
  }

  predicate Distinct(ids: seq<string>) {
    forall i, j | 0 <= i < j < |ids| :: ids[i] != ids[j]
  }

  predicate Fresh(ids: seq<string>, used: set<string>) {
    ids == [] || (ids[0] !in used && Fresh(ids[1..], used + {ids[0]}))
  }

  lemma {:induction false} FreshMeaning(ids: seq<string>, used: set<string>)
    ensures Fresh(ids, used) <==> Distinct(ids) && forall i | 0 <= i < |ids| :: ids[i] !in used
  {
    if ids != [] {
      FreshMeaning(ids[1..], used + {ids[0]});
      assert ids == [ids[0]] + ids[1..];
      if Fresh(ids, used) {
        assert forall i | 0 < i < |ids| :: ids[i] == ids[1..][i - 1];
      }
    }
  }

  lemma {:induction false} FreshAppend(calls: seq<ToolCall>, ids: seq<string>, used: set<string>)
    ensures Fresh(IdList(calls) + ids, used) <==> Fresh(IdList(calls), used) && Fresh(ids, used + Ids(calls))
  {
    if calls == [] {
      assert IdList(calls) + ids == ids;
      assert used + Ids(calls) == used;
    } else {
      assert (IdList(calls) + ids)[1..] == IdList(calls[1..]) + ids;
      assert used + {calls[0].id} + Ids(calls[1..]) == used + Ids(calls);
      FreshAppend(calls[1..], ids, used + {calls[0].id});
    }
  }

  /** All results are given out exactly when no id was given out before, and then in declared order. */
  lemma {:induction false} ClaimedAnswers(kept: seq<ToolCall>, results: Results, used: set<string>)
    requires WellKeyed(results) && Answered(kept, results)
    ensures var claimed := Claimed(kept, results, used);
            && (|claimed| == |kept| <==> Fresh(IdList(kept), used))
            && (|claimed| == |kept| ==> Answers(claimed, kept))
  {
    if kept != [] {
      var used' := if kept[0].id in used then used else used + {kept[0].id};
      ClaimedAnswers(kept[1..], results, used');
      assert IdList(kept)[1..] == IdList(kept[1..]);
    }
  }

  /** The output never starts with a tool result. */
  lemma {:induction false} NoLeadingResult(msgs: seq<Message>, results: Results, used: set<string>)
    ensures Rebuilt(msgs, results, used) != [] ==> !Rebuilt(msgs, results, used)[0].role.Tool?
  {
    if msgs != [] {
      var kept := KeptCalls(msgs[0], results);
      NoLeadingResult(msgs[1..], results, used + Ids(kept));
    }
  }

  lemma {:induction false} PairedBystander(m: Message, rest: seq<Message>)
    requires Bystander(m)
    ensures Paired([m] + rest) <==> Paired(rest)
  {
    assert ([m] + rest)[1..] == rest;
  }

  lemma {:induction false} PairedStep(m: Message, rest: seq<Message>, results: Results, used: set<string>)
    requires WellKeyed(results)
    requires rest != [] ==> !rest[0].role.Tool?
    ensures Paired(Piece(m, results, used) + rest)
       <==> Fresh(IdList(KeptCalls(m, results)), used) && Paired(rest)
  {
    var kept := KeptCalls(m, results);
    var piece := Piece(m, results, used);
    if piece == [] {
      assert kept == [];
      assert piece + rest == rest;
    } else if kept == [] {
      assert piece == [piece[0]] && Bystander(piece[0]);
      PairedBystander(piece[0], rest);
    } else {
      IdsKnown(kept, results);
      RemainderAgain(m, results, results);
      ClaimedAnswers(kept, results, used);
      var first, claimed := Remainder(m, kept)[0], Claimed(kept, results, used);
      assert piece + rest == [first] + (claimed + rest);
      PairedCall(first, claimed, rest);
    }
  }

  /** A calling message followed by results that are all there is paired; with too few results it is not. */
  lemma {:induction false} PairedCall(first: Message, claimed: seq<Message>, rest: seq<Message>)
    requires CallsTools(first) && |claimed| <= |first.toolCalls|
    requires |claimed| == |first.toolCalls| ==> Answers(claimed, first.toolCalls)
    requires rest != [] ==> !rest[0].role.Tool?
    ensures Paired([first] + (claimed + rest)) <==> |claimed| == |first.toolCalls| && Paired(rest)
  {
    var out, n := [first] + (claimed + rest), |first.toolCalls|;
    if |claimed| == n {
      assert out[1..n + 1] == claimed;
      assert out[n + 1..] == rest;
    } else if n < |out| {
      assert out[1..n + 1][|claimed|] == out[1 + |claimed|] == rest[0];
      assert !Answers(out[1..n + 1], first.toolCalls);
    }
  }

  lemma {:induction false} RebuiltPaired(msgs: seq<Message>, results: Results, used: set<string>)
    requires WellKeyed(results)
    ensures Paired(Rebuilt(msgs, results, used)) <==> Fresh(ResolvedIds(msgs, results), used)
  {
    if msgs != [] {
      var kept := KeptCalls(msgs[0], results);
      var used' := used + Ids(kept);
      RebuiltPaired(msgs[1..], results, used');
      NoLeadingResult(msgs[1..], results, used');
      PairedStep(msgs[0], Rebuilt(msgs[1..], results, used'), results, used);
      FreshAppend(kept, ResolvedIds(msgs[1..], results), used);
    }
  }

  /** The repaired list is exactly paired if and only if no call id with a result is used by two calls. */
  lemma {:induction false} ExactPairing(msgs: seq<Message>)
    ensures Paired(Sanitized(msgs)) <==> Distinct(AnswerableIds(msgs, msgs))
  {
    ResolvedIdsAre(msgs, msgs);
    ResultIndexEntries(msgs);
    RebuiltPaired(msgs, ResultIndex(msgs), {});
    FreshMeaning(ResolvedIds(msgs, ResultIndex(msgs)), {});
  }

  /** One id called twice: the second call goes out without a result. */
  lemma {:induction false} ReusedIdStaysUnpaired(call: Message, answer: Message)
    requires call.role.Assistant? && |call.toolCalls| == 1 && call.toolCalls[0].id == "x"
    requires answer.role.Tool? && answer.toolCallId == "x"
    ensures Sanitized([call, answer, call]) == [call, answer, call] && !Paired([call, answer, call])
  {
    var msgs, results := [call, answer, call], map["x" := answer];
    assert msgs[1..] == [answer, call] && [answer, call][1..] == [call] && [call][1..] == [];
    assert ResultIndex([call]) == map[];
    assert ResultIndex(msgs) == ResultIndex([answer, call]) == results;
    ReusedPieces(call, answer);
    assert Rebuilt([call], results, {"x"}) == [call];
    assert Rebuilt([answer, call], results, {"x"}) == [call];
    assert Rebuilt(msgs, results, {}) == [call, answer] + [call];
    var rest := msgs[2..];
    assert rest == [call] && !Paired(rest);
    assert msgs[1..2] == [answer];
  }

  lemma {:induction false} ReusedPieces(call: Message, answer: Message)
    requires call.role.Assistant? && |call.toolCalls| == 1 && call.toolCalls[0].id == "x"
    requires answer.role.Tool? && answer.toolCallId == "x"
    ensures var results := map["x" := answer];
            && Piece(call, results, {}) == [call, answer] && Piece(call, results, {"x"}) == [call]
            && Piece(answer, results, {"x"}) == []
            && {} + Ids(KeptCalls(call, results)) == {"x"} && {"x"} + Ids(KeptCalls(answer, results)) == {"x"}
  {
    var results := map["x" := answer];
    assert call.toolCalls[1..] == [];
    assert KeptCalls(call, results) == call.toolCalls;
  }

  // ---------- Order and content of everything else ----------

  /** The messages that are neither results nor calls. */
  function Bystanders(msgs: seq<Message>): seq<Message> {
    if msgs == [] then []
    else (if msgs[0].role.Tool? || msgs[0].role.Assistant? then [] else [msgs[0]]) + Bystanders(msgs[1..])
  }

  function NonTools(msgs: seq<Message>): seq<Message> {
    if msgs == [] then [] else (if msgs[0].role.Tool? then [] else [msgs[0]]) + NonTools(msgs[1..])
  }

  predicate SubCalls(a: seq<ToolCall>, b: seq<ToolCall>) {
    if a == [] then true else b != [] && ((a[0] == b[0] && SubCalls(a[1..], b[1..])) || SubCalls(a, b[1..]))
  }

  /** `x` is `y`, or `y` with some calls (and then its id) taken away. */
  predicate Derived(x: Message, y: Message) {
    x == y || (CallsTools(y) && x == WithCalls(y, x.toolCalls) && SubCalls(x.toolCalls, y.toolCalls))
  }

  /** `xs` derives, in order, from some of the messages of `ys`. */
  predicate Embeds(xs: seq<Message>, ys: seq<Message>) {
    if xs == [] then true
    else ys != [] && ((Derived(xs[0], ys[0]) && Embeds(xs[1..], ys[1..])) || Embeds(xs, ys[1..]))
  }

  lemma {:induction false} NonToolsAppend(a: seq<Message>, b: seq<Message>)
    ensures NonTools(a + b) == NonTools(a) + NonTools(b)
  {
    if a == [] {
      assert a + b == b;
    } else {
      assert (a + b)[1..] == a[1..] + b;
      NonToolsAppend(a[1..], b);
    }
  }

  lemma {:induction false} BystandersAppend(a: seq<Message>, b: seq<Message>)
    ensures Bystanders(a + b) == Bystanders(a) + Bystanders(b)
  {
    if a == [] {
      assert a + b == b;
    } else {
      assert (a + b)[1..] == a[1..] + b;
      BystandersAppend(a[1..], b);
    }
  }

  lemma {:induction false} ResolvedSub(calls: seq<ToolCall>, results: Results)
    ensures SubCalls(Resolved(calls, results), calls)
  {
    if calls != [] {
      ResolvedSub(calls[1..], results);
    }
  }

  lemma {:induction false} ResultsAreTools(block: seq<Message>)
    requires forall k | 0 <= k < |block| :: block[k].role.Tool?
    ensures NonTools(block) == [] && Bystanders(block) == []
  {
    if block != [] {
      ResultsAreTools(block[1..]);
    }
  }

  lemma {:induction false} ClaimedTools(kept: seq<ToolCall>, results: Results, used: set<string>)
    requires WellKeyed(results) && Answered(kept, results)
    ensures forall k | 0 <= k < |Claimed(kept, results, used)| :: Claimed(kept, results, used)[k].role.Tool?
  {
    if kept != [] {
      var used' := if kept[0].id in used then used else used + {kept[0].id};
      ClaimedTools(kept[1..], results, used');
    }
  }

  lemma {:induction false} PieceOrder(m: Message, results: Results, used: set<string>)
    requires WellKeyed(results)
    ensures var nonTools := NonTools(Piece(m, results, used));
            nonTools == [] || (!m.role.Tool? && |nonTools| == 1 && Derived(nonTools[0], m))
    ensures Bystanders(Piece(m, results, used)) == Bystanders([m])
  {
    if CallsTools(m) {
      var kept := KeptCalls(m, results);
      var head, claimed := Remainder(m, kept), Claimed(kept, results, used);
      ClaimedTools(kept, results, used);
      ResultsAreTools(claimed);
      NonToolsAppend(head, claimed);
      BystandersAppend(head, claimed);
      ResolvedSub(m.toolCalls, results);
      assert NonTools(head) == head && Bystanders(head) == [];
    }
  }

  lemma {:induction false} EmbedsStep(piece: seq<Message>, rest: seq<Message>, m: Message, tail: seq<Message>)
    requires NonTools(piece) == [] || (!m.role.Tool? && |NonTools(piece)| == 1 && Derived(NonTools(piece)[0], m))
    requires Embeds(NonTools(rest), NonTools(tail))
    ensures Embeds(NonTools(piece + rest), NonTools([m] + tail))
  {
    NonToolsAppend(piece, rest);
    NonToolsAppend([m], tail);
    var xs, ys := NonTools(piece + rest), NonTools([m] + tail);
    if NonTools(piece) == [] {
      assert xs == NonTools(rest);
      if m.role.Tool? {
        assert ys == NonTools(tail);
      } else {
        assert ys == [m] + NonTools(tail) && ys[1..] == NonTools(tail);
      }
    } else {
      assert ys == [m] + NonTools(tail) && ys[1..] == NonTools(tail);
      assert xs[1..] == NonTools(rest);
    }
  }

  /** Every message that is not a tool result derives from one of the input, in the input's order;
      messages of all roles but tool and assistant come through verbatim and all of them. */
  lemma {:induction false} OrderKept(msgs: seq<Message>, results: Results, used: set<string>)
    requires WellKeyed(results)
    ensures Embeds(NonTools(Rebuilt(msgs, results, used)), NonTools(msgs))
    ensures Bystanders(Rebuilt(msgs, results, used)) == Bystanders(msgs)
  {
    if msgs != [] {
      var used' := used + Ids(KeptCalls(msgs[0], results));
      var piece, rest := Piece(msgs[0], results, used), Rebuilt(msgs[1..], results, used');
      OrderKept(msgs[1..], results, used');
      PieceOrder(msgs[0], results, used);
      EmbedsStep(piece, rest, msgs[0], msgs[1..]);
      BystandersAppend(piece, rest);
      BystandersAppend([msgs[0]], msgs[1..]);
      assert msgs == [msgs[0]] + msgs[1..];
    }
  }

  lemma {:induction false} SanitizedOrder(msgs: seq<Message>)
    ensures Embeds(NonTools(Sanitized(msgs)), NonTools(msgs))
    ensures Bystanders(Sanitized(msgs)) == Bystanders(msgs)
  {
    ResultIndexEntries(msgs);
    OrderKept(msgs, ResultIndex(msgs), {});
  }

  // ---------- What `dropped` counts ----------

  function UnresolvedCalls(msgs: seq<Message>, results: Results): nat {
    if msgs == [] then 0
    else (if CallsTools(msgs[0]) then |msgs[0].toolCalls| - |KeptCalls(msgs[0], results)| else 0)
         + UnresolvedCalls(msgs[1..], results)
  }

  /** Tool messages that name no call: they vanish uncounted. */
  function Nameless(msgs: seq<Message>): nat {
    if msgs == [] then 0
    else (if msgs[0].role.Tool? && !IsResult(msgs[0]) then 1 else 0) + Nameless(msgs[1..])
  }

  /** Blank calling messages none of whose calls has a result: they vanish whole. */
  function Emptied(msgs: seq<Message>, results: Results): nat {
    if msgs == [] then 0
    else (if CallsTools(msgs[0]) && KeptCalls(msgs[0], results) == [] && Blank(msgs[0].content) then 1 else 0)
         + Emptied(msgs[1..], results)
  }

  /** The calls no tool message of `all` answers. */
  ghost function UnansweredCalls(msgs: seq<Message>, all: seq<Message>): nat {
    if msgs == [] then 0
    else (if CallsTools(msgs[0]) then NotKept(msgs[0].toolCalls, all) else 0) + UnansweredCalls(msgs[1..], all)
  }

  ghost function NotKept(calls: seq<ToolCall>, all: seq<Message>): nat {
    if calls == [] then 0 else (if Answerable(all, calls[0].id) then 0 else 1) + NotKept(calls[1..], all)
  }

  /** Blank calling messages with no answered call. */
  ghost function Silenced(msgs: seq<Message>, all: seq<Message>): nat {
    if msgs == [] then 0
    else (if CallsTools(msgs[0]) && NoneAnswered(msgs[0].toolCalls, all) && Blank(msgs[0].content) then 1 else 0)
         + Silenced(msgs[1..], all)
  }

  ghost predicate NoneAnswered(calls: seq<ToolCall>, all: seq<Message>) {
    forall c | c in calls :: !Answerable(all, c.id)
  }

  lemma {:induction false} NotKeptAre(calls: seq<ToolCall>, all: seq<Message>)
    ensures |calls| - |AnswerableCalls(calls, all)| == NotKept(calls, all)
    ensures AnswerableCalls(calls, all) == [] <==> NoneAnswered(calls, all)
  {
    if calls != [] {
      NotKeptAre(calls[1..], all);
      assert calls == [calls[0]] + calls[1..];
    }
  }

  lemma {:induction false} UnansweredAre(msgs: seq<Message>, all: seq<Message>)
    ensures UnresolvedCalls(msgs, ResultIndex(all)) == UnansweredCalls(msgs, all)
    ensures Emptied(msgs, ResultIndex(all)) == Silenced(msgs, all)
  {
    if msgs != [] {
      KeptAreAnswerable(msgs[0], all);
      NotKeptAre(msgs[0].toolCalls, all);
      hide NoneAnswered, Blank, KeptCalls, AnswerableCalls, ResultIndex;
      UnansweredAre(msgs[1..], all);
    }
  }

  lemma {:induction false} PieceBalance(m: Message, results: Results, used: set<string>)
    requires WellKeyed(results)
    ensures CallCount([m]) - CallCount(Piece(m, results, used)) == UnresolvedCalls([m], results)
    ensures |Piece(m, results, used)| - ToolCount(Piece(m, results, used))
         == 1 - ToolCount([m]) - Emptied([m], results)
  {
    PieceCounts(m, results, used);
    if CallsTools(m) {
      assert [m][1..] == [];
    }
  }

  lemma {:induction false} Balance(msgs: seq<Message>, results: Results, used: set<string>)
    requires WellKeyed(results)
    ensures var out := Rebuilt(msgs, results, used);
            && CallCount(msgs) - CallCount(out) == UnresolvedCalls(msgs, results)
            && |out| - ToolCount(out) == |msgs| - ToolCount(msgs) - Emptied(msgs, results)
            && ToolCount(msgs) == ResultCount(msgs) + Nameless(msgs)
  {
    if msgs != [] {
      var used' := used + Ids(KeptCalls(msgs[0], results));
      Balance(msgs[1..], results, used');
      PieceBalance(msgs[0], results, used);
      CountsHead(msgs, results);
      assert Rebuilt(msgs, results, used) == Piece(msgs[0], results, used) + Rebuilt(msgs[1..], results, used');
      hide *;
      CountsAppend(Piece(msgs[0], results, used), Rebuilt(msgs[1..], results, used'));
    }
  }

  // Each count of a list is that of its first message and that of the rest.
  lemma {:induction false} CountsHead(msgs: seq<Message>, results: Results)
    requires msgs != []
    ensures CallCount(msgs) == CallCount([msgs[0]]) + CallCount(msgs[1..])
    ensures UnresolvedCalls(msgs, results) == UnresolvedCalls([msgs[0]], results) + UnresolvedCalls(msgs[1..], results)
    ensures Emptied(msgs, results) == Emptied([msgs[0]], results) + Emptied(msgs[1..], results)
    ensures ToolCount(msgs) == ToolCount([msgs[0]]) + ToolCount(msgs[1..])
    ensures ToolCount([msgs[0]]) + ResultCount(msgs[1..]) + Nameless(msgs[1..]) == ResultCount(msgs) + Nameless(msgs)
  {
    assert [msgs[0]][1..] == [];
    hide KeptCalls, Blank;
  }

  /** The documentation calls `dropped` a number of messages. It is one exactly when the unanswered calls
      are as many as the messages that vanish without being counted as results. */
  lemma {:induction false} DroppedVersusMessages(msgs: seq<Message>)
    ensures Lost(msgs, Sanitized(msgs)) == |msgs| - |Sanitized(msgs)|
       <==> UnansweredCalls(msgs, msgs) == Nameless(msgs) + Silenced(msgs, msgs)
  {
    UnansweredAre(msgs, msgs);
    ResultIndexEntries(msgs);
    Balance(msgs, ResultIndex(msgs), {});
  }

  lemma {:induction false} ClaimedSize(kept: seq<ToolCall>, results: Results, used: set<string>)
    requires Answered(kept, results)
    ensures |Claimed(kept, results, used)| == |used + Ids(kept)| - |used|
  {
    if kept == [] {
      assert used + Ids(kept) == used;
    } else if kept[0].id in used {
      ClaimedSize(kept[1..], results, used);
      assert used + Ids(kept) == used + Ids(kept[1..]);
    } else {
      ClaimedSize(kept[1..], results, used + {kept[0].id});
      assert used + Ids(kept) == used + {kept[0].id} + Ids(kept[1..]);
    }
  }

  lemma {:induction false} ClaimOneMore(msgs: seq<Message>, results: Results, used: set<string>)
    requires msgs != []
    ensures used + ClaimIds(msgs, results) == used + Ids(KeptCalls(msgs[0], results)) + ClaimIds(msgs[1..], results)
  {
  }

  lemma {:induction false} ResultsOut(msgs: seq<Message>, results: Results, used: set<string>)
    requires WellKeyed(results)
    ensures ToolCount(Rebuilt(msgs, results, used)) == |used + ClaimIds(msgs, results)| - |used|
  {
    if msgs == [] {
      assert used + ClaimIds(msgs, results) == used;
    } else {
      var kept := KeptCalls(msgs[0], results);
      var used' := used + Ids(kept);
      ResultsOut(msgs[1..], results, used');
      PieceCounts(msgs[0], results, used);
      ClaimedSize(kept, results, used);
      ClaimOneMore(msgs, results, used);
      hide ClaimIds, ToolCount, Ids, KeptCalls, Piece, Claimed;
      CountsAppend(Piece(msgs[0], results, used), Rebuilt(msgs[1..], results, used'));
    }
  }

  lemma {:induction false} IndexSize(msgs: seq<Message>)
    ensures |ResultIndex(msgs)| <= ResultCount(msgs)
  {
    if msgs != [] {
      IndexSize(msgs[1..]);
    }
  }

  /** No result is invented and no result is handed out twice, so nothing is ever counted negatively. */
  lemma {:induction false} LostIsNatural(msgs: seq<Message>)
    ensures ToolCount(Sanitized(msgs)) <= ResultCount(msgs)
    ensures Lost(msgs, Sanitized(msgs)) >= 0
  {
    var results := ResultIndex(msgs);
    ResultIndexEntries(msgs);
    ResultsOut(msgs, results, {});
    ClaimIdsKnown(msgs, results);
    assert {} + ClaimIds(msgs, results) == ClaimIds(msgs, results);
    SubsetSize(ClaimIds(msgs, results), results.Keys);
    IndexSize(msgs);
    Balance(msgs, results, {});
  }

  lemma {:induction false} SubsetSize<T>(a: set<T>, b: set<T>)
    requires a <= b
    ensures |a| <= |b|
  {
    assert b == a + (b - a);
  }

  // ---------- The estimate never rises ----------

  /** Tokens of the first results whose ids are not taken yet. */
  function FirstsTokens(e: Estimator, msgs: seq<Message>, taken: set<string>): nat {
    if msgs == [] then 0
    else if IsResult(msgs[0]) && msgs[0].toolCallId !in taken then
      MessageTokens(e, msgs[0]) + FirstsTokens(e, msgs[1..], taken + {msgs[0].toolCallId})
    else FirstsTokens(e, msgs[1..], taken)
  }

  function NonToolTokens(e: Estimator, msgs: seq<Message>): nat {
    if msgs == [] then 0
    else (if msgs[0].role.Tool? then 0 else MessageTokens(e, msgs[0])) + NonToolTokens(e, msgs[1..])
  }

  /** Taking an id pays for its result. */
  lemma {:induction false} TakeFirst(e: Estimator, msgs: seq<Message>, taken: set<string>, id: string)
    requires id !in taken && id in ResultIndex(msgs)
    ensures FirstsTokens(e, msgs, taken)
         == MessageTokens(e, ResultIndex(msgs)[id]) + FirstsTokens(e, msgs, taken + {id})
  {
    var first := msgs[0];
    if IsResult(first) && first.toolCallId == id {
    } else if IsResult(first) && first.toolCallId !in taken {
      assert taken + {id} + {first.toolCallId} == taken + {first.toolCallId} + {id};
      TakeFirst(e, msgs[1..], taken + {first.toolCallId}, id);
    } else {
      TakeFirst(e, msgs[1..], taken, id);
    }
  }

  lemma {:induction false} ClaimedTokens(e: Estimator, kept: seq<ToolCall>, all: seq<Message>, used: set<string>)
    requires Answered(kept, ResultIndex(all))
    ensures TotalTokens(e, Claimed(kept, ResultIndex(all), used)) + FirstsTokens(e, all, used + Ids(kept))
         == FirstsTokens(e, all, used)
  {
    if kept == [] {
      assert used + Ids(kept) == used;
    } else if kept[0].id in used {
      ClaimedTokens(e, kept[1..], all, used);
      assert used + Ids(kept) == used + Ids(kept[1..]);
    } else {
      ClaimedTokens(e, kept[1..], all, used + {kept[0].id});
      assert used + Ids(kept) == used + {kept[0].id} + Ids(kept[1..]);
      TakeFirst(e, all, used, kept[0].id);
      var claimed := Claimed(kept, ResultIndex(all), used);
      assert claimed[1..] == Claimed(kept[1..], ResultIndex(all), used + {kept[0].id});
    }
  }

  lemma {:induction false} ResolvedTokens(e: Estimator, calls: seq<ToolCall>, results: Results)
    ensures CallTokens(e, Resolved(calls, results)) <= CallTokens(e, calls)
  {
    if calls != [] {
      ResolvedTokens(e, calls[1..], results);
      var kept := Resolved(calls, results);
      if calls[0].id != "" && calls[0].id in results {
        assert kept[1..] == Resolved(calls[1..], results);
      }
    }
  }

  lemma {:induction false} PieceTokens(e: Estimator, m: Message, all: seq<Message>, used: set<string>)
    ensures TotalTokens(e, Piece(m, ResultIndex(all), used))
            + FirstsTokens(e, all, used + Ids(KeptCalls(m, ResultIndex(all))))
         <= NonToolTokens(e, [m]) + FirstsTokens(e, all, used)
  {
    var results := ResultIndex(all);
    var kept := KeptCalls(m, results);
    ClaimedTokens(e, kept, all, used);
    assert [m][1..] == [];
    if CallsTools(m) {
      var head := Remainder(m, kept);
      TotalTokensAppend(e, head, Claimed(kept, results, used));
      ResolvedTokens(e, m.toolCalls, results);
      assert |head| <= 1;
      assert head != [] ==> head[1..] == [] && TotalTokens(e, head) == MessageTokens(e, head[0]);
    }
  }

  lemma {:induction false} RebuiltTokens(e: Estimator, msgs: seq<Message>, all: seq<Message>, used: set<string>)
    ensures TotalTokens(e, Rebuilt(msgs, ResultIndex(all), used)) <= NonToolTokens(e, msgs) + FirstsTokens(e, all, used)
  {
    if msgs != [] {
      var used' := used + Ids(KeptCalls(msgs[0], ResultIndex(all)));
      RebuiltTokens(e, msgs[1..], all, used');
      PieceTokens(e, msgs[0], all, used);
      TotalTokensAppend(e, Piece(msgs[0], ResultIndex(all), used), Rebuilt(msgs[1..], ResultIndex(all), used'));
      assert [msgs[0]][1..] == [];
    }
  }

  lemma {:induction false} FirstsAreTools(e: Estimator, msgs: seq<Message>, taken: set<string>)
    ensures NonToolTokens(e, msgs) + FirstsTokens(e, msgs, taken) <= TotalTokens(e, msgs)
  {
    if msgs != [] {
      FirstsAreTools(e, msgs[1..], taken);
      if IsResult(msgs[0]) {
        FirstsAreTools(e, msgs[1..], taken + {msgs[0].toolCallId});
      }
    }
  }

  /** Whatever the estimator, the repaired list is never estimated higher than the list it came from. */
  lemma {:induction false} TokensNeverRise(e: Estimator, msgs: seq<Message>)
    ensures TotalTokens(e, Sanitized(msgs)) <= TotalTokens(e, msgs)
  {
    RebuiltTokens(e, msgs, msgs, {});
    FirstsAreTools(e, msgs, {});
  }

  // ---------- Prefixes and ends ----------

  lemma {:induction false} RebuiltPrefix(prefix: seq<Message>, body: seq<Message>, results: Results, used: set<string>)
    requires forall k | 0 <= k < |prefix| :: Bystander(prefix[k])
    ensures Rebuilt(prefix + body, results, used) == prefix + Rebuilt(body, results, used)
  {
    if prefix == [] {
      assert prefix + body == body;
    } else {
      var rest := prefix[1..];
      HeadFirst(prefix, body);
      HeadFirst(prefix, Rebuilt(body, results, used));
      hide *;
      SingleAgain(prefix[0], rest + body, results, used);
      RebuiltPrefix(rest, body, results, used);
    }
  }

  lemma {:induction false} HeadFirst(prefix: seq<Message>, tail: seq<Message>)
    requires prefix != []
    ensures prefix + tail == [prefix[0]] + (prefix[1..] + tail)
  {
  }

  /** A prefix without tool traffic is neither touched nor looked at. */
  lemma {:induction false} CommutesWithPrefix(prefix: seq<Message>, body: seq<Message>)
    requires forall k | 0 <= k < |prefix| :: Bystander(prefix[k])
    ensures Sanitized(prefix + body) == prefix + Sanitized(body)
    ensures Lost(prefix + body, Sanitized(prefix + body)) == Lost(body, Sanitized(body))
  {
    BystandersStay(prefix, map[], {});
    BystandersHaveNoIndex(prefix);
    ResultIndexAppend(prefix, body);
    assert ResultIndex(prefix + body) == ResultIndex(body);
    RebuiltPrefix(prefix, body, ResultIndex(body), {});
    CountsAppend(prefix, body);
    CountsAppend(prefix, Sanitized(body));
  }

  lemma {:induction false} RebuiltLast(msgs: seq<Message>, results: Results, used: set<string>)
    requires msgs != [] && Bystander(msgs[|msgs| - 1])
    ensures var out := Rebuilt(msgs, results, used);
            out != [] && out[|out| - 1] == msgs[|msgs| - 1]
  {
    if |msgs| > 1 {
      RebuiltLast(msgs[1..], results, used + Ids(KeptCalls(msgs[0], results)));
    }
  }
}
