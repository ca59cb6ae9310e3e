/** What the trim and the ceiling do, told by the estimate and the window alone. */
module CeilingLaws {
  import opened Messages
  import opened Pairing
  import opened PairingLaws
  import opened Ceiling

  // ---------- The trim ----------

  /** The first system message is kept if anything follows it. */
  function Reserved(msgs: seq<Message>): nat {
    if |msgs| > 1 && msgs[0].role.System? then 1 else 0
  }

  /** Some room for the note is set aside, but never all of it. */
  function RoomFor(limit: int): int {
    if limit > 64 then limit - 64 else 1
  }

  /** `start` is the earliest message behind the reserved one from which the rest and the tools fit; the last one does
      for want of a better. */
  ghost predicate IsStart(e: Estimator, msgs: seq<Message>, tools: nat, room: int, start: nat) {
    && Reserved(msgs) <= start < |msgs|
    && (start == |msgs| - 1 || tools + TotalTokens(e, msgs[start..]) <= room)
    && forall k | Reserved(msgs) <= k < start :: tools + TotalTokens(e, msgs[k..]) > room
  }

  /** `cut` is the first message from `start` on that is no tool result; the end of the list if there is none. */
  predicate IsCut(msgs: seq<Message>, start: nat, cut: nat) {
    && start <= cut <= |msgs| && (cut < |msgs| ==> !msgs[cut].role.Tool?)
    && forall k | start <= k < cut :: msgs[k].role.Tool?
  }

  /** The note names what is left out, as a user's message unless one follows it anyway. */
  ghost predicate IsNote(note: Message, e: Estimator, left: seq<Message>, next: Message) {
    && note.content == "[滑窗] 已省略更早的 " + Digits(|left|) + " 条消息（约 " + Digits(TotalTokens(e, left))
                       + " tokens）；会话记录仍完整，以下为窗口内的原始消息。"
    && note.role == (if next.role.User? then System else User)
    && note.id == "" && note.toolCallId == "" && note.toolCalls == [] && note.images == []
  }

  /** What the list becomes when it is cut there: as it was if the cut leaves nothing out or nothing to send. */
  ghost predicate IsCutList(e: Estimator, msgs: seq<Message>, cut: nat, kept: seq<Message>, dropped: int)
    requires cut <= |msgs|
  {
    var head, body := Reserved(msgs), Sanitized(msgs[cut..]);
    if cut <= head || body == [] then kept == msgs && dropped == 0
    else
      && |kept| == head + 1 + |body| && kept[..head] == msgs[..head] && kept[head + 1..] == body
      && IsNote(kept[head], e, msgs[head..cut], body[0])
      && dropped == cut - head + Lost(msgs[cut..], body)
  }

  ghost predicate IsTrimmed(
    e: Estimator, msgs: seq<Message>, tools: nat, limit: int, kept: seq<Message>, dropped: int)
  {
    if msgs == [] || limit <= 0 || tools + TotalTokens(e, msgs) <= limit then kept == msgs && dropped == 0
    else exists start: nat, cut: nat ::
      && IsStart(e, msgs, tools, RoomFor(limit), start) && IsCut(msgs, start, cut)
      && IsCutList(e, msgs, cut, kept, dropped)
  }

  lemma {:induction false} StartOf(e: Estimator, msgs: seq<Message>, tools: nat, limit: int)
    requires msgs != []
    ensures IsStart(e, msgs, tools, RoomFor(limit), RawCut(e, msgs, tools, limit))
  {
    RawCutFits(e, msgs, tools, limit);
    hide TotalTokens, WalkCut, RawCut;
    forall k | Reserved(msgs) <= k < RawCut(e, msgs, tools, limit)
      ensures tools + TotalTokens(e, msgs[k..]) > RoomFor(limit)
    {
      assert !TailFits(e, msgs, tools, Reduced(limit), k);
    }
  }

  lemma {:induction false} StartIsUnique(e: Estimator, msgs: seq<Message>, tools: nat, room: int, a: nat, b: nat)
    requires IsStart(e, msgs, tools, room, a) && IsStart(e, msgs, tools, room, b)
    ensures a == b
  {
    hide TotalTokens;
  }

  lemma {:induction false} CutIsUnique(msgs: seq<Message>, start: nat, a: nat, b: nat)
    requires IsCut(msgs, start, a) && IsCut(msgs, start, b)
    ensures a == b
  {
  }

  lemma {:induction false} CutListOf(e: Estimator, msgs: seq<Message>, cut: nat, kept: seq<Message>, dropped: int)
    requires msgs != [] && cut <= |msgs|
    ensures CutAt(e, msgs, cut) == Trim(kept, dropped) <==> IsCutList(e, msgs, cut, kept, dropped)
  {
    var head, body := Reserved(msgs), Sanitized(msgs[cut..]);
    assert cut == |msgs| ==> msgs[cut..] == [] && body == [];
    hide Sanitized, TotalTokens, Lost, Digits;
    if cut > head && body != [] {
      var trim := CutAt(e, msgs, cut);
      NoteIs(e, msgs, cut, body);
      hide IsNote, Note;
      assert trim.kept == msgs[..head] + [Note(e, msgs, cut, body)] + body;
      if IsCutList(e, msgs, cut, kept, dropped) {
        assert kept == kept[..head] + [kept[head]] + kept[head + 1..];
        SameNote(kept[head], Note(e, msgs, cut, body), e, msgs[head..cut], body[0]);
      }
    }
  }

  lemma {:induction false} NoteIs(e: Estimator, msgs: seq<Message>, cut: nat, body: seq<Message>)
    requires Reserved(msgs) < cut <= |msgs| && body != []
    ensures IsNote(Note(e, msgs, cut, body), e, msgs[Reserved(msgs)..cut], body[0])
  {
  }

  lemma {:induction false} SameNote(a: Message, b: Message, e: Estimator, left: seq<Message>, next: Message)
    requires IsNote(a, e, left, next) && IsNote(b, e, left, next)
    ensures a == b
  {
  }

  /** The trim does what it should and nothing else, on every input. */
  lemma {:induction false} TrimExactly(
    e: Estimator, msgs: seq<Message>, tools: nat, limit: int, kept: seq<Message>, dropped: int)
    ensures Capped(e, msgs, tools, limit) == Trim(kept, dropped) <==> IsTrimmed(e, msgs, tools, limit, kept, dropped)
  {
    if !(msgs == [] || limit <= 0 || tools + TotalTokens(e, msgs) <= limit) {
      var start, cut := RawCut(e, msgs, tools, limit), Cut(e, msgs, tools, limit);
      StartOf(e, msgs, tools, limit);
      assert IsCut(msgs, start, cut);
      CutListOf(e, msgs, cut, kept, dropped);
      hide CutAt, IsCutList, IsStart, IsCut, TotalTokens, RawCut, Cut;
      if IsTrimmed(e, msgs, tools, limit, kept, dropped) {
        var start': nat, cut': nat :| IsStart(e, msgs, tools, RoomFor(limit), start') && IsCut(msgs, start', cut')
                                      && IsCutList(e, msgs, cut', kept, dropped);
        StartIsUnique(e, msgs, tools, RoomFor(limit), start, start');
        CutIsUnique(msgs, start, cut, cut');
      }
    }
  }

  // ---------- Numbers in the note ----------

  function Value(digits: string): int {
    if digits == "" then 0 else 10 * Value(digits[..|digits| - 1]) + digits[|digits| - 1] as int - '0' as int
  }

  /** The digits of a number read as that number, without a leading zero. */
  lemma {:induction false} DigitsRead(n: nat)
    ensures Value(Digits(n)) == n && Digits(n) != "" && (n > 0 ==> Digits(n)[0] != '0')
    ensures forall k | 0 <= k < |Digits(n)| :: '0' <= Digits(n)[k] <= '9'
  {
    if n >= 10 {
      DigitsRead(n / 10);
      var last := [('0' as int + n % 10) as char];
      assert Digits(n)[..|Digits(n)| - 1] == Digits(n / 10);
    } else {
      assert Digits(n)[..0] == "";
    }
  }

  // ---------- The ceiling ----------

  function Factor(inflation: real): real {
    if inflation > 1.0 then inflation else 1.0
  }

  /** The share of the window a trimmed request may take; a ratio out of range counts as 0.9. */
  function Allowed(window: int, ratio: real): int {
    (window as real * (if 0.0 < ratio <= 1.0 then ratio else 0.9)).Floor
  }

  predicate OverWindow(tokens: int, window: int, inflation: real) {
    (tokens as real * Factor(inflation)).Floor > window
  }

  /** The limit messages and tools are trimmed to: the allowed share, scaled back. */
  function TrimGoal(window: int, inflation: real, ratio: real): int {
    if inflation > 1.0 then (Allowed(window, ratio) as real / inflation).Floor else Allowed(window, ratio)
  }

  /** A list within the window passes as it is. One over it is trimmed; it passes if and only if something was left out
      and what is left fits the allowed share, scaled. */
  ghost predicate Rules(
    e: Estimator, msgs: seq<Message>, tools: nat, window: int, inflation: real, ratio: real, v: Verdict)
  {
    var tokens := TotalTokens(e, msgs) + tools;
    if !OverWindow(tokens, window, inflation) then v == Verdict(msgs, 0, tokens, tokens, true)
    else
      && IsTrimmed(e, msgs, tools, TrimGoal(window, inflation, ratio), v.out, v.dropped)
      && v.before == tokens && v.after == TotalTokens(e, v.out) + tools
      && (v.fits <==> v.dropped > 0 && v.after as real * Factor(inflation) <= Allowed(window, ratio) as real)
  }

  lemma {:induction false} FitsScaledBack(n: int, limit: int, f: real)
    requires f >= 1.0
    ensures n <= Shrunk(limit, f) <==> n as real * f <= limit as real
  {
    if f > 1.0 {
      var q := limit as real / f;
      assert q * f == limit as real;
      assert n <= q.Floor <==> n as real <= q;
      if n as real <= q {
        assert (q - n as real) * f >= 0.0;
      } else {
        assert (n as real - q) * f > 0.0;
      }
    } else {
      assert n as real * f == n as real;
    }
  }

  lemma {:induction false} SameArithmetic(window: int, inflation: real, ratio: real)
    ensures AtLeastOne(inflation) == Factor(inflation) && Share(window, SaneRatio(ratio)) == Allowed(window, ratio)
    ensures LimitFor(window, inflation, ratio) == TrimGoal(window, inflation, ratio)
  {
  }

  lemma {:induction false} OverIs(tokens: int, window: int, inflation: real)
    ensures OverWindow(tokens, window, inflation) <==> Scaled(tokens, AtLeastOne(inflation)) > window
  {
  }

  /** An empty list, and any while no window is known, passes unmeasured. */
  lemma {:induction false} UnmeasuredPasses(
    e: Estimator, msgs: seq<Message>, tools: nat, window: int, inflation: real, ratio: real)
    requires window <= 0 || msgs == []
    ensures EnforceCeiling(e, msgs, tools, window, inflation, ratio) == Verdict(msgs, 0, 0, 0, true)
  {
  }

  /** What the ceiling says of a list it measures is what the rules say. */
  lemma {:induction false} CeilingRules(
    e: Estimator, msgs: seq<Message>, tools: nat, window: int, inflation: real, ratio: real)
    requires window > 0 && msgs != []
    ensures Rules(e, msgs, tools, window, inflation, ratio, EnforceCeiling(e, msgs, tools, window, inflation, ratio))
  {
    hide *;
    var v := EnforceCeiling(e, msgs, tools, window, inflation, ratio);
    var tokens := TotalTokens(e, msgs) + tools;
    OverIs(tokens, window, inflation);
    SameArithmetic(window, inflation, ratio);
    if OverWindow(tokens, window, inflation) {
      var trim := Capped(e, msgs, tools, TrimGoal(window, inflation, ratio));
      OverTheWindow(e, msgs, tools, window, inflation, ratio);
      FactorIs(inflation);
      FitsScaledBack(v.after, Allowed(window, ratio), Factor(inflation));
      TrimExactly(e, msgs, tools, TrimGoal(window, inflation, ratio), trim.kept, trim.dropped);
    } else {
      WithinTheWindow(e, msgs, tools, window, inflation, ratio);
    }
    RulesAre(e, msgs, tools, window, inflation, ratio, v);
  }

  lemma {:induction false} FactorIs(inflation: real)
    ensures Factor(inflation) >= 1.0
  {
  }

  lemma {:induction false} RulesAre(
    e: Estimator, msgs: seq<Message>, tools: nat, window: int, inflation: real, ratio: real, v: Verdict)
    requires var tokens := TotalTokens(e, msgs) + tools;
             if !OverWindow(tokens, window, inflation) then v == Verdict(msgs, 0, tokens, tokens, true)
             else
               && IsTrimmed(e, msgs, tools, TrimGoal(window, inflation, ratio), v.out, v.dropped)
               && v.before == tokens && v.after == TotalTokens(e, v.out) + tools
               && (v.fits <==> v.dropped > 0 && v.after as real * Factor(inflation) <= Allowed(window, ratio) as real)
    ensures Rules(e, msgs, tools, window, inflation, ratio, v)
  {
    hide IsTrimmed, TotalTokens, TrimGoal, Factor, Allowed;
  }

  lemma {:induction false} WithinTheWindow(
    e: Estimator, msgs: seq<Message>, tools: nat, window: int, inflation: real, ratio: real)
    requires window > 0 && msgs != [] && Scaled(TotalTokens(e, msgs) + tools, AtLeastOne(inflation)) <= window
    ensures var tokens := TotalTokens(e, msgs) + tools;
            EnforceCeiling(e, msgs, tools, window, inflation, ratio) == Verdict(msgs, 0, tokens, tokens, true)
  {
    hide TotalTokens, Scaled, Capped, LimitFor;
  }

  lemma {:induction false} OverTheWindow(
    e: Estimator, msgs: seq<Message>, tools: nat, window: int, inflation: real, ratio: real)
    requires window > 0 && msgs != [] && Scaled(TotalTokens(e, msgs) + tools, AtLeastOne(inflation)) > window
    ensures var v := EnforceCeiling(e, msgs, tools, window, inflation, ratio);
            var trim := Capped(e, msgs, tools, LimitFor(window, inflation, ratio));
            var limit := Share(window, SaneRatio(ratio));
            && Trim(v.out, v.dropped) == trim && v.dropped >= 0
            && v.before == TotalTokens(e, msgs) + tools && v.after == TotalTokens(e, v.out) + tools
            && (v.fits <==> v.dropped > 0 && v.after <= Shrunk(limit, AtLeastOne(inflation)))
  {
    FitMeansWithinWindow(e, msgs, tools, window, inflation, ratio);
    UntrimmedIsInput(e, msgs, tools, LimitFor(window, inflation, ratio));
    hide TotalTokens, Scaled, Capped, Shrunk, Share, AtLeastOne, SaneRatio;
  }
}
