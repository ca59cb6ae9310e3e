/** The chat messages a request carries and the token estimate the host puts on them. */
module Messages {
  /** The four roles the host branches on; every other role string is `Other`. */
  datatype Role = System | User | Assistant | Tool | Other(name: string)

  datatype ToolCall = ToolCall(id: string, name: string, arguments: string)

  datatype Message = Message(
    id: string, role: Role, content: string, toolCallId: string,
    toolCalls: seq<ToolCall>, images: seq<string>)

  /** The two leaf estimates. The host calibrates their coefficients at run time, so they are parameters here. */
  datatype Estimator = Estimator(text: string -> nat, image: string -> nat)

  predicate CallsTools(m: Message) {
    m.role.Assistant? && m.toolCalls != []
  }

  /** A tool result that names the call it answers. */
  predicate IsResult(m: Message) {
    m.role.Tool? && m.toolCallId != ""
  }

  /** No tool result and no tool call: the message can neither lose nor gain a partner. */
  predicate Bystander(m: Message) {
    !m.role.Tool? && !CallsTools(m)
  }

  /** Unicode White_Space, as Go's `unicode.IsSpace` has it. */
  predicate IsSpace(c: char) {
    var n := c as int;
    9 <= n <= 13 || n == 32 || n == 0x85 || n == 0xA0 || n == 0x1680 || 0x2000 <= n <= 0x200A
    || n == 0x2028 || n == 0x2029 || n == 0x202F || n == 0x205F || n == 0x3000
  }

  /** The text is empty once trimmed. */
  predicate Blank(s: string) {
    forall i | 0 <= i < |s| :: IsSpace(s[i])
  }

  function CallTokens(e: Estimator, calls: seq<ToolCall>): nat {
    if calls == [] then 0
    else e.text(calls[0].name + calls[0].arguments) + 8 + CallTokens(e, calls[1..])
  }

  function ImageTokens(e: Estimator, images: seq<string>): nat {
    if images == [] then 0 else e.image(images[0]) + ImageTokens(e, images[1..])
  }

  function MessageTokens(e: Estimator, m: Message): nat {
    e.text(m.content) + (if m.role.Tool? then 6 else 4) + ImageTokens(e, m.images) + CallTokens(e, m.toolCalls)
  }

  function TotalTokens(e: Estimator, msgs: seq<Message>): nat {
    if msgs == [] then 0 else MessageTokens(e, msgs[0]) + TotalTokens(e, msgs[1..])
  }

  lemma {:induction false} TotalTokensAppend(e: Estimator, a: seq<Message>, b: seq<Message>)
    ensures TotalTokens(e, a + b) == TotalTokens(e, a) + TotalTokens(e, b)
  {
    if a == [] {
      assert a + b == b;
    } else {
      assert (a + b)[1..] == a[1..] + b;
      TotalTokensAppend(e, a[1..], b);
    }
  }

  lemma {:induction false} TotalTokensSplit(e: Estimator, msgs: seq<Message>, i: nat)
    requires i <= |msgs|
    ensures TotalTokens(e, msgs) == TotalTokens(e, msgs[..i]) + TotalTokens(e, msgs[i..])
  {
    assert msgs == msgs[..i] + msgs[i..];
    TotalTokensAppend(e, msgs[..i], msgs[i..]);
  }
}
