/** The vocabulary the store, the broker and the orchestrator share. */
module Types {
  import opened Json
  import opened Provider

  type Id = nat
  type Time = nat

  /** A scope and a subject within it. */
  datatype Owner = Owner(scope: string, subject: string)

  datatype ChatRole = User | Assistant | System | Tool

  /** A tool result carries a JSON value; every other message carries text. */
  datatype Body = Plain(text: string) | Payload(value: Json)

  datatype ChatMessage = ChatMessage(role: ChatRole, content: Body, toolCallId: Option<string>,
                                     toolCalls: Option<seq<ToolCall>>)

  function AssistantToolCalls(content: string, calls: seq<ToolCall>): ChatMessage {
    ChatMessage(Assistant, Plain(content), None, Some(calls))
  }

  function ToolResult(id: string, payload: Json): ChatMessage {
    ChatMessage(Tool, Payload(payload), Some(id), None)
  }

  datatype ToolCallStatus = Requested | AwaitingApproval | Approved | Denied | Running | Succeeded | Failed | Expired

  /** One tool call as the store keeps it. */
  datatype CallRow = CallRow(id: string, owner: Owner, threadId: Id, messageId: Id, name: string,
                             arguments: Json, argumentsHash: string, status: ToolCallStatus,
                             expiresAt: Option<Time>, approvalKind: Option<string>, confirmField: Option<string>,
                             approvalId: Option<string>, result: Option<Json>, errorCode: Option<string>,
                             createdAt: Time, completedAt: Option<Time>)

  // ---------------------------------------------------------------- pairing

  /** `ms` starts with one result per call, same identifiers, same order. */
  predicate Answers(calls: seq<ToolCall>, ms: seq<ChatMessage>) {
    |calls| <= |ms| && forall i | 0 <= i < |calls| :: ms[i].role.Tool? && ms[i].toolCallId == Some(calls[i].id)
                                                   && ms[i].toolCalls == None
  }

  /** Every message with tool calls is followed by exactly its results, and no result
      stands anywhere else. */
  predicate WellPaired(ms: seq<ChatMessage>)
    decreases |ms|
  {
    ms == [] ||
    match ms[0].toolCalls
    case Some(calls) => !ms[0].role.Tool? && Answers(calls, ms[1..]) && WellPaired(ms[1 + |calls|..])
    case None => !ms[0].role.Tool? && WellPaired(ms[1..])
  }

  lemma AnswersStay(calls: seq<ToolCall>, ms: seq<ChatMessage>, more: seq<ChatMessage>)
    requires Answers(calls, ms)
    ensures Answers(calls, ms + more)
  {
  }

  /** What the first message of a well-paired list takes with it. */
  function HeadLength(ms: seq<ChatMessage>): nat
    requires ms != []
  {
    1 + match ms[0].toolCalls case Some(calls) => |calls| case None => 0
  }

  lemma HeadStays(a: seq<ChatMessage>, b: seq<ChatMessage>)
    requires a != [] && WellPaired(a) && HeadLength(a) <= |a| && WellPaired(a[HeadLength(a)..] + b)
    ensures WellPaired(a + b)
  {
    var n := HeadLength(a);
    assert (a + b)[1..] == a[1..] + b && (a + b)[n..] == a[n..] + b;
    if a[0].toolCalls.Some? { AnswersStay(a[0].toolCalls.value, a[1..], b); }
  }

  lemma {:induction false} WellPairedAppends(a: seq<ChatMessage>, b: seq<ChatMessage>)
    requires WellPaired(a) && WellPaired(b)
    ensures WellPaired(a + b)
    decreases |a|
  {
    if a == [] {
      assert a + b == b;
    } else {
      WellPairedAppends(a[HeadLength(a)..], b);
      HeadStays(a, b);
    }
  }

  /** A message with calls together with its results. */
  lemma PairedRound(m: ChatMessage, calls: seq<ToolCall>, results: seq<ChatMessage>)
    requires m.toolCalls == Some(calls) && !m.role.Tool? && |results| == |calls| && Answers(calls, results)
    ensures WellPaired([m] + results)
  {
    var ms := [m] + results;
    assert ms[1..] == results && ms[1 + |calls|..] == [];
  }
}
