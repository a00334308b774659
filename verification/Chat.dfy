/** The incremental decoders of the chat-completions and messages protocols. */
module Chat {
  import opened Json
  import opened Text
  import opened Provider

  /** What a decoder has accumulated so far. */
  datatype State = State(content: string, reasoning: string, usage: Option<Usage>, calls: map<nat, PartialCall>)

  const START := State("", "", None, map[])

  function PushContent(st: State, text: string): State {
    st.(content := st.content + text)
  }

  function PushReasoning(st: State, text: string): State {
    st.(reasoning := st.reasoning + text)
  }

  function PushUsage(st: State, usage: Option<Usage>): State {
    if usage.Some? then st.(usage := MergeUsage(st.usage, usage.value)) else st
  }

  function SetCall(st: State, index: nat, call: PartialCall): State {
    st.(calls := st.calls[index := call])
  }

  /** Streamed argument text wins over the input given when the call was opened. */
  function FinishCall(parse: string -> Option<Json>, call: PartialCall): ToolCall {
    ToolCall(call.id, call.name, ReadArguments(parse, if call.arguments == "" then call.initial else call.arguments))
  }

  ghost function Outcome(parse: string -> Option<Json>, st: State): AssistantOutcome {
    var calls := OrderedCalls(st.calls);
    AssistantOutcome(st.content, NonEmpty(st.reasoning), None, st.usage,
                     seq(|calls|, i requires 0 <= i < |calls| => FinishCall(parse, calls[i])))
  }

  // ---------------------------------------------------------------- chat completions

  datatype FunctionDelta = FunctionDelta(name: Option<string>, arguments: Option<string>)
  datatype CallDelta = CallDelta(index: Option<nat>, id: Option<string>, function_: Option<FunctionDelta>)
  datatype Delta = Delta(content: Option<string>, reasoning: Option<string>, calls: seq<CallDelta>)
  datatype Choice = Choice(usage: Option<Usage>, delta: Option<Delta>)
  datatype Chunk = Chunk(error: Option<string>, usage: Option<Usage>, choices: seq<Choice>)

  /** One payload: nothing, the end marker, text that is no JSON, or a chunk. */
  datatype ChatPayload = Empty | DoneMarker | PlainText(text: string) | ChunkPayload(chunk: Chunk)

  function Longer(text: Option<string>, more: string): Option<string> {
    Some(OrEmpty(text) + more)
  }

  function ConsumeCall(st: State, call: CallDelta): State {
    var index := if call.index.Some? then call.index.value else |st.calls|;
    var entry := CallAt(st.calls, index);
    var named := if OrEmpty(call.id) != "" then entry.(id := call.id.value) else entry;
    match call.function_
    case None => SetCall(st, index, named)
    case Some(f) =>
      var called := if OrEmpty(f.name) != "" then named.(name := f.name.value) else named;
      SetCall(st, index, called.(arguments := called.arguments + OrEmpty(f.arguments)))
  }

  function ConsumeCalls(st: State, calls: seq<CallDelta>): State
    decreases calls
  {
    if calls == [] then st else ConsumeCalls(ConsumeCall(st, calls[0]), calls[1..])
  }

  function ConsumeChoice(st: State, round: RoundDelta, choice: Choice): (State, RoundDelta) {
    var st1 := PushUsage(st, choice.usage);
    var round1 := if choice.usage.Some? then round.(usage := choice.usage) else round;
    match choice.delta
    case None => (st1, round1)
    case Some(d) =>
      var (st2, round2) := match d.content
        case Some(text) => (PushContent(st1, text), round1.(content := Longer(round1.content, text)))
        case None => (st1, round1);
      var (st3, round3) := match d.reasoning
        case Some(text) => (PushReasoning(st2, text), round2.(reasoning := Longer(round2.reasoning, text)))
        case None => (st2, round2);
      (ConsumeCalls(st3, d.calls), round3)
  }

  function ConsumeChoices(st: State, round: RoundDelta, choices: seq<Choice>): (State, RoundDelta)
    decreases choices
  {
    if choices == [] then (st, round) else
      var (st1, round1) := ConsumeChoice(st, round, choices[0]);
      ConsumeChoices(st1, round1, choices[1..])
  }

  function ConsumeChat(st: State, payload: ChatPayload): (State, PayloadEvent) {
    match payload
    case Empty => (st, Data(NO_DELTA))
    case DoneMarker => (st, Done)
    case PlainText(text) => (PushContent(st, text), Data(RoundDelta(Some(text), None, None)))
    case ChunkPayload(chunk) =>
      if chunk.error.Some? then (st, Failed(chunk.error.value))
      else
        var round0 := RoundDelta(None, None, chunk.usage);
        var (end, round) := ConsumeChoices(PushUsage(st, chunk.usage), round0, chunk.choices);
        (end, Data(round))
  }

  class ChatDecoder {
    var content: string
    var reasoning: string
    var usage: Option<Usage>
    var calls: map<nat, PartialCall>

    ghost function View(): State
      reads this
    {
      State(content, reasoning, usage, calls)
    }

    constructor ()
      ensures View() == START
    {
      content, reasoning, usage, calls := "", "", None, map[];
    }

    method ConsumeToolCall(call: CallDelta)
      modifies this`calls
      ensures View() == ConsumeCall(old(View()), call)
    {
      var index := if call.index.Some? then call.index.value else |calls|;
      var entry := CallAt(calls, index);
      if call.id.Some? && call.id.value != "" { entry := entry.(id := call.id.value); }
      match call.function_ {
        case None =>
        case Some(f) =>
          if f.name.Some? && f.name.value != "" { entry := entry.(name := f.name.value); }
          assert entry.arguments + "" == entry.arguments;
          if f.arguments.Some? { entry := entry.(arguments := entry.arguments + f.arguments.value); }
      }
      calls := calls[index := entry];
    }

    method Consume(payload: ChatPayload) returns (event: PayloadEvent)
      modifies this
      ensures (View(), event) == ConsumeChat(old(View()), payload)
    {
      match payload {
        case Empty => return Data(NO_DELTA);
        case DoneMarker => return Done;
        case PlainText(text) =>
          content := content + text;
          return Data(RoundDelta(Some(text), None, None));
        case ChunkPayload(chunk) =>
          if chunk.error.Some? { return Failed(chunk.error.value); }
          var round := NO_DELTA;
          if chunk.usage.Some? {
            usage := MergeUsage(usage, chunk.usage.value);
            round := round.(usage := chunk.usage);
          }
          ghost var goal := ConsumeChoices(View(), round, chunk.choices);
          for i := 0 to |chunk.choices|
            invariant ConsumeChoices(View(), round, chunk.choices[i..]) == goal
          {
            assert chunk.choices[i..][1..] == chunk.choices[i + 1..];
            round := ConsumeOne(chunk.choices[i], round);
          }
          return Data(round);
      }
    }

    method ConsumeOne(choice: Choice, before: RoundDelta) returns (round: RoundDelta)
      modifies this
      ensures (View(), round) == ConsumeChoice(old(View()), before, choice)
    {
      round := before;
      if choice.usage.Some? {
        usage := MergeUsage(usage, choice.usage.value);
        round := round.(usage := choice.usage);
      }
      if choice.delta.None? { return; }
      var delta := choice.delta.value;
      if delta.content.Some? {
        content := content + delta.content.value;
        round := round.(content := Longer(round.content, delta.content.value));
      }
      if delta.reasoning.Some? {
        reasoning := reasoning + delta.reasoning.value;
        round := round.(reasoning := Longer(round.reasoning, delta.reasoning.value));
      }
      ghost var goal := ConsumeCalls(View(), delta.calls);
      for i := 0 to |delta.calls|
        invariant ConsumeCalls(View(), delta.calls[i..]) == goal
      {
        assert delta.calls[i..][1..] == delta.calls[i + 1..];
        ConsumeToolCall(delta.calls[i]);
      }
    }
  }

  // ---------------------------------------------------------------- messages

  /** `input` is the printed input object of the block, when it is a non-empty object. */
  datatype ToolUse = ToolUse(id: Option<string>, name: Option<string>, input: Option<string>)

  datatype BlockDelta =
    | Thinking(text: Option<string>)
    | InputJson(text: Option<string>)
    | TextPiece(text: Option<string>)

  datatype MessagesEvent =
    | ErrorMessage(message: Option<string>)
    | BlockStart(index: Option<nat>, toolUse: Option<ToolUse>)
    | BlockDeltaEvent(index: Option<nat>, delta: Option<BlockDelta>)
    | MessageStart(usage: Option<Usage>)
    | MessageDelta(usage: Option<Usage>)
    | MessageStop
    | OtherMessage

  datatype MessagesPayload = NoPayload | PlainPayload(text: string) | EventPayload(event: MessagesEvent)

  function BlockIndex(index: Option<nat>): nat {
    if index.Some? then index.value else 0
  }

  function OpenToolUse(st: State, index: nat, use: ToolUse): State {
    var entry := CallAt(st.calls, index).(id := OrEmpty(use.id), name := OrEmpty(use.name));
    SetCall(st, index, if use.input.Some? then entry.(initial := use.input.value) else entry)
  }

  function PushToolInput(st: State, index: nat, text: string): State {
    var entry := CallAt(st.calls, index);
    SetCall(st, index, entry.(arguments := entry.arguments + text))
  }

  function ConsumeMessages(st: State, payload: MessagesPayload): (State, PayloadEvent) {
    match payload
    case PlainPayload(text) => (PushContent(st, text), Data(RoundDelta(Some(text), None, None)))
    case EventPayload(ErrorMessage(message)) =>
      (st, Failed(if message.Some? then message.value else "provider stream error"))
    case EventPayload(BlockStart(index, Some(use))) => (OpenToolUse(st, BlockIndex(index), use), Data(NO_DELTA))
    case EventPayload(BlockDeltaEvent(_, Some(Thinking(Some(text))))) =>
      (PushReasoning(st, text), Data(RoundDelta(None, Some(text), None)))
    case EventPayload(BlockDeltaEvent(index, Some(InputJson(Some(text))))) =>
      (PushToolInput(st, BlockIndex(index), text), Data(NO_DELTA))
    case EventPayload(BlockDeltaEvent(_, Some(TextPiece(Some(text))))) =>
      (PushContent(st, text), Data(RoundDelta(Some(text), None, None)))
    case EventPayload(MessageStart(usage)) => (PushUsage(st, usage), Data(RoundDelta(None, None, usage)))
    case EventPayload(MessageDelta(usage)) => (PushUsage(st, usage), Data(RoundDelta(None, None, usage)))
    case EventPayload(MessageStop) => (st, Done)
    case _ => (st, Data(NO_DELTA))
  }

  /** The accumulator the messages decoder feeds. */
  class MessagesDecoder {
    var content: string
    var reasoning: string
    var usage: Option<Usage>
    var calls: map<nat, PartialCall>

    ghost function View(): State
      reads this
    {
      State(content, reasoning, usage, calls)
    }

    constructor ()
      ensures View() == START
    {
      content, reasoning, usage, calls := "", "", None, map[];
    }

    method Consume(payload: MessagesPayload) returns (event: PayloadEvent)
      modifies this
      ensures (View(), event) == ConsumeMessages(old(View()), payload)
    {
      var round := NO_DELTA;
      match payload {
        case PlainPayload(text) =>
          content := content + text;
          round := round.(content := Some(text));
        case EventPayload(ErrorMessage(message)) =>
          return Failed(if message.Some? then message.value else "provider stream error");
        case EventPayload(BlockStart(i, Some(use))) =>
          var index := BlockIndex(i);
          var entry := CallAt(calls, index).(id := OrEmpty(use.id), name := OrEmpty(use.name));
          if use.input.Some? { entry := entry.(initial := use.input.value); }
          calls := calls[index := entry];
        case EventPayload(BlockDeltaEvent(_, Some(Thinking(Some(text))))) =>
          reasoning := reasoning + text;
          round := round.(reasoning := Some(text));
        case EventPayload(BlockDeltaEvent(i, Some(InputJson(Some(text))))) =>
          var index := BlockIndex(i);
          var entry := CallAt(calls, index);
          calls := calls[index := entry.(arguments := entry.arguments + text)];
        case EventPayload(BlockDeltaEvent(_, Some(TextPiece(Some(text))))) =>
          content := content + text;
          round := round.(content := Some(text));
        case EventPayload(MessageStart(u)) =>
          if u.Some? { usage := MergeUsage(usage, u.value); round := round.(usage := u); }
        case EventPayload(MessageDelta(u)) =>
          if u.Some? { usage := MergeUsage(usage, u.value); round := round.(usage := u); }
        case EventPayload(MessageStop) => return Done;
        case _ =>
      }
      return Data(round);
    }
  }
}
