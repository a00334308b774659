/** The Responses protocol: buffered parser, incremental decoder, and when the two agree. */
module Responses {
  import opened Json
  import opened Text
  import opened Provider

  /** The fields read from an output item, each absent when the JSON does not carry it. */
  datatype Part = Part(text: Option<string>, refusal: Option<string>)

  datatype Item =
    | Message(parts: seq<Part>)
    | Reasoning(summary: seq<Option<string>>, content: seq<Option<string>>)
    | FunctionCall(callId: Option<string>, itemId: Option<string>, name: Option<string>,
                   arguments: Option<Json>)
    | OtherItem

  datatype Response = Response(status: Option<string>, model: Option<string>, usage: Option<Usage>,
                               output: seq<Item>, detail: string)

  datatype Event =
    | TextDelta(index: Option<nat>, delta: Option<string>)
    | TextDone(index: Option<nat>, text: Option<string>)
    | PartDone(index: Option<nat>, text: Option<string>)
    | ReasoningDelta(index: Option<nat>, delta: Option<string>)
    | ReasoningDone(index: Option<nat>, text: Option<string>)
    | ItemAdded(index: Option<nat>, item: Option<Item>)
    | ArgumentsDelta(index: Option<nat>, delta: Option<string>)
    | ArgumentsDone(index: Option<nat>, arguments: Option<string>)
    | ItemDone(index: Option<nat>, item: Option<Item>)
    | Completed(response: Response)
    | FailedResponse(detail: string)
    | ErrorEvent(message: Option<string>)
    | OtherEvent

  /** One payload of the stream: nothing, the end marker, text that is no JSON, or an event. */
  datatype Payload = Empty | DoneMarker | PlainText(text: string) | Parsed(event: Event)

  function Index(index: Option<nat>): nat {
    if index.Some? then index.value else 0
  }

  // ---------------------------------------------------------------- buffered

  function MessageText(parts: seq<Part>): string {
    if parts == [] then "" else
      OrEmpty(OrElse(parts[0].text, parts[0].refusal)) + MessageText(parts[1..])
  }

  function Texts(texts: seq<Option<string>>): string {
    if texts == [] then "" else OrEmpty(texts[0]) + Texts(texts[1..])
  }

  function ReasoningText(item: Item): string
    requires item.Reasoning?
  {
    Texts(item.summary) + Texts(item.content)
  }

  function ParseFunctionCall(parse: string -> Option<Json>, item: Item): Option<ToolCall>
    requires item.FunctionCall?
  {
    var id := OrElse(item.callId, item.itemId);
    if item.name.None? || id.None? then None
    else
      var arguments := match item.arguments
        case Some(Str(text)) => ReadArguments(parse, text)
        case Some(v) => v
        case None => Obj(map[]);
      Some(ToolCall(id.value, item.name.value, arguments))
  }

  /** What one item contributes. */
  function ItemContent(item: Item): string {
    if item.Message? then MessageText(item.parts) else ""
  }

  function ItemReasoning(item: Item): string {
    if item.Reasoning? then ReasoningText(item) else ""
  }

  function ItemCalls(parse: string -> Option<Json>, item: Item): seq<ToolCall> {
    if item.FunctionCall? && ParseFunctionCall(parse, item).Some? then [ParseFunctionCall(parse, item).value] else []
  }

  function ContentOf(items: seq<Item>): string {
    if items == [] then "" else
      ItemContent(items[0]) + ContentOf(items[1..])
  }

  function ReasoningOf(items: seq<Item>): string {
    if items == [] then "" else
      ItemReasoning(items[0]) + ReasoningOf(items[1..])
  }

  function CallsOf(parse: string -> Option<Json>, items: seq<Item>): seq<ToolCall> {
    if items == [] then [] else
      ItemCalls(parse, items[0]) + CallsOf(parse, items[1..])
  }

  /** What a completed response says, read item by item whatever the items' order. */
  function Buffered(parse: string -> Option<Json>, r: Response): Option<AssistantOutcome> {
    if r.status != Some("completed") then None
    else Some(AssistantOutcome(ContentOf(r.output), NonEmpty(ReasoningOf(r.output)), r.model, r.usage,
                               CallsOf(parse, r.output)))
  }

  lemma OneMore(parse: string -> Option<Json>, items: seq<Item>, i: nat, content: string, reasoning: string,
                calls: seq<ToolCall>)
    requires i < |items|
    ensures content + ContentOf(items[i..]) == content + ItemContent(items[i]) + ContentOf(items[i + 1..])
    ensures reasoning + ReasoningOf(items[i..]) == reasoning + ItemReasoning(items[i]) + ReasoningOf(items[i + 1..])
    ensures calls + CallsOf(parse, items[i..]) == calls + ItemCalls(parse, items[i]) + CallsOf(parse, items[i + 1..])
  {
    assert items[i..][1..] == items[i + 1..];
    Associates(content, ItemContent(items[i]), ContentOf(items[i + 1..]));
    Associates(reasoning, ItemReasoning(items[i]), ReasoningOf(items[i + 1..]));
    Associates(calls, ItemCalls(parse, items[i]), CallsOf(parse, items[i + 1..]));
  }

  method ExtractOutcome(parse: string -> Option<Json>, r: Response)
    returns (outcome: Option<AssistantOutcome>)
    ensures outcome == Buffered(parse, r)
  {
    if r.status != Some("completed") { return None; }
    var content, reasoning, toolCalls := "", "", [];
    for i := 0 to |r.output|
      invariant content + ContentOf(r.output[i..]) == ContentOf(r.output)
      invariant reasoning + ReasoningOf(r.output[i..]) == ReasoningOf(r.output)
      invariant toolCalls + CallsOf(parse, r.output[i..]) == CallsOf(parse, r.output)
    {
      var item := r.output[i];
      OneMore(parse, r.output, i, content, reasoning, toolCalls);
      assert content + "" == content && reasoning + "" == reasoning && toolCalls + [] == toolCalls;
      match item {
        case Message(parts) => content := content + MessageText(parts);
        case Reasoning(_, _) => reasoning := reasoning + ReasoningText(item);
        case FunctionCall(_, _, _, _) =>
          var call := ParseFunctionCall(parse, item);
          if call.Some? { toolCalls := toolCalls + [call.value]; }
        case OtherItem =>
      }
    }
    assert r.output[|r.output|..] == [];
    assert content + "" == content && reasoning + "" == reasoning && toolCalls + [] == toolCalls;
    return Some(AssistantOutcome(content, NonEmpty(reasoning), r.model, r.usage, toolCalls));
  }

  // ---------------------------------------------------------------- streamed

  datatype State = State(content: string, reasoning: string, usage: Option<Usage>, model: Option<string>,
                         calls: map<nat, PartialCall>, streamedText: set<nat>,
                         streamedReasoning: set<nat>, streamedArguments: set<nat>)

  const START := State("", "", None, None, map[], {}, {}, {})

  function SayContent(st: State, text: string): (State, PayloadEvent) {
    (st.(content := st.content + text), Data(RoundDelta(Some(text), None, None)))
  }

  function SayReasoning(st: State, text: string): (State, PayloadEvent) {
    (st.(reasoning := st.reasoning + text), Data(RoundDelta(None, Some(text), None)))
  }

  /** A non-empty identifier or name replaces the one recorded. */
  function Opened(call: PartialCall, item: Item): PartialCall
    requires item.FunctionCall?
  {
    var id := OrEmpty(OrElse(item.callId, item.itemId));
    var name := OrEmpty(item.name);
    call.(id := if id != "" then id else call.id, name := if name != "" then name else call.name)
  }

  function OpenCall(st: State, item: Item, index: nat): State
    requires item.FunctionCall?
  {
    st.(calls := st.calls[index := Opened(CallAt(st.calls, index), item)])
  }

  function PushArguments(st: State, index: nat, text: string): State {
    var call := CallAt(st.calls, index);
    st.(calls := st.calls[index := call.(arguments := call.arguments + text)])
  }

  function ArgumentText(item: Item): Option<string>
    requires item.FunctionCall?
  {
    match item.arguments
    case Some(Str(text)) => Some(text)
    case _ => None
  }

  function ItemDoneStep(st: State, index: nat, item: Item): (State, PayloadEvent) {
    match item
    case Message(parts) =>
      var text := MessageText(parts);
      if index !in st.streamedText && text != "" then SayContent(st, text) else (st, Data(NO_DELTA))
    case Reasoning(_, _) =>
      var text := ReasoningText(item);
      if index !in st.streamedReasoning && text != "" then SayReasoning(st, text) else (st, Data(NO_DELTA))
    case FunctionCall(_, _, _, _) =>
      var named := OpenCall(st, item, index);
      var text := ArgumentText(item);
      (if index !in st.streamedArguments && text.Some? then PushArguments(named, index, text.value) else named,
       Data(NO_DELTA))
    case OtherItem => (st, Data(NO_DELTA))
  }

  function Step(st: State, e: Event): (State, PayloadEvent) {
    match e
    case TextDelta(i, Some(delta)) =>
      SayContent(st.(streamedText := st.streamedText + {Index(i)}), delta)
    case TextDone(i, Some(text)) =>
      if Index(i) in st.streamedText then (st, Data(NO_DELTA)) else SayContent(st, text)
    case PartDone(i, Some(text)) =>
      if Index(i) in st.streamedText then (st, Data(NO_DELTA)) else SayContent(st, text)
    case ReasoningDelta(i, Some(delta)) =>
      SayReasoning(st.(streamedReasoning := st.streamedReasoning + {Index(i)}), delta)
    case ReasoningDone(i, Some(text)) =>
      if Index(i) in st.streamedReasoning then (st, Data(NO_DELTA)) else SayReasoning(st, text)
    case ItemAdded(i, Some(item)) =>
      (if item.FunctionCall? then OpenCall(st, item, Index(i)) else st, Data(NO_DELTA))
    case ArgumentsDelta(i, Some(delta)) =>
      (PushArguments(st, Index(i), delta).(streamedArguments := st.streamedArguments + {Index(i)}), Data(NO_DELTA))
    case ArgumentsDone(i, Some(text)) =>
      (if Index(i) in st.streamedArguments then st else PushArguments(st, Index(i), text), Data(NO_DELTA))
    case ItemDone(i, Some(item)) => ItemDoneStep(st, Index(i), item)
    case Completed(r) =>
      if r.status.Some? && r.status != Some("completed") then (st, Failed(r.detail))
      else (st.(usage := if r.usage.Some? then MergeUsage(st.usage, r.usage.value) else st.usage,
                model := if r.model.Some? then r.model else st.model), Done)
    case FailedResponse(detail) => (st, Failed(detail))
    case ErrorEvent(message) => (st, Failed(if message.Some? then message.value else "provider stream error"))
    case _ => (st, Data(NO_DELTA))
  }

  function ConsumePayload(st: State, payload: Payload): (State, PayloadEvent) {
    match payload
    case Empty => (st, Data(NO_DELTA))
    case DoneMarker => (st, Done)
    case PlainText(text) => SayContent(st, text)
    case Parsed(e) => Step(st, e)
  }

  function FinishCall(parse: string -> Option<Json>, call: PartialCall): ToolCall {
    ToolCall(call.id, call.name, ReadArguments(parse, call.arguments))
  }

  ghost function Outcome(parse: string -> Option<Json>, st: State): AssistantOutcome {
    var calls := OrderedCalls(st.calls);
    AssistantOutcome(st.content, NonEmpty(st.reasoning), st.model, st.usage,
                     seq(|calls|, i requires 0 <= i < |calls| => FinishCall(parse, calls[i])))
  }

  function Run(st: State, events: seq<Event>): State
    decreases events
  {
    if events == [] then st else Run(Step(st, events[0]).0, events[1..])
  }

  class Decoder {
    var content: string
    var reasoning: string
    var usage: Option<Usage>
    var model: Option<string>
    var calls: map<nat, PartialCall>
    var streamedText: set<nat>
    var streamedReasoning: set<nat>
    var streamedArguments: set<nat>

    ghost function View(): State
      reads this
    {
      State(content, reasoning, usage, model, calls, streamedText, streamedReasoning, streamedArguments)
    }

    constructor ()
      ensures View() == START
    {
      content, reasoning, usage, model := "", "", None, None;
      calls, streamedText, streamedReasoning, streamedArguments := map[], {}, {}, {};
    }

    method OpenToolCall(item: Item, index: nat)
      requires item.FunctionCall?
      modifies this`calls
      ensures calls == OpenCall(old(View()), item, index).calls
    {
      var entry := CallAt(calls, index);
      var id := OrElse(item.callId, item.itemId);
      if id.Some? && id.value != "" { entry := entry.(id := id.value); }
      if item.name.Some? && item.name.value != "" { entry := entry.(name := item.name.value); }
      calls := calls[index := entry];
    }

    method PushCallArguments(index: nat, text: string)
      modifies this`calls
      ensures calls == PushArguments(old(View()), index, text).calls
    {
      var entry := CallAt(calls, index);
      calls := calls[index := entry.(arguments := entry.arguments + text)];
    }

    method Consume(payload: Payload) returns (event: PayloadEvent)
      modifies this
      ensures (View(), event) == ConsumePayload(old(View()), payload)
    {
      var round := NO_DELTA;
      match payload {
        case Empty => return Data(round);
        case DoneMarker => return Done;
        case PlainText(text) =>
          content := content + text;
          return Data(round.(content := Some(text)));
        case Parsed(TextDelta(i, Some(delta))) =>
          content := content + delta;
          round := round.(content := Some(delta));
          streamedText := streamedText + {Index(i)};
        case Parsed(TextDone(i, Some(text))) =>
          if Index(i) !in streamedText {
            content := content + text;
            round := round.(content := Some(text));
          }
        case Parsed(PartDone(i, Some(text))) =>
          if Index(i) !in streamedText {
            content := content + text;
            round := round.(content := Some(text));
          }
        case Parsed(ReasoningDelta(i, Some(delta))) =>
          reasoning := reasoning + delta;
          round := round.(reasoning := Some(delta));
          streamedReasoning := streamedReasoning + {Index(i)};
        case Parsed(ReasoningDone(i, Some(text))) =>
          if Index(i) !in streamedReasoning {
            reasoning := reasoning + text;
            round := round.(reasoning := Some(text));
          }
        case Parsed(ItemAdded(i, Some(item))) =>
          if item.FunctionCall? { OpenToolCall(item, Index(i)); }
        case Parsed(ArgumentsDelta(i, Some(delta))) =>
          PushCallArguments(Index(i), delta);
          streamedArguments := streamedArguments + {Index(i)};
        case Parsed(ArgumentsDone(i, Some(text))) =>
          if Index(i) !in streamedArguments { PushCallArguments(Index(i), text); }
        case Parsed(ItemDone(i, Some(item))) =>
          match item {
            case Message(parts) =>
              var text := MessageText(parts);
              if Index(i) !in streamedText && text != "" {
                content := content + text;
                round := round.(content := Some(text));
              }
            case Reasoning(_, _) =>
              var text := ReasoningText(item);
              if Index(i) !in streamedReasoning && text != "" {
                reasoning := reasoning + text;
                round := round.(reasoning := Some(text));
              }
            case FunctionCall(_, _, _, _) =>
              OpenToolCall(item, Index(i));
              var text := ArgumentText(item);
              if Index(i) !in streamedArguments && text.Some? { PushCallArguments(Index(i), text.value); }
            case OtherItem =>
          }
        case Parsed(Completed(r)) =>
          if r.status.Some? && r.status != Some("completed") { return Failed(r.detail); }
          if r.usage.Some? { usage := MergeUsage(usage, r.usage.value); }
          if r.model.Some? { model := r.model; }
          return Done;
        case Parsed(FailedResponse(detail)) => return Failed(detail);
        case Parsed(ErrorEvent(message)) =>
          return Failed(if message.Some? then message.value else "provider stream error");
        case _ =>
      }
      return Data(round);
    }
  }

  // ---------------------------------------------------------------- a response as a stream

  lemma {:induction false} RunAppends(st: State, a: seq<Event>, b: seq<Event>)
    ensures Run(st, a + b) == Run(Run(st, a), b)
    decreases a
  {
    if a == [] {
      assert a + b == b;
    } else {
      assert (a + b)[1..] == a[1..] + b;
      RunAppends(Step(st, a[0]).0, a[1..], b);
    }
  }

  lemma RunOne(st: State, e: Event)
    ensures Run(st, [e]) == Step(st, e).0
  {
    assert [e][1..] == [];
  }

  lemma RunTwo(st: State, e: Event, f: Event)
    ensures Run(st, [e, f]) == Step(Step(st, e).0, f).0
  {
    RunAppends(st, [e], [f]);
    assert [e] + [f] == [e, f];
    RunOne(st, e);
    RunOne(Step(st, e).0, f);
  }

  /** A text cut for streaming: a non-empty one into one or more pieces, an empty one into none. */
  ghost predicate CutOf(text: string, pieces: seq<string>) {
    Flatten(pieces) == text && (pieces == [] <==> text == "")
  }

  function TextDeltas(k: nat, pieces: seq<string>): seq<Event> {
    seq(|pieces|, i requires 0 <= i < |pieces| => TextDelta(Some(k), Some(pieces[i])))
  }

  function ReasoningDeltas(k: nat, pieces: seq<string>): seq<Event> {
    seq(|pieces|, i requires 0 <= i < |pieces| => ReasoningDelta(Some(k), Some(pieces[i])))
  }

  function ArgumentsDeltas(k: nat, pieces: seq<string>): seq<Event> {
    seq(|pieces|, i requires 0 <= i < |pieces| => ArgumentsDelta(Some(k), Some(pieces[i])))
  }

  function PartEvents(k: nat, part: Part, pieces: seq<string>): seq<Event> {
    if part.text.None? then [PartDone(Some(k), None)]
    else TextDeltas(k, pieces) + [TextDone(Some(k), part.text), PartDone(Some(k), part.text)]
  }

  function PartsEvents(k: nat, parts: seq<Part>, cuts: seq<seq<string>>): seq<Event>
    requires |cuts| == |parts|
  {
    if parts == [] then [] else PartEvents(k, parts[0], cuts[0]) + PartsEvents(k, parts[1..], cuts[1..])
  }

  function TextsEvents(k: nat, texts: seq<Option<string>>, cuts: seq<seq<string>>): seq<Event>
    requires |cuts| == |texts|
  {
    if texts == [] then []
    else (if texts[0].None? then [] else ReasoningDeltas(k, cuts[0]) + [ReasoningDone(Some(k), texts[0])])
         + TextsEvents(k, texts[1..], cuts[1..])
  }

  /** How many texts of an item are cut. */
  function Slots(item: Item): nat {
    match item
    case Message(parts) => |parts|
    case Reasoning(summary, content) => |summary| + |content|
    case FunctionCall(_, _, _, _) => 1
    case OtherItem => 0
  }

  /** The text in a slot; a call's only slot is its argument string. */
  function SlotText(item: Item, i: nat): string
    requires i < Slots(item)
  {
    match item
    case Message(parts) => OrEmpty(parts[i].text)
    case Reasoning(summary, content) => OrEmpty(if i < |summary| then summary[i] else content[i - |summary|])
    case FunctionCall(_, _, _, _) => OrEmpty(ArgumentText(item))
  }

  /** The item is cut slot by slot. */
  ghost predicate CutUp(item: Item, cuts: seq<seq<string>>) {
    |cuts| == Slots(item) && forall i | 0 <= i < |cuts| :: CutOf(SlotText(item, i), cuts[i])
  }

  /** The events of output item `k`. */
  function ItemEvents(k: nat, item: Item, cuts: seq<seq<string>>): seq<Event>
    requires |cuts| == Slots(item)
  {
    match item
    case Message(parts) => PartsEvents(k, parts, cuts) + [ItemDone(Some(k), Some(item))]
    case Reasoning(summary, content) =>
      TextsEvents(k, summary, cuts[..|summary|]) + TextsEvents(k, content, cuts[|summary|..])
      + [ItemDone(Some(k), Some(item))]
    case FunctionCall(_, _, _, _) =>
      [ItemAdded(Some(k), Some(item.(arguments := Some(Str("")))))] + ArgumentsDeltas(k, cuts[0])
      + [ArgumentsDone(Some(k), Some(SlotText(item, 0))), ItemDone(Some(k), Some(item))]
    case OtherItem => [ItemDone(Some(k), Some(item))]
  }

  ghost function StreamOf(k: nat, items: seq<Item>, cuts: seq<seq<seq<string>>>): seq<Event>
    requires |cuts| == |items| && forall i | 0 <= i < |items| :: CutUp(items[i], cuts[i])
    decreases items
  {
    if items == [] then [] else
      assert CutUp(items[0], cuts[0]);
      ItemEvents(k, items[0], cuts[0]) + StreamOf(k + 1, items[1..], cuts[1..])
  }

  // ---------------------------------------------------------------- what one item adds

  function PartTexts(parts: seq<Part>): string {
    if parts == [] then "" else OrEmpty(parts[0].text) + PartTexts(parts[1..])
  }

  function Refusals(parts: seq<Part>): string {
    if parts == [] then "" else
      (if parts[0].text.None? then OrEmpty(parts[0].refusal) else "") + Refusals(parts[1..])
  }

  /** A message with both answer text and refusal text. */
  predicate Mixes(item: Item) {
    item.Message? && PartTexts(item.parts) != "" && Refusals(item.parts) != ""
  }

  /** A call that the stream can carry: it has a name and an identifier, and its arguments are
      a string, or what no arguments mean. */
  predicate Replayable(item: Item) {
    item.FunctionCall? ==>
      && item.name.Some? && OrElse(item.callId, item.itemId).Some?
      && (item.arguments.None? || item.arguments.value.Str? || item.arguments.value == Obj(map[]))
  }

  function Marked(seen: set<nat>, k: nat, text: string): set<nat> {
    if text == "" then seen else seen + {k}
  }

  function StreamedMessage(parts: seq<Part>): string {
    if PartTexts(parts) != "" then PartTexts(parts) else MessageText(parts)
  }

  function After(st: State, k: nat, item: Item): State {
    match item
    case Message(parts) =>
      st.(content := st.content + StreamedMessage(parts),
          streamedText := Marked(st.streamedText, k, PartTexts(parts)))
    case Reasoning(_, _) =>
      st.(reasoning := st.reasoning + ReasoningText(item),
          streamedReasoning := Marked(st.streamedReasoning, k, ReasoningText(item)))
    case FunctionCall(_, _, _, _) =>
      st.(calls := st.calls[k := Finished(item)],
          streamedArguments := Marked(st.streamedArguments, k, SlotText(item, 0)))
    case OtherItem => st
  }

  function Finished(item: Item): PartialCall
    requires item.FunctionCall?
  {
    PartialCall(OrEmpty(OrElse(item.callId, item.itemId)), OrEmpty(item.name), SlotText(item, 0), "")
  }

  ghost predicate Untouched(st: State, k: nat) {
    forall i | i >= k :: i !in st.streamedText && i !in st.streamedReasoning && i !in st.streamedArguments
                         && i !in st.calls
  }

  lemma {:induction false} TextDeltasRun(st: State, k: nat, pieces: seq<string>)
    ensures Run(st, TextDeltas(k, pieces))
         == st.(content := st.content + Flatten(pieces),
                streamedText := if pieces == [] then st.streamedText else st.streamedText + {k})
    decreases pieces
  {
    if pieces == [] {
      assert st.content + "" == st.content;
    } else {
      var events := TextDeltas(k, pieces);
      assert events[1..] == TextDeltas(k, pieces[1..]);
      TextDeltasRun(Step(st, events[0]).0, k, pieces[1..]);
      Associates(st.content, pieces[0], Flatten(pieces[1..]));
    }
  }

  lemma {:induction false} ReasoningDeltasRun(st: State, k: nat, pieces: seq<string>)
    ensures Run(st, ReasoningDeltas(k, pieces))
         == st.(reasoning := st.reasoning + Flatten(pieces),
                streamedReasoning := if pieces == [] then st.streamedReasoning else st.streamedReasoning + {k})
    decreases pieces
  {
    if pieces == [] {
      assert st.reasoning + "" == st.reasoning;
    } else {
      var events := ReasoningDeltas(k, pieces);
      assert events[1..] == ReasoningDeltas(k, pieces[1..]);
      ReasoningDeltasRun(Step(st, events[0]).0, k, pieces[1..]);
      Associates(st.reasoning, pieces[0], Flatten(pieces[1..]));
    }
  }

  lemma {:induction false} ArgumentsDeltasRun(st: State, k: nat, pieces: seq<string>)
    requires k in st.calls
    ensures Run(st, ArgumentsDeltas(k, pieces))
         == st.(calls := st.calls[k := st.calls[k].(arguments := st.calls[k].arguments + Flatten(pieces))],
                streamedArguments := if pieces == [] then st.streamedArguments else st.streamedArguments + {k})
    decreases pieces
  {
    var call := st.calls[k];
    if pieces == [] {
      assert call.arguments + "" == call.arguments;
      assert st.calls[k := call] == st.calls;
    } else {
      var events := ArgumentsDeltas(k, pieces);
      assert events[1..] == ArgumentsDeltas(k, pieces[1..]);
      var next := Step(st, events[0]).0;
      ArgumentsDeltasRun(next, k, pieces[1..]);
      Associates(call.arguments, pieces[0], Flatten(pieces[1..]));
      assert next.calls[k := call] == st.calls[k := call];
    }
  }

  lemma PartRun(st: State, k: nat, part: Part, pieces: seq<string>)
    requires CutOf(OrEmpty(part.text), pieces)
    ensures Run(st, PartEvents(k, part, pieces))
         == st.(content := st.content + OrEmpty(part.text),
                streamedText := Marked(st.streamedText, k, OrEmpty(part.text)))
  {
    assert st.content + "" == st.content;
    if part.text.None? {
      RunOne(st, PartDone(Some(k), None));
    } else {
      var events := TextDeltas(k, pieces);
      TextDeltasRun(st, k, pieces);
      RunAppends(st, events, [TextDone(Some(k), part.text), PartDone(Some(k), part.text)]);
      RunTwo(Run(st, events), TextDone(Some(k), part.text), PartDone(Some(k), part.text));
    }
  }

  lemma {:induction false} PartsRun(st: State, k: nat, parts: seq<Part>, cuts: seq<seq<string>>)
    requires |cuts| == |parts| && forall i | 0 <= i < |parts| :: CutOf(OrEmpty(parts[i].text), cuts[i])
    ensures Run(st, PartsEvents(k, parts, cuts))
         == st.(content := st.content + PartTexts(parts),
                streamedText := Marked(st.streamedText, k, PartTexts(parts)))
    decreases parts
  {
    if parts == [] {
      assert st.content + "" == st.content;
    } else {
      var first := PartEvents(k, parts[0], cuts[0]);
      PartRun(st, k, parts[0], cuts[0]);
      RunAppends(st, first, PartsEvents(k, parts[1..], cuts[1..]));
      PartsRun(Run(st, first), k, parts[1..], cuts[1..]);
      Associates(st.content, OrEmpty(parts[0].text), PartTexts(parts[1..]));
    }
  }

  lemma TextRun(st: State, k: nat, text: string, pieces: seq<string>)
    requires CutOf(text, pieces)
    ensures Run(st, ReasoningDeltas(k, pieces) + [ReasoningDone(Some(k), Some(text))])
         == st.(reasoning := st.reasoning + text, streamedReasoning := Marked(st.streamedReasoning, k, text))
  {
    var deltas, done := ReasoningDeltas(k, pieces), ReasoningDone(Some(k), Some(text));
    RunAppends(st, deltas, [done]);
    ReasoningDeltasRun(st, k, pieces);
    RunOne(Run(st, deltas), done);
  }

  lemma {:induction false} TextsRun(st: State, k: nat, texts: seq<Option<string>>, cuts: seq<seq<string>>)
    requires |cuts| == |texts| && forall i | 0 <= i < |texts| :: CutOf(OrEmpty(texts[i]), cuts[i])
    ensures Run(st, TextsEvents(k, texts, cuts))
         == st.(reasoning := st.reasoning + Texts(texts),
                streamedReasoning := Marked(st.streamedReasoning, k, Texts(texts)))
    decreases texts
  {
    assert st.reasoning + "" == st.reasoning;
    if texts != [] {
      var rest := TextsEvents(k, texts[1..], cuts[1..]);
      if texts[0].None? {
        assert [] + rest == rest;
        TextsRun(st, k, texts[1..], cuts[1..]);
      } else {
        var first := ReasoningDeltas(k, cuts[0]) + [ReasoningDone(Some(k), texts[0])];
        RunAppends(st, first, rest);
        TextRun(st, k, texts[0].value, cuts[0]);
        TextsRun(Run(st, first), k, texts[1..], cuts[1..]);
        Associates(st.reasoning, texts[0].value, Texts(texts[1..]));
      }
    }
  }

  lemma MessageRun(st: State, k: nat, item: Item, cuts: seq<seq<string>>)
    requires item.Message? && CutUp(item, cuts) && Untouched(st, k)
    ensures Run(st, ItemEvents(k, item, cuts)) == After(st, k, item)
  {
    var events := PartsEvents(k, item.parts, cuts);
    forall i | 0 <= i < |item.parts| ensures CutOf(OrEmpty(item.parts[i].text), cuts[i]) {
      assert CutOf(SlotText(item, i), cuts[i]);
    }
    PartsRun(st, k, item.parts, cuts);
    RunAppends(st, events, [ItemDone(Some(k), Some(item))]);
    RunOne(Run(st, events), ItemDone(Some(k), Some(item)));
    assert st.content + "" == st.content;
  }

  lemma ReasoningRun(st: State, k: nat, item: Item, cuts: seq<seq<string>>)
    requires item.Reasoning? && CutUp(item, cuts) && Untouched(st, k)
    ensures Run(st, ItemEvents(k, item, cuts)) == After(st, k, item)
  {
    var n := |item.summary|;
    forall i | 0 <= i < n ensures CutOf(OrEmpty(item.summary[i]), cuts[..n][i]) {
      assert CutOf(SlotText(item, i), cuts[i]);
    }
    forall i | 0 <= i < |item.content| ensures CutOf(OrEmpty(item.content[i]), cuts[n..][i]) {
      assert CutOf(SlotText(item, n + i), cuts[n + i]);
    }
    var first, second := TextsEvents(k, item.summary, cuts[..n]), TextsEvents(k, item.content, cuts[n..]);
    BothTextsRun(st, k, item, cuts[..n], cuts[n..]);
    RunAppends(st, first + second, [ItemDone(Some(k), Some(item))]);
    RunOne(Run(st, first + second), ItemDone(Some(k), Some(item)));
    assert st.reasoning + "" == st.reasoning;
  }

  lemma BothTextsRun(st: State, k: nat, item: Item, a: seq<seq<string>>, b: seq<seq<string>>)
    requires item.Reasoning? && |a| == |item.summary| && |b| == |item.content|
    requires forall i | 0 <= i < |a| :: CutOf(OrEmpty(item.summary[i]), a[i])
    requires forall i | 0 <= i < |b| :: CutOf(OrEmpty(item.content[i]), b[i])
    ensures Run(st, TextsEvents(k, item.summary, a) + TextsEvents(k, item.content, b))
         == st.(reasoning := st.reasoning + (Texts(item.summary) + Texts(item.content)),
                streamedReasoning := Marked(st.streamedReasoning, k, Texts(item.summary) + Texts(item.content)))
  {
    var first := TextsEvents(k, item.summary, a);
    TextsRun(st, k, item.summary, a);
    RunAppends(st, first, TextsEvents(k, item.content, b));
    TextsRun(Run(st, first), k, item.content, b);
    Associates(st.reasoning, Texts(item.summary), Texts(item.content));
  }

  lemma CallRun(st: State, k: nat, item: Item, cuts: seq<seq<string>>)
    requires item.FunctionCall? && CutUp(item, cuts) && Untouched(st, k)
    ensures Run(st, ItemEvents(k, item, cuts)) == After(st, k, item)
  {
    var text := SlotText(item, 0);
    assert CutOf(text, cuts[0]);
    var added := ItemAdded(Some(k), Some(item.(arguments := Some(Str("")))));
    var deltas := ArgumentsDeltas(k, cuts[0]);
    var done, last := ArgumentsDone(Some(k), Some(text)), ItemDone(Some(k), Some(item));
    var call := Finished(item);
    var empty := call.(arguments := "");
    RunOne(st, added);
    var st1 := Run(st, [added]);
    assert st1 == st.(calls := st.calls[k := empty]);
    RunAppends(st, [added], deltas);
    ArgumentsDeltasRun(st1, k, cuts[0]);
    var st2 := Run(st1, deltas);
    assert "" + text == text && text + "" == text;
    assert st2.calls == st.calls[k := call];
    RunAppends(st, [added] + deltas, [done, last]);
    RunTwo(st2, done, last);
    assert st2.calls[k := call] == st2.calls;
  }

  lemma ItemRun(st: State, k: nat, item: Item, cuts: seq<seq<string>>)
    requires CutUp(item, cuts) && Untouched(st, k)
    ensures Run(st, ItemEvents(k, item, cuts)) == After(st, k, item) && Untouched(After(st, k, item), k + 1)
  {
    match item {
      case Message(_) => MessageRun(st, k, item, cuts);
      case Reasoning(_, _) => ReasoningRun(st, k, item, cuts);
      case FunctionCall(_, _, _, _) => CallRun(st, k, item, cuts);
      case OtherItem => RunOne(st, ItemDone(Some(k), Some(item)));
    }
  }

  // ---------------------------------------------------------------- the whole response

  function StreamedText(item: Item): string {
    if item.Message? then StreamedMessage(item.parts) else ""
  }

  function StreamedContent(items: seq<Item>): string {
    if items == [] then "" else StreamedText(items[0]) + StreamedContent(items[1..])
  }

  function CallsInto(calls: map<nat, PartialCall>, k: nat, items: seq<Item>): map<nat, PartialCall>
    decreases items
  {
    if items == [] then calls
    else CallsInto(CallInto(calls, k, items[0]), k + 1, items[1..])
  }

  lemma AfterAdds(st: State, k: nat, item: Item)
    ensures var next := After(st, k, item);
      && next.content == st.content + StreamedText(item) && next.reasoning == st.reasoning + ItemReasoning(item)
      && next.calls == CallInto(st.calls, k, item) && next.usage == st.usage && next.model == st.model
  {
    assert st.content + "" == st.content && st.reasoning + "" == st.reasoning;
  }

  lemma {:induction false} ItemsRun(st: State, k: nat, items: seq<Item>, cuts: seq<seq<seq<string>>>)
    requires |cuts| == |items| && (forall i | 0 <= i < |items| :: CutUp(items[i], cuts[i]))
    requires Untouched(st, k)
    ensures var end := Run(st, StreamOf(k, items, cuts));
      && end.content == st.content + StreamedContent(items)
      && end.reasoning == st.reasoning + ReasoningOf(items)
      && end.calls == CallsInto(st.calls, k, items)
      && end.usage == st.usage && end.model == st.model
    decreases items
  {
    if items == [] {
      assert st.content + "" == st.content && st.reasoning + "" == st.reasoning;
    } else {
      var first := ItemEvents(k, items[0], cuts[0]);
      ItemRun(st, k, items[0], cuts[0]);
      RunAppends(st, first, StreamOf(k + 1, items[1..], cuts[1..]));
      AfterAdds(st, k, items[0]);
      ItemsRun(After(st, k, items[0]), k + 1, items[1..], cuts[1..]);
      Associates(st.content, StreamedText(items[0]), StreamedContent(items[1..]));
      Associates(st.reasoning, ItemReasoning(items[0]), ReasoningOf(items[1..]));
    }
  }

  function FinishAll(parse: string -> Option<Json>, calls: seq<PartialCall>): seq<ToolCall> {
    seq(|calls|, i requires 0 <= i < |calls| => FinishCall(parse, calls[i]))
  }

  function CallInto(calls: map<nat, PartialCall>, k: nat, item: Item): map<nat, PartialCall> {
    if item.FunctionCall? then calls[k := Finished(item)] else calls
  }

  /** Every call item ends up as a call, whatever it lacks. */
  function StreamedCalls(parse: string -> Option<Json>, items: seq<Item>): seq<ToolCall> {
    if items == [] then []
    else
      (if items[0].FunctionCall? then [FinishCall(parse, Finished(items[0]))] else [])
      + StreamedCalls(parse, items[1..])
  }

  lemma CallListed(parse: string -> Option<Json>, calls: map<nat, PartialCall>, k: nat, item: Item)
    requires forall i | i in calls :: i < k
    ensures FinishAll(parse, CallsBelow(CallInto(calls, k, item), k + 1))
         == FinishAll(parse, CallsBelow(calls, k))
            + if item.FunctionCall? then [FinishCall(parse, Finished(item))] else []
  {
    var next := CallInto(calls, k, item);
    CallsBelowFrame(calls, next, k);
    var before := CallsBelow(calls, k);
    if item.FunctionCall? {
      assert CallsBelow(next, k + 1) == before + [Finished(item)];
    } else {
      assert before + [] == before;
    }
  }

  lemma {:induction false} CallsListed(parse: string -> Option<Json>, calls: map<nat, PartialCall>, k: nat,
                                       items: seq<Item>)
    requires forall i | i in calls :: i < k
    ensures var all := CallsInto(calls, k, items);
      && (forall i | i in all :: i < k + |items|)
      && FinishAll(parse, CallsBelow(all, k + |items|))
         == FinishAll(parse, CallsBelow(calls, k)) + StreamedCalls(parse, items)
    decreases items
  {
    if items != [] {
      CallListed(parse, calls, k, items[0]);
      CallsListed(parse, CallInto(calls, k, items[0]), k + 1, items[1..]);
      Associates(FinishAll(parse, CallsBelow(calls, k)),
                 if items[0].FunctionCall? then [FinishCall(parse, Finished(items[0]))] else [],
                 StreamedCalls(parse, items[1..]));
    }
  }

  lemma OutcomeCalls(parse: string -> Option<Json>, none: map<nat, PartialCall>, end: State, items: seq<Item>)
    requires none == map[] && end.calls == CallsInto(none, 0, items)
    ensures Outcome(parse, end).toolCalls == StreamedCalls(parse, items)
  {
    CallsListed(parse, none, 0, items);
    OrderedCallsAre(end.calls, |items|);
    assert FinishAll(parse, CallsBelow(none, 0)) == [];
    assert Outcome(parse, end).toolCalls == FinishAll(parse, OrderedCalls(end.calls));
  }

  /** A call is listed alike by both readers exactly when the stream can carry it. */
  lemma CallAgrees(parse: string -> Option<Json>, item: Item)
    requires item.FunctionCall?
    ensures ParseFunctionCall(parse, item) == Some(FinishCall(parse, Finished(item))) <==> Replayable(item)
  {
    assert Trim("") == "";
  }

  lemma FrontsAgree(c: seq<ToolCall>, call: ToolCall, rest: seq<ToolCall>, all: seq<ToolCall>)
    requires |c| <= 1 && |rest| <= |all|
    ensures |c + rest| <= |[call] + all|
    ensures [call] + all == c + rest <==> c == [call] && rest == all
  {
    if [call] + all == c + rest {
      assert ([call] + all)[0] == call && ([call] + all)[1..] == all;
      if c != [] { assert (c + rest)[0] == c[0] && (c + rest)[1..] == rest; }
    }
  }

  lemma {:induction false} CallsAgree(parse: string -> Option<Json>, items: seq<Item>)
    ensures |CallsOf(parse, items)| <= |StreamedCalls(parse, items)|
    ensures StreamedCalls(parse, items) == CallsOf(parse, items) <==> forall item | item in items :: Replayable(item)
  {
    if items != [] {
      CallsAgree(parse, items[1..]);
      assert forall item | item in items :: item == items[0] || item in items[1..];
      if items[0].FunctionCall? {
        CallAgrees(parse, items[0]);
        var call := FinishCall(parse, Finished(items[0]));
        var c := ItemCalls(parse, items[0]);
        FrontsAgree(c, call, CallsOf(parse, items[1..]), StreamedCalls(parse, items[1..]));
      } else {
        assert [] + CallsOf(parse, items[1..]) == CallsOf(parse, items[1..]);
      }
    }
  }

  lemma {:induction false} MessageSplits(parts: seq<Part>)
    ensures |MessageText(parts)| == |PartTexts(parts)| + |Refusals(parts)|
    ensures Refusals(parts) == "" ==> MessageText(parts) == PartTexts(parts)
  {
    if parts != [] { MessageSplits(parts[1..]); }
  }

  lemma {:induction false} ContentAgrees(items: seq<Item>)
    ensures |StreamedContent(items)| <= |ContentOf(items)|
    ensures StreamedContent(items) == ContentOf(items) <==> forall item | item in items :: !Mixes(item)
  {
    if items != [] {
      ContentAgrees(items[1..]);
      var c, d := "", "";
      if items[0].Message? {
        MessageSplits(items[0].parts);
        c, d := StreamedMessage(items[0].parts), MessageText(items[0].parts);
      }
      assert c == d <==> !Mixes(items[0]);
      if StreamedContent(items) == ContentOf(items) {
        Cancel(c, d, StreamedContent(items[1..]), ContentOf(items[1..]));
      }
      assert forall item | item in items :: item == items[0] || item in items[1..];
    }
  }

  lemma StreamedOutcome(parse: string -> Option<Json>, start: State, r: Response, cuts: seq<seq<seq<string>>>)
    requires start == START && r.status == Some("completed") && |cuts| == |r.output|
    requires forall i | 0 <= i < |cuts| :: CutUp(r.output[i], cuts[i])
    ensures Outcome(parse, Run(start, StreamOf(0, r.output, cuts) + [Completed(r)]))
         == AssistantOutcome(StreamedContent(r.output), NonEmpty(ReasoningOf(r.output)), r.model, r.usage,
                             StreamedCalls(parse, r.output))
  {
    var events := StreamOf(0, r.output, cuts);
    var mid := Run(start, events);
    ItemsRun(start, 0, r.output, cuts);
    assert start.content + StreamedContent(r.output) == StreamedContent(r.output);
    assert start.reasoning + ReasoningOf(r.output) == ReasoningOf(r.output);
    RunAppends(start, events, [Completed(r)]);
    RunOne(mid, Completed(r));
    OutcomeCalls(parse, start.calls, Step(mid, Completed(r)).0, r.output);
  }

  /** Cutting every text, reasoning text and argument string of a completed response into
      deltas, and sending the matching done events after each, makes the decoder end with
      the outcome of the buffered response, exactly when no message of the response holds
      both answer text and refusal text and the stream can carry every call. */
  lemma StreamedRefinesBuffered(parse: string -> Option<Json>, r: Response, cuts: seq<seq<seq<string>>>)
    requires r.status == Some("completed") && |cuts| == |r.output|
    requires forall i | 0 <= i < |cuts| :: CutUp(r.output[i], cuts[i])
    ensures Buffered(parse, r) == Some(Outcome(parse, Run(START, StreamOf(0, r.output, cuts) + [Completed(r)])))
       <==> forall item | item in r.output :: !Mixes(item) && Replayable(item)
  {
    StreamedOutcome(parse, START, r, cuts);
    ContentAgrees(r.output);
    CallsAgree(parse, r.output);
  }

  // ---------------------------------------------------------------- where the two differ

  function Completes(item: Item): Response {
    Response(Some("completed"), None, None, [item], "")
  }

  /** One part with text and one with a refusal: the buffered reader keeps both, the stream
      drops the refusal. */
  lemma MixedMessageDiffers(parse: string -> Option<Json>)
    ensures var r, cuts := Completes(Message([Part(Some("a"), None), Part(None, Some("b"))])), [[["a"], []]];
      && (forall i | 0 <= i < |cuts| :: CutUp(r.output[i], cuts[i]))
      && Buffered(parse, r).Some? && Buffered(parse, r).value.content == "ab"
      && Outcome(parse, Run(START, StreamOf(0, r.output, cuts) + [Completed(r)])).content == "a"
  {
    var parts := [Part(Some("a"), None), Part(None, Some("b"))];
    var r, cuts := Completes(Message(parts)), [[["a"], []]];
    assert Flatten(["a"]) == "a" + Flatten(["a"][1..]);
    assert CutUp(r.output[0], cuts[0]);
    assert parts[1..] == [parts[1]] && parts[1..][1..] == [];
    assert MessageText(parts) == "a" + MessageText(parts[1..]) && PartTexts(parts) == "a" + PartTexts(parts[1..]);
    assert r.output[1..] == [];
    StreamedOutcome(parse, START, r, cuts);
  }

  /** A call without a name: the buffered reader leaves it out, the stream lists it. */
  lemma NamelessCallDiffers(parse: string -> Option<Json>)
    ensures var r, cuts := Completes(FunctionCall(Some("c"), None, None, None)), [[[]]];
      && (forall i | 0 <= i < |cuts| :: CutUp(r.output[i], cuts[i]))
      && Buffered(parse, r).Some? && Buffered(parse, r).value.toolCalls == []
      && |Outcome(parse, Run(START, StreamOf(0, r.output, cuts) + [Completed(r)])).toolCalls| == 1
  {
    var r: Response, cuts: seq<seq<seq<string>>> := Completes(FunctionCall(Some("c"), None, None, None)), [[[]]];
    assert CutUp(r.output[0], cuts[0]);
    assert r.output[1..] == [];
    StreamedOutcome(parse, START, r, cuts);
  }
}
