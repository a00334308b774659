/** The incremental reader of a streamed round over any protocol, and the round that forwards its text. */
module Stream {
  import opened Json
  import opened Text
  import opened Provider
  import opened Sse
  import opened Reading
  import Chat
  import Responses

  /** A decoder of any protocol, by its accumulated state. */
  datatype Decoder =
    | OpenAi(chat: Chat.State)
    | Anthropic(messages: Chat.State)
    | OpenAiResponses(responses: Responses.State)

  /** Readers of a JSON payload into the fields each decoder looks at. */
  datatype Readers = Readers(chunk: string -> Option<Chat.Chunk>,
                             message: string -> Option<Chat.MessagesEvent>,
                             response: string -> Option<Responses.Event>)

  const DONE_MARKER := "[DONE]"

  function ChatPayload(r: Readers, payload: string): Chat.ChatPayload {
    if payload == "" then Chat.Empty
    else if payload == DONE_MARKER then Chat.DoneMarker
    else match r.chunk(payload)
         case None => Chat.PlainText(payload)
         case Some(chunk) => Chat.ChunkPayload(chunk)
  }

  function MessagesPayload(r: Readers, payload: string): Chat.MessagesPayload {
    if payload == "" then Chat.NoPayload
    else match r.message(payload)
         case None => Chat.PlainPayload(payload)
         case Some(event) => Chat.EventPayload(event)
  }

  function ResponsesPayload(r: Readers, payload: string): Responses.Payload {
    if payload == "" then Responses.Empty
    else if payload == DONE_MARKER then Responses.DoneMarker
    else match r.response(payload)
         case None => Responses.PlainText(payload)
         case Some(event) => Responses.Parsed(event)
  }

  function Decode(r: Readers, d: Decoder, payload: string): (Decoder, PayloadEvent) {
    match d
    case OpenAi(st) =>
      var (next, event) := Chat.ConsumeChat(st, ChatPayload(r, payload));
      (OpenAi(next), event)
    case Anthropic(st) =>
      var (next, event) := Chat.ConsumeMessages(st, MessagesPayload(r, payload));
      (Anthropic(next), event)
    case OpenAiResponses(st) =>
      var (next, event) := Responses.ConsumePayload(st, ResponsesPayload(r, payload));
      (OpenAiResponses(next), event)
  }

  /** Decoding one block, and whether it ends the round: the provider says that it is done, or
      that it failed. */
  function Reader(r: Readers): Step<Decoder> {
    (d: Decoder, block: Sse.Bytes) => var (next, event) := Decode(r, d, Payload(block)); (next, !event.Data?)
  }

  function Content(d: Decoder): string {
    match d
    case OpenAi(st) => st.content
    case Anthropic(st) => st.content
    case OpenAiResponses(st) => st.content
  }

  function Reasoning(d: Decoder): string {
    match d
    case OpenAi(st) => st.reasoning
    case Anthropic(st) => st.reasoning
    case OpenAiResponses(st) => st.reasoning
  }

  ghost function Outcome(parse: string -> Option<Json>, d: Decoder): AssistantOutcome {
    match d
    case OpenAi(st) => Chat.Outcome(parse, st)
    case Anthropic(st) => Chat.Outcome(parse, st)
    case OpenAiResponses(st) => Responses.Outcome(parse, st)
  }

  // ---------------------------------------------------------------- deltas

  datatype StreamDelta = ContentDelta(text: string) | ReasoningDelta(text: string)

  function DeltasOf(event: PayloadEvent): seq<StreamDelta> {
    match event
    case Data(round) =>
      (if round.reasoning.Some? then [ReasoningDelta(round.reasoning.value)] else [])
      + (if round.content.Some? then [ContentDelta(round.content.value)] else [])
    case _ => []
  }

  function ContentSaid(deltas: seq<StreamDelta>): string {
    if deltas == [] then "" else
      (if deltas[0].ContentDelta? then deltas[0].text else "") + ContentSaid(deltas[1..])
  }

  function ReasoningSaid(deltas: seq<StreamDelta>): string {
    if deltas == [] then "" else
      (if deltas[0].ReasoningDelta? then deltas[0].text else "") + ReasoningSaid(deltas[1..])
  }

  lemma {:induction false} ContentAppends(a: seq<StreamDelta>, b: seq<StreamDelta>)
    ensures ContentSaid(a + b) == ContentSaid(a) + ContentSaid(b)
  {
    if a == [] {
      assert a + b == b;
    } else {
      assert (a + b)[1..] == a[1..] + b;
      ContentAppends(a[1..], b);
      Associates(if a[0].ContentDelta? then a[0].text else "", ContentSaid(a[1..]), ContentSaid(b));
    }
  }

  lemma {:induction false} ReasoningAppends(a: seq<StreamDelta>, b: seq<StreamDelta>)
    ensures ReasoningSaid(a + b) == ReasoningSaid(a) + ReasoningSaid(b)
  {
    if a == [] {
      assert a + b == b;
    } else {
      assert (a + b)[1..] == a[1..] + b;
      ReasoningAppends(a[1..], b);
      Associates(if a[0].ReasoningDelta? then a[0].text else "", ReasoningSaid(a[1..]), ReasoningSaid(b));
    }
  }

  lemma SaidAppends(a: seq<StreamDelta>, b: seq<StreamDelta>)
    ensures ContentSaid(a + b) == ContentSaid(a) + ContentSaid(b)
    ensures ReasoningSaid(a + b) == ReasoningSaid(a) + ReasoningSaid(b)
  {
    ContentAppends(a, b);
    ReasoningAppends(a, b);
  }

  lemma {:induction false} ChoicesSay(st: Chat.State, round: RoundDelta, choices: seq<Chat.Choice>,
                                      content: string, reasoning: string)
    requires st.content == content + OrEmpty(round.content)
    requires st.reasoning == reasoning + OrEmpty(round.reasoning)
    ensures var (end, said) := Chat.ConsumeChoices(st, round, choices);
      end.content == content + OrEmpty(said.content) && end.reasoning == reasoning + OrEmpty(said.reasoning)
    decreases choices
  {
    if choices != [] {
      ChoiceSays(st, round, choices[0], content, reasoning);
      var (st1, round1) := Chat.ConsumeChoice(st, round, choices[0]);
      ChoicesSay(st1, round1, choices[1..], content, reasoning);
    }
  }

  lemma ChoiceSays(st: Chat.State, round: RoundDelta, choice: Chat.Choice, content: string, reasoning: string)
    requires st.content == content + OrEmpty(round.content)
    requires st.reasoning == reasoning + OrEmpty(round.reasoning)
    ensures var (end, said) := Chat.ConsumeChoice(st, round, choice);
      end.content == content + OrEmpty(said.content) && end.reasoning == reasoning + OrEmpty(said.reasoning)
  {
    if choice.delta.Some? {
      var d := choice.delta.value;
      Associates(content, OrEmpty(round.content), OrEmpty(d.content));
      Associates(reasoning, OrEmpty(round.reasoning), OrEmpty(d.reasoning));
      forall s: Chat.State { CallsSayNothing(s, d.calls); }
    }
  }

  lemma {:induction false} CallsSayNothing(st: Chat.State, calls: seq<Chat.CallDelta>)
    ensures var end := Chat.ConsumeCalls(st, calls);
      end.content == st.content && end.reasoning == st.reasoning
    decreases calls
  {
    if calls != [] { CallsSayNothing(Chat.ConsumeCall(st, calls[0]), calls[1..]); }
  }

  /** A decoding step that keeps exactly the text of its round. */
  ghost predicate Kept(content: string, reasoning: string, content': string, reasoning': string, event: PayloadEvent) {
    var round := if event.Data? then event.round else NO_DELTA;
    content' == content + OrEmpty(round.content) && reasoning' == reasoning + OrEmpty(round.reasoning)
  }

  lemma ChatKeeps(st: Chat.State, payload: Chat.ChatPayload)
    ensures var (next, event) := Chat.ConsumeChat(st, payload);
      Kept(st.content, st.reasoning, next.content, next.reasoning, event)
  {
    assert st.content + "" == st.content && st.reasoning + "" == st.reasoning;
    if payload.ChunkPayload? && payload.chunk.error.None? {
      var u := payload.chunk.usage;
      ChoicesSay(Chat.PushUsage(st, u), RoundDelta(None, None, u), payload.chunk.choices, st.content, st.reasoning);
    }
  }

  lemma MessagesKeep(st: Chat.State, payload: Chat.MessagesPayload)
    ensures var (next, event) := Chat.ConsumeMessages(st, payload);
      Kept(st.content, st.reasoning, next.content, next.reasoning, event)
  {
    assert st.content + "" == st.content && st.reasoning + "" == st.reasoning;
  }

  lemma ResponsesKeep(st: Responses.State, payload: Responses.Payload)
    ensures var (next, event) := Responses.ConsumePayload(st, payload);
      Kept(st.content, st.reasoning, next.content, next.reasoning, event)
  {
    assert st.content + "" == st.content && st.reasoning + "" == st.reasoning;
  }

  /** Whatever the protocol and the payload, a decoder hands out exactly the text it keeps. */
  lemma DecodeSays(r: Readers, d: Decoder, payload: string)
    ensures var (next, event) := Decode(r, d, payload);
      && Content(next) == Content(d) + ContentSaid(DeltasOf(event))
      && Reasoning(next) == Reasoning(d) + ReasoningSaid(DeltasOf(event))
  {
    match d {
      case OpenAi(st) => ChatKeeps(st, ChatPayload(r, payload));
      case Anthropic(st) => MessagesKeep(st, MessagesPayload(r, payload));
      case OpenAiResponses(st) => ResponsesKeep(st, ResponsesPayload(r, payload));
    }
    var event := Decode(r, d, payload).1;
    if event.Data? { RoundSays(event.round); }
  }

  lemma RoundSays(round: RoundDelta)
    ensures ContentSaid(DeltasOf(PayloadEvent.Data(round))) == OrEmpty(round.content)
    ensures ReasoningSaid(DeltasOf(PayloadEvent.Data(round))) == OrEmpty(round.reasoning)
  {
    var a: seq<StreamDelta> := if round.reasoning.Some? then [ReasoningDelta(round.reasoning.value)] else [];
    var b: seq<StreamDelta> := if round.content.Some? then [ContentDelta(round.content.value)] else [];
    SaidAppends(a, b);
    assert a != [] ==> a[1..] == [];
    assert b != [] ==> b[1..] == [];
  }

  // ---------------------------------------------------------------- the reader

  datatype ProviderError = Transport(detail: string) | StreamError(detail: string)

  datatype Item = Deltas(deltas: seq<StreamDelta>) | Failure(error: ProviderError)

  // ---------------------------------------------------------------- how reading ends

  /** The last failure the provider reports in these blocks. */
  function FailureIn(r: Readers, d: Decoder, blocks: seq<Bytes>): Option<string>
    decreases blocks
  {
    if blocks == [] then None else
      var (next, event) := Decode(r, d, Payload(blocks[0]));
      var later := FailureIn(r, next, blocks[1..]);
      if later.Some? then later else if event.Failed? then Some(event.detail) else None
  }

  function AsError(failure: Option<string>): Option<ProviderError> {
    if failure.Some? then Some(StreamError(failure.value)) else None
  }

  /** The error that reading a stream to its end comes to, if it comes to one. */
  function EndOf(r: Readers, d: Decoder, buffer: Sse.Bytes, upstream: seq<Upstream>): Option<ProviderError>
    decreases upstream
  {
    if upstream == [] then AsError(FailureIn(r, d, Tail(buffer)))
    else if upstream[0].Broken? then Some(Transport(upstream[0].detail))
    else
      var (blocks, rest) := Split(buffer + upstream[0].bytes);
      if Ended(Reader(r), d, blocks) then AsError(FailureIn(r, d, blocks))
      else EndOf(r, DecodeAll(Reader(r), d, blocks), rest, upstream[1..])
  }

  /** What the blocks are decoded to, one after the other. */
  function EventsOf(r: Readers, d: Decoder, blocks: seq<Bytes>): seq<PayloadEvent>
    decreases blocks
  {
    if blocks == [] then [] else
      var (next, event) := Decode(r, d, Payload(blocks[0]));
      [event] + EventsOf(r, next, blocks[1..])
  }

  ghost predicate LastFailure(es: seq<PayloadEvent>, k: nat, detail: string) {
    k < |es| && es[k] == Failed(detail) && forall j | k < j < |es| :: !es[j].Failed?
  }

  ghost predicate NoFailure(es: seq<PayloadEvent>) {
    forall k | 0 <= k < |es| :: !es[k].Failed?
  }

  /** A failure is reported exactly if some block was decoded to one, and then it is the last. */
  lemma {:induction false} FailureIsLast(r: Readers, d: Decoder, blocks: seq<Bytes>)
    ensures var es, failure := EventsOf(r, d, blocks), FailureIn(r, d, blocks);
      && (failure.None? <==> NoFailure(es))
      && (failure.Some? ==> exists k: nat :: LastFailure(es, k, failure.value))
    decreases blocks
  {
    if blocks != [] {
      var (next, event) := Decode(r, d, Payload(blocks[0]));
      var es, rest := EventsOf(r, d, blocks), EventsOf(r, next, blocks[1..]);
      FailureIsLast(r, next, blocks[1..]);
      LaterFailure(event, rest, FailureIn(r, next, blocks[1..]));
      assert es == [event] + rest;
    }
  }

  lemma LaterFailure(event: PayloadEvent, rest: seq<PayloadEvent>, later: Option<string>)
    requires later.None? <==> NoFailure(rest)
    requires later.Some? ==> exists k: nat :: LastFailure(rest, k, later.value)
    ensures var es := [event] + rest;
      var failure := if later.Some? then later else if event.Failed? then Some(event.detail) else None;
      && (failure.None? <==> NoFailure(es))
      && (failure.Some? ==> exists k: nat :: LastFailure(es, k, failure.value))
  {
    var es := [event] + rest;
    assert es[0] == event && forall k | 0 < k < |es| :: es[k] == rest[k - 1];
    assert forall k | 0 <= k < |rest| :: rest[k] == es[k + 1];
    if later.Some? {
      var k: nat :| LastFailure(rest, k, later.value);
      forall j | k + 1 < j < |es| ensures !es[j].Failed? { assert es[j] == rest[j - 1]; }
      assert LastFailure(es, k + 1, later.value);
    } else if event.Failed? {
      assert LastFailure(es, 0, event.detail);
    }
  }

  /** The blocks that are read when `n` chunks are: those that are complete, and the tail if the
      bytes end without the round having ended. */
  function BlocksRead(r: Readers, d: Decoder, buffer: Sse.Bytes, upstream: seq<Upstream>, n: nat): seq<Bytes>
    requires n <= |upstream|
  {
    var (blocks, rest) := Split(buffer + BytesOf(upstream[..n]));
    blocks + if n == |upstream| && !Ended(Reader(r), d, blocks) then Tail(rest) else []
  }

  /** Reading takes `n` chunks. What it comes to is what the blocks read decode to; its error is
      the break it stops at, or else the last failure among those blocks. */
  ghost predicate EndsAfter(r: Readers, d: Decoder, buffer: Sse.Bytes, upstream: seq<Upstream>, n: nat) {
    && n <= |upstream| && Unbroken(upstream[..n])
    && var blocks, read := Split(buffer + BytesOf(upstream[..n])).0, BlocksRead(r, d, buffer, upstream, n);
       && ReadOut(Reader(r), d, buffer, upstream) == DecodeAll(Reader(r), d, read)
       && if n < |upstream| && !Ended(Reader(r), d, blocks)
          then upstream[n].Broken? && EndOf(r, d, buffer, upstream) == Some(Transport(upstream[n].detail))
          else EndOf(r, d, buffer, upstream) == AsError(FailureIn(r, d, read))
  }

  lemma EndsWithout(r: Readers, d: Decoder, buffer: Sse.Bytes, upstream: seq<Upstream>)
    requires Boundary(buffer) == None && (upstream == [] || upstream[0].Broken?)
    ensures EndsAfter(r, d, buffer, upstream, 0)
  {
    assert upstream[..0] == [] && buffer + "" == buffer;
    assert [] + Tail(buffer) == Tail(buffer) && Tail("") == [];
  }

  lemma EndsInFirst(r: Readers, d: Decoder, buffer: Sse.Bytes, upstream: seq<Upstream>)
    requires upstream != [] && upstream[0].Chunk? && Ended(Reader(r), d, Split(buffer + upstream[0].bytes).0)
    ensures EndsAfter(r, d, buffer, upstream, 1)
  {
    OneChunk(buffer, upstream[..1]);
    assert Split(buffer + upstream[0].bytes).0 + [] == Split(buffer + upstream[0].bytes).0;
  }

  lemma EndsLater(r: Readers, d: Decoder, buffer: Sse.Bytes, upstream: seq<Upstream>, k: nat)
    requires upstream != [] && upstream[0].Chunk? && !Ended(Reader(r), d, Split(buffer + upstream[0].bytes).0)
    requires var (first, kept) := Split(buffer + upstream[0].bytes);
      EndsAfter(r, DecodeAll(Reader(r), d, first), kept, upstream[1..], k)
    ensures EndsAfter(r, d, buffer, upstream, k + 1)
  {
    var (first, kept) := Split(buffer + upstream[0].bytes);
    MoreChunks(r, d, buffer, upstream, k);
    NoFailureYet(r, d, first, BlocksRead(r, DecodeAll(Reader(r), d, first), kept, upstream[1..], k));
  }

  /** Reading takes chunks until the round ends, the connection breaks or the bytes end. */
  lemma {:induction false} ReadingEnds(r: Readers, d: Decoder, buffer: Sse.Bytes, upstream: seq<Upstream>)
    returns (n: nat)
    requires Boundary(buffer) == None
    ensures EndsAfter(r, d, buffer, upstream, n)
    decreases upstream
  {
    if upstream == [] || upstream[0].Broken? {
      EndsWithout(r, d, buffer, upstream);
      n := 0;
    } else {
      var (first, kept) := Split(buffer + upstream[0].bytes);
      if Ended(Reader(r), d, first) {
        EndsInFirst(r, d, buffer, upstream);
        n := 1;
      } else {
        SplitMeaning(buffer + upstream[0].bytes);
        var k := ReadingEnds(r, DecodeAll(Reader(r), d, first), kept, upstream[1..]);
        EndsLater(r, d, buffer, upstream, k);
        n := k + 1;
      }
    }
  }

  lemma OneChunk(buffer: Sse.Bytes, upstream: seq<Upstream>)
    requires |upstream| == 1 && upstream[0].Chunk?
    ensures buffer + BytesOf(upstream) == buffer + upstream[0].bytes
  {
    assert upstream[1..] == [];
  }

  lemma MoreChunks(r: Readers, d: Decoder, buffer: Sse.Bytes, upstream: seq<Upstream>, k: nat)
    requires upstream != [] && upstream[0].Chunk? && k < |upstream| && Unbroken(upstream[1..][..k])
    requires !Ended(Reader(r), d, Split(buffer + upstream[0].bytes).0)
    ensures Unbroken(upstream[..k + 1])
    ensures var (first, kept) := Split(buffer + upstream[0].bytes);
      var next := DecodeAll(Reader(r), d, first);
      var rest := upstream[1..];
      && Split(buffer + BytesOf(upstream[..k + 1])).0 == first + Split(kept + BytesOf(rest[..k])).0
      && BlocksRead(r, d, buffer, upstream, k + 1) == first + BlocksRead(r, next, kept, rest, k)
      && (Ended(Reader(r), d, first + Split(kept + BytesOf(rest[..k])).0)
          <==> Ended(Reader(r), next, Split(kept + BytesOf(rest[..k])).0))
      && DecodeAll(Reader(r), d, first + BlocksRead(r, next, kept, rest, k))
         == DecodeAll(Reader(r), next, BlocksRead(r, next, kept, rest, k))
  {
    var (first, kept) := Split(buffer + upstream[0].bytes);
    var next, rest, some := DecodeAll(Reader(r), d, first), upstream[1..], upstream[..k + 1];
    assert some[1..] == rest[..k] && some[0] == upstream[0];
    SplitOfChunk(buffer, some);
    var (more, last) := Split(kept + BytesOf(rest[..k]));
    EndedAppends(Reader(r), d, first, more);
    DecodeAllAppends(Reader(r), d, first, BlocksRead(r, next, kept, rest, k));
    Associates(first, more, if k + 1 == |upstream| && !Ended(Reader(r), next, more) then Tail(last) else []);
  }

  /** A round that has not ended reported no failure. */
  lemma {:induction false} NoFailureYet(r: Readers, d: Decoder, a: seq<Bytes>, b: seq<Bytes>)
    requires !Ended(Reader(r), d, a)
    ensures FailureIn(r, d, a + b) == FailureIn(r, DecodeAll(Reader(r), d, a), b)
    decreases a
  {
    if a == [] {
      assert a + b == b;
    } else {
      assert (a + b)[1..] == a[1..] + b;
      NoFailureYet(r, Decode(r, d, Payload(a[0])).0, a[1..], b);
    }
  }

  class ProviderStream {
    const readers: Readers
    var upstream: seq<Upstream>
    const splitter: SseSplitter
    var decoder: Decoder
    var finished: bool
    var error: Option<ProviderError>

    /** An error not handed out yet belongs to a round that has ended. */
    predicate Valid()
      reads this
    {
      error.Some? ==> finished
    }

    /** What the decoder comes to once everything has been read. */
    ghost function Final(): Decoder
      reads this, splitter
    {
      if finished then decoder else ReadOut(Reader(readers), decoder, splitter.buffer, upstream)
    }

    /** The error the stream has yet to hand out, if it comes to one. */
    ghost function Ending(): Option<ProviderError>
      reads this, splitter
    {
      if finished then error else EndOf(readers, decoder, splitter.buffer, upstream)
    }

    constructor (readers: Readers, upstream: seq<Upstream>, decoder: Decoder)
      ensures Valid() && fresh(splitter) && this.readers == readers && this.upstream == upstream
      ensures this.decoder == decoder && !finished && error == None
      ensures Final() == ReadOut(Reader(readers), decoder, "", upstream)
      ensures Ending() == EndOf(readers, decoder, "", upstream)
    {
      this.readers, this.upstream, this.decoder := readers, upstream, decoder;
      splitter := new SseSplitter();
      finished, error := false, None;
    }

    method Consume(block: Sse.Bytes) returns (deltas: seq<StreamDelta>)
      modifies this`decoder, this`finished, this`error
      ensures decoder == Decode(readers, old(decoder), Payload(block)).0
      ensures deltas == DeltasOf(Decode(readers, old(decoder), Payload(block)).1)
      ensures finished <==> old(finished) || !Decode(readers, old(decoder), Payload(block)).1.Data?
      ensures var event := Decode(readers, old(decoder), Payload(block)).1;
        error == if event.Failed? then Some(StreamError(event.detail)) else old(error)
    {
      var payload := EventPayload(block);
      var (next, event) := Decode(readers, decoder, payload);
      decoder := next;
      match event {
        case Data(round) =>
          deltas := [];
          if round.reasoning.Some? { deltas := deltas + [ReasoningDelta(round.reasoning.value)]; }
          if round.content.Some? { deltas := deltas + [ContentDelta(round.content.value)]; }
        case Done => finished, deltas := true, [];
        case Failed(detail) => finished, error, deltas := true, Some(StreamError(detail)), [];
      }
    }

    method ConsumeAll(blocks: seq<Sse.Bytes>) returns (deltas: seq<StreamDelta>)
      modifies this`decoder, this`finished, this`error
      ensures decoder == DecodeAll(Reader(readers), old(decoder), blocks)
      ensures Content(decoder) == Content(old(decoder)) + ContentSaid(deltas)
      ensures Reasoning(decoder) == Reasoning(old(decoder)) + ReasoningSaid(deltas)
      ensures finished <==> old(finished) || Ended(Reader(readers), old(decoder), blocks)
      ensures var failure := FailureIn(readers, old(decoder), blocks);
        error == if failure.Some? then AsError(failure) else old(error)
      ensures error != old(error) ==> finished
    {
      deltas := [];
      assert Content(decoder) + "" == Content(decoder) && Reasoning(decoder) + "" == Reasoning(decoder);
      for i := 0 to |blocks|
        invariant DecodeAll(Reader(readers), decoder, blocks[i..]) == DecodeAll(Reader(readers), old(decoder), blocks)
        invariant Content(decoder) == Content(old(decoder)) + ContentSaid(deltas)
        invariant Reasoning(decoder) == Reasoning(old(decoder)) + ReasoningSaid(deltas)
        invariant finished || Ended(Reader(readers), decoder, blocks[i..])
             <==> old(finished) || Ended(Reader(readers), old(decoder), blocks)
        invariant error != old(error) ==> finished
        invariant var all, left := FailureIn(readers, old(decoder), blocks), FailureIn(readers, decoder, blocks[i..]);
          (if left.Some? then AsError(left) else error) == if all.Some? then AsError(all) else old(error)
      {
        assert blocks[i..][1..] == blocks[i + 1..];
        DecodeSays(readers, decoder, Payload(blocks[i]));
        var more := Consume(blocks[i]);
        SaidAppends(deltas, more);
        Associates(Content(old(decoder)), ContentSaid(deltas), ContentSaid(more));
        Associates(Reasoning(old(decoder)), ReasoningSaid(deltas), ReasoningSaid(more));
        deltas := deltas + more;
      }
    }

    /** Splits a chunk off into blocks and decodes them. */
    method Feed(chunk: Sse.Bytes) returns (deltas: seq<StreamDelta>)
      requires Valid() && !finished
      modifies this`decoder, this`finished, this`error, splitter
      ensures Valid()
      ensures var (blocks, rest) := Split(old(splitter.buffer) + chunk);
        && decoder == DecodeAll(Reader(readers), old(decoder), blocks) && splitter.buffer == rest
        && (finished <==> Ended(Reader(readers), old(decoder), blocks))
        && (old(error).None? ==> error == AsError(FailureIn(readers, old(decoder), blocks)))
      ensures Content(decoder) == Content(old(decoder)) + ContentSaid(deltas)
      ensures Reasoning(decoder) == Reasoning(old(decoder)) + ReasoningSaid(deltas)
    {
      var blocks := splitter.Push(chunk);
      deltas := ConsumeAll(blocks);
    }

    /** The next piece of text. Nothing is kept back: the text handed out by a call is
        exactly what the decoder's text grew by. */
    method Next() returns (item: Option<Item>)
      requires Valid()
      modifies this, splitter
      ensures Valid() && Final() == old(Final())
      ensures item.None? ==> old(Ending()) == None == Ending()
      ensures item.Some? && item.value.Failure? ==> old(Ending()) == Some(item.value.error) && Ending() == None
      ensures item.Some? && item.value.Deltas? ==> Ending() == old(Ending())
      ensures old(finished) ==> finished
      ensures item.None? || item.value.Failure? ==> finished
      ensures item.Some? && item.value.Deltas? ==>
        |upstream| < |old(upstream)| || (!old(finished) && finished && upstream == old(upstream))
      ensures |upstream| <= |old(upstream)|
      ensures var said := if item.Some? && item.value.Deltas? then item.value.deltas else [];
        && Content(decoder) == Content(old(decoder)) + ContentSaid(said)
        && Reasoning(decoder) == Reasoning(old(decoder)) + ReasoningSaid(said)
    {
      assert Content(decoder) + "" == Content(decoder) && Reasoning(decoder) + "" == Reasoning(decoder);
      if error.Some? {
        item := Some(Failure(error.value));
        error := None;
        return;
      }
      if finished { return None; }
      while true
        invariant Valid() && !finished && error.None? && Final() == old(Final()) && Ending() == old(Ending())
        invariant |upstream| <= |old(upstream)|
        invariant Content(decoder) == Content(old(decoder)) && Reasoning(decoder) == Reasoning(old(decoder))
        decreases |upstream|
      {
        if upstream == [] {
          item := ReadTail();
          return;
        }
        var head := upstream[0];
        upstream := upstream[1..];
        if head.Broken? {
          finished := true;
          return Some(Failure(Transport(head.detail)));
        }
        var deltas := Feed(head.bytes);
        if deltas != [] { return Some(Deltas(deltas)); }
        if error.Some? {
          item := Some(Failure(error.value));
          error := None;
          return;
        }
        if finished { return None; }
      }
    }

    /** The end of the byte stream: an unterminated last block is still an event. */
    method ReadTail() returns (item: Option<Item>)
      requires Valid() && !finished && upstream == [] && error.None?
      modifies this`decoder, this`finished, this`error, splitter
      ensures Valid() && finished && decoder == old(Final())
      ensures item.None? ==> old(Ending()) == None == Ending()
      ensures item.Some? && item.value.Failure? ==> old(Ending()) == Some(item.value.error) && Ending() == None
      ensures item.Some? && item.value.Deltas? ==> Ending() == old(Ending())
      ensures var said := if item.Some? && item.value.Deltas? then item.value.deltas else [];
        && Content(decoder) == Content(old(decoder)) + ContentSaid(said)
        && Reasoning(decoder) == Reasoning(old(decoder)) + ReasoningSaid(said)
    {
      assert Content(decoder) + "" == Content(decoder) && Reasoning(decoder) + "" == Reasoning(decoder);
      finished := true;
      var tail := splitter.Flush();
      if tail.Some? {
        var deltas := ConsumeAll([tail.value]);
        if deltas != [] { return Some(Deltas(deltas)); }
      }
      if error.Some? {
        item := Some(Failure(error.value));
        error := None;
        return;
      }
      return None;
    }
  }

  // ---------------------------------------------------------------- reading to the end

  /** Reads until there is nothing more. */
  method Drain(stream: ProviderStream)
    requires stream.Valid()
    modifies stream, stream.splitter
    ensures stream.Valid() && stream.finished && stream.decoder == old(stream.Final())
  {
    while !stream.finished
      invariant stream.Valid() && stream.Final() == old(stream.Final())
      decreases |stream.upstream|, !stream.finished
    {
      var item := stream.Next();
    }
  }

  /** The condition can fail: text that follows the marker that ends the round is kept when it
      comes in the same chunk, and is lost when it comes in the next. */
  lemma LateTextDependsOnCuts()
    ensures var done, text := PrintFrame(Anonymous(DONE_MARKER)), PrintFrame(Anonymous("late"));
      var step, start := Reader(Readers(_ => None, _ => None, _ => None)), OpenAi(Chat.START);
      && Content(ReadOut(step, start, "", [Chunk(done), Chunk(text)])) == ""
      && Content(ReadOut(step, start, "", [Chunk(done + text)])) == "late"
  {
    var done, text := PrintFrame(Anonymous(DONE_MARKER)), PrintFrame(Anonymous("late"));
    var step, start := Reader(Readers(_ => None, _ => None, _ => None)), OpenAi(Chat.START);
    FrameIsBlock(Anonymous(DONE_MARKER));
    FrameIsBlock(Anonymous("late"));
    LateTextIsKept();
    EndThenMore(step, start, done, text);
  }

  lemma LateTextIsKept()
    ensures var step, start := Reader(Readers(_ => None, _ => None, _ => None)), OpenAi(Chat.START);
      && step(start, PrintFrame(Anonymous(DONE_MARKER))) == (start, true)
      && Content(step(start, PrintFrame(Anonymous("late"))).0) == "late"
  {
    var r := Readers(_ => None, _ => None, _ => None);
    StepOnFrame(r, OpenAi(Chat.START), DONE_MARKER);
    StepOnFrame(r, OpenAi(Chat.START), "late");
    MarkerEnds(r, Chat.START);
    PlainTextIsKept(r, "late");
  }

  lemma StepOnFrame(r: Readers, d: Decoder, payload: string)
    requires OneLine(payload)
    ensures var (next, event) := Decode(r, d, payload);
      Reader(r)(d, PrintFrame(Anonymous(payload))) == (next, !event.Data?)
  {
    PayloadOfFrame(Anonymous(payload));
  }

  lemma MarkerEnds(r: Readers, st: Chat.State)
    ensures Decode(r, OpenAi(st), DONE_MARKER) == (OpenAi(st), Done)
  {
  }

  lemma PlainTextIsKept(r: Readers, text: string)
    requires text != "" && text != DONE_MARKER && r.chunk(text).None?
    ensures Content(Decode(r, OpenAi(Chat.START), text).0) == text
  {
    assert ChatPayload(r, text) == Chat.PlainText(text) && "" + text == text;
  }

  /** Two streams over the same bytes, however they are cut, leave the same decoder. */
  method ReadTwice(readers: Readers, start: Decoder, a: seq<Upstream>, b: seq<Upstream>)
    returns (x: Decoder, y: Decoder)
    requires Unbroken(a) && Unbroken(b) && BytesOf(a) == BytesOf(b)
    requires Settled(Reader(readers), start, Split(BytesOf(a)).0)
    ensures x == y == ReadOut(Reader(readers), start, "", a)
  {
    var s := new ProviderStream(readers, a, start);
    Drain(s);
    var t := new ProviderStream(readers, b, start);
    Drain(t);
    SettledReadsAlike(Reader(readers), start, a, b);
    return s.decoder, t.decoder;
  }

  // ---------------------------------------------------------------- a streamed round

  datatype StopReason = Requested | ClientDisconnected

  datatype RoundEnd = Complete | Interrupted(reason: StopReason) | RoundFailed(error: ProviderError)

  /** What is noticed before each read: a stop request, a consumer that has gone, or that will be
      gone after so many pieces. */
  datatype Signal = Quiet | StopSignal | ConsumerGone | GoneAfter(pieces: nat)

  predicate Interrupts(signal: Signal, reason: StopReason) {
    match signal
    case Quiet => false
    case StopSignal => reason == Requested
    case ConsumerGone => reason == ClientDisconnected
    case GoneAfter(_) => reason == ClientDisconnected
  }

  lemma PartIsSaid(sent: seq<StreamDelta>, deltas: seq<StreamDelta>, n: nat)
    requires n <= |deltas|
    ensures ContentSaid(sent + deltas[..n]) <= ContentSaid(sent) + ContentSaid(deltas)
    ensures ReasoningSaid(sent + deltas[..n]) <= ReasoningSaid(sent) + ReasoningSaid(deltas)
    ensures n == |deltas| ==> ContentSaid(sent + deltas[..n]) == ContentSaid(sent) + ContentSaid(deltas)
    ensures n == |deltas| ==> ReasoningSaid(sent + deltas[..n]) == ReasoningSaid(sent) + ReasoningSaid(deltas)
  {
    assert deltas[..n] + deltas[n..] == deltas && (n == |deltas| ==> deltas[..n] == deltas);
    SaidAppends(deltas[..n], deltas[n..]);
    SaidAppends(sent, deltas[..n]);
  }

  /** Forwards a round's text until it ends, a stop is requested or the consumer is gone. What
      the consumer received is a prefix of what the round's outcome keeps, and all of it when
      the round completed; a round that is not interrupted fails exactly with the error its
      stream comes to. */
  method RunStreamedRound(stream: ProviderStream, signals: nat -> Signal)
    returns (sent: seq<StreamDelta>, end: RoundEnd)
    requires stream.Valid() && Content(stream.decoder) == "" && Reasoning(stream.decoder) == ""
    modifies stream, stream.splitter
    ensures stream.Valid() && stream.Final() == old(stream.Final())
    ensures end.Complete? ==> stream.finished && old(stream.Ending()) == None
    ensures end.RoundFailed? ==> stream.finished && old(stream.Ending()) == Some(end.error)
    ensures end.Interrupted? ==> exists i :: Interrupts(signals(i), end.reason)
    ensures signals(0).StopSignal? ==> end == Interrupted(Requested) && sent == []
    ensures ContentSaid(sent) <= Content(stream.decoder)
    ensures ReasoningSaid(sent) <= Reasoning(stream.decoder)
    ensures end.Complete? ==> ContentSaid(sent) == Content(stream.decoder)
    ensures end.Complete? ==> ReasoningSaid(sent) == Reasoning(stream.decoder)
  {
    sent := [];
    var rounds := 0;
    while true
      invariant stream.Valid() && stream.Final() == old(stream.Final()) && stream.Ending() == old(stream.Ending())
      invariant rounds > 0 ==> !signals(0).StopSignal?
      invariant rounds == 0 ==> sent == []
      invariant Content(stream.decoder) == ContentSaid(sent) && Reasoning(stream.decoder) == ReasoningSaid(sent)
      decreases |stream.upstream|, !stream.finished
    {
      var signal := signals(rounds);
      rounds := rounds + 1;
      if signal.StopSignal? { return sent, Interrupted(Requested); }
      if signal.ConsumerGone? { return sent, Interrupted(ClientDisconnected); }
      var item := stream.Next();
      match item {
        case None => return sent, Complete;
        case Some(Failure(error)) => return sent, RoundFailed(error);
        case Some(Deltas(deltas)) =>
          var n := if signal.GoneAfter? && signal.pieces < |deltas| then signal.pieces else |deltas|;
          PartIsSaid(sent, deltas, n);
          sent := sent + deltas[..n];
          if n < |deltas| { return sent, Interrupted(ClientDisconnected); }
      }
    }
  }
}
