/** What a round that comes in pieces adds up to, whatever the pieces are. */
module Assembly {
  import opened Json
  import opened Text
  import opened Provider
  import Chat
  import Responses

  // ---------------------------------------------------------------- arguments

  lemma PrintedIsNotBlank(v: Json)
    ensures Trim(Canonical(v)) != ""
  {
    PrintHead(v, "");
    var s := Canonical(v);
    assert !IsSpace(s[0]);
    TrimIsBlank(s);
  }

  /** Arguments that were printed come back; blank text means none; text that cannot be read
      stays text. */
  lemma ArgumentsAreRead(parse: string -> Option<Json>, v: Json, text: string)
    ensures ReadsBack(parse) && text == Canonical(v) ==> ReadArguments(parse, text) == v
    ensures (forall c | c in text :: IsSpace(c)) ==> ReadArguments(parse, text) == Obj(map[])
    ensures !(forall c | c in text :: IsSpace(c)) && parse(text).None? ==> ReadArguments(parse, text) == Str(text)
  {
    PrintedIsNotBlank(v);
    TrimIsBlank(text);
  }

  // ---------------------------------------------------------------- responses

  /** The item announces the call, under its call identifier or, without one, its own. */
  ghost predicate IsItem(item: Responses.Item, call: ToolCall) {
    && item.FunctionCall? && item.name == Some(call.name) && item.arguments == Some(Str(Canonical(call.arguments)))
    && (item.callId == Some(call.id) || (item.callId.None? && item.itemId == Some(call.id)))
  }

  /** The function calls among the items are these, in order. */
  ghost predicate Announce(items: seq<Responses.Item>, calls: seq<ToolCall>)
    decreases items
  {
    if items == [] then calls == []
    else if !items[0].FunctionCall? then Announce(items[1..], calls)
    else calls != [] && IsItem(items[0], calls[0]) && Announce(items[1..], calls[1..])
  }

  lemma ItemComesBack(parse: string -> Option<Json>, item: Responses.Item, call: ToolCall)
    requires ReadsBack(parse) && IsItem(item, call)
    ensures Responses.ItemCalls(parse, item) == [call] && Responses.Replayable(item)
  {
    ArgumentsAreRead(parse, call.arguments, Canonical(call.arguments));
  }

  lemma {:induction false} BufferedCallsComeBack(parse: string -> Option<Json>, items: seq<Responses.Item>,
                                                 calls: seq<ToolCall>)
    requires ReadsBack(parse) && Announce(items, calls)
    ensures Responses.CallsOf(parse, items) == calls
    ensures forall item | item in items :: Responses.Replayable(item)
    decreases items
  {
    if items != [] {
      assert forall item | item in items :: item == items[0] || item in items[1..];
      if items[0].FunctionCall? {
        ItemComesBack(parse, items[0], calls[0]);
        BufferedCallsComeBack(parse, items[1..], calls[1..]);
        var first := Responses.ItemCalls(parse, items[0]);
        assert first == [calls[0]] && first + calls[1..] == calls;
      } else {
        BufferedCallsComeBack(parse, items[1..], calls);
        assert [] + calls == calls;
      }
    }
  }

  /** Calls announced by a completed response come back with their arguments, from the buffered
      response and from the stream, however the argument strings are cut. */
  lemma ResponseCallsComeBack(parse: string -> Option<Json>, r: Responses.Response, cuts: seq<seq<seq<string>>>,
                              calls: seq<ToolCall>)
    requires ReadsBack(parse) && r.status == Some("completed") && |cuts| == |r.output|
    requires forall i | 0 <= i < |cuts| :: Responses.CutUp(r.output[i], cuts[i])
    requires Announce(r.output, calls)
    ensures Responses.Buffered(parse, r).Some? && Responses.Buffered(parse, r).value.toolCalls == calls
    ensures var events := Responses.StreamOf(0, r.output, cuts) + [Responses.Completed(r)];
            Responses.Outcome(parse, Responses.Run(Responses.START, events)).toolCalls == calls
  {
    BufferedCallsComeBack(parse, r.output, calls);
    Responses.StreamedOutcome(parse, Responses.START, r, cuts);
    Responses.CallsAgree(parse, r.output);
  }

  /** A part says its text, or else its refusal. */
  ghost predicate Says(part: Responses.Part, piece: string) {
    || part.text == Some(piece)
    || (part.text.None? && (part.refusal == Some(piece) || (part.refusal.None? && piece == "")))
  }

  /** The messages among the items say these pieces, in order. */
  ghost predicate Speak(items: seq<Responses.Item>, pieces: seq<string>)
    decreases items
  {
    if items == [] then pieces == []
    else if !items[0].Message? then Speak(items[1..], pieces)
    else
      var parts := items[0].parts;
      && |parts| <= |pieces| && (forall i | 0 <= i < |parts| :: Says(parts[i], pieces[i]))
      && Speak(items[1..], pieces[|parts|..])
  }

  /** The reasoning among the items is these pieces, the summary of an item before its content. */
  ghost predicate Think(items: seq<Responses.Item>, pieces: seq<string>)
    decreases items
  {
    if items == [] then pieces == []
    else if !items[0].Reasoning? then Think(items[1..], pieces)
    else
      var thoughts := items[0].summary + items[0].content;
      && |thoughts| <= |pieces|
      && (forall i | 0 <= i < |thoughts| :: pieces[i] == if thoughts[i].Some? then thoughts[i].value else "")
      && Think(items[1..], pieces[|thoughts|..])
  }

  lemma {:induction false} PartsSay(parts: seq<Responses.Part>, pieces: seq<string>)
    requires |pieces| == |parts| && forall i | 0 <= i < |parts| :: Says(parts[i], pieces[i])
    ensures Responses.MessageText(parts) == Flatten(pieces)
  {
    if parts != [] {
      assert Says(parts[0], pieces[0]);
      forall i | 0 <= i < |parts[1..]| ensures Says(parts[1..][i], pieces[1..][i]) {
        assert Says(parts[i + 1], pieces[i + 1]);
      }
      PartsSay(parts[1..], pieces[1..]);
    }
  }

  lemma {:induction false} TextsAppend(a: seq<Option<string>>, b: seq<Option<string>>)
    ensures Responses.Texts(a + b) == Responses.Texts(a) + Responses.Texts(b)
  {
    if a == [] {
      assert a + b == b;
    } else {
      assert (a + b)[1..] == a[1..] + b;
      TextsAppend(a[1..], b);
    }
  }

  lemma {:induction false} TextsSay(texts: seq<Option<string>>, pieces: seq<string>)
    requires |pieces| == |texts|
    requires forall i | 0 <= i < |texts| :: pieces[i] == if texts[i].Some? then texts[i].value else ""
    ensures Responses.Texts(texts) == Flatten(pieces)
  {
    if texts != [] { TextsSay(texts[1..], pieces[1..]); }
  }

  lemma SplitPieces(pieces: seq<string>, n: nat)
    requires n <= |pieces|
    ensures Flatten(pieces) == Flatten(pieces[..n]) + Flatten(pieces[n..])
  {
    assert pieces == pieces[..n] + pieces[n..];
    FlattenAppends(pieces[..n], pieces[n..]);
  }

  lemma {:induction false} SpokenComesBack(items: seq<Responses.Item>, pieces: seq<string>)
    requires Speak(items, pieces)
    ensures Responses.ContentOf(items) == Flatten(pieces)
    decreases items
  {
    if items != [] {
      if items[0].Message? {
        var n := |items[0].parts|;
        PartsSay(items[0].parts, pieces[..n]);
        SpokenComesBack(items[1..], pieces[n..]);
        SplitPieces(pieces, n);
      } else {
        SpokenComesBack(items[1..], pieces);
      }
    }
  }

  lemma {:induction false} ThoughtComesBack(items: seq<Responses.Item>, pieces: seq<string>)
    requires Think(items, pieces)
    ensures Responses.ReasoningOf(items) == Flatten(pieces)
    decreases items
  {
    if items != [] {
      if items[0].Reasoning? {
        var thoughts := items[0].summary + items[0].content;
        TextsAppend(items[0].summary, items[0].content);
        TextsSay(thoughts, pieces[..|thoughts|]);
        ThoughtComesBack(items[1..], pieces[|thoughts|..]);
        SplitPieces(pieces, |thoughts|);
      } else {
        ThoughtComesBack(items[1..], pieces);
      }
    }
  }

  /** A completed response is read as all that its messages say, all that its reasoning is, and
      its model and usage; any other is refused. */
  lemma ResponseComesBack(parse: string -> Option<Json>, r: Responses.Response, said: seq<string>, thought: seq<string>)
    requires Speak(r.output, said) && Think(r.output, thought)
    ensures Responses.Buffered(parse, r).Some? <==> r.status == Some("completed")
    ensures Responses.Buffered(parse, r).Some? ==> var o := Responses.Buffered(parse, r).value;
      && o.content == Flatten(said) && o.model == r.model && o.usage == r.usage
      && o.reasoning == if Flatten(thought) == "" then None else Some(Flatten(thought))
  {
    SpokenComesBack(r.output, said);
    ThoughtComesBack(r.output, thought);
  }

  // ---------------------------------------------------------------- calls by ascending index

  ghost predicate Ascending(at: seq<nat>) {
    forall i, j | 0 <= i < j < |at| :: at[i] < at[j]
  }

  /** The calls of a map stand at these indices. */
  ghost predicate StandAt(calls: map<nat, PartialCall>, at: seq<nat>) {
    Ascending(at) && forall k :: k in calls <==> k in at
  }

  function CallsAt(calls: map<nat, PartialCall>, at: seq<nat>): seq<PartialCall> {
    if at == [] then [] else CallsAt(calls, at[..|at| - 1]) + [CallAt(calls, at[|at| - 1])]
  }

  lemma TopOf(at: seq<nat>)
    requires at != [] && Ascending(at)
    ensures var top, rest := at[|at| - 1], at[..|at| - 1];
      && top in at && Ascending(rest)
      && forall k :: (k in at <==> k in rest || k == top) && (k in rest ==> k < top)
  {
    var top, rest := at[|at| - 1], at[..|at| - 1];
    assert at == rest + [top];
  }

  lemma {:induction false} BelowAt(calls: map<nat, PartialCall>, at: seq<nat>, n: nat)
    requires Ascending(at) && (forall k: nat | k < n :: k in calls <==> k in at) && forall k | k in at :: k < n
    ensures CallsBelow(calls, n) == CallsAt(calls, at)
    decreases n
  {
    if at == [] {
      if n > 0 { BelowAt(calls, at, n - 1); }
    } else {
      TopOf(at);
      if at[|at| - 1] == n - 1 { BelowAt(calls, at[..|at| - 1], n - 1); } else { BelowAt(calls, at, n - 1); }
    }
  }

  lemma {:induction false} CallsAtAre(calls: map<nat, PartialCall>, at: seq<nat>)
    ensures |CallsAt(calls, at)| == |at|
    ensures forall j | 0 <= j < |at| :: CallsAt(calls, at)[j] == CallAt(calls, at[j])
  {
    if at != [] { CallsAtAre(calls, at[..|at| - 1]); }
  }

  lemma OrderedAt(calls: map<nat, PartialCall>, at: seq<nat>)
    requires StandAt(calls, at)
    ensures |OrderedCalls(calls)| == |at|
    ensures forall j | 0 <= j < |at| :: OrderedCalls(calls)[j] == CallAt(calls, at[j])
  {
    var n := if at == [] then 0 else at[|at| - 1] + 1;
    if at != [] { TopOf(at); }
    BelowAt(calls, at, n);
    OrderedCallsAre(calls, n);
    CallsAtAre(calls, at);
  }

  // ---------------------------------------------------------------- chat completions

  function RunChat(st: Chat.State, ps: seq<Chat.ChatPayload>): Chat.State
    decreases ps
  {
    if ps == [] then st else RunChat(Chat.ConsumeChat(st, ps[0]).0, ps[1..])
  }

  /** What the choices of a chunk say, in order. */
  function DeltasOf(choices: seq<Chat.Choice>): seq<Chat.Delta> {
    if choices == [] then []
    else (if choices[0].delta.Some? then [choices[0].delta.value] else []) + DeltasOf(choices[1..])
  }

  /** What the payloads of a round say, in order; text that is no JSON is content, and a chunk
      that carries an error says nothing. */
  function AllDeltas(ps: seq<Chat.ChatPayload>): seq<Chat.Delta> {
    if ps == [] then [] else PayloadDeltas(ps[0]) + AllDeltas(ps[1..])
  }

  function PayloadDeltas(p: Chat.ChatPayload): seq<Chat.Delta> {
    match p
    case PlainText(text) => [Chat.Delta(Some(text), None, [])]
    case ChunkPayload(chunk) => if chunk.error.Some? then [] else DeltasOf(chunk.choices)
    case _ => []
  }

  function ContentIn(ds: seq<Chat.Delta>): string {
    if ds == [] then "" else OrEmpty(ds[0].content) + ContentIn(ds[1..])
  }

  function ReasoningIn(ds: seq<Chat.Delta>): string {
    if ds == [] then "" else OrEmpty(ds[0].reasoning) + ReasoningIn(ds[1..])
  }

  function CallsIn(ds: seq<Chat.Delta>): seq<Chat.CallDelta> {
    if ds == [] then [] else ds[0].calls + CallsIn(ds[1..])
  }

  /** `end` is `st` with these deltas added. */
  ghost predicate Adds(st: Chat.State, end: Chat.State, ds: seq<Chat.Delta>) {
    && end.content == st.content + ContentIn(ds) && end.reasoning == st.reasoning + ReasoningIn(ds)
    && end.calls == Chat.ConsumeCalls(st, CallsIn(ds)).calls
  }

  lemma {:induction false} CallsOnly(a: Chat.State, b: Chat.State, cs: seq<Chat.CallDelta>)
    requires a.calls == b.calls
    ensures Chat.ConsumeCalls(a, cs).calls == Chat.ConsumeCalls(b, cs).calls
    ensures Chat.ConsumeCalls(a, cs) == a.(calls := Chat.ConsumeCalls(a, cs).calls)
    decreases cs
  {
    if cs != [] { CallsOnly(Chat.ConsumeCall(a, cs[0]), Chat.ConsumeCall(b, cs[0]), cs[1..]); }
  }

  lemma {:induction false} CallsAppend(st: Chat.State, a: seq<Chat.CallDelta>, b: seq<Chat.CallDelta>)
    ensures Chat.ConsumeCalls(st, a + b) == Chat.ConsumeCalls(Chat.ConsumeCalls(st, a), b)
    decreases a
  {
    if a == [] {
      assert a + b == b;
    } else {
      assert (a + b)[1..] == a[1..] + b;
      CallsAppend(Chat.ConsumeCall(st, a[0]), a[1..], b);
    }
  }

  lemma AddsNothing(st: Chat.State, end: Chat.State)
    requires end == st.(usage := end.usage)
    ensures Adds(st, end, [])
  {
    assert st.content + "" == st.content && st.reasoning + "" == st.reasoning;
  }

  lemma InAppends(a: seq<Chat.Delta>, b: seq<Chat.Delta>)
    ensures ContentIn(a + b) == ContentIn(a) + ContentIn(b) && ReasoningIn(a + b) == ReasoningIn(a) + ReasoningIn(b)
    ensures CallsIn(a + b) == CallsIn(a) + CallsIn(b)
  {
    ContentAppends(a, b);
    ReasoningAppends(a, b);
    CallsInAppend(a, b);
  }

  lemma {:induction false} ContentAppends(a: seq<Chat.Delta>, b: seq<Chat.Delta>)
    ensures ContentIn(a + b) == ContentIn(a) + ContentIn(b)
  {
    if a == [] {
      assert a + b == b;
    } else {
      assert (a + b)[1..] == a[1..] + b && (a + b)[0] == a[0];
      ContentAppends(a[1..], b);
      Associates(OrEmpty(a[0].content), ContentIn(a[1..]), ContentIn(b));
    }
  }

  lemma {:induction false} ReasoningAppends(a: seq<Chat.Delta>, b: seq<Chat.Delta>)
    ensures ReasoningIn(a + b) == ReasoningIn(a) + ReasoningIn(b)
  {
    if a == [] {
      assert a + b == b;
    } else {
      assert (a + b)[1..] == a[1..] + b && (a + b)[0] == a[0];
      ReasoningAppends(a[1..], b);
      Associates(OrEmpty(a[0].reasoning), ReasoningIn(a[1..]), ReasoningIn(b));
    }
  }

  lemma {:induction false} CallsInAppend(a: seq<Chat.Delta>, b: seq<Chat.Delta>)
    ensures CallsIn(a + b) == CallsIn(a) + CallsIn(b)
  {
    if a == [] {
      assert a + b == b;
    } else {
      assert (a + b)[1..] == a[1..] + b && (a + b)[0] == a[0];
      CallsInAppend(a[1..], b);
      Associates(a[0].calls, CallsIn(a[1..]), CallsIn(b));
    }
  }

  lemma AddsAppend(st: Chat.State, mid: Chat.State, end: Chat.State, a: seq<Chat.Delta>, b: seq<Chat.Delta>)
    requires Adds(st, mid, a) && Adds(mid, end, b)
    ensures Adds(st, end, a + b)
  {
    InAppends(a, b);
    Associates(st.content, ContentIn(a), ContentIn(b));
    Associates(st.reasoning, ReasoningIn(a), ReasoningIn(b));
    CallsAppend(st, CallsIn(a), CallsIn(b));
    CallsOnly(mid, Chat.ConsumeCalls(st, CallsIn(a)), CallsIn(b));
  }

  lemma AddsOne(st: Chat.State, end: Chat.State, d: Chat.Delta)
    requires end.content == st.content + OrEmpty(d.content) && end.reasoning == st.reasoning + OrEmpty(d.reasoning)
    requires end.calls == Chat.ConsumeCalls(st, d.calls).calls
    ensures Adds(st, end, [d])
  {
    OneIn(d);
  }

  lemma OneIn(d: Chat.Delta)
    ensures ContentIn([d]) == OrEmpty(d.content) && ReasoningIn([d]) == OrEmpty(d.reasoning) && CallsIn([d]) == d.calls
  {
    assert [d][1..] == [] && d.calls + [] == d.calls;
    assert ContentIn([d]) == OrEmpty(d.content) + "" && ReasoningIn([d]) == OrEmpty(d.reasoning) + "";
  }

  lemma ChoiceAdds(st: Chat.State, round: RoundDelta, choice: Chat.Choice)
    ensures Adds(st, Chat.ConsumeChoice(st, round, choice).0, if choice.delta.Some? then [choice.delta.value] else [])
  {
    var end := Chat.ConsumeChoice(st, round, choice).0;
    if choice.delta.None? {
      AddsNothing(st, end);
    } else {
      var d := choice.delta.value;
      assert st.content + "" == st.content && st.reasoning + "" == st.reasoning;
      var said := Chat.PushUsage(st, choice.usage).(content := st.content + OrEmpty(d.content),
                                                    reasoning := st.reasoning + OrEmpty(d.reasoning));
      assert end == Chat.ConsumeCalls(said, d.calls);
      CallsOnly(said, st, d.calls);
      AddsOne(st, end, d);
    }
  }

  lemma {:induction false} ChoicesAdd(st: Chat.State, round: RoundDelta, choices: seq<Chat.Choice>)
    ensures Adds(st, Chat.ConsumeChoices(st, round, choices).0, DeltasOf(choices))
    decreases choices
  {
    if choices == [] {
      AddsNothing(st, st);
    } else {
      var (mid, round1) := Chat.ConsumeChoice(st, round, choices[0]);
      ChoiceAdds(st, round, choices[0]);
      ChoicesAdd(mid, round1, choices[1..]);
      AddsAppend(st, mid, Chat.ConsumeChoices(mid, round1, choices[1..]).0,
                 if choices[0].delta.Some? then [choices[0].delta.value] else [], DeltasOf(choices[1..]));
    }
  }

  lemma PayloadAdds(st: Chat.State, p: Chat.ChatPayload)
    ensures Adds(st, Chat.ConsumeChat(st, p).0, PayloadDeltas(p))
  {
    match p
    case PlainText(text) =>
      assert st.reasoning + "" == st.reasoning;
      AddsOne(st, Chat.PushContent(st, text), Chat.Delta(Some(text), None, []));
    case ChunkPayload(chunk) =>
      if chunk.error.Some? {
        AddsNothing(st, st);
      } else {
        var counted := Chat.PushUsage(st, chunk.usage);
        AddsNothing(st, counted);
        ChoicesAdd(counted, RoundDelta(None, None, chunk.usage), chunk.choices);
        AddsAppend(st, counted, Chat.ConsumeChat(st, p).0, [], DeltasOf(chunk.choices));
        assert [] + DeltasOf(chunk.choices) == DeltasOf(chunk.choices);
      }
    case _ => AddsNothing(st, st);
  }

  lemma {:induction false} ChatAdds(st: Chat.State, ps: seq<Chat.ChatPayload>)
    ensures Adds(st, RunChat(st, ps), AllDeltas(ps))
    decreases ps
  {
    if ps == [] {
      AddsNothing(st, st);
    } else {
      var mid := Chat.ConsumeChat(st, ps[0]).0;
      PayloadAdds(st, ps[0]);
      ChatAdds(mid, ps[1..]);
      AddsAppend(st, mid, RunChat(mid, ps[1..]), PayloadDeltas(ps[0]), AllDeltas(ps[1..]));
    }
  }

  // ---------------------------------------------------------------- the fragments of one call

  predicate For(c: Chat.CallDelta, k: nat) {
    c.index == Some(k)
  }

  /** What one delta gives call `k`: a piece of its arguments, an identifier, a name. */
  function PieceFor(c: Chat.CallDelta, k: nat): string {
    if For(c, k) && c.function_.Some? then OrEmpty(c.function_.value.arguments) else ""
  }

  function IdFor(c: Chat.CallDelta, k: nat): string {
    if For(c, k) then OrEmpty(c.id) else ""
  }

  function NameFor(c: Chat.CallDelta, k: nat): string {
    if For(c, k) && c.function_.Some? then OrEmpty(c.function_.value.name) else ""
  }

  /** The pieces for call `k`, put together; and the last identifier and name it is given. */
  function Pieces(cs: seq<Chat.CallDelta>, k: nat): string {
    if cs == [] then "" else PieceFor(cs[0], k) + Pieces(cs[1..], k)
  }

  function IdGiven(cs: seq<Chat.CallDelta>, k: nat): string {
    if cs == [] then "" else Later(IdFor(cs[0], k), IdGiven(cs[1..], k))
  }

  function NameGiven(cs: seq<Chat.CallDelta>, k: nat): string {
    if cs == [] then "" else Later(NameFor(cs[0], k), NameGiven(cs[1..], k))
  }

  function Later(a: string, b: string): string {
    if b != "" then b else a
  }

  /** Every fragment says which call it belongs to. */
  ghost predicate Addressed(cs: seq<Chat.CallDelta>) {
    forall i | 0 <= i < |cs| :: cs[i].index.Some?
  }

  ghost predicate Mentions(cs: seq<Chat.CallDelta>, k: nat) {
    exists i | 0 <= i < |cs| :: For(cs[i], k)
  }

  predicate Assembled(before: PartialCall, after: PartialCall, text: string, id: string, name: string) {
    after == PartialCall(Later(before.id, id), Later(before.name, name), before.arguments + text, before.initial)
  }

  lemma OneFragment(st: Chat.State, c: Chat.CallDelta, k: nat)
    requires c.index.Some?
    ensures var end := Chat.ConsumeCall(st, c).calls;
      && (k in end <==> k in st.calls || For(c, k))
      && Assembled(CallAt(st.calls, k), CallAt(end, k), PieceFor(c, k), IdFor(c, k), NameFor(c, k))
  {
    var before := CallAt(st.calls, k);
    assert before.arguments + "" == before.arguments;
  }

  lemma FirstMention(cs: seq<Chat.CallDelta>, k: nat)
    requires cs != []
    ensures Mentions(cs, k) <==> For(cs[0], k) || Mentions(cs[1..], k)
  {
    if Mentions(cs[1..], k) {
      var i :| 0 <= i < |cs| - 1 && For(cs[1..][i], k);
      assert For(cs[i + 1], k);
    }
    if Mentions(cs, k) && !For(cs[0], k) {
      var i :| 0 <= i < |cs| && For(cs[i], k);
      assert For(cs[1..][i - 1], k);
    }
  }

  /** However the fragments of different calls are interleaved, a call ends with its own pieces
      in order, under the last identifier and name it was given. */
  lemma {:induction false} CallsAssemble(st: Chat.State, cs: seq<Chat.CallDelta>, k: nat)
    requires Addressed(cs)
    ensures var end := Chat.ConsumeCalls(st, cs).calls;
      && (k in end <==> k in st.calls || Mentions(cs, k))
      && Assembled(CallAt(st.calls, k), CallAt(end, k), Pieces(cs, k), IdGiven(cs, k), NameGiven(cs, k))
    decreases cs
  {
    var before := CallAt(st.calls, k);
    if cs == [] {
      assert before.arguments + "" == before.arguments;
    } else {
      var mid := Chat.ConsumeCall(st, cs[0]);
      OneFragment(st, cs[0], k);
      CallsAssemble(mid, cs[1..], k);
      FirstMention(cs, k);
      Associates(before.arguments, PieceFor(cs[0], k), Pieces(cs[1..], k));
    }
  }

  /** A delta that names no call opens the one after those there are. */
  lemma UnaddressedOpensNext(st: Chat.State, c: Chat.CallDelta)
    requires c.index.None? && forall k :: k in st.calls <==> k < |st.calls|
    ensures var end, next := Chat.ConsumeCall(st, c).calls, |st.calls|;
      && (forall k :: k in end <==> k <= next) && (forall k | k < next :: end[k] == st.calls[k])
      && Assembled(NO_CALL, end[next], PieceFor(c.(index := Some(next)), next), IdFor(c.(index := Some(next)), next),
                   NameFor(c.(index := Some(next)), next))
  {
    assert |st.calls| !in st.calls;
    OneFragment(st, c.(index := Some(|st.calls|)), |st.calls|);
  }

  lemma CallsFinished(parse: string -> Option<Json>, st: Chat.State, at: seq<nat>, calls: seq<ToolCall>)
    requires StandAt(st.calls, at) && |at| == |calls|
    requires forall j | 0 <= j < |at| :: Chat.FinishCall(parse, CallAt(st.calls, at[j])) == calls[j]
    ensures Chat.Outcome(parse, st).toolCalls == calls
  {
    OrderedAt(st.calls, at);
  }

  /** Calls whose pieces, taken together, are their printed arguments come back with them, in
      the order of their indices, along with everything else the round said. */
  lemma ChatComesBack(parse: string -> Option<Json>, ps: seq<Chat.ChatPayload>, at: seq<nat>, calls: seq<ToolCall>)
    requires ReadsBack(parse) && Ascending(at) && |at| == |calls|
    requires var cs := CallsIn(AllDeltas(ps));
      && Addressed(cs) && (forall k :: Mentions(cs, k) <==> k in at)
      && forall j | 0 <= j < |at| ::
           Spelled(calls[j], IdGiven(cs, at[j]), NameGiven(cs, at[j]), Pieces(cs, at[j]))
    ensures var o := Chat.Outcome(parse, RunChat(Chat.START, ps));
      && o.toolCalls == calls && o.content == ContentIn(AllDeltas(ps))
      && o.reasoning == NonEmpty(ReasoningIn(AllDeltas(ps)))
  {
    var cs, end := CallsIn(AllDeltas(ps)), RunChat(Chat.START, ps);
    ChatAdds(Chat.START, ps);
    assert "" + ContentIn(AllDeltas(ps)) == ContentIn(AllDeltas(ps));
    assert "" + ReasoningIn(AllDeltas(ps)) == ReasoningIn(AllDeltas(ps));
    forall k ensures k in end.calls <==> k in at { CallsAssemble(Chat.START, cs, k); }
    forall j | 0 <= j < |at| ensures Chat.FinishCall(parse, CallAt(end.calls, at[j])) == calls[j] {
      CallsAssemble(Chat.START, cs, at[j]);
      assert "" + Pieces(cs, at[j]) == Pieces(cs, at[j]);
      SpelledComesBack(parse, CallAt(end.calls, at[j]), calls[j]);
    }
    CallsFinished(parse, end, at, calls);
  }

  ghost predicate Spelled(call: ToolCall, id: string, name: string, text: string) {
    call.id == id && call.name == name && Canonical(call.arguments) == text
  }

  lemma SpelledComesBack(parse: string -> Option<Json>, partial: PartialCall, call: ToolCall)
    requires ReadsBack(parse)
    requires Spelled(call, partial.id, partial.name, partial.arguments)
          || (partial.arguments == "" && Spelled(call, partial.id, partial.name, partial.initial))
    ensures Chat.FinishCall(parse, partial) == call
  {
    PrintHead(call.arguments, "");
    ArgumentsAreRead(parse, call.arguments, Canonical(call.arguments));
  }

  // ---------------------------------------------------------------- messages

  function RunMessages(st: Chat.State, ps: seq<Chat.MessagesPayload>): Chat.State
    decreases ps
  {
    if ps == [] then st else RunMessages(Chat.ConsumeMessages(st, ps[0]).0, ps[1..])
  }

  /** The answer text and the reasoning of one payload. */
  function TextOf(p: Chat.MessagesPayload): string {
    match p
    case PlainPayload(text) => text
    case EventPayload(BlockDeltaEvent(_, Some(TextPiece(text)))) => OrEmpty(text)
    case _ => ""
  }

  function ThoughtOf(p: Chat.MessagesPayload): string {
    match p
    case EventPayload(BlockDeltaEvent(_, Some(Thinking(text)))) => OrEmpty(text)
    case _ => ""
  }

  /** The tool use opened at block `k`; a block without an index is the first. */
  function UseAt(p: Chat.MessagesPayload, k: nat): Option<Chat.ToolUse> {
    match p
    case EventPayload(BlockStart(index, use)) => if Chat.BlockIndex(index) == k then use else None
    case _ => None
  }

  /** The piece of printed input for block `k`. */
  function InputAt(p: Chat.MessagesPayload, k: nat): Option<string> {
    match p
    case EventPayload(BlockDeltaEvent(index, Some(InputJson(text)))) =>
      if Chat.BlockIndex(index) == k then text else None
    case _ => None
  }

  function AllText(ps: seq<Chat.MessagesPayload>): string {
    if ps == [] then "" else TextOf(ps[0]) + AllText(ps[1..])
  }

  function AllThought(ps: seq<Chat.MessagesPayload>): string {
    if ps == [] then "" else ThoughtOf(ps[0]) + AllThought(ps[1..])
  }

  function AllInput(ps: seq<Chat.MessagesPayload>, k: nat): string {
    if ps == [] then "" else OrEmpty(InputAt(ps[0], k)) + AllInput(ps[1..], k)
  }

  /** The last opening of block `k`, and the last input object an opening came with. */
  function Opening(ps: seq<Chat.MessagesPayload>, k: nat): Option<Chat.ToolUse> {
    if ps == [] then None
    else if Opening(ps[1..], k).Some? then Opening(ps[1..], k) else UseAt(ps[0], k)
  }

  function GivenInput(ps: seq<Chat.MessagesPayload>, k: nat): Option<string> {
    if ps == [] then None
    else if GivenInput(ps[1..], k).Some? then GivenInput(ps[1..], k)
    else if UseAt(ps[0], k).Some? then UseAt(ps[0], k).value.input else None
  }

  predicate Touches(ps: seq<Chat.MessagesPayload>, k: nat) {
    ps != [] && (UseAt(ps[0], k).Some? || InputAt(ps[0], k).Some? || Touches(ps[1..], k))
  }

  function Built(before: PartialCall, use: Option<Chat.ToolUse>, input: Option<string>, text: string): PartialCall {
    PartialCall(if use.Some? then OrEmpty(use.value.id) else before.id,
                if use.Some? then OrEmpty(use.value.name) else before.name,
                before.arguments + text, if input.Some? then input.value else before.initial)
  }

  lemma OneMessage(st: Chat.State, p: Chat.MessagesPayload, k: nat)
    ensures var end, use := Chat.ConsumeMessages(st, p).0, UseAt(p, k);
      && end.content == st.content + TextOf(p) && end.reasoning == st.reasoning + ThoughtOf(p)
      && (k in end.calls <==> k in st.calls || use.Some? || InputAt(p, k).Some?)
      && CallAt(end.calls, k) == Built(CallAt(st.calls, k), use, if use.Some? then use.value.input else None,
                                       OrEmpty(InputAt(p, k)))
  {
    var before := CallAt(st.calls, k);
    assert before.arguments + "" == before.arguments;
    assert st.content + "" == st.content && st.reasoning + "" == st.reasoning;
  }

  /** However the deltas of different blocks are interleaved, a tool use ends with its own
      pieces of input in order, as it was last opened. */
  lemma {:induction false} MessagesAssemble(st: Chat.State, ps: seq<Chat.MessagesPayload>, k: nat)
    ensures var end := RunMessages(st, ps);
      && end.content == st.content + AllText(ps) && end.reasoning == st.reasoning + AllThought(ps)
      && (k in end.calls <==> k in st.calls || Touches(ps, k))
      && CallAt(end.calls, k) == Built(CallAt(st.calls, k), Opening(ps, k), GivenInput(ps, k), AllInput(ps, k))
    decreases ps
  {
    var before := CallAt(st.calls, k);
    if ps == [] {
      assert before.arguments + "" == before.arguments;
      assert st.content + "" == st.content && st.reasoning + "" == st.reasoning;
    } else {
      OneMessage(st, ps[0], k);
      MessagesAssemble(Chat.ConsumeMessages(st, ps[0]).0, ps[1..], k);
      Associates(before.arguments, OrEmpty(InputAt(ps[0], k)), AllInput(ps[1..], k));
      Associates(st.content, TextOf(ps[0]), AllText(ps[1..]));
      Associates(st.reasoning, ThoughtOf(ps[0]), AllThought(ps[1..]));
    }
  }

  /** Block `k` was opened for `call`, and its input came in pieces or else with the opening. */
  ghost predicate Uses(ps: seq<Chat.MessagesPayload>, k: nat, call: ToolCall) {
    && Opening(ps, k).Some?
    && Spelled(call, OrEmpty(Opening(ps, k).value.id), OrEmpty(Opening(ps, k).value.name),
               if AllInput(ps, k) == "" then OrEmpty(GivenInput(ps, k)) else AllInput(ps, k))
  }

  /** Tool uses come back with their input, whether it came in pieces or with the opening, in
      the order of their blocks, along with everything else the round said. */
  lemma MessagesComeBack(parse: string -> Option<Json>, ps: seq<Chat.MessagesPayload>, at: seq<nat>,
                         calls: seq<ToolCall>)
    requires ReadsBack(parse) && Ascending(at) && |at| == |calls| && (forall k :: Touches(ps, k) <==> k in at)
    requires forall j | 0 <= j < |at| :: Uses(ps, at[j], calls[j])
    ensures var o := Chat.Outcome(parse, RunMessages(Chat.START, ps));
      o.toolCalls == calls && o.content == AllText(ps) && o.reasoning == NonEmpty(AllThought(ps))
  {
    var end := RunMessages(Chat.START, ps);
    MessagesAssemble(Chat.START, ps, 0);
    assert "" + AllText(ps) == AllText(ps) && "" + AllThought(ps) == AllThought(ps);
    forall k ensures k in end.calls <==> k in at { MessagesAssemble(Chat.START, ps, k); }
    forall j | 0 <= j < |at| ensures Chat.FinishCall(parse, CallAt(end.calls, at[j])) == calls[j] {
      MessagesAssemble(Chat.START, ps, at[j]);
      UseComesBack(parse, ps, at[j], calls[j], CallAt(end.calls, at[j]));
    }
    CallsFinished(parse, end, at, calls);
  }

  lemma UseComesBack(parse: string -> Option<Json>, ps: seq<Chat.MessagesPayload>, k: nat, call: ToolCall,
                     partial: PartialCall)
    requires ReadsBack(parse) && Uses(ps, k, call)
    requires partial == Built(NO_CALL, Opening(ps, k), GivenInput(ps, k), AllInput(ps, k))
    ensures Chat.FinishCall(parse, partial) == call
  {
    assert "" + AllInput(ps, k) == AllInput(ps, k);
    SpelledComesBack(parse, partial, call);
  }

  // ---------------------------------------------------------------- usage

  function ChoiceReports(choices: seq<Chat.Choice>): seq<Usage> {
    if choices == [] then []
    else (if choices[0].usage.Some? then [choices[0].usage.value] else []) + ChoiceReports(choices[1..])
  }

  function ChatReports(ps: seq<Chat.ChatPayload>): seq<Usage> {
    if ps == [] then [] else ReportsIn(ps[0]) + ChatReports(ps[1..])
  }

  function ReportsIn(p: Chat.ChatPayload): seq<Usage> {
    if p.ChunkPayload? && p.chunk.error.None?
    then (if p.chunk.usage.Some? then [p.chunk.usage.value] else []) + ChoiceReports(p.chunk.choices) else []
  }

  lemma {:induction false} MergeAppends(usage: Option<Usage>, a: seq<Usage>, b: seq<Usage>)
    ensures MergeAll(usage, a + b) == MergeAll(MergeAll(usage, a), b)
    decreases a
  {
    if a == [] {
      assert a + b == b;
    } else {
      assert (a + b)[1..] == a[1..] + b;
      MergeAppends(MergeUsage(usage, a[0]), a[1..], b);
    }
  }

  lemma MergeOne(usage: Option<Usage>, u: Option<Usage>)
    ensures MergeAll(usage, if u.Some? then [u.value] else [])
         == if u.Some? then MergeUsage(usage, u.value) else usage
  {
    assert u.Some? ==> [u.value][1..] == [];
  }

  lemma ChoiceReport(st: Chat.State, round: RoundDelta, choice: Chat.Choice)
    ensures Chat.ConsumeChoice(st, round, choice).0.usage == Chat.PushUsage(st, choice.usage).usage
  {
    if choice.delta.Some? {
      var d, counted := choice.delta.value, Chat.PushUsage(st, choice.usage);
      var said := if d.content.Some? then Chat.PushContent(counted, d.content.value) else counted;
      var thought := if d.reasoning.Some? then Chat.PushReasoning(said, d.reasoning.value) else said;
      CallsOnly(thought, thought, d.calls);
    }
  }

  lemma {:induction false} ChoicesReport(st: Chat.State, round: RoundDelta, choices: seq<Chat.Choice>)
    ensures Chat.ConsumeChoices(st, round, choices).0.usage == MergeAll(st.usage, ChoiceReports(choices))
    decreases choices
  {
    if choices != [] {
      var (mid, round1) := Chat.ConsumeChoice(st, round, choices[0]);
      ChoiceReport(st, round, choices[0]);
      ChoicesReport(mid, round1, choices[1..]);
      MergeOne(st.usage, choices[0].usage);
      var first := if choices[0].usage.Some? then [choices[0].usage.value] else [];
      MergeAppends(st.usage, first, ChoiceReports(choices[1..]));
    }
  }

  /** The usage of a round is, counter by counter, what the provider reported last. */
  lemma {:induction false} ChatReport(st: Chat.State, ps: seq<Chat.ChatPayload>)
    ensures RunChat(st, ps).usage == MergeAll(st.usage, ChatReports(ps))
    decreases ps
  {
    if ps != [] {
      if ps[0].ChunkPayload? && ps[0].chunk.error.None? {
        var chunk := ps[0].chunk;
        ChoicesReport(Chat.PushUsage(st, chunk.usage), RoundDelta(None, None, chunk.usage), chunk.choices);
        MergeOne(st.usage, chunk.usage);
        MergeAppends(st.usage, if chunk.usage.Some? then [chunk.usage.value] else [], ChoiceReports(chunk.choices));
      }
      ChatReport(Chat.ConsumeChat(st, ps[0]).0, ps[1..]);
      MergeAppends(st.usage, ReportsIn(ps[0]), ChatReports(ps[1..]));
    }
  }

  function MessageReports(ps: seq<Chat.MessagesPayload>): seq<Usage> {
    if ps == [] then [] else
      (match ps[0]
       case EventPayload(MessageStart(Some(u))) => [u]
       case EventPayload(MessageDelta(Some(u))) => [u]
       case _ => [])
      + MessageReports(ps[1..])
  }

  lemma {:induction false} MessagesReport(st: Chat.State, ps: seq<Chat.MessagesPayload>)
    ensures RunMessages(st, ps).usage == MergeAll(st.usage, MessageReports(ps))
    decreases ps
  {
    if ps != [] {
      MessagesReport(Chat.ConsumeMessages(st, ps[0]).0, ps[1..]);
      assert [] + MessageReports(ps[1..]) == MessageReports(ps[1..]);
      match ps[0]
      case EventPayload(MessageStart(Some(u))) =>
        assert ([u] + MessageReports(ps[1..]))[1..] == MessageReports(ps[1..]);
      case EventPayload(MessageDelta(Some(u))) =>
        assert ([u] + MessageReports(ps[1..]))[1..] == MessageReports(ps[1..]);
      case _ =>
    }
  }

  // ---------------------------------------------------------------- how a round ends

  /** A chunk that carries an error fails the round with it, the marker ends it, and nothing
      else does. */
  lemma ChatEnds(st: Chat.State, p: Chat.ChatPayload)
    ensures var (end, event) := Chat.ConsumeChat(st, p);
      && (forall d :: event == Failed(d) <==> p.ChunkPayload? && p.chunk.error == Some(d))
      && (event == Done <==> p == Chat.DoneMarker) && (!event.Data? ==> end == st)
  {
  }

  lemma MessagesEnd(st: Chat.State, p: Chat.MessagesPayload)
    ensures var (end, event) := Chat.ConsumeMessages(st, p);
      && (event.Failed? <==> p.EventPayload? && p.event.ErrorMessage?)
      && (forall d :: p == Chat.EventPayload(Chat.ErrorMessage(Some(d))) ==> event == Failed(d))
      && (event == Done <==> p == Chat.EventPayload(Chat.MessageStop)) && (!event.Data? ==> end == st)
  {
  }

  lemma ResponsesEnd(st: Responses.State, p: Responses.Payload)
    ensures var (end, event) := Responses.ConsumePayload(st, p);
      && (event.Failed? <==>
            p.Parsed? && (p.event.FailedResponse? || p.event.ErrorEvent?
                          || (p.event.Completed? && p.event.response.status !in {None, Some("completed")})))
      && (forall d :: p == Responses.Parsed(Responses.FailedResponse(d)) ==> event == Failed(d))
      && (forall d :: p == Responses.Parsed(Responses.ErrorEvent(Some(d))) ==> event == Failed(d))
      && (event.Failed? && p.event.Completed? ==> event == Failed(p.event.response.detail))
      && (event == Done <==> p == Responses.DoneMarker || (p.Parsed? && p.event.Completed? && !event.Failed?))
      && (event.Failed? ==> end == st)
  {
  }
}
