/** Provider rounds, tool batches, parking and stops of one turn, whatever its surroundings do. */
module TurnLoop {
  import opened Json
  import opened Text
  import opened Provider
  import opened Types
  import A = Approval
  import Broker
  import Budget
  import Guard
  import Memory = MemoryStore
  import Store
  import Tools

  // ---------------------------------------------------------------- requests and outcomes

  datatype ToolChoice = Auto | NoTools

  datatype CompletionRequest = CompletionRequest(messages: seq<ChatMessage>, tools: seq<string>, toolChoice: ToolChoice)

  datatype TurnRequest = TurnRequest(messages: seq<ChatMessage>, tools: seq<string>, maxToolRounds: nat)

  datatype TurnCompletion = TurnCompletion(content: string, reasoning: Option<string>, usage: Option<Usage>)

  datatype StopReason = StopRequested | ClientDisconnected

  datatype TurnOutcome =
    | Completed(completion: TurnCompletion)
    | Stopped(completion: TurnCompletion, reason: StopReason)
    | Failed(completion: TurnCompletion, code: string)
    | AwaitingApproval(completion: TurnCompletion, call: ToolCall)

  datatype TurnError = Timeout | Upstream

  datatype TurnResult = Ok(outcome: TurnOutcome) | Err(error: TurnError)

  datatype RoundOutcome =
    | Complete(outcome: AssistantOutcome)
    | Interrupted(outcome: AssistantOutcome, reason: StopReason)
    | Broken(error: TurnError)

  datatype ToolCallOutcome = Succeeded(result: Json) | Refused(code: string, message: string)

  /** One provider call: what was sent, what came back, and the text the consumer saw of it. */
  datatype Exchange = Exchange(sent: CompletionRequest, received: Option<AssistantOutcome>, seen: string)

  // ---------------------------------------------------------------- what a trace adds up to

  /** The accumulators of a turn. */
  datatype Kept = Kept(content: string, reasoning: string, usage: Option<Usage>)

  function Charge(usage: Option<Usage>, o: AssistantOutcome): Option<Usage> {
    if o.usage.None? then usage
    else Some(Accumulate(if usage.Some? then usage.value else NO_USAGE, o.usage.value))
  }

  function MergeReasoning(reasoning: string, o: AssistantOutcome): string {
    var text := if o.reasoning.Some? then Trim(o.reasoning.value) else "";
    if text == "" then reasoning else reasoning + (if reasoning == "" then "" else "\n") + text
  }

  function Merge(k: Kept, o: AssistantOutcome): Kept {
    Kept(k.content + o.content, MergeReasoning(k.reasoning, o), Charge(k.usage, o))
  }

  /** What the rounds received add up to. */
  function Sum(prior: string, trace: seq<Exchange>): Kept {
    if trace == [] then Kept("", prior, None) else
      var last := trace[|trace| - 1];
      var before := Sum(prior, trace[..|trace| - 1]);
      if last.received.Some? then Merge(before, last.received.value) else before
  }

  /** The answer text of the rounds received. */
  function Said(trace: seq<Exchange>): string {
    Sum("", trace).content
  }

  /** What the consumer saw of it. */
  function Seen(trace: seq<Exchange>): string {
    if trace == [] then "" else Seen(trace[..|trace| - 1]) + trace[|trace| - 1].seen
  }

  lemma SumGrows(prior: string, trace: seq<Exchange>, x: Exchange)
    ensures Sum(prior, trace + [x])
         == if x.received.Some? then Merge(Sum(prior, trace), x.received.value) else Sum(prior, trace)
    ensures Seen(trace + [x]) == Seen(trace) + x.seen
  {
    assert (trace + [x])[..|trace|] == trace;
  }

  /** Reasoning from before a resumption changes neither content nor usage. */
  lemma {:induction false} SumOfContent(prior: string, trace: seq<Exchange>)
    ensures Sum(prior, trace).content == Said(trace) && Sum(prior, trace).usage == Sum("", trace).usage
    decreases |trace|
  {
    if trace != [] { SumOfContent(prior, trace[..|trace| - 1]); }
  }

  /** The usage reports, thoughts and texts of the rounds received. */
  function UsageReports(trace: seq<Exchange>): seq<Usage> {
    if trace == [] then [] else
      var before, last := UsageReports(trace[..|trace| - 1]), trace[|trace| - 1].received;
      if last.Some? && last.value.usage.Some? then before + [last.value.usage.value] else before
  }

  function Thoughts(trace: seq<Exchange>): seq<string> {
    if trace == [] then [] else
      var before, last := Thoughts(trace[..|trace| - 1]), trace[|trace| - 1].received;
      var thought := if last.Some? then Trim(OrEmpty(last.value.reasoning)) else "";
      if thought != "" then before + [thought] else before
  }

  function Texts(trace: seq<Exchange>): seq<string> {
    if trace == [] then [] else
      var before, last := Texts(trace[..|trace| - 1]), trace[|trace| - 1].received;
      if last.Some? then before + [last.value.content] else before
  }

  function Lines(xs: seq<string>): string {
    if xs == [] then ""
    else if |xs| == 1 then xs[0]
    else Lines(xs[..|xs| - 1]) + "\n" + xs[|xs| - 1]
  }

  lemma LinesGrow(xs: seq<string>, x: string)
    requires forall i | 0 <= i < |xs| :: xs[i] != ""
    ensures Lines(xs + [x]) == if xs == [] then x else Lines(xs) + "\n" + x
    ensures xs != [] ==> Lines(xs) != ""
  {
    assert (xs + [x])[..|xs|] == xs;
  }

  /** The usage of a turn is that of its rounds, counter by counter. */
  lemma {:induction false} UsageIsSummed(prior: string, trace: seq<Exchange>)
    ensures var us := UsageReports(trace); Sum(prior, trace).usage == if us == [] then None else Some(AccumulateAll(us))
    decreases |trace|
  {
    if trace != [] {
      var last := trace[|trace| - 1].received;
      UsageIsSummed(prior, trace[..|trace| - 1]);
      if last.Some? && last.value.usage.Some? {
        OneReport(UsageReports(trace[..|trace| - 1]), last.value.usage.value);
      }
    }
  }

  lemma OneReport(us: seq<Usage>, u: Usage)
    ensures AccumulateAll(us + [u]) == Accumulate(if us == [] then NO_USAGE else AccumulateAll(us), u)
  {
    assert (us + [u])[..|us|] == us;
  }

  /** The content of a turn is all that its rounds said. */
  lemma {:induction false} ContentIsAllSaid(prior: string, trace: seq<Exchange>)
    ensures Sum(prior, trace).content == Flatten(Texts(trace))
    decreases |trace|
  {
    if trace != [] {
      var before, last := Texts(trace[..|trace| - 1]), trace[|trace| - 1].received;
      ContentIsAllSaid(prior, trace[..|trace| - 1]);
      if last.Some? {
        FlattenAppends(before, [last.value.content]);
        assert [last.value.content][1..] == [] && last.value.content + "" == last.value.content;
      }
    }
  }

  lemma {:induction false} ThoughtsSay(trace: seq<Exchange>)
    ensures forall i | 0 <= i < |Thoughts(trace)| :: Thoughts(trace)[i] != ""
    decreases |trace|
  {
    if trace != [] { ThoughtsSay(trace[..|trace| - 1]); }
  }

  /** The reasoning of a turn is what was kept before it and what its rounds thought, each on
      lines of its own. */
  lemma {:induction false} ReasoningIsAllThought(prior: string, trace: seq<Exchange>)
    ensures Sum(prior, trace).reasoning == Lines((if prior == "" then [] else [prior]) + Thoughts(trace))
    decreases |trace|
  {
    var first := if prior == "" then [] else [prior];
    if trace == [] {
      assert first + [] == first;
    } else {
      var before, last := Thoughts(trace[..|trace| - 1]), trace[|trace| - 1].received;
      ReasoningIsAllThought(prior, trace[..|trace| - 1]);
      ThoughtsSay(trace[..|trace| - 1]);
      if last.Some? { OneThought(first + before, Lines(first + before), last.value); }
      if Thoughts(trace) != before {
        var thought := Trim(OrEmpty(last.value.reasoning));
        assert first + (before + [thought]) == first + before + [thought];
      }
    }
  }

  lemma OneThought(xs: seq<string>, reasoning: string, o: AssistantOutcome)
    requires reasoning == Lines(xs) && forall i | 0 <= i < |xs| :: xs[i] != ""
    ensures var thought := Trim(OrEmpty(o.reasoning));
      MergeReasoning(reasoning, o) == if thought == "" then reasoning else Lines(xs + [thought])
  {
    LinesGrow(xs, Trim(OrEmpty(o.reasoning)));
    assert Trim("") == "";
  }

  // ---------------------------------------------------------------- the turn and its surroundings

  /** What a provider does with a request: it answers, or it breaks off. */
  datatype Answer = Whole(outcome: AssistantOutcome) | Breaks(error: TurnError)

  /** What the loop meets, by round and place within it: the provider's answers and what cuts
      them short, stop requests, a consumer that has gone, a turn that is out of time, parks that
      succeed or fail, and what tools answer. */
  datatype Surroundings = Surroundings(provider: (nat, CompletionRequest) -> Answer, cut: nat -> Option<StopReason>,
                                       stopping: (nat, nat) -> bool, gone: (nat, nat) -> bool, late: nat -> bool,
                                       park: (nat, nat) -> Option<ToolCallOutcome>,
                                       run: (nat, nat) -> ToolCallOutcome)

  /** One turn: what is asked, whether a consumer listens, the reasoning kept from before a
      resumption, which tools need approval, and what it meets. */
  datatype Turn = Turn(request: TurnRequest, streaming: bool, prior: string, gated: string -> bool, env: Surroundings)

  ghost predicate StopSeen(turn: Turn) {
    (exists r, k :: turn.env.stopping(r, k)) || (turn.streaming && exists r :: turn.env.cut(r) == Some(StopRequested))
  }

  ghost predicate GoneSeen(turn: Turn) {
    && turn.streaming
    && ((exists r, k :: turn.env.gone(r, k)) || exists r :: turn.env.cut(r) == Some(ClientDisconnected))
  }

  /** Round `i` may still offer tools, as far as the limit on rounds goes. */
  predicate WithinRounds(turn: Turn, i: nat) {
    turn.request.tools != [] && (i == 0 || i < turn.request.maxToolRounds)
  }

  /** Tools are offered until their rounds are used up or the turn is out of time. */
  predicate Offered(turn: Turn, i: nat) {
    WithinRounds(turn, i) && !turn.env.late(i)
  }

  function Request(turn: Turn, messages: seq<ChatMessage>, offering: bool): CompletionRequest {
    CompletionRequest(messages, if offering then turn.request.tools else [], if offering then Auto else NoTools)
  }

  /** How round `r` goes: a streamed one may be cut short, and then keeps what came until then. */
  function RoundOf(turn: Turn, r: nat, sent: CompletionRequest): RoundOutcome {
    match turn.env.provider(r, sent)
    case Breaks(error) => Broken(error)
    case Whole(o) =>
      if turn.streaming && turn.env.cut(r).Some? then Interrupted(o, turn.env.cut(r).value) else Complete(o)
  }

  /** What is received in a round: nothing of one that breaks off. */
  function Received(turn: Turn, r: nat, sent: CompletionRequest): Option<AssistantOutcome> {
    match RoundOf(turn, r, sent)
    case Broken(_) => None
    case _ => Some(RoundOf(turn, r, sent).outcome)
  }

  function ToolResultPayload(o: ToolCallOutcome): Json {
    Store.WrapUntrusted(
      match o
      case Succeeded(result) => Obj(map["ok" := Bool(true), "data" := result])
      case Refused(code, message) => Obj(map["ok" := Bool(false), "code" := Str(code), "message" := Str(message)]))
  }

  /** A tool's answer as the provider is told it: marked as untrusted, with its data or its code
      and message. */
  lemma ResultTells(o: ToolCallOutcome)
    ensures var p := ToolResultPayload(o);
      && p.Obj? && "untrusted" in p.fields && p.fields["untrusted"] == Bool(true) && "ok" in p.fields
      && p.fields["ok"] == Bool(o.Succeeded?)
      && (o.Succeeded? ==> "data" in p.fields && p.fields["data"] == o.result)
      && (o.Refused? ==> "code" in p.fields && p.fields["code"] == Str(o.code)
                         && "message" in p.fields && p.fields["message"] == Str(o.message))
  {
  }

  // ---------------------------------------------------------------- how a trace hangs together

  /** Call `k` of round `r` is answered with its own outcome: what the tool answered, or why a
      call that needs approval could not be parked. */
  ghost predicate Answered(turn: Turn, r: nat, calls: seq<ToolCall>, k: nat, m: ChatMessage)
    requires k < |calls|
  {
    if turn.gated(calls[k].name)
    then turn.env.park(r, k).Some? && m == ToolResult(calls[k].id, ToolResultPayload(turn.env.park(r, k).value))
    else m == ToolResult(calls[k].id, ToolResultPayload(turn.env.run(r, k)))
  }

  /** Calls up to `n` are answered, each with its own outcome. */
  ghost predicate AnsweredUpTo(turn: Turn, r: nat, calls: seq<ToolCall>, n: nat, ms: seq<ChatMessage>) {
    |ms| == n <= |calls| && forall k | 0 <= k < n :: Answered(turn, r, calls, k, ms[k])
  }

  /** `ms` is what was sent in `x`, then the calls received, then each call's own result. */
  ghost predicate Continues(turn: Turn, r: nat, x: Exchange, ms: seq<ChatMessage>) {
    && x.received.Some?
    && var o, n := x.received.value, |x.sent.messages|;
       && o.toolCalls != [] && |ms| == n + 1 + |o.toolCalls| && ms[..n] == x.sent.messages
       && ms[n] == AssistantToolCalls(o.content, o.toolCalls)
       && AnsweredUpTo(turn, r, o.toolCalls, |o.toolCalls|, ms[n + 1..])
  }

  /** Each list sent is well paired and continues the one before, with the tools its round
      offers, and what is received is the provider's answer to it. */
  ghost predicate Coherent(turn: Turn, trace: seq<Exchange>)
    decreases |trace|
  {
    trace == [] ||
    var last, before := trace[|trace| - 1], trace[..|trace| - 1];
    && Coherent(turn, before) && Sent(turn, before, last.sent)
    && last.received == Received(turn, |before|, last.sent)
  }

  ghost predicate Sent(turn: Turn, before: seq<Exchange>, sent: CompletionRequest) {
    && WellPaired(sent.messages) && sent == Request(turn, sent.messages, Offered(turn, |before|))
    && ComesAfter(turn, before, sent.messages)
  }

  ghost predicate ComesAfter(turn: Turn, before: seq<Exchange>, messages: seq<ChatMessage>) {
    if before == [] then messages == turn.request.messages
    else Offered(turn, |before| - 1) && Continues(turn, |before| - 1, before[|before| - 1], messages)
  }

  lemma ContinuesPaired(turn: Turn, r: nat, x: Exchange, ms: seq<ChatMessage>)
    requires WellPaired(x.sent.messages) && Continues(turn, r, x, ms)
    ensures WellPaired(ms)
  {
    var o, n := x.received.value, |x.sent.messages|;
    var results := ms[n + 1..];
    AnsweredIsPaired(turn, r, o.toolCalls, results);
    PairedRound(ms[n], o.toolCalls, results);
    assert [ms[n]] + results == ms[n..];
    WellPairedAppends(ms[..n], ms[n..]);
    assert ms == ms[..n] + ms[n..];
  }

  lemma AnsweredIsPaired(turn: Turn, r: nat, calls: seq<ToolCall>, ms: seq<ChatMessage>)
    requires AnsweredUpTo(turn, r, calls, |calls|, ms)
    ensures Answers(calls, ms)
  {
    forall k | 0 <= k < |calls|
      ensures ms[k].role.Tool? && ms[k].toolCallId == Some(calls[k].id) && ms[k].toolCalls == None
    {
      assert Answered(turn, r, calls, k, ms[k]);
    }
  }

  lemma CoherentGrows(turn: Turn, trace: seq<Exchange>, x: Exchange)
    requires Coherent(turn, trace) && Sent(turn, trace, x.sent) && x.received == Received(turn, |trace|, x.sent)
    ensures Coherent(turn, trace + [x])
  {
    assert (trace + [x])[..|trace|] == trace;
  }

  /** Every list sent is well paired; the first is the one asked, and each later one is the one
      before, the calls it got and their own results. What is received is what the provider
      answered to it. Tools are offered while the limits allow, and a round that did not offer
      them is the last. */
  lemma {:induction false} CoherentMeans(turn: Turn, trace: seq<Exchange>, i: nat)
    requires Coherent(turn, trace) && i < |trace|
    ensures WellPaired(trace[i].sent.messages)
    ensures trace[i].sent == Request(turn, trace[i].sent.messages, Offered(turn, i))
    ensures trace[i].received == Received(turn, i, trace[i].sent)
    ensures i == 0 ==> trace[i].sent.messages == turn.request.messages
    ensures i + 1 < |trace| ==> Offered(turn, i) && Continues(turn, i, trace[i], trace[i + 1].sent.messages)
    decreases |trace|
  {
    if i < |trace| - 1 { CoherentMeans(turn, trace[..|trace| - 1], i); }
  }

  // ---------------------------------------------------------------- the loop's surroundings

  /** A provider round. The text forwarded is a prefix of the text kept, and all of it when
      the round completes; a round that breaks off may have forwarded any text, and keeps none.
      Without a consumer nothing is forwarded. */
  method ProviderRound(turn: Turn, r: nat, sent: CompletionRequest) returns (round: RoundOutcome, ghost seen: string)
    ensures round == RoundOf(turn, r, sent)
    ensures !round.Broken? ==> seen <= round.outcome.content
    ensures round.Complete? && turn.streaming ==> seen == round.outcome.content
    ensures !turn.streaming ==> seen == ""
  {
    var text: string := *;
    match turn.env.provider(r, sent)
    case Breaks(error) => return Broken(error), if turn.streaming then text else "";
    case Whole(o) =>
      if !turn.streaming { return Complete(o), ""; }
      var cut := turn.env.cut(r);
      if cut.None? { return Complete(o), o.content; }
      var n: nat :| n <= |o.content|;
      return Interrupted(o, cut.value), o.content[..n];
  }

  /** The calls of a batch run side by side; outcomes come back in the order of the calls. */
  method ExecuteParallel(turn: Turn, r: nat, start: nat, batch: seq<ToolCall>) returns (outcomes: seq<ToolCallOutcome>)
    ensures |outcomes| == |batch| && forall k | 0 <= k < |batch| :: outcomes[k] == turn.env.run(r, start + k)
  {
    outcomes := seq(|batch|, k requires 0 <= k < |batch| => turn.env.run(r, start + k));
  }

  function LatestUser(messages: seq<ChatMessage>): string {
    if messages == [] then "" else
      var last := messages[|messages| - 1];
      if last.role == User then (if last.content.Plain? then last.content.text else "")
      else LatestUser(messages[..|messages| - 1])
  }

  /** The guard looks at the text of the last user message, wherever it stands. */
  lemma {:induction false} LatestUserIs(messages: seq<ChatMessage>, i: nat)
    requires i < |messages| && messages[i].role == User && messages[i].content.Plain?
    requires forall j | i < j < |messages| :: messages[j].role != User
    ensures LatestUser(messages) == messages[i].content.text
    decreases |messages|
  {
    if i < |messages| - 1 { LatestUserIs(messages[..|messages| - 1], i); }
  }

  function Completion(k: Kept): TurnCompletion {
    TurnCompletion(k.content, NonEmpty(k.reasoning), k.usage)
  }

  // ---------------------------------------------------------------- tool calls of one round

  /** How the handling of a round's calls ends. */
  datatype CallsEnd = Told(messages: seq<ChatMessage>) | Halted(reason: StopReason) | Parked(call: ToolCall)

  /** The first call that can be parked: those before it ran or could not be. */
  ghost predicate ParkedAt(turn: Turn, r: nat, calls: seq<ToolCall>, k: nat) {
    && k < |calls| && turn.gated(calls[k].name) && turn.env.park(r, k).None?
    && forall j | 0 <= j < k && turn.gated(calls[j].name) :: turn.env.park(r, j).Some?
  }

  ghost predicate Halts(turn: Turn, reason: StopReason) {
    if reason.StopRequested? then StopSeen(turn) else GoneSeen(turn)
  }

  /** Runs ungated calls in batches and parks at the first gated call that can be parked. When
      all are answered, each has exactly its own result, in the order of the calls. */
  method AnswerCalls(turn: Turn, r: nat, sent: seq<ChatMessage>, o: AssistantOutcome) returns (end: CallsEnd)
    requires o.toolCalls != []
    ensures end.Told? ==>
      && |end.messages| == |sent| + 1 + |o.toolCalls| && end.messages[..|sent|] == sent
      && end.messages[|sent|] == AssistantToolCalls(o.content, o.toolCalls)
      && AnsweredUpTo(turn, r, o.toolCalls, |o.toolCalls|, end.messages[|sent| + 1..])
    ensures end.Halted? ==> Halts(turn, end.reason)
    ensures end.Parked? ==> exists k: nat :: ParkedAt(turn, r, o.toolCalls, k) && end.call == o.toolCalls[k]
    ensures turn.env.stopping(r, 1) ==> end == Halted(StopRequested)
  {
    ghost var head := sent + [AssistantToolCalls(o.content, o.toolCalls)];
    var results: seq<ChatMessage> := [];
    var index := 0;
    while index < |o.toolCalls|
      invariant AnsweredUpTo(turn, r, o.toolCalls, index, results)
      invariant index > 0 ==> !turn.env.stopping(r, 1)
    {
      if turn.env.stopping(r, index + 1) { return Halted(StopRequested); }
      var call := o.toolCalls[index];
      if turn.gated(call.name) {
        var parked := turn.env.park(r, index);
        if parked.None? {
          assert ParkedAt(turn, r, o.toolCalls, index) by {
            forall j | 0 <= j < index && turn.gated(o.toolCalls[j].name) ensures turn.env.park(r, j).Some? {
              assert Answered(turn, r, o.toolCalls, j, results[j]);
            }
          }
          return Parked(call);
        }
        if turn.streaming && turn.env.gone(r, index) { return Halted(ClientDisconnected); }
        results := results + [ToolResult(call.id, ToolResultPayload(parked.value))];
        index := index + 1;
        continue;
      }
      var start := index;
      while index < |o.toolCalls| && !turn.gated(o.toolCalls[index].name)
        invariant start <= index <= |o.toolCalls|
        invariant index == start ==> index < |o.toolCalls| && !turn.gated(o.toolCalls[index].name)
        invariant forall k | start <= k < index :: !turn.gated(o.toolCalls[k].name)
      {
        index := index + 1;
      }
      var batch := o.toolCalls[start..index];
      if turn.streaming && turn.env.gone(r, start) { return Halted(ClientDisconnected); }
      var outcomes := ExecuteParallel(turn, r, start, batch);
      if turn.env.stopping(r, |o.toolCalls| + index) { return Halted(StopRequested); }
      for k := 0 to |batch|
        invariant AnsweredUpTo(turn, r, o.toolCalls, start + k, results)
      {
        if turn.streaming && turn.env.gone(r, start + k) { return Halted(ClientDisconnected); }
        results := results + [ToolResult(batch[k].id, ToolResultPayload(outcomes[k]))];
      }
    }
    var messages := sent + [AssistantToolCalls(o.content, o.toolCalls)] + results;
    assert messages[|sent| + 1..] == results && messages[..|sent|] == sent;
    return Told(messages);
  }

  // ---------------------------------------------------------------- the loop

  function RoundLimit(request: TurnRequest): nat {
    if request.maxToolRounds == 0 then 1 else request.maxToolRounds
  }

  function LastRound(trace: seq<Exchange>): Option<AssistantOutcome> {
    if trace == [] then None else trace[|trace| - 1].received
  }

  /** The text of the last round is missing from the completion: the consumer was gone when
      its usage was sent. */
  ghost predicate UsageFrameLost(r: TurnResult, trace: seq<Exchange>, merged: seq<Exchange>) {
    && r.Ok? && r.outcome.Stopped? && r.outcome.reason == ClientDisconnected
    && trace != [] && merged == trace[..|trace| - 1]
    && LastRound(trace).Some? && LastRound(trace).value.usage.Some?
  }

  /** The outcome of round `r` is an answer: it calls no tool, or no tool was offered. */
  predicate IsAnswer(turn: Turn, r: nat, o: AssistantOutcome) {
    o.toolCalls == [] || !Offered(turn, r)
  }

  /** Round `r` parked at this call. */
  ghost predicate ParksAt(turn: Turn, r: nat, o: AssistantOutcome, call: ToolCall) {
    Offered(turn, r) && exists k: nat :: ParkedAt(turn, r, o.toolCalls, k) && call == o.toolCalls[k]
  }

  /** What a finished turn reports about the rounds it went through: it completes or fails only
      with an answer, is parked only at a call that can be, and is stopped only by a stop or a
      lost consumer. */
  ghost predicate Reports(turn: Turn, outcome: TurnOutcome, trace: seq<Exchange>, merged: seq<Exchange>) {
    && outcome.completion.usage == Sum(turn.prior, trace).usage
    && outcome.completion.reasoning == NonEmpty(Sum(turn.prior, merged).reasoning)
    && match outcome
       case Stopped(completion, reason) =>
         completion.content == Sum(turn.prior, merged).content && Halts(turn, reason)
       case Failed(completion, code) =>
         && completion.content == "" && code == "provider_empty_response"
         && LastRound(trace).Some? && Trim(LastRound(trace).value.content) == ""
         && IsAnswer(turn, |trace| - 1, LastRound(trace).value)
       case Completed(completion) =>
         && LastRound(trace).Some? && LastRound(trace).value.content == completion.content
         && Trim(completion.content) != "" && IsAnswer(turn, |trace| - 1, LastRound(trace).value)
       case AwaitingApproval(completion, call) =>
         && LastRound(trace).Some? && LastRound(trace).value.content == completion.content
         && ParksAt(turn, |trace| - 1, LastRound(trace).value, call)
  }

  /** A turn ends with an error only with that of a round that broke off, or out of time with no tools left
      to withdraw. */
  ghost predicate Excused(turn: Turn, error: TurnError, trace: seq<Exchange>) {
    || (trace != [] && RoundOf(turn, |trace| - 1, trace[|trace| - 1].sent) == Broken(error))
    || (error == Timeout && turn.env.late(|trace|) && !WithinRounds(turn, |trace|))
  }

  /** Every round but the last was seen whole, and the last as far as it was kept, unless it
      broke off. */
  ghost predicate Shown(streaming: bool, trace: seq<Exchange>) {
    trace == [] ||
    var last, before := trace[|trace| - 1], trace[..|trace| - 1];
    && Seen(before) == (if streaming then Said(before) else "")
    && (!streaming ==> last.seen == "")
    && (last.received.Some? ==> last.seen <= last.received.value.content)
  }

  /** The last round broke off after text had gone out. */
  predicate BrokeOff(trace: seq<Exchange>) {
    trace != [] && LastRound(trace).None? && trace[|trace| - 1].seen != ""
  }

  /** Unless a stop cut it short, the last round received was seen whole. */
  ghost predicate LastSeenWhole(r: TurnResult, trace: seq<Exchange>, merged: seq<Exchange>) {
    LastRound(trace).Some? && (r.Ok? && r.outcome.Stopped? ==> merged != trace) ==>
      trace[|trace| - 1].seen == LastRound(trace).value.content
  }

  /** What a turn that got past the guard comes to. */
  ghost predicate TurnEnds(turn: Turn, r: TurnResult, trace: seq<Exchange>, merged: seq<Exchange>) {
    && Coherent(turn, trace)
    && |trace| <= RoundLimit(turn.request) + 1 && (turn.request.tools == [] ==> |trace| <= 1)
    && (r.Ok? ==> Reports(turn, r.outcome, trace, merged) && !BrokeOff(trace))
    && (r.Err? ==> Excused(turn, r.error, trace))
    && (merged == trace || UsageFrameLost(r, trace, merged))
    && Shown(turn.streaming, trace) && (turn.streaming ==> LastSeenWhole(r, trace, merged))
  }

  lemma PrefixExtends(a: string, b: string, c: string)
    requires b <= c
    ensures a + b <= a + c
  {
  }

  /** The text seen is a prefix of the text of the rounds received exactly when no round broke
      off after text had gone out; and if one did, that text is what was seen beyond it. */
  lemma SeenIsSaidUnlessBroken(streaming: bool, trace: seq<Exchange>)
    requires Shown(streaming, trace)
    ensures Seen(trace) <= Said(trace) <==> !BrokeOff(trace)
    ensures BrokeOff(trace) ==> Seen(trace) == Said(trace) + trace[|trace| - 1].seen
  {
    if trace != [] {
      var last, before := trace[|trace| - 1], trace[..|trace| - 1];
      if last.received.None? {
        SaidOfBroken(trace);
      } else if streaming {
        PrefixExtends(Said(before), last.seen, last.received.value.content);
      }
    }
  }

  lemma SaidOfBroken(trace: seq<Exchange>)
    requires trace != [] && LastRound(trace).None?
    ensures Said(trace) == Said(trace[..|trace| - 1])
  {
  }

  /** The condition can fail: some text goes out, and then the provider breaks off. */
  lemma BrokenRoundOverruns(env: Surroundings)
    requires forall r, sent :: env.provider(r, sent) == Breaks(Upstream)
    ensures var hello := ChatMessage(User, Plain("hello"), None, None);
      var turn := Turn(TurnRequest([hello], [], 1), true, "", _ => false, env);
      var trace := [Exchange(CompletionRequest([hello], [], NoTools), None, "Hi")];
      TurnEnds(turn, Err(Upstream), trace, trace) && !(Seen(trace) <= Said(trace))
  {
    var hello := ChatMessage(User, Plain("hello"), None, None);
    var x := Exchange(CompletionRequest([hello], [], NoTools), None, "Hi");
    var trace := [x];
    assert [hello][1..] == [];
    CoherentGrows(Turn(TurnRequest([hello], [], 1), true, "", _ => false, env), [], x);
    assert [] + [x] == trace && trace[..0] == [];
    SeenIsSaidUnlessBroken(true, trace);
  }

  /** What the completion of a streamed turn accounts for of the text that was seen: a stopped
      turn for all of it, unless the usage frame was lost; a completed or parked one for its
      last round alone; a turn without an answer for nothing. */
  lemma SeenAgainstCompletion(turn: Turn, r: TurnResult, trace: seq<Exchange>, merged: seq<Exchange>)
    requires TurnEnds(turn, r, trace, merged) && turn.streaming && r.Ok?
    ensures var content := r.outcome.completion.content;
      if r.outcome.Stopped? then
        && (merged == trace ==> Seen(trace) <= content)
        && (merged != trace ==> trace != [] && Seen(trace) == content + trace[|trace| - 1].seen)
      else trace != [] && Seen(trace) == Said(trace[..|trace| - 1]) + trace[|trace| - 1].seen
           && (!r.outcome.Failed? ==> trace[|trace| - 1].seen == content)
  {
    SumOfContent(turn.prior, merged);
    if merged == trace && r.outcome.Stopped? { SeenIsSaidUnlessBroken(true, trace); }
  }

  // ---------------------------------------------------------------- one round

  datatype RoundEnd = Return(result: TurnResult) | Next(messages: seq<ChatMessage>, kept: Kept)

  /** A round's outcome accounts for the round, on top of what came before; `merged` tells
      whether that includes its text. */
  ghost predicate ReportsRound(turn: Turn, r: nat, outcome: TurnOutcome, kept: Kept, o: AssistantOutcome,
                               merged: bool) {
    var after := Merge(kept, o);
    && outcome.completion.usage == after.usage
    && outcome.completion.reasoning == NonEmpty(if merged then after.reasoning else kept.reasoning)
    && match outcome
       case Stopped(completion, reason) =>
         completion.content == (if merged then after.content else kept.content) && Halts(turn, reason)
       case Failed(completion, code) =>
         && completion.content == "" && code == "provider_empty_response" && Trim(o.content) == ""
         && IsAnswer(turn, r, o)
       case Completed(completion) =>
         o.content == completion.content && Trim(o.content) != "" && IsAnswer(turn, r, o)
       case AwaitingApproval(completion, call) => o.content == completion.content && ParksAt(turn, r, o, call)
  }

  /** A completed turn has an answer, and one that failed says that there was none. */
  predicate Presentable(outcome: TurnOutcome) {
    && (outcome.Completed? ==> Trim(outcome.completion.content) != "")
    && (outcome.Failed? ==> outcome.completion.content == "" && outcome.code == "provider_empty_response")
  }

  predicate LostItsReader(r: TurnResult) {
    r.Ok? && r.outcome.Stopped? && r.outcome.reason == ClientDisconnected
  }

  /** A round was seen whole unless it was interrupted or broke off, which ends the turn. */
  ghost predicate SeenWell(streaming: bool, x: Exchange, end: RoundEnd, merged: bool) {
    && (!streaming ==> x.seen == "")
    && match x.received
       case None => true
       case Some(o) =>
         && x.seen <= o.content
         && (streaming && x.seen != o.content ==>
               end.Return? && end.result.Ok? && end.result.outcome.Stopped? && merged)
  }

  /** What a round sends, and what it makes of what it receives. */
  ghost predicate RoundDoes(turn: Turn, r: nat, messages: seq<ChatMessage>, kept: Kept, end: RoundEnd, x: Exchange,
                            merged: bool) {
    && x.sent == Request(turn, messages, Offered(turn, r)) && SeenWell(turn.streaming, x, end, merged)
    && x.received == Received(turn, r, x.sent)
    && (RoundOf(turn, r, x.sent).Interrupted? ==>
          && end.Return? && end.result.Ok? && end.result.outcome.Stopped?
          && end.result.outcome.reason == RoundOf(turn, r, x.sent).reason)
    && match end
       case Return(Err(error)) => merged && RoundOf(turn, r, x.sent) == Broken(error)
       case Return(Ok(outcome)) =>
         && x.received.Some? && ReportsRound(turn, r, outcome, kept, x.received.value, merged)
         && (!merged ==> x.received.value.usage.Some? && LostItsReader(end.result))
       case Next(longer, more) =>
         merged && Offered(turn, r) && Continues(turn, r, x, longer) && more == Merge(kept, x.received.value)
  }

  /** Sends what was said so far, takes in what comes back, and answers its tool calls. */
  method OneRound(turn: Turn, r: nat, messages: seq<ChatMessage>, offering: bool, kept: Kept)
    returns (end: RoundEnd, ghost x: Exchange, ghost merged: bool)
    requires offering == Offered(turn, r)
    ensures RoundDoes(turn, r, messages, kept, end, x, merged)
    ensures end.Next? ==> offering && kept.content <= end.kept.content && messages < end.messages
    ensures end.Return? && end.result.Ok? ==> Presentable(end.result.outcome)
  {
    var sent := Request(turn, messages, offering);
    var round, seen := ProviderRound(turn, r, sent);
    x := Exchange(sent, if round.Broken? then None else Some(round.outcome), seen);
    if round.Broken? { return Return(Err(round.error)), x, true; }
    var outcome := round.outcome;
    var after := Merge(kept, outcome);
    if round.Interrupted? { return Return(Ok(Stopped(Completion(after), round.reason))), x, true; }
    if outcome.usage.Some? {
      if turn.streaming && turn.env.gone(r, 0) {
        var before := Completion(kept.(usage := after.usage));
        return Return(Ok(Stopped(before, ClientDisconnected))), x, false;
      }
    }
    var last := Completion(after.(content := outcome.content));
    if outcome.toolCalls == [] || !offering {
      if Trim(outcome.content) == "" {
        return Return(Ok(TurnOutcome.Failed(last.(content := ""), "provider_empty_response"))), x, true;
      }
      return Return(Ok(Completed(last))), x, true;
    }
    var calls := AnswerCalls(turn, r, messages, outcome);
    match calls {
      case Halted(reason) => return Return(Ok(Stopped(Completion(after), reason))), x, true;
      case Parked(call) => return Return(Ok(TurnOutcome.AwaitingApproval(last, call))), x, true;
      case Told(longer) => return Next(longer, after), x, true;
    }
  }

  // ---------------------------------------------------------------- the loop

  /** The list to send next continues what was sent; no round so far was late. */
  ghost predicate ComesNext(turn: Turn, trace: seq<Exchange>, messages: seq<ChatMessage>) {
    && Coherent(turn, trace) && WellPaired(messages) && ComesAfter(turn, trace, messages)
    && |trace| <= RoundLimit(turn.request) && (turn.request.tools == [] ==> trace == [])
  }

  /** The accumulators are the sums over the rounds received, and the consumer saw them all. */
  ghost predicate Tallies(turn: Turn, trace: seq<Exchange>, kept: Kept) {
    && kept == Sum(turn.prior, trace)
    && Shown(turn.streaming, trace) && Seen(trace) == if turn.streaming then Said(trace) else ""
  }

  lemma SentIsCoherent(turn: Turn, trace: seq<Exchange>, messages: seq<ChatMessage>, x: Exchange)
    requires ComesNext(turn, trace, messages) && x.sent == Request(turn, messages, Offered(turn, |trace|))
    requires x.received == Received(turn, |trace|, x.sent)
    ensures Coherent(turn, trace + [x])
  {
    CoherentGrows(turn, trace, x);
  }

  lemma ListGoesOn(turn: Turn, trace: seq<Exchange>, messages: seq<ChatMessage>, x: Exchange,
                   longer: seq<ChatMessage>)
    requires ComesNext(turn, trace, messages) && Offered(turn, |trace|)
    requires x.sent == Request(turn, messages, true) && Continues(turn, |trace|, x, longer)
    requires x.received == Received(turn, |trace|, x.sent)
    ensures ComesNext(turn, trace + [x], longer)
  {
    SentIsCoherent(turn, trace, messages, x);
    ContinuesPaired(turn, |trace|, x, longer);
  }

  lemma RoundIsShown(streaming: bool, trace: seq<Exchange>, end: RoundEnd, x: Exchange, merged: bool)
    requires Seen(trace) == if streaming then Said(trace) else ""
    requires SeenWell(streaming, x, end, merged)
    ensures Shown(streaming, trace + [x])
  {
    assert (trace + [x])[..|trace|] == trace;
  }

  lemma SumsGoOn(turn: Turn, trace: seq<Exchange>, kept: Kept, end: RoundEnd, x: Exchange)
    requires Tallies(turn, trace, kept) && SeenWell(turn.streaming, x, end, true) && end.Next? && x.received.Some?
    ensures Tallies(turn, trace + [x], Merge(kept, x.received.value))
  {
    SumGrows(turn.prior, trace, x);
    SumGrows("", trace, x);
    RoundIsShown(turn.streaming, trace, end, x, true);
  }

  lemma RoundIsReported(turn: Turn, trace: seq<Exchange>, outcome: TurnOutcome, x: Exchange, merged: bool)
    requires x.received.Some?
    requires ReportsRound(turn, |trace|, outcome, Sum(turn.prior, trace), x.received.value, merged)
    ensures Reports(turn, outcome, trace + [x], if merged then trace + [x] else trace)
  {
    SumGrows(turn.prior, trace, x);
  }

  lemma LastRoundIsSeen(trace: seq<Exchange>, end: RoundEnd, x: Exchange, merged: bool)
    requires end.Return? && SeenWell(true, x, end, merged)
    ensures LastSeenWhole(end.result, trace + [x], if merged then trace + [x] else trace)
  {
  }

  lemma BreakExcuses(turn: Turn, trace: seq<Exchange>, error: TurnError, x: Exchange)
    requires RoundOf(turn, |trace|, x.sent) == Broken(error)
    ensures Excused(turn, error, trace + [x])
  {
  }

  lemma FrameIsLost(trace: seq<Exchange>, r: TurnResult, x: Exchange)
    requires LostItsReader(r) && x.received.Some? && x.received.value.usage.Some?
    ensures UsageFrameLost(r, trace + [x], trace)
  {
  }

  /** Between rounds, whatever the round to come is given. */
  ghost predicate Between(turn: Turn, trace: seq<Exchange>, messages: seq<ChatMessage>, kept: Kept) {
    ComesNext(turn, trace, messages) && Tallies(turn, trace, kept)
  }

  lemma RoundGoesOn(turn: Turn, trace: seq<Exchange>, messages: seq<ChatMessage>, kept: Kept, end: RoundEnd,
                    x: Exchange, merged: bool)
    requires Between(turn, trace, messages, kept)
    requires RoundDoes(turn, |trace|, messages, kept, end, x, merged) && end.Next?
    ensures Between(turn, trace + [x], end.messages, end.kept)
  {
    ListGoesOn(turn, trace, messages, x, end.messages);
    SumsGoOn(turn, trace, kept, end, x);
  }

  lemma ListEnds(turn: Turn, trace: seq<Exchange>, messages: seq<ChatMessage>, x: Exchange)
    requires ComesNext(turn, trace, messages) && x.sent == Request(turn, messages, Offered(turn, |trace|))
    requires x.received == Received(turn, |trace|, x.sent)
    ensures Coherent(turn, trace + [x]) && |trace + [x]| <= RoundLimit(turn.request) + 1
    ensures turn.request.tools == [] ==> |trace + [x]| <= 1
  {
    SentIsCoherent(turn, trace, messages, x);
  }

  lemma SeenEnds(turn: Turn, trace: seq<Exchange>, kept: Kept, end: RoundEnd, x: Exchange, merged: bool)
    requires Tallies(turn, trace, kept) && SeenWell(turn.streaming, x, end, merged) && end.Return?
    ensures Shown(turn.streaming, trace + [x])
    ensures turn.streaming ==> LastSeenWhole(end.result, trace + [x], if merged then trace + [x] else trace)
  {
    RoundIsShown(turn.streaming, trace, end, x, merged);
    if turn.streaming { LastRoundIsSeen(trace, end, x, merged); }
  }

  lemma ReportEnds(turn: Turn, trace: seq<Exchange>, messages: seq<ChatMessage>, kept: Kept, end: RoundEnd, x: Exchange,
                   merged: bool)
    requires kept == Sum(turn.prior, trace) && RoundDoes(turn, |trace|, messages, kept, end, x, merged) && end.Return?
    ensures var next, all := trace + [x], if merged then trace + [x] else trace;
      && (end.result.Ok? ==> Reports(turn, end.result.outcome, next, all) && !BrokeOff(next))
      && (end.result.Err? ==> Excused(turn, end.result.error, next))
      && (all == next || UsageFrameLost(end.result, next, all))
  {
    if end.result.Ok? {
      RoundIsReported(turn, trace, end.result.outcome, x, merged);
    } else {
      BreakExcuses(turn, trace, end.result.error, x);
    }
    if !merged { FrameIsLost(trace, end.result, x); }
  }

  lemma RoundEndsTurn(turn: Turn, trace: seq<Exchange>, messages: seq<ChatMessage>, kept: Kept, end: RoundEnd,
                      x: Exchange, merged: bool)
    requires Between(turn, trace, messages, kept)
    requires RoundDoes(turn, |trace|, messages, kept, end, x, merged) && end.Return?
    ensures TurnEnds(turn, end.result, trace + [x], if merged then trace + [x] else trace)
  {
    ListEnds(turn, trace, messages, x);
    SeenEnds(turn, trace, kept, end, x, merged);
    ReportEnds(turn, trace, messages, kept, end, x, merged);
  }

  lemma StopEndsTurn(turn: Turn, trace: seq<Exchange>, messages: seq<ChatMessage>, kept: Kept)
    requires Between(turn, trace, messages, kept)
    ensures StopSeen(turn) ==> TurnEnds(turn, Ok(Stopped(Completion(kept), StopRequested)), trace, trace)
    ensures turn.env.late(|trace|) && !WithinRounds(turn, |trace|) ==> TurnEnds(turn, Err(Timeout), trace, trace)
  {
    if trace != [] && turn.streaming {
      var last, before := trace[|trace| - 1], trace[..|trace| - 1];
      SameEnd(Said(before), last.seen, last.received.value.content);
    }
  }

  lemma SameEnd(a: string, b: string, c: string)
    requires a + b == a + c
    ensures b == c
  {
    assert (a + b)[|a|..] == b && (a + c)[|a|..] == c;
  }

  /** One pass of the loop: stops, runs out of time, or goes through a round. */
  method Pass(turn: Turn, ghost trace: seq<Exchange>, messages: seq<ChatMessage>, kept: Kept, rounds: nat,
              offering: bool)
    returns (end: RoundEnd, ghost after: seq<Exchange>, ghost merged: seq<Exchange>)
    requires Between(turn, trace, messages, kept) && rounds == |trace| && offering == WithinRounds(turn, rounds)
    ensures end.Return? ==> TurnEnds(turn, end.result, after, merged)
    ensures end.Return? && end.result.Ok? ==> Presentable(end.result.outcome)
    ensures end.Next? ==> Between(turn, after, end.messages, end.kept) && |after| == rounds + 1 && offering
    ensures turn.env.stopping(rounds, 0) ==> end.Return? && after == trace
  {
    after, merged := trace, trace;
    if turn.env.stopping(rounds, 0) {
      StopEndsTurn(turn, trace, messages, kept);
      return Return(Ok(Stopped(Completion(kept), StopRequested))), trace, trace;
    }
    var offered := offering;
    if turn.env.late(rounds) {
      if !offering {
        StopEndsTurn(turn, trace, messages, kept);
        return Return(Err(Timeout)), trace, trace;
      }
      offered := false;
    }
    ghost var x, whole;
    end, x, whole := OneRound(turn, rounds, messages, offered, kept);
    after, merged := trace + [x], if whole then trace + [x] else trace;
    if end.Return? {
      RoundEndsTurn(turn, trace, messages, kept, end, x, whole);
    } else {
      RoundGoesOn(turn, trace, messages, kept, end, x, whole);
    }
  }

  /** The loop. `trace` lists the provider calls, `merged` those whose text the completion
      accounts for. A turn that is stopped before its first round makes no call at all. */
  method Rounds(turn: Turn) returns (r: TurnResult, ghost trace: seq<Exchange>, ghost merged: seq<Exchange>)
    requires WellPaired(turn.request.messages)
    ensures TurnEnds(turn, r, trace, merged)
    ensures r.Ok? ==> Presentable(r.outcome)
    ensures turn.env.stopping(0, 0) ==> trace == []
  {
    trace, merged := [], [];
    var messages := turn.request.messages;
    var kept := Kept("", turn.prior, None);
    var rounds := 0;
    var offering := turn.request.tools != [];
    while true
      invariant Between(turn, trace, messages, kept)
      invariant rounds == |trace| && offering == WithinRounds(turn, rounds)
      invariant turn.env.stopping(0, 0) ==> rounds == 0
      decreases if offering then RoundLimit(turn.request) - rounds else 0
    {
      var end;
      end, trace, merged := Pass(turn, trace, messages, kept, rounds, offering);
      if end.Return? { return end.result, trace, merged; }
      messages, kept := end.messages, end.kept;
      rounds := rounds + 1;
      if rounds >= turn.request.maxToolRounds { offering := false; }
    }
  }

  /** What a turn comes to. A message the guard refuses reaches no provider. */
  ghost predicate Ran(turn: Turn, refused: bool, refusal: string, r: TurnResult, trace: seq<Exchange>,
                      merged: seq<Exchange>) {
    if refused then
      && trace == [] && merged == [] && r.Ok? && r.outcome.completion == TurnCompletion(refusal, None, None)
      && (r.outcome.Completed? || (LostItsReader(r) && GoneSeen(turn)))
    else TurnEnds(turn, r, trace, merged)
  }

  /** What the consumer of a streamed turn saw beyond the text of the rounds received: nothing,
      unless the turn failed in a round that broke off. */
  lemma SeenOfRun(turn: Turn, refused: bool, refusal: string, r: TurnResult, trace: seq<Exchange>,
                  merged: seq<Exchange>)
    requires Ran(turn, refused, refusal, r, trace, merged)
    ensures Seen(trace) <= Said(trace) <==> !BrokeOff(trace)
    ensures r.Ok? ==> Seen(trace) <= Said(trace)
    ensures r.Err? && turn.streaming && trace != [] ==>
      Seen(trace) == Said(trace) + if LastRound(trace).None? then trace[|trace| - 1].seen else ""
  {
    SeenIsSaidUnlessBroken(turn.streaming, trace);
    if trace != [] && LastRound(trace).None? { SaidOfBroken(trace); }
  }

  /** Answers one turn. `trace` lists the provider calls, `merged` those whose text the
      completion accounts for. */
  method RunLoop(turn: Turn, policy: Guard.Policy, fold: string -> string, refusal: string)
    returns (r: TurnResult, ghost trace: seq<Exchange>, ghost merged: seq<Exchange>)
    requires WellPaired(turn.request.messages)
    ensures Ran(turn, Guard.Classified(policy, Guard.Collapse(fold(LatestUser(turn.request.messages)))).Some?, refusal,
                r, trace, merged)
    ensures Seen(trace) <= Said(trace) <==> !BrokeOff(trace)
    ensures r.Ok? ==> Seen(trace) <= Said(trace)
    ensures r.Err? && turn.streaming && trace != [] ==>
      Seen(trace) == Said(trace) + if LastRound(trace).None? then trace[|trace| - 1].seen else ""
    ensures r.Ok? ==> Presentable(r.outcome) || r.outcome.completion == TurnCompletion(refusal, None, None)
  {
    var hit := Guard.Classify(policy, fold, LatestUser(turn.request.messages));
    trace, merged := [], [];
    if hit.Some? {
      if turn.streaming && turn.env.gone(0, 0) {
        r := Ok(Stopped(TurnCompletion(refusal, None, None), ClientDisconnected));
      } else {
        r := Ok(Completed(TurnCompletion(refusal, None, None)));
      }
    } else {
      r, trace, merged := Rounds(turn);
    }
    SeenOfRun(turn, hit.Some?, refusal, r, trace, merged);
  }

  // ---------------------------------------------------------------- resuming after a decision

  /** What was decided about the parked call: under an approval, with the arguments, the hash and
      the row it was granted on; or not at all. */
  datatype Decided =
    | Approved(approval: string, row: CallRow, arguments: Json, hash: string, tool: Broker.Registered, permitted: bool,
               outside: Broker.Outside)
    | Refusal

  /** An approval that won its row and has not been used. */
  ghost predicate Granted(broker: Broker.ToolBroker, d: Decided)
    reads broker
  {
    d.Approved? ==>
      && A.In(broker.world, d.approval, A.Won)
      && var s := broker.world.submissions[d.approval];
         s.call == d.row.id && s.arguments == d.arguments && s.hash == d.hash
  }

  /** What the parked turn persisted. */
  function PriorCompletion(st: Store.State, owner: Owner, assistant: Id): TurnCompletion {
    match Store.MessageInScope(st, owner, assistant)
    case Err(_) => TurnCompletion("", None, None)
    case Ok(m) => TurnCompletion(m.content, if m.reasoning == Some("") then None else m.reasoning, m.usage)
  }

  /** The turn a resumption runs: what the store holds, on top of the reasoning persisted. */
  function Resumed(turn: Turn, st: Store.State, owner: Owner, assistant: Id, messages: seq<ChatMessage>): Turn {
    turn.(request := turn.request.(messages := messages),
          prior := OrEmpty(PriorCompletion(st, owner, assistant).reasoning))
  }

  /** The approved call went out once, and its answer is the outcome and what its row tells; or
      it did not go out, for a reason. */
  ghost predicate CarriedOut(broker: Broker.ToolBroker, d: Decided, o: Broker.Outcome, used: nat, limit: nat,
                             start: nat)
    requires d.Approved?
    reads broker, broker.store
  {
    if A.Dispatches(broker.world.log, d.approval) == 0
    then broker.Withheld(d.approval, d.row.id, d.arguments, d.hash, d.tool, d.permitted, o, d.outside, start)
    else
      && A.Dispatches(broker.world.log, d.approval) == 1
      && var sent := Tools.Canonicalize(broker.nfc, d.arguments);
         sent.Some? && broker.Ran(d.row.id, sent.value, o, used, limit, d.outside)
  }

  /** Executes the call an approval was granted for. */
  method CarryOut(broker: Broker.ToolBroker, budget: Budget.TurnToolBudget, d: Decided, now: Time)
    returns (o: Broker.Outcome)
    requires broker.Valid() && broker.store.Valid() && d.Approved? && Granted(broker, d)
    modifies broker`world, broker`history, broker.store`toolCalls, budget
    ensures broker.Valid() && broker.store.Valid() && old(broker.history) <= broker.history
    ensures CarriedOut(broker, d, o, old(budget.View().bytes), budget.maxResultBytes, old(|broker.history|))
  {
    ghost var dispatched;
    o, dispatched := broker.ExecuteApproved(d.approval, d.row, d.arguments, d.hash, d.tool, d.permitted, budget,
                                            d.outside, now);
  }

  /** What comes in between, before a resumed turn runs. */
  datatype Interruption = Interruption(stopped: bool, gone: bool, goneLater: bool)

  /** The turn runs as any other, on the history the store holds. */
  ghost predicate GoesOn(turn: Turn, st: Store.State, owner: Owner, assistant: Id, policy: Guard.Policy,
                         fold: string -> string, refusal: string, r: TurnResult, trace: seq<Exchange>,
                         merged: seq<Exchange>)
    requires Store.Descending(st.messages)
  {
    var history := Store.HistoryForMessage(st, owner, assistant);
    && history.Ok?
    && Ran(Resumed(turn, st, owner, assistant, history.value),
           Guard.Classified(policy, Guard.Collapse(fold(LatestUser(history.value)))).Some?, refusal, r, trace, merged)
    && (Seen(trace) <= Said(trace) <==> !BrokeOff(trace)) && (r.Ok? ==> Seen(trace) <= Said(trace))
  }

  /** Goes on from the history stored, if it can be read. */
  method FromHistory(store: Memory.MemoryStore, owner: Owner, assistant: Id, turn: Turn, policy: Guard.Policy,
                     fold: string -> string, refusal: string)
    returns (r: TurnResult, ghost trace: seq<Exchange>, ghost merged: seq<Exchange>, ghost resumed: bool)
    requires store.Valid()
    ensures resumed ==> GoesOn(turn, store.View(), owner, assistant, policy, fold, refusal, r, trace, merged)
    ensures !resumed ==>
      r == Err(Upstream) && trace == [] && Store.HistoryForMessage(store.View(), owner, assistant).Err?
  {
    var history := store.HistoryForMessage(owner, assistant);
    if history.Err? { return Err(Upstream), [], [], false; }
    Store.HistoryIsPaired(store.View(), owner, assistant);
    var again := Resumed(turn, store.View(), owner, assistant, history.value);
    r, trace, merged := RunLoop(again, policy, fold, refusal);
    resumed := true;
  }

  /** Resumes a parked turn: carries the decision out, and goes on from the history the store
      then holds. A stop or a lost consumer before that keeps what was persisted when the turn
      parked; otherwise the turn runs as any other, and reports only its own usage and content. */
  method RunResume(broker: Broker.ToolBroker, budget: Budget.TurnToolBudget, owner: Owner, assistant: Id,
                   decided: Decided, turn: Turn, policy: Guard.Policy, fold: string -> string, refusal: string,
                   before: Interruption, now: Time)
    returns (r: TurnResult, ghost trace: seq<Exchange>, ghost merged: seq<Exchange>, ghost resumed: bool,
             ghost outcome: Option<Broker.Outcome>)
    requires broker.Valid() && broker.store.Valid() && Granted(broker, decided)
    modifies broker`world, broker`history, broker.store`toolCalls, budget
    ensures broker.Valid() && broker.store.Valid() && old(broker.history) <= broker.history
    ensures outcome.Some? <==> decided.Approved? && !before.stopped && !(turn.streaming && before.gone)
    ensures outcome.None? ==> broker.store.toolCalls == old(broker.store.toolCalls)
    ensures outcome.Some? ==>
      CarriedOut(broker, decided, outcome.value, old(budget.View().bytes), budget.maxResultBytes, old(|broker.history|))
    ensures !resumed ==>
      && trace == []
      && if r.Ok? then
           && r.outcome.Stopped? && r.outcome.completion == PriorCompletion(broker.store.View(), owner, assistant)
           && if r.outcome.reason.StopRequested? then before.stopped
              else turn.streaming && (before.gone || before.goneLater)
         else Store.HistoryForMessage(broker.store.View(), owner, assistant).Err?
    ensures before.stopped ==> !resumed
    ensures resumed ==>
      GoesOn(turn, broker.store.View(), owner, assistant, policy, fold, refusal, r, trace, merged)
  {
    trace, merged, resumed, outcome := [], [], false, None;
    var store := broker.store;
    var prior := PriorCompletion(store.View(), owner, assistant);
    if before.stopped { return Ok(Stopped(prior, StopRequested)), [], [], false, None; }
    if turn.streaming && before.gone { return Ok(Stopped(prior, ClientDisconnected)), [], [], false, None; }
    if decided.Approved? {
      var o := CarryOut(broker, budget, decided, now);
      outcome := Some(o);
    }
    if turn.streaming && before.goneLater { return Ok(Stopped(prior, ClientDisconnected)), [], [], false, outcome; }
    r, trace, merged, resumed := FromHistory(store, owner, assistant, turn, policy, fold, refusal);
  }
}
