/** What every decoder shares: usage counters, round deltas, tool calls and the outcome of a round. */
module Provider {
  import opened Json
  import opened Text

  const I32_MAX := 0x7FFF_FFFF
  const I32_MIN := -0x8000_0000

  type Count = n: int | I32_MIN <= n <= I32_MAX witness 0

  function Saturating(n: int): Count {
    if n > I32_MAX then I32_MAX else if n < I32_MIN then I32_MIN else n
  }

  datatype Usage = Usage(prompt: Option<Count>, completion: Option<Count>, total: Option<Count>,
                         cached: Option<Count>, reasoning: Option<Count>)

  const NO_USAGE := Usage(None, None, None, None, None)

  function Overwrite(current: Option<Count>, incoming: Option<Count>): Option<Count> {
    if incoming.Some? then incoming else current
  }

  /** Within a round, a later report replaces the fields it carries. */
  function MergeUsage(usage: Option<Usage>, u: Usage): Option<Usage> {
    var m := if usage.Some? then usage.value else NO_USAGE;
    Some(Usage(Overwrite(m.prompt, u.prompt), Overwrite(m.completion, u.completion),
               Overwrite(m.total, u.total), Overwrite(m.cached, u.cached),
               Overwrite(m.reasoning, u.reasoning)))
  }

  function Add(target: Option<Count>, value: Option<Count>): Option<Count> {
    match value
    case None => target
    case Some(n) => Some(Saturating((if target.Some? then target.value else 0) + n))
  }

  /** Across rounds, usage is summed field by field. */
  function Accumulate(a: Usage, b: Usage): Usage {
    Usage(Add(a.prompt, b.prompt), Add(a.completion, b.completion), Add(a.total, b.total),
          Add(a.cached, b.cached), Add(a.reasoning, b.reasoning))
  }

  // ---------------------------------------------------------------- what usage reports add up to

  datatype Counter = PromptTokens | CompletionTokens | TotalTokens | CachedTokens | ReasoningTokens

  function Of(u: Usage, c: Counter): Option<Count> {
    match c
    case PromptTokens => u.prompt
    case CompletionTokens => u.completion
    case TotalTokens => u.total
    case CachedTokens => u.cached
    case ReasoningTokens => u.reasoning
  }

  /** The last report of a counter. */
  function LastOf(us: seq<Usage>, c: Counter): Option<Count> {
    if us == [] then None else if LastOf(us[1..], c).Some? then LastOf(us[1..], c) else Of(us[0], c)
  }

  function MergeAll(usage: Option<Usage>, us: seq<Usage>): Option<Usage>
    decreases us
  {
    if us == [] then usage else MergeAll(MergeUsage(usage, us[0]), us[1..])
  }

  /** Within a round each counter is what was reported of it last. */
  lemma {:induction false} MergedIsLast(usage: Option<Usage>, us: seq<Usage>, c: Counter)
    ensures MergeAll(usage, us).Some? <==> usage.Some? || us != []
    ensures MergeAll(usage, us).Some? ==>
      Of(MergeAll(usage, us).value, c)
      == if LastOf(us, c).Some? || usage.None? then LastOf(us, c) else Of(usage.value, c)
    decreases us
  {
    if us != [] { MergedIsLast(MergeUsage(usage, us[0]), us[1..], c); }
  }

  /** What is reported of a counter over several rounds, taken together. */
  function SumOf(us: seq<Usage>, c: Counter): int {
    if us == [] then 0 else
      var n := Of(us[|us| - 1], c);
      SumOf(us[..|us| - 1], c) + if n.Some? then n.value else 0
  }

  predicate Reported(us: seq<Usage>, c: Counter) {
    us != [] && (Of(us[|us| - 1], c).Some? || Reported(us[..|us| - 1], c))
  }

  /** No sum on the way leaves the range of a counter. */
  predicate InRange(us: seq<Usage>, c: Counter) {
    us == [] || (I32_MIN <= SumOf(us, c) <= I32_MAX && InRange(us[..|us| - 1], c))
  }

  function AccumulateAll(us: seq<Usage>): Usage {
    if us == [] then NO_USAGE else Accumulate(AccumulateAll(us[..|us| - 1]), us[|us| - 1])
  }

  /** Across rounds each counter is the sum of what was reported of it, if anything was. */
  lemma {:induction false} AccumulatedIsSum(us: seq<Usage>, c: Counter)
    ensures Of(AccumulateAll(us), c).Some? <==> Reported(us, c)
    ensures InRange(us, c) && Reported(us, c) ==> Of(AccumulateAll(us), c).value == SumOf(us, c)
    ensures !Reported(us, c) ==> SumOf(us, c) == 0
  {
    if us != [] { AccumulatedIsSum(us[..|us| - 1], c); }
  }

  /** A sum that leaves the range of a counter stays at its end. */
  lemma AddSaturates(a: Count, b: Count)
    ensures Add(Some(a), Some(b))
         == Some(if a + b > I32_MAX then I32_MAX else if a + b < I32_MIN then I32_MIN else a + b)
  {
  }

  // ---------------------------------------------------------------- rounds

  datatype RoundDelta = RoundDelta(content: Option<string>, reasoning: Option<string>, usage: Option<Usage>)

  const NO_DELTA := RoundDelta(None, None, None)

  datatype PayloadEvent = Data(round: RoundDelta) | Done | Failed(detail: string)

  datatype ToolCall = ToolCall(id: string, name: string, arguments: Json)

  datatype AssistantOutcome = AssistantOutcome(content: string, reasoning: Option<string>,
                                               model: Option<string>, usage: Option<Usage>,
                                               toolCalls: seq<ToolCall>)

  datatype PartialCall = PartialCall(id: string, name: string, arguments: string, initial: string)

  const NO_CALL := PartialCall("", "", "", "")

  function NonEmpty(s: string): (text: Option<string>)
    ensures OrEmpty(text) == s && text != Some("")
  {
    if s == "" then None else Some(s)
  }

  function OrElse(a: Option<string>, b: Option<string>): Option<string> {
    if a.Some? then a else b
  }

  function OrEmpty(a: Option<string>): string {
    if a.Some? then a.value else ""
  }

  /** Argument text as a value: blank means no arguments, unreadable text stays text. */
  function ReadArguments(parse: string -> Option<Json>, text: string): Json {
    if Trim(text) == "" then Obj(map[])
    else match parse(text)
         case Some(v) => v
         case None => Str(text)
  }

  /** The call at `index`, created on first mention. */
  function CallAt(calls: map<nat, PartialCall>, index: nat): PartialCall {
    if index in calls then calls[index] else NO_CALL
  }

  // ---------------------------------------------------------------- ordered calls

  /** The calls at indices below `n`, by ascending index. */
  function CallsBelow(calls: map<nat, PartialCall>, n: nat): seq<PartialCall> {
    if n == 0 then []
    else CallsBelow(calls, n - 1) + if n - 1 in calls then [calls[n - 1]] else []
  }

  ghost function IndexBound(indices: set<nat>): (n: nat)
    ensures forall i | i in indices :: i < n
  {
    if indices == {} then 0 else
      var i :| i in indices;
      assert forall j | j in indices :: j == i || j in indices - {i};
      var n := IndexBound(indices - {i});
      if i < n then n else i + 1
  }

  /** The values of the ordered map of calls. */
  ghost function OrderedCalls(calls: map<nat, PartialCall>): seq<PartialCall> {
    CallsBelow(calls, IndexBound(calls.Keys))
  }

  lemma {:induction false} CallsBelowStable(calls: map<nat, PartialCall>, m: nat, n: nat)
    requires m <= n && forall i | i in calls :: i < m
    ensures CallsBelow(calls, m) == CallsBelow(calls, n)
  {
    if m < n { CallsBelowStable(calls, m, n - 1); }
  }

  /** Any bound above the indices in use lists the same calls. */
  lemma OrderedCallsAre(calls: map<nat, PartialCall>, n: nat)
    requires forall i | i in calls :: i < n
    ensures OrderedCalls(calls) == CallsBelow(calls, n)
  {
    var b := IndexBound(calls.Keys);
    if b <= n { CallsBelowStable(calls, b, n); } else { CallsBelowStable(calls, n, b); }
  }

  lemma {:induction false} CallsBelowFrame(a: map<nat, PartialCall>, b: map<nat, PartialCall>, n: nat)
    requires forall i: nat | i < n :: (i in a <==> i in b) && (i in a ==> a[i] == b[i])
    ensures CallsBelow(a, n) == CallsBelow(b, n)
  {
    if n > 0 { CallsBelowFrame(a, b, n - 1); }
  }
}
