/** The retry loop of an AI function, which ends although negotiation costs nothing of the repair budget. */
module FunctionRunner {
  import opened Json

  const FUNCTION_OUTPUT_ATTEMPTS := 3

  datatype ProviderKind = Openai | Anthropic | OpenaiResponses

  /** OpenAI speaks two protocols, each the alternate of the other. */
  function AlternateProtocol(kind: ProviderKind): Option<ProviderKind> {
    match kind
    case Openai => Some(OpenaiResponses)
    case OpenaiResponses => Some(Openai)
    case Anthropic => None
  }

  lemma AlternatesPairUp(kind: ProviderKind)
    ensures var other := AlternateProtocol(kind);
            if kind == Anthropic then other.None?
            else other.Some? && other.value != kind && AlternateProtocol(other.value) == Some(kind)
  {
    match kind
    case Openai =>
    case OpenaiResponses =>
    case Anthropic =>
  }

  /** What a provider says to one request. */
  datatype Answer = Answered(content: string) | UnsupportedOutput | UnsupportedProtocol | OtherFailure

  /** The first question, or the question again with the answer that was not good enough. */
  datatype Prompt = First | Repair(previous: string)

  datatype Exchange = Exchange(kind: ProviderKind, withSchema: bool, prompt: Prompt, answer: Answer)

  datatype RunError = Unavailable | InvalidOutput | ProviderFailure

  datatype RunResult = Ok(output: Json, attempts: nat) | Err(error: RunError)

  /** The function's own checks: a document it accepts, and whether its diagnostics say failed. */
  datatype Judge = Judge(validate: string -> Option<Json>, failed: Json -> bool)

  predicate Good(judge: Judge, content: string) {
    judge.validate(content).Some? && !judge.failed(judge.validate(content).value)
  }

  // ---------------------------------------------------------------- what happened in a run

  /** How many answers were judged. */
  function Judged(trace: seq<Exchange>): nat {
    if trace == [] then 0 else Judged(trace[..|trace| - 1]) + if trace[|trace| - 1].answer.Answered? then 1 else 0
  }

  lemma JudgedGrows(trace: seq<Exchange>, x: Exchange)
    ensures Judged(trace + [x]) == Judged(trace) + if x.answer.Answered? then 1 else 0
  {
    assert (trace + [x])[..|trace|] == trace;
  }

  /** What a run sends after `x`: the answer again after one that was not good enough, plain
      text after a refused schema, the other protocol after a refused one. */
  ghost predicate Leads(judge: Judge, x: Exchange, kind: ProviderKind, withSchema: bool, prompt: Prompt) {
    match x.answer
    case Answered(content) =>
      !Good(judge, content) && kind == x.kind && withSchema == x.withSchema && prompt == Repair(content)
    case UnsupportedOutput => x.withSchema && kind == x.kind && !withSchema && prompt == x.prompt
    case UnsupportedProtocol =>
      AlternateProtocol(x.kind) == Some(kind) && withSchema == x.withSchema && prompt == x.prompt
    case OtherFailure => false
  }

  /** The run starts as `start` says, and each request follows from the answer before it. */
  ghost predicate Linked(judge: Judge, start: ProviderKind, trace: seq<Exchange>)
    decreases |trace|
  {
    trace == [] ||
    var last, before := trace[|trace| - 1], trace[..|trace| - 1];
    && Linked(judge, start, before)
    && if before == [] then last.kind == start && last.withSchema && last.prompt == First
       else Leads(judge, before[|before| - 1], last.kind, last.withSchema, last.prompt)
  }

  lemma LinkedGrows(judge: Judge, start: ProviderKind, trace: seq<Exchange>, x: Exchange)
    requires Linked(judge, start, trace)
    requires if trace == [] then x.kind == start && x.withSchema && x.prompt == First
             else Leads(judge, trace[|trace| - 1], x.kind, x.withSchema, x.prompt)
    ensures Linked(judge, start, trace + [x])
  {
    assert (trace + [x])[..|trace|] == trace;
  }

  /** A protocol that refused the model is not asked again, and a refused schema not sent again. */
  ghost predicate NeverBack(trace: seq<Exchange>) {
    forall i, j | 0 <= i < j < |trace| ::
      && (trace[i].answer == UnsupportedProtocol ==> trace[j].kind != trace[i].kind)
      && (trace[i].answer == UnsupportedOutput ==> !trace[j].withSchema)
  }

  /** What every run keeps to. */
  ghost predicate Sound(judge: Judge, start: ProviderKind, trace: seq<Exchange>) {
    && |trace| <= FUNCTION_OUTPUT_ATTEMPTS + 2 && Judged(trace) <= FUNCTION_OUTPUT_ATTEMPTS
    && Linked(judge, start, trace) && NeverBack(trace)
  }

  /** A refusal nothing can be done about: any but of a schema that was sent, or of a protocol
      whose alternate is there and has not been asked. */
  predicate Hopeless(registered: set<ProviderKind>, start: ProviderKind, x: Exchange) {
    match x.answer
    case Answered(_) => false
    case UnsupportedOutput => !x.withSchema
    case UnsupportedProtocol =>
      var other := AlternateProtocol(x.kind);
      other.None? || other.value == start || other.value !in registered
    case OtherFailure => true
  }

  /** A result has passed the checks; output is called invalid only when the last of three
      judged answers has failed them too; a run fails only on a hopeless refusal. */
  ghost predicate Concludes(judge: Judge, registered: set<ProviderKind>, start: ProviderKind, r: RunResult,
                            trace: seq<Exchange>) {
    match r
    case Ok(output, attempts) =>
      && trace != [] && trace[|trace| - 1].answer.Answered? && Good(judge, trace[|trace| - 1].answer.content)
      && judge.validate(trace[|trace| - 1].answer.content) == Some(output) && attempts == Judged(trace)
    case Err(InvalidOutput) =>
      && Judged(trace) == FUNCTION_OUTPUT_ATTEMPTS
      && trace[|trace| - 1].answer.Answered? && !Good(judge, trace[|trace| - 1].answer.content)
    case Err(ProviderFailure) => trace != [] && Hopeless(registered, start, trace[|trace| - 1])
    case Err(Unavailable) => trace == [] && start !in registered
  }

  /** What the provider says to request `i`. */
  type Provider = (nat, ProviderKind, bool, Prompt) -> Answer

  /** The answers in a trace are the provider's. */
  ghost predicate Heard(provider: Provider, trace: seq<Exchange>) {
    forall i | 0 <= i < |trace| ::
      trace[i].answer == provider(i, trace[i].kind, trace[i].withSchema, trace[i].prompt)
  }

  lemma HeardGrows(provider: Provider, trace: seq<Exchange>, x: Exchange)
    requires Heard(provider, trace) && x.answer == provider(|trace|, x.kind, x.withSchema, x.prompt)
    ensures Heard(provider, trace + [x])
  {
  }

  /** Request `i` of a run that changed the protocol after request `switched` and gave up the
      schema after request `downgraded`, 0 where it did not. */
  ghost predicate InCourse(trace: seq<Exchange>, start: ProviderKind, active: ProviderKind, switched: nat,
                           downgraded: nat, i: nat)
    requires i < |trace|
  {
    && trace[i].kind == (if switched == 0 || i < switched then start else active)
    && trace[i].withSchema == (downgraded == 0 || i < downgraded)
    && (trace[i].answer == UnsupportedProtocol <==> switched == i + 1)
    && (trace[i].answer == UnsupportedOutput <==> downgraded == i + 1)
  }

  /** The variables of the loop: `attempts` counts the answers judged so far. */
  datatype Course = Course(active: ProviderKind, tried: seq<ProviderKind>, withoutSchema: bool, prompt: Prompt,
                           attempts: nat)

  /** Where the loop stands before a request. */
  ghost predicate Underway(judge: Judge, start: ProviderKind, trace: seq<Exchange>, c: Course, switched: nat,
                           downgraded: nat) {
    && switched <= |trace| && downgraded <= |trace| && (c.withoutSchema <==> downgraded > 0)
    && c.attempts == Judged(trace) < FUNCTION_OUTPUT_ATTEMPTS && (forall k :: k in c.tried <==> k == start)
    && |trace| == c.attempts + (if switched > 0 then 1 else 0) + (if downgraded > 0 then 1 else 0)
    && (if switched > 0 then AlternateProtocol(start) == Some(c.active) else c.active == start)
    && (forall i {:trigger InCourse(trace, start, c.active, switched, downgraded, i)} | 0 <= i < |trace| ::
          InCourse(trace, start, c.active, switched, downgraded, i))
    && Linked(judge, start, trace)
    && if trace == [] then c.active == start && !c.withoutSchema && c.prompt == First
       else Leads(judge, trace[|trace| - 1], c.active, !c.withoutSchema, c.prompt)
  }

  function Request(c: Course, answer: Answer): Exchange {
    Exchange(c.active, !c.withoutSchema, c.prompt, answer)
  }

  lemma RequestIsSound(judge: Judge, start: ProviderKind, trace: seq<Exchange>, c: Course, switched: nat,
                       downgraded: nat, answer: Answer)
    requires Underway(judge, start, trace, c, switched, downgraded)
    ensures Sound(judge, start, trace + [Request(c, answer)])
    ensures Judged(trace + [Request(c, answer)]) == c.attempts + if answer.Answered? then 1 else 0
  {
    var x := Request(c, answer);
    AlternatesPairUp(start);
    JudgedGrows(trace, x);
    LinkedGrows(judge, start, trace, x);
    forall i, j | 0 <= i < j < |trace| + 1
      ensures (trace + [x])[i].answer == UnsupportedProtocol ==> (trace + [x])[j].kind != trace[i].kind
      ensures (trace + [x])[i].answer == UnsupportedOutput ==> !(trace + [x])[j].withSchema
    {
      assert InCourse(trace, start, c.active, switched, downgraded, i);
      if j < |trace| { assert InCourse(trace, start, c.active, switched, downgraded, j); }
    }
  }

  /** What the loop variables become when the run goes on after an answer. */
  ghost predicate Turns(judge: Judge, c: Course, answer: Answer, next: Course) {
    && Leads(judge, Request(c, answer), next.active, !next.withoutSchema, next.prompt)
    && next.attempts == c.attempts + (if answer.Answered? then 1 else 0) < FUNCTION_OUTPUT_ATTEMPTS
    && next.tried == (if answer == UnsupportedProtocol then c.tried + [c.active] else c.tried)
    && (answer == UnsupportedProtocol ==> next.active !in c.tried)
  }

  /** After a request that goes on, the marks move to it if it was refused. */
  lemma CourseGoesOn(judge: Judge, start: ProviderKind, trace: seq<Exchange>, c: Course, switched: nat, downgraded: nat,
                     answer: Answer, next: Course)
    returns (switched': nat, downgraded': nat)
    requires Underway(judge, start, trace, c, switched, downgraded) && Turns(judge, c, answer, next)
    ensures Underway(judge, start, trace + [Request(c, answer)], next, switched', downgraded')
    ensures switched' == (if answer == UnsupportedProtocol then |trace| + 1 else switched)
    ensures answer == UnsupportedProtocol ==> switched == 0
    ensures answer != UnsupportedProtocol ==> next.active == c.active
  {
    var x := Request(c, answer);
    switched' := if answer == UnsupportedProtocol then |trace| + 1 else switched;
    downgraded' := if answer == UnsupportedOutput then |trace| + 1 else downgraded;
    AlternatesPairUp(start);
    JudgedGrows(trace, x);
    LinkedGrows(judge, start, trace, x);
    forall i | 0 <= i < |trace| + 1 ensures InCourse(trace + [x], start, next.active, switched', downgraded', i) {
      if i < |trace| { assert InCourse(trace, start, c.active, switched, downgraded, i); }
    }
  }

  /** `to` is the protocol the run switched to, if a refusal was followed by another request. */
  ghost predicate SwitchedTo(trace: seq<Exchange>, to: Option<ProviderKind>) {
    && (to.Some? ==> exists i :: SwitchesAt(trace, i, to.value))
    && (to.None? ==> forall i: nat | i + 1 < |trace| :: trace[i].answer != UnsupportedProtocol)
  }

  ghost predicate SwitchesAt(trace: seq<Exchange>, i: nat, to: ProviderKind) {
    i + 1 < |trace| && trace[i].answer == UnsupportedProtocol && trace[i + 1].kind == to
  }

  lemma SwitchIsSeen(judge: Judge, start: ProviderKind, trace: seq<Exchange>, c: Course, switched: nat, downgraded: nat,
                     answer: Answer)
    requires Underway(judge, start, trace, c, switched, downgraded)
    ensures SwitchedTo(trace + [Request(c, answer)], if switched > 0 then Some(c.active) else None)
  {
    var x := Request(c, answer);
    forall i: nat | i < |trace| ensures (trace + [x])[i].answer == UnsupportedProtocol <==> switched == i + 1 {
      assert InCourse(trace, start, c.active, switched, downgraded, i);
    }
    if switched > 0 {
      if switched < |trace| { assert InCourse(trace, start, c.active, switched, downgraded, switched); }
      assert SwitchesAt(trace + [x], switched - 1, c.active);
    }
  }

  /** What a run does about an answer. */
  datatype Reaction = Finish(result: RunResult) | GoOn(next: Course)

  /** A run ends only for a reason. */
  ghost predicate Settled(judge: Judge, registered: set<ProviderKind>, c: Course, answer: Answer, r: RunResult) {
    match r
    case Ok(output, n) =>
      && answer.Answered? && Good(judge, answer.content) && judge.validate(answer.content) == Some(output)
      && n == c.attempts + 1
    case Err(InvalidOutput) =>
      answer.Answered? && !Good(judge, answer.content) && c.attempts + 1 == FUNCTION_OUTPUT_ATTEMPTS
    case Err(ProviderFailure) =>
      (match answer
       case Answered(_) => false
       case UnsupportedOutput => c.withoutSchema
       case UnsupportedProtocol =>
         forall k | AlternateProtocol(c.active) == Some(k) :: k in c.tried || k !in registered
       case OtherFailure => true)
    case Err(Unavailable) => false
  }

  /** What a run comes to: sound requests, a result for a reason, and the switch it made. */
  ghost predicate Comes(judge: Judge, registered: set<ProviderKind>, start: ProviderKind, trace: seq<Exchange>,
                        to: Option<ProviderKind>, r: RunResult) {
    Sound(judge, start, trace) && Concludes(judge, registered, start, r, trace) && SwitchedTo(trace, to)
  }

  lemma RunConcludes(judge: Judge, registered: set<ProviderKind>, start: ProviderKind, trace: seq<Exchange>, c: Course,
                     switched: nat, downgraded: nat, answer: Answer, r: RunResult)
    requires Underway(judge, start, trace, c, switched, downgraded) && Settled(judge, registered, c, answer, r)
    ensures Comes(judge, registered, start, trace + [Request(c, answer)],
                  if switched > 0 then Some(c.active) else None, r)
  {
    RequestIsSound(judge, start, trace, c, switched, downgraded, answer);
    SwitchIsSeen(judge, start, trace, c, switched, downgraded, answer);
  }

  function Hint(registered: set<ProviderKind>, cache: map<string, ProviderKind>, configured: ProviderKind, key: string)
    : Option<ProviderKind>
  {
    if key in cache && cache[key] != configured && cache[key] in registered then Some(cache[key]) else None
  }

  /** Where a run starts: as remembered for the model, or else as configured. */
  function StartsOn(registered: set<ProviderKind>, cache: map<string, ProviderKind>, configured: ProviderKind,
                    key: string): ProviderKind
  {
    match Hint(registered, cache, configured, key) case Some(kind) => kind case None => configured
  }

  /** A switch is remembered: the next run on the model starts where the last one ended, and a
      run on another model where it would have started. */
  lemma SwitchIsRemembered(registered: set<ProviderKind>, cache: map<string, ProviderKind>, configured: ProviderKind,
                           key: string, to: ProviderKind, other: string)
    requires to in registered
    ensures StartsOn(registered, cache[key := to], configured, key) == to
    ensures other != key ==>
      StartsOn(registered, cache[key := to], configured, other) == StartsOn(registered, cache, configured, other)
  {
    assert cache[key := to][key] == to;
  }

  class FunctionRunner {
    const registered: set<ProviderKind>
    var protocolCache: map<string, ProviderKind>

    constructor (registered: set<ProviderKind>)
      ensures this.registered == registered && protocolCache == map[]
    {
      this.registered, protocolCache := registered, map[];
    }

    /** What earlier runs learnt about a model, if it is news and can be used. */
    function ProtocolHint(configured: ProviderKind, key: string): Option<ProviderKind>
      reads this
    {
      Hint(registered, protocolCache, configured, key)
    }

    /** Where to turn when `active` is refused, unless the run has been there. */
    function Alternate(active: ProviderKind, tried: seq<ProviderKind>): Option<ProviderKind> {
      var other := AlternateProtocol(active);
      if other.Some? && other.value !in tried && other.value in registered then other else None
    }

    /** Judges an answer, or negotiates about a refusal. */
    method React(judge: Judge, c: Course, answer: Answer) returns (reaction: Reaction)
      requires c.attempts < FUNCTION_OUTPUT_ATTEMPTS
      ensures reaction.Finish? ==> Settled(judge, registered, c, answer, reaction.result)
      ensures reaction.GoOn? ==> Turns(judge, c, answer, reaction.next)
      ensures reaction.GoOn? && answer == UnsupportedProtocol ==> reaction.next.active in registered
    {
      match answer
      case UnsupportedOutput =>
        if c.withoutSchema { return Finish(Err(ProviderFailure)); }
        return GoOn(c.(withoutSchema := true));
      case UnsupportedProtocol =>
        var alternate := Alternate(c.active, c.tried);
        if alternate.None? { return Finish(Err(ProviderFailure)); }
        return GoOn(c.(active := alternate.value, tried := c.tried + [c.active]));
      case OtherFailure =>
        return Finish(Err(ProviderFailure));
      case Answered(content) =>
        var attempts := c.attempts + 1;
        var output := judge.validate(content);
        if output.Some? && !judge.failed(output.value) { return Finish(Ok(output.value, attempts)); }
        if attempts >= FUNCTION_OUTPUT_ATTEMPTS { return Finish(Err(InvalidOutput)); }
        return GoOn(c.(prompt := Repair(content), attempts := attempts));
    }

    /** Runs a function: whatever the provider says, at most three answers are judged, at most
        two further requests go to negotiation, and what is returned has passed the function's
        checks. A protocol the run switched to is remembered for the model. */
    method Run(judge: Judge, provider: Provider, configured: ProviderKind, key: string)
      returns (r: RunResult, ghost trace: seq<Exchange>, ghost to: Option<ProviderKind>)
      modifies this`protocolCache
      ensures Comes(judge, registered, old(StartKind(configured, key)), trace, to, r) && Heard(provider, trace)
      ensures protocolCache == if to.Some? then old(protocolCache)[key := to.value] else old(protocolCache)
      ensures to.Some? ==> to.value in registered
    {
      trace, to := [], None;
      var hint := ProtocolHint(configured, key);
      var kind := if hint.Some? then hint.value else configured;
      var c := Course(kind, [kind], false, First, 0);
      var asked: nat := 0;
      ghost var switched: nat, downgraded: nat := 0, 0;
      while true
        invariant Underway(judge, kind, trace, c, switched, downgraded) && Heard(provider, trace)
        invariant asked == |trace| && asked <= FUNCTION_OUTPUT_ATTEMPTS + 1
        invariant trace != [] ==> c.active in registered
        invariant to == if switched > 0 then Some(c.active) else None
        invariant protocolCache == if to.Some? then old(protocolCache)[key := to.value] else old(protocolCache)
        decreases FUNCTION_OUTPUT_ATTEMPTS + 2 - |trace|
      {
        if c.active !in registered {
          return Err(Unavailable), [], None;
        }
        var answer := provider(asked, c.active, !c.withoutSchema, c.prompt);
        var reaction := React(judge, c, answer);
        HeardGrows(provider, trace, Request(c, answer));
        if reaction.Finish? {
          RunConcludes(judge, registered, kind, trace, c, switched, downgraded, answer, reaction.result);
          return reaction.result, trace + [Request(c, answer)], to;
        }
        switched, downgraded := CourseGoesOn(judge, kind, trace, c, switched, downgraded, answer, reaction.next);
        trace, asked := trace + [Request(c, answer)], asked + 1;
        c := reaction.next;
        if answer == UnsupportedProtocol {
          protocolCache, to := protocolCache[key := c.active], Some(c.active);
        }
      }
    }

    /** A run starts on the protocol remembered for the model, or else the configured one. */
    function StartKind(configured: ProviderKind, key: string): ProviderKind
      reads this
    {
      StartsOn(registered, protocolCache, configured, key)
    }
  }
}
