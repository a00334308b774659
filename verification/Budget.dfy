/** The tool budget of one turn, shared by the calls that run in parallel. */
module Budget {
  import opened Tools

  const MAX_IDENTICAL_CALLS := 2

  /** The counters as one atomic step finds them. */
  datatype Counters = Counters(maxCalls: nat, maxBytes: nat, calls: nat, bytes: nat, signatures: map<string, nat>)

  /** A call that finds the deadline passed is not counted; a refused one is. */
  function ReserveCall(b: Counters, expired: bool): (Counters, Result<()>) {
    if expired then (b, Err(Timeout))
    else (b.(calls := b.calls + 1), if b.calls >= b.maxCalls then Err(LimitExceeded) else Ok(()))
  }

  function Key(name: string, hash: string): string {
    name + ":" + hash
  }

  function Used(b: Counters, key: string): nat {
    if key in b.signatures then b.signatures[key] else 0
  }

  function ReserveSignature(b: Counters, name: string, hash: string): (Counters, Result<()>) {
    var key := Key(name, hash);
    var used := Used(b, key);
    if used >= MAX_IDENTICAL_CALLS then (b.(signatures := b.signatures[key := used]), Err(LimitExceeded))
    else (b.(signatures := b.signatures[key := used + 1]), Ok(()))
  }

  /** Bytes are counted whether or not they still fit. */
  function ReserveBytes(b: Counters, n: nat): (Counters, Result<()>) {
    (b.(bytes := b.bytes + n), if b.bytes + n > b.maxBytes then Err(LimitExceeded) else Ok(()))
  }

  /** The last colon of a key ends the name. */
  lemma LastColon(name: string, hash: string)
    requires ':' !in hash
    ensures var k := Key(name, hash);
            && k[|name|] == ':' && (forall i | |name| < i < |k| :: k[i] != ':')
            && k[..|name|] == name && k[|name| + 1..] == hash
  {
    var k := Key(name, hash);
    forall i | |name| < i < |k| ensures k[i] != ':' { assert k[i] == hash[i - |name| - 1]; }
  }

  /** Tool name and hash can be told apart in the key, since a hash holds no colon. */
  lemma KeyDetermines(n: string, h: string, m: string, g: string)
    requires ':' !in h && ':' !in g
    ensures Key(n, h) == Key(m, g) <==> n == m && h == g
  {
    LastColon(n, h);
    LastColon(m, g);
  }

  class TurnToolBudget {
    const maxCalls: nat
    const maxResultBytes: nat
    var calls: nat
    var resultBytes: nat
    var signatures: map<string, nat>

    constructor (maxCalls: nat, maxResultBytes: nat)
      ensures View() == Counters(maxCalls, maxResultBytes, 0, 0, map[])
    {
      this.maxCalls, this.maxResultBytes := maxCalls, maxResultBytes;
      calls, resultBytes, signatures := 0, 0, map[];
    }

    function View(): Counters
      reads this
    {
      Counters(maxCalls, maxResultBytes, calls, resultBytes, signatures)
    }

    method TryReserveCall(expired: bool) returns (r: Result<()>)
      modifies this
      ensures (View(), r) == ReserveCall(old(View()), expired)
    {
      if expired { return Err(Timeout); }
      var used := calls;
      calls := calls + 1;
      if used >= maxCalls { return Err(LimitExceeded); }
      return Ok(());
    }

    method TryReserveSignature(name: string, hash: string) returns (r: Result<()>)
      modifies this
      ensures (View(), r) == ReserveSignature(old(View()), name, hash)
    {
      var key := Key(name, hash);
      var used := if key in signatures then signatures[key] else 0;
      signatures := signatures[key := used];
      if used >= MAX_IDENTICAL_CALLS { return Err(LimitExceeded); }
      signatures := signatures[key := used + 1];
      assert signatures == old(signatures)[key := used + 1];
      return Ok(());
    }

    method TryReserveBytes(bytes: nat) returns (r: Result<()>)
      modifies this
      ensures (View(), r) == ReserveBytes(old(View()), bytes)
    {
      var used := resultBytes;
      resultBytes := resultBytes + bytes;
      if used + bytes > maxResultBytes { return Err(LimitExceeded); }
      return Ok(());
    }
  }

  // ---------------------------------------------------------------- parallel calls

  /** The furthest one call has got; `Succeeded` carries the size of the result it returned. */
  datatype Stage = Waiting | Counted | Signed | Dispatched | Succeeded(bytes: nat)

  /** `over`: refused or failed at its stage, it goes no further. */
  datatype Call = Call(name: string, hash: string, stage: Stage, over: bool)

  datatype Step =
    | Count(call: nat, expired: bool)
    | Sign(call: nat)
    | Dispatch(call: nat)
    | Return(call: nat, bytes: nat)
    | Fail(call: nat)

  datatype Turn = Turn(budget: Counters, calls: seq<Call>)

  function Move(t: Turn, i: nat, r: (Counters, Result<()>), stage: Stage): Turn
    requires i < |t.calls|
  {
    Turn(r.0, t.calls[i := if r.1.Ok? then t.calls[i].(stage := stage) else t.calls[i].(over := true)])
  }

  /** One atomic step of one call; steps of other calls come before, between and after. */
  function Act(t: Turn, s: Step): Turn {
    if s.call >= |t.calls| || t.calls[s.call].over then t else
    var c := t.calls[s.call];
    match s
    case Count(i, expired) => if c.stage != Waiting then t else Move(t, i, ReserveCall(t.budget, expired), Counted)
    case Sign(i) => if c.stage != Counted then t else Move(t, i, ReserveSignature(t.budget, c.name, c.hash), Signed)
    case Dispatch(i) => if c.stage != Signed then t else Move(t, i, (t.budget, Ok(())), Dispatched)
    case Return(i, n) => if c.stage != Dispatched then t else Move(t, i, ReserveBytes(t.budget, n), Succeeded(n))
    case Fail(i) => Move(t, i, (t.budget, Err(Internal)), c.stage)
  }

  function Run(t: Turn, steps: seq<Step>): Turn
    decreases |steps|
  {
    if steps == [] then t else Run(Act(t, steps[0]), steps[1..])
  }

  // ---------------------------------------------------------------- sums over calls

  function Sum(f: Call -> nat, calls: seq<Call>): nat {
    if calls == [] then 0 else f(calls[0]) + Sum(f, calls[1..])
  }

  lemma {:induction false} SumMoves(f: Call -> nat, calls: seq<Call>, i: nat, c: Call)
    requires i < |calls|
    ensures Sum(f, calls[i := c]) + f(calls[i]) == Sum(f, calls) + f(c)
  {
    if i > 0 {
      assert calls[i := c][1..] == calls[1..][i - 1 := c];
      SumMoves(f, calls[1..], i - 1, c);
    }
  }

  lemma {:induction false} SumIsMonotone(f: Call -> nat, g: Call -> nat, calls: seq<Call>)
    requires forall c :: f(c) <= g(c)
    ensures Sum(f, calls) <= Sum(g, calls)
  {
    if calls != [] { SumIsMonotone(f, g, calls[1..]); }
  }

  lemma {:induction false} SumIsZero(f: Call -> nat, calls: seq<Call>)
    requires forall i | 0 <= i < |calls| :: f(calls[i]) == 0
    ensures Sum(f, calls) == 0
  {
    if calls != [] { SumIsZero(f, calls[1..]); }
  }

  function WasCounted(): Call -> nat { (c: Call) => if c.stage.Waiting? then 0 else 1 }

  function WasSigned(key: string): Call -> nat {
    (c: Call) => if c.stage.Waiting? || c.stage.Counted? || Key(c.name, c.hash) != key then 0 else 1
  }

  function WasDispatched(): Call -> nat { (c: Call) => if c.stage.Dispatched? || c.stage.Succeeded? then 1 else 0 }

  function WasDispatchedAs(name: string, hash: string): Call -> nat {
    (c: Call) => if (c.stage.Dispatched? || c.stage.Succeeded?) && c.name == name && c.hash == hash then 1 else 0
  }

  function Delivered(): Call -> nat { (c: Call) => if c.stage.Succeeded? then c.stage.bytes else 0 }

  function WasSignedAs(name: string, hash: string): Call -> nat {
    (c: Call) => if c.stage.Waiting? || c.stage.Counted? || c.name != name || c.hash != hash then 0 else 1
  }

  ghost predicate CountsOk(t: Turn) {
    Sum(WasCounted(), t.calls) == if t.budget.calls <= t.budget.maxCalls then t.budget.calls else t.budget.maxCalls
  }

  ghost predicate SignaturesOk(t: Turn, key: string) {
    Sum(WasSigned(key), t.calls) == Used(t.budget, key) <= MAX_IDENTICAL_CALLS
  }

  ghost predicate BytesOk(t: Turn) {
    Sum(Delivered(), t.calls) <= t.budget.bytes && Sum(Delivered(), t.calls) <= t.budget.maxBytes
  }

  ghost predicate Inv(t: Turn) {
    CountsOk(t) && BytesOk(t) && forall key {:trigger SignaturesOk(t, key)} :: SignaturesOk(t, key)
  }

  /** What a step does to a sum over the calls. */
  lemma StepMovesSum(t: Turn, s: Step, f: Call -> nat)
    requires s.call < |t.calls|
    ensures |Act(t, s).calls| == |t.calls|
    ensures Sum(f, Act(t, s).calls) + f(t.calls[s.call]) == Sum(f, t.calls) + f(Act(t, s).calls[s.call])
  {
    var u := Act(t, s);
    assert u.calls == t.calls[s.call := u.calls[s.call]];
    SumMoves(f, t.calls, s.call, u.calls[s.call]);
  }

  lemma StepKeepsCounts(t: Turn, s: Step)
    requires CountsOk(t)
    ensures CountsOk(Act(t, s))
  {
    if s.call < |t.calls| { StepMovesSum(t, s, WasCounted()); }
  }

  lemma StepKeepsSignatures(t: Turn, s: Step, key: string)
    requires SignaturesOk(t, key)
    ensures SignaturesOk(Act(t, s), key)
  {
    if s.call < |t.calls| { StepMovesSum(t, s, WasSigned(key)); }
  }

  lemma StepKeepsBytes(t: Turn, s: Step)
    requires BytesOk(t)
    ensures BytesOk(Act(t, s))
  {
    if s.call < |t.calls| { StepMovesSum(t, s, Delivered()); }
  }

  lemma {:induction false} RunKeepsInv(t: Turn, steps: seq<Step>)
    requires Inv(t)
    ensures Inv(Run(t, steps))
    ensures Run(t, steps).budget.maxCalls == t.budget.maxCalls && Run(t, steps).budget.maxBytes == t.budget.maxBytes
    decreases |steps|
  {
    if steps != [] {
      StepKeepsCounts(t, steps[0]);
      StepKeepsBytes(t, steps[0]);
      forall key ensures SignaturesOk(Act(t, steps[0]), key) {
        assert SignaturesOk(t, key);
        StepKeepsSignatures(t, steps[0], key);
      }
      RunKeepsInv(Act(t, steps[0]), steps[1..]);
    }
  }

  lemma InitialInv(maxCalls: nat, maxBytes: nat, calls: seq<Call>)
    requires forall i | 0 <= i < |calls| :: calls[i].stage == Waiting
    ensures Inv(Turn(Counters(maxCalls, maxBytes, 0, 0, map[]), calls))
  {
    var t := Turn(Counters(maxCalls, maxBytes, 0, 0, map[]), calls);
    SumIsZero(WasCounted(), calls);
    SumIsZero(Delivered(), calls);
    forall key ensures SignaturesOk(t, key) { SumIsZero(WasSigned(key), calls); }
  }

  /** In every interleaving of the calls of a turn, at most `maxCalls` are dispatched, at most
      two with the same tool and arguments, and what they deliver fits into `maxBytes`. */
  lemma BudgetHolds(maxCalls: nat, maxBytes: nat, calls: seq<Call>, steps: seq<Step>, name: string, hash: string)
    requires forall i | 0 <= i < |calls| :: calls[i].stage == Waiting
    ensures var end := Run(Turn(Counters(maxCalls, maxBytes, 0, 0, map[]), calls), steps).calls;
      && Sum(WasDispatched(), end) <= maxCalls
      && Sum(WasDispatchedAs(name, hash), end) <= MAX_IDENTICAL_CALLS
      && Sum(Delivered(), end) <= maxBytes
  {
    var t := Turn(Counters(maxCalls, maxBytes, 0, 0, map[]), calls);
    InitialInv(maxCalls, maxBytes, calls);
    RunKeepsInv(t, steps);
    var end := Run(t, steps);
    assert SignaturesOk(end, Key(name, hash));
    SumIsMonotone(WasDispatched(), WasCounted(), end.calls);
    SumIsMonotone(WasDispatchedAs(name, hash), WasSigned(Key(name, hash)), end.calls);
  }

  lemma {:induction false} SumsAgree(f: Call -> nat, g: Call -> nat, calls: seq<Call>)
    requires forall i | 0 <= i < |calls| :: f(calls[i]) == g(calls[i])
    ensures Sum(f, calls) == Sum(g, calls)
  {
    if calls != [] { SumsAgree(f, g, calls[1..]); }
  }

  /** The budget refuses no more than it must: a call is refused as one too many exactly when
      `maxCalls` have been counted, and as a repetition exactly when two calls of the same
      tool with the same arguments have passed. After the deadline every call is refused, and
      none is counted. */
  lemma RefusalsAreExact(t: Turn, i: nat)
    requires Inv(t) && i < |t.calls| && !t.calls[i].over
    requires forall j | 0 <= j < |t.calls| :: ':' !in t.calls[j].hash
    ensures t.calls[i].stage == Waiting ==>
      (Act(t, Count(i, false)).calls[i].over <==> Sum(WasCounted(), t.calls) == t.budget.maxCalls)
    ensures t.calls[i].stage == Counted ==>
      (Act(t, Sign(i)).calls[i].over <==>
         Sum(WasSignedAs(t.calls[i].name, t.calls[i].hash), t.calls) == MAX_IDENTICAL_CALLS)
    ensures t.calls[i].stage == Waiting ==>
      Act(t, Count(i, true)).calls[i].over && Act(t, Count(i, true)).budget == t.budget
  {
    var c := t.calls[i];
    var key := Key(c.name, c.hash);
    assert SignaturesOk(t, key);
    forall j | 0 <= j < |t.calls| ensures WasSigned(key)(t.calls[j]) == WasSignedAs(c.name, c.hash)(t.calls[j]) {
      KeyDetermines(c.name, c.hash, t.calls[j].name, t.calls[j].hash);
    }
    SumsAgree(WasSigned(key), WasSignedAs(c.name, c.hash), t.calls);
  }

  /** The bytes a step brings back: those of a call that was dispatched and still goes on. */
  function Returned(t: Turn, s: Step): nat {
    if s.Return? && s.call < |t.calls| && !t.calls[s.call].over && t.calls[s.call].stage == Dispatched
    then s.bytes else 0
  }

  /** The bytes brought back over a run, whether they were handed on or refused. */
  function ReturnedIn(t: Turn, steps: seq<Step>): nat
    decreases |steps|
  {
    if steps == [] then 0 else Returned(t, steps[0]) + ReturnedIn(Act(t, steps[0]), steps[1..])
  }

  lemma {:induction false} BytesAreCounted(t: Turn, steps: seq<Step>)
    ensures Run(t, steps).budget.bytes == t.budget.bytes + ReturnedIn(t, steps)
    ensures Run(t, steps).budget.maxBytes == t.budget.maxBytes
    decreases |steps|
  {
    if steps != [] { BytesAreCounted(Act(t, steps[0]), steps[1..]); }
  }

  /** In every interleaving a result is refused for its size exactly when it does not fit next
      to all results that came back before it, those refused included. */
  lemma BytesAreRefusedExactly(maxCalls: nat, maxBytes: nat, calls: seq<Call>, steps: seq<Step>, i: nat, n: nat)
    ensures var t := Turn(Counters(maxCalls, maxBytes, 0, 0, map[]), calls);
      var now := Run(t, steps);
      i < |now.calls| && !now.calls[i].over && now.calls[i].stage == Dispatched ==>
        var after := Act(now, Return(i, n)).calls[i];
        if ReturnedIn(t, steps) + n > maxBytes then after.over && after.stage == Dispatched
        else !after.over && after.stage == Succeeded(n)
  {
    BytesAreCounted(Turn(Counters(maxCalls, maxBytes, 0, 0, map[]), calls), steps);
  }
}
