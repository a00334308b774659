/** The class at work on any calls: what it does and answers is what the runs of `Operations` say. */
module Service {
  import opened Json
  import opened Types
  import opened Store
  import opened Operations
  import Memory = MemoryStore

  /** Turns are given fresh identifiers and a time later than every row. */
  ghost predicate Fresh(st: State, s: Step) {
    s.op.Begin? ==> FreshEnv(st, s.env)
  }

  ghost predicate FreshAlong(st: State, steps: seq<Step>)
    decreases |steps|
  {
    steps == [] || (Fresh(st, steps[0]) && FreshAlong(Apply(st, steps[0]).0, steps[1..]))
  }

  predicate OnCalls(op: Operation) {
    op.Record? || op.Approve? || op.Deny? || op.Start? || op.End? || op.Expire?
  }

  /** Carries out a call on the approval store. */
  method OnCallStore(store: Memory.MemoryStore, s: Step) returns (reply: Reply)
    requires store.Valid() && OnCalls(s.op)
    modifies store`toolCalls
    ensures store.Valid() && (store.View(), reply) == Apply(old(store.View()), s)
  {
    match s.op
    case Record(row) =>
      store.RecordToolCall(row);
      return Silent;
    case Approve(call, approval) =>
      var r := store.MarkToolCallApproved(call, approval);
      return Done(r);
    case Deny(call) =>
      var r := store.MarkToolCallDenied(call, s.env.now);
      return Done(r);
    case Start(call, grant) =>
      var r := store.MarkToolCallRunning(call, grant);
      return Done(r);
    case End(call, completion) =>
      var r := store.CompleteToolCall(call, completion, s.env.now);
      return Done(r);
    case Expire =>
      var expired := store.ExpireToolCalls(s.env.now);
      return Silent;
  }

  predicate Reads(op: Operation) {
    op.View? || op.Show? || op.History? || op.Anchor?
  }

  /** Answers a call that only reads. */
  method OnRead(store: Memory.MemoryStore, s: Step) returns (reply: Reply)
    requires store.Valid() && Reads(s.op)
    ensures (store.View(), reply) == Apply(store.View(), s)
  {
    match s.op
    case View(t) =>
      var r := store.ThreadView(s.owner, t);
      return Viewed(r);
    case Show(m) =>
      var r := store.Message(s.owner, m);
      return Shown(r);
    case History(m) =>
      var r := store.HistoryForMessage(s.owner, m);
      return Told(r);
    case Anchor(m) =>
      var r := store.UserAnchorMessage(s.owner, m);
      return Found(r);
  }

  /** Carries out any call. */
  method Serve(store: Memory.MemoryStore, s: Step) returns (reply: Reply)
    requires store.Valid() && Fresh(store.View(), s)
    modifies store
    ensures store.Valid() && (store.View(), reply) == Apply(old(store.View()), s)
  {
    if OnCalls(s.op) {
      reply := OnCallStore(store, s);
      return;
    }
    if Reads(s.op) {
      reply := OnRead(store, s);
      return;
    }
    match s.op
    case Create(title) =>
      var r := store.CreateThread(s.owner, title, s.env);
      return Created(r);
    case Delete(t) =>
      var r := store.DeleteThread(s.owner, t);
      return Done(r);
    case Begin(request) =>
      var r := store.BeginTurn(s.owner, request, s.env);
      return Began(r);
    case Finalize(finish) =>
      var r := store.FinalizeAssistant(s.owner, finish, s.env);
      return Done(r);
    case Stop(m) =>
      var r := store.StopTurn(s.owner, m, s.env);
      return Halted(r);
    case Activate(m) =>
      var r := store.ActivateMessage(s.owner, m, s.env);
      return Done(r);
    case Rate(m, up, comment) =>
      var r := store.SetFeedback(s.owner, m, up, comment, s.env);
      return Rated(r);
    case Unrate(m) =>
      var r := store.ClearFeedback(s.owner, m);
      return Done(r);
    case Sweep(cutoff, code) =>
      var closed := store.FinalizeStaleTurns(cutoff, code, s.env.now);
      return Silent;
  }

  lemma {:induction false} RunGoesOn(st: State, steps: seq<Step>, i: nat)
    requires i < |steps| && FreshAlong(st, steps)
    ensures FreshAlong(Run(st, steps[..i]).0, steps[i..])
    ensures Run(st, steps[..i + 1]).0 == Apply(Run(st, steps[..i]).0, steps[i]).0
    ensures Run(st, steps[..i + 1]).1 == Run(st, steps[..i]).1 + [Apply(Run(st, steps[..i]).0, steps[i]).1]
    decreases i
  {
    var next := Apply(st, steps[0]).0;
    var rest := steps[1..];
    assert steps[..i + 1][1..] == rest[..i];
    if i == 0 {
      assert steps[..0] == [] && steps[0..] == steps && rest[..0] == [];
    } else {
      RunGoesOn(next, rest, i - 1);
      assert steps[..i][1..] == rest[..i - 1] && rest[i - 1..] == steps[i..];
    }
  }

  /** Calls on the class, one after the other, are a run: the same replies, the same store. */
  method ServeAll(store: Memory.MemoryStore, steps: seq<Step>) returns (replies: seq<Reply>)
    requires store.Valid() && FreshAlong(store.View(), steps)
    modifies store
    ensures store.Valid() && (store.View(), replies) == Run(old(store.View()), steps)
  {
    ghost var before := store.View();
    replies := [];
    assert steps[..0] == [];
    for i := 0 to |steps|
      invariant store.Valid() && (store.View(), replies) == Run(before, steps[..i])
    {
      RunGoesOn(before, steps, i);
      var reply := Serve(store, steps[i]);
      replies := replies + [reply];
    }
    assert steps[..|steps|] == steps;
  }
}
