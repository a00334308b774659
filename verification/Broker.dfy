/** The approval protocol as it is carried out: sequences of store calls with early returns,
    each a step of the transition system, with anyone else's steps in between.

    The calls the store holds are at all times where the steps taken so far lead. */
module Broker {
  import opened Json
  import opened Types
  import opened Store
  import opened Calls
  import A = Approval
  import B = Budget
  import Memory = MemoryStore
  import Tools

  /** A step of the submission `a` itself. */
  predicate Own(step: A.Action, a: string) {
    match step
    case Submit(b, _, _, _, _) => a == b
    case Allow(b) => a == b
    case Deny(b, _) => a == b
    case Verify(b, _, _) => a == b
    case Check(b) => a == b
    case Begin(b) => a == b
    case Dispatch(b) => a == b
    case Finish(b, _, _) => a == b
    case _ => false
  }

  /** How a submission stands: in `w` as in `v`. */
  ghost predicate Unmoved(w: A.World, v: A.World, a: string) {
    && (a in w.submissions <==> a in v.submissions)
    && (a in w.submissions ==> w.submissions[a] == v.submissions[a])
    && A.Dispatches(v.log, a) == A.Dispatches(w.log, a)
  }

  lemma OtherDecisionLeaves(t: A.Tower, w: A.World, step: A.Action, a: string)
    requires !Own(step, a) && (step.Submit? || step.Allow? || step.Deny?)
    ensures Unmoved(w, A.Act(t, w, step), a)
  {
    match step
    case Submit(b, owner, call, d, now) =>
    case Allow(b) =>
    case Deny(b, now) =>
  }

  lemma OtherVerifyLeaves(t: A.Tower, w: A.World, b: string, permitted: bool, now: Time, a: string)
    requires a != b
    ensures Unmoved(w, A.DoVerify(t, w, b, permitted, now), a)
  {
  }

  lemma OtherExecutionLeaves(t: A.Tower, w: A.World, step: A.Action, a: string)
    requires !Own(step, a) && (step.Check? || step.Begin? || step.Dispatch? || step.Finish?)
    ensures Unmoved(w, A.Act(t, w, step), a)
  {
    match step
    case Check(b) =>
    case Begin(b) =>
    case Dispatch(b) =>
    case Finish(b, c, now) =>
  }

  lemma StoreStepLeaves(t: A.Tower, w: A.World, step: A.Action, a: string)
    requires step.Record? || step.Stop? || step.Sweep? || step.EndOther? || step.Forget? || step.Tamper?
    ensures Unmoved(w, A.Act(t, w, step), a)
  {
    match step
    case Record(row, raw, gated) =>
    case Stop(call, now) =>
    case Sweep(now) =>
    case EndOther(call, c, now) =>
    case Forget(calls) =>
    case Tamper(call, arguments) =>
  }

  lemma OtherStepLeaves(t: A.Tower, w: A.World, step: A.Action, a: string)
    requires !Own(step, a)
    ensures Unmoved(w, A.Act(t, w, step), a)
  {
    if step.Submit? || step.Allow? || step.Deny? {
      OtherDecisionLeaves(t, w, step, a);
    } else if step.Verify? {
      OtherVerifyLeaves(t, w, step.approval, step.permitted, step.now, a);
    } else if step.Check? || step.Begin? || step.Dispatch? || step.Finish? {
      OtherExecutionLeaves(t, w, step, a);
    } else {
      StoreStepLeaves(t, w, step, a);
    }
  }

  lemma {:induction false} OthersLeave(t: A.Tower, w: A.World, steps: seq<A.Action>, a: string)
    requires forall i | 0 <= i < |steps| :: !Own(steps[i], a)
    ensures Unmoved(w, A.Run(t, w, steps), a)
    decreases |steps|
  {
    if steps != [] {
      OtherStepLeaves(t, w, steps[0], a);
      OthersLeave(t, A.Act(t, w, steps[0]), steps[1..], a);
    }
  }

  // ---------------------------------------------------------------- the broker at work

  datatype Challenge = Challenge(argumentsHash: string, expiresAt: Option<Time>)

  datatype Parked = Waiting(challenge: Challenge) | NotParked(error: Tools.ToolError)

  datatype Submitted = Grant(approval: string, arguments: Json, hash: string) | Denied | Rejected(error: StoreError)

  datatype Outcome = Succeeded(result: Json) | Failed(error: Tools.ToolError)

  /** What the registry has under a name. */
  datatype Registered = Missing | Ungated | Gated

  /** Denied calls keep apart from failed ones. */
  function StatusOf(o: Outcome): ToolCallStatus {
    match o
    case Succeeded(_) => ToolCallStatus.Succeeded
    case Failed(error) => if error == Tools.NotPermitted then ToolCallStatus.Denied else ToolCallStatus.Failed
  }

  /** The code a failure is recorded under. */
  function CodeOf(e: Tools.ToolError): string {
    match e
    case Unknown => "tool_unknown"
    case NotPermitted => "tool_not_permitted"
    case NotFound => "tool_not_found"
    case InvalidArguments => "tool_invalid_arguments"
    case UpstreamUnavailable => "tool_upstream_unavailable"
    case UpstreamStatus(_) => "tool_upstream_unavailable"
    case Timeout => "tool_timeout"
    case RateLimited => "tool_rate_limited"
    case LimitExceeded => "tool_limit_exceeded"
    case ApprovalRequired => "tool_approval_required"
    case ApprovalDenied => "tool_approval_denied"
    case ApprovalExpired => "tool_approval_expired"
    case ArgumentsChanged => "tool_arguments_changed"
    case ApprovalReplayed => "tool_approval_replayed"
    case ResultTooLarge => "tool_result_too_large"
    case Internal => "tool_internal"
  }

  /** How a call is completed with an outcome. */
  function CompletionOf(o: Outcome, approval: Option<string>): Completion {
    match o
    case Succeeded(v) => Completion(StatusOf(o), Some(v), None, approval)
    case Failed(e) => Completion(StatusOf(o), None, Some(CodeOf(e)), approval)
  }

  /** A row tells how its call ended: with a result, or with a code. */
  predicate Tells(row: CallRow, o: Outcome) {
    && row.status == (if o.Succeeded? then ToolCallStatus.Succeeded
                      else if o.error.NotPermitted? then ToolCallStatus.Denied else ToolCallStatus.Failed)
    && row.result == (if o.Succeeded? then Some(o.result) else None)
    && row.errorCode == (if o.Failed? then Some(CodeOf(o.error)) else None)
  }

  /** What lies outside: whether credentials are refused, what the tool answers, how large an
      answer is. */
  datatype Outside = Outside(egress: Option<Tools.ToolError>, run: Json -> Outcome, size: Json -> nat)

  class ToolBroker {
    const store: Memory.MemoryStore
    const nfc: string -> string
    /** The hash of the canonical text, and what reading that text back gives. */
    const digest: Json -> string
    const reread: Json -> Json
    ghost const tower: A.Tower
    ghost var world: A.World
    ghost var history: seq<A.Action>

    /** The stored calls are where the steps taken so far have led. */
    ghost predicate Valid()
      reads this, store
    {
      && tower.nfc == nfc && (forall v {:trigger digest(v)} :: digest(v) == tower.hash(Canonical(v)))
      && (forall v {:trigger reread(v)} ::
            reread(v) == match tower.parse(Canonical(v)) case Some(x) => x case None => Null)
      && world == A.Run(tower, A.START, history) && store.toolCalls == world.rows
    }

    constructor (store: Memory.MemoryStore, nfc: string -> string, digest: Json -> string, reread: Json -> Json,
                 ghost tower: A.Tower)
      requires store.toolCalls == map[] && tower.nfc == nfc
      requires forall v {:trigger digest(v)} :: digest(v) == tower.hash(Canonical(v))
      requires forall v {:trigger reread(v)} ::
        reread(v) == match tower.parse(Canonical(v)) case Some(x) => x case None => Null
      ensures Valid() && this.store == store && this.tower == tower && history == []
    {
      this.store, this.nfc, this.digest, this.reread, this.tower := store, nfc, digest, reread, tower;
      world, history := A.START, [];
    }

    /** Steps are added to those taken. */
    twostate predicate Continues()
      reads this, store
    {
      Valid() && old(history) <= history
    }

    /** Takes one step; the effect on the store comes with it. */
    ghost method Happens(step: A.Action)
      requires world == A.Run(tower, A.START, history)
      modifies this`world, this`history
      ensures world == A.Act(tower, old(world), step) && history == old(history) + [step]
      ensures world == A.Run(tower, A.START, history)
    {
      A.RunAppends(tower, A.START, history, [step]);
      assert [step][1..] == [] && A.Run(tower, world, [step]) == A.Run(tower, A.Act(tower, world, step), []);
      world, history := A.Act(tower, world, step), history + [step];
    }

    // -------------------------------------------------------------- store calls as steps

    method Expire(now: Time)
      requires Valid()
      modifies this`world, this`history, store`toolCalls
      ensures Continues() && history == old(history) + [A.Sweep(now)] && world == A.DoSweep(old(world), now)
    {
      var affected := store.ExpireToolCalls(now);
      Happens(A.Sweep(now));
    }

    method Refuse(call: string, now: Time)
      requires Valid()
      modifies this`world, this`history, store`toolCalls
      ensures Continues() && history == old(history) + [A.Stop(call, now)] && world == A.Refuse(old(world), call, now)
    {
      var r := store.MarkToolCallDenied(call, now);
      A.RowsHaveEpochs(tower, history);
      Happens(A.Stop(call, now));
    }

    method Complete(call: string, c: Completion, now: Time)
      requires Valid() && A.Final(c.status) && c.approvalId.None?
      modifies this`world, this`history, store`toolCalls
      ensures Continues() && history == old(history) + [A.EndOther(call, c, now)]
      ensures world == A.End(old(world), call, c, now)
    {
      var r := store.CompleteToolCall(call, c, now);
      Happens(A.EndOther(call, c, now));
    }

    /** Whatever others do meanwhile: stops, sweeps and completions of other executions, any
        number of them. What is known afterwards is only that they were steps of others. */
    method Meanwhile(a: string)
      requires Valid()
      modifies this`world, this`history, store`toolCalls
      ensures Continues() && Unmoved(old(world), world, a)
    {
      var goOn: bool, fuel: nat := *, *;
      while goOn && fuel > 0
        invariant Valid() && old(history) <= history && Unmoved(old(world), world, a)
      {
        var call: string, now: Time, kind: int := *, *, *;
        ghost var before := world;
        if kind == 0 {
          Refuse(call, now);
          OtherStepLeaves(tower, before, A.Stop(call, now), a);
        } else if kind == 1 {
          Expire(now);
          OtherStepLeaves(tower, before, A.Sweep(now), a);
        } else {
          var c := Completion(ToolCallStatus.Succeeded, Some(Null), None, None);
          Complete(call, c, now);
          OtherStepLeaves(tower, before, A.EndOther(call, c, now), a);
        }
        goOn, fuel := *, fuel - 1;
      }
    }

    /** The row a call is recorded as. */
    function RowFor(row: CallRow, arguments: Json, gated: bool): CallRow {
      row.(arguments := reread(arguments), argumentsHash := digest(arguments),
           status := if gated then AwaitingApproval else Running,
           expiresAt := if gated then row.expiresAt else None,
           approvalId := None, result := None, errorCode := None, completedAt := None)
    }

    /** Records a call, unless its identifier is taken. */
    method Record(row: CallRow, raw: Json, gated: bool)
      requires Valid() && Tools.Canonicalize(nfc, raw).Some?
      modifies this`world, this`history, store`toolCalls
      ensures Continues() && history == old(history) + [A.Record(row, raw, gated)]
      ensures world == A.DoRecord(tower, old(world), row, raw, gated)
    {
      var arguments := Tools.Canonicalize(nfc, raw).value;
      store.RecordToolCall(RowFor(row, arguments, gated));
      assert RowFor(row, arguments, gated) == A.RowFor(tower, row, arguments, gated);
      Happens(A.Record(row, raw, gated));
    }

    /** Records a call that is refused, and ends it. */
    method RecordFailed(row: CallRow, raw: Json, error: Tools.ToolError, now: Time)
      requires Valid() && Tools.Canonicalize(nfc, raw).Some?
      modifies this`world, this`history, store`toolCalls
      ensures Continues() && world.log == old(world).log
      ensures row.id in store.toolCalls && Tells(store.toolCalls[row.id], Outcome.Failed(error))
      ensures forall k | k in old(store.toolCalls) && k != row.id ::
        k in store.toolCalls && store.toolCalls[k] == old(store.toolCalls)[k]
    {
      Record(row, raw, false);
      Complete(row.id, CompletionOf(Outcome.Failed(error), None), now);
    }

    /** Parks a gated call once its arguments are canonical and the checks have passed; a call
        under an identifier that is taken leaves the row that has it. A refused call is on
        record, one no gate belongs to is not. */
    method Park(row: CallRow, raw: Json, tool: Registered, refused: Option<Tools.ToolError>, now: Time)
      returns (r: Parked)
      requires Valid()
      modifies this`world, this`history, store`toolCalls
      ensures Continues()
      ensures r.Waiting? <==> Tools.Canonicalize(nfc, raw).Some? && tool.Gated? && refused.None?
      ensures !(Tools.Canonicalize(nfc, raw).Some? && tool.Gated?) ==>
        && store.toolCalls == old(store.toolCalls)
        && r == NotParked(if Tools.Canonicalize(nfc, raw).None? then Tools.InvalidArguments
                          else if tool.Missing? then Tools.Unknown else Tools.Internal)
      ensures Tools.Canonicalize(nfc, raw).Some? && tool.Gated? && refused.Some? ==>
        && r.NotParked? && r.error == refused.value && row.id in store.toolCalls
        && Tells(store.toolCalls[row.id], Outcome.Failed(refused.value))
      ensures r.Waiting? ==>
        && r.challenge == Challenge(tower.hash(Canonical(Tools.Canonicalize(nfc, raw).value)), row.expiresAt)
        && store.toolCalls == RecordCall(old(store.toolCalls), RowFor(row, Tools.Canonicalize(nfc, raw).value, true))
    {
      var canonical := Tools.Canonicalize(nfc, raw);
      if canonical.None? { return NotParked(Tools.InvalidArguments); }
      if tool.Missing? { return NotParked(Tools.Unknown); }
      if tool.Ungated? { return NotParked(Tools.Internal); }
      if refused.Some? {
        RecordFailed(row, raw, refused.value, now);
        return NotParked(refused.value);
      }
      Record(row, raw, true);
      return Waiting(Challenge(digest(canonical.value), row.expiresAt));
    }

    /** The caller may decide about the call, whose message it still owns. */
    ghost predicate Decidable(owner: Owner, call: string, d: A.Decision, now: Time)
      reads store
    {
      && call in store.toolCalls && A.MayDecide(store.toolCalls[call], owner, d, now)
      && Owns(store.View(), owner, store.toolCalls[call].messageId)
    }

    /** Why a caller may not decide: the call is not there for it, has been or can no longer be
        decided as it is, or is not confirmed. */
    ghost function Objection(owner: Owner, call: string, d: A.Decision, now: Time): StoreError
      reads store
    {
      if call !in store.toolCalls || store.toolCalls[call].owner != owner then NotFound
      else
        var row := store.toolCalls[call];
        if row.status != AwaitingApproval || row.argumentsHash != d.argumentsHash
           || exists end :: row.expiresAt == Some(end) && end < now
        then Conflict
        else if !A.MayDecide(row, owner, d, now) then Validation
        else NotFound
    }

    /** Reads the row to decide about and checks the decision against it. */
    method Read(a: string, owner: Owner, call: string, d: A.Decision, now: Time) returns (r: Result<CallRow>)
      requires Valid() && a !in world.submissions
      modifies this`world, this`history, store`toolCalls
      ensures Continues()
      ensures r.Ok? <==> old(Decidable(owner, call, d, now))
      ensures r.Err? ==> r.error == old(Objection(owner, call, d, now))
      ensures r.Ok? ==>
        && history == old(history) + [A.Submit(a, owner, call, d, now)]
        && r.value == old(store.toolCalls)[call] && call in old(world).epochs
        && world == A.DoSubmit(old(world), a, owner, call, d, now)
    {
      if call !in store.toolCalls || store.toolCalls[call].owner != owner { return Result.Err(NotFound); }
      var snapshot := store.toolCalls[call];
      A.AdmitsExactly(snapshot, owner, d, now);
      if snapshot.status != AwaitingApproval { return Result.Err(Conflict); }
      if snapshot.expiresAt.Some? && snapshot.expiresAt.value < now {
        Meanwhile(a);
        Expire(now);
        return Result.Err(Conflict);
      }
      if snapshot.argumentsHash != d.argumentsHash { return Result.Err(Conflict); }
      if snapshot.approvalKind == Some("typed_confirm") {
        if snapshot.confirmField.None? { return Result.Err(Validation); }
        if d.typedConfirm != Some(A.Expected(snapshot)) { return Result.Err(Validation); }
      }
      if !Owns(store.View(), owner, snapshot.messageId) { return Result.Err(NotFound); }
      A.RowsHaveEpochs(tower, history);
      Happens(A.Submit(a, owner, call, d, now));
      return Result.Ok(snapshot);
    }

    /** Marks the call as decided, if no one else has decided it first. */
    method Decide(a: string, call: string, allow: bool, now: Time) returns (r: Result<()>)
      requires Valid() && A.In(world, a, A.Loaded) && world.submissions[a].call == call
      modifies this`world, this`history, store`toolCalls
      ensures Continues()
      ensures world == if allow then A.DoAllow(old(world), a) else A.DoDeny(old(world), a, now)
      ensures |history| == |old(history)| + 1
      ensures r.Ok? <==> call in old(store.toolCalls) && old(store.toolCalls)[call].status == AwaitingApproval
    {
      A.RowsHaveEpochs(tower, history);
      if allow {
        r := store.MarkToolCallApproved(call, a);
        Happens(A.Allow(a));
      } else {
        r := store.MarkToolCallDenied(call, now);
        Happens(A.Deny(a, now));
      }
    }

    /** Decides a parked call, for those who may. Reading the row and marking it are two steps:
        another decision may come in between, and then this one is refused; undisturbed, it
        stands. */
    method SubmitApproval(a: string, owner: Owner, call: string, d: A.Decision, allow: bool, now: Time)
      returns (r: Submitted)
      requires Valid() && a !in world.submissions
      modifies this`world, this`history, store`toolCalls
      ensures Continues()
      ensures r.Grant? ==>
        && allow && A.In(world, a, A.Won) && world.submissions[a].call == call && r.approval == a
        && world.submissions[a].arguments == r.arguments && world.submissions[a].hash == r.hash == d.argumentsHash
        && A.Has(world.log, A.Granted(world.submissions[a].won, a))
      ensures !r.Rejected? ==> old(Decidable(owner, call, d, now)) && (r.Grant? <==> allow)
      ensures !old(Decidable(owner, call, d, now)) ==> r == Rejected(old(Objection(owner, call, d, now)))
      ensures old(Decidable(owner, call, d, now)) && r.Rejected? ==> |history| > |old(history)| + 2
    {
      var read := Read(a, owner, call, d, now);
      if read.Err? { return Rejected(read.error); }
      assert A.In(world, a, A.Loaded);
      ghost var before := history;
      Meanwhile(a);
      A.RowsHaveEpochs(tower, history);
      assert |history| == |before| ==> history == before;
      var marked := Decide(a, call, allow, now);
      if marked.Err? { return Rejected(marked.error); }
      if allow { return Grant(a, read.value.arguments, read.value.argumentsHash); }
      Meanwhile(a);
      Refuse(call, now);
      return Submitted.Denied;
    }

    // -------------------------------------------------------------- executing an approved call

    /** Hashes the arguments again; a call whose hash has changed is ended. */
    method Verify(a: string, call: string, canonical: Json, hash: string, now: Time) returns (ok: bool)
      requires Valid() && A.In(world, a, A.Won)
      requires world.submissions[a].call == call && world.submissions[a].hash == hash
      requires Tools.Canonicalize(nfc, world.submissions[a].arguments) == Some(canonical)
      modifies this`world, this`history, store`toolCalls
      ensures Continues() && world == A.DoVerify(tower, old(world), a, true, now)
      ensures ok <==> tower.hash(Canonical(canonical)) == hash
    {
      ok := digest(canonical) == hash;
      if !ok {
        var c := Completion(ToolCallStatus.Denied, None, Some("tool_arguments_changed"), Some(a));
        var r := store.CompleteToolCall(call, c, now);
      }
      Happens(A.Verify(a, true, now));
    }

    /** The row must still be approved, and under this very approval. */
    method Check(a: string, call: string) returns (ok: bool)
      requires Valid() && A.In(world, a, A.Verified) && world.submissions[a].call == call
      modifies this`world, this`history
      ensures Continues() && world == A.DoCheck(old(world), a)
      ensures ok <==> A.In(world, a, A.Checked)
    {
      ok := call in store.toolCalls && store.toolCalls[call].status == ToolCallStatus.Approved
            && store.toolCalls[call].approvalId == Some(a);
      Happens(A.Check(a));
    }

    method Begin(a: string, call: string) returns (ok: bool)
      requires Valid() && A.In(world, a, A.Checked) && world.submissions[a].call == call
      modifies this`world, this`history, store`toolCalls
      ensures Continues() && world == A.DoBegin(old(world), a)
      ensures ok <==> A.In(world, a, A.Started)
    {
      var r := store.MarkToolCallRunning(call, Some(a));
      ok := r.Ok?;
      Happens(A.Begin(a));
    }

    /** The call goes out, and the tool answers. */
    method Dispatch(a: string, canonical: Json, run: Json -> Outcome) returns (o: Outcome)
      requires Valid() && A.In(world, a, A.Started)
      requires Tools.Canonicalize(nfc, world.submissions[a].arguments) == Some(canonical)
      modifies this`world, this`history
      ensures Continues() && world == A.DoDispatch(tower, old(world), a) && o == run(canonical)
    {
      Happens(A.Dispatch(a));
      o := run(canonical);
    }

    method Finish(a: string, call: string, o: Outcome, now: Time)
      requires Valid() && A.In(world, a, A.Gone) && world.submissions[a].call == call
      modifies this`world, this`history, store`toolCalls
      ensures Continues() && world.log == old(world).log && world.submissions == old(world).submissions
      ensures call in store.toolCalls <==> call in old(store.toolCalls)
      ensures call in store.toolCalls ==>
        Tells(store.toolCalls[call], o) && store.toolCalls[call].approvalId == Some(a)
    {
      var c := CompletionOf(o, Some(a));
      var r := store.CompleteToolCall(call, c, now);
      Happens(A.Finish(a, c, now));
    }

    /** What the tool answered is handed on, unless it is a result that no longer fits. */
    ghost predicate Delivers(answer: Outcome, o: Outcome, used: nat, limit: nat, size: Json -> nat) {
      if answer.Succeeded? && used + size(answer.result) > limit then o == Outcome.Failed(Tools.LimitExceeded)
      else o == answer
    }

    method Deliver(budget: B.TurnToolBudget, answer: Outcome, size: Json -> nat) returns (o: Outcome)
      modifies budget
      ensures Delivers(answer, o, old(budget.View().bytes), budget.maxResultBytes, size)
      ensures budget.View().bytes == old(budget.View().bytes) + if answer.Succeeded? then size(answer.result) else 0
    {
      o := answer;
      if answer.Succeeded? {
        var fits := budget.TryReserveBytes(size(answer.result));
        if fits.Err? { o := Outcome.Failed(fits.error); }
      }
    }

    /** From the status check to the record of the result. */
    method ExecuteVerified(a: string, row: CallRow, arguments: Json, canonical: Json, budget: B.TurnToolBudget,
                           outside: Outside, now: Time)
      returns (o: Outcome, ghost dispatched: bool)
      requires Valid() && A.In(world, a, A.Verified) && world.submissions[a].call == row.id
      requires world.submissions[a].arguments == arguments && Tools.Canonicalize(nfc, arguments) == Some(canonical)
      requires A.Dispatches(world.log, a) == 0
      modifies this`world, this`history, store`toolCalls, budget
      ensures Continues()
      ensures A.Dispatches(world.log, a) == if dispatched then 1 else 0
      ensures !dispatched ==> Hindered(a, row.id, o, outside, old(|history|))
      ensures dispatched ==> Ran(row.id, canonical, o, old(budget.View().bytes), budget.maxResultBytes, outside)
    {
      ghost var before := history;
      var live := Check(a, row.id);
      assert history[..|before|] == before;
      if !live { return Outcome.Failed(Tools.ApprovalReplayed), false; }
      Meanwhile(a);
      o, dispatched := ExecuteLive(a, row, arguments, canonical, budget, outside, now);
    }

    /** Someone else has taken the row out of this approval's hands, at some moment from step
        `start` on. */
    ghost predicate Overtaken(a: string, call: string, start: nat)
      reads this
    {
      exists n: nat :: start <= n <= |history| && !A.Live(A.Run(tower, A.START, history[..n]), call, a)
    }

    /** An approved call that passed its checks stays away only if it was overtaken or its
        credentials are refused. */
    ghost predicate Hindered(a: string, call: string, o: Outcome, outside: Outside, start: nat)
      reads this
    {
      && o.Failed?
      && (outside.egress == Some(o.error)
          || ((o.error.ApprovalReplayed? || o.error.Internal?) && Overtaken(a, call, start)))
    }

    /** An approved call does not go out for one of these reasons alone, and each has its own
        error. */
    ghost predicate Withheld(a: string, call: string, arguments: Json, hash: string, tool: Registered, permitted: bool,
                             o: Outcome, outside: Outside, start: nat)
      reads this
    {
      var canonical := Tools.Canonicalize(nfc, arguments);
      if canonical.None? then o == Outcome.Failed(Tools.InvalidArguments)
      else if tool.Missing? then o == Outcome.Failed(Tools.Unknown)
      else if tool.Ungated? then o == Outcome.Failed(Tools.Internal)
      else if !permitted then o == Outcome.Failed(Tools.NotPermitted)
      else if tower.hash(Canonical(canonical.value)) != hash then o == Outcome.Failed(Tools.ArgumentsChanged)
      else Hindered(a, call, o, outside, start)
    }

    /** The tool ran: its answer is delivered, and is what the row tells, if it is still there. */
    ghost predicate Ran(call: string, canonical: Json, o: Outcome, used: nat, limit: nat, outside: Outside)
      reads store
    {
      && outside.egress.None? && Delivers(outside.run(canonical), o, used, limit, outside.size)
      && (call in store.toolCalls ==> Tells(store.toolCalls[call], o))
    }

    /** From the running mark to the record of the result. */
    method ExecuteLive(a: string, row: CallRow, arguments: Json, canonical: Json, budget: B.TurnToolBudget,
                       outside: Outside, now: Time)
      returns (o: Outcome, ghost dispatched: bool)
      requires Valid() && A.In(world, a, A.Checked) && world.submissions[a].call == row.id
      requires world.submissions[a].arguments == arguments && Tools.Canonicalize(nfc, arguments) == Some(canonical)
      requires A.Dispatches(world.log, a) == 0
      modifies this`world, this`history, store`toolCalls, budget
      ensures Continues()
      ensures A.Dispatches(world.log, a) == if dispatched then 1 else 0
      ensures !dispatched ==> Hindered(a, row.id, o, outside, old(|history|))
      ensures dispatched ==> Ran(row.id, canonical, o, old(budget.View().bytes), budget.maxResultBytes, outside)
      ensures row.id in old(store.toolCalls) && outside.egress.None? ==> dispatched
    {
      ghost var before := history;
      var running := Begin(a, row.id);
      assert history[..|before|] == before;
      if !running { return Outcome.Failed(Tools.Internal), false; }
      Meanwhile(a);
      o, dispatched := CallTool(a, row, arguments, canonical, budget, outside, now);
    }

    /** Calls the tool, unless the credentials it needs are refused, and records how the call
        ended. */
    method CallTool(a: string, row: CallRow, arguments: Json, canonical: Json, budget: B.TurnToolBudget,
                    outside: Outside, now: Time)
      returns (o: Outcome, ghost dispatched: bool)
      requires Valid() && A.In(world, a, A.Started) && world.submissions[a].call == row.id
      requires world.submissions[a].arguments == arguments && Tools.Canonicalize(nfc, arguments) == Some(canonical)
      modifies this`world, this`history, store`toolCalls, budget
      ensures Continues()
      ensures A.Dispatches(world.log, a) == A.Dispatches(old(world).log, a) + if dispatched then 1 else 0
      ensures dispatched <==> outside.egress.None?
      ensures !dispatched ==> o == Outcome.Failed(outside.egress.value)
      ensures dispatched ==>
        Delivers(outside.run(canonical), o, old(budget.View().bytes), budget.maxResultBytes, outside.size)
      ensures row.id in store.toolCalls ==> Tells(store.toolCalls[row.id], o)
    {
      if outside.egress.Some? {
        RecordFailed(row, arguments, outside.egress.value, now);
        return Outcome.Failed(outside.egress.value), false;
      }
      var answer := Dispatch(a, canonical, outside.run);
      o := Deliver(budget, answer, outside.size);
      Meanwhile(a);
      Finish(a, row.id, o, now);
      dispatched := true;
    }

    /** Executes an approved call: hash, status and running mark are separate steps, and any of
        them may find that others have been faster. `dispatched` is what the tool was called
        with, if it was. */
    method ExecuteApproved(a: string, row: CallRow, arguments: Json, hash: string, tool: Registered, permitted: bool,
                           budget: B.TurnToolBudget, outside: Outside, now: Time)
      returns (o: Outcome, ghost dispatched: Option<Json>)
      requires Valid() && A.In(world, a, A.Won) && world.submissions[a].call == row.id
      requires world.submissions[a].arguments == arguments && world.submissions[a].hash == hash
      modifies this`world, this`history, store`toolCalls, budget
      ensures Continues()
      ensures dispatched.Some? ==>
        && tool.Gated? && permitted
        && Tools.Canonicalize(nfc, arguments) == dispatched && tower.hash(Canonical(dispatched.value)) == hash
        && Ran(row.id, dispatched.value, o, old(budget.View().bytes), budget.maxResultBytes, outside)
      ensures A.Dispatches(world.log, a) == if dispatched.Some? then 1 else 0
      ensures dispatched.None? ==>
        Withheld(a, row.id, arguments, hash, tool, permitted, o, outside, old(|history|))
    {
      A.ReachedInv(tower, history);
      assert A.SubmissionOk(world, a);
      dispatched := None;
      var canonical := Tools.Canonicalize(nfc, arguments);
      if canonical.None? { return Outcome.Failed(Tools.InvalidArguments), None; }
      if tool.Missing? { return Outcome.Failed(Tools.Unknown), None; }
      if tool.Ungated? { return Outcome.Failed(Tools.Internal), None; }
      if !permitted {
        RecordFailed(row, arguments, Tools.NotPermitted, now);
        return Outcome.Failed(Tools.NotPermitted), None;
      }
      var same := Verify(a, row.id, canonical.value, hash, now);
      if !same { return Outcome.Failed(Tools.ArgumentsChanged), None; }
      Meanwhile(a);
      ghost var out;
      o, out := ExecuteVerified(a, row, arguments, canonical.value, budget, outside, now);
      dispatched := if out then canonical else None;
    }

    // -------------------------------------------------------------- executing an ungated call

    /** Executes a call that needs no approval. A gated tool never passes here, and the row it
        may have is left as it is; the budget is asked before anything goes out, and the result
        is handed on only if its size still fits. */
    method Execute(budget: B.TurnToolBudget, row: CallRow, raw: Json, tool: Registered, permitted: bool, expired: bool,
                   outside: Outside, now: Time)
      returns (o: Outcome, ghost dispatched: bool)
      requires Valid()
      modifies this`world, this`history, store`toolCalls, budget
      ensures Continues() && world.log == old(world).log
      ensures dispatched <==>
        && tool.Ungated? && permitted && outside.egress.None? && Tools.Canonicalize(nfc, raw).Some?
        && B.ReserveCall(old(budget.View()), expired).1.Ok?
        && B.ReserveSignature(B.ReserveCall(old(budget.View()), expired).0, row.name, Digest(raw)).1.Ok?
      ensures dispatched ==> Ran(row.id, Tools.Canonicalize(nfc, raw).value, o, old(budget.View().bytes),
                                 budget.maxResultBytes, outside)
      ensures o.Succeeded? ==>
        dispatched && budget.View().bytes == old(budget.View().bytes) + outside.size(o.result) <= budget.maxResultBytes
      ensures tool.Missing? || (tool.Gated? && permitted) ==> store.toolCalls == old(store.toolCalls)
      ensures !dispatched ==> budget.View().bytes == old(budget.View().bytes)
      ensures !dispatched ==>
        if Tools.Canonicalize(nfc, raw).None? then o == Outcome.Failed(Tools.InvalidArguments)
        else if tool.Missing? then o == Outcome.Failed(Tools.Unknown)
        else if !permitted then o == Outcome.Failed(Tools.NotPermitted)
        else if tool.Gated? then o == Outcome.Failed(Tools.ApprovalRequired)
        else o == Outcome.Failed(if expired then Tools.Timeout else Tools.LimitExceeded)
             || (o.Failed? && outside.egress == Some(o.error))
    {
      dispatched := false;
      var canonical := Tools.Canonicalize(nfc, raw);
      if canonical.None? { return Outcome.Failed(Tools.InvalidArguments), false; }
      if tool.Missing? { return Outcome.Failed(Tools.Unknown), false; }
      if !permitted {
        RecordFailed(row, raw, Tools.NotPermitted, now);
        return Outcome.Failed(Tools.NotPermitted), false;
      }
      if tool.Gated? { return Outcome.Failed(Tools.ApprovalRequired), false; }
      var counted := budget.TryReserveCall(expired);
      if counted.Err? {
        RecordFailed(row, raw, counted.error, now);
        return Outcome.Failed(counted.error), false;
      }
      var signed := budget.TryReserveSignature(row.name, digest(canonical.value));
      if signed.Err? {
        RecordFailed(row, raw, signed.error, now);
        return Outcome.Failed(signed.error), false;
      }
      o, dispatched := RunUngated(budget, row, raw, outside, now);
    }

    /** Records the call, runs the tool, unless the credentials it needs are refused, and hands
        its result on if the size still fits. */
    method RunUngated(budget: B.TurnToolBudget, row: CallRow, raw: Json, outside: Outside, now: Time)
      returns (o: Outcome, ghost dispatched: bool)
      requires Valid() && Tools.Canonicalize(nfc, raw).Some?
      modifies this`world, this`history, store`toolCalls, budget
      ensures Continues() && world.log == old(world).log
      ensures dispatched <==> outside.egress.None?
      ensures dispatched ==> Ran(row.id, Tools.Canonicalize(nfc, raw).value, o, old(budget.View().bytes),
                                 budget.maxResultBytes, outside)
      ensures o.Succeeded? ==>
        dispatched && budget.View().bytes == old(budget.View().bytes) + outside.size(o.result) <= budget.maxResultBytes
      ensures !dispatched ==>
        budget.View().bytes == old(budget.View().bytes) && o == Outcome.Failed(outside.egress.value)
      ensures row.id in store.toolCalls && Tells(store.toolCalls[row.id], o)
    {
      Record(row, raw, false);
      if outside.egress.Some? {
        RecordFailed(row, raw, outside.egress.value, now);
        return Outcome.Failed(outside.egress.value), false;
      }
      o := Deliver(budget, outside.run(Tools.Canonicalize(nfc, raw).value), outside.size);
      dispatched := true;
      Complete(row.id, CompletionOf(o, None), now);
    }

    function Digest(raw: Json): string {
      match Tools.Canonicalize(nfc, raw) case Some(v) => digest(v) case None => ""
    }
  }

  predicate OfUpstream(e: Tools.ToolError) {
    e.UpstreamUnavailable? || e.UpstreamStatus?
  }

  /** Different failures are told apart by their codes, but for the two of an upstream service. */
  lemma CodesTellApart(a: Tools.ToolError, b: Tools.ToolError)
    requires CodeOf(a) == CodeOf(b)
    ensures a == b || (OfUpstream(a) && OfUpstream(b))
  {
  }
}
