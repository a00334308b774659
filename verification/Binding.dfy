/** What an approval binds: the arguments a decided call runs with, even when the stored ones
    are edited behind its back. */
module Binding {
  import opened Json
  import opened Types
  import opened Store
  import opened Calls
  import opened Approval
  import Tools

  // ---------------------------------------------------------------- what is bound to the hash

  /** Normalization, reading back, and a hash without collisions. */
  ghost predicate Sound(t: Tower) {
    Tools.IsNormalizer(t.nfc) && ReadsBack(t.parse) && forall x, y :: t.hash(x) == t.hash(y) ==> x == y
  }

  ghost predicate Bound(t: Tower, w: World, e: nat, hash: string) {
    && e in w.parked && hash == t.hash(Canonical(w.parked[e]))
    && Tools.Canonicalize(t.nfc, w.parked[e]) == Some(w.parked[e])
  }

  ghost predicate RowBound(t: Tower, w: World, k: string, honest: bool) {
    k in w.rows && k in w.epochs ==>
      Bound(t, w, w.epochs[k], w.rows[k].argumentsHash)
      && (honest ==> w.rows[k].arguments == w.parked[w.epochs[k]])
  }

  ghost predicate SubmissionBound(t: Tower, w: World, a: string, honest: bool) {
    a in w.submissions ==>
      var s := w.submissions[a];
      && Bound(t, w, s.seen, s.hash)
      && (honest ==> s.arguments == w.parked[s.seen])
      && (s.phase in {Verified, Checked, Started} ==> Tools.Canonicalize(t.nfc, s.arguments) == Some(w.parked[s.seen]))
  }

  /** What is dispatched is what was recorded with the row the decision was made on. */
  predicate Faithful(log: Log, parked: map<nat, Json>) {
    match log
    case Nil => true
    case Then(past, last) =>
      Faithful(past, parked) && (last.Dispatched? ==> last.seen in parked && last.arguments == parked[last.seen])
  }

  predicate NoMismatch(log: Log) {
    match log case Nil => true case Then(past, last) => NoMismatch(past) && !last.Mismatched?
  }

  /** `honest`: nobody has touched the stored arguments. */
  ghost predicate HashInv(t: Tower, w: World, honest: bool) {
    && (forall k {:trigger RowBound(t, w, k, honest)} :: RowBound(t, w, k, honest))
    && (forall a {:trigger SubmissionBound(t, w, a, honest)} :: SubmissionBound(t, w, a, honest))
    && (forall k | k in w.rows :: k in w.epochs)
    && (forall e | e in w.parked :: e < w.next)
    && Faithful(w.log, w.parked) && (honest ==> NoMismatch(w.log))
  }

  lemma {:induction false} FaithfulGrows(log: Log, parked: map<nat, Json>, e: nat, v: Json)
    requires Faithful(log, parked) && e !in parked
    ensures Faithful(log, parked[e := v])
  {
    if log.Then? { FaithfulGrows(log.past, parked, e, v); }
  }

  /** Rewriting rows without touching arguments or hashes. */
  ghost predicate KeepsArguments(before: Rows, after: Rows) {
    after.Keys == before.Keys && forall k | k in after ::
      after[k].arguments == before[k].arguments && after[k].argumentsHash == before[k].argumentsHash
  }

  /** A submission that keeps its arguments and is verified only if it was before. */
  predicate Tame(before: Submission, after: Submission) {
    && after == before.(won := after.won, phase := after.phase)
    && (after.phase in {Verified, Checked, Started} ==> before.phase in {Verified, Checked, Started})
  }

  /** Steps that record nothing new, dispatch nothing and refuse no hash. */
  ghost predicate Quiet(w: World, v: World) {
    && KeepsArguments(w.rows, v.rows) && v.epochs == w.epochs && v.parked == w.parked && v.next == w.next
    && (v.log == w.log || (v.log.Then? && v.log.past == w.log && !v.log.event.Dispatched? && !v.log.event.Mismatched?))
    && forall a | a in v.submissions :: a in w.submissions && Tame(w.submissions[a], v.submissions[a])
  }

  lemma QuietStepKeepsHashes(t: Tower, w: World, v: World, honest: bool)
    requires HashInv(t, w, honest) && Quiet(w, v)
    ensures HashInv(t, v, honest)
  {
    forall k ensures RowBound(t, v, k, honest) { assert RowBound(t, w, k, honest); }
    forall a ensures SubmissionBound(t, v, a, honest) { assert SubmissionBound(t, w, a, honest); }
  }

  /** A row recorded under a new identifier is bound to its own arguments. */
  lemma NewRowKeepsHashes(t: Tower, w: World, row: CallRow, arguments: Json, honest: bool)
    requires HashInv(t, w, honest) && row.id !in w.rows && Tools.Canonicalize(t.nfc, arguments) == Some(arguments)
    requires row.argumentsHash == t.hash(Canonical(arguments)) && row.arguments == arguments
    ensures HashInv(t, w.(rows := w.rows[row.id := row], epochs := w.epochs[row.id := w.next],
                          parked := w.parked[w.next := arguments], next := w.next + 1), honest)
  {
    var v := w.(rows := w.rows[row.id := row], epochs := w.epochs[row.id := w.next],
                parked := w.parked[w.next := arguments], next := w.next + 1);
    FaithfulGrows(w.log, w.parked, w.next, arguments);
    forall k ensures RowBound(t, v, k, honest) { assert RowBound(t, w, k, honest); }
    forall a ensures SubmissionBound(t, v, a, honest) { assert SubmissionBound(t, w, a, honest); }
  }

  lemma RecordKeepsHashes(t: Tower, w: World, row: CallRow, raw: Json, gated: bool, honest: bool)
    requires Sound(t) && HashInv(t, w, honest)
    ensures HashInv(t, DoRecord(t, w, row, raw, gated), honest)
  {
    var canonical := Tools.Canonicalize(t.nfc, raw);
    if canonical.Some? && row.id !in w.rows {
      Tools.CanonicalizeTwice(t.nfc, raw);
      NewRowKeepsHashes(t, w, RowFor(t, row, canonical.value, gated), canonical.value, honest);
    } else {
      assert DoRecord(t, w, row, raw, gated) == w;
    }
  }

  lemma SubmitKeepsHashes(t: Tower, w: World, a: string, owner: Owner, call: string, d: Decision, now: Time,
                          honest: bool)
    requires HashInv(t, w, honest)
    ensures HashInv(t, DoSubmit(w, a, owner, call, d, now), honest)
  {
    var v := DoSubmit(w, a, owner, call, d, now);
    if a !in w.submissions && call in w.rows && call in w.epochs {
      if w.rows[call].owner == owner && Overdue(w.rows[call], now) {
        QuietStepKeepsHashes(t, w, v, honest);
      } else {
        assert RowBound(t, w, call, honest);
        forall k ensures RowBound(t, v, k, honest) { assert RowBound(t, w, k, honest); }
        forall b ensures SubmissionBound(t, v, b, honest) { assert SubmissionBound(t, w, b, honest); }
      }
    }
  }

  /** Equal hashes mean equal canonical arguments; untouched arguments hash as they did. */
  lemma HashesAgree(t: Tower, w: World, a: string, honest: bool)
    requires Sound(t) && HashInv(t, w, honest) && a in w.submissions
    ensures var s := w.submissions[a]; var again := Tools.Canonicalize(t.nfc, s.arguments);
      && s.seen in w.parked
      && (again.Some? && t.hash(Canonical(again.value)) == s.hash ==> again.value == w.parked[s.seen])
      && (honest ==> again.Some? && t.hash(Canonical(again.value)) == s.hash)
  {
    assert SubmissionBound(t, w, a, honest);
    var s := w.submissions[a];
    var again := Tools.Canonicalize(t.nfc, s.arguments);
    if again.Some? { CanonicalTextDeterminesValue(again.value, w.parked[s.seen]); }
  }

  /** A hash that agrees verifies the submission. */
  lemma VerifiedKeepsHashes(t: Tower, w: World, a: string, honest: bool)
    requires HashInv(t, w, honest) && a in w.submissions && w.submissions[a].seen in w.parked
    requires Tools.Canonicalize(t.nfc, w.submissions[a].arguments) == Some(w.parked[w.submissions[a].seen])
    ensures HashInv(t, Advance(w, a, Verified), honest)
  {
    var v := Advance(w, a, Verified);
    forall k ensures RowBound(t, v, k, honest) { assert RowBound(t, w, k, honest); }
    forall b ensures SubmissionBound(t, v, b, honest) { assert SubmissionBound(t, w, b, honest); }
  }

  lemma EndedKeepsHashes(t: Tower, w: World, a: string, rows: Rows, honest: bool)
    requires HashInv(t, w, honest) && a in w.submissions && KeepsArguments(w.rows, rows)
    ensures HashInv(t, Advance(w.(rows := rows), a, Gone), honest)
  {
    AdvanceIsQuiet(w, rows, a, Gone);
    QuietStepKeepsHashes(t, w, Advance(w.(rows := rows), a, Gone), honest);
  }

  lemma VerifyKeepsHashes(t: Tower, w: World, a: string, permitted: bool, now: Time, honest: bool)
    requires Sound(t) && HashInv(t, w, honest)
    ensures HashInv(t, DoVerify(t, w, a, permitted, now), honest)
  {
    if In(w, a, Won) {
      HashesAgree(t, w, a, honest);
      var s := w.submissions[a];
      var again := Tools.Canonicalize(t.nfc, s.arguments);
      if again.None? {
        EndedKeepsHashes(t, w, a, w.rows, honest);
      } else if permitted && t.hash(Canonical(again.value)) == s.hash {
        VerifiedKeepsHashes(t, w, a, honest);
      } else {
        var code := if permitted then "tool_arguments_changed" else "tool_not_permitted";
        var approval := if permitted then Some(a) else None;
        var rows := CompleteCall(w.rows, s.call, Completion(ToolCallStatus.Denied, None, Some(code), approval), now).0;
        EndedKeepsHashes(t, w, a, rows, honest);
        var v := Advance(w.(rows := rows), a, Gone);
        if permitted { MismatchKeepsHashes(t, v, s.seen, a, honest); }
      }
    }
  }

  lemma MismatchKeepsHashes(t: Tower, w: World, seen: nat, a: string, honest: bool)
    requires HashInv(t, w, honest) && !honest
    ensures HashInv(t, Log1(w, Mismatched(seen, a)), honest)
  {
    var v := Log1(w, Mismatched(seen, a));
    forall k ensures RowBound(t, v, k, honest) { assert RowBound(t, w, k, honest); }
    forall b ensures SubmissionBound(t, v, b, honest) { assert SubmissionBound(t, w, b, honest); }
  }

  lemma DispatchKeepsHashes(t: Tower, w: World, a: string, honest: bool)
    requires HashInv(t, w, honest)
    ensures HashInv(t, DoDispatch(t, w, a), honest)
  {
    if In(w, a, Started) {
      var v := DoDispatch(t, w, a);
      assert SubmissionBound(t, w, a, honest);
      forall k ensures RowBound(t, v, k, honest) { assert RowBound(t, w, k, honest); }
      forall b ensures SubmissionBound(t, v, b, honest) { assert SubmissionBound(t, w, b, honest); }
    }
  }

  lemma AllowIsQuiet(w: World, a: string)
    ensures Quiet(w, DoAllow(w, a))
  {
  }

  /** Rewriting rows while a submission changes phase. */
  lemma AdvanceIsQuiet(w: World, rows: Rows, a: string, phase: Phase)
    requires KeepsArguments(w.rows, rows) && a in w.submissions
    requires phase in {Verified, Checked, Started} ==> w.submissions[a].phase in {Verified, Checked, Started}
    ensures Quiet(w, Advance(w.(rows := rows), a, phase))
  {
  }

  lemma DenyIsQuiet(w: World, a: string, now: Time)
    ensures Quiet(w, DoDeny(w, a, now))
  {
    if In(w, a, Loaded) {
      var v := Refuse(w, w.submissions[a].call, now);
      RefuseIsQuiet(w, w.submissions[a].call, now);
      AdvanceIsQuiet(v, v.rows, a, Gone);
    }
  }

  lemma CheckIsQuiet(w: World, a: string)
    ensures Quiet(w, DoCheck(w, a))
  {
    if In(w, a, Verified) {
      AdvanceIsQuiet(w, w.rows, a, Checked);
      AdvanceIsQuiet(w, w.rows, a, Gone);
    }
  }

  lemma BeginIsQuiet(w: World, a: string)
    ensures Quiet(w, DoBegin(w, a))
  {
    if In(w, a, Checked) {
      AdvanceIsQuiet(w, w.rows, a, Gone);
      AdvanceIsQuiet(w, MarkRunning(w.rows, w.submissions[a].call, Some(a)).0, a, Started);
    }
  }

  lemma EndIsQuiet(w: World, call: string, c: Completion, now: Time)
    ensures Quiet(w, End(w, call, c, now))
  {
  }

  lemma RefuseIsQuiet(w: World, call: string, now: Time)
    ensures Quiet(w, Refuse(w, call, now))
  {
  }

  lemma SweepIsQuiet(w: World, now: Time)
    ensures Quiet(w, DoSweep(w, now))
  {
  }

  /** The steps that neither record, read, verify, dispatch, forget nor tamper. */
  lemma OtherStepsAreQuiet(t: Tower, w: World, step: Action)
    requires !step.Record? && !step.Submit? && !step.Verify? && !step.Dispatch? && !step.Forget? && !step.Tamper?
    ensures Quiet(w, Act(t, w, step))
  {
    match step
    case Allow(a) => AllowIsQuiet(w, a);
    case Deny(a, now) => DenyIsQuiet(w, a, now);
    case Check(a) => CheckIsQuiet(w, a);
    case Begin(a) => BeginIsQuiet(w, a);
    case Finish(a, c, now) =>
      if a in w.submissions { EndIsQuiet(w, w.submissions[a].call, c.(approvalId := Some(a)), now); }
    case Stop(call, now) => RefuseIsQuiet(w, call, now);
    case Sweep(now) => SweepIsQuiet(w, now);
    case EndOther(call, c, now) => EndIsQuiet(w, call, c.(approvalId := None), now);
  }

  lemma ForgetKeepsHashes(t: Tower, w: World, calls: set<string>, honest: bool)
    requires HashInv(t, w, honest)
    ensures HashInv(t, DoForget(w, calls), honest)
  {
    var v := DoForget(w, calls);
    forall k ensures RowBound(t, v, k, honest) { assert RowBound(t, w, k, honest); }
    forall a ensures SubmissionBound(t, v, a, honest) { assert SubmissionBound(t, w, a, honest); }
  }

  lemma TamperKeepsHashes(t: Tower, w: World, call: string, arguments: Json)
    requires HashInv(t, w, false)
    ensures HashInv(t, DoTamper(w, call, arguments), false)
  {
    var v := DoTamper(w, call, arguments);
    forall k ensures RowBound(t, v, k, false) { assert RowBound(t, w, k, false); }
    forall a ensures SubmissionBound(t, v, a, false) { assert SubmissionBound(t, w, a, false); }
  }

  lemma StepKeepsHashes(t: Tower, w: World, step: Action, honest: bool)
    requires Sound(t) && HashInv(t, w, honest) && (honest ==> !step.Tamper?)
    ensures HashInv(t, Act(t, w, step), honest)
  {
    match step
    case Record(row, raw, gated) => RecordKeepsHashes(t, w, row, raw, gated, honest);
    case Submit(a, owner, call, d, now) => SubmitKeepsHashes(t, w, a, owner, call, d, now, honest);
    case Verify(a, permitted, now) => VerifyKeepsHashes(t, w, a, permitted, now, honest);
    case Dispatch(a) => DispatchKeepsHashes(t, w, a, honest);
    case Forget(calls) => ForgetKeepsHashes(t, w, calls, honest);
    case Tamper(call, arguments) => TamperKeepsHashes(t, w, call, arguments);
    case _ =>
      OtherStepsAreQuiet(t, w, step);
      QuietStepKeepsHashes(t, w, Act(t, w, step), honest);
  }

  lemma {:induction false} RunKeepsHashes(t: Tower, w: World, steps: seq<Action>, honest: bool)
    requires Sound(t) && HashInv(t, w, honest) && (honest ==> forall i | 0 <= i < |steps| :: !steps[i].Tamper?)
    ensures HashInv(t, Run(t, w, steps), honest)
    decreases |steps|
  {
    if steps != [] {
      StepKeepsHashes(t, w, steps[0], honest);
      RunKeepsHashes(t, Act(t, w, steps[0]), steps[1..], honest);
    }
  }

  /** In every interleaving, whatever is done to the stored arguments, an approved call runs
      with exactly the canonical arguments recorded when it was parked. */
  lemma HashBindsArguments(t: Tower, steps: seq<Action>)
    requires Sound(t)
    ensures var w := Run(t, START, steps); Faithful(w.log, w.parked)
  {
    RunKeepsHashes(t, START, steps, false);
  }

  /** Untouched rows never come back with changed arguments. */
  lemma UntouchedRowsVerify(t: Tower, steps: seq<Action>)
    requires Sound(t) && forall i | 0 <= i < |steps| :: !steps[i].Tamper?
    ensures NoMismatch(Run(t, START, steps).log)
  {
    RunKeepsHashes(t, START, steps, true);
  }

  /** An edited row that is decided is read with what was edited into it, and approved. */
  lemma TamperedIsWon(t: Tower, w: World, call: string, edited: Json, a: string, owner: Owner, d: Decision, now: Time)
    returns (won: World)
    requires call in w.rows && call in w.epochs && a !in w.submissions
    requires MayDecide(w.rows[call].(arguments := edited), owner, d, now)
    ensures won == Act(t, Act(t, Act(t, w, Tamper(call, edited)), Submit(a, owner, call, d, now)), Allow(a))
    ensures In(won, a, Won) && won.submissions[a].call == call && won.submissions[a].arguments == edited
    ensures won.submissions[a].hash == w.rows[call].argumentsHash && won.submissions[a].seen == w.epochs[call]
    ensures call in won.rows
  {
    var row := w.rows[call].(arguments := edited);
    AdmitsExactly(row, owner, d, now);
    var tampered := Act(t, w, Tamper(call, edited));
    assert tampered.rows[call] == row;
    var read := Act(t, tampered, Submit(a, owner, call, d, now));
    won := Act(t, read, Allow(a));
  }

  lemma ChangedIsDenied(t: Tower, w: World, a: string, now: Time)
    requires In(w, a, Won) && w.submissions[a].call in w.rows
    requires Tools.Canonicalize(t.nfc, w.submissions[a].arguments).Some?
    requires t.hash(Canonical(Tools.Canonicalize(t.nfc, w.submissions[a].arguments).value)) != w.submissions[a].hash
    ensures var s, end := w.submissions[a], Act(t, w, Verify(a, true, now));
      && Has(end.log, Mismatched(s.seen, a)) && In(end, a, Gone)
      && s.call in end.rows && end.rows[s.call].status == ToolCallStatus.Denied
      && end.rows[s.call].errorCode == Some("tool_arguments_changed")
  {
  }

  /** Tampering is noticed: when arguments edited before the decision hash to something else, the
      call that is approved with them is denied as changed. */
  lemma TamperedIsRefused(t: Tower, w: World, call: string, edited: Json, a: string, owner: Owner, d: Decision,
                          now: Time)
    requires call in w.rows && call in w.epochs && a !in w.submissions
    requires MayDecide(w.rows[call].(arguments := edited), owner, d, now)
    requires Tools.Canonicalize(t.nfc, edited).Some?
    requires t.hash(Canonical(Tools.Canonicalize(t.nfc, edited).value)) != w.rows[call].argumentsHash
    ensures var read := Act(t, Act(t, w, Tamper(call, edited)), Submit(a, owner, call, d, now));
      var end := Act(t, Act(t, read, Allow(a)), Verify(a, true, now));
      && Has(end.log, Mismatched(w.epochs[call], a)) && In(end, a, Gone)
      && call in end.rows && end.rows[call].status == ToolCallStatus.Denied
      && end.rows[call].errorCode == Some("tool_arguments_changed")
  {
    var won := TamperedIsWon(t, w, call, edited, a, owner, d, now);
    ChangedIsDenied(t, won, a, now);
  }
}
