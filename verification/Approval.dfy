/** The approval protocol: parked calls, decisions, and executions, in every interleaving. */
module Approval {
  import opened Json
  import opened Types
  import opened Store
  import opened Calls
  import Tools

  // ---------------------------------------------------------------- the world
  //
  // Each call on the store is one step. Between any two steps of one submission, steps of
  // any other submission, of a stop, of a sweep or of a deletion may happen.

  /** Normalization of strings, the hash of a text, and the reader of stored arguments. */
  datatype Tower = Tower(nfc: string -> string, hash: string -> string, parse: string -> Option<Json>)

  /** What has happened, latest last. A row's epoch tells it from rows recorded under the
      same identifier before or after. */
  datatype Event =
    | Granted(epoch: nat, approval: string)
    | Refused(epoch: nat)
    | Lapsed(epochs: set<nat>)
    | Dispatched(seen: nat, won: nat, approval: string, arguments: Json)
    | Mismatched(seen: nat, approval: string)

  datatype Log = Nil | Then(past: Log, event: Event)

  datatype Phase = Loaded | Won | Verified | Checked | Started | Gone

  /** One submission that allows a call, and the execution it leads to. `seen` is the epoch
      of the row it read, `won` that of the row it approved. */
  datatype Submission = Submission(call: string, arguments: Json, hash: string, seen: nat, won: nat, phase: Phase)

  datatype World = World(rows: Rows, epochs: map<string, nat>, next: nat, parked: map<nat, Json>,
                         submissions: map<string, Submission>, log: Log)

  const START := World(map[], map[], 0, map[], map[], Nil)

  /** What a caller sends with its decision. */
  datatype Decision = Decision(argumentsHash: string, typedConfirm: Option<string>)

  datatype Action =
    | Record(row: CallRow, raw: Json, gated: bool)
    | Submit(approval: string, owner: Owner, call: string, decision: Decision, now: Time)
    | Allow(approval: string)
    | Deny(approval: string, now: Time)
    | Verify(approval: string, permitted: bool, now: Time)
    | Check(approval: string)
    | Begin(approval: string)
    | Dispatch(approval: string)
    | Finish(approval: string, completion: Completion, now: Time)
    | Stop(call: string, now: Time)
    | Sweep(now: Time)
    | EndOther(call: string, completion: Completion, now: Time)
    | Forget(calls: set<string>)
    | Tamper(call: string, arguments: Json)

  /** The statuses calls end with. */
  predicate Final(s: ToolCallStatus) {
    s == Succeeded || s == Failed || s == ToolCallStatus.Denied
  }

  // ---------------------------------------------------------------- steps

  /** The row a call is recorded as: arguments go in as text and are read back. */
  ghost function RowFor(t: Tower, row: CallRow, arguments: Json, gated: bool): CallRow {
    var text := Canonical(arguments);
    row.(arguments := match t.parse(text) case Some(v) => v case None => Null,
         argumentsHash := t.hash(text),
         status := if gated then AwaitingApproval else ToolCallStatus.Running,
         expiresAt := if gated then row.expiresAt else None,
         approvalId := None, result := None, errorCode := None, completedAt := None)
  }

  /** What must be typed to confirm. */
  function Expected(row: CallRow): string {
    if row.confirmField.Some? && row.arguments.Obj? && row.confirmField.value in row.arguments.fields
       && row.arguments.fields[row.confirmField.value].Str?
    then row.arguments.fields[row.confirmField.value].text else ""
  }

  /** The checks a submission makes on the row it reads. */
  predicate Admits(row: CallRow, owner: Owner, d: Decision, now: Time) {
    && row.owner == owner && row.status == AwaitingApproval && !Overdue(row, now)
    && row.argumentsHash == d.argumentsHash
    && (row.approvalKind == Some("typed_confirm") ==> row.confirmField.Some? && d.typedConfirm == Some(Expected(row)))
  }

  /** `typed` is the text under `field`, or nothing when there is no text under it. */
  ghost predicate Confirms(arguments: Json, field: string, typed: string) {
    && (forall s | arguments.Obj? && field in arguments.fields && arguments.fields[field] == Str(s) :: typed == s)
    && ((forall s :: !(arguments.Obj? && field in arguments.fields && arguments.fields[field] == Str(s)))
        ==> typed == "")
  }

  /** Who may decide about a row, and how: its owner, while it awaits a decision and its window
      is open, about the arguments it holds, confirming them in writing if it asks for that. */
  ghost predicate MayDecide(row: CallRow, owner: Owner, d: Decision, now: Time) {
    && row.owner == owner && row.status == AwaitingApproval
    && (forall end | row.expiresAt == Some(end) :: now <= end)
    && row.argumentsHash == d.argumentsHash
    && (row.approvalKind == Some("typed_confirm") ==>
          && row.confirmField.Some? && d.typedConfirm.Some?
          && Confirms(row.arguments, row.confirmField.value, d.typedConfirm.value))
  }

  /** The checks let through exactly those who may decide. */
  lemma AdmitsExactly(row: CallRow, owner: Owner, d: Decision, now: Time)
    ensures Admits(row, owner, d, now) <==> MayDecide(row, owner, d, now)
  {
    if row.confirmField.Some? && row.arguments.Obj? && row.confirmField.value in row.arguments.fields {
      var v := row.arguments.fields[row.confirmField.value];
      if v.Str? { assert v == Str(v.text); }
    }
  }

  function Advance(w: World, a: string, phase: Phase): World
    requires a in w.submissions
  {
    w.(submissions := w.submissions[a := w.submissions[a].(phase := phase)])
  }

  function Log1(w: World, e: Event): World {
    w.(log := Then(w.log, e))
  }

  predicate In(w: World, a: string, phase: Phase) {
    a in w.submissions && w.submissions[a].phase == phase
  }

  ghost function DoRecord(t: Tower, w: World, row: CallRow, raw: Json, gated: bool): World {
    match Tools.Canonicalize(t.nfc, raw)
    case None => w
    case Some(arguments) =>
      if row.id in w.rows then w.(rows := RecordCall(w.rows, RowFor(t, row, arguments, gated)))
      else w.(rows := RecordCall(w.rows, RowFor(t, row, arguments, gated)),
              epochs := w.epochs[row.id := w.next], parked := w.parked[w.next := arguments], next := w.next + 1)
  }

  /** Approval identifiers are fresh: one that is taken is never submitted again. A row past
      its window is expired on the way out. */
  function DoSubmit(w: World, a: string, owner: Owner, call: string, d: Decision, now: Time): World {
    if a in w.submissions || call !in w.rows || call !in w.epochs then w
    else
      var row := w.rows[call];
      if row.owner == owner && Overdue(row, now) then DoSweep(w, now)
      else if !Admits(row, owner, d, now) then w
      else w.(submissions := w.submissions[a :=
                Submission(call, row.arguments, row.argumentsHash, w.epochs[call], w.epochs[call], Loaded)])
  }

  function DoAllow(w: World, a: string): World {
    if !In(w, a, Loaded) then w
    else
      var s := w.submissions[a];
      var (rows, r) := MarkApproved(w.rows, s.call, a);
      if r.Err? || s.call !in w.epochs then Advance(w, a, Gone)
      else
        var e := w.epochs[s.call];
        Log1(w.(rows := rows, submissions := w.submissions[a := s.(won := e, phase := Won)]), Granted(e, a))
  }

  function Refuse(w: World, call: string, now: Time): World {
    var (rows, r) := MarkDenied(w.rows, call, now);
    if r.Err? || call !in w.epochs then w else Log1(w.(rows := rows), Refused(w.epochs[call]))
  }

  function DoDeny(w: World, a: string, now: Time): World {
    if !In(w, a, Loaded) then w else Advance(Refuse(w, w.submissions[a].call, now), a, Gone)
  }

  function End(w: World, call: string, c: Completion, now: Time): World {
    w.(rows := CompleteCall(w.rows, call, c, now).0)
  }

  /** Scopes and policy are checked again, and the arguments are hashed again. */
  ghost function DoVerify(t: Tower, w: World, a: string, permitted: bool, now: Time): World {
    if !In(w, a, Won) then w
    else
      var s := w.submissions[a];
      match Tools.Canonicalize(t.nfc, s.arguments)
      case None => Advance(w, a, Gone)
      case Some(arguments) =>
        if !permitted then
          var c := Completion(ToolCallStatus.Denied, None, Some("tool_not_permitted"), None);
          End(Advance(w, a, Gone), s.call, c, now)
        else if t.hash(Canonical(arguments)) != s.hash then
          Log1(End(Advance(w, a, Gone), s.call,
                   Completion(ToolCallStatus.Denied, None, Some("tool_arguments_changed"), Some(a)), now),
               Mismatched(s.seen, a))
        else Advance(w, a, Verified)
  }

  /** The row is approved, and under this approval. */
  predicate Live(w: World, call: string, a: string) {
    call in w.rows && w.rows[call].status == ToolCallStatus.Approved && w.rows[call].approvalId == Some(a)
  }

  function DoCheck(w: World, a: string): World {
    if !In(w, a, Verified) then w
    else
      var call := w.submissions[a].call;
      if Live(w, call, a) then Advance(w, a, Checked) else Advance(w, a, Gone)
  }

  function DoBegin(w: World, a: string): World {
    if !In(w, a, Checked) then w
    else
      var (rows, r) := MarkRunning(w.rows, w.submissions[a].call, Some(a));
      if r.Err? then Advance(w, a, Gone) else Advance(w.(rows := rows), a, Started)
  }

  ghost function DoDispatch(t: Tower, w: World, a: string): World {
    if !In(w, a, Started) then w
    else
      var s := w.submissions[a];
      match Tools.Canonicalize(t.nfc, s.arguments)
      case None => Advance(w, a, Gone)
      case Some(arguments) => Log1(Advance(w, a, Gone), Dispatched(s.seen, s.won, a, arguments))
  }

  function DoSweep(w: World, now: Time): World {
    Log1(w.(rows := ExpireCalls(w.rows, now)),
         Lapsed(set k | k in w.rows && k in w.epochs && Overdue(w.rows[k], now) :: w.epochs[k]))
  }

  function DoFinish(w: World, a: string, c: Completion, now: Time): World {
    if In(w, a, Gone) && Final(c.status) then End(w, w.submissions[a].call, c.(approvalId := Some(a)), now) else w
  }

  function DoEndOther(w: World, call: string, c: Completion, now: Time): World {
    if Final(c.status) then End(w, call, c.(approvalId := None), now) else w
  }

  function DoForget(w: World, calls: set<string>): World {
    w.(rows := w.rows - calls, epochs := w.epochs - calls)
  }

  /** Someone edits the stored arguments behind the store's back. */
  function DoTamper(w: World, call: string, arguments: Json): World {
    if call in w.rows then w.(rows := w.rows[call := w.rows[call].(arguments := arguments)]) else w
  }

  ghost function Act(t: Tower, w: World, step: Action): World {
    match step
    case Record(row, raw, gated) => DoRecord(t, w, row, raw, gated)
    case Submit(a, owner, call, d, now) => DoSubmit(w, a, owner, call, d, now)
    case Allow(a) => DoAllow(w, a)
    case Deny(a, now) => DoDeny(w, a, now)
    case Verify(a, permitted, now) => DoVerify(t, w, a, permitted, now)
    case Check(a) => DoCheck(w, a)
    case Begin(a) => DoBegin(w, a)
    case Dispatch(a) => DoDispatch(t, w, a)
    case Finish(a, c, now) => DoFinish(w, a, c, now)
    case Stop(call, now) => Refuse(w, call, now)
    case Sweep(now) => DoSweep(w, now)
    case EndOther(call, c, now) => DoEndOther(w, call, c, now)
    case Forget(calls) => DoForget(w, calls)
    case Tamper(call, arguments) => DoTamper(w, call, arguments)
  }

  ghost function Run(t: Tower, w: World, steps: seq<Action>): World
    decreases |steps|
  {
    if steps == [] then w else Run(t, Act(t, w, steps[0]), steps[1..])
  }

  /** A new row is what the call asks for: about the same thing, holding its canonical
      arguments with their hash, awaiting a decision within its window if a gate belongs to the
      tool, and running otherwise; nothing is decided or known about it yet. */
  lemma RecordedAsAsked(t: Tower, w: World, row: CallRow, raw: Json, gated: bool)
    requires ReadsBack(t.parse) && Tools.Canonicalize(t.nfc, raw).Some? && row.id !in w.rows
    ensures var v := Tools.Canonicalize(t.nfc, raw).value;
      var rows := Act(t, w, Record(row, raw, gated)).rows;
      && rows.Keys == w.rows.Keys + {row.id} && (forall k | k in w.rows :: rows[k] == w.rows[k])
      && var r := rows[row.id];
         && r.id == row.id && r.owner == row.owner && r.threadId == row.threadId && r.messageId == row.messageId
         && r.name == row.name && r.createdAt == row.createdAt
         && r.approvalKind == row.approvalKind && r.confirmField == row.confirmField
         && r.arguments == v && r.argumentsHash == t.hash(Canonical(v))
         && (gated ==> r.status == AwaitingApproval && r.expiresAt == row.expiresAt)
         && (!gated ==> r.status == ToolCallStatus.Running && r.expiresAt.None?)
         && r.approvalId.None? && r.result.None? && r.errorCode.None? && r.completedAt.None?
  {
    assert t.parse(Canonical(Tools.Canonicalize(t.nfc, raw).value)) == Tools.Canonicalize(t.nfc, raw);
  }

  /** Deleting a thread forgets its calls. */
  lemma DeletionForgets(t: Tower, w: World, st: State, owner: Owner, thread: Id)
    requires w.rows == st.toolCalls && ThreadInScope(st, owner, thread).Ok?
    ensures var calls := set k | k in w.rows && w.rows[k].threadId == thread;
      && DeleteThread(st, owner, thread).0.toolCalls == Act(t, w, Forget(calls)).rows
      && Act(t, w, Forget(calls)).epochs == w.epochs - calls
  {
    var calls := set k | k in w.rows && w.rows[k].threadId == thread;
    assert DeleteThread(st, owner, thread).0.toolCalls == w.rows - calls;
  }

  // ---------------------------------------------------------------- reading the log

  predicate Has(log: Log, e: Event) {
    match log case Nil => false case Then(past, last) => last == e || Has(past, e)
  }

  /** How often the row of an epoch was approved, denied or expired. */
  function Decisions(log: Log, epoch: nat): nat {
    match log
    case Nil => 0
    case Then(past, last) =>
      Decisions(past, epoch) +
      (match last
       case Granted(e, _) => if e == epoch then 1 else 0
       case Refused(e) => if e == epoch then 1 else 0
       case Lapsed(es) => if epoch in es then 1 else 0
       case _ => 0)
  }

  function Grants(log: Log, a: string): nat {
    match log
    case Nil => 0
    case Then(past, last) => Grants(past, a) + if last.Granted? && last.approval == a then 1 else 0
  }

  /** How often a call was dispatched under an approval. */
  function Dispatches(log: Log, a: string): nat {
    match log
    case Nil => 0
    case Then(past, last) => Dispatches(past, a) + if last.Dispatched? && last.approval == a then 1 else 0
  }

  /** How often the approved row of an epoch was dispatched, under whatever approval. */
  function DispatchesOf(log: Log, epoch: nat): nat {
    match log
    case Nil => 0
    case Then(past, last) => DispatchesOf(past, epoch) + if last.Dispatched? && last.won == epoch then 1 else 0
  }

  /** Nothing is dispatched before its own approval won its row. */
  predicate Ordered(log: Log) {
    match log
    case Nil => true
    case Then(past, last) => Ordered(past) && (last.Dispatched? ==> Has(past, Granted(last.won, last.approval)))
  }

  /** What has happened is counted. */
  lemma {:induction false} EventsAreCounted(log: Log, e: Event)
    requires Has(log, e)
    ensures match e
            case Granted(epoch, a) => Decisions(log, epoch) >= 1 && Grants(log, a) >= 1
            case Refused(epoch) => Decisions(log, epoch) >= 1
            case Lapsed(epochs) => forall epoch | epoch in epochs :: Decisions(log, epoch) >= 1
            case Dispatched(_, won, a, _) => Dispatches(log, a) >= 1 && DispatchesOf(log, won) >= 1
            case Mismatched(_, _) => true
  {
    if log.event != e { EventsAreCounted(log.past, e); }
  }

  // ---------------------------------------------------------------- the invariant

  ghost predicate RowOk(w: World, k: string) {
    && (k in w.rows <==> k in w.epochs)
    && (k in w.rows ==>
          && w.epochs[k] < w.next
          && (w.rows[k].status == AwaitingApproval ==> Decisions(w.log, w.epochs[k]) == 0)
          && (w.rows[k].status == ToolCallStatus.Approved ==>
                w.rows[k].approvalId.Some? && Has(w.log, Granted(w.epochs[k], w.rows[k].approvalId.value))))
  }

  ghost predicate EpochOk(w: World, e: nat) {
    && Decisions(w.log, e) <= 1 && DispatchesOf(w.log, e) <= 1
    && (e >= w.next ==> Decisions(w.log, e) == 0)
  }

  ghost predicate SubmissionOk(w: World, a: string) {
    && Grants(w.log, a) <= 1 && Dispatches(w.log, a) <= 1
    && (a !in w.submissions ==> Grants(w.log, a) == 0)
    && (a in w.submissions && w.submissions[a].phase == Loaded ==> Grants(w.log, a) == 0)
    && (a !in w.submissions || w.submissions[a].phase != Gone ==> Dispatches(w.log, a) == 0)
    && (a in w.submissions && w.submissions[a].phase != Loaded && w.submissions[a].phase != Gone ==>
          Has(w.log, Granted(w.submissions[a].won, a)))
  }

  ghost predicate Distinct(epochs: map<string, nat>) {
    forall j, k | j in epochs && k in epochs && j != k :: epochs[j] != epochs[k]
  }

  ghost predicate Inv(w: World) {
    && (forall k {:trigger RowOk(w, k)} :: RowOk(w, k))
    && (forall e: nat {:trigger EpochOk(w, e)} :: EpochOk(w, e))
    && (forall a {:trigger SubmissionOk(w, a)} :: SubmissionOk(w, a))
    && Distinct(w.epochs) && Ordered(w.log)
  }

  // ---------------------------------------------------------------- every step keeps it

  /** No row starts to await a decision or becomes approved. */
  ghost predicate Settles(before: Rows, after: Rows) {
    && after.Keys == before.Keys
    && forall k | k in after ::
         && (after[k].status == AwaitingApproval ==> before[k].status == AwaitingApproval)
         && (after[k].status == ToolCallStatus.Approved ==>
               before[k].status == ToolCallStatus.Approved && after[k].approvalId == before[k].approvalId)
  }

  lemma SettlingKeepsInv(w: World, rows: Rows)
    requires Inv(w) && Settles(w.rows, rows)
    ensures Inv(w.(rows := rows))
  {
    var v := w.(rows := rows);
    forall k ensures RowOk(v, k) { assert RowOk(w, k); }
    forall e: nat ensures EpochOk(v, e) { assert EpochOk(w, e); }
    forall a ensures SubmissionOk(v, a) { assert SubmissionOk(w, a); }
  }

  /** Refusals and lapses: each row that is decided awaited its decision and awaits it no more. */
  lemma DecidingKeepsInv(w: World, rows: Rows, event: Event, es: set<nat>)
    requires Inv(w) && Settles(w.rows, rows)
    requires event == Lapsed(es) || (event.Refused? && es == {event.epoch})
    requires forall e | e in es :: exists k :: k in w.rows && k in w.epochs && w.epochs[k] == e
                                               && w.rows[k].status == AwaitingApproval
    requires forall k | k in rows && k in w.epochs && w.epochs[k] in es :: rows[k].status != AwaitingApproval
    ensures Inv(w.(rows := rows, log := Then(w.log, event)))
  {
    var v := w.(rows := rows, log := Then(w.log, event));
    forall e | e in es ensures Decisions(w.log, e) == 0 && e < w.next {
      var k :| k in w.rows && k in w.epochs && w.epochs[k] == e && w.rows[k].status == AwaitingApproval;
      assert RowOk(w, k);
    }
    forall e: nat ensures Decisions(v.log, e) == Decisions(w.log, e) + if e in es then 1 else 0 {}
    forall k ensures RowOk(v, k) { assert RowOk(w, k); }
    forall e: nat ensures EpochOk(v, e) { assert EpochOk(w, e); }
    forall a ensures SubmissionOk(v, a) { assert SubmissionOk(w, a); }
  }

  /** A submission that goes forward from one phase past its grant to the next. */
  lemma AdvancingKeepsInv(w: World, a: string, phase: Phase)
    requires Inv(w) && a in w.submissions && w.submissions[a].phase != Gone
    requires phase == Gone || (phase != Loaded && w.submissions[a].phase != Loaded)
    ensures Inv(Advance(w, a, phase))
  {
    var v := Advance(w, a, phase);
    forall k ensures RowOk(v, k) { assert RowOk(w, k); }
    forall e: nat ensures EpochOk(v, e) { assert EpochOk(w, e); }
    forall b ensures SubmissionOk(v, b) { assert SubmissionOk(w, b); }
  }

  lemma RecordKeepsInv(t: Tower, w: World, row: CallRow, raw: Json, gated: bool)
    requires Inv(w)
    ensures Inv(DoRecord(t, w, row, raw, gated))
  {
    var v := DoRecord(t, w, row, raw, gated);
    if v != w {
      assert RowOk(w, row.id) && EpochOk(w, w.next);
      forall k ensures RowOk(v, k) { assert RowOk(w, k); }
      forall e: nat ensures EpochOk(v, e) { assert EpochOk(w, e); }
      forall a ensures SubmissionOk(v, a) { assert SubmissionOk(w, a); }
      forall j, k | j in v.epochs && k in v.epochs && j != k ensures v.epochs[j] != v.epochs[k] {
        assert RowOk(w, j) && RowOk(w, k);
      }
    }
  }

  lemma SweepKeepsInv(w: World, now: Time)
    requires Inv(w)
    ensures Inv(DoSweep(w, now))
  {
    var es := set k | k in w.rows && k in w.epochs && Overdue(w.rows[k], now) :: w.epochs[k];
    var rows := ExpireCalls(w.rows, now);
    forall k | k in rows && k in w.epochs && w.epochs[k] in es ensures rows[k].status != AwaitingApproval {
      var j :| j in w.rows && j in w.epochs && Overdue(w.rows[j], now) && w.epochs[j] == w.epochs[k];
    }
    DecidingKeepsInv(w, rows, Lapsed(es), es);
  }

  lemma RefuseKeepsInv(w: World, call: string, now: Time)
    requires Inv(w)
    ensures Inv(Refuse(w, call, now))
  {
    var (rows, r) := MarkDenied(w.rows, call, now);
    if r.Ok? && call in w.epochs {
      var e := w.epochs[call];
      forall k | k in rows && k in w.epochs && w.epochs[k] in {e} ensures rows[k].status != AwaitingApproval {}
      DecidingKeepsInv(w, rows, Refused(e), {e});
    }
  }

  lemma SubmitKeepsInv(w: World, a: string, owner: Owner, call: string, d: Decision, now: Time)
    requires Inv(w)
    ensures Inv(DoSubmit(w, a, owner, call, d, now))
  {
    var v := DoSubmit(w, a, owner, call, d, now);
    if a !in w.submissions && call in w.rows && call in w.epochs {
      if w.rows[call].owner == owner && Overdue(w.rows[call], now) {
        SweepKeepsInv(w, now);
      } else {
        forall k ensures RowOk(v, k) { assert RowOk(w, k); }
        forall e: nat ensures EpochOk(v, e) { assert EpochOk(w, e); }
        forall b ensures SubmissionOk(v, b) { assert SubmissionOk(w, b); }
      }
    }
  }

  /** Approving: the row awaited a decision, so nothing was decided about it yet. */
  lemma AllowKeepsInv(w: World, a: string)
    requires Inv(w)
    ensures Inv(DoAllow(w, a))
  {
    var v := DoAllow(w, a);
    if In(w, a, Loaded) {
      var call := w.submissions[a].call;
      assert RowOk(w, call) && SubmissionOk(w, a);
      if MarkApproved(w.rows, call, a).1.Err? {
        AdvancingKeepsInv(w, a, Gone);
      } else {
        forall k ensures RowOk(v, k) { assert RowOk(w, k); }
        forall e: nat ensures EpochOk(v, e) { assert EpochOk(w, e); }
        forall b ensures SubmissionOk(v, b) { assert SubmissionOk(w, b); }
      }
    }
  }

  /** One epoch has one grant. */
  lemma {:induction false} GrantDecides(log: Log, e: nat, a: string)
    requires Has(log, Granted(e, a))
    ensures Decisions(log, e) >= 1 && Grants(log, a) >= 1
  {
    if log.event != Granted(e, a) { GrantDecides(log.past, e, a); }
  }

  lemma {:induction false} GrantIsUnique(log: Log, e: nat, a: string, b: string)
    requires Has(log, Granted(e, a)) && Has(log, Granted(e, b)) && Decisions(log, e) <= 1
    ensures a == b
  {
    if log.event == Granted(e, a) {
      if a != b { GrantDecides(log.past, e, b); }
    } else if log.event == Granted(e, b) {
      GrantDecides(log.past, e, a);
    } else {
      GrantIsUnique(log.past, e, a, b);
    }
  }

  /** A dispatched epoch was granted to the approval it was dispatched under. */
  lemma {:induction false} DispatchHasGrant(log: Log, e: nat) returns (a: string)
    requires Ordered(log) && DispatchesOf(log, e) >= 1
    ensures Has(log, Granted(e, a)) && Dispatches(log, a) >= 1
  {
    if log.event.Dispatched? && log.event.won == e {
      a := log.event.approval;
    } else {
      a := DispatchHasGrant(log.past, e);
    }
  }

  lemma DispatchKeepsInv(t: Tower, w: World, a: string)
    requires Inv(w)
    ensures Inv(DoDispatch(t, w, a))
  {
    if In(w, a, Started) {
      AdvancingKeepsInv(w, a, Gone);
      var s := w.submissions[a];
      var arguments := Tools.Canonicalize(t.nfc, s.arguments);
      if arguments.Some? {
        var v := DoDispatch(t, w, a);
        assert SubmissionOk(w, a) && EpochOk(w, s.won);
        if DispatchesOf(w.log, s.won) >= 1 {
          var b := DispatchHasGrant(w.log, s.won);
          GrantIsUnique(w.log, s.won, a, b);
        }
        forall k ensures RowOk(v, k) { assert RowOk(w, k); }
        forall e: nat ensures EpochOk(v, e) { assert EpochOk(w, e); }
        forall b ensures SubmissionOk(v, b) { assert SubmissionOk(w, b); }
      }
    }
  }

  lemma MismatchKeepsInv(w: World, seen: nat, a: string)
    requires Inv(w)
    ensures Inv(Log1(w, Mismatched(seen, a)))
  {
    var v := Log1(w, Mismatched(seen, a));
    forall k ensures RowOk(v, k) { assert RowOk(w, k); }
    forall e: nat ensures EpochOk(v, e) { assert EpochOk(w, e); }
    forall b ensures SubmissionOk(v, b) { assert SubmissionOk(w, b); }
  }

  lemma VerifyKeepsInv(t: Tower, w: World, a: string, permitted: bool, now: Time)
    requires Inv(w)
    ensures Inv(DoVerify(t, w, a, permitted, now))
  {
    if In(w, a, Won) {
      var s := w.submissions[a];
      var gone := Advance(w, a, Gone);
      AdvancingKeepsInv(w, a, Gone);
      AdvancingKeepsInv(w, a, Verified);
      var refused := Completion(ToolCallStatus.Denied, None, Some("tool_not_permitted"), None);
      var changed := Completion(ToolCallStatus.Denied, None, Some("tool_arguments_changed"), Some(a));
      SettlingKeepsInv(gone, CompleteCall(w.rows, s.call, refused, now).0);
      SettlingKeepsInv(gone, CompleteCall(w.rows, s.call, changed, now).0);
      MismatchKeepsInv(End(gone, s.call, changed, now), s.seen, a);
    }
  }

  lemma BeginKeepsInv(w: World, a: string)
    requires Inv(w)
    ensures Inv(DoBegin(w, a))
  {
    if In(w, a, Checked) {
      AdvancingKeepsInv(w, a, Gone);
      var rows := MarkRunning(w.rows, w.submissions[a].call, Some(a)).0;
      SettlingKeepsInv(w, rows);
      AdvancingKeepsInv(w.(rows := rows), a, Started);
    }
  }

  lemma ForgetKeepsInv(w: World, calls: set<string>)
    requires Inv(w)
    ensures Inv(DoForget(w, calls))
  {
    var v := DoForget(w, calls);
    forall k ensures RowOk(v, k) { assert RowOk(w, k); }
    forall e: nat ensures EpochOk(v, e) { assert EpochOk(w, e); }
    forall a ensures SubmissionOk(v, a) { assert SubmissionOk(w, a); }
  }

  lemma DenyKeepsInv(w: World, a: string, now: Time)
    requires Inv(w)
    ensures Inv(DoDeny(w, a, now))
  {
    if In(w, a, Loaded) {
      RefuseKeepsInv(w, w.submissions[a].call, now);
      AdvancingKeepsInv(Refuse(w, w.submissions[a].call, now), a, Gone);
    }
  }

  lemma CheckKeepsInv(w: World, a: string)
    requires Inv(w)
    ensures Inv(DoCheck(w, a))
  {
    if In(w, a, Verified) {
      AdvancingKeepsInv(w, a, Gone);
      AdvancingKeepsInv(w, a, Checked);
    }
  }

  lemma EndKeepsInv(w: World, call: string, c: Completion, now: Time)
    requires Inv(w) && Final(c.status)
    ensures Inv(End(w, call, c, now))
  {
    SettlingKeepsInv(w, End(w, call, c, now).rows);
  }

  lemma TamperKeepsInv(w: World, call: string, arguments: Json)
    requires Inv(w)
    ensures Inv(DoTamper(w, call, arguments))
  {
    if call in w.rows {
      var rows := w.rows[call := w.rows[call].(arguments := arguments)];
      assert Settles(w.rows, rows);
      SettlingKeepsInv(w, rows);
    }
  }

  lemma StepKeepsInv(t: Tower, w: World, step: Action)
    requires Inv(w)
    ensures Inv(Act(t, w, step))
  {
    match step
    case Record(row, raw, gated) => RecordKeepsInv(t, w, row, raw, gated);
    case Submit(a, owner, call, d, now) => SubmitKeepsInv(w, a, owner, call, d, now);
    case Allow(a) => AllowKeepsInv(w, a);
    case Deny(a, now) => DenyKeepsInv(w, a, now);
    case Verify(a, permitted, now) => VerifyKeepsInv(t, w, a, permitted, now);
    case Check(a) => CheckKeepsInv(w, a);
    case Begin(a) => BeginKeepsInv(w, a);
    case Dispatch(a) => DispatchKeepsInv(t, w, a);
    case Finish(a, c, now) =>
      if In(w, a, Gone) && Final(c.status) { EndKeepsInv(w, w.submissions[a].call, c.(approvalId := Some(a)), now); }
    case Stop(call, now) => RefuseKeepsInv(w, call, now);
    case Sweep(now) => SweepKeepsInv(w, now);
    case EndOther(call, c, now) =>
      if Final(c.status) { EndKeepsInv(w, call, c.(approvalId := None), now); }
    case Forget(calls) => ForgetKeepsInv(w, calls);
    case Tamper(call, arguments) => TamperKeepsInv(w, call, arguments);
  }

  lemma {:induction false} RunKeepsInv(t: Tower, w: World, steps: seq<Action>)
    requires Inv(w)
    ensures Inv(Run(t, w, steps))
    decreases |steps|
  {
    if steps != [] {
      StepKeepsInv(t, w, steps[0]);
      RunKeepsInv(t, Act(t, w, steps[0]), steps[1..]);
    }
  }

  lemma ReachedInv(t: Tower, steps: seq<Action>)
    ensures Inv(Run(t, START, steps))
  {
    InitialInv();
    RunKeepsInv(t, START, steps);
  }

  /** Every row has an epoch. */
  lemma RowsHaveEpochs(t: Tower, steps: seq<Action>)
    ensures var w := Run(t, START, steps); w.rows.Keys == w.epochs.Keys
  {
    ReachedInv(t, steps);
    var w := Run(t, START, steps);
    forall k ensures k in w.rows <==> k in w.epochs { assert RowOk(w, k); }
  }

  // ---------------------------------------------------------------- what it means

  /** In every interleaving, each approval is dispatched at most once and each row at most
      once; a row is decided at most once; and what was dispatched had been approved before,
      under that very approval, so that a row that was denied or has expired never is. */
  lemma OneShot(t: Tower, steps: seq<Action>)
    ensures var log := Run(t, START, steps).log;
            && Ordered(log)
            && (forall a :: Dispatches(log, a) <= 1)
            && (forall e: nat :: DispatchesOf(log, e) <= 1 && Decisions(log, e) <= 1)
            && (forall e: nat :: Has(log, Refused(e)) ==> DispatchesOf(log, e) == 0)
            && (forall e: nat, es: set<nat> :: e in es && Has(log, Lapsed(es)) ==> DispatchesOf(log, e) == 0)
  {
    ReachedInv(t, steps);
    var w := Run(t, START, steps);
    forall a ensures Dispatches(w.log, a) <= 1 { assert SubmissionOk(w, a); }
    forall e: nat ensures DispatchesOf(w.log, e) <= 1 && Decisions(w.log, e) <= 1 { assert EpochOk(w, e); }
    forall e: nat | Has(w.log, Refused(e)) ensures DispatchesOf(w.log, e) == 0 { LostRowsRest(w.log, e, Refused(e)); }
    forall e: nat, es: set<nat> | e in es && Has(w.log, Lapsed(es)) ensures DispatchesOf(w.log, e) == 0 {
      LostRowsRest(w.log, e, Lapsed(es));
    }
  }

  lemma InitialInv()
    ensures Inv(START)
  {
  }

  predicate Loses(event: Event, e: nat) {
    event == Refused(e) || (event.Lapsed? && e in event.epochs)
  }

  lemma {:induction false} LossDecides(log: Log, e: nat, event: Event)
    requires Loses(event, e) && Has(log, event)
    ensures Decisions(log, e) >= 1
  {
    if log.event != event { LossDecides(log.past, e, event); }
  }

  lemma {:induction false} GrantOrLoss(log: Log, e: nat, event: Event, a: string)
    requires Loses(event, e) && Has(log, event) && Has(log, Granted(e, a))
    ensures Decisions(log, e) >= 2
  {
    if log.event == event {
      GrantDecides(log.past, e, a);
    } else if log.event == Granted(e, a) {
      LossDecides(log.past, e, event);
    } else {
      GrantOrLoss(log.past, e, event, a);
    }
  }

  lemma LostRowsRest(log: Log, e: nat, event: Event)
    requires Ordered(log) && Decisions(log, e) <= 1 && Loses(event, e) && Has(log, event)
    ensures DispatchesOf(log, e) == 0
  {
    if DispatchesOf(log, e) >= 1 {
      var a := DispatchHasGrant(log, e);
      GrantOrLoss(log, e, event, a);
    }
  }

  // ---------------------------------------------------------------- statuses go one way

  /** No row goes back to awaiting a decision. */
  ghost predicate Onward(w: World, v: World) {
    forall k | k in w.rows && k in v.rows && w.rows[k].status != AwaitingApproval ::
      v.rows[k].status != AwaitingApproval
  }

  lemma SubmissionStepGoesOnward(t: Tower, w: World, step: Action)
    requires step.Submit? || step.Allow? || step.Deny? || step.Verify? || step.Check? || step.Begin? || step.Dispatch?
    ensures Onward(w, Act(t, w, step))
  {
    match step case _ =>
  }

  lemma StoreStepGoesOnward(t: Tower, w: World, step: Action)
    requires step.Record? || step.Finish? || step.Stop? || step.Sweep? || step.EndOther? || step.Forget? || step.Tamper?
    ensures Onward(w, Act(t, w, step))
  {
    match step case _ =>
  }

  /** A row that has stopped awaiting a decision never awaits one again, unless it is deleted
      and recorded anew. */
  lemma NeverAwaitsAgain(t: Tower, w: World, step: Action)
    ensures Onward(w, Act(t, w, step))
  {
    match step
    case Record(_, _, _) => StoreStepGoesOnward(t, w, step);
    case Finish(_, _, _) => StoreStepGoesOnward(t, w, step);
    case Stop(_, _) => StoreStepGoesOnward(t, w, step);
    case Sweep(_) => StoreStepGoesOnward(t, w, step);
    case EndOther(_, _, _) => StoreStepGoesOnward(t, w, step);
    case Forget(_) => StoreStepGoesOnward(t, w, step);
    case Tamper(_, _) => StoreStepGoesOnward(t, w, step);
    case _ => SubmissionStepGoesOnward(t, w, step);
  }

  // ---------------------------------------------------------------- who decided

  lemma {:induction false} RunAppends(t: Tower, w: World, a: seq<Action>, b: seq<Action>)
    ensures Run(t, w, a + b) == Run(t, Run(t, w, a), b)
    decreases |a|
  {
    if a == [] {
      assert a + b == b;
    } else {
      assert (a + b)[1..] == a[1..] + b;
      RunAppends(t, Act(t, w, a[0]), a[1..], b);
    }
  }

  lemma LastStep(t: Tower, steps: seq<Action>)
    requires steps != []
    ensures var n := |steps| - 1; Run(t, START, steps) == Act(t, Run(t, START, steps[..n]), steps[n])
  {
    var n := |steps| - 1;
    assert steps == steps[..n] + [steps[n]] && [steps[n]][1..] == [];
    RunAppends(t, START, steps[..n], [steps[n]]);
  }

  /** Step `i` submitted `a`, by one who may decide about the row as it then was. */
  ghost predicate SubmittedAt(t: Tower, steps: seq<Action>, i: nat, a: string) {
    && i < |steps| && steps[i].Submit? && steps[i].approval == a
    && var w, s := Run(t, START, steps[..i]), steps[i];
       s.call in w.rows && MayDecide(w.rows[s.call], s.owner, s.decision, s.now)
  }

  predicate OfSubmission(step: Action) {
    step.Allow? || step.Deny? || step.Verify? || step.Check? || step.Begin? || step.Dispatch?
  }

  lemma StoreStepsSubmitNothing(t: Tower, w: World, step: Action)
    requires !step.Submit? && !OfSubmission(step)
    ensures Act(t, w, step).submissions == w.submissions
    ensures forall a :: Dispatches(Act(t, w, step).log, a) == Dispatches(w.log, a)
  {
    match step case _ =>
  }

  lemma OwnStepsSubmitNothing(t: Tower, w: World, step: Action, a: string)
    requires OfSubmission(step) && a !in w.submissions
    ensures a !in Act(t, w, step).submissions
  {
    match step
    case Allow(b) =>
    case Deny(b, now) =>
    case Verify(b, permitted, now) =>
    case Check(b) =>
    case Begin(b) =>
    case Dispatch(b) =>
  }

  lemma NewSubmission(t: Tower, w: World, step: Action, a: string)
    requires a !in w.submissions && a in Act(t, w, step).submissions
    ensures step.Submit? && step.approval == a && step.call in w.rows
    ensures MayDecide(w.rows[step.call], step.owner, step.decision, step.now)
  {
    if step.Submit? {
      assert step.call in w.rows;
      AdmitsExactly(w.rows[step.call], step.owner, step.decision, step.now);
    } else if OfSubmission(step) {
      OwnStepsSubmitNothing(t, w, step, a);
    } else {
      StoreStepsSubmitNothing(t, w, step);
    }
  }

  lemma NewGrant(t: Tower, w: World, step: Action, e: nat, a: string)
    requires !Has(w.log, Granted(e, a)) && Has(Act(t, w, step).log, Granted(e, a))
    ensures a in w.submissions
  {
    match step
    case Allow(b) =>
    case _ =>
  }

  lemma {:induction false} SubmissionWasMade(t: Tower, steps: seq<Action>, a: string) returns (i: nat)
    requires a in Run(t, START, steps).submissions
    ensures SubmittedAt(t, steps, i, a)
    decreases |steps|
  {
    var n := |steps| - 1;
    LastStep(t, steps);
    var w := Run(t, START, steps[..n]);
    if a in w.submissions {
      i := SubmissionWasMade(t, steps[..n], a);
      assert steps[..n][..i] == steps[..i];
    } else {
      NewSubmission(t, w, steps[n], a);
      i := n;
    }
  }

  /** In every interleaving, behind each grant is a submission of the owner of the row it read,
      who saw its hash, was in time and, where asked to, confirmed it in writing. */
  lemma {:induction false} GrantsComeFromOwners(t: Tower, steps: seq<Action>, e: nat, a: string) returns (i: nat)
    requires Has(Run(t, START, steps).log, Granted(e, a))
    ensures SubmittedAt(t, steps, i, a)
    decreases |steps|
  {
    var n := |steps| - 1;
    LastStep(t, steps);
    var w := Run(t, START, steps[..n]);
    if Has(w.log, Granted(e, a)) {
      i := GrantsComeFromOwners(t, steps[..n], e, a);
    } else {
      NewGrant(t, w, steps[n], e, a);
      i := SubmissionWasMade(t, steps[..n], a);
    }
    assert steps[..n][..i] == steps[..i];
  }

  /** Scopes and policy were checked again for `a`, and allowed it. */
  ghost predicate PermittedIn(steps: seq<Action>, a: string) {
    exists i | 0 <= i < |steps| :: steps[i].Verify? && steps[i].approval == a && steps[i].permitted
  }

  predicate Cleared(w: World, a: string) {
    Dispatches(w.log, a) >= 1 || (a in w.submissions && w.submissions[a].phase in {Verified, Checked, Started})
  }

  lemma DecisionsClearNothing(t: Tower, w: World, step: Action, a: string)
    requires !Cleared(w, a) && (step.Submit? || step.Allow? || step.Deny?)
    ensures !Cleared(Act(t, w, step), a)
  {
    match step
    case Submit(b, owner, call, d, now) =>
    case Allow(b) =>
    case Deny(b, now) =>
  }

  lemma ExecutionClearsNothing(t: Tower, w: World, step: Action, a: string)
    requires !Cleared(w, a) && (step.Check? || step.Begin? || step.Dispatch?)
    ensures !Cleared(Act(t, w, step), a)
  {
    match step
    case Check(b) =>
    case Begin(b) =>
    case Dispatch(b) =>
  }

  lemma OnlyVerifyClears(t: Tower, w: World, b: string, permitted: bool, now: Time, a: string)
    requires !Cleared(w, a) && Cleared(DoVerify(t, w, b, permitted, now), a)
    ensures a == b && permitted
  {
  }

  lemma NewlyCleared(t: Tower, w: World, step: Action, a: string)
    requires !Cleared(w, a) && Cleared(Act(t, w, step), a)
    ensures step.Verify? && step.approval == a && step.permitted
  {
    if step.Verify? {
      OnlyVerifyClears(t, w, step.approval, step.permitted, step.now, a);
    } else if step.Submit? || step.Allow? || step.Deny? {
      DecisionsClearNothing(t, w, step, a);
    } else if step.Check? || step.Begin? || step.Dispatch? {
      ExecutionClearsNothing(t, w, step, a);
    } else {
      StoreStepsSubmitNothing(t, w, step);
    }
  }

  /** Nothing is dispatched unless it was found permitted at that time. */
  lemma {:induction false} DispatchesArePermitted(t: Tower, steps: seq<Action>, a: string)
    requires Cleared(Run(t, START, steps), a)
    ensures PermittedIn(steps, a)
    decreases |steps|
  {
    var n := |steps| - 1;
    LastStep(t, steps);
    if Cleared(Run(t, START, steps[..n]), a) {
      DispatchesArePermitted(t, steps[..n], a);
    } else {
      NewlyCleared(t, Run(t, START, steps[..n]), steps[n], a);
    }
  }
}
