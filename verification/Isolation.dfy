/** Owners do not see each other: whatever others do, an owner's calls answer as if it were alone.

    Calls are lists of row writes, each the caller's own to make; deletions, feedback and
    sweeps are taken one by one. */
module Isolation {
  import opened Json
  import Text
  import opened Types
  import opened Store
  import opened Calls
  import opened Operations
  import opened Visibility

  // ---------------------------------------------------------------- writing one row

  /** A row of `o`, or none: what `o` may write under this identifier. */
  ghost predicate ThreadFree(st: State, o: Owner, t: Id) {
    if t in st.threads then st.threads[t].owner == o
    else
      && (forall i | i in st.messages :: st.messages[i].threadId != t)
      && (forall k | k in st.toolCalls :: st.toolCalls[k].threadId != t)
  }

  ghost predicate MessageFree(st: State, o: Owner, i: Id) {
    if i in st.messages then Owns(st, o, i)
    else i !in st.feedback && forall k | k in st.toolCalls :: st.toolCalls[k].messageId != i
  }

  ghost predicate CallFree(st: State, o: Owner, k: string) {
    k in st.toolCalls ==> st.toolCalls[k].owner == o
  }

  /** Writing a thread of `u` shows to `u` and to nobody else. */
  lemma PutThreadShows(s: State, p: State, o: Owner, u: Owner, thread: Thread)
    requires Shows(s, p, o) && thread.owner == u && ThreadFree(s, u, thread.id)
    ensures Shows(PutThread(s, thread), if u == o then PutThread(p, thread) else p, o)
  {
    var s', p' := PutThread(s, thread), if u == o then PutThread(p, thread) else p;
    forall i ensures Owns(s', o, i) <==> Owns(s, o, i) {}
    forall t ensures ThreadShown(s', p', o, t) { assert ThreadShown(s, p, o, t); }
    forall i ensures MessageShown(s', p', o, i) { assert MessageShown(s, p, o, i); }
    forall k ensures CallShown(s', p', o, k) { assert CallShown(s, p, o, k); }
    forall i ensures FeedbackShown(s', p', o, i) { assert FeedbackShown(s, p, o, i); }
  }

  lemma PutMessageShows(s: State, p: State, o: Owner, u: Owner, m: Message)
    requires Shows(s, p, o) && HasThread(s, u, m.threadId) && MessageFree(s, u, m.id)
    ensures Shows(PutMessage(s, m), if u == o then PutMessage(p, m) else p, o)
  {
    var s', p' := PutMessage(s, m), if u == o then PutMessage(p, m) else p;
    forall i ensures Owns(s', o, i) <==> Owns(s, o, i) || (u == o && i == m.id) {}
    forall t ensures ThreadShown(s', p', o, t) { assert ThreadShown(s, p, o, t); }
    forall i ensures MessageShown(s', p', o, i) { assert MessageShown(s, p, o, i); }
    forall k ensures CallShown(s', p', o, k) { assert CallShown(s, p, o, k); }
    forall i ensures FeedbackShown(s', p', o, i) { assert FeedbackShown(s, p, o, i); }
  }

  lemma PutThreadKeepsClosed(st: State, o: Owner, thread: Thread)
    requires Closed(st) && thread.owner == o && ThreadFree(st, o, thread.id) && OwnedOrGone(st, o, thread.activeLeaf)
    ensures Closed(PutThread(st, thread))
  {
    var st' := PutThread(st, thread);
    forall i, u ensures Owns(st, u, i) ==> Owns(st', u, i) {}
    forall t ensures ThreadClosed(st', t) { assert ThreadClosed(st, t); }
    forall i ensures MessageClosed(st', i) { assert MessageClosed(st, i); }
    forall k ensures CallClosed(st', k) { assert CallClosed(st, k); }
  }

  /** A message that comes after its parent, and before everything that names it. */
  ghost predicate MessageFits(st: State, o: Owner, m: Message) {
    && HasThread(st, o, m.threadId) && MessageFree(st, o, m.id) && OwnedOrGone(st, o, m.parent)
    && m.parent != Some(m.id)
    && (m.parent.Some? && m.parent.value in st.messages ==> Rank(st.messages[m.parent.value]) < Rank(m))
    && (m.id in st.messages ==> st.messages[m.id].createdAt == m.createdAt && st.messages[m.id].role == m.role
                                && st.messages[m.id].threadId == m.threadId)
    && (m.id !in st.messages ==>
          && (forall i | i in st.messages :: st.messages[i].parent != Some(m.id))
          && (forall t | t in st.threads :: st.threads[t].activeLeaf != Some(m.id)))
  }

  lemma PutMessageKeepsClosed(st: State, o: Owner, m: Message)
    requires Closed(st) && MessageFits(st, o, m)
    ensures Closed(PutMessage(st, m))
  {
    var st' := PutMessage(st, m);
    forall i, u | i in st.messages ensures Owns(st', u, i) <==> Owns(st, u, i) {}
    forall t ensures ThreadClosed(st', t) { assert ThreadClosed(st, t); }
    forall i ensures MessageClosed(st', i) {
      assert MessageClosed(st, i);
    }
    forall k ensures CallClosed(st', k) { assert CallClosed(st, k); }
  }

  function PutCall(st: State, row: CallRow): State {
    st.(toolCalls := st.toolCalls[row.id := row])
  }

  lemma PutCallShows(s: State, p: State, o: Owner, u: Owner, row: CallRow)
    requires Shows(s, p, o) && row.owner == u && CallFree(s, u, row.id)
    ensures Shows(PutCall(s, row), if u == o then PutCall(p, row) else p, o)
  {
    var s', p' := PutCall(s, row), if u == o then PutCall(p, row) else p;
    forall t ensures ThreadShown(s', p', o, t) { assert ThreadShown(s, p, o, t); }
    forall i ensures MessageShown(s', p', o, i) { assert MessageShown(s, p, o, i); }
    forall k ensures CallShown(s', p', o, k) { assert CallShown(s, p, o, k); }
    forall i ensures FeedbackShown(s', p', o, i) { assert FeedbackShown(s, p, o, i); }
  }

  lemma PutCallKeepsClosed(st: State, row: CallRow)
    requires Closed(st) && CallHangs(st, row.owner, row)
    ensures Closed(PutCall(st, row))
  {
    var st' := PutCall(st, row);
    forall i, u ensures Owns(st', u, i) <==> Owns(st, u, i) {}
    forall t ensures ThreadClosed(st', t) { assert ThreadClosed(st, t); }
    forall i ensures MessageClosed(st', i) { assert MessageClosed(st, i); }
    forall k ensures CallClosed(st', k) { assert CallClosed(st, k); }
  }

  // ---------------------------------------------------------------- calls as lists of row writes

  datatype Write = WriteThread(thread: Thread) | WriteMessage(message: Message) | WriteCall(row: CallRow)

  function Put(st: State, w: Write): State {
    match w
    case WriteThread(t) => PutThread(st, t)
    case WriteMessage(m) => PutMessage(st, m)
    case WriteCall(row) => PutCall(st, row)
  }

  function PutAll(st: State, ws: seq<Write>): State
    decreases |ws|
  {
    if ws == [] then st else PutAll(Put(st, ws[0]), ws[1..])
  }

  ghost predicate Fits(st: State, o: Owner, w: Write) {
    match w
    case WriteThread(t) => t.owner == o && ThreadFree(st, o, t.id) && OwnedOrGone(st, o, t.activeLeaf)
    case WriteMessage(m) => MessageFits(st, o, m)
    case WriteCall(row) => CallHangs(st, o, row) && CallFree(st, o, row.id)
  }

  ghost predicate FitAll(st: State, o: Owner, ws: seq<Write>)
    decreases |ws|
  {
    ws == [] || (Fits(st, o, ws[0]) && FitAll(Put(st, ws[0]), o, ws[1..]))
  }

  lemma {:induction false} WritesKeepClosed(st: State, o: Owner, ws: seq<Write>)
    requires Closed(st) && FitAll(st, o, ws)
    ensures Closed(PutAll(st, ws))
    decreases |ws|
  {
    if ws != [] {
      match ws[0] {
        case WriteThread(t) => PutThreadKeepsClosed(st, o, t);
        case WriteMessage(m) => PutMessageKeepsClosed(st, o, m);
        case WriteCall(row) => PutCallKeepsClosed(st, row);
      }
      WritesKeepClosed(Put(st, ws[0]), o, ws[1..]);
    }
  }

  /** Writes of `u` show to `u` and to nobody else. */
  lemma {:induction false} WritesShow(s: State, p: State, o: Owner, u: Owner, ws: seq<Write>)
    requires Shows(s, p, o) && FitAll(s, u, ws)
    ensures Shows(PutAll(s, ws), if u == o then PutAll(p, ws) else p, o)
    decreases |ws|
  {
    if ws != [] {
      match ws[0] {
        case WriteThread(t) => PutThreadShows(s, p, o, u, t);
        case WriteMessage(m) => PutMessageShows(s, p, o, u, m);
        case WriteCall(row) => PutCallShows(s, p, o, u, row);
      }
      WritesShow(Put(s, ws[0]), if u == o then Put(p, ws[0]) else p, o, u, ws[1..]);
    }
  }

  /** The calls that write rows one by one. */
  predicate Writes(op: Operation) {
    op.Create? || op.Begin? || op.Finalize? || op.Stop? || op.Activate? || op.Record? || op.Approve? || op.Deny?
    || op.Start? || op.End?
  }

  function AnswerTo(b: State, thread: Thread, question: Message, env: Env): Message {
    AssistantMessage(thread.id, question.id, NextSiblingVersion(b, thread.id, Some(question.id)), env)
  }

  function WithAnswer(thread: Thread, env: Env): Thread {
    thread.(activeLeaf := Some(env.assistant), updatedAt := env.now)
  }

  /** What a turn writes once its thread is there. */
  function TailWrites(a: State, o: Owner, thread: Thread, request: BeginTurn, env: Env): seq<Write> {
    var (b, anchor) := AnchorOf(a, o, thread, request, env);
    if anchor.Err? then []
    else
      (if request.target.Regenerate? then [] else [WriteMessage(anchor.value)])
      + [WriteMessage(AnswerTo(b, thread, anchor.value, env)), WriteThread(WithAnswer(thread, env))]
  }

  ghost function TurnWrites(st: State, o: Owner, request: BeginTurn, env: Env): seq<Write> {
    if !request.target.Regenerate? && Text.Trim(request.content) == "" then []
    else
      var (a, found) := TurnThread(st, o, request, env);
      (if request.threadId.None? then [WriteThread(found.value)] else [])
      + (if found.Err? then [] else TailWrites(a, o, found.value, request, env))
  }

  ghost function WritesOf(st: State, s: Step): seq<Write>
    requires Writes(s.op)
  {
    var (b, reply) := Apply(st, s);
    match s.op
    case Create(_) => [WriteThread(reply.thread.value)]
    case Begin(request) => TurnWrites(st, s.owner, request, s.env)
    case Finalize(f) => if reply.outcome.Err? then [] else [WriteMessage(b.messages[f.messageId])]
    case Stop(m) => if reply.row.Err? then [] else [WriteMessage(b.messages[m])]
    case Activate(m) => if reply.outcome.Err? then [] else [WriteThread(b.threads[st.messages[m].threadId])]
    case Record(row) => if row.id in st.toolCalls then [] else [WriteCall(row)]
    case Approve(k, _) => if reply.outcome.Err? then [] else [WriteCall(b.toolCalls[k])]
    case Deny(k) => if reply.outcome.Err? then [] else [WriteCall(b.toolCalls[k])]
    case Start(k, _) => if reply.outcome.Err? then [] else [WriteCall(b.toolCalls[k])]
    case End(k, _) => if reply.outcome.Err? then [] else [WriteCall(b.toolCalls[k])]
  }

  /** The broker writes rows of its own caller only, under identifiers of its own; the message
      may have been deleted meanwhile. */
  ghost predicate Permitted(st: State, s: Step) {
    match s.op
    case Record(row) => Fits(st, s.owner, WriteCall(row))
    case Approve(k, _) => CallFree(st, s.owner, k)
    case Deny(k) => CallFree(st, s.owner, k)
    case Start(k, _) => CallFree(st, s.owner, k)
    case End(k, _) => CallFree(st, s.owner, k)
    case _ => true
  }

  // ---------------------------------------------------------------- beginning a turn, write by write

  lemma PutOne(st: State, w: Write)
    ensures PutAll(st, [w]) == Put(st, w)
  {
    assert [w][1..] == [];
  }

  lemma {:induction false} PutAppends(st: State, a: seq<Write>, b: seq<Write>)
    ensures PutAll(st, a + b) == PutAll(PutAll(st, a), b)
    decreases |a|
  {
    if a == [] {
      assert a + b == b;
    } else {
      assert (a + b)[1..] == a[1..] + b;
      PutAppends(Put(st, a[0]), a[1..], b);
    }
  }

  lemma {:induction false} FitAppends(st: State, o: Owner, a: seq<Write>, b: seq<Write>)
    requires FitAll(st, o, a) && FitAll(PutAll(st, a), o, b)
    ensures FitAll(st, o, a + b)
    decreases |a|
  {
    if a == [] {
      assert a + b == b;
    } else {
      assert (a + b)[1..] == a[1..] + b;
      FitAppends(Put(st, a[0]), o, a[1..], b);
    }
  }

  /** The new thread of a turn that names none. */
  lemma NewThreadFits(st: State, o: Owner, request: BeginTurn, env: Env)
    returns (ws: seq<Write>)
    requires Closed(st) && FreshEnv(st, env)
    ensures ws == if request.threadId.None? then [WriteThread(TurnThread(st, o, request, env).1.value)] else []
    ensures PutAll(st, ws) == TurnThread(st, o, request, env).0 && FitAll(st, o, ws)
    ensures var (st1, found) := TurnThread(st, o, request, env);
            && st1.messages == st.messages && Later(st1, env.now)
            && Unused(st1, env.user) && Unused(st1, env.assistant) && Closed(st1)
            && (found.Ok? ==> HasThread(st1, o, found.value.id) && st1.threads[found.value.id] == found.value)
  {
    if request.threadId.None? {
      ws := [WriteThread(TurnThread(st, o, request, env).1.value)];
      assert PutAll(Put(st, ws[0]), ws[1..]) == Put(st, ws[0]);
    } else {
      ws := [];
      assert ThreadClosed(st, request.threadId.value);
    }
    WritesKeepClosed(st, o, ws);
  }

  ghost predicate ReadyFor(a: State, o: Owner, thread: Thread, env: Env) {
    && Closed(a) && Later(a, env.now) && Unused(a, env.user) && Unused(a, env.assistant) && env.user != env.assistant
    && HasThread(a, o, thread.id) && a.threads[thread.id] == thread
  }

  /** The question of a turn, ready to be answered. */
  ghost predicate Asked(b: State, o: Owner, thread: Thread, question: Message, env: Env) {
    && Closed(b) && HasThread(b, o, thread.id) && b.threads[thread.id] == thread && Unused(b, env.assistant)
    && Owns(b, o, question.id) && b.messages[question.id] == question && Rank(question) <= 2 * env.now
  }

  lemma QuestionIsOwned(a: State, o: Owner, thread: Thread, request: BeginTurn, env: Env)
    requires ReadyFor(a, o, thread, env) && request.target.Regenerate? && AnchorOf(a, o, thread, request, env).1.Ok?
    ensures AnchorOf(a, o, thread, request, env).0 == a
    ensures Asked(a, o, thread, AnchorOf(a, o, thread, request, env).1.value, env)
  {
    var previous := a.messages[request.target.messageId];
    assert MessageClosed(a, previous.parent.value);
  }

  lemma QuestionFits(a: State, o: Owner, thread: Thread, request: BeginTurn, env: Env)
    requires ReadyFor(a, o, thread, env) && !request.target.Regenerate? && AnchorOf(a, o, thread, request, env).1.Ok?
    ensures var (b, q) := AnchorOf(a, o, thread, request, env);
            q.Ok? && b == PutMessage(a, q.value) && Fits(a, o, WriteMessage(q.value))
  {
    assert ThreadClosed(a, thread.id);
    if request.target.Edit? { assert MessageClosed(a, request.target.messageId); }
  }

  lemma QuestionIsAsked(a: State, o: Owner, thread: Thread, request: BeginTurn, env: Env)
    requires ReadyFor(a, o, thread, env) && !request.target.Regenerate? && AnchorOf(a, o, thread, request, env).1.Ok?
    ensures var (b, q) := AnchorOf(a, o, thread, request, env); Asked(b, o, thread, q.value, env)
  {
    QuestionFits(a, o, thread, request, env);
    PutMessageKeepsClosed(a, o, AnchorOf(a, o, thread, request, env).1.value);
    assert ThreadClosed(a, thread.id);
    if request.target.Edit? { assert MessageClosed(a, request.target.messageId); }
  }

  lemma AnswerFits(b: State, o: Owner, thread: Thread, question: Message, env: Env)
    requires Asked(b, o, thread, question, env)
    ensures var answer, leaf := AnswerTo(b, thread, question, env), WithAnswer(thread, env);
            var ws := [WriteMessage(answer), WriteThread(leaf)];
            FitAll(b, o, ws) && PutAll(b, ws) == PutThread(PutMessage(b, answer), leaf)
  {
    var answer, leaf := AnswerTo(b, thread, question, env), WithAnswer(thread, env);
    var ws := [WriteMessage(answer), WriteThread(leaf)];
    var c := PutMessage(b, answer);
    assert ThreadClosed(b, thread.id);
    assert Fits(b, o, ws[0]) && Fits(c, o, ws[1]);
    assert ws[1..] == [ws[1]] && ws[1..][1..] == [];
    assert FitAll(PutThread(c, leaf), o, []);
    assert FitAll(c, o, ws[1..]) && PutAll(c, ws[1..]) == PutThread(c, leaf);
  }

  lemma TailFits(a: State, o: Owner, thread: Thread, request: BeginTurn, env: Env)
    requires ReadyFor(a, o, thread, env)
    ensures var ws := TailWrites(a, o, thread, request, env);
      var (b, anchor) := AnchorOf(a, o, thread, request, env);
      && FitAll(a, o, ws)
      && PutAll(a, ws) == if anchor.Err? then b
                          else PutThread(PutMessage(b, AnswerTo(b, thread, anchor.value, env)), WithAnswer(thread, env))
  {
    var ws := TailWrites(a, o, thread, request, env);
    var (b, anchor) := AnchorOf(a, o, thread, request, env);
    if anchor.Ok? {
      var rest := [WriteMessage(AnswerTo(b, thread, anchor.value, env)), WriteThread(WithAnswer(thread, env))];
      if request.target.Regenerate? {
        QuestionIsOwned(a, o, thread, request, env);
        AnswerFits(b, o, thread, anchor.value, env);
        assert ws == rest;
      } else {
        QuestionFits(a, o, thread, request, env);
        QuestionIsAsked(a, o, thread, request, env);
        AnswerFits(b, o, thread, anchor.value, env);
        assert ws[1..] == rest;
      }
    }
  }

  /** The writes of a turn are the turn, and each is the owner's to make. */
  lemma TurnFits(st: State, o: Owner, request: BeginTurn, env: Env)
    requires Closed(st) && FreshEnv(st, env)
    ensures var ws := TurnWrites(st, o, request, env);
            FitAll(st, o, ws) && PutAll(st, ws) == StartTurn(st, o, request, env).0
  {
    if request.target.Regenerate? || Text.Trim(request.content) != "" {
      var first := NewThreadFits(st, o, request, env);
      var (a, found) := TurnThread(st, o, request, env);
      var rest := if found.Err? then [] else TailWrites(a, o, found.value, request, env);
      if found.Ok? { TailFits(a, o, found.value, request, env); }
      FitAppends(st, o, first, rest);
      PutAppends(st, first, rest);
    }
  }

  // ---------------------------------------------------------------- every writing call

  lemma OneWrite(st: State, o: Owner, w: Write)
    requires Fits(st, o, w)
    ensures FitAll(st, o, [w]) && PutAll(st, [w]) == Put(st, w)
  {
    PutOne(st, w);
  }

  lemma MessageCallsFit(st: State, s: Step)
    requires Closed(st) && (s.op.Finalize? || s.op.Stop?)
    ensures FitAll(st, s.owner, WritesOf(st, s)) && PutAll(st, WritesOf(st, s)) == Apply(st, s).0
  {
    var ws, b := WritesOf(st, s), Apply(st, s).0;
    if ws != [] {
      var m := ws[0].message.id;
      assert MessageClosed(st, if s.op.Stop? then s.op.message else s.op.finish.messageId);
      assert b.messages == st.messages[m := b.messages[m]];
      OneWrite(st, s.owner, ws[0]);
    }
  }

  lemma ActivationFits(st: State, s: Step)
    requires Closed(st) && s.op.Activate?
    ensures FitAll(st, s.owner, WritesOf(st, s)) && PutAll(st, WritesOf(st, s)) == Apply(st, s).0
  {
    var ws := WritesOf(st, s);
    if ws != [] {
      assert MessageClosed(st, s.op.message) && ThreadClosed(st, st.messages[s.op.message].threadId);
      OneWrite(st, s.owner, ws[0]);
    }
  }

  lemma ApprovalCallsFit(st: State, s: Step)
    requires Closed(st) && Permitted(st, s) && (s.op.Record? || s.op.Approve? || s.op.Deny? || s.op.Start? || s.op.End?)
    ensures FitAll(st, s.owner, WritesOf(st, s)) && PutAll(st, WritesOf(st, s)) == Apply(st, s).0
  {
    var ws, b := WritesOf(st, s), Apply(st, s).0;
    if ws != [] {
      var k := ws[0].row.id;
      assert CallClosed(st, if s.op.Record? then s.op.row.id else s.op.call);
      OneWrite(st, s.owner, ws[0]);
    }
  }

  lemma StepFits(st: State, s: Step)
    requires Closed(st) && FreshEnv(st, s.env) && Permitted(st, s) && Writes(s.op)
    ensures FitAll(st, s.owner, WritesOf(st, s)) && PutAll(st, WritesOf(st, s)) == Apply(st, s).0
  {
    if s.op.Create? {
      OneWrite(st, s.owner, WritesOf(st, s)[0]);
    } else if s.op.Begin? {
      TurnFits(st, s.owner, s.op.request, s.env);
    } else if s.op.Finalize? || s.op.Stop? {
      MessageCallsFit(st, s);
    } else if s.op.Activate? {
      ActivationFits(st, s);
    } else {
      ApprovalCallsFit(st, s);
    }
  }

  // ---------------------------------------------------------------- the part is a store of its own

  lemma CallHangsShown(s: State, p: State, o: Owner, row: CallRow)
    requires Shows(s, p, o) && CallHangs(s, o, row)
    ensures CallHangs(p, o, row)
  {
    OwnsShown(s, p, o, row.messageId);
    assert ThreadShown(s, p, o, row.threadId);
  }

  lemma ClosedShown(s: State, p: State, o: Owner)
    requires Closed(s) && Shows(s, p, o)
    ensures Closed(p)
  {
    forall i ensures Owns(p, o, i) <==> Owns(s, o, i) { OwnsShown(s, p, o, i); }
    forall i ensures i in p.messages <==> Owns(s, o, i) { OwnsShown(s, p, o, i); }
    forall t ensures ThreadClosed(p, t) { assert ThreadShown(s, p, o, t) && ThreadClosed(s, t); }
    forall i ensures MessageClosed(p, i) {
      OwnsShown(s, p, o, i);
      assert MessageClosed(s, i);
      if i in p.messages {
        assert ThreadShown(s, p, o, p.messages[i].threadId);
        if p.messages[i].parent.Some? { OwnsShown(s, p, o, p.messages[i].parent.value); }
      }
    }
    forall k ensures CallClosed(p, k) {
      assert CallShown(s, p, o, k) && CallClosed(s, k);
      if k in p.toolCalls { CallHangsShown(s, p, o, p.toolCalls[k]); }
    }
  }

  lemma UnusedShown(s: State, p: State, o: Owner, x: Id)
    requires Shows(s, p, o) && Unused(s, x)
    ensures Unused(p, x)
  {
    OwnsShown(s, p, o, x);
    assert ThreadShown(s, p, o, x) && FeedbackShown(s, p, o, x);
    forall i | i in p.messages ensures p.messages[i].parent != Some(x) && p.messages[i].threadId != x {
      OwnsShown(s, p, o, i);
    }
    forall t | t in p.threads ensures p.threads[t].activeLeaf != Some(x) { assert ThreadShown(s, p, o, t); }
    forall k | k in p.toolCalls ensures p.toolCalls[k].messageId != x && p.toolCalls[k].threadId != x {
      assert CallShown(s, p, o, k);
    }
  }

  lemma FreshShown(s: State, p: State, o: Owner, env: Env)
    requires Shows(s, p, o) && FreshEnv(s, env)
    ensures FreshEnv(p, env)
  {
    UnusedShown(s, p, o, env.thread);
    UnusedShown(s, p, o, env.user);
    UnusedShown(s, p, o, env.assistant);
    forall i | i in p.messages ensures p.messages[i].createdAt < env.now { OwnsShown(s, p, o, i); }
  }

  lemma PermittedShown(s: State, p: State, step: Step)
    requires Shows(s, p, step.owner) && Permitted(s, step)
    ensures Permitted(p, step)
  {
    match step.op
    case Record(row) =>
      CallHangsShown(s, p, step.owner, row);
      assert CallShown(s, p, step.owner, row.id);
    case Approve(k, _) => assert CallShown(s, p, step.owner, k);
    case Deny(k) => assert CallShown(s, p, step.owner, k);
    case Start(k, _) => assert CallShown(s, p, step.owner, k);
    case End(k, _) => assert CallShown(s, p, step.owner, k);
    case _ =>
  }

  // ---------------------------------------------------------------- writing calls answer alike

  lemma AnchorShown(a: State, p: State, o: Owner, thread: Thread, request: BeginTurn, env: Env)
    requires ReadyFor(a, o, thread, env) && Shows(a, p, o)
    ensures var (b, anchor) := AnchorOf(a, o, thread, request, env);
            && AnchorOf(p, o, thread, request, env).1 == anchor
            && Shows(b, AnchorOf(p, o, thread, request, env).0, o)
            && (anchor.Ok? ==> Asked(b, o, thread, anchor.value, env))
  {
    match request.target {
      case New =>
        SiblingsShown(a, p, o, thread.id, thread.activeLeaf);
      case Edit(m) =>
        OwnsShown(a, p, o, m);
        if Owns(a, o, m) { SiblingsShown(a, p, o, thread.id, a.messages[m].parent); }
      case Regenerate(m) =>
        OwnsShown(a, p, o, m);
        if Owns(a, o, m) && a.messages[m].parent.Some? { OwnsShown(a, p, o, a.messages[m].parent.value); }
    }
    var anchor := AnchorOf(a, o, thread, request, env).1;
    if anchor.Ok? {
      if request.target.Regenerate? {
        QuestionIsOwned(a, o, thread, request, env);
      } else {
        QuestionFits(a, o, thread, request, env);
        QuestionIsAsked(a, o, thread, request, env);
        PutMessageShows(a, p, o, o, anchor.value);
      }
    }
  }

  lemma AnswerIsWritten(b: State, p: State, o: Owner, thread: Thread, question: Message, env: Env)
    requires Shows(b, p, o) && Asked(b, o, thread, question, env)
    ensures var answer, leaf := AnswerTo(b, thread, question, env), WithAnswer(thread, env);
            var c, q := PutThread(PutMessage(b, answer), leaf), PutThread(PutMessage(p, answer), leaf);
            Shows(c, q, o) && Closed(c)
  {
    var answer, leaf := AnswerTo(b, thread, question, env), WithAnswer(thread, env);
    var ws := [WriteMessage(answer), WriteThread(leaf)];
    AnswerFits(b, o, thread, question, env);
    WritesKeepClosed(b, o, ws);
    WritesShow(b, p, o, o, ws);
    assert ws[1..] == [ws[1]] && ws[1..][1..] == [];
    assert PutAll(PutMessage(p, answer), ws[1..]) == PutThread(PutMessage(p, answer), leaf);
  }

  /** Once asked, a question is answered alike. */
  lemma AnswerShown(b: State, p: State, o: Owner, thread: Thread, question: Message, env: Env)
    requires Shows(b, p, o) && Asked(b, o, thread, question, env)
    ensures AnswerTo(p, thread, question, env) == AnswerTo(b, thread, question, env)
    ensures var answer, leaf := AnswerTo(b, thread, question, env), WithAnswer(thread, env);
            var c, q := PutThread(PutMessage(b, answer), leaf), PutThread(PutMessage(p, answer), leaf);
            Decorate(q, question) == Decorate(c, question) && Decorate(q, answer) == Decorate(c, answer)
  {
    SiblingsShown(b, p, o, thread.id, Some(question.id));
    var answer, leaf := AnswerTo(b, thread, question, env), WithAnswer(thread, env);
    var c, q := PutThread(PutMessage(b, answer), leaf), PutThread(PutMessage(p, answer), leaf);
    AnswerIsWritten(b, p, o, thread, question, env);
    DecorateShown(c, q, o, question);
    DecorateShown(c, q, o, answer);
  }

  lemma TurnThreadShown(s: State, p: State, o: Owner, request: BeginTurn, env: Env)
    requires Closed(s) && FreshEnv(s, env) && Shows(s, p, o)
    ensures var (a, found) := TurnThread(s, o, request, env);
            && TurnThread(p, o, request, env).1 == found && Shows(a, TurnThread(p, o, request, env).0, o)
            && (found.Ok? ==> ReadyFor(a, o, found.value, env))
  {
    var first := NewThreadFits(s, o, request, env);
    if request.threadId.Some? { ThreadsShown(s, p, o, request.threadId.value); }
    WritesShow(s, p, o, o, first);
    if first != [] { PutOne(p, first[0]); }
  }

  lemma TurnShown(s: State, p: State, o: Owner, request: BeginTurn, env: Env)
    requires Closed(s) && FreshEnv(s, env) && Shows(s, p, o)
    ensures StartTurn(p, o, request, env).1 == StartTurn(s, o, request, env).1
    ensures TurnWrites(p, o, request, env) == TurnWrites(s, o, request, env)
  {
    if request.target.Regenerate? || Text.Trim(request.content) != "" {
      TurnThreadShown(s, p, o, request, env);
      var (a, found) := TurnThread(s, o, request, env);
      var a' := TurnThread(p, o, request, env).0;
      if found.Ok? {
        AnchorShown(a, a', o, found.value, request, env);
        var (b, anchor) := AnchorOf(a, o, found.value, request, env);
        if anchor.Ok? {
          AnswerShown(b, AnchorOf(a', o, found.value, request, env).0, o, found.value, anchor.value, env);
        }
      }
    }
  }

  lemma MessageCallsShown(s: State, p: State, step: Step)
    requires Closed(s) && Shows(s, p, step.owner) && (step.op.Finalize? || step.op.Stop?)
    ensures Apply(p, step).1 == Apply(s, step).1 && WritesOf(p, step) == WritesOf(s, step)
  {
    OwnsShown(s, p, step.owner, if step.op.Stop? then step.op.message else step.op.finish.messageId);
  }

  lemma ActivationShown(s: State, p: State, step: Step)
    requires Closed(s) && Shows(s, p, step.owner) && step.op.Activate?
    ensures Apply(p, step).1 == Apply(s, step).1 && WritesOf(p, step) == WritesOf(s, step)
  {
    var o, m := step.owner, step.op.message;
    OwnsShown(s, p, o, m);
    if Owns(s, o, m) {
      var target := s.messages[m];
      assert ThreadShown(s, p, o, target.threadId);
      SiblingsShown(s, p, o, target.threadId, Some(target.id));
      assert Replies(p, target) == Replies(s, target);
      var ids := Replies(s, target);
      if ids != {} {
        LatestExists(s, ids);
        var i :| IsLatest(s, ids, i);
        assert IsLatest(p, ids, i);
      }
    }
  }

  lemma ApprovalCallsShown(s: State, p: State, step: Step)
    requires Closed(s) && Shows(s, p, step.owner) && Permitted(s, step)
    requires step.op.Record? || step.op.Approve? || step.op.Deny? || step.op.Start? || step.op.End?
    ensures Apply(p, step).1 == Apply(s, step).1 && WritesOf(p, step) == WritesOf(s, step)
  {
    assert CallShown(s, p, step.owner, if step.op.Record? then step.op.row.id else step.op.call);
  }

  lemma WritingCallShown(s: State, p: State, step: Step)
    requires Closed(s) && FreshEnv(s, step.env) && Permitted(s, step) && Shows(s, p, step.owner) && Writes(step.op)
    ensures Apply(p, step).1 == Apply(s, step).1 && WritesOf(p, step) == WritesOf(s, step)
  {
    if step.op.Begin? {
      TurnShown(s, p, step.owner, step.op.request, step.env);
    } else if step.op.Finalize? || step.op.Stop? {
      MessageCallsShown(s, p, step);
    } else if step.op.Activate? {
      ActivationShown(s, p, step);
    } else if !step.op.Create? {
      ApprovalCallsShown(s, p, step);
    }
  }

  // ---------------------------------------------------------------- deletions, feedback and sweeps

  lemma OwnDeletionShows(s: State, p: State, o: Owner, t: Id)
    requires Closed(s) && Shows(s, p, o) && HasThread(s, o, t)
    ensures DeleteThread(p, o, t).1 == DeleteThread(s, o, t).1
    ensures Shows(DeleteThread(s, o, t).0, DeleteThread(p, o, t).0, o)
  {
    var s', p' := DeleteThread(s, o, t).0, DeleteThread(p, o, t).0;
    ThreadsShown(s, p, o, t);
    forall i ensures Owns(s', o, i) <==> Owns(s, o, i) && s.messages[i].threadId != t {}
    forall u ensures ThreadShown(s', p', o, u) { assert ThreadShown(s, p, o, u); }
    forall i ensures MessageShown(s', p', o, i) { assert MessageShown(s, p, o, i); }
    forall k ensures CallShown(s', p', o, k) { assert CallShown(s, p, o, k) && CallClosed(s, k); }
    forall i ensures FeedbackShown(s', p', o, i) { assert FeedbackShown(s, p, o, i); }
  }

  lemma OtherDeletionIsHidden(s: State, p: State, o: Owner, u: Owner, t: Id)
    requires Closed(s) && Shows(s, p, o) && HasThread(s, u, t) && u != o
    ensures Shows(DeleteThread(s, u, t).0, p, o)
  {
    var s' := DeleteThread(s, u, t).0;
    forall i ensures Owns(s', o, i) <==> Owns(s, o, i) {}
    forall v ensures ThreadShown(s', p, o, v) { assert ThreadShown(s, p, o, v); }
    forall i ensures MessageShown(s', p, o, i) { assert MessageShown(s, p, o, i); }
    forall k ensures CallShown(s', p, o, k) { assert CallShown(s, p, o, k) && CallClosed(s, k); }
    forall i ensures FeedbackShown(s', p, o, i) { assert FeedbackShown(s, p, o, i); }
  }

  lemma DeleteIsIsolated(s: State, p: State, o: Owner, step: Step)
    requires Closed(s) && Shows(s, p, o) && step.op.Delete?
    ensures Closed(Apply(s, step).0)
    ensures step.owner == o ==> Apply(p, step).1 == Apply(s, step).1 && Shows(Apply(s, step).0, Apply(p, step).0, o)
    ensures step.owner != o ==> Shows(Apply(s, step).0, p, o)
  {
    var t := step.op.thread;
    ThreadsShown(s, p, o, t);
    if HasThread(s, step.owner, t) {
      DeleteKeepsClosed(s, step.owner, t);
      if step.owner == o { OwnDeletionShows(s, p, o, t); } else { OtherDeletionIsHidden(s, p, o, step.owner, t); }
    }
  }

  lemma DeleteKeepsClosed(st: State, o: Owner, t: Id)
    requires Closed(st) && HasThread(st, o, t)
    ensures Closed(DeleteThread(st, o, t).0)
  {
    var st' := DeleteThread(st, o, t).0;
    forall i, u ensures Owns(st', u, i) <==> Owns(st, u, i) && st.messages[i].threadId != t {}
    forall u ensures ThreadClosed(st', u) { assert ThreadClosed(st, u); }
    forall i ensures MessageClosed(st', i) { assert MessageClosed(st, i); }
    forall k ensures CallClosed(st', k) { assert CallClosed(st, k); }
  }

  lemma SameRowsKeepClosed(a: State, b: State)
    requires Closed(a) && b == a.(feedback := b.feedback)
    ensures Closed(b)
  {
    forall i, u ensures Owns(b, u, i) <==> Owns(a, u, i) {}
    forall t ensures ThreadClosed(b, t) { assert ThreadClosed(a, t); }
    forall i ensures MessageClosed(b, i) { assert MessageClosed(a, i); }
    forall k ensures CallClosed(b, k) { assert CallClosed(a, k); }
  }

  /** Feedback shows if it did, and changed alike or where it does not show. */
  lemma FeedbackShows(s: State, p: State, s': State, p': State, o: Owner)
    requires Shows(s, p, o) && s' == s.(feedback := s'.feedback) && p' == p.(feedback := p'.feedback)
    requires forall i {:trigger FeedbackShown(s', p', o, i)} :: FeedbackShown(s', p', o, i)
    ensures Shows(s', p', o)
  {
    forall i ensures Owns(s', o, i) <==> Owns(s, o, i) {}
    forall t ensures ThreadShown(s', p', o, t) { assert ThreadShown(s, p, o, t); }
    forall i ensures MessageShown(s', p', o, i) { assert MessageShown(s, p, o, i); }
    forall k ensures CallShown(s', p', o, k) { assert CallShown(s, p, o, k); }
  }

  lemma FeedbackIsIsolated(s: State, p: State, o: Owner, step: Step)
    requires Closed(s) && Shows(s, p, o) && (step.op.Rate? || step.op.Unrate?)
    ensures Closed(Apply(s, step).0)
    ensures step.owner == o ==> Apply(p, step).1 == Apply(s, step).1 && Shows(Apply(s, step).0, Apply(p, step).0, o)
    ensures step.owner != o ==> Shows(Apply(s, step).0, p, o)
  {
    var s', m := Apply(s, step).0, step.op.message;
    var p' := if step.owner == o then Apply(p, step).0 else p;
    OwnsShown(s, p, o, m);
    assert FeedbackShown(s, p, o, m);
    forall i ensures FeedbackShown(s', p', o, i) { assert FeedbackShown(s, p, o, i); }
    SameRowsKeepClosed(s, s');
    FeedbackShows(s, p, s', p', o);
  }

  /** The two sweeps of the system work on every owner's rows alike. */
  predicate IsSweep(op: Operation) {
    op.Sweep? || op.Expire?
  }

  lemma StaleSweepKeepsClosed(st: State, cutoff: Time, code: string, now: Time)
    requires Closed(st)
    ensures Closed(FinalizeStale(st, cutoff, code, now))
  {
    var st' := FinalizeStale(st, cutoff, code, now);
    forall i, u ensures Owns(st', u, i) <==> Owns(st, u, i) {}
    forall t ensures ThreadClosed(st', t) { assert ThreadClosed(st, t); }
    forall i ensures MessageClosed(st', i) { assert MessageClosed(st, i); }
    forall k ensures CallClosed(st', k) { assert CallClosed(st, k); }
  }

  lemma ExpirySweepKeepsClosed(st: State, now: Time)
    requires Closed(st)
    ensures Closed(st.(toolCalls := ExpireCalls(st.toolCalls, now)))
  {
    var st' := st.(toolCalls := ExpireCalls(st.toolCalls, now));
    forall i, u ensures Owns(st', u, i) <==> Owns(st, u, i) {}
    forall t ensures ThreadClosed(st', t) { assert ThreadClosed(st, t); }
    forall i ensures MessageClosed(st', i) { assert MessageClosed(st, i); }
    forall k ensures CallClosed(st', k) { assert CallClosed(st, k); }
  }

  lemma SweepKeepsClosed(st: State, step: Step)
    requires Closed(st) && IsSweep(step.op)
    ensures Closed(Apply(st, step).0)
  {
    match step.op
    case Sweep(cutoff, code) => StaleSweepKeepsClosed(st, cutoff, code, step.env.now);
    case Expire => ExpirySweepKeepsClosed(st, step.env.now);
  }

  lemma StaleSweepShows(s: State, p: State, o: Owner, cutoff: Time, code: string, now: Time)
    requires Shows(s, p, o)
    ensures Shows(FinalizeStale(s, cutoff, code, now), FinalizeStale(p, cutoff, code, now), o)
  {
    var s', p' := FinalizeStale(s, cutoff, code, now), FinalizeStale(p, cutoff, code, now);
    forall i ensures Owns(s', o, i) <==> Owns(s, o, i) {}
    forall t ensures ThreadShown(s', p', o, t) { assert ThreadShown(s, p, o, t); }
    forall i ensures MessageShown(s', p', o, i) { assert MessageShown(s, p, o, i); }
    forall k ensures CallShown(s', p', o, k) { assert CallShown(s, p, o, k); }
    forall i ensures FeedbackShown(s', p', o, i) { assert FeedbackShown(s, p, o, i); }
  }

  lemma ExpirySweepShows(s: State, p: State, o: Owner, now: Time)
    requires Shows(s, p, o)
    ensures Shows(s.(toolCalls := ExpireCalls(s.toolCalls, now)), p.(toolCalls := ExpireCalls(p.toolCalls, now)), o)
  {
    var s', p' := s.(toolCalls := ExpireCalls(s.toolCalls, now)), p.(toolCalls := ExpireCalls(p.toolCalls, now));
    forall i ensures Owns(s', o, i) <==> Owns(s, o, i) {}
    forall t ensures ThreadShown(s', p', o, t) { assert ThreadShown(s, p, o, t); }
    forall i ensures MessageShown(s', p', o, i) { assert MessageShown(s, p, o, i); }
    forall k ensures CallShown(s', p', o, k) { assert CallShown(s, p, o, k); }
    forall i ensures FeedbackShown(s', p', o, i) { assert FeedbackShown(s, p, o, i); }
  }

  lemma SweepIsIsolated(s: State, p: State, o: Owner, step: Step)
    requires Shows(s, p, o) && IsSweep(step.op)
    ensures Shows(Apply(s, step).0, Apply(p, step).0, o)
  {
    match step.op
    case Sweep(cutoff, code) => StaleSweepShows(s, p, o, cutoff, code, step.env.now);
    case Expire => ExpirySweepShows(s, p, o, step.env.now);
  }
}
