/** What each call stores, field by field, and where its readers find it.

    A call is pinned from two sides: after it, every row it names holds what the call was given
    and no other row has changed; and the views, messages and histories read afterwards show
    exactly that. The laws speak of fields, of rows before and after, and of readers. */
module Effects {
  import opened Json
  import opened Text
  import opened Provider
  import opened Types
  import opened Store
  import opened Calls

  // ---------------------------------------------------------------- one row rewritten

  /** `b` is `a` but for what message `i` says: its place is as it was. */
  ghost predicate OnlyRow(a: State, b: State, i: Id) {
    && b.threads == a.threads && b.feedback == a.feedback && b.toolCalls == a.toolCalls
    && i in a.messages && b.messages.Keys == a.messages.Keys
    && (forall j | j in a.messages && j != i :: b.messages[j] == a.messages[j])
    && var m, n := a.messages[i], b.messages[i];
       && n.id == m.id && n.threadId == m.threadId && n.parent == m.parent && n.role == m.role
       && n.version == m.version && n.createdAt == m.createdAt
  }

  ghost predicate OwnsAnswer(st: State, owner: Owner, m: Id) {
    && m in st.messages && st.messages[m].role == AssistantRole
    && st.messages[m].threadId in st.threads && st.threads[st.messages[m].threadId].owner == owner
  }

  lemma OnlyRowDescends(a: State, b: State, i: Id)
    requires Descending(a.messages) && OnlyRow(a, b, i)
    ensures Descending(b.messages)
  {
  }

  lemma {:induction false} OnlyRowKeepsPaths(a: State, b: State, i: Id, cursor: Option<Id>)
    requires Descending(a.messages) && Descending(b.messages) && OnlyRow(a, b, i)
    ensures Path(b.messages, cursor) == Path(a.messages, cursor)
    decreases Height(a.messages, cursor)
  {
    if cursor.Some? && cursor.value in a.messages { OnlyRowKeepsPaths(a, b, i, a.messages[cursor.value].parent); }
  }

  // ---------------------------------------------------------------- finishing and stopping

  /** A finished answer is stored as it was given, and nothing else changes. Only an answer of
      the caller can be finished, and only with a status that ends it. */
  lemma FinishIsStored(st: State, owner: Owner, f: Finish, env: Env)
    ensures var (b, r) := FinalizeAssistant(st, owner, f, env);
      && (r.Ok? <==> f.status != Pending && f.status != Streaming && OwnsAnswer(st, owner, f.messageId))
      && (r.Err? ==>
            b == st && r.error == if f.status == Pending || f.status == Streaming then Validation else NotFound)
      && (r.Ok? ==>
            && OnlyRow(st, b, f.messageId)
            && var row := b.messages[f.messageId];
               && row.content == f.content && row.reasoning == f.reasoning && row.status == f.status
               && row.errorDetail == f.errorDetail && row.usage == f.usage
               && row.updatedAt == env.now && row.completedAt == Some(env.now))
  {
  }

  /** A stop ends a turn that is running or parked, and keeps what it has said so far. */
  lemma StopIsStored(st: State, owner: Owner, m: Id, env: Env)
    ensures var (b, r) := StopTurn(st, owner, m, env);
      && (r.Ok? <==> OwnsAnswer(st, owner, m)) && (r.Err? ==> b == st && r.error == NotFound)
      && (r.Ok? ==>
            var was, row := st.messages[m], b.messages[m];
            && r.value == row && OnlyRow(st, b, m)
            && row.content == was.content && row.reasoning == was.reasoning && row.usage == was.usage
            && row.errorDetail == was.errorDetail
            && if was.status == Pending || was.status == Streaming || was.status == AwaitingDecision
               then row.status == Stopped && row.completedAt == Some(env.now) && row.updatedAt == env.now
               else b == st)
  {
    if OwnsAnswer(st, owner, m) { assert StopTurn(st, owner, m, env).1.Ok?; }
  }

  /** The sweep ends the turns that have stood still, with the code it is given, and no other row. */
  lemma SweepIsStored(st: State, cutoff: Time, code: string, now: Time)
    ensures var b := FinalizeStale(st, cutoff, code, now);
      && b.threads == st.threads && b.feedback == st.feedback && b.toolCalls == st.toolCalls
      && b.messages.Keys == st.messages.Keys
      && forall i | i in st.messages ::
           var was, row := st.messages[i], b.messages[i];
           if was.role == AssistantRole && (was.status == Pending || was.status == Streaming) && was.updatedAt < cutoff
           then row == was.(status := Error, errorDetail := Some(code), updatedAt := now, completedAt := Some(now))
           else row == was
  {
  }

  // ---------------------------------------------------------------- what history tells

  /** The history up to a message ends with what that message contributes. */
  lemma HistoryEnds(st: State, owner: Owner, m: Id) returns (before: seq<ChatMessage>)
    requires Descending(st.messages) && Owns(st, owner, m)
    ensures HistoryForMessage(st, owner, m) == Result.Ok(before + HistoryOf(Decorate(st, st.messages[m])))
  {
    var path := Path(st.messages, Some(m));
    var above := Path(st.messages, st.messages[m].parent);
    PathIsHeld(st.messages, Some(m));
    PathIsHeld(st.messages, st.messages[m].parent);
    assert DecorateAll(st, path) == DecorateAll(st, above) + [Decorate(st, st.messages[m])];
    before := Histories(DecorateAll(st, above));
    HistoriesAppend(DecorateAll(st, above), [Decorate(st, st.messages[m])]);
    HistoriesOne(Decorate(st, st.messages[m]));
  }

  lemma {:induction false} HistoriesAppend(a: seq<MessageView>, b: seq<MessageView>)
    ensures Histories(a + b) == Histories(a) + Histories(b)
  {
    if a == [] {
      assert a + b == b;
    } else {
      assert (a + b)[1..] == a[1..] + b;
      HistoriesAppend(a[1..], b);
    }
  }

  lemma HistoriesOne(view: MessageView)
    ensures Histories([view]) == HistoryOf(view)
  {
    assert [view][1..] == [] && HistoryOf(view) + [] == HistoryOf(view);
  }

  /** The fields of a tool result as the provider is told it: marked as untrusted, with the
      data of a call that succeeded, or the code of one that did not. */
  lemma PayloadTells(row: CallRow)
    ensures var p := WrapUntrusted(CallPayload(row));
      && p.Obj? && "untrusted" in p.fields && p.fields["untrusted"] == Bool(true)
      && "note" in p.fields && p.fields["note"] == Str(UNTRUSTED_NOTE)
      && "ok" in p.fields
      && (p.fields["ok"] == Bool(true) <==>
            row.result.Some? || (row.errorCode.None? && row.status == ToolCallStatus.Succeeded))
      && (p.fields["ok"] == Bool(true) ==>
            "data" in p.fields && p.fields["data"] == if row.result.Some? then row.result.value else Null)
      && (p.fields["ok"] != Bool(true) ==>
            && p.fields["ok"] == Bool(false) && "code" in p.fields
            && p.fields["code"] == Str(if row.errorCode.Some? then row.errorCode.value
                                       else if row.status == AwaitingApproval then "tool_approval_required"
                                       else "tool_internal"))
  {
  }

  /** What one row tells the provider: nothing, if it is an answer that says nothing and calls
      nothing; otherwise its text under its role, then for every call it holds, by ascending
      identifier, the call and what became of it. */
  lemma RowTells(view: MessageView)
    ensures var h, ids := HistoryOf(view), SortedKeys(view.calls.Keys);
      if view.message.role == AssistantRole && Trim(view.message.content) == "" && view.calls == map[] then h == []
      else
        && |h| == 1 + |ids| && h[0].role == (if view.message.role == UserRole then User else Assistant)
        && h[0].content == Plain(view.message.content) && h[0].toolCallId == None
        && (h[0].toolCalls == None <==> view.calls == map[])
        && (h[0].toolCalls.Some? ==> |h[0].toolCalls.value| == |ids|)
        && forall i | 0 <= i < |ids| ::
             && ids[i] in view.calls
             && var row := view.calls[ids[i]];
                && h[0].toolCalls.Some? && i < |h[0].toolCalls.value|
                && h[0].toolCalls.value[i] == ToolCall(row.id, row.name, row.arguments)
                && h[1 + i] == ToolResult(row.id, WrapUntrusted(CallPayload(row)))
  {
    var ids := SortedKeys(view.calls.Keys);
    assert |CallsOf(view)| == |ids| == |ResultsOf(view)|;
    assert view.calls == map[] <==> view.calls.Keys == {};
    forall i | 0 <= i < |ids| ensures ids[i] in view.calls { assert ids[i] in ids; }
  }

  // ---------------------------------------------------------------- what readers find

  /** A message is shown as it is stored, with exactly its own calls and feedback. */
  lemma MessageIsShown(st: State, owner: Owner, m: Id)
    ensures GetMessage(st, owner, m).Ok? <==> Owns(st, owner, m)
    ensures GetMessage(st, owner, m).Err? ==> GetMessage(st, owner, m).error == NotFound
    ensures Owns(st, owner, m) && st.messages[m].id == m ==>
      var view := GetMessage(st, owner, m).value;
      && view.message == st.messages[m]
      && (forall k :: k in view.calls <==> k in st.toolCalls && st.toolCalls[k].messageId == m)
      && (forall k | k in view.calls :: view.calls[k] == st.toolCalls[k])
      && (forall f :: view.feedback == Some(f) <==> m in st.feedback && st.feedback[m] == f)
      && (forall i :: i in view.versions <==>
            i in st.messages && st.messages[i].threadId == view.message.threadId
            && st.messages[i].parent == view.message.parent)
      && (forall i | i in view.versions ::
            && (view.versions[i].isActive <==> i == m) && view.versions[i].status == st.messages[i].status
            && view.versions[i].createdAt == st.messages[i].createdAt)
  {
  }

  /** A thread that has a leaf is shown with the leaf's row last. */
  lemma ThreadEndsWithLeaf(st: State, owner: Owner, t: Id, leaf: Id)
    requires Descending(st.messages) && t in st.threads && st.threads[t].owner == owner
    requires st.threads[t].activeLeaf == Some(leaf) && leaf in st.messages
    ensures ViewThread(st, owner, t).Ok?
    ensures var view := ViewThread(st, owner, t).value;
      && view.thread == st.threads[t] && view.messages != []
      && view.messages[|view.messages| - 1] == Decorate(st, st.messages[leaf])
  {
    PathIsHeld(st.messages, Some(leaf));
  }

  /** A finished answer is what its readers are shown, and what the provider is told. */
  lemma FinishedIsRead(st: State, owner: Owner, f: Finish, env: Env) returns (before: seq<ChatMessage>)
    requires Descending(st.messages) && FinalizeAssistant(st, owner, f, env).1.Ok?
    ensures var b, t := FinalizeAssistant(st, owner, f, env).0, st.messages[f.messageId].threadId;
      && Descending(b.messages) && GetMessage(b, owner, f.messageId).Ok?
      && GetMessage(b, owner, f.messageId).value.message.content == f.content
      && (st.threads[t].activeLeaf == Some(f.messageId) ==>
            && ViewThread(b, owner, t).Ok? && ViewThread(b, owner, t).value.messages != []
            && var rows := ViewThread(b, owner, t).value.messages;
               var last := rows[|rows| - 1].message;
               && last.id == f.messageId && last.content == f.content
               && last.role == AssistantRole && last.status == f.status)
      && var view := GetMessage(b, owner, f.messageId).value;
         && HistoryForMessage(b, owner, f.messageId) == Result.Ok(before + HistoryOf(view))
         && (Trim(f.content) != "" || view.calls != map[] ==>
               && HistoryOf(view) != [] && HistoryOf(view)[0].role == Assistant
               && HistoryOf(view)[0].content == Plain(f.content))
  {
    var b, t := FinalizeAssistant(st, owner, f, env).0, st.messages[f.messageId].threadId;
    FinishIsStored(st, owner, f, env);
    OnlyRowDescends(st, b, f.messageId);
    MessageIsShown(b, owner, f.messageId);
    if st.threads[t].activeLeaf == Some(f.messageId) { ThreadEndsWithLeaf(b, owner, t, f.messageId); }
    before := HistoryEnds(b, owner, f.messageId);
    RowTells(GetMessage(b, owner, f.messageId).value);
  }

  // ---------------------------------------------------------------- beginning a turn

  /** Every row of `a` is in `b`, which holds no others than these. */
  ghost predicate Keeps(a: State, b: State, added: set<Id>) {
    && b.feedback == a.feedback && b.toolCalls == a.toolCalls
    && (forall i | i in a.messages :: i in b.messages && b.messages[i] == a.messages[i])
    && (forall i | i in b.messages :: i in a.messages || i in added)
  }

  predicate OwnsThread(st: State, owner: Owner, t: Id) {
    t in st.threads && st.threads[t].owner == owner
  }

  predicate OwnsMessage(st: State, owner: Owner, m: Id) {
    m in st.messages && OwnsThread(st, owner, st.messages[m].threadId)
  }

  /** What a request may ask for: a question that says something, in a thread of the caller, or
      in place of a question of the caller; or another answer to a question of the caller. */
  predicate MayBegin(st: State, owner: Owner, request: BeginTurn) {
    && (request.target.Regenerate? || Trim(request.content) != "")
    && (request.threadId.Some? ==> OwnsThread(st, owner, request.threadId.value)) && HasAnchor(st, owner, request)
  }

  predicate HasAnchor(st: State, owner: Owner, request: BeginTurn) {
    match request.target
    case New => true
    case Edit(m) => OwnsMessage(st, owner, m) && st.messages[m].role == UserRole
    case Regenerate(m) =>
      && OwnsMessage(st, owner, m) && st.messages[m].role == AssistantRole && st.messages[m].parent.Some?
      && OwnsMessage(st, owner, st.messages[m].parent.value)
  }

  /** Why a request may not: it says nothing or asks for something of the wrong kind, or names
      what is not there for the caller. */
  predicate Malformed(st: State, owner: Owner, request: BeginTurn) {
    || (!request.target.Regenerate? && Trim(request.content) == "")
    || ((request.threadId.Some? ==> OwnsThread(st, owner, request.threadId.value)) && WrongKind(st, owner, request))
  }

  predicate WrongKind(st: State, owner: Owner, request: BeginTurn) {
    match request.target
    case New => false
    case Edit(m) => OwnsMessage(st, owner, m) && st.messages[m].role != UserRole
    case Regenerate(m) =>
      OwnsMessage(st, owner, m) && (st.messages[m].role != AssistantRole || st.messages[m].parent.None?)
  }

  lemma AnchorsThatAre(st: State, a: State, owner: Owner, thread: Thread, request: BeginTurn, env: Env)
    requires a.messages == st.messages && forall m :: Owns(a, owner, m) <==> OwnsMessage(st, owner, m)
    ensures var (b, r) := AnchorOf(a, owner, thread, request, env);
      && (r.Ok? <==> HasAnchor(st, owner, request)) && (r.Err? ==> b == a)
      && (r.Err? ==> r.error == if WrongKind(st, owner, request) then Validation else NotFound)
  {
    match request.target
    case New =>
    case Edit(m) => assert Owns(a, owner, m) <==> OwnsMessage(st, owner, m);
    case Regenerate(m) =>
      assert Owns(a, owner, m) <==> OwnsMessage(st, owner, m);
      if m in st.messages && st.messages[m].parent.Some? {
        assert Owns(a, owner, st.messages[m].parent.value) <==> OwnsMessage(st, owner, st.messages[m].parent.value);
      }
  }

  /** A new thread, as it is created on the spot. */
  predicate Fresh(thread: Thread, id: Id, owner: Owner, title: string, now: Time) {
    && thread.id == id && thread.owner == owner && thread.title == title && thread.activeLeaf.None?
    && thread.createdAt == now && thread.updatedAt == now
  }

  lemma ThreadOfTurn(st: State, owner: Owner, request: BeginTurn, env: Env)
    requires FreshEnv(st, env) && (forall t | t in st.threads :: st.threads[t].id == t)
    ensures var (a, found) := TurnThread(st, owner, request, env);
      && a.messages == st.messages && a.feedback == st.feedback && a.toolCalls == st.toolCalls
      && (request.threadId.Some? ==>
            a == st && (found.Ok? <==> OwnsThread(st, owner, request.threadId.value))
            && (found.Ok? ==> found.value == st.threads[request.threadId.value])
            && (found.Err? ==> found.error == NotFound))
      && (request.threadId.None? ==>
            && found.Ok? && Fresh(found.value, env.thread, owner, DeriveTitle(request.content), env.now)
            && a.threads == st.threads[env.thread := found.value])
      && (found.Ok? ==> found.value.id in a.threads && a.threads[found.value.id] == found.value)
      && (forall m :: Owns(a, owner, m) <==> OwnsMessage(st, owner, m))
  {
  }

  /** A question as it is asked. */
  predicate Question(m: Message, id: Id, t: Id, parent: Option<Id>, content: string, now: Time) {
    && m.id == id && m.threadId == t && m.parent == parent && m.role == UserRole && m.content == content
    && m.status == Complete && m.reasoning.None? && m.errorDetail.None? && m.usage.None?
    && m.createdAt == now && m.updatedAt == now && m.completedAt == Some(now)
  }

  /** An answer that is to come. */
  predicate Awaited(m: Message, id: Id, t: Id, question: Id, now: Time) {
    && m.id == id && m.threadId == t && m.parent == Some(question) && m.role == AssistantRole && m.content == ""
    && m.status == Pending && m.reasoning.None? && m.errorDetail.None? && m.usage.None?
    && m.createdAt == now && m.updatedAt == now && m.completedAt.None?
  }

  /** The question a turn answers: the one it asks, below the leaf of its thread or in place of
      another; or the one that was answered before. */
  ghost predicate Asks(a: State, b: State, thread: Thread, request: BeginTurn, env: Env, q: Message) {
    && q.id in b.messages && b.messages[q.id] == q
    && match request.target
       case New => Question(q, env.user, thread.id, thread.activeLeaf, request.content, env.now)
       case Edit(m) =>
         m in a.messages && Question(q, env.user, thread.id, a.messages[m].parent, request.content, env.now)
       case Regenerate(m) =>
         && m in a.messages && a.messages[m].parent.Some? && a.messages[m].parent.value in a.messages
         && q == a.messages[a.messages[m].parent.value]
  }

  lemma QuestionOfTurn(a: State, owner: Owner, thread: Thread, request: BeginTurn, env: Env)
    requires Unused(a, env.user) && Descending(a.messages)
    ensures var (b, anchor) := AnchorOf(a, owner, thread, request, env);
      && b == a.(messages := b.messages)
      && (anchor.Err? ==> b == a) && Keeps(a, b, if request.target.Regenerate? then {} else {env.user})
      && (anchor.Ok? ==> Asks(a, b, thread, request, env, anchor.value))
  {
    var (b, anchor) := AnchorOf(a, owner, thread, request, env);
    if anchor.Ok? && request.target.Regenerate? {
      var question := a.messages[request.target.messageId].parent.value;
      assert a.messages[question].id == question;
    }
  }

  lemma AnswerOfTurn(a: State, thread: Thread, q: Id, version: nat, env: Env)
    requires env.assistant !in a.messages
    ensures var leaf := thread.(activeLeaf := Some(env.assistant), updatedAt := env.now);
      var b := PutThread(PutMessage(a, AssistantMessage(thread.id, q, version, env)), leaf);
      && Keeps(a, b, {env.assistant}) && env.assistant in b.messages
      && Awaited(b.messages[env.assistant], env.assistant, thread.id, q, env.now)
      && b.threads == a.threads[thread.id := leaf]
  {
  }

  /** A turn that begins is its thread, its question and its answer, written in this order. */
  lemma TurnInSteps(st: State, owner: Owner, request: BeginTurn, env: Env)
    returns (a: State, thread: Thread, c: State, question: Message)
    requires StartTurn(st, owner, request, env).1.Ok?
    ensures TurnThread(st, owner, request, env) == (a, Result.Ok(thread))
    ensures AnchorOf(a, owner, thread, request, env) == (c, Result.Ok(question))
    ensures var answer := AssistantMessage(thread.id, question.id,
                                           NextSiblingVersion(c, thread.id, Some(question.id)), env);
      var leaf := thread.(activeLeaf := Some(env.assistant), updatedAt := env.now);
      var b := PutThread(PutMessage(c, answer), leaf);
      && StartTurn(st, owner, request, env).0 == b
      && StartTurn(st, owner, request, env).1.value.thread == leaf
      && StartTurn(st, owner, request, env).1.value.user.message == question
      && StartTurn(st, owner, request, env).1.value.assistant.message == answer
  {
    a, thread := TurnThread(st, owner, request, env).0, TurnThread(st, owner, request, env).1.value;
    c, question := AnchorOf(a, owner, thread, request, env).0, AnchorOf(a, owner, thread, request, env).1.value;
  }

  /** What a turn stores: the question asked, an answer to come below it, and that answer as the
      leaf of the thread; no other row changes. */
  ghost predicate TurnStored(st: State, b: State, thread: Thread, request: BeginTurn, env: Env, question: Message) {
    && Asks(st, b, thread, request, env, question)
    && env.assistant in b.messages && Awaited(b.messages[env.assistant], env.assistant, thread.id, question.id, env.now)
    && b.threads == st.threads[thread.id := thread.(activeLeaf := Some(env.assistant), updatedAt := env.now)]
    && Keeps(st, b, if request.target.Regenerate? then {env.assistant} else {env.user, env.assistant})
  }

  lemma StepsStore(st: State, a: State, c: State, thread: Thread, request: BeginTurn, env: Env, question: Message,
                   version: nat)
    requires FreshEnv(st, env) && a == st.(threads := a.threads) && c == a.(messages := c.messages)
    requires a.threads == st.threads || a.threads == st.threads[thread.id := thread]
    requires Keeps(a, c, if request.target.Regenerate? then {} else {env.user})
    requires Asks(a, c, thread, request, env, question)
    ensures var leaf := thread.(activeLeaf := Some(env.assistant), updatedAt := env.now);
      TurnStored(st, PutThread(PutMessage(c, AssistantMessage(thread.id, question.id, version, env)), leaf),
                 thread, request, env, question)
  {
    AnswerOfTurn(c, thread, question.id, version, env);
  }

  /** A turn that begins stores what was asked and reports it. */
  lemma TurnIsStored(st: State, owner: Owner, request: BeginTurn, env: Env)
    returns (thread: Thread, question: Message)
    requires FreshEnv(st, env) && Descending(st.messages) && (forall t | t in st.threads :: st.threads[t].id == t)
    requires StartTurn(st, owner, request, env).1.Ok?
    ensures if request.threadId.Some?
      then OwnsThread(st, owner, request.threadId.value) && thread == st.threads[request.threadId.value]
      else Fresh(thread, env.thread, owner, DeriveTitle(request.content), env.now)
    ensures var (b, r) := StartTurn(st, owner, request, env);
      && TurnStored(st, b, thread, request, env, question)
      && r.value.thread == b.threads[thread.id] && r.value.user.message == question
      && r.value.assistant.message == b.messages[env.assistant]
  {
    var a, c;
    a, thread, c, question := TurnInSteps(st, owner, request, env);
    ThreadOfTurn(st, owner, request, env);
    QuestionOfTurn(a, owner, thread, request, env);
    StepsStore(st, a, c, thread, request, env, question, NextSiblingVersion(c, thread.id, Some(question.id)));
  }

  /** A turn fails where its request, its thread or its question does, with the error found there. */
  lemma TurnFails(st: State, owner: Owner, request: BeginTurn, env: Env)
    ensures var (b, r) := StartTurn(st, owner, request, env); var (a, found) := TurnThread(st, owner, request, env);
      if !request.target.Regenerate? && Trim(request.content) == "" then b == st && r == Err(Validation)
      else if found.Err? then b == a && r == Err(found.error)
      else
        var (c, anchor) := AnchorOf(a, owner, found.value, request, env);
        if anchor.Err? then b == c && r == Err(anchor.error) else r.Ok?
  {
  }

  /** What a request comes to, by the thread and the question found for it. */
  lemma RequestComesTo(st: State, owner: Owner, request: BeginTurn, env: Env, b: State, ok: bool, error: StoreError)
    requires FreshEnv(st, env) && (forall t | t in st.threads :: st.threads[t].id == t)
    requires var (a, found) := TurnThread(st, owner, request, env);
      if !request.target.Regenerate? && Trim(request.content) == "" then b == st && !ok && error == Validation
      else if found.Err? then b == a && !ok && error == found.error
      else
        var (c, anchor) := AnchorOf(a, owner, found.value, request, env);
        if anchor.Err? then b == c && !ok && error == anchor.error else ok
    ensures ok <==> MayBegin(st, owner, request)
    ensures !ok ==> b.messages == st.messages && b.feedback == st.feedback && b.toolCalls == st.toolCalls
    ensures !ok ==> error == if Malformed(st, owner, request) then Validation else NotFound
  {
    ThreadOfTurn(st, owner, request, env);
    var (a, found) := TurnThread(st, owner, request, env);
    if found.Ok? { AnchorsThatAre(st, a, owner, found.value, request, env); }
  }

  /** Turns begin exactly on requests that may; a request refused leaves every row as it is. */
  lemma TurnsThatBegin(st: State, owner: Owner, request: BeginTurn, env: Env)
    requires FreshEnv(st, env) && (forall t | t in st.threads :: st.threads[t].id == t)
    ensures var (b, r) := StartTurn(st, owner, request, env);
      && (r.Ok? <==> MayBegin(st, owner, request))
      && (r.Err? ==> b.messages == st.messages && b.feedback == st.feedback && b.toolCalls == st.toolCalls)
      && (r.Err? ==> r.error == if Malformed(st, owner, request) then Validation else NotFound)
  {
    var (b, r) := StartTurn(st, owner, request, env);
    TurnFails(st, owner, request, env);
    RequestComesTo(st, owner, request, env, b, r.Ok?, if r.Err? then r.error else NotFound);
  }

  // ---------------------------------------------------------------- threads

  /** A title made from a first line: printable, at most 80 characters of it, or a stand-in. */
  lemma TitleOf(content: string)
    ensures var title := DeriveTitle(content);
      && title != "" && |title| <= 80
      && (title == UNTITLED || title <= Trim(FirstLine(content)))
      && (Trim(FirstLine(content)) != "" ==>
            title <= Trim(FirstLine(content)) && (|title| == 80 || title == Trim(FirstLine(content))))
  {
  }

  /** The first line is all there is before the first line break. */
  lemma {:induction false} FirstLineOf(content: string)
    ensures FirstLine(content) <= content && '\n' !in FirstLine(content)
    ensures |FirstLine(content)| < |content| ==> content[|FirstLine(content)|] == '\n'
  {
    if content != "" && content[0] != '\n' { FirstLineOf(content[1..]); }
  }

  lemma CreatedIsRead(st: State, owner: Owner, title: Option<string>, env: Env)
    requires FreshEnv(st, env)
    ensures var (b, r) := CreateThread(st, owner, title, env);
      && r.Ok? && b == st.(threads := st.threads[env.thread := r.value])
      && Fresh(r.value, env.thread, owner,
               if title.Some? && Trim(title.value) != "" then title.value else "New chat", env.now)
      && (Descending(st.messages) ==> ViewThread(b, owner, env.thread) == Result.Ok(ThreadView(r.value, [])))
  {
    var b := CreateThread(st, owner, title, env).0;
    assert Descending(st.messages) ==> Path(b.messages, None) == [] && DecorateAll(b, []) == [];
  }

  /** Deleting a thread takes its messages and its calls along, and nothing else. */
  lemma DeletedIsGone(st: State, owner: Owner, t: Id)
    ensures var (b, r) := DeleteThread(st, owner, t);
      && (r.Ok? <==> OwnsThread(st, owner, t)) && (r.Err? ==> b == st && r.error == NotFound)
      && b.feedback == st.feedback
      && (r.Ok? ==>
            && (forall u :: u in b.threads <==> u in st.threads && u != t)
            && (forall i :: i in b.messages <==> i in st.messages && st.messages[i].threadId != t)
            && (forall k :: k in b.toolCalls <==> k in st.toolCalls && st.toolCalls[k].threadId != t)
            && (forall u | u in b.threads :: b.threads[u] == st.threads[u])
            && (forall i | i in b.messages :: b.messages[i] == st.messages[i])
            && (forall k | k in b.toolCalls :: b.toolCalls[k] == st.toolCalls[k]))
  {
  }

  /** Activating an answer makes it the leaf; activating a question, the last answer to it, or
      itself while it has none. */
  lemma ActivatedIsLeaf(st: State, owner: Owner, m: Id, env: Env)
    requires m in st.messages ==> st.messages[m].id == m
    ensures var (b, r) := ActivateMessage(st, owner, m, env);
      && (r.Ok? <==> OwnsMessage(st, owner, m)) && (r.Err? ==> b == st && r.error == NotFound)
      && (r.Ok? ==>
            var t := st.messages[m].threadId;
            && t in b.threads && b.threads[t].activeLeaf.Some?
            && b == st.(threads := st.threads[t :=
                          st.threads[t].(activeLeaf := b.threads[t].activeLeaf, updatedAt := env.now)])
            && Chosen(st, m, b.threads[t].activeLeaf.value))
  {
    if OwnsMessage(st, owner, m) && st.messages[m].role != AssistantRole {
      var ids := Replies(st, st.messages[m]);
      assert forall i :: i in ids <==> Answers(st, m, i);
      if ids != {} { LatestExists(st, ids); }
    }
  }

  predicate Answers(st: State, m: Id, i: Id)
    requires m in st.messages
  {
    && i in st.messages && st.messages[i].parent == Some(m) && st.messages[i].role == AssistantRole
    && st.messages[i].threadId == st.messages[m].threadId
  }

  ghost predicate Chosen(st: State, m: Id, leaf: Id)
    requires m in st.messages
  {
    if st.messages[m].role == AssistantRole || (forall i | i in st.messages :: !Answers(st, m, i)) then leaf == m
    else Answers(st, m, leaf) && forall i | i in st.messages && Answers(st, m, i) && i != leaf ::
      || st.messages[i].createdAt < st.messages[leaf].createdAt
      || (st.messages[i].createdAt == st.messages[leaf].createdAt && i < leaf)
  }

  // ---------------------------------------------------------------- feedback

  /** Feedback is on answers, is shown as it was given, remembers when it was first given, and
      can be taken back. */
  lemma FeedbackIsRead(st: State, owner: Owner, m: Id, up: bool, comment: Option<string>, env: Env)
    requires m in st.messages ==> st.messages[m].id == m
    ensures var (b, r) := SetFeedback(st, owner, m, up, comment, env);
      && (r.Ok? <==> OwnsAnswer(st, owner, m))
      && (r.Err? ==> b == st && r.error == if OwnsMessage(st, owner, m) then Validation else NotFound)
      && (r.Ok? ==>
            && b == st.(feedback := st.feedback[m := r.value])
            && r.value.messageId == m && r.value.up == up && r.value.comment == comment && r.value.updatedAt == env.now
            && r.value.createdAt == (if m in st.feedback then st.feedback[m].createdAt else env.now)
            && GetMessage(b, owner, m).Ok? && GetMessage(b, owner, m).value.feedback == Some(r.value))
    ensures var (b, r) := ClearFeedback(st, owner, m);
      && (r.Ok? <==> OwnsMessage(st, owner, m)) && (r.Err? ==> b == st && r.error == NotFound)
      && (r.Ok? ==>
            && b == st.(feedback := st.feedback - {m})
            && GetMessage(b, owner, m).Ok? && GetMessage(b, owner, m).value.feedback == None)
  {
  }

  // ---------------------------------------------------------------- recorded calls

  /** Only the call named changes. */
  ghost predicate OnlyCall(before: Rows, after: Rows, id: string) {
    id in after && after.Keys == before.Keys + {id} && forall k | k in before && k != id :: after[k] == before[k]
  }

  lemma RecordedIsKept(rows: Rows, row: CallRow)
    ensures var after := RecordCall(rows, row);
      OnlyCall(rows, after, row.id) && after[row.id] == if row.id in rows then rows[row.id] else row
  {
  }

  /** A decision is taken on a call that awaits one, and marks it with its outcome. */
  lemma DecisionsAreMarked(rows: Rows, id: string, approval: string, now: Time)
    ensures var (after, r) := MarkApproved(rows, id, approval);
      && (r.Ok? <==> id in rows && rows[id].status == AwaitingApproval)
      && (r.Err? ==> after == rows && r.error == if id in rows then Conflict else NotFound)
      && (r.Ok? ==> OnlyCall(rows, after, id)
                    && after[id] == rows[id].(status := Approved, approvalId := Some(approval)))
    ensures var (after, r) := MarkDenied(rows, id, now);
      && (r.Ok? <==> id in rows && rows[id].status == AwaitingApproval)
      && (r.Err? ==> after == rows && r.error == if id in rows then Conflict else NotFound)
      && (r.Ok? ==> OnlyCall(rows, after, id)
                    && after[id] == rows[id].(status := ToolCallStatus.Denied, completedAt := Some(now)))
  {
  }

  /** Starting and ending a call mark it whatever its status is; the approval it runs under stays
      unless another is named. What a call ended with is what the provider is told of it. */
  lemma ProgressIsMarked(rows: Rows, id: string, approval: Option<string>, c: Completion, now: Time)
    ensures var (after, r) := MarkRunning(rows, id, approval);
      && (r.Ok? <==> id in rows) && (r.Err? ==> after == rows && r.error == NotFound)
      && (r.Ok? ==>
            && OnlyCall(rows, after, id)
            && after[id] == rows[id].(status := ToolCallStatus.Running, approvalId := after[id].approvalId)
            && after[id].approvalId == if approval.Some? then approval else rows[id].approvalId)
    ensures var (after, r) := CompleteCall(rows, id, c, now);
      && (r.Ok? <==> id in rows) && (r.Err? ==> after == rows && r.error == NotFound)
      && (r.Ok? ==>
            && OnlyCall(rows, after, id)
            && after[id] == rows[id].(status := c.status, result := c.result, errorCode := c.errorCode,
                                      completedAt := Some(now), approvalId := after[id].approvalId)
            && after[id].approvalId == (if c.approvalId.Some? then c.approvalId else rows[id].approvalId)
            && forall v | c.result == Some(v) ::
                 var p := WrapUntrusted(CallPayload(after[id]));
                 && p.Obj? && "data" in p.fields && p.fields["data"] == v
                 && "ok" in p.fields && p.fields["ok"] == Bool(true))
  {
    var after := CompleteCall(rows, id, c, now).0;
    if id in rows { PayloadTells(after[id]); }
  }

  /** The sweep expires the calls that await a decision past their time, and no other row. */
  lemma ExpiredIsMarked(rows: Rows, now: Time)
    ensures var after := ExpireCalls(rows, now);
      && after.Keys == rows.Keys
      && forall k | k in rows ::
           if rows[k].status == AwaitingApproval && (exists end :: rows[k].expiresAt == Some(end) && end < now)
           then after[k] == rows[k].(status := Expired, completedAt := Some(now)) else after[k] == rows[k]
  {
    forall k | k in rows
      ensures Overdue(rows[k], now) <==>
              rows[k].status == AwaitingApproval && (exists end :: rows[k].expiresAt == Some(end) && end < now)
    {
      if Overdue(rows[k], now) { assert rows[k].expiresAt == Some(rows[k].expiresAt.value); }
    }
  }
}
