/** The store as it works: maps rewritten in place, loops that walk from parent to parent.

    Every method ties the new state and its result to the functions of `Store` and `Calls`
    on the old one; `View` is the state as a value. The walks end because every row comes
    after the row it hangs below, which the methods keep given fresh identifiers and a
    clock that moves on. */
module MemoryStore {
  import opened Json
  import opened Text
  import opened Provider
  import opened Types
  import opened Store
  import opened Calls
  import opened Operations

  function Reversed<T>(s: seq<T>): (r: seq<T>)
    ensures |r| == |s|
  {
    if s == [] then [] else Reversed(s[1..]) + [s[0]]
  }

  lemma {:induction false} ReversedPush<T>(s: seq<T>, x: T)
    ensures Reversed(s + [x]) == [x] + Reversed(s)
  {
    if s == [] {
      assert Reversed([x]) == Reversed([]) + [x];
    } else {
      ReversedPush(s[1..], x);
      assert (s + [x])[1..] == s[1..] + [x];
    }
  }

  /** `Vec::reverse`. */
  method Reverse<T>(s: seq<T>) returns (r: seq<T>)
    ensures r == Reversed(s)
  {
    r := [];
    for k := 0 to |s|
      invariant Reversed(s) == Reversed(s[k..]) + r
    {
      assert s[k..][1..] == s[k + 1..];
      r := [s[k]] + r;
    }
  }

  /** New rows come after what they hang below, and nothing hangs below them yet. */
  lemma PutKeepsDescending(st: State, m: Message)
    requires Descending(st.messages) && m.id !in st.messages && m.parent != Some(m.id)
    requires forall i | i in st.messages :: st.messages[i].parent != Some(m.id)
    requires m.parent.Some? && m.parent.value in st.messages ==> Rank(st.messages[m.parent.value]) < Rank(m)
    ensures Descending(PutMessage(st, m).messages)
  {
  }

  lemma AnchorKeepsDescending(a: State, owner: Owner, thread: Thread, request: BeginTurn, env: Env)
    requires Descending(a.messages) && Later(a, env.now) && Unused(a, env.user) && Unused(a, env.assistant)
    requires env.user != env.assistant && thread.id in a.threads && a.threads[thread.id] == thread
    ensures var (b, anchor) := AnchorOf(a, owner, thread, request, env);
            && Descending(b.messages)
            && (anchor.Ok? ==>
                  && anchor.value.id in b.messages && b.messages[anchor.value.id] == anchor.value
                  && Rank(anchor.value) <= 2 * env.now && env.assistant !in b.messages
                  && forall i | i in b.messages :: b.messages[i].parent != Some(env.assistant))
  {
    var (b, anchor) := AnchorOf(a, owner, thread, request, env);
    if anchor.Ok? && !request.target.Regenerate? { PutKeepsDescending(a, anchor.value); }
  }

  lemma TurnKeepsDescending(st: State, owner: Owner, request: BeginTurn, env: Env)
    requires Descending(st.messages) && FreshEnv(st, env) && (forall t | t in st.threads :: st.threads[t].id == t)
    ensures Descending(StartTurn(st, owner, request, env).0.messages)
  {
    var (a, found) := TurnThread(st, owner, request, env);
    if found.Ok? {
      AnchorKeepsDescending(a, owner, found.value, request, env);
      var (b, anchor) := AnchorOf(a, owner, found.value, request, env);
      if anchor.Ok? {
        var version := NextSiblingVersion(b, found.value.id, Some(anchor.value.id));
        PutKeepsDescending(b, AssistantMessage(found.value.id, anchor.value.id, version, env));
      }
    }
  }

  lemma SweepKeepsDescending(before: map<Id, Message>, after: map<Id, Message>, cutoff: Time, code: string, now: Time)
    requires Descending(before) && after.Keys == before.Keys
    requires forall i | i in before :: after[i] == Abandon(before[i], cutoff, code, now)
    ensures Descending(after)
  {
  }

  class MemoryStore {
    var threads: map<Id, Thread>
    var messages: map<Id, Message>
    var feedback: map<Id, Feedback>
    var toolCalls: Rows

    function View(): State
      reads this
    {
      State(threads, messages, feedback, toolCalls)
    }

    /** Rows carry their own identifiers, and walks to the root end. */
    ghost predicate Valid()
      reads this
    {
      Descending(messages) && forall t | t in threads :: threads[t].id == t
    }

    constructor ()
      ensures Valid() && View() == State(map[], map[], map[], map[])
    {
      threads, messages, feedback, toolCalls := map[], map[], map[], map[];
    }

    // -------------------------------------------------------------- turns

    method BeginTurn(owner: Owner, request: BeginTurn, env: Env) returns (r: Result<StartedTurn>)
      requires Valid() && FreshEnv(View(), env)
      modifies this
      ensures Valid() && (View(), r) == StartTurn(old(View()), owner, request, env)
    {
      TurnKeepsDescending(View(), owner, request, env);
      if !request.target.Regenerate? && Trim(request.content) == "" {
        return Err(Validation);
      }
      var found := OpenThread(owner, request, env);
      if found.Err? { return Err(found.error); }
      var thread := found.value;
      var anchor := Ask(owner, thread, request, env);
      if anchor.Err? { return Err(anchor.error); }
      var turn := Answer(thread, anchor.value, env);
      return Ok(turn);
    }

    /** Writes a pending answer to the question and makes it the active leaf. */
    method Answer(thread: Thread, question: Message, env: Env) returns (turn: StartedTurn)
      modifies this`messages, this`threads
      ensures var st := old(View());
              var version := NextSiblingVersion(st, thread.id, Some(question.id));
              var answer := AssistantMessage(thread.id, question.id, version, env);
              var leaf := thread.(activeLeaf := Some(env.assistant), updatedAt := env.now);
              && View() == PutThread(PutMessage(st, answer), leaf)
              && turn == StartedTurn(leaf, Decorate(View(), question), Decorate(View(), answer))
    {
      var version := NextSiblingVersion(View(), thread.id, Some(question.id));
      var answer := AssistantMessage(thread.id, question.id, version, env);
      messages := messages[answer.id := answer];
      var leaf := thread.(activeLeaf := Some(answer.id), updatedAt := env.now);
      threads := threads[thread.id := leaf];
      turn := StartedTurn(leaf, Decorate(View(), question), Decorate(View(), answer));
    }

    /** The thread the request names, or one created on the spot. */
    method OpenThread(owner: Owner, request: BeginTurn, env: Env) returns (r: Result<Thread>)
      modifies this`threads
      ensures (View(), r) == TurnThread(old(View()), owner, request, env)
    {
      match request.threadId
      case Some(t) =>
        if t !in threads || threads[t].owner != owner { return Err(NotFound); }
        return Ok(threads[t]);
      case None =>
        var thread := Thread(env.thread, owner, DeriveTitle(request.content), None, env.now, env.now);
        threads := threads[thread.id := thread];
        return Ok(thread);
    }

    /** Writes the question of a new or edited turn, or finds the one to answer again. */
    method Ask(owner: Owner, thread: Thread, request: BeginTurn, env: Env) returns (r: Result<Message>)
      modifies this`messages
      ensures (View(), r) == AnchorOf(old(View()), owner, thread, request, env)
    {
      match request.target
      case New =>
        var version := NextSiblingVersion(View(), thread.id, thread.activeLeaf);
        var question := UserMessage(request.content, thread.id, thread.activeLeaf, version, env);
        messages := messages[question.id := question];
        return Ok(question);
      case Edit(id) =>
        if !Owns(View(), owner, id) { return Err(NotFound); }
        var previous := messages[id];
        if previous.role != UserRole { return Err(Validation); }
        var version := NextSiblingVersion(View(), thread.id, previous.parent);
        var question := UserMessage(request.content, thread.id, previous.parent, version, env);
        messages := messages[question.id := question];
        return Ok(question);
      case Regenerate(id) =>
        if !Owns(View(), owner, id) { return Err(NotFound); }
        var previous := messages[id];
        if previous.role != AssistantRole || previous.parent.None? { return Err(Validation); }
        var anchor := previous.parent.value;
        if !Owns(View(), owner, anchor) { return Err(NotFound); }
        return Ok(messages[anchor]);
    }

    method CreateThread(owner: Owner, title: Option<string>, env: Env) returns (r: Result<Thread>)
      requires Valid()
      modifies this`threads
      ensures Valid() && (View(), r) == Store.CreateThread(old(View()), owner, title, env)
    {
      var name := UNTITLED;
      if title.Some? && Trim(title.value) != "" { name := title.value; }
      var thread := Thread(env.thread, owner, name, None, env.now, env.now);
      threads := threads[thread.id := thread];
      return Ok(thread);
    }

    method DeleteThread(owner: Owner, t: Id) returns (r: Result<()>)
      requires Valid()
      modifies this
      ensures Valid() && (View(), r) == Store.DeleteThread(old(View()), owner, t)
    {
      if t !in threads || threads[t].owner != owner { return Err(NotFound); }
      threads := threads - {t};
      messages := map i | i in messages && messages[i].threadId != t :: messages[i];
      toolCalls := map k | k in toolCalls && toolCalls[k].threadId != t :: toolCalls[k];
      return Ok(());
    }

    method FinalizeAssistant(owner: Owner, f: Finish, env: Env) returns (r: Result<()>)
      requires Valid()
      modifies this`messages
      ensures Valid() && (View(), r) == Store.FinalizeAssistant(old(View()), owner, f, env)
    {
      if f.status == Pending || f.status == Streaming { return Err(Validation); }
      if f.messageId !in messages { return Err(NotFound); }
      var row := messages[f.messageId];
      if row.threadId !in threads || threads[row.threadId].owner != owner { return Err(NotFound); }
      if row.role != AssistantRole { return Err(NotFound); }
      messages := messages[f.messageId := row.(content := f.content, reasoning := f.reasoning, status := f.status,
                                               errorDetail := f.errorDetail, usage := f.usage,
                                               updatedAt := env.now, completedAt := Some(env.now))];
      return Ok(());
    }

    method StopTurn(owner: Owner, m: Id, env: Env) returns (r: Result<Message>)
      requires Valid()
      modifies this`messages
      ensures Valid() && (View(), r) == Store.StopTurn(old(View()), owner, m, env)
    {
      if m !in messages { return Err(NotFound); }
      var row := messages[m];
      if row.role != AssistantRole || row.threadId !in threads || threads[row.threadId].owner != owner {
        return Err(NotFound);
      }
      if row.status == Pending || row.status == Streaming || row.status == AwaitingDecision {
        messages := messages[m := row.(status := Stopped, updatedAt := env.now, completedAt := Some(env.now))];
      }
      return MessageInScope(View(), owner, m);
    }

    /** The sweep: every row in turn, and how many it closed. */
    method FinalizeStaleTurns(cutoff: Time, code: string, now: Time) returns (affected: nat)
      requires Valid()
      modifies this`messages
      ensures Valid() && View() == FinalizeStale(old(View()), cutoff, code, now)
      ensures affected == |set i | i in old(messages) && Stale(old(messages)[i], cutoff)|
    {
      ghost var before := messages;
      ghost var closed: set<Id> := {};
      affected := 0;
      var todo := messages.Keys;
      while todo != {}
        invariant todo <= before.Keys && messages.Keys == before.Keys
        invariant forall i | i in before ::
          messages[i] == if i in todo then before[i] else Abandon(before[i], cutoff, code, now)
        invariant forall i :: i in closed <==> i in before && i !in todo && Stale(before[i], cutoff)
        invariant affected == |closed|
      {
        var i :| i in todo;
        todo := todo - {i};
        var stale := Close(i, cutoff, code, now);
        if stale { closed, affected := closed + {i}, affected + 1; }
      }
      SweepKeepsDescending(before, messages, cutoff, code, now);
      assert messages == map i | i in before :: Abandon(before[i], cutoff, code, now);
      assert closed == set i | i in before && Stale(before[i], cutoff);
    }

    /** Closes one abandoned turn. */
    method Close(i: Id, cutoff: Time, code: string, now: Time) returns (stale: bool)
      requires i in messages
      modifies this`messages
      ensures messages == old(messages)[i := Abandon(old(messages)[i], cutoff, code, now)]
      ensures stale <==> Stale(old(messages)[i], cutoff)
    {
      var row := messages[i];
      stale := row.role == AssistantRole && (row.status == Pending || row.status == Streaming)
               && row.updatedAt < cutoff;
      if stale {
        var failed := row.(status := Error, errorDetail := Some(code), updatedAt := now, completedAt := Some(now));
        messages := messages[i := failed];
      }
    }

    // -------------------------------------------------------------- walks

    /** The rows from `start` to its root. */
    method Walk(start: Option<Id>) returns (chain: seq<Id>)
      requires Valid()
      ensures Reversed(chain) == Path(messages, start)
    {
      var cursor := start;
      chain := [];
      while cursor.Some? && cursor.value in messages
        invariant Path(messages, start) == Path(messages, cursor) + Reversed(chain)
        decreases Height(messages, cursor)
      {
        ReversedPush(chain, cursor.value);
        chain, cursor := chain + [cursor.value], messages[cursor.value].parent;
      }
    }

    method ThreadView(owner: Owner, t: Id) returns (r: Result<ThreadView>)
      requires Valid()
      ensures r == ViewThread(View(), owner, t)
    {
      if t !in threads || threads[t].owner != owner { return Err(NotFound); }
      var chain := Walk(threads[t].activeLeaf);
      var path := Reverse(chain);
      PathIsHeld(messages, threads[t].activeLeaf);
      return Ok(Store.ThreadView(threads[t], DecorateAll(View(), path)));
    }

    method UserAnchorMessage(owner: Owner, m: Id) returns (r: Result<Option<Id>>)
      requires Valid()
      ensures r == UserAnchor(View(), owner, m)
    {
      if !Owns(View(), owner, m) { return Err(NotFound); }
      var cursor := Some(m);
      while cursor.Some?
        invariant AnchorFrom(messages, cursor) == AnchorFrom(messages, Some(m))
        decreases Height(messages, cursor), cursor.Some?
      {
        if cursor.value !in messages { return Ok(None); }
        var row := messages[cursor.value];
        if row.role == UserRole { return Ok(cursor); }
        cursor := row.parent;
      }
      return Ok(None);
    }

    method HistoryForMessage(owner: Owner, m: Id) returns (r: Result<seq<ChatMessage>>)
      requires Valid()
      ensures r == Store.HistoryForMessage(View(), owner, m)
    {
      if !Owns(View(), owner, m) { return Err(NotFound); }
      var chain := Walk(Some(m));
      var path := Reverse(chain);
      PathIsHeld(messages, Some(m));
      var rows := DecorateAll(View(), path);
      var history := HistoryOfRows(rows);
      return Ok(history);
    }

    method Message(owner: Owner, m: Id) returns (r: Result<MessageView>)
      requires Valid()
      ensures r == GetMessage(View(), owner, m)
    {
      if !Owns(View(), owner, m) { return Err(NotFound); }
      return Ok(Decorate(View(), messages[m]));
    }

    // -------------------------------------------------------------- feedback

    method SetFeedback(owner: Owner, m: Id, up: bool, comment: Option<string>, env: Env) returns (r: Result<Feedback>)
      modifies this`feedback
      ensures (View(), r) == Store.SetFeedback(old(View()), owner, m, up, comment, env)
    {
      if !Owns(View(), owner, m) { return Err(NotFound); }
      if messages[m].role != AssistantRole { return Err(Validation); }
      var given := Feedback(m, up, comment, env.now, env.now);
      if m in feedback { given := given.(createdAt := feedback[m].createdAt); }
      feedback := feedback[m := given];
      return Ok(given);
    }

    method ClearFeedback(owner: Owner, m: Id) returns (r: Result<()>)
      modifies this`feedback
      ensures (View(), r) == Store.ClearFeedback(old(View()), owner, m)
    {
      if !Owns(View(), owner, m) { return Err(NotFound); }
      feedback := feedback - {m};
      return Ok(());
    }

    // -------------------------------------------------------------- choosing a leaf

    method ActivateMessage(owner: Owner, m: Id, env: Env) returns (r: Result<()>)
      requires Valid()
      modifies this`threads
      ensures Valid() && (View(), r) == Store.ActivateMessage(old(View()), owner, m, env)
    {
      if !Owns(View(), owner, m) { return Err(NotFound); }
      var target := messages[m];
      var leaf := target.id;
      if target.role != AssistantRole {
        var children := Replies(View(), target);
        if children != {} {
          leaf := LastOf(children);
        }
      }
      var thread := threads[target.threadId];
      threads := threads[target.threadId := thread.(activeLeaf := Some(leaf), updatedAt := env.now)];
      return Ok(());
    }

    /** The last of some rows by creation time, identifiers deciding between equal times. */
    method LastOf(ids: set<Id>) returns (last: Id)
      requires ids != {} && ids <= messages.Keys
      ensures Latest(View(), ids) == Some(last)
    {
      var todo := ids;
      last :| last in todo;
      todo := todo - {last};
      while todo != {}
        invariant todo <= ids && IsLatest(View(), ids - todo, last)
      {
        var i :| i in todo;
        todo := todo - {i};
        var a, b := messages[last].createdAt, messages[i].createdAt;
        if a < b || (a == b && last < i) { last := i; }
      }
      assert ids - todo == ids;
    }

    // -------------------------------------------------------------- recorded calls

    method RecordToolCall(row: CallRow)
      modifies this`toolCalls
      ensures toolCalls == RecordCall(old(toolCalls), row)
    {
      if row.id !in toolCalls { toolCalls := toolCalls[row.id := row]; }
    }

    method MarkToolCallApproved(id: string, approval: string) returns (r: Result<()>)
      modifies this`toolCalls
      ensures (toolCalls, r) == MarkApproved(old(toolCalls), id, approval)
    {
      if id !in toolCalls { return Err(NotFound); }
      var call := toolCalls[id];
      if call.status != AwaitingApproval { return Err(Conflict); }
      toolCalls := toolCalls[id := call.(status := Approved, approvalId := Some(approval))];
      return Ok(());
    }

    method MarkToolCallDenied(id: string, now: Time) returns (r: Result<()>)
      modifies this`toolCalls
      ensures (toolCalls, r) == MarkDenied(old(toolCalls), id, now)
    {
      if id !in toolCalls { return Err(NotFound); }
      var call := toolCalls[id];
      if call.status != AwaitingApproval { return Err(Conflict); }
      toolCalls := toolCalls[id := call.(status := Denied, completedAt := Some(now))];
      return Ok(());
    }

    method MarkToolCallRunning(id: string, approval: Option<string>) returns (r: Result<()>)
      modifies this`toolCalls
      ensures (toolCalls, r) == MarkRunning(old(toolCalls), id, approval)
    {
      if id !in toolCalls { return Err(NotFound); }
      var call := toolCalls[id].(status := Running);
      if approval.Some? { call := call.(approvalId := approval); }
      toolCalls := toolCalls[id := call];
      return Ok(());
    }

    method CompleteToolCall(id: string, c: Completion, now: Time) returns (r: Result<()>)
      modifies this`toolCalls
      ensures (toolCalls, r) == CompleteCall(old(toolCalls), id, c, now)
    {
      if id !in toolCalls { return Err(NotFound); }
      var call := toolCalls[id].(status := c.status, result := c.result, errorCode := c.errorCode);
      if c.approvalId.Some? { call := call.(approvalId := c.approvalId); }
      toolCalls := toolCalls[id := call.(completedAt := Some(now))];
      return Ok(());
    }

    /** The sweep: every row in turn, and how many it expired. */
    method ExpireToolCalls(now: Time) returns (affected: nat)
      modifies this`toolCalls
      ensures toolCalls == ExpireCalls(old(toolCalls), now)
      ensures affected == |set k | k in old(toolCalls) && Overdue(old(toolCalls)[k], now)|
    {
      ghost var before := toolCalls;
      ghost var expired: set<string> := {};
      affected := 0;
      var todo := toolCalls.Keys;
      while todo != {}
        invariant todo <= before.Keys && toolCalls.Keys == before.Keys
        invariant forall k | k in before :: toolCalls[k] == if k in todo then before[k] else ExpireCalls(before, now)[k]
        invariant forall k :: k in expired <==> k in before && k !in todo && Overdue(before[k], now)
        invariant affected == |expired|
      {
        var k :| k in todo;
        todo := todo - {k};
        var call := toolCalls[k];
        if call.status == AwaitingApproval && call.expiresAt.Some? && call.expiresAt.value < now {
          toolCalls := toolCalls[k := call.(status := Expired, completedAt := Some(now))];
          expired, affected := expired + {k}, affected + 1;
        }
      }
      assert toolCalls == ExpireCalls(before, now);
      assert expired == set k | k in before && Overdue(before[k], now);
    }
  }

  method HistoryOfRows(rows: seq<MessageView>) returns (history: seq<ChatMessage>)
    ensures history == Histories(rows)
  {
    history := [];
    for k := 0 to |rows|
      invariant history + Histories(rows[k..]) == Histories(rows)
    {
      var added := HistoryOfRow(rows[k]);
      assert rows[k..][1..] == rows[k + 1..];
      assert history + (added + Histories(rows[k + 1..])) == history + added + Histories(rows[k + 1..]);
      history := history + added;
    }
  }

  method HistoryOfRow(view: MessageView) returns (history: seq<ChatMessage>)
    ensures history == HistoryOf(view)
  {
    var role := if view.message.role == UserRole then User else Assistant;
    var calls, results := CallMessages(view);
    if role == Assistant && Trim(view.message.content) == "" && calls == [] { return []; }
    history := [ChatMessage(role, Plain(view.message.content), None, if calls == [] then None else Some(calls))];
    history := history + results;
  }

  method LeastOf(keys: set<string>) returns (k: string)
    requires keys != {}
    ensures IsLeast(k, keys)
  {
    LeastExists(keys);
    k :| k in keys && forall j | j in keys :: AtMost(k, j);
  }

  lemma TakeLeast(done: seq<string>, todo: set<string>, k: string)
    requires IsLeast(k, todo)
    ensures done + SortedKeys(todo) == done + [k] + SortedKeys(todo - {k})
  {
    SortedKeysHead(todo, k);
    Associates(done, [k], SortedKeys(todo - {k}));
  }

  lemma NoKeys(done: seq<string>)
    ensures done + SortedKeys({}) == done
  {
  }

  /** A map yields its keys in order. */
  method KeysInOrder(rows: map<string, CallRow>) returns (ids: seq<string>)
    ensures ids == SortedKeys(rows.Keys)
  {
    ids := [];
    var todo := rows.Keys;
    while todo != {}
      invariant todo <= rows.Keys && SortedKeys(rows.Keys) == ids + SortedKeys(todo)
    {
      var k := LeastOf(todo);
      TakeLeast(ids, todo, k);
      todo, ids := todo - {k}, ids + [k];
    }
    NoKeys(ids);
  }

  /** A message's calls and their results, in the order of the call identifiers. */
  method CallMessages(view: MessageView) returns (calls: seq<ToolCall>, results: seq<ChatMessage>)
    ensures calls == CallsOf(view) && results == ResultsOf(view)
  {
    calls, results := [], [];
    var ids := KeysInOrder(view.calls);
    for n := 0 to |ids|
      invariant calls == CallsOf(view)[..n] && results == ResultsOf(view)[..n]
    {
      assert ids[n] in ids;
      calls, results := calls + [RecordedCall(view, ids[n])], results + [ResultAt(view, ids[n])];
    }
  }
}
