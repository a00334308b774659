/** Every reachable store is a forest of alternating turns with gap-free versions. */
module Forest {
  import opened Json
  import opened Text
  import opened Types
  import opened Store
  import opened Operations

  // ---------------------------------------------------------------- the invariant

  ghost predicate ParentIs(st: State, m: Message, role: Role) {
    && m.parent.Some? && m.parent.value in st.messages
    && var p := st.messages[m.parent.value];
       p.role == role && p.threadId == m.threadId && Rank(p) < Rank(m)
  }

  /** A row stands in its thread, below a row of the other role created before it. */
  ghost predicate Linked(st: State, i: Id)
    requires i in st.messages
  {
    var m := st.messages[i];
    && m.id == i && m.threadId in st.threads
    && match m.role
       case UserRole => m.parent == None || ParentIs(st, m, AssistantRole)
       case AssistantRole => ParentIs(st, m, UserRole)
  }

  ghost predicate IsReply(st: State, j: Id, i: Id) {
    j in st.messages && i in st.messages && st.messages[j].parent == Some(i)
    && st.messages[j].role == AssistantRole && st.messages[j].threadId == st.messages[i].threadId
  }

  ghost predicate Answered(st: State, i: Id)
    requires i in st.messages
  {
    st.messages[i].role == UserRole ==> exists j :: IsReply(st, j, i)
  }

  ghost predicate Numbered(st: State, i: Id)
    requires i in st.messages
  {
    st.messages[i].version == AsVersion(|Earlier(st, st.messages[i])| + 1)
  }

  ghost predicate GoodMessage(st: State, i: Id)
    requires i in st.messages
  {
    Linked(st, i) && Answered(st, i) && Numbered(st, i)
  }

  ghost predicate GoodThread(st: State, t: Id)
    requires t in st.threads
  {
    && st.threads[t].id == t
    && match st.threads[t].activeLeaf
       case None => forall i | i in st.messages :: st.messages[i].threadId != t
       case Some(l) => l in st.messages && st.messages[l].threadId == t && st.messages[l].role == AssistantRole
  }

  /** Parents exist in the same thread and come first; questions and answers alternate;
      every question has an answer; the active leaf is an answer, and is there unless the
      thread is empty; versions count the siblings in order of creation. */
  ghost predicate IsForest(st: State) {
    && (forall i {:trigger GoodMessage(st, i)} | i in st.messages :: GoodMessage(st, i))
    && (forall t {:trigger GoodThread(st, t)} | t in st.threads :: GoodThread(st, t))
  }

  // ---------------------------------------------------------------- rows that carry over

  /** A row keeps its place, whatever becomes of its content and status. */
  ghost predicate Kept(a: State, b: State, i: Id) {
    && i in a.messages && i in b.messages
    && var m, n := a.messages[i], b.messages[i];
       m.id == n.id && m.threadId == n.threadId && m.parent == n.parent && m.role == n.role
       && m.version == n.version && m.createdAt == n.createdAt
  }

  /** Every row of thread `t` keeps its place. */
  ghost predicate KeepsThread(a: State, b: State, t: Id) {
    forall i {:trigger Kept(a, b, i)} | i in a.messages && a.messages[i].threadId == t :: Kept(a, b, i)
  }

  /** A row of `b` that was not in `a` was created after row `i`. */
  ghost predicate NewerThan(a: State, b: State, i: Id)
    requires i in a.messages
  {
    forall j {:trigger Kept(a, b, j)} | j in b.messages ::
      Kept(a, b, j) || a.messages[i].createdAt < b.messages[j].createdAt
  }

  lemma EarlierKept(a: State, b: State, i: Id)
    requires i in a.messages && Kept(a, b, i) && KeepsThread(a, b, a.messages[i].threadId) && NewerThan(a, b, i)
    ensures Earlier(b, b.messages[i]) == Earlier(a, a.messages[i])
  {
    var m, n := a.messages[i], b.messages[i];
    forall j ensures j in Earlier(a, m) <==> j in Earlier(b, n) {
      assert Kept(a, b, j) || !Kept(a, b, j);
    }
  }

  lemma RowCarries(a: State, b: State, i: Id)
    requires i in a.messages && GoodMessage(a, i) && Kept(a, b, i) && a.messages[i].threadId in b.threads
    requires KeepsThread(a, b, a.messages[i].threadId) && NewerThan(a, b, i)
    ensures GoodMessage(b, i)
  {
    EarlierKept(a, b, i);
    var m := a.messages[i];
    if m.parent.Some? { assert Kept(a, b, m.parent.value); }
    if m.role == UserRole {
      var j :| IsReply(a, j, i);
      assert Kept(a, b, j);
      assert IsReply(b, j, i);
    }
  }

  // ---------------------------------------------------------------- steps that add no row

  /** No row is new, and threads that lose rows lose all of them. */
  ghost predicate NothingNew(a: State, b: State) {
    forall i {:trigger Kept(a, b, i)} | i in b.messages :: Kept(a, b, i)
  }

  lemma ShrinkKeepsForest(a: State, b: State)
    requires IsForest(a) && NothingNew(a, b)
    requires forall i | i in b.messages ::
               b.messages[i].threadId in b.threads && KeepsThread(a, b, b.messages[i].threadId)
    requires forall t | t in b.threads :: GoodThread(b, t)
    ensures IsForest(b)
  {
    forall i | i in b.messages ensures GoodMessage(b, i) {
      assert Kept(a, b, i) && GoodMessage(a, i);
      RowCarries(a, b, i);
    }
  }

  /** Rewriting contents, statuses, feedback or calls keeps the forest. */
  lemma RewriteKeepsForest(a: State, b: State)
    requires IsForest(a) && NothingNew(a, b) && a.messages.Keys <= b.messages.Keys
    requires a.threads == b.threads
    ensures IsForest(b)
  {
    forall i | i in b.messages
      ensures b.messages[i].threadId in b.threads && KeepsThread(a, b, b.messages[i].threadId)
    {
      assert Kept(a, b, i) && GoodMessage(a, i);
    }
    forall t | t in b.threads ensures GoodThread(b, t) {
      assert GoodThread(a, t);
      var leaf := a.threads[t].activeLeaf;
      if leaf.Some? { assert Kept(a, b, leaf.value); }
      forall i | i in b.messages && b.messages[i].threadId == t ensures leaf.Some? { assert Kept(a, b, i); }
    }
    ShrinkKeepsForest(a, b);
  }

  /** The new active leaf: the message itself, or the latest answer to it. */
  lemma ActivatedLeaf(st: State, owner: Owner, m: Id, env: Env) returns (leaf: Id)
    requires IsForest(st) && Owns(st, owner, m)
    ensures leaf in st.messages && st.messages[leaf].role == AssistantRole
    ensures st.messages[leaf].threadId == st.messages[m].threadId
    ensures var t := st.messages[m].threadId;
            ActivateMessage(st, owner, m, env).0 ==
            st.(threads := st.threads[t := st.threads[t].(activeLeaf := Some(leaf), updatedAt := env.now)])
  {
    var target := st.messages[m];
    assert GoodMessage(st, m);
    if target.role == UserRole {
      var j :| IsReply(st, j, m);
      assert j in Replies(st, target);
      leaf := Latest(st, Replies(st, target)).value;
    } else {
      leaf := m;
    }
  }

  lemma ActivateKeepsForest(st: State, owner: Owner, m: Id, env: Env)
    requires IsForest(st)
    ensures IsForest(ActivateMessage(st, owner, m, env).0)
  {
    var b := ActivateMessage(st, owner, m, env).0;
    if Owns(st, owner, m) {
      var leaf := ActivatedLeaf(st, owner, m, env);
      assert GoodMessage(st, m) && GoodThread(st, st.messages[m].threadId);
      ThreadsKeepForest(st, b, st.messages[m].threadId);
    } else {
      RewriteKeepsForest(st, b);
    }
  }

  /** Writing one thread's row, with a sound leaf, keeps the forest. */
  lemma ThreadsKeepForest(a: State, b: State, t: Id)
    requires IsForest(a) && b.messages == a.messages
    requires t in b.threads && b.threads == a.threads[t := b.threads[t]] && GoodThread(b, t)
    ensures IsForest(b)
  {
    forall i | i in b.messages
      ensures b.messages[i].threadId in b.threads && KeepsThread(a, b, b.messages[i].threadId)
    {
      assert GoodMessage(a, i);
    }
    forall u | u in b.threads ensures GoodThread(b, u) {
      if u != t { assert GoodThread(a, u); }
    }
    ShrinkKeepsForest(a, b);
  }

  lemma CreateKeepsForest(st: State, thread: Thread)
    requires IsForest(st) && Unused(st, thread.id) && thread.activeLeaf == None
    ensures IsForest(PutThread(st, thread))
  {
    ThreadsKeepForest(st, PutThread(st, thread), thread.id);
  }

  lemma DeleteKeepsForest(st: State, owner: Owner, t: Id)
    requires IsForest(st)
    ensures IsForest(DeleteThread(st, owner, t).0)
  {
    var b := DeleteThread(st, owner, t).0;
    if ThreadInScope(st, owner, t).Err? {
      RewriteKeepsForest(st, b);
    } else {
      forall i | i in b.messages
        ensures b.messages[i].threadId in b.threads && KeepsThread(st, b, b.messages[i].threadId)
      {
        assert GoodMessage(st, i);
      }
      forall u | u in b.threads ensures GoodThread(b, u) { assert GoodThread(st, u); }
      ShrinkKeepsForest(st, b);
    }
  }

  // ---------------------------------------------------------------- beginning a turn

  /** `b` is `a` with an answer created now, below a question that is created now too or
      is held already. */
  ghost predicate Grown(a: State, b: State, thread: Thread, question: Message, answer: Message, env: Env) {
    && b.messages == a.messages[question.id := question][answer.id := answer]
    && b.threads == a.threads[thread.id := thread.(activeLeaf := Some(answer.id), updatedAt := env.now)]
    && answer == AssistantMessage(thread.id, question.id, answer.version, env)
    && (question.id in a.messages ==> a.messages[question.id] == question)
    && (question.id !in a.messages ==>
          question == UserMessage(question.content, thread.id, question.parent, question.version, env))
  }

  ghost predicate Ready(a: State, thread: Thread, env: Env) {
    && IsForest(a) && thread.id in a.threads && a.threads[thread.id] == thread
    && Unused(a, env.user) && Unused(a, env.assistant) && env.user != env.assistant && Later(a, env.now)
  }

  lemma GrownKeepsOldRow(a: State, b: State, thread: Thread, question: Message, answer: Message, env: Env, i: Id)
    requires Ready(a, thread, env) && Grown(a, b, thread, question, answer, env) && i in a.messages
    ensures GoodMessage(b, i)
  {
    assert GoodMessage(a, i) && Kept(a, b, i);
    RowCarries(a, b, i);
  }

  lemma EarlierOfAnswer(a: State, b: State, thread: Thread, question: Message, answer: Message, env: Env)
    requires Ready(a, thread, env) && Grown(a, b, thread, question, answer, env)
    requires question.parent != Some(question.id)
    ensures Earlier(b, answer) == Siblings(PutMessage(a, question), thread.id, Some(question.id))
  {
    forall j
      ensures j in Earlier(b, answer) <==> j in Siblings(PutMessage(a, question), thread.id, Some(question.id))
    {
      if j in a.messages { assert GoodMessage(a, j); }
    }
  }

  lemma EarlierOfQuestion(a: State, b: State, thread: Thread, question: Message, answer: Message, env: Env)
    requires Ready(a, thread, env) && Grown(a, b, thread, question, answer, env) && question.id !in a.messages
    requires question.parent != Some(question.id)
    ensures Earlier(b, question) == Siblings(a, thread.id, question.parent)
  {
    forall j ensures j in Earlier(b, question) <==> j in Siblings(a, thread.id, question.parent) {
      if j in a.messages { assert GoodMessage(a, j); }
    }
  }

  /** The question a sound turn hangs its answer under. */
  ghost predicate SoundQuestion(a: State, thread: Thread, question: Message) {
    if question.id in a.messages then question.role == UserRole && question.threadId == thread.id
    else
      && question.version == NextSiblingVersion(a, thread.id, question.parent)
      && match question.parent
         case None => true
         case Some(p) => p in a.messages && a.messages[p].role == AssistantRole && a.messages[p].threadId == thread.id
  }

  /** The turn's arguments fit together. */
  ghost predicate SoundTurn(a: State, b: State, thread: Thread, question: Message, answer: Message, env: Env) {
    && Ready(a, thread, env) && Grown(a, b, thread, question, answer, env) && SoundQuestion(a, thread, question)
    && answer.version == NextSiblingVersion(PutMessage(a, question), thread.id, Some(question.id))
  }

  lemma AnswerIsGood(a: State, b: State, thread: Thread, question: Message, answer: Message, env: Env)
    requires SoundTurn(a, b, thread, question, answer, env)
    ensures GoodMessage(b, answer.id)
  {
    if question.id in a.messages { assert GoodMessage(a, question.id); }
    EarlierOfAnswer(a, b, thread, question, answer, env);
  }

  lemma QuestionIsGood(a: State, b: State, thread: Thread, question: Message, answer: Message, env: Env)
    requires SoundTurn(a, b, thread, question, answer, env) && question.id !in a.messages
    ensures GoodMessage(b, question.id)
  {
    EarlierOfQuestion(a, b, thread, question, answer, env);
    if question.parent.Some? { assert GoodMessage(a, question.parent.value); }
    assert IsReply(b, answer.id, question.id);
  }

  lemma GrownThreads(a: State, b: State, thread: Thread, question: Message, answer: Message, env: Env, t: Id)
    requires SoundTurn(a, b, thread, question, answer, env) && t in b.threads
    ensures GoodThread(b, t)
  {
    assert GoodThread(a, t);
  }

  lemma GrownRows(a: State, b: State, thread: Thread, question: Message, answer: Message, env: Env, i: Id)
    requires SoundTurn(a, b, thread, question, answer, env) && i in b.messages
    ensures GoodMessage(b, i)
  {
    if i in a.messages {
      GrownKeepsOldRow(a, b, thread, question, answer, env, i);
    } else if i == answer.id {
      AnswerIsGood(a, b, thread, question, answer, env);
    } else {
      QuestionIsGood(a, b, thread, question, answer, env);
    }
  }

  lemma GrownKeepsForest(a: State, b: State, thread: Thread, question: Message, answer: Message, env: Env)
    requires SoundTurn(a, b, thread, question, answer, env)
    ensures IsForest(b)
  {
    forall i | i in b.messages ensures GoodMessage(b, i) { GrownRows(a, b, thread, question, answer, env, i); }
    forall t | t in b.threads ensures GoodThread(b, t) { GrownThreads(a, b, thread, question, answer, env, t); }
  }

  /** The edited or regenerated message belongs to the thread the request names, or is an
      edited root: what the handlers see to. */
  predicate Aligned(st: State, request: BeginTurn) {
    match request.target
    case New => true
    case Edit(m) => m in st.messages && st.messages[m].parent.Some? ==>
      request.threadId == Some(st.messages[m].threadId)
    case Regenerate(m) => m in st.messages ==> request.threadId == Some(st.messages[m].threadId)
  }

  /** The thread of a turn is sound before the turn writes anything into it. */
  lemma ThreadIsReady(st: State, owner: Owner, request: BeginTurn, env: Env)
    requires IsForest(st) && FreshEnv(st, env)
    ensures var (st1, found) := TurnThread(st, owner, request, env);
            && IsForest(st1)
            && (found.Ok? ==> st1.messages == st.messages && Ready(st1, found.value, env))
  {
    if request.threadId.None? {
      var thread := TurnThread(st, owner, request, env).1.value;
      CreateKeepsForest(st, thread);
      CreateKeepsForest(st, thread);
    } else {
      RewriteKeepsForest(st, st);
      if request.threadId.value in st.threads { assert GoodThread(st, request.threadId.value); }
    }
  }

  /** Where the question of a turn hangs: a new row for `New` and `Edit`, a held one for `Regenerate`. */
  ghost predicate Anchored(a: State, thread: Thread, request: BeginTurn, question: Message, env: Env) {
    && (question.id in a.messages <==> request.target.Regenerate?)
    && (question.id !in a.messages ==>
          && question == UserMessage(question.content, thread.id, question.parent, question.version, env)
          && question.version == NextSiblingVersion(a, thread.id, question.parent))
    && match request.target
       case New => question.parent == thread.activeLeaf
       case Edit(m) => m in a.messages && a.messages[m].role == UserRole && question.parent == a.messages[m].parent
       case Regenerate(m) =>
         && m in a.messages && a.messages[m].parent == Some(question.id) && a.messages[question.id] == question
         && question.role == UserRole && question.threadId == a.messages[m].threadId
  }

  lemma AnchorShape(a: State, owner: Owner, thread: Thread, request: BeginTurn, env: Env)
    returns (question: Message)
    requires Ready(a, thread, env) && AnchorOf(a, owner, thread, request, env).1.Ok?
    ensures AnchorOf(a, owner, thread, request, env) == (PutMessage(a, question), Result.Ok(question))
    ensures Anchored(a, thread, request, question, env)
  {
    question := AnchorOf(a, owner, thread, request, env).1.value;
    if request.target.Regenerate? {
      var id := request.target.messageId;
      var previous := a.messages[id];
      assert GoodMessage(a, id) && GoodMessage(a, previous.parent.value);
      assert a.messages[question.id := question] == a.messages;
    }
  }

  /** What `StartTurn` writes when it succeeds. */
  lemma TurnShape(st: State, owner: Owner, request: BeginTurn, env: Env)
    returns (a: State, thread: Thread, question: Message, answer: Message)
    requires IsForest(st) && FreshEnv(st, env) && StartTurn(st, owner, request, env).1.Ok?
    ensures Ready(a, thread, env) && a.messages == st.messages
    ensures thread.id == if request.threadId.Some? then request.threadId.value else env.thread
    ensures Anchored(a, thread, request, question, env)
    ensures Grown(a, StartTurn(st, owner, request, env).0, thread, question, answer, env)
    ensures answer.version == NextSiblingVersion(PutMessage(a, question), thread.id, Some(question.id))
  {
    ThreadIsReady(st, owner, request, env);
    if request.threadId.Some? { assert GoodThread(st, request.threadId.value); }
    a, thread := TurnThread(st, owner, request, env).0, TurnThread(st, owner, request, env).1.value;
    question := AnchorShape(a, owner, thread, request, env);
    answer := AssistantMessage(thread.id, question.id,
                               NextSiblingVersion(PutMessage(a, question), thread.id, Some(question.id)), env);
  }

  /** The question is sound exactly when the request is aligned. */
  lemma AlignedIsSound(a: State, thread: Thread, request: BeginTurn, question: Message, env: Env)
    requires Ready(a, thread, env) && Anchored(a, thread, request, question, env)
    requires thread.id == if request.threadId.Some? then request.threadId.value else env.thread
    requires forall i | i in a.messages :: a.messages[i].threadId != env.thread
    ensures SoundQuestion(a, thread, question) <==> Aligned(a, request)
  {
    match request.target
    case New => assert GoodThread(a, thread.id);
    case Edit(m) => assert GoodMessage(a, m);
    case Regenerate(m) => assert GoodMessage(a, m);
  }

  /** A turn that succeeds keeps the forest exactly when its request is aligned; one that
      fails always keeps it. */
  lemma TurnKeepsForestIffAligned(st: State, owner: Owner, request: BeginTurn, env: Env)
    requires IsForest(st) && FreshEnv(st, env)
    ensures var (b, r) := StartTurn(st, owner, request, env);
            IsForest(b) <==> (r.Ok? ==> Aligned(st, request))
  {
    var (b, r) := StartTurn(st, owner, request, env);
    if r.Err? {
      FailedTurnKeepsForest(st, owner, request, env);
    } else {
      var a, thread, question, answer := TurnShape(st, owner, request, env);
      AlignedIsSound(a, thread, request, question, env);
      if SoundQuestion(a, thread, question) {
        GrownKeepsForest(a, b, thread, question, answer, env);
      } else {
        UnsoundBreaksForest(a, b, thread, request, question, answer, env);
      }
    }
  }

  const ALICE := Owner("tenant", "alice")

  /** A row of thread 1, below the one before it. */
  function SampleRow(i: Id): Message {
    Message(i, 1, if i <= 2 then None else Some(i - 1), if i % 2 == 0 then UserRole else AssistantRole, "text", None,
            Complete, None, None, 1, i, i, Some(i))
  }

  /** Two threads of one owner: an empty one, and one of two questions and two answers. */
  const TWO_THREADS := State(
    map[0 := Thread(0, ALICE, UNTITLED, None, 0, 0), 1 := Thread(1, ALICE, UNTITLED, Some(5), 0, 5)],
    map i: nat | 2 <= i < 6 :: SampleRow(i), map[], map[])

  const LATER := Env(6, 7, 8, 9)

  lemma SampleThreadsAreGood(t: Id)
    requires t == 0 || t == 1
    ensures GoodThread(TWO_THREADS, t)
  {
    if t == 1 { assert TWO_THREADS.messages[5].threadId == 1; }
  }

  lemma SampleIsUnused(x: Id)
    requires x >= 6
    ensures Unused(TWO_THREADS, x)
  {
  }

  lemma TwoThreadsAreForest()
    ensures IsForest(TWO_THREADS) && FreshEnv(TWO_THREADS, LATER)
  {
    forall i {:trigger GoodMessage(TWO_THREADS, i)} | i in TWO_THREADS.messages ensures GoodMessage(TWO_THREADS, i) {
      SampleIsGood(i);
    }
    forall t {:trigger GoodThread(TWO_THREADS, t)} | t in TWO_THREADS.threads ensures GoodThread(TWO_THREADS, t) {
      SampleThreadsAreGood(t);
    }
    SampleIsUnused(6);
    SampleIsUnused(7);
    SampleIsUnused(8);
  }

  lemma SampleIsGood(i: Id)
    requires 2 <= i < 6
    ensures GoodMessage(TWO_THREADS, i)
  {
    assert Earlier(TWO_THREADS, TWO_THREADS.messages[i]) == {};
    if i % 2 == 0 { assert IsReply(TWO_THREADS, i + 1, i); }
  }

  /** The condition can fail: naming the empty thread, the second question of the other can be
      edited, and the edited question then stands below an answer of that other thread. */
  lemma StrayEditBreaksForest()
    ensures IsForest(TWO_THREADS) && FreshEnv(TWO_THREADS, LATER)
    ensures var (b, r) := StartTurn(TWO_THREADS, ALICE, BeginTurn(Some(0), Edit(4), "again"), LATER);
            r.Ok? && !IsForest(b)
  {
    TwoThreadsAreForest();
    var request := BeginTurn(Some(0), Edit(4), "again");
    assert Trim("again") != "";
    assert !Aligned(TWO_THREADS, request);
    TurnKeepsForestIffAligned(TWO_THREADS, ALICE, request, LATER);
  }

  lemma FailedTurnKeepsForest(st: State, owner: Owner, request: BeginTurn, env: Env)
    requires IsForest(st) && FreshEnv(st, env) && StartTurn(st, owner, request, env).1.Err?
    ensures IsForest(StartTurn(st, owner, request, env).0)
  {
    ThreadIsReady(st, owner, request, env);
    RewriteKeepsForest(st, st);
  }

  lemma UnsoundBreaksForest(a: State, b: State, thread: Thread, request: BeginTurn, question: Message, answer: Message,
                            env: Env)
    requires Ready(a, thread, env) && Grown(a, b, thread, question, answer, env)
    requires Anchored(a, thread, request, question, env) && !SoundQuestion(a, thread, question)
    ensures !IsForest(b)
  {
    if question.id in a.messages {
      assert !GoodMessage(b, answer.id);
    } else {
      assert !GoodMessage(b, question.id);
    }
  }

  // ---------------------------------------------------------------- runs

  /** What keeps a step's turn inside one thread. */
  ghost predicate Proper(st: State, s: Step) {
    s.op.Begin? && StartTurn(st, s.owner, s.op.request, s.env).1.Ok? ==> Aligned(st, s.op.request)
  }

  /** The calls that touch neither messages nor threads. */
  lemma OthersLeaveMessages(st: State, s: Step)
    requires !s.op.Create? && !s.op.Delete? && !s.op.Begin? && !s.op.Finalize? && !s.op.Stop? && !s.op.Activate?
    requires !s.op.Sweep?
    ensures Apply(st, s).0.messages == st.messages && Apply(st, s).0.threads == st.threads
  {
    match s.op
    case _ =>
  }

  lemma MessageStepsKeepForest(st: State, s: Step)
    requires IsForest(st) && (s.op.Finalize? || s.op.Stop? || s.op.Activate? || s.op.Sweep?)
    ensures IsForest(Apply(st, s).0)
  {
    match s.op
    case Activate(m) => ActivateKeepsForest(st, s.owner, m, s.env);
    case _ => RewriteKeepsForest(st, Apply(st, s).0);
  }

  lemma ThreadStepsKeepForest(st: State, s: Step)
    requires IsForest(st) && FreshEnv(st, s.env) && (s.op.Create? || s.op.Delete?)
    ensures IsForest(Apply(st, s).0)
  {
    match s.op
    case Create(title) => CreateKeepsForest(st, CreateThread(st, s.owner, title, s.env).1.value);
    case Delete(t) => DeleteKeepsForest(st, s.owner, t);
  }

  /** Whatever the step, the forest survives it exactly when a turn it begins is aligned. */
  lemma StepKeepsForest(st: State, s: Step)
    requires IsForest(st) && FreshEnv(st, s.env)
    ensures IsForest(Apply(st, s).0) <==> Proper(st, s)
  {
    if s.op.Begin? {
      TurnKeepsForestIffAligned(st, s.owner, s.op.request, s.env);
    } else if s.op.Finalize? || s.op.Stop? || s.op.Activate? || s.op.Sweep? {
      MessageStepsKeepForest(st, s);
    } else if s.op.Create? || s.op.Delete? {
      ThreadStepsKeepForest(st, s);
    } else {
      OthersLeaveMessages(st, s);
      RewriteKeepsForest(st, Apply(st, s).0);
    }
  }

  /** Every call finds fresh identifiers and a later time, and begins turns within one thread. */
  ghost predicate ProperRun(st: State, steps: seq<Step>)
    decreases |steps|
  {
    steps == [] || (FreshEnv(st, steps[0].env) && Proper(st, steps[0]) && ProperRun(Apply(st, steps[0]).0, steps[1..]))
  }

  lemma {:induction false} RunKeepsForest(st: State, steps: seq<Step>)
    requires IsForest(st) && ProperRun(st, steps)
    ensures IsForest(Run(st, steps).0)
    decreases |steps|
  {
    if steps != [] {
      StepKeepsForest(st, steps[0]);
      RunKeepsForest(Apply(st, steps[0]).0, steps[1..]);
    }
  }

  const EMPTY := State(map[], map[], map[], map[])

  /** Every store reached from an empty one by any calls of any owners is a forest. */
  lemma ReachableIsForest(steps: seq<Step>)
    requires ProperRun(EMPTY, steps)
    ensures IsForest(Run(EMPTY, steps).0)
  {
    RunKeepsForest(EMPTY, steps);
  }
}
