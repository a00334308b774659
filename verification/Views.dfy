/** What a forest gives its readers: walks that end, whole conversations, gap-free versions.

    The versions shown with a message are computed anew and agree with those stored. */
module Views {
  import opened Json
  import opened Types
  import opened Store
  import opened Forest
  import opened Operations

  lemma ForestDescends(st: State)
    requires IsForest(st)
    ensures Descending(st.messages)
  {
    forall i | i in st.messages
      ensures st.messages[i].id == i
      ensures st.messages[i].parent.Some? && st.messages[i].parent.value in st.messages ==>
        Rank(st.messages[st.messages[i].parent.value]) < Rank(st.messages[i])
    {
      assert GoodMessage(st, i);
    }
  }

  // ---------------------------------------------------------------- paths

  ghost predicate TurnAt(st: State, t: Id, path: seq<Id>, k: nat)
    requires k < |path|
  {
    && path[k] in st.messages && st.messages[path[k]].threadId == t
    && st.messages[path[k]].role == (if k % 2 == 0 then UserRole else AssistantRole)
    && st.messages[path[k]].parent == (if k == 0 then None else Some(path[k - 1]))
  }

  /** A question without a parent, then answers and questions in turn, each below the one before. */
  ghost predicate Conversation(st: State, t: Id, path: seq<Id>) {
    forall k {:trigger TurnAt(st, t, path, k)} | 0 <= k < |path| :: TurnAt(st, t, path, k)
  }

  lemma ConversationGrows(st: State, t: Id, path: seq<Id>, i: Id)
    requires Conversation(st, t, path) && i in st.messages && st.messages[i].threadId == t
    requires st.messages[i].role == (if |path| % 2 == 0 then UserRole else AssistantRole)
    requires st.messages[i].parent == (if path == [] then None else Some(path[|path| - 1]))
    ensures Conversation(st, t, path + [i])
  {
    forall k | 0 <= k < |path| + 1 ensures TurnAt(st, t, path + [i], k) {
      if k < |path| { assert TurnAt(st, t, path, k); }
    }
  }

  lemma {:induction false} PathIsConversation(st: State, i: Id)
    requires IsForest(st) && Descending(st.messages) && i in st.messages
    ensures var path := Path(st.messages, Some(i));
            && Conversation(st, st.messages[i].threadId, path)
            && path != [] && path[|path| - 1] == i
            && (|path| % 2 == 0 <==> st.messages[i].role == AssistantRole)
    decreases Rank(st.messages[i])
  {
    assert GoodMessage(st, i);
    var m := st.messages[i];
    if m.parent.Some? {
      PathIsConversation(st, m.parent.value);
    }
    ConversationGrows(st, m.threadId, Path(st.messages, m.parent), i);
  }

  /** A thread reads as whole turns from a root to the active leaf, and is empty only when it
      holds no message. */
  lemma ThreadReadsAsConversation(st: State, owner: Owner, t: Id)
    requires IsForest(st) && ThreadInScope(st, owner, t).Ok?
    ensures Descending(st.messages) && ViewThread(st, owner, t).Ok?
    ensures var view := ViewThread(st, owner, t).value;
            var path := Path(st.messages, view.thread.activeLeaf);
            && |view.messages| == |path| && |path| % 2 == 0 && Conversation(st, t, path)
            && (forall k | 0 <= k < |path| ::
                  path[k] in st.messages && view.messages[k].message == st.messages[path[k]])
            && (path == [] <==> forall i | i in st.messages :: st.messages[i].threadId != t)
            && (path != [] ==> view.thread.activeLeaf == Some(path[|path| - 1]))
  {
    ForestDescends(st);
    assert GoodThread(st, t);
    var leaf := st.threads[t].activeLeaf;
    PathIsHeld(st.messages, leaf);
    if leaf.Some? { PathIsConversation(st, leaf.value); }
  }

  /** The nearest question above an answer is its parent, above a question itself. */
  lemma AnchorIsQuestion(st: State, owner: Owner, m: Id)
    requires IsForest(st) && Owns(st, owner, m)
    ensures Descending(st.messages)
    ensures UserAnchor(st, owner, m) ==
            Ok(if st.messages[m].role == UserRole then Some(m) else st.messages[m].parent)
    ensures UserAnchor(st, owner, m).value.Some?
  {
    ForestDescends(st);
    assert GoodMessage(st, m);
    var parent := st.messages[m].parent;
    if st.messages[m].role == AssistantRole { assert AnchorFrom(st.messages, parent) == parent; }
  }

  // ---------------------------------------------------------------- versions

  lemma {:induction false} ImageSize<T, U>(s: set<T>, f: T -> U)
    requires forall x, y | x in s && y in s && x != y :: f(x) != f(y)
    ensures |set x | x in s :: f(x)| == |s|
  {
    if s != {} {
      var x :| x in s;
      ImageSize(s - {x}, f);
      assert (set y | y in s :: f(y)) == (set y | y in s - {x} :: f(y)) + {f(x)};
    }
  }

  function Numbers(n: nat): (s: set<nat>)
    ensures |s| == n && forall v :: v in s <==> 1 <= v <= n
  {
    if n == 0 then {} else Numbers(n - 1) + {n}
  }

  lemma SubsetOfSameSize<T>(a: set<T>, b: set<T>)
    requires a <= b && |a| == |b|
    ensures a == b
  {
    assert b == a + (b - a);
  }

  lemma SmallerSubset<T>(a: set<T>, b: set<T>, x: T)
    requires a <= b && x in b && x !in a
    ensures |a| < |b|
  {
    SubsetSize(a, b - {x});
  }

  lemma {:induction false} SubsetSize<T>(a: set<T>, b: set<T>)
    requires a <= b
    ensures |a| <= |b|
  {
    assert b == a + (b - a);
  }

  lemma EarlierIsProper(st: State, t: Id, parent: Option<Id>, i: Id)
    requires i in Siblings(st, t, parent) && st.messages[i].id == i
    ensures |Earlier(st, st.messages[i])| < |Siblings(st, t, parent)|
  {
    SmallerSubset(Earlier(st, st.messages[i]), Siblings(st, t, parent), i);
  }

  lemma EarlierGrows(st: State, t: Id, parent: Option<Id>, i: Id, j: Id)
    requires i in Siblings(st, t, parent) && j in Siblings(st, t, parent)
    requires st.messages[i].id == i && st.messages[j].id == j
    requires Before(st.messages[i].createdAt, i, st.messages[j])
    ensures |Earlier(st, st.messages[i])| < |Earlier(st, st.messages[j])|
  {
    SmallerSubset(Earlier(st, st.messages[i]), Earlier(st, st.messages[j]), i);
  }

  ghost function VersionOf(st: State): Id -> nat {
    i => if i in st.messages then st.messages[i].version else 0
  }

  lemma VersionInRange(st: State, t: Id, parent: Option<Id>, i: Id)
    requires IsForest(st) && |Siblings(st, t, parent)| <= VERSION_MAX && i in Siblings(st, t, parent)
    ensures st.messages[i].id == i && VersionOf(st)(i) == |Earlier(st, st.messages[i])| + 1 <= |Siblings(st, t, parent)|
  {
    assert GoodMessage(st, i);
    EarlierIsProper(st, t, parent, i);
  }

  /** Among the alternatives below one parent, the earlier has the smaller version. */
  lemma VersionsFollowCreation(st: State, t: Id, parent: Option<Id>, i: Id, j: Id)
    requires IsForest(st) && |Siblings(st, t, parent)| <= VERSION_MAX
    requires i in Siblings(st, t, parent) && j in Siblings(st, t, parent)
    ensures Before(st.messages[i].createdAt, i, st.messages[j]) <==> VersionOf(st)(i) < VersionOf(st)(j)
  {
    VersionInRange(st, t, parent, i);
    VersionInRange(st, t, parent, j);
    if Before(st.messages[i].createdAt, i, st.messages[j]) {
      EarlierGrows(st, t, parent, i, j);
    } else if i != j {
      EarlierGrows(st, t, parent, j, i);
    }
  }

  lemma VersionsDiffer(st: State, t: Id, parent: Option<Id>, i: Id, j: Id)
    requires IsForest(st) && |Siblings(st, t, parent)| <= VERSION_MAX
    requires i in Siblings(st, t, parent) && j in Siblings(st, t, parent) && i != j
    ensures VersionOf(st)(i) != VersionOf(st)(j)
  {
    VersionsFollowCreation(st, t, parent, i, j);
    VersionsFollowCreation(st, t, parent, j, i);
    VersionInRange(st, t, parent, i);
    VersionInRange(st, t, parent, j);
  }

  lemma Permutes<T>(s: set<T>, f: T -> nat)
    requires forall x, y | x in s && y in s && x != y :: f(x) != f(y)
    requires forall x | x in s :: f(x) in Numbers(|s|)
    ensures (set x | x in s :: f(x)) == Numbers(|s|)
  {
    ImageSize(s, f);
    SubsetOfSameSize(set x | x in s :: f(x), Numbers(|s|));
  }

  /** Below one parent the versions are exactly 1 to the number of alternatives, as long as
      they fit in 32 bits. */
  lemma VersionsAreGapless(st: State, t: Id, parent: Option<Id>)
    requires IsForest(st) && |Siblings(st, t, parent)| <= VERSION_MAX
    ensures (set i | i in Siblings(st, t, parent) :: VersionOf(st)(i)) == Numbers(|Siblings(st, t, parent)|)
  {
    var s, f := Siblings(st, t, parent), VersionOf(st);
    forall i, j | i in s && j in s && i != j ensures f(i) != f(j) { VersionsDiffer(st, t, parent, i, j); }
    forall i | i in s ensures f(i) in Numbers(|s|) { VersionInRange(st, t, parent, i); }
    Permutes(s, f);
  }

  /** The versions a reader is shown are the versions the rows were given. */
  lemma ShownVersionsAreStored(st: State, m: Id, i: Id)
    requires IsForest(st) && m in st.messages && i in Versions(st, st.messages[m])
    ensures i in st.messages && Versions(st, st.messages[m])[i].version == st.messages[i].version
    ensures Versions(st, st.messages[m])[i].isActive <==> i == m
  {
    assert GoodMessage(st, i) && GoodMessage(st, m);
  }

  // ---------------------------------------------------------------- what the handlers see to

  /** A row stays in its thread and below its parent, and no step brings back a row that is
      gone: new rows take new identifiers. */
  ghost predicate InPlace(a: State, b: State, m: Id) {
    m in b.messages ==>
      && m in a.messages && b.messages[m].threadId == a.messages[m].threadId
      && b.messages[m].parent == a.messages[m].parent
  }

  lemma AnchorKeepsRow(a: State, owner: Owner, thread: Thread, request: BeginTurn, env: Env, m: Id)
    requires m != env.user
    ensures InPlace(a, AnchorOf(a, owner, thread, request, env).0, m)
  {
  }

  lemma TurnKeepsRow(st: State, owner: Owner, request: BeginTurn, env: Env, m: Id)
    requires m != env.user && m != env.assistant
    ensures InPlace(st, StartTurn(st, owner, request, env).0, m)
  {
    var (a, found) := TurnThread(st, owner, request, env);
    if found.Ok? { AnchorKeepsRow(a, owner, found.value, request, env, m); }
  }

  lemma RewritesKeepRow(st: State, s: Step, m: Id)
    requires s.op.Delete? || s.op.Finalize? || s.op.Stop? || s.op.Activate? || s.op.Sweep?
    ensures InPlace(st, Apply(st, s).0, m)
  {
    match s.op
    case Delete(_) =>
    case Finalize(_) =>
    case Stop(_) =>
    case Activate(_) =>
    case Sweep(_, _) =>
  }

  lemma StepKeepsRow(st: State, s: Step, m: Id)
    requires m != s.env.user && m != s.env.assistant
    ensures InPlace(st, Apply(st, s).0, m)
  {
    if s.op.Begin? {
      TurnKeepsRow(st, s.owner, s.op.request, s.env, m);
    } else if s.op.Delete? || s.op.Finalize? || s.op.Stop? || s.op.Activate? || s.op.Sweep? {
      RewritesKeepRow(st, s, m);
    } else if !s.op.Create? {
      OthersLeaveMessages(st, s);
    }
  }

  lemma {:induction false} RunKeepsRow(st: State, steps: seq<Step>, m: Id)
    requires forall i | 0 <= i < |steps| :: steps[i].env.user != m && steps[i].env.assistant != m
    ensures InPlace(st, Run(st, steps).0, m)
    decreases |steps|
  {
    if steps != [] {
      StepKeepsRow(st, steps[0], m);
      RunKeepsRow(Apply(st, steps[0]).0, steps[1..], m);
    }
  }

  /** An edit or a regeneration that names the thread the message was read in is aligned,
      whatever anyone did between the reading and the turn. */
  lemma HandlerTurnsAreAligned(st: State, steps: seq<Step>, owner: Owner, m: Id, content: string)
    requires GetMessage(st, owner, m).Ok?
    requires forall i | 0 <= i < |steps| :: steps[i].env.user != m && steps[i].env.assistant != m
    ensures var thread := GetMessage(st, owner, m).value.message.threadId;
            && Aligned(Run(st, steps).0, BeginTurn(Some(thread), Edit(m), content))
            && Aligned(Run(st, steps).0, BeginTurn(Some(thread), Regenerate(m), content))
  {
    RunKeepsRow(st, steps, m);
  }
}
