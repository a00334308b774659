/** What an owner can see of the store, and that reading sees nothing else. */
module Visibility {
  import opened Json
  import opened Types
  import opened Store
  import opened Operations

  // ---------------------------------------------------------------- what every store keeps

  ghost predicate HasThread(st: State, o: Owner, t: Id) {
    t in st.threads && st.threads[t].owner == o
  }

  /** `c` names nothing, a message that is gone, or one of `o`. */
  ghost predicate OwnedOrGone(st: State, o: Owner, c: Option<Id>) {
    c.Some? && c.value in st.messages ==> Owns(st, o, c.value)
  }

  ghost predicate ThreadClosed(st: State, t: Id) {
    t in st.threads ==> st.threads[t].id == t && OwnedOrGone(st, st.threads[t].owner, st.threads[t].activeLeaf)
  }

  ghost predicate MessageClosed(st: State, i: Id) {
    i in st.messages ==>
      && st.messages[i].id == i && st.messages[i].threadId in st.threads
      && OwnedOrGone(st, st.threads[st.messages[i].threadId].owner, st.messages[i].parent)
      && (st.messages[i].parent.Some? && st.messages[i].parent.value in st.messages ==>
            Rank(st.messages[st.messages[i].parent.value]) < Rank(st.messages[i]))
  }

  /** A row that `o` may keep: its message is one of `o`'s in the thread it names, or gone. */
  ghost predicate CallHangs(st: State, o: Owner, row: CallRow) {
    && row.owner == o
    && (row.threadId in st.threads ==> st.threads[row.threadId].owner == o)
    && (row.messageId in st.messages ==>
          Owns(st, o, row.messageId) && row.threadId == st.messages[row.messageId].threadId)
  }

  ghost predicate CallClosed(st: State, k: string) {
    k in st.toolCalls ==> st.toolCalls[k].id == k && CallHangs(st, st.toolCalls[k].owner, st.toolCalls[k])
  }

  /** Rows point only at rows of the same owner, and parents come first. */
  ghost predicate Closed(st: State) {
    && (forall t {:trigger ThreadClosed(st, t)} :: ThreadClosed(st, t))
    && (forall i {:trigger MessageClosed(st, i)} :: MessageClosed(st, i))
    && (forall k {:trigger CallClosed(st, k)} :: CallClosed(st, k))
  }

  lemma ClosedDescends(st: State)
    requires Closed(st)
    ensures Descending(st.messages)
  {
    forall i | i in st.messages
      ensures st.messages[i].id == i
      ensures st.messages[i].parent.Some? && st.messages[i].parent.value in st.messages ==>
        Rank(st.messages[st.messages[i].parent.value]) < Rank(st.messages[i])
    {
      assert MessageClosed(st, i);
    }
  }

  // ---------------------------------------------------------------- what an owner sees

  ghost predicate ThreadShown(s: State, p: State, o: Owner, t: Id) {
    (t in p.threads <==> HasThread(s, o, t)) && (t in p.threads ==> p.threads[t] == s.threads[t])
  }

  ghost predicate MessageShown(s: State, p: State, o: Owner, i: Id) {
    (i in p.messages <==> Owns(s, o, i)) && (i in p.messages ==> p.messages[i] == s.messages[i])
  }

  ghost predicate CallShown(s: State, p: State, o: Owner, k: string) {
    && (k in p.toolCalls <==> k in s.toolCalls && s.toolCalls[k].owner == o)
    && (k in p.toolCalls ==> p.toolCalls[k] == s.toolCalls[k])
  }

  ghost predicate FeedbackShown(s: State, p: State, o: Owner, i: Id) {
    && (i in p.feedback ==> i in s.feedback && (i in s.messages ==> Owns(s, o, i)))
    && (Owns(s, o, i) && i in s.feedback ==> i in p.feedback && p.feedback[i] == s.feedback[i])
  }

  /** `p` holds what is `o`'s in `s` and nothing else, but for feedback on messages that are gone. */
  ghost predicate Shows(s: State, p: State, o: Owner) {
    && (forall t {:trigger ThreadShown(s, p, o, t)} :: ThreadShown(s, p, o, t))
    && (forall i {:trigger MessageShown(s, p, o, i)} :: MessageShown(s, p, o, i))
    && (forall k {:trigger CallShown(s, p, o, k)} :: CallShown(s, p, o, k))
    && (forall i {:trigger FeedbackShown(s, p, o, i)} :: FeedbackShown(s, p, o, i))
  }

  /** The owner's part of a store. */
  function Part(st: State, o: Owner): State {
    State(map t | t in st.threads && st.threads[t].owner == o :: st.threads[t],
          map i | i in st.messages && Owns(st, o, i) :: st.messages[i],
          map i | i in st.feedback && Owns(st, o, i) :: st.feedback[i],
          map k | k in st.toolCalls && st.toolCalls[k].owner == o :: st.toolCalls[k])
  }

  lemma PartShows(st: State, o: Owner)
    ensures Shows(st, Part(st, o), o)
  {
  }

  // ---------------------------------------------------------------- reading

  lemma OwnsShown(s: State, p: State, o: Owner, m: Id)
    requires Shows(s, p, o)
    ensures Owns(p, o, m) <==> Owns(s, o, m)
    ensures m in p.messages <==> Owns(s, o, m)
    ensures Owns(s, o, m) ==> p.messages[m] == s.messages[m]
  {
    assert MessageShown(s, p, o, m);
    if m in s.messages { assert ThreadShown(s, p, o, s.messages[m].threadId); }
  }

  lemma ThreadsShown(s: State, p: State, o: Owner, t: Id)
    requires Shows(s, p, o)
    ensures HasThread(p, o, t) <==> HasThread(s, o, t)
    ensures ThreadInScope(p, o, t) == ThreadInScope(s, o, t)
  {
    assert ThreadShown(s, p, o, t);
  }

  lemma SiblingsShown(s: State, p: State, o: Owner, t: Id, parent: Option<Id>)
    requires Shows(s, p, o) && HasThread(s, o, t)
    ensures Siblings(p, t, parent) == Siblings(s, t, parent)
    ensures forall i | i in Siblings(s, t, parent) :: i in p.messages && p.messages[i] == s.messages[i]
  {
    forall i
      ensures i in Siblings(p, t, parent) <==> i in Siblings(s, t, parent)
      ensures i in Siblings(s, t, parent) ==> i in p.messages && p.messages[i] == s.messages[i]
    {
      assert MessageShown(s, p, o, i);
    }
  }

  lemma VersionsShown(s: State, p: State, o: Owner, m: Message)
    requires Shows(s, p, o) && HasThread(s, o, m.threadId)
    ensures Versions(p, m) == Versions(s, m)
  {
    SiblingsShown(s, p, o, m.threadId, m.parent);
    forall i | i in Siblings(s, m.threadId, m.parent)
      ensures Earlier(p, p.messages[i]) == Earlier(s, s.messages[i])
    {
      SiblingsShown(s, p, o, m.threadId, m.parent);
    }
  }

  lemma DecorateShown(s: State, p: State, o: Owner, m: Message)
    requires Closed(s) && Shows(s, p, o) && HasThread(s, o, m.threadId) && Owns(s, o, m.id)
    ensures Decorate(p, m) == Decorate(s, m)
  {
    VersionsShown(s, p, o, m);
    forall k
      ensures k in p.toolCalls && p.toolCalls[k].messageId == m.id
         <==> k in s.toolCalls && s.toolCalls[k].messageId == m.id
      ensures k in p.toolCalls ==> k in s.toolCalls && p.toolCalls[k] == s.toolCalls[k]
    {
      assert CallShown(s, p, o, k) && CallClosed(s, k);
    }
    assert FeedbackShown(s, p, o, m.id);
  }

  lemma {:induction false} PathShown(s: State, p: State, o: Owner, c: Option<Id>)
    requires Closed(s) && Shows(s, p, o) && OwnedOrGone(s, o, c)
    requires Descending(s.messages) && Descending(p.messages)
    ensures Path(p.messages, c) == Path(s.messages, c)
    ensures AnchorFrom(p.messages, c) == AnchorFrom(s.messages, c)
    ensures forall i | i in Path(s.messages, c) :: Owns(s, o, i)
    decreases Height(s.messages, c)
  {
    if c.Some? {
      OwnsShown(s, p, o, c.value);
      if c.value in s.messages {
        assert MessageClosed(s, c.value);
        PathShown(s, p, o, s.messages[c.value].parent);
      }
    }
  }

  lemma DescendsShown(s: State, p: State, o: Owner)
    requires Closed(s) && Shows(s, p, o)
    ensures Descending(s.messages) && Descending(p.messages)
  {
    ClosedDescends(s);
    forall i | i in p.messages
      ensures p.messages[i].id == i
      ensures p.messages[i].parent.Some? && p.messages[i].parent.value in p.messages ==>
        Rank(p.messages[p.messages[i].parent.value]) < Rank(p.messages[i])
    {
      OwnsShown(s, p, o, i);
      if p.messages[i].parent.Some? { OwnsShown(s, p, o, p.messages[i].parent.value); }
    }
  }

  lemma WalkShown(s: State, p: State, o: Owner, c: Option<Id>)
    requires Closed(s) && Shows(s, p, o) && OwnedOrGone(s, o, c)
    requires Descending(s.messages) && Descending(p.messages)
    ensures var ids := Path(s.messages, c);
            && ids == Path(p.messages, c) && (forall i | i in ids :: i in s.messages && i in p.messages)
            && DecorateAll(p, ids) == DecorateAll(s, ids)
  {
    PathShown(s, p, o, c);
    var ids := Path(s.messages, c);
    forall i | i in ids
      ensures i in s.messages && i in p.messages && Decorate(p, p.messages[i]) == Decorate(s, s.messages[i])
    {
      OwnsShown(s, p, o, i);
      assert MessageClosed(s, i);
      DecorateShown(s, p, o, s.messages[i]);
    }
  }

  lemma ReadShown(s: State, p: State, step: Step)
    requires Closed(s) && Shows(s, p, step.owner)
    ensures Read(p, step) == Read(s, step)
  {
    var o := step.owner;
    DescendsShown(s, p, o);
    match step.op
    case View(t) =>
      ThreadsShown(s, p, o, t);
      if HasThread(s, o, t) {
        assert ThreadClosed(s, t);
        WalkShown(s, p, o, s.threads[t].activeLeaf);
      }
    case Show(m) =>
      OwnsShown(s, p, o, m);
      if Owns(s, o, m) {
        assert MessageClosed(s, m);
        DecorateShown(s, p, o, s.messages[m]);
      }
    case History(m) =>
      OwnsShown(s, p, o, m);
      if Owns(s, o, m) {
        assert MessageClosed(s, m);
        WalkShown(s, p, o, Some(m));
      }
    case Anchor(m) =>
      OwnsShown(s, p, o, m);
      if Owns(s, o, m) {
        assert MessageClosed(s, m);
        PathShown(s, p, o, Some(m));
      }
    case _ =>
  }
}
