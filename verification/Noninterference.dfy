/** Noninterference by purging: an owner's calls answer as if no one else made any. */
module Noninterference {
  import opened Json
  import opened Types
  import opened Store
  import opened Operations
  import opened Visibility
  import opened Isolation

  // ---------------------------------------------------------------- one call

  /** A call concerns its owner; a sweep concerns everyone. */
  predicate Concerns(s: Step, o: Owner) {
    s.owner == o || IsSweep(s.op)
  }

  /** What a step does for an owner: a call of `o` answers from `o`'s part of the store, and
      leaves the part it would leave working on that part alone; a call of anyone else leaves
      the part as it is. */
  ghost predicate Isolated(s: State, p: State, o: Owner, step: Step) {
    var (next, reply) := Apply(s, step);
    && Closed(next)
    && if Concerns(step, o) then
         && FreshEnv(p, step.env) && Permitted(p, step)
         && Apply(p, step).1 == reply && Shows(next, Apply(p, step).0, o)
       else Shows(next, p, o)
  }

  /** On its part of the store, an owner's call writes the same rows and answers the same. */
  lemma OwnWriteIsAlike(s: State, p: State, step: Step)
    requires Closed(s) && FreshEnv(s, step.env) && Permitted(s, step) && Shows(s, p, step.owner) && Writes(step.op)
    ensures FreshEnv(p, step.env) && Permitted(p, step) && Apply(p, step).1 == Apply(s, step).1
    ensures Apply(p, step).0 == PutAll(p, WritesOf(s, step))
  {
    ClosedShown(s, p, step.owner);
    FreshShown(s, p, step.owner, step.env);
    PermittedShown(s, p, step);
    WritingCallShown(s, p, step);
    StepFits(p, step);
  }

  lemma WriteIsIsolated(s: State, p: State, o: Owner, step: Step)
    requires Closed(s) && FreshEnv(s, step.env) && Permitted(s, step) && Shows(s, p, o) && Writes(step.op)
    ensures Isolated(s, p, o, step)
  {
    StepFits(s, step);
    WritesKeepClosed(s, step.owner, WritesOf(s, step));
    WritesShow(s, p, o, step.owner, WritesOf(s, step));
    if step.owner == o { OwnWriteIsAlike(s, p, step); }
  }

  /** Deletions, feedback, sweeps and reads. */
  lemma OtherCallIsIsolated(s: State, p: State, o: Owner, step: Step)
    requires Closed(s) && FreshEnv(s, step.env) && Permitted(s, step) && Shows(s, p, o) && !Writes(step.op)
    ensures Isolated(s, p, o, step)
  {
    FreshShown(s, p, o, step.env);
    if step.op.Delete? {
      DeleteIsIsolated(s, p, o, step);
    } else if step.op.Rate? || step.op.Unrate? {
      FeedbackIsIsolated(s, p, o, step);
    } else if IsSweep(step.op) {
      SweepKeepsClosed(s, step);
      SweepIsIsolated(s, p, o, step);
    } else if step.owner == o {
      ReadShown(s, p, step);
    }
  }

  lemma StepIsIsolated(s: State, p: State, o: Owner, step: Step)
    requires Closed(s) && FreshEnv(s, step.env) && Permitted(s, step) && Shows(s, p, o)
    ensures Isolated(s, p, o, step)
  {
    if Writes(step.op) { WriteIsIsolated(s, p, o, step); } else { OtherCallIsIsolated(s, p, o, step); }
  }

  // ---------------------------------------------------------------- runs

  /** Every call finds fresh identifiers and a later time, and calls are recorded by their owner. */
  ghost predicate LegalRun(st: State, steps: seq<Step>)
    decreases |steps|
  {
    steps == [] ||
    (FreshEnv(st, steps[0].env) && Permitted(st, steps[0]) && LegalRun(Apply(st, steps[0]).0, steps[1..]))
  }

  /** The run without what the others do. */
  function Purge(steps: seq<Step>, o: Owner): seq<Step> {
    if steps == [] then [] else (if Concerns(steps[0], o) then [steps[0]] else []) + Purge(steps[1..], o)
  }

  /** The replies `o` and the system hear. */
  ghost function Heard(st: State, steps: seq<Step>, o: Owner): seq<Reply>
    decreases |steps|
  {
    if steps == [] then [] else
      (if Concerns(steps[0], o) then [Apply(st, steps[0]).1] else []) + Heard(Apply(st, steps[0]).0, steps[1..], o)
  }

  lemma {:induction false} PurgedRunShows(s: State, p: State, steps: seq<Step>, o: Owner)
    requires Closed(s) && Shows(s, p, o) && LegalRun(s, steps)
    ensures LegalRun(p, Purge(steps, o)) && Closed(Run(s, steps).0)
    ensures Heard(s, steps, o) == Run(p, Purge(steps, o)).1
    ensures Shows(Run(s, steps).0, Run(p, Purge(steps, o)).0, o)
    decreases |steps|
  {
    if steps != [] {
      var step := steps[0];
      StepIsIsolated(s, p, o, step);
      var s' := Apply(s, step).0;
      if Concerns(step, o) {
        PurgedRunShows(s', Apply(p, step).0, steps[1..], o);
        assert Purge(steps, o)[0] == step && Purge(steps, o)[1..] == Purge(steps[1..], o);
      } else {
        PurgedRunShows(s', p, steps[1..], o);
        assert Purge(steps, o) == Purge(steps[1..], o);
      }
    }
  }

  /** In every interleaving of the calls of all owners, an owner hears exactly what it would
      hear working alone on its own part of the store, and is left with the same part. */
  lemma NonInterference(st: State, steps: seq<Step>, o: Owner)
    requires Closed(st) && LegalRun(st, steps)
    ensures LegalRun(Part(st, o), Purge(steps, o))
    ensures Heard(st, steps, o) == Run(Part(st, o), Purge(steps, o)).1
    ensures Part(Run(st, steps).0, o) == Part(Run(Part(st, o), Purge(steps, o)).0, o)
  {
    PartShows(st, o);
    PurgedRunShows(st, Part(st, o), steps, o);
    SamePart(Run(st, steps).0, Run(Part(st, o), Purge(steps, o)).0, o);
  }

  lemma SameMessages(s: State, p: State, o: Owner)
    requires Shows(s, p, o)
    ensures Part(s, o).threads == Part(p, o).threads && Part(s, o).messages == Part(p, o).messages
  {
    var a, b := Part(s, o), Part(p, o);
    forall t ensures t in a.threads <==> t in b.threads
             ensures t in a.threads ==> a.threads[t] == b.threads[t] { assert ThreadShown(s, p, o, t); }
    forall i ensures i in a.messages <==> i in b.messages
             ensures i in a.messages ==> a.messages[i] == b.messages[i] { OwnsShown(s, p, o, i); }
    assert a.threads == b.threads && a.messages == b.messages;
  }

  lemma SameAnnotations(s: State, p: State, o: Owner)
    requires Shows(s, p, o)
    ensures Part(s, o).feedback == Part(p, o).feedback && Part(s, o).toolCalls == Part(p, o).toolCalls
  {
    var a, b := Part(s, o), Part(p, o);
    forall i ensures Owns(p, o, i) <==> Owns(s, o, i) { OwnsShown(s, p, o, i); }
    forall i ensures i in a.feedback <==> i in b.feedback
             ensures i in a.feedback ==> a.feedback[i] == b.feedback[i] { assert FeedbackShown(s, p, o, i); }
    forall k ensures k in a.toolCalls <==> k in b.toolCalls
             ensures k in a.toolCalls ==> a.toolCalls[k] == b.toolCalls[k] { assert CallShown(s, p, o, k); }
    assert a.feedback == b.feedback && a.toolCalls == b.toolCalls;
  }

  lemma SamePart(s: State, p: State, o: Owner)
    requires Shows(s, p, o)
    ensures Part(s, o) == Part(p, o)
  {
    SameMessages(s, p, o);
    SameAnnotations(s, p, o);
  }

  lemma StepKeepsClosed(st: State, step: Step)
    requires Closed(st) && FreshEnv(st, step.env) && Permitted(st, step)
    ensures Closed(Apply(st, step).0) && Apply(st, step).1 != Endless
  {
    PartShows(st, step.owner);
    StepIsIsolated(st, Part(st, step.owner), step.owner, step);
    ClosedDescends(st);
  }

  /** No walk to a root ever goes round. */
  lemma {:induction false} WalksEnd(st: State, steps: seq<Step>, k: nat)
    requires Closed(st) && LegalRun(st, steps) && k < |Run(st, steps).1|
    ensures Run(st, steps).1[k] != Endless
    decreases |steps|
  {
    if steps != [] {
      StepKeepsClosed(st, steps[0]);
      if k > 0 { WalksEnd(Apply(st, steps[0]).0, steps[1..], k - 1); }
    }
  }
}
