/** Every call on the conversation and approval stores as one step, and runs of such steps. */
module Operations {
  import opened Json
  import opened Types
  import opened Store
  import opened Calls

  datatype Operation =
    | Create(title: Option<string>)
    | Delete(thread: Id)
    | Begin(request: BeginTurn)
    | Finalize(finish: Finish)
    | Stop(message: Id)
    | Activate(message: Id)
    | Rate(message: Id, up: bool, comment: Option<string>)
    | Unrate(message: Id)
    | View(thread: Id)
    | Show(message: Id)
    | History(message: Id)
    | Anchor(message: Id)
    | Record(row: CallRow)
    | Approve(call: string, approval: string)
    | Deny(call: string)
    | Start(call: string, grant: Option<string>)
    | End(call: string, completion: Completion)
    | Sweep(cutoff: Time, code: string)
    | Expire

  datatype Reply =
    | Created(thread: Result<Thread>)
    | Began(turn: Result<StartedTurn>)
    | Done(outcome: Result<()>)
    | Halted(row: Result<Message>)
    | Rated(feedback: Result<Feedback>)
    | Viewed(view: Result<ThreadView>)
    | Shown(message: Result<MessageView>)
    | Told(history: Result<seq<ChatMessage>>)
    | Found(anchor: Result<Option<Id>>)
    | Silent
    | Endless

  /** One call: who makes it, and the identifiers and the time it is given. */
  datatype Step = Step(owner: Owner, op: Operation, env: Env)

  function WithCalls(st: State, r: (Rows, Result<()>)): (State, Reply) {
    (st.(toolCalls := r.0), Done(r.1))
  }

  /** Reading walks to the root give no reply when parents form a cycle. */
  ghost function Read(st: State, s: Step): Reply {
    if !Descending(st.messages) then Endless else
    match s.op
    case View(t) => Viewed(ViewThread(st, s.owner, t))
    case Show(m) => Shown(GetMessage(st, s.owner, m))
    case History(m) => Told(HistoryForMessage(st, s.owner, m))
    case Anchor(m) => Found(UserAnchor(st, s.owner, m))
    case _ => Silent
  }

  ghost function Apply(st: State, s: Step): (State, Reply) {
    match s.op
    case Create(title) => var (b, r) := CreateThread(st, s.owner, title, s.env); (b, Created(r))
    case Delete(t) => var (b, r) := DeleteThread(st, s.owner, t); (b, Done(r))
    case Begin(request) => var (b, r) := StartTurn(st, s.owner, request, s.env); (b, Began(r))
    case Finalize(f) => var (b, r) := FinalizeAssistant(st, s.owner, f, s.env); (b, Done(r))
    case Stop(m) => var (b, r) := StopTurn(st, s.owner, m, s.env); (b, Halted(r))
    case Activate(m) => var (b, r) := ActivateMessage(st, s.owner, m, s.env); (b, Done(r))
    case Rate(m, up, comment) => var (b, r) := SetFeedback(st, s.owner, m, up, comment, s.env); (b, Rated(r))
    case Unrate(m) => var (b, r) := ClearFeedback(st, s.owner, m); (b, Done(r))
    case Record(row) => (st.(toolCalls := RecordCall(st.toolCalls, row)), Silent)
    case Approve(call, approval) => WithCalls(st, MarkApproved(st.toolCalls, call, approval))
    case Deny(call) => WithCalls(st, MarkDenied(st.toolCalls, call, s.env.now))
    case Start(call, grant) => WithCalls(st, MarkRunning(st.toolCalls, call, grant))
    case End(call, completion) => WithCalls(st, CompleteCall(st.toolCalls, call, completion, s.env.now))
    case Sweep(cutoff, code) => (FinalizeStale(st, cutoff, code, s.env.now), Silent)
    case Expire => (st.(toolCalls := ExpireCalls(st.toolCalls, s.env.now)), Silent)
    case _ => (st, Read(st, s))
  }

  ghost function Run(st: State, steps: seq<Step>): (State, seq<Reply>)
    decreases |steps|
  {
    if steps == [] then (st, [])
    else
      var (next, reply) := Apply(st, steps[0]);
      var (end, replies) := Run(next, steps[1..]);
      (end, [reply] + replies)
  }
}
