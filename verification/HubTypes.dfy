/** The rows the hub keeps and the values its operations return.

    Every persisted timestamp of the source is UTC text at millisecond precision, compared
    lexically; here it is an `int` number of milliseconds. Tasks, messages, events and decisions
    are never deleted, so a row's position in its table serves as its id.
 */
module HubTypes {
  datatype Option<+T> = None | Some(value: T)

  function Min(a: int, b: int): int { if a < b then a else b }

  function Max(a: int, b: int): int { if a < b then b else a }

  /** A worker process identity. The protocol layer refuses an empty one before the store sees it. */
  type Instance = s: string | |s| > 0 witness "w"

  /** Text bound for one message part or typed result. `fits` says that its compact JSON size is
      within the contract cap, which is all the store ever asks about that size. */
  datatype Text = Text(body: string, fits: bool)

  datatype Error =
    | NotFound
    | Conflict
    | IdempotencyConflict
    | DuplicateAgent
    | PayloadTooLarge
    | InvalidPolicy
    | InvalidValue
    | Superseded

  // -- workflow ---------------------------------------------------------------

  datatype WorkflowStatus = Active | Paused | Done | Escalated

  function StatusName(status: WorkflowStatus): string {
    match status
    case Active => "active"
    case Paused => "paused"
    case Done => "done"
    case Escalated => "escalated"
  }

  /** The rails supplied, absent ones keeping their defaults. `maxLease` bounds heartbeat renewal;
      `others` stands for the role policy and the flags, `wellTyped` for the absence of unknown or
      ill-typed fields. */
  datatype Policy = Policy(
    maxLease: Option<int>,
    maxReviewRounds: Option<int>,
    pairingWait: Option<int>,
    maxWall: Option<int>,
    mergeMethod: Option<string>,
    others: string,
    wellTyped: bool)

  predicate Positive(rail: Option<int>) {
    rail.Some? ==> rail.value > 0
  }

  predicate SoundPolicy(policy: Policy) {
    && policy.wellTyped
    && Positive(policy.maxLease) && Positive(policy.maxReviewRounds)
    && Positive(policy.pairingWait) && Positive(policy.maxWall)
    && (policy.mergeMethod.Some? ==> policy.mergeMethod.value in {"merge", "squash", "rebase"})
  }

  datatype Workflow = Workflow(goal: string, policy: Policy, status: WorkflowStatus)

  /** 120 minutes. */
  const DEFAULT_MAX_LEASE: int := 7_200_000

  function LeaseCap(policy: Policy): int {
    match policy.maxLease
    case Some(limit) => if limit > 0 then limit else DEFAULT_MAX_LEASE
    case None => DEFAULT_MAX_LEASE
  }

  // -- agents -----------------------------------------------------------------

  datatype AgentStatus = Idle | Busy | Released | Lost

  predicate Live(status: AgentStatus) {
    status == Idle || status == Busy
  }

  datatype Profile = Profile(
    details: string,
    capabilities: seq<string>,
    workspace: Option<string>,
    fits: bool)

  datatype Agent = Agent(
    status: AgentStatus,
    context: nat,
    instance: Instance,
    lastSeen: int,
    lastHeartbeat: int,
    lastProgress: Option<int>,
    currentTask: Option<nat>,
    profile: Profile,
    checkinAddr: Option<string>,
    lastAddr: Option<string>)

  // -- tasks ------------------------------------------------------------------

  datatype TaskState = Submitted | Working | InputRequired | Completed | Failed | Canceled

  predicate Terminal(state: TaskState) {
    state == Completed || state == Failed || state == Canceled
  }

  datatype ImplementerOutcome = Finished | Blocked | Unsuccessful
  datatype ReviewerVerdict = Approved | ChangesRequested | ReviewBlocked | ReviewFailed

  /** Everything in a typed result but its verdict. `fits` is about the whole result; the summary has a
      cap of its own when it is echoed into the transcript. */
  datatype Detail = Detail(body: string, summary: Text, fits: bool)

  datatype TaskResult =
    | ImplementerResult(outcome: ImplementerOutcome, detail: Detail)
    | RebaseResult(outcome: ImplementerOutcome, detail: Detail)
    | ReviewerResult(verdict: ReviewerVerdict, detail: Detail)

  /** What the transcript says of a result: its summary, or a stand-in for one that is too large. */
  function ResultEcho(result: TaskResult): string {
    if result.detail.summary.fits then result.detail.summary.body
    else "Typed result recorded; full summary is retained in the task result."
  }

  function TerminalStatus(result: TaskResult): (state: TaskState)
    ensures state == Completed || state == Failed
  {
    match result
    case ImplementerResult(outcome, _) => if outcome == Finished then Completed else Failed
    case RebaseResult(outcome, _) => if outcome == Finished then Completed else Failed
    case ReviewerResult(verdict, _) =>
      if verdict == Approved || verdict == ChangesRequested then Completed else Failed
  }

  /** What `result_json` holds after each way a task can end with a result. */
  datatype StoredResult =
    | Typed(result: TaskResult)
    | Overridden(state: TaskState, note: string)
    | WorkerLost(agent: string)

  datatype Task = Task(
    assignee: string,
    role: string,
    title: string,
    instructions: Text,
    state: TaskState,
    leaseExpires: Option<int>,
    leaseDuration: int,
    result: Option<StoredResult>,
    created: int,
    prHead: Option<string>,
    sourceEvent: Option<nat>)

  // -- transcript -------------------------------------------------------------

  datatype MessageKind =
    | CheckInNote
    | Assignment
    | ProgressNote
    | Question(sentAs: string)
    | Reply
    | StateOverride
    | ResultNote

  /** The stored direction is a function of the kind. */
  predicate FromAlice(kind: MessageKind) {
    kind.Assignment? || kind.Reply? || kind.StateOverride?
  }

  datatype Message = Message(task: Option<nat>, context: nat, sender: string, kind: MessageKind, text: string)

  // -- Alice's inbox ----------------------------------------------------------

  datatype EventState = Queued | Delivered | Acked

  datatype EventBody =
    | AgentCheckedIn(agent: string, context: nat, instance: Instance, profile: Profile)
    | TaskProgress(task: nat, agent: string, note: string)
    | TaskCompleted(task: nat, agent: string, result: TaskResult)
    | TaskFailed(task: nat, agent: string, result: TaskResult)
    | WorkerQuestion(task: nat, agent: string, question: string, messageId: nat)
    | LeaseExpired(task: nat, agent: string, lease: int)
    | AgentLost(agent: string, lostTask: Option<nat>, lastHeartbeat: int)

  datatype Event = Event(
    body: EventBody,
    state: EventState,
    deliveryId: Option<nat>,
    attempts: nat,
    expires: Option<int>)

  datatype Decision = Decision(summary: string, rationale: string, key: Option<string>)

  // -- idempotency ------------------------------------------------------------

  /** The payload hash is taken to be injective, so the payload itself is stored. */
  datatype Payload =
    | CheckInPayload(name: string, instance: Instance, capabilities: multiset<string>, rest: Profile)
    | ProgressPayload(task: nat, note: string)
    | ResultPayload(task: nat, result: TaskResult)

  /** Capabilities are hashed in sorted order, so theirs does not matter. */
  function CheckInAsk(name: string, instance: Instance, profile: Profile): Payload {
    CheckInPayload(name, instance, multiset(profile.capabilities), profile.(capabilities := []))
  }

  datatype OpKey = OpKey(actor: string, id: string)

  datatype Operation = Operation(payload: Payload, response: Response)

  // -- results and wakeups ----------------------------------------------------

  datatype Response =
    | Refused(error: Error)
    | WorkflowReady
    | Ok
    | Registered(name: string, context: nat, status: AgentStatus, instance: Instance)
    | Noted(context: nat, task: nat)
    | TaskIs(taskId: nat, row: Task)
    | AgentIs(agent: Agent)
    | Flag(value: bool)
    | MessageId(id: nat)
    | DecisionId(id: nat)
    | Leased(eventId: nat, event: Event)
    | Nothing
    | AgentReleased
    | Swept(first: nat, last: nat)

  /** What a held request waits for. */
  datatype Key = ContextKey(context: nat) | TaskKey(task: nat) | EventKey

  // -- the whole durable state ------------------------------------------------

  /** `roster` lists agent names in insertion order and fixes the order in which the sweeper visits
      them. `deliveries[d]` is the event that delivery id `d` was minted for; its length is the
      next fresh delivery id. */
  datatype Hub = Hub(
    workflow: Option<Workflow>,
    agents: map<string, Agent>,
    roster: seq<string>,
    tasks: seq<Task>,
    messages: seq<Message>,
    events: seq<Event>,
    decisions: seq<Decision>,
    operations: map<OpKey, Operation>,
    deliveries: seq<nat>)

  const EMPTY: Hub := Hub(None, map[], [], [], [], [], [], map[], [])

  predicate Open(h: Hub, t: nat) {
    t < |h.tasks| && !Terminal(h.tasks[t].state)
  }

  /** The outcome of one transaction: the committed state, what the caller sees, and the keys whose
      waiters are notified after the commit. */
  datatype Step = Step(hub: Hub, response: Response, notified: set<Key>)

  function Refuse(h: Hub, error: Error): Step {
    Step(h, Refused(error), {})
  }
}
