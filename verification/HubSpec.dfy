/** The hub's transactions as functions of the state they start from.

    `HubStore` is proved to perform exactly these; the other modules prove what they add up to.
 */
module HubSpec {
  import opened HubTypes

  // -- rows -------------------------------------------------------------------

  function AddMessage(h: Hub, m: Message): Hub {
    h.(messages := h.messages + [m])
  }

  function AddEvent(h: Hub, body: EventBody): Hub {
    h.(events := h.events + [Event(body, Queued, None, 0, None)])
  }

  function SetState(h: Hub, t: nat, state: TaskState): Hub
    requires t < |h.tasks|
  {
    h.(tasks := h.tasks[t := h.tasks[t].(state := state)])
  }

  function SetLease(h: Hub, t: nat, lease: Option<int>): Hub
    requires t < |h.tasks|
  {
    h.(tasks := h.tasks[t := h.tasks[t].(leaseExpires := lease)])
  }

  function SetAgent(h: Hub, name: string, a: Agent): Hub {
    h.(agents := h.agents[name := a])
  }

  /** An agent row after its task `t` ended. */
  function Freed(a: Agent, t: nat): Agent {
    if a.currentTask == Some(t)
    then a.(status := if a.status == Busy then Idle else a.status, currentTask := None)
    else a
  }

  function Finish(h: Hub, t: nat, state: TaskState, result: Option<StoredResult>): Hub
    requires t < |h.tasks|
  {
    h.(tasks := h.tasks[t := h.tasks[t].(state := state, leaseExpires := None, result := result)],
       agents := map n | n in h.agents :: Freed(h.agents[n], t))
  }

  function OpenTaskId(h: Hub, task: Option<nat>): Option<nat> {
    if task.Some? && Open(h, task.value) then task else None
  }

  /** The context a task's assignee reads; the source raises when the agent is missing. */
  function TaskContext(h: Hub, t: nat): Option<nat>
    requires t < |h.tasks|
  {
    if h.tasks[t].assignee in h.agents then Some(h.agents[h.tasks[t].assignee].context) else None
  }

  function Cap(h: Hub): int {
    if h.workflow.Some? then LeaseCap(h.workflow.value.policy) else DEFAULT_MAX_LEASE
  }

  // -- workflow ---------------------------------------------------------------

  function InitializeWorkflow(h: Hub, goal: string, policy: Policy): Step {
    if !SoundPolicy(policy) then Refuse(h, InvalidPolicy)
    else if h.workflow.None? then Step(h.(workflow := Some(Workflow(goal, policy, Active))), WorkflowReady, {})
    else if h.workflow.value.goal != goal || h.workflow.value.policy != policy then Refuse(h, Conflict)
    else Step(h, WorkflowReady, {})
  }

  function SetWorkflowStatus(h: Hub, status: WorkflowStatus, summary: string): Step {
    if h.workflow.None? then Refuse(h, Conflict)
    else if h.workflow.value.status == status then Step(h, Ok, {})
    else Step(h.(workflow := Some(h.workflow.value.(status := status)),
                 decisions := h.decisions + [Decision(summary, "Workflow status set to " + StatusName(status), None)]),
              Ok, {})
  }

  /** The decision already logged under `key`, searching the first `n` rows. */
  function KeyedDecision(ds: seq<Decision>, key: string, n: nat): (r: Option<nat>)
    requires n <= |ds|
    ensures r.Some? ==> r.value < n && ds[r.value].key == Some(key)
    ensures r.None? ==> forall d :: 0 <= d < n ==> ds[d].key != Some(key)
  {
    if n == 0 then None
    else if ds[n - 1].key == Some(key) then Some(n - 1)
    else KeyedDecision(ds, key, n - 1)
  }

  function LogDecision(h: Hub, summary: string, rationale: string, key: Option<string>): Step {
    var prior := if key.Some? then KeyedDecision(h.decisions, key.value, |h.decisions|) else None;
    if prior.Some? then Step(h, DecisionId(prior.value), {})
    else Step(h.(decisions := h.decisions + [Decision(summary, rationale, key)]), DecisionId(|h.decisions|), {})
  }

  // -- agents -----------------------------------------------------------------

  /** Another live agent sits in the workspace this check-in claims. */
  predicate WorkspaceTaken(h: Hub, name: string, profile: Profile) {
    profile.workspace.Some? &&
    exists n :: n in h.agents && n != name && Live(h.agents[n].status)
                && h.agents[n].profile.workspace == profile.workspace
  }

  function Readmitted(previous: AgentStatus, openTask: Option<nat>): AgentStatus {
    if previous == Released then Released
    else if openTask.Some? then Busy
    else Idle
  }

  /** The row a successful check-in leaves for `name`. */
  function CheckedInRow(h: Hub, now: int, name: string, profile: Profile, instance: Instance,
                        addr: Option<string>): Agent {
    if name !in h.agents then
      Agent(Idle, |h.roster|, instance, now, now, None, None, profile, addr, addr)
    else
      var a := h.agents[name];
      var current := OpenTaskId(h, a.currentTask);
      Agent(Readmitted(a.status, current), a.context, instance, now, now,
            if a.status == Lost then None else a.lastProgress, current, profile, addr, addr)
  }

  function CheckIn(h: Hub, now: int, name: string, profile: Profile, instance: Instance, op: string,
                   addr: Option<string>): Step {
    var key := OpKey(name, op);
    var payload := CheckInAsk(name, instance, profile);
    if key in h.operations then Replay(h, key, payload)
    else if WorkspaceTaken(h, name, profile) then Refuse(h, DuplicateAgent)
    else if name in h.agents && Live(h.agents[name].status) then Refuse(h, DuplicateAgent)
    else if !profile.fits then Refuse(h, PayloadTooLarge)
    else
      var row := CheckedInRow(h, now, name, profile, instance, addr);
      var response := Registered(name, row.context, row.status, instance);
      var h1 := SetAgent(h, name, row).(roster := if name in h.agents then h.roster else h.roster + [name]);
      var h2 := AddMessage(h1, Message(None, row.context, name, CheckInNote, "READY"));
      var h3 := AddEvent(h2, AgentCheckedIn(name, row.context, instance, profile));
      Step(Record(h3, key, payload, response), response, {EventKey})
  }

  /** An operation id seen before: answer from the table, or refuse a different payload. */
  function Replay(h: Hub, key: OpKey, payload: Payload): Step
    requires key in h.operations
  {
    if h.operations[key].payload != payload then Refuse(h, IdempotencyConflict)
    else Step(h, h.operations[key].response, {})
  }

  function Record(h: Hub, key: OpKey, payload: Payload, response: Response): Hub {
    h.(operations := h.operations[key := Operation(payload, response)])
  }

  /** The lease a heartbeat at `now` leaves on `task`, which holds one. */
  function RenewedLease(task: Task, now: int, cap: int): int
    requires task.leaseExpires.Some?
  {
    var expiry := task.leaseExpires.value;
    var limit := task.created + cap;
    if expiry <= now then expiry
    else if limit <= now then limit
    else Min(Max(now + task.leaseDuration, expiry), limit)
  }

  function Heartbeat(h: Hub, now: int, name: string, instance: Instance, current: Option<nat>,
                     addr: Option<string>): Step {
    if name !in h.agents then Refuse(h, NotFound)
    else
      var a := h.agents[name];
      if a.instance != instance || a.status == Lost then Step(h, Flag(false), {})
      else
        var stamped := SetAgent(h, name, a.(lastHeartbeat := Max(a.lastHeartbeat, now),
                                             lastSeen := Max(a.lastSeen, now),
                                            lastAddr := if addr.Some? then addr else a.lastAddr));
        if current.None? || a.currentTask != current then Step(stamped, Flag(true), {})
        else if |h.tasks| <= current.value then Refuse(h, NotFound)
        else
          var task := h.tasks[current.value];
          if task.assignee != name || Terminal(task.state) || task.leaseExpires.None? then Step(stamped, Flag(true), {})
          else Step(SetLease(stamped, current.value, Some(RenewedLease(task, now, Cap(h)))), Flag(true), {})
  }

  function ReleaseAgent(h: Hub, name: string): Step {
    if name !in h.agents then Refuse(h, NotFound)
    else if h.agents[name].status == Released then Step(h, AgentIs(h.agents[name]), {})
    else
      var a := h.agents[name].(status := Released);
      Step(SetAgent(h, name, a), AgentIs(a), {ContextKey(a.context)})
  }

  // -- tasks ------------------------------------------------------------------

  predicate HexDigit(c: char) {
    '0' <= c <= '9' || 'a' <= c <= 'f' || 'A' <= c <= 'F'
  }

  predicate IsSha(s: string) {
    |s| == 40 && forall i :: 0 <= i < |s| ==> HexDigit(s[i])
  }

  function LowerChar(c: char): char {
    if 'A' <= c <= 'F' then c - 'A' + 'a' else c
  }

  function Lower(s: string): string
    requires IsSha(s)
  {
    seq(|s|, i requires 0 <= i < |s| => LowerChar(s[i]))
  }

  /** The task already bound to source event `e`, searching the first `n` rows. */
  function SourcedTask(tasks: seq<Task>, e: nat, n: nat): (r: Option<nat>)
    requires n <= |tasks|
    ensures r.Some? ==> r.value < n && tasks[r.value].sourceEvent == Some(e)
    ensures r.None? ==> forall t :: 0 <= t < n ==> tasks[t].sourceEvent != Some(e)
  {
    if n == 0 then None
    else if tasks[n - 1].sourceEvent == Some(e) then Some(n - 1)
    else SourcedTask(tasks, e, n - 1)
  }

  datatype Brief = Brief(assignee: string, role: string, title: string, instructions: Text, lease: int,
                         prHead: Option<string>, source: Option<nat>)

  function EffectiveLease(h: Hub, b: Brief): int {
    Min(b.lease, Cap(h))
  }

  function NormalHead(b: Brief): Option<string>
    requires b.prHead.Some? ==> IsSha(b.prHead.value)
  {
    if b.prHead.None? then None else Some(Lower(b.prHead.value))
  }

  /** The stored task is what this request asks for. */
  predicate SameAssignment(h: Hub, b: Brief, task: Task)
    requires b.prHead.Some? ==> IsSha(b.prHead.value)
  {
    && task.assignee == b.assignee
    && task.role == b.role
    && task.title == b.title
    && task.instructions == b.instructions
    && task.leaseDuration == EffectiveLease(h, b)
    && task.prHead == NormalHead(b)
  }

  function NewTask(h: Hub, now: int, b: Brief): Task
    requires b.prHead.Some? ==> IsSha(b.prHead.value)
  {
    Task(b.assignee, b.role, b.title, b.instructions, Submitted, Some(now + EffectiveLease(h, b)),
         EffectiveLease(h, b), None, now, NormalHead(b), b.source)
  }

  function AssignTask(h: Hub, now: int, b: Brief): Step {
    if b.prHead.Some? && !IsSha(b.prHead.value) then Refuse(h, InvalidValue)
    else if h.workflow.None? then Refuse(h, Conflict)
    else if b.source.Some? && |h.events| <= b.source.value then Refuse(h, NotFound)
    else
      var existing := if b.source.Some? then SourcedTask(h.tasks, b.source.value, |h.tasks|) else None;
      if existing.Some? then
        if SameAssignment(h, b, h.tasks[existing.value])
        then Step(h, TaskIs(existing.value, h.tasks[existing.value]), {})
        else Refuse(h, IdempotencyConflict)
      else if b.assignee !in h.agents then Refuse(h, NotFound)
      else if h.agents[b.assignee].status != Idle then Refuse(h, Conflict)
      else if !b.instructions.fits then Refuse(h, PayloadTooLarge)
      else
        var a := h.agents[b.assignee];
        var t := |h.tasks|;
        var task := NewTask(h, now, b);
        var h1 := SetAgent(h, b.assignee, a.(status := Busy, currentTask := Some(t))).(tasks := h.tasks + [task]);
        var h2 := AddMessage(h1, Message(Some(t), a.context, "alice", Assignment, b.instructions.body));
        Step(h2, TaskIs(t, task), {ContextKey(a.context)})
  }

  /** The oldest task of `name` still waiting to be claimed, by creation stamp, then by row. */
  function ClaimCandidate(tasks: seq<Task>, name: string, n: nat): (r: Option<nat>)
    requires n <= |tasks|
    ensures r.Some? ==> r.value < n && tasks[r.value].assignee == name && tasks[r.value].state == Submitted
    ensures r.None? ==> forall t :: 0 <= t < n ==> tasks[t].assignee != name || tasks[t].state != Submitted
  {
    if n == 0 then None
    else
      var best := ClaimCandidate(tasks, name, n - 1);
      var t := tasks[n - 1];
      if t.assignee == name && t.state == Submitted && (best.None? || t.created < tasks[best.value].created)
      then Some(n - 1) else best
  }

  function ClaimAssignment(h: Hub, name: string): Step {
    if name !in h.agents then Refuse(h, NotFound)
    else if h.agents[name].status == Released then Step(h, AgentReleased, {})
    else
      var t := ClaimCandidate(h.tasks, name, |h.tasks|);
      if t.None? then Step(h, Nothing, {})
      else
        var h1 := SetState(h, t.value, Working);
        Step(h1, TaskIs(t.value, h1.tasks[t.value]), {})
  }

  /** Why a worker's write on a task is refused before it looks at anything else. */
  function TaskRefusal(h: Hub, t: nat, agent: string): Option<Error> {
    if |h.tasks| <= t then Some(NotFound)
    else if Terminal(h.tasks[t].state) then Some(Conflict)
    else if agent !in h.agents then Some(NotFound)
    else None
  }

  function RecordProgress(h: Hub, now: int, t: nat, agent: string, note: Text, op: string): Step {
    var key := OpKey(agent, op);
    var payload := ProgressPayload(t, note.body);
    if key in h.operations then Replay(h, key, payload)
    else if TaskRefusal(h, t, agent).Some? then Refuse(h, TaskRefusal(h, t, agent).value)
    else if !note.fits then Refuse(h, PayloadTooLarge)
    else
      var a := h.agents[agent];
      var response := Noted(a.context, t);
      var h1 := AddMessage(h, Message(Some(t), a.context, agent, ProgressNote, note.body));
      var h2 := AddEvent(h1, TaskProgress(t, agent, note.body));
      var h3 := SetAgent(h2, agent, a.(lastProgress := Some(now)));
      Step(Record(h3, key, payload, response), response, {EventKey})
  }

  /** `m` is a question on `t`. */
  predicate IsQuestion(m: Message, t: nat) {
    m.task == Some(t) && m.kind.Question?
  }

  /** The oldest question on `t` asked under `sentAs`, from row `i` on. */
  function AskedQuestion(ms: seq<Message>, t: nat, sentAs: string, i: nat): (r: Option<nat>)
    requires i <= |ms|
    ensures r.Some? ==> i <= r.value < |ms| && IsQuestion(ms[r.value], t) && ms[r.value].kind.sentAs == sentAs
    ensures r.Some? ==> forall j :: i <= j < r.value ==> !(IsQuestion(ms[j], t) && ms[j].kind.sentAs == sentAs)
    ensures r.None? ==> forall j :: i <= j < |ms| ==> !(IsQuestion(ms[j], t) && ms[j].kind.sentAs == sentAs)
    decreases |ms| - i
  {
    if i == |ms| then None
    else if IsQuestion(ms[i], t) && ms[i].kind.sentAs == sentAs then Some(i)
    else AskedQuestion(ms, t, sentAs, i + 1)
  }

  function OpenQuestion(h: Hub, t: nat, agent: string, question: Text, sentAs: string): Step {
    if TaskRefusal(h, t, agent).Some? then Refuse(h, TaskRefusal(h, t, agent).value)
    else
      var asked := if sentAs == "" then None else AskedQuestion(h.messages, t, sentAs, 0);
      if asked.Some? then Step(h, MessageId(asked.value), {})
      else if !question.fits then Refuse(h, PayloadTooLarge)
      else
        var id := |h.messages|;
        var h1 := AddMessage(h, Message(Some(t), h.agents[agent].context, agent, Question(sentAs), question.body));
        var h2 := SetState(h1, t, InputRequired);
        Step(AddEvent(h2, WorkerQuestion(t, agent, question.body, id)), MessageId(id), {EventKey})
  }

  /** The newest question on `t` among the first `n` messages. */
  function NewestQuestion(ms: seq<Message>, t: nat, n: nat): (r: Option<nat>)
    requires n <= |ms|
    ensures r.Some? ==> r.value < n && IsQuestion(ms[r.value], t)
    ensures r.Some? ==> forall j :: r.value < j < n ==> !IsQuestion(ms[j], t)
    ensures r.None? ==> forall j :: 0 <= j < n ==> !IsQuestion(ms[j], t)
  {
    if n == 0 then None
    else if IsQuestion(ms[n - 1], t) then Some(n - 1)
    else NewestQuestion(ms, t, n - 1)
  }

  predicate AnswersAfter(m: Message, t: nat) {
    m.task == Some(t) && FromAlice(m.kind)
  }

  /** The first message from Alice on `t` at row `i` or later. */
  function FirstFromAlice(ms: seq<Message>, t: nat, i: nat): (r: Option<nat>)
    ensures r.Some? ==> i <= r.value < |ms| && AnswersAfter(ms[r.value], t)
    ensures r.Some? ==> forall j :: i <= j < r.value ==> !AnswersAfter(ms[j], t)
    ensures r.None? ==> forall j :: i <= j < |ms| ==> !AnswersAfter(ms[j], t)
    decreases |ms| - i
  {
    if |ms| <= i then None
    else if AnswersAfter(ms[i], t) then Some(i)
    else FirstFromAlice(ms, t, i + 1)
  }

  function ReplyTo(h: Hub, t: nat, text: Text, messageId: nat): Step {
    if |h.tasks| <= t then Refuse(h, NotFound)
    else if h.tasks[t].state != InputRequired then Step(h, Flag(false), {})
    else if NewestQuestion(h.messages, t, |h.messages|) != Some(messageId) then Step(h, Flag(false), {})
    else if FirstFromAlice(h.messages, t, messageId + 1).Some? then Step(h, Flag(false), {})
    else if TaskContext(h, t).None? then Refuse(h, NotFound)
    else if !text.fits then Refuse(h, PayloadTooLarge)
    else
      var h1 := AddMessage(h, Message(Some(t), TaskContext(h, t).value, "alice", Reply, text.body));
      Step(SetState(h1, t, Working), Flag(true), {TaskKey(t)})
  }

  /** Alice's first message on `t` after row `after`, which is what a held question waits for. */
  function PendingReply(h: Hub, t: nat, after: nat): (r: Option<nat>)
    ensures r.Some? ==> after < r.value < |h.messages| && AnswersAfter(h.messages[r.value], t)
    ensures r.Some? ==> forall j :: after < j < r.value ==> !AnswersAfter(h.messages[j], t)
    ensures r.None? ==> forall j :: after < j < |h.messages| ==> !AnswersAfter(h.messages[j], t)
  {
    FirstFromAlice(h.messages, t, after + 1)
  }

  function SubmitResult(h: Hub, t: nat, agent: string, result: TaskResult, op: string): Step {
    var key := OpKey(agent, op);
    var payload := ResultPayload(t, result);
    if !result.detail.fits then Refuse(h, PayloadTooLarge)
    else if key in h.operations then Replay(h, key, payload)
    else if TaskRefusal(h, t, agent).Some? then Refuse(h, TaskRefusal(h, t, agent).value)
    else
      var a := h.agents[agent];
      var status := TerminalStatus(result);
      var h1 := AddMessage(h, Message(Some(t), a.context, agent, ResultNote, ResultEcho(result)));
      var h2 := Finish(h1, t, status, Some(Typed(result)));
      var h3 := AddEvent(h2, if status == Completed then TaskCompleted(t, agent, result)
                             else TaskFailed(t, agent, result));
      var response := TaskIs(t, h3.tasks[t]);
      Step(Record(h3, key, payload, response), response, {EventKey})
  }

  function SetTaskState(h: Hub, t: nat, state: TaskState, note: Text): Step {
    if state != Canceled && state != Failed then Refuse(h, Conflict)
    else if |h.tasks| <= t then Refuse(h, NotFound)
    else if Terminal(h.tasks[t].state) then Refuse(h, Conflict)
    else if TaskContext(h, t).None? then Refuse(h, NotFound)
    else if !note.fits then Refuse(h, PayloadTooLarge)
    else
      var context := TaskContext(h, t).value;
      var h1 := AddMessage(h, Message(Some(t), context, "alice", StateOverride, note.body));
      var h2 := Finish(h1, t, state, Some(Overridden(state, note.body)));
      Step(h2, TaskIs(t, h2.tasks[t]), {TaskKey(t), ContextKey(context)})
  }

  function CancelTask(h: Hub, t: nat): Step {
    if |h.tasks| <= t then Refuse(h, NotFound)
    else if Terminal(h.tasks[t].state) then Refuse(h, Conflict)
    else if TaskContext(h, t).None? then Refuse(h, NotFound)
    else
      var h1 := Finish(h, t, Canceled, None);
      Step(h1, TaskIs(t, h1.tasks[t]), {TaskKey(t), ContextKey(TaskContext(h, t).value)})
  }

  // -- Alice's inbox ----------------------------------------------------------

  predicate Eligible(e: Event, now: int) {
    e.state == Queued || (e.state == Delivered && e.expires.Some? && e.expires.value <= now)
  }

  /** The oldest event from row `i` on that can be leased at `now`. */
  function NextEligible(es: seq<Event>, now: int, i: nat): (r: Option<nat>)
    requires i <= |es|
    ensures r.Some? ==> i <= r.value < |es| && Eligible(es[r.value], now)
    ensures r.Some? ==> forall j :: i <= j < r.value ==> !Eligible(es[j], now)
    ensures r.None? ==> forall j :: i <= j < |es| ==> !Eligible(es[j], now)
    decreases |es| - i
  {
    if i == |es| then None
    else if Eligible(es[i], now) then Some(i)
    else NextEligible(es, now, i + 1)
  }

  function LeasedRow(e: Event, delivery: nat, expires: int): Event {
    e.(state := Delivered, deliveryId := Some(delivery), attempts := e.attempts + 1, expires := Some(expires))
  }

  function LeaseNextEvent(h: Hub, now: int, lease: int): Step {
    var next := NextEligible(h.events, now, 0);
    if next.None? then Step(h, Nothing, {})
    else
      var e := next.value;
      var row := LeasedRow(h.events[e], |h.deliveries|, now + lease);
      Step(h.(events := h.events[e := row], deliveries := h.deliveries + [e]), Leased(e, row), {})
  }

  predicate Outstanding(e: Event, delivery: nat) {
    e.deliveryId == Some(delivery) && e.state == Delivered
  }

  function AckedRow(e: Event, delivery: nat): Event {
    if Outstanding(e, delivery) then e.(state := Acked) else e
  }

  function AckEvent(h: Hub, delivery: nat): Step {
    if exists e :: 0 <= e < |h.events| && Outstanding(h.events[e], delivery) then
      Step(h.(events := seq(|h.events|, i requires 0 <= i < |h.events| => AckedRow(h.events[i], delivery))),
           Flag(true), {})
    else Step(h, Flag(false), {})
  }

  // -- sweeper ----------------------------------------------------------------

  predicate Overdue(task: Task, now: int) {
    !Terminal(task.state) && task.leaseExpires.Some? && task.leaseExpires.value <= now
  }

  /** The lease pass after it has visited the first `k` tasks. */
  function ExpireLeases(h: Hub, now: int, k: nat): (r: Hub)
    requires k <= |h.tasks|
    ensures |r.tasks| == |h.tasks| && forall i :: k <= i < |h.tasks| ==> r.tasks[i] == h.tasks[i]
  {
    if k == 0 then h
    else
      var prev := ExpireLeases(h, now, k - 1);
      var task := h.tasks[k - 1];
      if Overdue(task, now) then
        AddEvent(SetLease(prev, k - 1, None), LeaseExpired(k - 1, task.assignee, task.leaseExpires.value))
      else prev
  }

  predicate Silent(a: Agent, cutoff: int) {
    Live(a.status) && a.lastHeartbeat <= cutoff
  }

  /** Declare the agent whose row was read as `row` lost, failing its open task. */
  function LoseAgent(h: Hub, name: string, row: Agent): Hub {
    var h1 := h.(agents := map n | n in h.agents ::
                   if n == name then h.agents[n].(status := Lost) else h.agents[n]);
    var task := OpenTaskId(h1, row.currentTask);
    var h2 := if task.Some? then Finish(h1, task.value, Failed, Some(WorkerLost(name))) else h1;
    AddEvent(h2, AgentLost(name, task, row.lastHeartbeat))
  }

  /** The silence pass after it has visited the first `k` agents. */
  function LoseAgents(h: Hub, cutoff: int, k: nat): Hub
    requires k <= |h.roster|
  {
    if k == 0 then h
    else
      var prev := LoseAgents(h, cutoff, k - 1);
      var name := h.roster[k - 1];
      if name in h.agents && Silent(h.agents[name], cutoff) then LoseAgent(prev, name, h.agents[name]) else prev
  }

  function Sweep(h: Hub, now: int, lostAfter: int): Step {
    var h1 := ExpireLeases(h, now, |h.tasks|);
    var h2 := LoseAgents(h1, now - lostAfter, |h1.roster|);
    Step(h2, Swept(|h.events|, |h2.events|), if |h2.events| == |h.events| then {} else {EventKey})
  }

  // -- runs -------------------------------------------------------------------

  datatype Call =
    | DoInitialize(goal: string, policy: Policy)
    | DoStatus(status: WorkflowStatus, summary: string)
    | DoDecision(summary: string, rationale: string, key: Option<string>)
    | DoCheckIn(name: string, profile: Profile, instance: Instance, op: string, addr: Option<string>)
    | DoHeartbeat(name: string, instance: Instance, current: Option<nat>, addr: Option<string>)
    | DoRelease(name: string)
    | DoAssign(brief: Brief)
    | DoClaim(name: string)
    | DoProgress(task: nat, name: string, note: Text, op: string)
    | DoQuestion(task: nat, name: string, note: Text, sentAs: string)
    | DoReply(task: nat, text: Text, messageId: nat)
    | DoResult(task: nat, name: string, result: TaskResult, op: string)
    | DoOverride(task: nat, state: TaskState, text: Text)
    | DoCancel(task: nat)
    | DoLease(lease: int)
    | DoAck(delivery: nat)
    | DoSweep(lostAfter: int)

  function Apply(h: Hub, now: int, call: Call): Step {
    match call
    case DoInitialize(goal, policy) => InitializeWorkflow(h, goal, policy)
    case DoStatus(status, summary) => SetWorkflowStatus(h, status, summary)
    case DoDecision(summary, rationale, key) => LogDecision(h, summary, rationale, key)
    case DoCheckIn(name, profile, instance, op, addr) => CheckIn(h, now, name, profile, instance, op, addr)
    case DoHeartbeat(name, instance, current, addr) => Heartbeat(h, now, name, instance, current, addr)
    case DoRelease(name) => ReleaseAgent(h, name)
    case DoAssign(brief) => AssignTask(h, now, brief)
    case DoClaim(name) => ClaimAssignment(h, name)
    case DoProgress(task, name, note, op) => RecordProgress(h, now, task, name, note, op)
    case DoQuestion(task, name, note, sentAs) => OpenQuestion(h, task, name, note, sentAs)
    case DoReply(task, text, messageId) => ReplyTo(h, task, text, messageId)
    case DoResult(task, name, result, op) => SubmitResult(h, task, name, result, op)
    case DoOverride(task, state, text) => SetTaskState(h, task, state, text)
    case DoCancel(task) => CancelTask(h, task)
    case DoLease(lease) => LeaseNextEvent(h, now, lease)
    case DoAck(delivery) => AckEvent(h, delivery)
    case DoSweep(lostAfter) => Sweep(h, now, lostAfter)
  }

  /** One call and the instant the hub's clock showed when it ran; the clock may step backwards. */
  datatype Timed = Timed(now: int, call: Call)

  function Run(h: Hub, trace: seq<Timed>): Hub {
    if trace == [] then h
    else Apply(Run(h, trace[..|trace| - 1]), trace[|trace| - 1].now, trace[|trace| - 1].call).hub
  }
}
