/** What no call can undo: rows are only appended, and the columns written once never change. */
module Growth {
  import opened HubTypes
  import opened HubSpec

  /** The columns an assignment fixes for good. */
  ghost predicate SameTerms(a: Task, b: Task) {
    && a.assignee == b.assignee && a.role == b.role && a.title == b.title && a.instructions == b.instructions
    && a.leaseDuration == b.leaseDuration && a.created == b.created && a.prHead == b.prHead
    && a.sourceEvent == b.sourceEvent
  }

  ghost predicate EventsExtend(a: seq<Event>, b: seq<Event>) {
    |a| <= |b| && forall e :: 0 <= e < |a| ==> b[e].body == a[e].body
  }

  /** A task that ended keeps its row, result included; an open one keeps its terms. */
  ghost predicate TasksExtend(a: seq<Task>, b: seq<Task>) {
    && |a| <= |b|
    && (forall t :: 0 <= t < |a| ==> SameTerms(a[t], b[t]))
    && (forall t :: 0 <= t < |a| ==> Terminal(a[t].state) ==> b[t] == a[t])
    && (forall t :: 0 <= t < |a| ==> b[t].state == Submitted ==> a[t].state == Submitted)
  }

  ghost predicate AgentsExtend(a: map<string, Agent>, b: map<string, Agent>) {
    forall n :: n in a ==>
      && n in b
      && b[n].context == a[n].context
      && (a[n].status == Released ==> b[n].status == Released)
  }

  ghost predicate Extends(a: Hub, b: Hub) {
    && (a.workflow.Some? ==> b.workflow.Some? && b.workflow.value.goal == a.workflow.value.goal
                             && b.workflow.value.policy == a.workflow.value.policy)
    && AgentsExtend(a.agents, b.agents)
    && a.roster <= b.roster
    && TasksExtend(a.tasks, b.tasks)
    && a.messages <= b.messages
    && EventsExtend(a.events, b.events)
    && a.decisions <= b.decisions
    && (forall k :: k in a.operations ==> k in b.operations && b.operations[k] == a.operations[k])
    && a.deliveries <= b.deliveries
  }

  lemma Transitive(a: Hub, b: Hub, c: Hub)
    requires Extends(a, b) && Extends(b, c)
    ensures Extends(a, c)
  {
    forall t | 0 <= t < |a.tasks| && Terminal(a.tasks[t].state) ensures c.tasks[t] == a.tasks[t] {
      assert b.tasks[t] == a.tasks[t];
    }
    forall t | 0 <= t < |a.tasks| ensures SameTerms(a.tasks[t], c.tasks[t]) {
      assert SameTerms(a.tasks[t], b.tasks[t]) && SameTerms(b.tasks[t], c.tasks[t]);
    }
  }

  lemma {:induction false} ExpireExtends(h: Hub, now: int, k: nat)
    requires k <= |h.tasks|
    ensures Extends(h, ExpireLeases(h, now, k))
  {
    if k > 0 {
      hide Extends;
      ExpireExtends(h, now, k - 1);
      ExpireOneExtends(h, now, k);
      Transitive(h, ExpireLeases(h, now, k - 1), ExpireLeases(h, now, k));
    }
  }

  lemma ExpireOneExtends(h: Hub, now: int, k: nat)
    requires 0 < k <= |h.tasks|
    ensures Extends(ExpireLeases(h, now, k - 1), ExpireLeases(h, now, k))
  {
  }

  lemma LoseOneExtends(h: Hub, name: string, row: Agent)
    requires name in h.agents ==> Live(h.agents[name].status)
    ensures Extends(h, LoseAgent(h, name, row))
  {
    hide TasksExtend;
    SameTasks(h.tasks);
    var task := OpenTaskId(h, row.currentTask);
    if task.Some? {
      OneTask(h.tasks, task.value,
              h.tasks[task.value].(state := Failed, leaseExpires := None, result := Some(WorkerLost(name))));
    }
  }

  predicate Distinct(names: seq<string>) {
    forall i, j :: 0 <= i < j < |names| ==> names[i] != names[j]
  }

  /** The pass reaches each agent once, so a row it has not reached is as live as it was. */
  lemma {:induction false} StillLive(h: Hub, cutoff: int, k: nat, i: nat)
    requires Distinct(h.roster) && k <= i < |h.roster| && h.roster[i] in h.agents
    requires Live(h.agents[h.roster[i]].status)
    ensures h.roster[i] in LoseAgents(h, cutoff, k).agents && Live(LoseAgents(h, cutoff, k).agents[h.roster[i]].status)
  {
    if k > 0 { StillLive(h, cutoff, k - 1, i); }
  }

  /** Losing agents after the lease pass: only live rows are touched, once each. */
  lemma {:induction false} LoseExtends(h: Hub, cutoff: int, k: nat)
    requires k <= |h.roster| && Distinct(h.roster)
    ensures Extends(h, LoseAgents(h, cutoff, k))
  {
    if k > 0 {
      hide Extends;
      LoseExtends(h, cutoff, k - 1);
      var name := h.roster[k - 1];
      if name in h.agents && Silent(h.agents[name], cutoff) {
        StillLive(h, cutoff, k - 1, k - 1);
        LoseOneExtends(LoseAgents(h, cutoff, k - 1), name, h.agents[name]);
        hide LoseAgent;
        Transitive(h, LoseAgents(h, cutoff, k - 1), LoseAgents(h, cutoff, k));
      }
    }
  }

  lemma SweepExtends(h: Hub, now: int, lostAfter: int)
    requires Distinct(h.roster)
    ensures Extends(h, Sweep(h, now, lostAfter).hub)
  {
    var h1 := ExpireLeases(h, now, |h.tasks|);
    ExpireExtends(h, now, |h.tasks|);
    RosterKept(h, now, |h.tasks|);
    LoseExtends(h1, now - lostAfter, |h1.roster|);
    Transitive(h, h1, LoseAgents(h1, now - lostAfter, |h1.roster|));
  }

  lemma CheckInExtends(h: Hub, now: int, name: string, profile: Profile, instance: Instance, op: string,
                       addr: Option<string>)
    ensures Extends(h, CheckIn(h, now, name, profile, instance, op, addr).hub)
  {
    hide TasksExtend;
    SameTasks(h.tasks);
  }

  lemma AssignExtends(h: Hub, now: int, b: Brief)
    ensures Extends(h, AssignTask(h, now, b).hub)
  {
    hide TasksExtend;
    SameTasks(h.tasks);
    var r := AssignTask(h, now, b).hub;
    if r.tasks != h.tasks { NewTask(h.tasks, r.tasks[|h.tasks|]); }
  }

  lemma ProgressExtends(h: Hub, now: int, t: nat, agent: string, note: Text, op: string)
    ensures Extends(h, RecordProgress(h, now, t, agent, note, op).hub)
  {
    hide TasksExtend;
    SameTasks(h.tasks);
  }

  lemma FinishExtends(h: Hub, t: nat, state: TaskState, result: Option<StoredResult>)
    requires Open(h, t) && state != Submitted
    ensures TasksExtend(h.tasks, Finish(h, t, state, result).tasks)
    ensures AgentsExtend(h.agents, Finish(h, t, state, result).agents)
  {
  }

  lemma ResultExtends(h: Hub, t: nat, agent: string, result: TaskResult, op: string)
    ensures Extends(h, SubmitResult(h, t, agent, result, op).hub)
  {
    hide ResultEcho, TerminalStatus;
    if SubmitResult(h, t, agent, result, op).hub != h {
      var h1 := AddMessage(h, Message(Some(t), h.agents[agent].context, agent, ResultNote, ResultEcho(result)));
      FinishExtends(h1, t, TerminalStatus(result), Some(Typed(result)));
    }
  }

  lemma QuestionExtends(h: Hub, t: nat, agent: string, question: Text, sentAs: string)
    ensures Extends(h, OpenQuestion(h, t, agent, question, sentAs).hub)
  {
    hide TasksExtend;
    SameTasks(h.tasks);
    if OpenQuestion(h, t, agent, question, sentAs).hub != h {
      OneTask(h.tasks, t, h.tasks[t].(state := InputRequired));
    }
  }

  lemma ReplyExtends(h: Hub, t: nat, text: Text, messageId: nat)
    ensures Extends(h, ReplyTo(h, t, text, messageId).hub)
  {
    hide TasksExtend;
    SameTasks(h.tasks);
    if ReplyTo(h, t, text, messageId).hub != h { OneTask(h.tasks, t, h.tasks[t].(state := Working)); }
  }

  lemma OverrideExtends(h: Hub, t: nat, state: TaskState, note: Text)
    ensures Extends(h, SetTaskState(h, t, state, note).hub)
  {
    if SetTaskState(h, t, state, note).hub != h {
      var h1 := AddMessage(h, Message(Some(t), TaskContext(h, t).value, "alice", StateOverride, note.body));
      FinishExtends(h1, t, state, Some(Overridden(state, note.body)));
    }
  }

  lemma CancelExtends(h: Hub, t: nat)
    ensures Extends(h, CancelTask(h, t).hub)
  {
    if Open(h, t) { FinishExtends(h, t, Canceled, None); }
  }

  lemma AckExtends(h: Hub, delivery: nat)
    ensures Extends(h, AckEvent(h, delivery).hub)
  {
  }

  lemma HeartbeatExtends(h: Hub, now: int, name: string, instance: Instance, current: Option<nat>,
                         addr: Option<string>)
    ensures Extends(h, Heartbeat(h, now, name, instance, current, addr).hub)
  {
    hide TasksExtend;
    SameTasks(h.tasks);
    if current.Some? && Open(h, current.value) && h.tasks[current.value].leaseExpires.Some? {
      OneTask(h.tasks, current.value, h.tasks[current.value].(leaseExpires :=
        Some(RenewedLease(h.tasks[current.value], now, Cap(h)))));
    }
  }

  lemma ReleaseExtends(h: Hub, name: string)
    ensures Extends(h, ReleaseAgent(h, name).hub)
  {
    hide TasksExtend;
    SameTasks(h.tasks);
  }

  lemma ClaimExtends(h: Hub, name: string)
    ensures Extends(h, ClaimAssignment(h, name).hub)
  {
    hide TasksExtend;
    SameTasks(h.tasks);
    var t := ClaimCandidate(h.tasks, name, |h.tasks|);
    if t.Some? { OneTask(h.tasks, t.value, h.tasks[t.value].(state := Working)); }
  }

  lemma LeaseExtends(h: Hub, now: int, lease: int)
    ensures Extends(h, LeaseNextEvent(h, now, lease).hub)
  {
    hide TasksExtend;
    SameTasks(h.tasks);
  }

  lemma SameTasks(tasks: seq<Task>)
    ensures TasksExtend(tasks, tasks)
  {
  }

  lemma NewTask(tasks: seq<Task>, row: Task)
    ensures TasksExtend(tasks, tasks + [row])
  {
  }

  /** Rewriting one open row on its own terms. */
  lemma OneTask(tasks: seq<Task>, t: nat, row: Task)
    requires t < |tasks| && SameTerms(tasks[t], row) && !Terminal(tasks[t].state)
    requires row.state == Submitted ==> tasks[t].state == Submitted
    ensures TasksExtend(tasks, tasks[t := row])
  {
  }

  /** Every call, under any clock, only adds to what was there. */
  lemma StepExtends(h: Hub, now: int, call: Call)
    requires Distinct(h.roster)
    ensures Extends(h, Apply(h, now, call).hub)
  {
    hide Extends;
    match call
    case DoSweep(lostAfter) => SweepExtends(h, now, lostAfter);
    case DoCheckIn(name, profile, instance, op, addr) => CheckInExtends(h, now, name, profile, instance, op, addr);
    case DoAssign(brief) => AssignExtends(h, now, brief);
    case DoProgress(task, name, note, op) => ProgressExtends(h, now, task, name, note, op);
    case DoQuestion(task, name, note, sentAs) => QuestionExtends(h, task, name, note, sentAs);
    case DoReply(task, text, messageId) => ReplyExtends(h, task, text, messageId);
    case DoResult(task, name, result, op) => ResultExtends(h, task, name, result, op);
    case DoOverride(task, state, text) => OverrideExtends(h, task, state, text);
    case DoCancel(task) => CancelExtends(h, task);
    case DoAck(delivery) => AckExtends(h, delivery);
    case DoHeartbeat(name, instance, current, addr) => HeartbeatExtends(h, now, name, instance, current, addr);
    case DoRelease(name) => ReleaseExtends(h, name);
    case DoClaim(name) => ClaimExtends(h, name);
    case DoLease(lease) => LeaseExtends(h, now, lease);
    case DoInitialize(_, _) => AuditExtends(h, now, call);
    case DoStatus(_, _) => AuditExtends(h, now, call);
    case DoDecision(_, _, _) => AuditExtends(h, now, call);
  }

  lemma AuditExtends(h: Hub, now: int, call: Call)
    requires call.DoInitialize? || call.DoStatus? || call.DoDecision?
    ensures Extends(h, Apply(h, now, call).hub)
  {
    hide TasksExtend;
    SameTasks(h.tasks);
  }

  lemma {:induction false} RosterKept(h: Hub, now: int, k: nat)
    requires k <= |h.tasks|
    ensures ExpireLeases(h, now, k).roster == h.roster
    ensures ExpireLeases(h, now, k).agents == h.agents
  {
    if k > 0 { RosterKept(h, now, k - 1); }
  }

  // -- calls that leave identities alone --------------------------------------

  /** Of an agent's row, only the task it holds, its progress stamp and a loss of it may show, and none of
      them releases it. */
  ghost predicate SameIdentity(a: Agent, b: Agent) {
    && b == a.(status := b.status, currentTask := b.currentTask, lastProgress := b.lastProgress)
    && (b.status == Released ==> a.status == Released)
  }

  ghost predicate Steady(h: Hub, r: Hub) {
    forall n :: n in h.agents ==> n in r.agents && SameIdentity(h.agents[n], r.agents[n])
  }

  lemma AssignSteady(h: Hub, now: int, b: Brief)
    ensures Steady(h, AssignTask(h, now, b).hub)
  {
  }

  lemma ProgressSteady(h: Hub, now: int, t: nat, agent: string, note: Text, op: string)
    ensures Steady(h, RecordProgress(h, now, t, agent, note, op).hub)
  {
  }

  lemma ResultSteady(h: Hub, t: nat, agent: string, result: TaskResult, op: string)
    ensures Steady(h, SubmitResult(h, t, agent, result, op).hub)
  {
    hide ResultEcho, TerminalStatus;
  }

  lemma QuestionSteady(h: Hub, t: nat, agent: string, question: Text, sentAs: string)
    ensures Steady(h, OpenQuestion(h, t, agent, question, sentAs).hub)
  {
  }

  lemma AliceSteady(h: Hub, now: int, call: Call)
    requires call.DoReply? || call.DoClaim? || call.DoLease? || call.DoAck?
    ensures Steady(h, Apply(h, now, call).hub)
  {
  }

  lemma EndSteady(h: Hub, now: int, call: Call)
    requires call.DoOverride? || call.DoCancel?
    ensures Steady(h, Apply(h, now, call).hub)
  {
  }

  lemma LoseOneSteady(h: Hub, name: string, row: Agent)
    ensures Steady(h, LoseAgent(h, name, row))
  {
  }

  lemma SteadyOn(a: Hub, b: Hub, c: Hub)
    requires Steady(a, b) && Steady(b, c)
    ensures Steady(a, c)
  {
    forall n | n in a.agents ensures n in c.agents && SameIdentity(a.agents[n], c.agents[n]) {
      assert SameIdentity(a.agents[n], b.agents[n]) && SameIdentity(b.agents[n], c.agents[n]);
    }
  }

  lemma {:induction false} LoseSteady(h: Hub, cutoff: int, k: nat)
    requires k <= |h.roster|
    ensures Steady(h, LoseAgents(h, cutoff, k))
  {
    if k > 0 {
      LoseSteady(h, cutoff, k - 1);
      var prev, name := LoseAgents(h, cutoff, k - 1), h.roster[k - 1];
      if name in h.agents && Silent(h.agents[name], cutoff) {
        LoseOneSteady(prev, name, h.agents[name]);
        assert LoseAgents(h, cutoff, k) == LoseAgent(prev, name, h.agents[name]);
        hide LoseAgent, Steady;
        SteadyOn(h, prev, LoseAgents(h, cutoff, k));
      }
    }
  }

  lemma SweepSteady(h: Hub, now: int, lostAfter: int)
    ensures Steady(h, Sweep(h, now, lostAfter).hub)
  {
    RosterKept(h, now, |h.tasks|);
    var h1 := ExpireLeases(h, now, |h.tasks|);
    LoseSteady(h1, now - lostAfter, |h1.roster|);
  }

  lemma AuditSteady(h: Hub, now: int, call: Call)
    requires call.DoInitialize? || call.DoStatus? || call.DoDecision?
    ensures Steady(h, Apply(h, now, call).hub)
  {
  }

  /** Only check-ins, heartbeats and releases touch the rest of an agent's row. */
  lemma StepSteady(h: Hub, now: int, call: Call)
    requires !call.DoCheckIn? && !call.DoHeartbeat? && !call.DoRelease?
    ensures Steady(h, Apply(h, now, call).hub)
  {
    hide Steady;
    match call
    case DoSweep(lostAfter) => SweepSteady(h, now, lostAfter);
    case DoAssign(brief) => AssignSteady(h, now, brief);
    case DoProgress(task, name, note, op) => ProgressSteady(h, now, task, name, note, op);
    case DoQuestion(task, name, note, sentAs) => QuestionSteady(h, task, name, note, sentAs);
    case DoResult(task, name, result, op) => ResultSteady(h, task, name, result, op);
    case DoOverride(_, _, _) => EndSteady(h, now, call);
    case DoCancel(_) => EndSteady(h, now, call);
    case DoInitialize(_, _) => AuditSteady(h, now, call);
    case DoStatus(_, _) => AuditSteady(h, now, call);
    case DoDecision(_, _, _) => AuditSteady(h, now, call);
    case _ => AliceSteady(h, now, call);
  }

  lemma OneSteady(h: Hub, now: int, call: Call, name: string)
    requires !call.DoCheckIn? && !call.DoHeartbeat? && !call.DoRelease? && name in h.agents
    ensures name in Apply(h, now, call).hub.agents
    ensures SameIdentity(h.agents[name], Apply(h, now, call).hub.agents[name])
  {
    StepSteady(h, now, call);
  }

  // -- calls that leave every task alone --------------------------------------

  /** Messages that neither ask nor answer anything on a task. */
  predicate IsNote(m: Message) {
    m.kind.CheckInNote? || m.kind.ProgressNote?
  }

  predicate IsNotice(body: EventBody) {
    body.AgentCheckedIn? || body.TaskProgress?
  }

  /** No task row changes; at most notes and notices are added. */
  ghost predicate Plain(h: Hub, r: Hub) {
    && r.tasks == h.tasks
    && h.messages <= r.messages
    && (forall i :: |h.messages| <= i < |r.messages| ==> IsNote(r.messages[i]))
    && EventsExtend(h.events, r.events)
    && (forall i :: |h.events| <= i < |r.events| ==> IsNotice(r.events[i].body))
  }

  lemma CheckInPlain(h: Hub, now: int, name: string, profile: Profile, instance: Instance, op: string,
                     addr: Option<string>)
    ensures Plain(h, CheckIn(h, now, name, profile, instance, op, addr).hub)
  {
  }

  lemma ProgressPlain(h: Hub, now: int, t: nat, agent: string, note: Text, op: string)
    ensures Plain(h, RecordProgress(h, now, t, agent, note, op).hub)
  {
  }

  lemma AckPlain(h: Hub, delivery: nat)
    ensures Plain(h, AckEvent(h, delivery).hub)
  {
  }

  predicate IsPlain(call: Call) {
    call.DoInitialize? || call.DoStatus? || call.DoDecision? || call.DoCheckIn? || call.DoRelease?
    || call.DoProgress? || call.DoLease? || call.DoAck?
  }

  lemma PlainCalls(h: Hub, now: int, call: Call)
    requires IsPlain(call)
    ensures Plain(h, Apply(h, now, call).hub)
  {
    match call
    case DoCheckIn(name, profile, instance, op, addr) => CheckInPlain(h, now, name, profile, instance, op, addr);
    case DoProgress(task, name, note, op) => ProgressPlain(h, now, task, name, note, op);
    case DoAck(delivery) => AckPlain(h, delivery);
    case _ =>
  }
}
