/** The durable store: one field per table, one method per transaction.

    A method updates the tables in place. A refusal, in the source an exception that rolls the
    transaction back, is an ordinary result here and changes no row. `woken` is the set of keys
    passed to `signals.notify` once the transaction has committed.
 */
module Store {
  import opened HubTypes
  import S = HubSpec

  class HubStore {
    var workflow: Option<Workflow>
    var agents: map<string, Agent>
    var roster: seq<string>
    var tasks: seq<Task>
    var messages: seq<Message>
    var events: seq<Event>
    var decisions: seq<Decision>
    var operations: map<OpKey, Operation>
    var deliveries: seq<nat>

    ghost function View(): Hub
      reads this
    {
      Hub(workflow, agents, roster, tasks, messages, events, decisions, operations, deliveries)
    }

    constructor ()
      ensures View() == EMPTY
    {
      workflow, agents, roster, tasks, messages := None, map[], [], [], [];
      events, decisions, operations, deliveries := [], [], map[], [];
    }

    // -- workflow -------------------------------------------------------------

    method InitializeWorkflow(goal: string, policy: Policy) returns (r: Response, woken: set<Key>)
      modifies this
      ensures Step(View(), r, woken) == S.InitializeWorkflow(old(View()), goal, policy)
    {
      woken := {};
      if !SoundPolicy(policy) {
        return Refused(InvalidPolicy), woken;
      }
      if workflow.None? {
        workflow := Some(Workflow(goal, policy, Active));
        return WorkflowReady, woken;
      }
      if workflow.value.goal != goal || workflow.value.policy != policy {
        return Refused(Conflict), woken;
      }
      r := WorkflowReady;
    }

    method SetWorkflowStatus(status: WorkflowStatus, summary: string) returns (r: Response, woken: set<Key>)
      modifies this
      ensures Step(View(), r, woken) == S.SetWorkflowStatus(old(View()), status, summary)
    {
      woken := {};
      if workflow.None? {
        return Refused(Conflict), woken;
      }
      r := Ok;
      if workflow.value.status == status {
        return;
      }
      workflow := Some(workflow.value.(status := status));
      decisions := decisions + [Decision(summary, "Workflow status set to " + StatusName(status), None)];
    }

    method LogDecision(summary: string, rationale: string, key: Option<string>)
      returns (r: Response, woken: set<Key>)
      modifies this
      ensures Step(View(), r, woken) == S.LogDecision(old(View()), summary, rationale, key)
    {
      woken := {};
      if key.Some? {
        var prior := S.KeyedDecision(decisions, key.value, |decisions|);
        if prior.Some? {
          return DecisionId(prior.value), woken;
        }
      }
      r := DecisionId(|decisions|);
      decisions := decisions + [Decision(summary, rationale, key)];
    }

    // -- agents ---------------------------------------------------------------

    method CheckIn(now: int, name: string, profile: Profile, instance: Instance, op: string, addr: Option<string>)
      returns (r: Response, woken: set<Key>)
      modifies this
      ensures Step(View(), r, woken) == S.CheckIn(old(View()), now, name, profile, instance, op, addr)
    {
      woken := {};
      var key, payload := OpKey(name, op), CheckInAsk(name, instance, profile);
      if key in operations {
        r := Stored(key, payload);
        return;
      }
      if profile.workspace.Some? {
        var taken := exists n :: n in agents && n != name && Live(agents[n].status)
                                 && agents[n].profile.workspace == profile.workspace;
        if taken {
          return Refused(DuplicateAgent), woken;
        }
      }
      if name in agents && Live(agents[name].status) {
        return Refused(DuplicateAgent), woken;
      }
      if !profile.fits {
        return Refused(PayloadTooLarge), woken;
      }
      var context := |roster|;
      if name !in agents {
        agents := agents[name := Agent(Idle, context, instance, now, now, None, None, profile, addr, addr)];
        roster := roster + [name];
      } else {
        var previous := agents[name];
        context := previous.context;
        var current := OpenTaskId(previous.currentTask);
        var progressed := if previous.status == Lost then None else previous.lastProgress;
        agents := agents[name := Agent(S.Readmitted(previous.status, current), context, instance, now, now,
                                       progressed, current, profile, addr, addr)];
      }
      AddMessage(Message(None, context, name, CheckInNote, "READY"));
      AddEvent(AgentCheckedIn(name, context, instance, profile));
      r := Registered(name, context, agents[name].status, instance);
      operations := operations[key := Operation(payload, r)];
      woken := {EventKey};
    }

    /** The answer kept for an operation that already ran. */
    method Stored(key: OpKey, payload: Payload) returns (r: Response)
      requires key in operations
      ensures r == if operations[key].payload == payload then operations[key].response
                   else Refused(IdempotencyConflict)
    {
      r := if operations[key].payload != payload then Refused(IdempotencyConflict) else operations[key].response;
    }

    function OpenTaskId(task: Option<nat>): (r: Option<nat>)
      reads this
      ensures r == S.OpenTaskId(View(), task)
    {
      if task.Some? && task.value < |tasks| && !Terminal(tasks[task.value].state) then task else None
    }

    method Heartbeat(now: int, name: string, instance: Instance, current: Option<nat>, addr: Option<string>)
      returns (r: Response, woken: set<Key>)
      modifies this
      ensures Step(View(), r, woken) == S.Heartbeat(old(View()), now, name, instance, current, addr)
    {
      woken := {};
      if name !in agents {
        return Refused(NotFound), woken;
      }
      var a := agents[name];
      if a.instance != instance || a.status == Lost {
        return Flag(false), woken;
      }
      if current.Some? && a.currentTask == current && |tasks| <= current.value {
        return Refused(NotFound), woken;
      }
      agents := agents[name := a.(lastHeartbeat := Max(a.lastHeartbeat, now), lastSeen := Max(a.lastSeen, now),
                                  lastAddr := if addr.Some? then addr else a.lastAddr)];
      r := Flag(true);
      if current.None? || a.currentTask != current {
        return;
      }
      var t := current.value;
      var task := tasks[t];
      if task.assignee != name || Terminal(task.state) || task.leaseExpires.None? {
        return;
      }
      var expiry := task.leaseExpires.value;
      var limit := task.created + S.Cap(Hub(workflow, agents, roster, tasks, messages,
                                      events, decisions, operations, deliveries));
      if expiry <= now {
        assert old(View()).tasks[t] == old(View()).tasks[t].(leaseExpires := Some(expiry));
        return;
      }
      if limit <= now {
        tasks := tasks[t := task.(leaseExpires := Some(limit))];
        return;
      }
      var renewed := Min(Max(now + task.leaseDuration, expiry), limit);
      if renewed != expiry {
        tasks := tasks[t := task.(leaseExpires := Some(renewed))];
      }
    }

    method ReleaseAgent(name: string) returns (r: Response, woken: set<Key>)
      modifies this
      ensures Step(View(), r, woken) == S.ReleaseAgent(old(View()), name)
    {
      woken := {};
      if name !in agents {
        return Refused(NotFound), woken;
      }
      if agents[name].status == Released {
        return AgentIs(agents[name]), woken;
      }
      agents := agents[name := agents[name].(status := Released)];
      r := AgentIs(agents[name]);
      woken := {ContextKey(agents[name].context)};
    }

    // -- tasks ----------------------------------------------------------------

    method AssignTask(now: int, b: S.Brief) returns (r: Response, woken: set<Key>)
      modifies this
      ensures Step(View(), r, woken) == S.AssignTask(old(View()), now, b)
    {
      woken := {};
      if b.prHead.Some? && !S.IsSha(b.prHead.value) {
        return Refused(InvalidValue), woken;
      }
      var head := if b.prHead.None? then None else Some(S.Lower(b.prHead.value));
      if workflow.None? {
        return Refused(Conflict), woken;
      }
      var lease := Min(b.lease, LeaseCap(workflow.value.policy));
      if b.source.Some? {
        if |events| <= b.source.value {
          return Refused(NotFound), woken;
        }
        var existing := S.SourcedTask(tasks, b.source.value, |tasks|);
        if existing.Some? {
          var task := tasks[existing.value];
          if (b.assignee, b.role, b.title, b.instructions, lease, head)
             == (task.assignee, task.role, task.title, task.instructions, task.leaseDuration, task.prHead) {
            return TaskIs(existing.value, task), woken;
          }
          return Refused(IdempotencyConflict), woken;
        }
      }
      if b.assignee !in agents {
        return Refused(NotFound), woken;
      }
      if agents[b.assignee].status != Idle {
        return Refused(Conflict), woken;
      }
      if !b.instructions.fits {
        return Refused(PayloadTooLarge), woken;
      }
      var t, a := |tasks|, agents[b.assignee];
      tasks := tasks + [Task(b.assignee, b.role, b.title, b.instructions, Submitted, Some(now + lease), lease, None,
                             now, head, b.source)];
      agents := agents[b.assignee := a.(status := Busy, currentTask := Some(t))];
      AddMessage(Message(Some(t), a.context, "alice", Assignment, b.instructions.body));
      r := TaskIs(t, tasks[t]);
      woken := {ContextKey(a.context)};
    }

    method ClaimAssignment(name: string) returns (r: Response, woken: set<Key>)
      modifies this
      ensures Step(View(), r, woken) == S.ClaimAssignment(old(View()), name)
    {
      woken := {};
      if name !in agents {
        return Refused(NotFound), woken;
      }
      if agents[name].status == Released {
        return AgentReleased, woken;
      }
      var t := S.ClaimCandidate(tasks, name, |tasks|);
      if t.None? {
        return Nothing, woken;
      }
      SetState(t.value, Working);
      r := TaskIs(t.value, tasks[t.value]);
    }

    method RecordProgress(now: int, t: nat, agent: string, note: Text, op: string)
      returns (r: Response, woken: set<Key>)
      modifies this
      ensures Step(View(), r, woken) == S.RecordProgress(old(View()), now, t, agent, note, op)
    {
      woken := {};
      var key, payload := OpKey(agent, op), ProgressPayload(t, note.body);
      if key in operations {
        r := Stored(key, payload);
        return;
      }
      var refusal := TaskRefusal(t, agent);
      if refusal.Some? {
        return Refused(refusal.value), woken;
      }
      if !note.fits {
        return Refused(PayloadTooLarge), woken;
      }
      var context := agents[agent].context;
      AddMessage(Message(Some(t), context, agent, ProgressNote, note.body));
      AddEvent(TaskProgress(t, agent, note.body));
      agents := agents[agent := agents[agent].(lastProgress := Some(now))];
      r := Noted(context, t);
      operations := operations[key := Operation(payload, r)];
      woken := {EventKey};
    }

    method OpenQuestion(t: nat, agent: string, question: Text, sentAs: string)
      returns (r: Response, woken: set<Key>)
      modifies this
      ensures Step(View(), r, woken) == S.OpenQuestion(old(View()), t, agent, question, sentAs)
    {
      woken := {};
      var refusal := TaskRefusal(t, agent);
      if refusal.Some? {
        return Refused(refusal.value), woken;
      }
      var asked := AskedQuestion(t, sentAs);
      if asked.Some? {
        return MessageId(asked.value), woken;
      }
      if !question.fits {
        return Refused(PayloadTooLarge), woken;
      }
      var id := |messages|;
      AddMessage(Message(Some(t), agents[agent].context, agent, Question(sentAs), question.body));
      SetState(t, InputRequired);
      AddEvent(WorkerQuestion(t, agent, question.body, id));
      r := MessageId(id);
      woken := {EventKey};
    }

    /** The row of a question already asked under `sentAs`, oldest first. */
    method AskedQuestion(t: nat, sentAs: string) returns (r: Option<nat>)
      ensures r == if sentAs == "" then None else S.AskedQuestion(messages, t, sentAs, 0)
    {
      if sentAs == "" {
        return None;
      }
      for i := 0 to |messages|
        invariant S.AskedQuestion(messages, t, sentAs, 0) == S.AskedQuestion(messages, t, sentAs, i)
      {
        var m := messages[i];
        if m.task == Some(t) && m.kind.Question? && m.kind.sentAs == sentAs {
          return Some(i);
        }
      }
      r := None;
    }

    method ReplyTo(t: nat, text: Text, messageId: nat) returns (r: Response, woken: set<Key>)
      modifies this
      ensures Step(View(), r, woken) == S.ReplyTo(old(View()), t, text, messageId)
    {
      woken := {};
      if |tasks| <= t {
        return Refused(NotFound), woken;
      }
      if tasks[t].state != InputRequired {
        return Flag(false), woken;
      }
      var newest := NewestQuestion(t);
      if newest != Some(messageId) {
        return Flag(false), woken;
      }
      var prior := S.FirstFromAlice(messages, t, messageId + 1);
      if prior.Some? {
        return Flag(false), woken;
      }
      if tasks[t].assignee !in agents {
        return Refused(NotFound), woken;
      }
      if !text.fits {
        return Refused(PayloadTooLarge), woken;
      }
      AddMessage(Message(Some(t), agents[tasks[t].assignee].context, "alice", Reply, text.body));
      SetState(t, Working);
      r := Flag(true);
      woken := {TaskKey(t)};
    }

    /** The newest question on a task: the rows are read backwards until one matches. */
    method NewestQuestion(t: nat) returns (r: Option<nat>)
      ensures r == S.NewestQuestion(messages, t, |messages|)
    {
      var n := |messages|;
      while n > 0
        invariant 0 <= n <= |messages|
        invariant S.NewestQuestion(messages, t, |messages|) == S.NewestQuestion(messages, t, n)
      {
        n := n - 1;
        if messages[n].task == Some(t) && messages[n].kind.Question? {
          return Some(n);
        }
      }
      r := None;
    }

    method SubmitResult(t: nat, agent: string, result: TaskResult, op: string)
      returns (r: Response, woken: set<Key>)
      modifies this
      ensures Step(View(), r, woken) == S.SubmitResult(old(View()), t, agent, result, op)
    {
      hide ResultEcho, TerminalStatus;
      woken := {};
      if !result.detail.fits {
        return Refused(PayloadTooLarge), woken;
      }
      var status := TerminalStatus(result);
      var key, payload := OpKey(agent, op), ResultPayload(t, result);
      if key in operations {
        r := Stored(key, payload);
        return;
      }
      var refusal := TaskRefusal(t, agent);
      if refusal.Some? {
        return Refused(refusal.value), woken;
      }
      AddMessage(Message(Some(t), agents[agent].context, agent, ResultNote, ResultEcho(result)));
      Finish(t, status, Some(Typed(result)));
      AddEvent(if status == Completed then TaskCompleted(t, agent, result) else TaskFailed(t, agent, result));
      r := TaskIs(t, tasks[t]);
      operations := operations[key := Operation(payload, r)];
      woken := {EventKey};
    }

    method SetTaskState(t: nat, state: TaskState, note: Text) returns (r: Response, woken: set<Key>)
      modifies this
      ensures Step(View(), r, woken) == S.SetTaskState(old(View()), t, state, note)
    {
      woken := {};
      if state != Canceled && state != Failed {
        return Refused(Conflict), woken;
      }
      if |tasks| <= t {
        return Refused(NotFound), woken;
      }
      if Terminal(tasks[t].state) {
        return Refused(Conflict), woken;
      }
      if tasks[t].assignee !in agents {
        return Refused(NotFound), woken;
      }
      if !note.fits {
        return Refused(PayloadTooLarge), woken;
      }
      var context := agents[tasks[t].assignee].context;
      AddMessage(Message(Some(t), context, "alice", StateOverride, note.body));
      Finish(t, state, Some(Overridden(state, note.body)));
      r := TaskIs(t, tasks[t]);
      woken := {TaskKey(t), ContextKey(context)};
    }

    method CancelTask(t: nat) returns (r: Response, woken: set<Key>)
      modifies this
      ensures Step(View(), r, woken) == S.CancelTask(old(View()), t)
    {
      woken := {};
      if |tasks| <= t {
        return Refused(NotFound), woken;
      }
      if Terminal(tasks[t].state) {
        return Refused(Conflict), woken;
      }
      if tasks[t].assignee !in agents {
        return Refused(NotFound), woken;
      }
      var context := agents[tasks[t].assignee].context;
      Finish(t, Canceled, None);
      r := TaskIs(t, tasks[t]);
      woken := {TaskKey(t), ContextKey(context)};
    }

    function TaskRefusal(t: nat, agent: string): (r: Option<Error>)
      reads this
      ensures r == S.TaskRefusal(View(), t, agent)
    {
      if |tasks| <= t then Some(NotFound)
      else if Terminal(tasks[t].state) then Some(Conflict)
      else if agent !in agents then Some(NotFound)
      else None
    }

    method SetState(t: nat, state: TaskState)
      requires t < |tasks|
      modifies this`tasks
      ensures View() == S.SetState(old(View()), t, state)
    {
      tasks := tasks[t := tasks[t].(state := state)];
    }

    /** Apply a terminal state: clear the lease and free whoever holds the task. */
    method Finish(t: nat, state: TaskState, result: Option<StoredResult>)
      requires t < |tasks|
      modifies this`tasks, this`agents
      ensures View() == S.Finish(old(View()), t, state, result)
    {
      tasks := tasks[t := tasks[t].(state := state, leaseExpires := None, result := result)];
      agents := map n | n in agents :: S.Freed(agents[n], t);
    }

    method AddMessage(m: Message)
      modifies this`messages
      ensures View() == S.AddMessage(old(View()), m)
    {
      messages := messages + [m];
    }

    method AddEvent(body: EventBody)
      modifies this`events
      ensures View() == S.AddEvent(old(View()), body)
    {
      events := events + [Event(body, Queued, None, 0, None)];
    }

    // -- Alice's inbox --------------------------------------------------------

    method LeaseNextEvent(now: int, lease: int) returns (r: Response, woken: set<Key>)
      modifies this
      ensures Step(View(), r, woken) == S.LeaseNextEvent(old(View()), now, lease)
    {
      woken := {};
      var next := S.NextEligible(events, now, 0);
      if next.None? {
        return Nothing, woken;
      }
      var e, delivery := next.value, |deliveries|;
      deliveries := deliveries + [e];
      events := events[e := events[e].(state := Delivered, deliveryId := Some(delivery),
                                       attempts := events[e].attempts + 1, expires := Some(now + lease))];
      r := Leased(e, events[e]);
    }

    method AckEvent(delivery: nat) returns (r: Response, woken: set<Key>)
      modifies this
      ensures Step(View(), r, woken) == S.AckEvent(old(View()), delivery)
    {
      woken := {};
      var held := exists e :: 0 <= e < |events| && S.Outstanding(events[e], delivery);
      if !held {
        return Flag(false), woken;
      }
      var rows := events;
      events := seq(|rows|, i requires 0 <= i < |rows| => S.AckedRow(rows[i], delivery));
      r := Flag(true);
    }

    // -- sweeper --------------------------------------------------------------

    method Sweep(now: int, lostAfter: int) returns (r: Response, woken: set<Key>)
      modifies this
      ensures Step(View(), r, woken) == S.Sweep(old(View()), now, lostAfter)
    {
      var first := |events|;
      ExpireLeases(now);
      LoseAgents(now - lostAfter);
      r := Swept(first, |events|);
      woken := if |events| == first then {} else {EventKey};
    }

    /** Report each overdue lease once, clearing it as it is reported. */
    method ExpireLeases(now: int)
      modifies this
      ensures View() == S.ExpireLeases(old(View()), now, |old(tasks)|)
    {
      ghost var h := View();
      var rows := tasks;
      for k := 0 to |rows|
        invariant View() == S.ExpireLeases(h, now, k)
      {
        var row := rows[k];
        if !Terminal(row.state) && row.leaseExpires.Some? && row.leaseExpires.value <= now {
          tasks := tasks[k := tasks[k].(leaseExpires := None)];
          AddEvent(LeaseExpired(k, row.assignee, row.leaseExpires.value));
        }
      }
    }

    /** Declare every silent live agent lost, failing the task it holds. */
    method LoseAgents(cutoff: int)
      modifies this
      ensures View() == S.LoseAgents(old(View()), cutoff, |old(roster)|)
    {
      ghost var h := View();
      var names, rows := roster, agents;
      for k := 0 to |names|
        invariant View() == S.LoseAgents(h, cutoff, k)
      {
        var name := names[k];
        if name in rows && Live(rows[name].status) && rows[name].lastHeartbeat <= cutoff {
          agents := map n | n in agents :: if n == name then agents[n].(status := Lost) else agents[n];
          var task := OpenTaskId(rows[name].currentTask);
          if task.Some? {
            Finish(task.value, Failed, Some(WorkerLost(name)));
          }
          AddEvent(AgentLost(name, task, rows[name].lastHeartbeat));
        }
      }
    }
  }
}
