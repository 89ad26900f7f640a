/** What each transaction does, row by row and field by field: when it acts, what it then leaves in the
    tables, what the caller sees and who is woken.
 */
module Outcomes {
  import opened HubTypes
  import opened HubSpec
  import Holder
  import Leases

  predicate OtherAgents(h: Hub, r: Hub, name: string) {
    r.agents.Keys == h.agents.Keys + {name}
    && forall n :: n in h.agents && n != name ==> r.agents[n] == h.agents[n]
  }

  predicate OtherTasks(h: Hub, r: Hub, t: nat) {
    |r.tasks| == |h.tasks| && forall u :: 0 <= u < |h.tasks| && u != t ==> r.tasks[u] == h.tasks[u]
  }

  /** One more message, and this is it. */
  predicate Says(h: Hub, r: Hub, m: Message) {
    |r.messages| == |h.messages| + 1 && r.messages[..|h.messages|] == h.messages && r.messages[|h.messages|] == m
  }

  /** One more event, queued and never delivered, and this is it. */
  predicate Queues(h: Hub, r: Hub, body: EventBody) {
    |r.events| == |h.events| + 1 && r.events[..|h.events|] == h.events
    && r.events[|h.events|] == Event(body, Queued, None, 0, None)
  }

  // -- Alice's audit calls ----------------------------------------------------

  /** The workflow is created once, active, under sound rails; the same goal and rails again are accepted. */
  lemma InitializeDoes(h: Hub, goal: string, policy: Policy)
    ensures var s := InitializeWorkflow(h, goal, policy);
      var sound := policy.wellTyped
        && (policy.maxLease.None? || policy.maxLease.value > 0)
        && (policy.maxReviewRounds.None? || policy.maxReviewRounds.value > 0)
        && (policy.pairingWait.None? || policy.pairingWait.value > 0)
        && (policy.maxWall.None? || policy.maxWall.value > 0)
        && (policy.mergeMethod.None? || policy.mergeMethod.value == "merge" || policy.mergeMethod.value == "squash"
            || policy.mergeMethod.value == "rebase");
      && (s.response == WorkflowReady <==>
            sound && (h.workflow.None? || (h.workflow.value.goal == goal && h.workflow.value.policy == policy)))
      && (s.response == Refused(InvalidPolicy) <==> !sound)
      && s.hub.(workflow := h.workflow) == h && s.notified == {}
      && (if s.response == WorkflowReady && h.workflow.None?
          then s.hub.workflow == Some(Workflow(goal, policy, Active)) else s.hub == h)
  {
  }

  /** A status is set with its explanation, once; the same status again is not logged. */
  lemma StatusDoes(h: Hub, status: WorkflowStatus, summary: string)
    ensures var s := SetWorkflowStatus(h, status, summary);
      && (s.response == Ok <==> h.workflow.Some?) && s.notified == {}
      && s.hub.(workflow := h.workflow, decisions := h.decisions) == h
      && (h.workflow.Some? ==> s.hub.workflow == Some(Workflow(h.workflow.value.goal, h.workflow.value.policy, status)))
      && (if h.workflow.Some? && h.workflow.value.status != status
          then |s.hub.decisions| == |h.decisions| + 1 && s.hub.decisions[..|h.decisions|] == h.decisions
               && s.hub.decisions[|h.decisions|]
                  == Decision(summary, "Workflow status set to " + StatusName(status), None)
          else s.hub.decisions == h.decisions)
  {
  }

  /** The id returned is that of the first row under the key, or of a new row that says what was asked. */
  lemma DecisionDoes(h: Hub, summary: string, rationale: string, key: Option<string>)
    ensures var s := LogDecision(h, summary, rationale, key);
      && s.hub.(decisions := h.decisions) == h && s.notified == {}
      && s.response.DecisionId? && s.response.id < |s.hub.decisions| && s.hub.decisions[s.response.id].key == key
      && (if key.Some? && exists d :: 0 <= d < |h.decisions| && h.decisions[d].key == key
          then s.hub == h
          else s.hub.decisions == h.decisions + [Decision(summary, rationale, key)] && s.response.id == |h.decisions|)
  {
  }

  // -- agents -----------------------------------------------------------------

  /** A check-in under a new id acts unless its name is live, another live agent sits in its workspace or its
      profile is too large. */
  lemma CheckInActsIff(h: Hub, now: int, name: string, profile: Profile, instance: Instance, op: string,
                       addr: Option<string>)
    requires OpKey(name, op) !in h.operations
    ensures var s := CheckIn(h, now, name, profile, instance, op, addr);
      var acts := profile.fits && (name in h.agents ==> h.agents[name].status in {Lost, Released})
        && (profile.workspace.None? || forall n :: n in h.agents && n != name && h.agents[n].status in {Idle, Busy} ==>
              h.agents[n].profile.workspace != profile.workspace);
      && (acts <==> s.response.Registered?)
      && (!acts ==> s.response.Refused? && s.hub == h && s.notified == {})
  {
  }

  /** It starts a fresh instance on the agent's own context: idle without a task after a first check-in or a
      loss, released still after a release. */
  lemma CheckInDoes(h: Hub, now: int, name: string, profile: Profile, instance: Instance, op: string,
                    addr: Option<string>)
    requires Holder.Inv(h) && OpKey(name, op) !in h.operations
    requires CheckIn(h, now, name, profile, instance, op, addr).response.Registered?
    ensures var s := CheckIn(h, now, name, profile, instance, op, addr);
      && name in s.hub.agents && OtherAgents(h, s.hub, name)
      && var a := s.hub.agents[name];
      && a.instance == instance && a.profile == profile && a.lastSeen == now && a.lastHeartbeat == now
      && a.checkinAddr == addr && a.lastAddr == addr
      && s.response == Registered(name, a.context, a.status, instance) && s.notified == {EventKey}
      && (if name !in h.agents then a.context == |h.roster| && FreshStart(a)
          else a.context == h.agents[name].context
               && (h.agents[name].status == Lost ==> FreshStart(a))
               && (h.agents[name].status == Released ==>
                     a.status == Released && a.currentTask == h.agents[name].currentTask
                     && a.lastProgress == h.agents[name].lastProgress))
  {
    if name in h.agents { assert Holder.AgentHolds(h, name); }
    hide Holder.Inv, WorkspaceTaken;
  }

  predicate FreshStart(a: Agent) {
    a.status == Idle && a.currentTask == None && a.lastProgress == None
  }

  /** And it says so once, in the transcript and to Alice. */
  lemma CheckInTells(h: Hub, now: int, name: string, profile: Profile, instance: Instance, op: string,
                     addr: Option<string>)
    requires OpKey(name, op) !in h.operations && CheckIn(h, now, name, profile, instance, op, addr).response.Registered?
    ensures var s := CheckIn(h, now, name, profile, instance, op, addr);
      && name in s.hub.agents
      && Says(h, s.hub, Message(None, s.hub.agents[name].context, name, CheckInNote, "READY"))
      && Queues(h, s.hub, AgentCheckedIn(name, s.hub.agents[name].context, instance, profile))
      && s.hub.roster == (if name in h.agents then h.roster else h.roster + [name])
      && s.hub.tasks == h.tasks && s.hub.workflow == h.workflow && s.hub.decisions == h.decisions
      && s.hub.deliveries == h.deliveries
  {
    hide WorkspaceTaken;
  }

  /** The same check-in, however its capabilities are ordered. */
  predicate SameCheckIn(i: Instance, p: Profile, j: Instance, q: Profile) {
    && i == j && p.details == q.details && p.workspace == q.workspace && p.fits == q.fits
    && multiset(p.capabilities) == multiset(q.capabilities)
  }

  /** After a call under a new id went through, another under that id gets the same answer if it asks for the
      same thing, and is refused if not. */
  lemma CheckInAgain(h: Hub, now: int, name: string, p: Profile, i: Instance, op: string, addr: Option<string>,
                     now': int, q: Profile, j: Instance, addr': Option<string>)
    requires OpKey(name, op) !in h.operations && CheckIn(h, now, name, p, i, op, addr).response.Registered?
    ensures var s := CheckIn(h, now, name, p, i, op, addr);
      CheckIn(s.hub, now', name, q, j, op, addr').response
      == if SameCheckIn(i, p, j, q) then s.response else Refused(IdempotencyConflict)
  {
    hide WorkspaceTaken;
  }

  lemma ProgressAgain(h: Hub, now: int, t: nat, agent: string, note: Text, op: string, now': int, u: nat, later: Text)
    requires OpKey(agent, op) !in h.operations && RecordProgress(h, now, t, agent, note, op).response.Noted?
    ensures var s := RecordProgress(h, now, t, agent, note, op);
      RecordProgress(s.hub, now', u, agent, later, op).response
      == if t == u && note.body == later.body then s.response else Refused(IdempotencyConflict)
  {
  }

  lemma ResultAgain(h: Hub, t: nat, agent: string, result: TaskResult, op: string, u: nat, later: TaskResult)
    requires OpKey(agent, op) !in h.operations && SubmitResult(h, t, agent, result, op).response.TaskIs?
    ensures var s := SubmitResult(h, t, agent, result, op);
      SubmitResult(s.hub, u, agent, later, op).response
      == if !later.detail.fits then Refused(PayloadTooLarge)
         else if t == u && result == later then s.response else Refused(IdempotencyConflict)
  {
    hide ResultEcho, TerminalStatus, Finish;
  }

  /** A heartbeat is heard exactly from the current instance of an agent that is not lost. */
  lemma HeartbeatHeard(h: Hub, now: int, name: string, instance: Instance, current: Option<nat>, addr: Option<string>)
    requires Holder.Inv(h)
    ensures var s := Heartbeat(h, now, name, instance, current, addr);
      var heard := name in h.agents && h.agents[name].instance == instance && h.agents[name].status != Lost;
      && (s.response == Flag(true) <==> heard) && (!heard ==> s.hub == h) && s.notified == {}
      && (heard ==> OtherAgents(h, s.hub, name) && Heard(h.agents[name], s.hub.agents[name], now, addr))
      && s.hub.workflow == h.workflow && s.hub.messages == h.messages && s.hub.events == h.events
      && s.hub.decisions == h.decisions && s.hub.operations == h.operations
      && s.hub.roster == h.roster && s.hub.deliveries == h.deliveries
  {
    if name in h.agents { assert Holder.AgentHolds(h, name); }
    hide Holder.Inv, RenewedLease;
  }

  /** Both stamps are the later of what they were and the clock. */
  predicate Heard(a: Agent, b: Agent, now: int, addr: Option<string>) {
    && b == a.(lastHeartbeat := b.lastHeartbeat, lastSeen := b.lastSeen, lastAddr := b.lastAddr)
    && b.lastHeartbeat >= a.lastHeartbeat && b.lastHeartbeat >= now && b.lastHeartbeat in {a.lastHeartbeat, now}
    && b.lastSeen >= a.lastSeen && b.lastSeen >= now && b.lastSeen in {a.lastSeen, now}
    && b.lastAddr == (if addr.Some? then addr else a.lastAddr)
  }

  /** A heartbeat that names the task its agent holds renews an unexpired lease: to what the task's duration
      gives from now on, or to the cap if that is sooner, but never to less than it was. Nothing else of any
      task changes. */
  lemma HeartbeatRenews(h: Hub, now: int, name: string, instance: Instance, current: Option<nat>, addr: Option<string>,
                        t: nat)
    requires Holder.Inv(h) && Leases.Inv(h) && t < |h.tasks|
    ensures var s := Heartbeat(h, now, name, instance, current, addr);
      && |s.hub.tasks| == |h.tasks|
      && if s.response == Flag(true) && name in h.agents && current == Some(t) == h.agents[name].currentTask
            && h.tasks[t].leaseExpires.Some? && now < h.tasks[t].leaseExpires.value
         then Renewed(h.tasks[t], s.hub.tasks[t], now, h.tasks[t].created + Cap(h))
         else s.hub.tasks[t] == h.tasks[t]
  {
    assert Holder.TaskHeld(h, t) && Leases.RowOk(h, t);
    if name in h.agents { assert Holder.AgentHolds(h, name); }
    hide Holder.Inv, Leases.Inv, Leases.Reports;
  }

  predicate Renewed(a: Task, b: Task, now: int, limit: int) {
    var offer := if now + a.leaseDuration <= limit then now + a.leaseDuration else limit;
    && b == a.(leaseExpires := b.leaseExpires) && a.leaseExpires.Some? && b.leaseExpires.Some?
    && b.leaseExpires.value >= a.leaseExpires.value && b.leaseExpires.value >= offer
    && b.leaseExpires.value in {a.leaseExpires.value, offer}
  }

  /** Releasing marks the row and wakes its waiter, once. */
  lemma ReleaseDoes(h: Hub, name: string)
    ensures var s := ReleaseAgent(h, name);
      && s.hub.(agents := h.agents) == h
      && if name !in h.agents then s.response == Refused(NotFound) && s.hub == h && s.notified == {}
         else
           && OtherAgents(h, s.hub, name) && s.hub.agents[name] == h.agents[name].(status := Released)
           && s.response == AgentIs(s.hub.agents[name])
           && s.notified == (if h.agents[name].status == Released then {} else {ContextKey(h.agents[name].context)})
  {
  }

  // -- assignments ------------------------------------------------------------

  /** A commit id as stored: the same hexadecimal digits in lower case. */
  predicate SameSha(given: string, stored: string) {
    && |given| == 40 && |stored| == 40
    && forall i :: 0 <= i < 40 ==>
         && ('0' <= stored[i] <= '9' || 'a' <= stored[i] <= 'f')
         && (stored[i] == given[i] || ('A' <= given[i] <= 'F' && stored[i] as int == given[i] as int + 32))
  }

  lemma LowerIsSame(s: string)
    requires IsSha(s)
    ensures SameSha(s, Lower(s))
  {
    forall i | 0 <= i < 40
      ensures ('0' <= Lower(s)[i] <= '9' || 'a' <= Lower(s)[i] <= 'f')
              && (Lower(s)[i] == s[i] || ('A' <= s[i] <= 'F' && Lower(s)[i] as int == s[i] as int + 32))
    {
      assert HexDigit(s[i]);
    }
  }

  /** A commit id is accepted exactly if it has such a stored form. */
  lemma ShaIff(given: string)
    ensures IsSha(given) <==> exists stored :: SameSha(given, stored)
  {
    if IsSha(given) { LowerIsSame(given); }
    if exists stored :: SameSha(given, stored) {
      var stored :| SameSha(given, stored);
      forall i | 0 <= i < |given| ensures HexDigit(given[i]) {
        assert '0' <= stored[i] <= '9' || 'a' <= stored[i] <= 'f';
      }
    }
  }

  /** The task an assignment makes is the one described, submitted under a lease from now on that lasts as
      long as asked but no longer than the cap. */
  lemma AssignMakes(h: Hub, now: int, b: Brief)
    requires AssignTask(h, now, b).hub != h
    ensures var s := AssignTask(h, now, b);
      && s.response.TaskIs? && s.response.taskId == |h.tasks|
      && s.hub.tasks == h.tasks + [s.response.row]
      && var task := s.response.row;
      && task.assignee == b.assignee && task.role == b.role && task.title == b.title
      && task.instructions == b.instructions && task.sourceEvent == b.source
      && task.state == Submitted && task.result == None && task.created == now
      && task.leaseDuration <= b.lease && task.leaseDuration <= Cap(h) && task.leaseDuration in {b.lease, Cap(h)}
      && task.leaseExpires == Some(now + task.leaseDuration)
      && task.prHead.Some? == b.prHead.Some? && (b.prHead.Some? ==> SameSha(b.prHead.value, task.prHead.value))
  {
    if b.prHead.Some? && IsSha(b.prHead.value) { LowerIsSame(b.prHead.value); }
  }

  /** Its assignee, idle until then, is busy with it, reads the instructions and is woken. */
  lemma AssignTells(h: Hub, now: int, b: Brief)
    requires AssignTask(h, now, b).hub != h
    ensures var s := AssignTask(h, now, b);
      && b.assignee in h.agents && h.agents[b.assignee].status == Idle
      && var a := h.agents[b.assignee];
      && s.hub.agents[b.assignee] == a.(status := Busy, currentTask := Some(|h.tasks|))
      && OtherAgents(h, s.hub, b.assignee) && s.notified == {ContextKey(a.context)}
      && Says(h, s.hub, Message(Some(|h.tasks|), a.context, "alice", Assignment, b.instructions.body))
      && s.hub.(agents := h.agents, tasks := h.tasks, messages := h.messages) == h
  {
    hide IsSha;
  }

  /** For a source event that has its task, an assignment is accepted exactly if it describes that task. */
  lemma AssignedAlready(h: Hub, now: int, b: Brief, t: nat)
    requires h.workflow.Some? && b.source.Some? && b.source.value < |h.events|
    requires b.prHead.None? || IsSha(b.prHead.value)
    requires t < |h.tasks| && h.tasks[t].sourceEvent == b.source
    requires forall u :: 0 <= u < |h.tasks| && u != t ==> h.tasks[u].sourceEvent != b.source
    ensures var s := AssignTask(h, now, b);
      var task := h.tasks[t];
      && s.hub == h && s.notified == {}
      && (s.response == TaskIs(t, task) || s.response == Refused(IdempotencyConflict))
      && (s.response == TaskIs(t, task) <==>
            && task.assignee == b.assignee && task.role == b.role && task.title == b.title
            && task.instructions == b.instructions
            && task.leaseDuration == (if b.lease <= Cap(h) then b.lease else Cap(h))
            && task.prHead == (if b.prHead.None? then None else Some(Lower(b.prHead.value))))
  {
    assert SourcedTask(h.tasks, b.source.value, |h.tasks|) == Some(t);
  }

  // -- claims -----------------------------------------------------------------

  /** Among several it would be the oldest, and of those created at one instant the first. */
  lemma {:induction false} ClaimIsOldest(tasks: seq<Task>, name: string, n: nat, t: nat)
    requires t < n <= |tasks| && tasks[t].assignee == name && tasks[t].state == Submitted
    ensures var c := ClaimCandidate(tasks, name, n);
      && c.Some? && c.value < n
      && (tasks[c.value].created < tasks[t].created || (tasks[c.value].created == tasks[t].created && c.value <= t))
  {
    var before := ClaimCandidate(tasks, name, n - 1);
    if t < n - 1 { ClaimIsOldest(tasks, name, n - 1, t); }
  }

  /** A claim hands out the submitted task of its agent and sets it to work, and nothing else changes. */
  lemma ClaimDoes(h: Hub, name: string)
    requires Holder.Inv(h)
    ensures var s := ClaimAssignment(h, name);
      && s.notified == {} && s.hub.(tasks := h.tasks) == h
      && (name !in h.agents ==> s.response == Refused(NotFound) && s.hub == h)
      && (name in h.agents && h.agents[name].status == Released ==> s.response == AgentReleased && s.hub == h)
      && (name in h.agents && h.agents[name].status != Released ==>
            forall t :: 0 <= t < |h.tasks| && h.tasks[t].assignee == name && h.tasks[t].state == Submitted ==>
              && s.response == TaskIs(t, h.tasks[t].(state := Working)) && OtherTasks(h, s.hub, t)
              && s.hub.tasks[t] == h.tasks[t].(state := Working))
      && ((forall t :: 0 <= t < |h.tasks| ==> h.tasks[t].assignee != name || h.tasks[t].state != Submitted) ==>
            s.hub == h && !s.response.TaskIs?)
  {
    forall t | 0 <= t < |h.tasks| && h.tasks[t].assignee == name && h.tasks[t].state == Submitted
      ensures ClaimCandidate(h.tasks, name, |h.tasks|) == Some(t)
    {
      var c := ClaimCandidate(h.tasks, name, |h.tasks|).value;
      Holder.OneOpenTaskEach(h, c, t);
    }
    hide Holder.Inv;
  }

  /** So a second claim finds nothing. */
  lemma ClaimTwice(h: Hub, name: string)
    requires Holder.Inv(h) && ClaimAssignment(h, name).response.TaskIs?
    ensures var r := ClaimAssignment(h, name).hub; ClaimAssignment(r, name) == Step(r, Nothing, {})
  {
    var t := ClaimAssignment(h, name).response.taskId;
    var r := ClaimAssignment(h, name).hub;
    forall u | 0 <= u < |r.tasks| && r.tasks[u].assignee == name ensures r.tasks[u].state != Submitted {
      if u != t && h.tasks[u].state == Submitted { Holder.OneOpenTaskEach(h, u, t); }
    }
  }

  // -- progress, questions and replies ----------------------------------------

  /** What a worker's write on a task asks for before anything else. */
  predicate MayWrite(h: Hub, t: nat, agent: string) {
    t < |h.tasks| && h.tasks[t].state in {Submitted, Working, InputRequired} && agent in h.agents
  }

  /** A note under a new id reaches the transcript and Alice word for word and stamps its author. */
  lemma ProgressDoes(h: Hub, now: int, t: nat, agent: string, note: Text, op: string)
    requires OpKey(agent, op) !in h.operations
    ensures var s := RecordProgress(h, now, t, agent, note, op);
      if !MayWrite(h, t, agent) || !note.fits then s.response.Refused? && s.hub == h && s.notified == {}
      else
        && s.response == Noted(h.agents[agent].context, t) && s.notified == {EventKey}
        && Says(h, s.hub, Message(Some(t), h.agents[agent].context, agent, ProgressNote, note.body))
        && Queues(h, s.hub, TaskProgress(t, agent, note.body))
        && s.hub.agents[agent] == h.agents[agent].(lastProgress := Some(now)) && OtherAgents(h, s.hub, agent)
        && s.hub.tasks == h.tasks && s.hub.workflow == h.workflow && s.hub.roster == h.roster
        && s.hub.decisions == h.decisions && s.hub.deliveries == h.deliveries
  {
  }

  /** A question not asked before under its message id parks its task and reaches the transcript and Alice
      word for word, who is told the row she must reply to. */
  lemma QuestionDoes(h: Hub, t: nat, agent: string, question: Text, sentAs: string)
    requires sentAs == "" || forall i :: 0 <= i < |h.messages| ==>
               h.messages[i].task == Some(t) ==> h.messages[i].kind != Question(sentAs)
    ensures var s := OpenQuestion(h, t, agent, question, sentAs);
      if !MayWrite(h, t, agent) || !question.fits then s.response.Refused? && s.hub == h && s.notified == {}
      else
        && s.response == MessageId(|h.messages|) && s.notified == {EventKey}
        && Says(h, s.hub, Message(Some(t), h.agents[agent].context, agent, Question(sentAs), question.body))
        && Queues(h, s.hub, WorkerQuestion(t, agent, question.body, |h.messages|))
        && s.hub.tasks[t] == h.tasks[t].(state := InputRequired) && OtherTasks(h, s.hub, t)
        && s.hub.(tasks := h.tasks, messages := h.messages, events := h.events) == h
  {
  }

  /** Alice can answer a question from the event that tells her of it. */
  lemma QuestionRoundTrip(h: Hub, t: nat, agent: string, question: Text, sentAs: string, answer: Text)
    requires Holder.Inv(h) && OpenQuestion(h, t, agent, question, sentAs).hub != h && answer.fits
    ensures var r := OpenQuestion(h, t, agent, question, sentAs).hub;
      && |r.events| == |h.events| + 1 && r.events[|h.events|].body.WorkerQuestion?
      && var told := r.events[|h.events|].body;
      && ReplyTo(r, told.task, answer, told.messageId).response == Flag(true)
      && PendingReply(ReplyTo(r, told.task, answer, told.messageId).hub, t, told.messageId).Some?
  {
    var r := OpenQuestion(h, t, agent, question, sentAs).hub;
    var told := r.events[|h.events|].body;
    assert Holder.TaskHeld(h, t);
    assert NewestQuestion(r.messages, t, |r.messages|) == Some(|h.messages|);
    var a := ReplyTo(r, told.task, answer, told.messageId).hub;
    assert AnswersAfter(a.messages[|r.messages|], t);
  }

  /** An applied reply reaches the worker word for word, puts the task back to work and wakes its waiter; any
      other changes nothing. */
  lemma ReplyDoes(h: Hub, t: nat, text: Text, m: nat)
    requires Holder.Inv(h)
    ensures var s := ReplyTo(h, t, text, m);
      if s.response != Flag(true) then s.hub == h && s.notified == {}
      else
        && t < |h.tasks| && h.tasks[t].state == InputRequired && h.tasks[t].assignee in h.agents
        && Says(h, s.hub, Message(Some(t), h.agents[h.tasks[t].assignee].context, "alice", Reply, text.body))
        && s.hub.tasks[t] == h.tasks[t].(state := Working) && OtherTasks(h, s.hub, t) && s.notified == {TaskKey(t)}
        && s.hub.(tasks := h.tasks, messages := h.messages) == h
  {
    if t < |h.tasks| { assert Holder.TaskHeld(h, t); }
  }

  // -- endings ----------------------------------------------------------------

  /** What counts as success. */
  predicate Succeeds(result: TaskResult) {
    || (result.ImplementerResult? && result.outcome == Finished)
    || (result.RebaseResult? && result.outcome == Finished)
    || (result.ReviewerResult? && (result.verdict == Approved || result.verdict == ChangesRequested))
  }

  /** Task `t` alone ends in the given state, and whoever held it is free. */
  predicate Ends(h: Hub, r: Hub, t: nat, state: TaskState, result: Option<StoredResult>)
    requires t < |h.tasks|
  {
    && OtherTasks(h, r, t)
    && r.tasks[t] == h.tasks[t].(state := state, leaseExpires := None, result := result)
    && r.agents.Keys == h.agents.Keys
    && forall n :: n in h.agents ==>
         if h.agents[n].currentTask == Some(t)
         then r.agents[n] == h.agents[n].(currentTask := None,
                                          status := if h.agents[n].status == Busy then Idle else h.agents[n].status)
         else r.agents[n] == h.agents[n]
  }

  /** A result under a new id ends its task completed or failed as its outcome or verdict says, keeps the
      result, and tells Alice which it was. */
  lemma ResultDoes(h: Hub, t: nat, agent: string, result: TaskResult, op: string)
    requires OpKey(agent, op) !in h.operations
    ensures var s := SubmitResult(h, t, agent, result, op);
      if !MayWrite(h, t, agent) || !result.detail.fits then s.response.Refused? && s.hub == h && s.notified == {}
      else
        && Ends(h, s.hub, t, if Succeeds(result) then Completed else Failed, Some(Typed(result)))
        && Queues(h, s.hub, if Succeeds(result) then TaskCompleted(t, agent, result) else TaskFailed(t, agent, result))
        && s.response == TaskIs(t, s.hub.tasks[t]) && s.notified == {EventKey}
  {
    hide ResultEcho;
  }

  /** And its summary, if that is not too large, reaches the transcript word for word. */
  lemma ResultTells(h: Hub, t: nat, agent: string, result: TaskResult, op: string)
    requires OpKey(agent, op) !in h.operations && MayWrite(h, t, agent) && result.detail.fits
    ensures var s := SubmitResult(h, t, agent, result, op);
      && |s.hub.messages| == |h.messages| + 1
      && var m := s.hub.messages[|h.messages|];
      && Says(h, s.hub, Message(Some(t), h.agents[agent].context, agent, ResultNote, m.text))
      && (result.detail.summary.fits ==> m.text == result.detail.summary.body)
      && s.hub.workflow == h.workflow && s.hub.roster == h.roster && s.hub.decisions == h.decisions
      && s.hub.deliveries == h.deliveries
  {
    hide TerminalStatus;
  }

  /** An override ends an open task as Alice says, failed or canceled and nothing else, with her note. */
  lemma OverrideDoes(h: Hub, t: nat, state: TaskState, note: Text)
    requires Holder.Inv(h)
    ensures var s := SetTaskState(h, t, state, note);
      if t >= |h.tasks| || h.tasks[t].state !in {Submitted, Working, InputRequired}
         || state !in {Failed, Canceled} || !note.fits
      then s.response.Refused? && s.hub == h && s.notified == {}
      else
        && h.tasks[t].assignee in h.agents
        && var context := h.agents[h.tasks[t].assignee].context;
        && Ends(h, s.hub, t, state, Some(Overridden(state, note.body)))
        && Says(h, s.hub, Message(Some(t), context, "alice", StateOverride, note.body))
        && s.response == TaskIs(t, s.hub.tasks[t]) && s.notified == {TaskKey(t), ContextKey(context)}
        && s.hub.(agents := h.agents, tasks := h.tasks, messages := h.messages) == h
  {
    if t < |h.tasks| { assert Holder.TaskHeld(h, t); }
    hide Holder.Inv;
  }

  /** A cancel ends an open task without a word, and wakes whoever waits on it or for its assignee. */
  lemma CancelDoes(h: Hub, t: nat)
    requires Holder.Inv(h)
    ensures var s := CancelTask(h, t);
      if t >= |h.tasks| || h.tasks[t].state !in {Submitted, Working, InputRequired}
      then s.response.Refused? && s.hub == h && s.notified == {}
      else
        && h.tasks[t].assignee in h.agents
        && Ends(h, s.hub, t, Canceled, None) && s.response == TaskIs(t, s.hub.tasks[t])
        && s.notified == {TaskKey(t), ContextKey(h.agents[h.tasks[t].assignee].context)}
        && s.hub.(agents := h.agents, tasks := h.tasks) == h
  {
    if t < |h.tasks| { assert Holder.TaskHeld(h, t); }
    hide Holder.Inv;
  }

  // -- the inbox --------------------------------------------------------------

  /** The event may be handed out: it waits, or the delivery that is out has expired. */
  predicate Waits(e: Event, now: int) {
    e.state == Queued || (e.state == Delivered && e.expires.Some? && e.expires.value <= now)
  }

  /** A lease hands out the oldest event that waits, under a delivery id never used before, for as long as
      asked from now on; if none waits, nothing happens. */
  lemma LeaseDoes(h: Hub, now: int, lease: int)
    ensures var s := LeaseNextEvent(h, now, lease);
      && s.notified == {} && s.hub.(events := h.events, deliveries := h.deliveries) == h
      && (s.response.Leased? || s.response == Nothing)
      && (s.response == Nothing <==> forall e :: 0 <= e < |h.events| ==> !Waits(h.events[e], now))
      && (s.response == Nothing ==> s.hub == h)
      && (s.response.Leased? ==>
            && var e, row := s.response.eventId, s.response.event;
            && e < |h.events| && Waits(h.events[e], now)
            && (forall i :: 0 <= i < e ==> !Waits(h.events[i], now))
            && row.body == h.events[e].body && row.state == Delivered && row.deliveryId == Some(|h.deliveries|)
            && row.attempts == h.events[e].attempts + 1 && row.expires == Some(now + lease)
            && s.hub.events == h.events[e := row] && s.hub.deliveries == h.deliveries + [e])
  {
    forall e | 0 <= e < |h.events| ensures Waits(h.events[e], now) <==> Eligible(h.events[e], now) {}
  }
}
