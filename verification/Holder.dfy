/** Who holds which task: open tasks and agents' current tasks are two views of one matching. */
module Holder {
  import opened HubTypes
  import opened HubSpec
  import Growth

  /** An open task is its assignee's current task. */
  ghost predicate TaskHeld(h: Hub, t: nat)
    requires t < |h.tasks|
  {
    !Terminal(h.tasks[t].state) ==>
      && h.tasks[t].assignee in h.agents
      && h.agents[h.tasks[t].assignee].currentTask == Some(t)
  }

  /** An agent's current task is open and its own; busy agents have one, idle and lost agents none. */
  ghost predicate AgentHolds(h: Hub, name: string)
    requires name in h.agents
  {
    var a := h.agents[name];
    && (a.currentTask.Some? ==> Open(h, a.currentTask.value) && h.tasks[a.currentTask.value].assignee == name)
    && (a.status == Busy ==> a.currentTask.Some?)
    && (a.status == Idle || a.status == Lost ==> a.currentTask.None?)
  }

  ghost predicate Inv(h: Hub) {
    && (forall t :: 0 <= t < |h.tasks| ==> TaskHeld(h, t))
    && (forall n :: n in h.agents ==> AgentHolds(h, n))
  }

  /** An agent never holds two open tasks. */
  lemma OneOpenTaskEach(h: Hub, t: nat, u: nat)
    requires Inv(h) && Open(h, t) && Open(h, u)
    requires h.tasks[t].assignee == h.tasks[u].assignee
    ensures t == u
  {
    assert TaskHeld(h, t) && TaskHeld(h, u);
  }

  /** What a claim hands out is the claimant's current task. */
  lemma ClaimIsCurrent(h: Hub, name: string)
    requires Inv(h) && ClaimAssignment(h, name).response.TaskIs?
    ensures name in h.agents
    ensures h.agents[name].currentTask == Some(ClaimAssignment(h, name).response.taskId)
    ensures ClaimAssignment(h, name).response.row.assignee == name
  {
    var t := ClaimCandidate(h.tasks, name, |h.tasks|);
    assert TaskHeld(h, t.value);
  }

  lemma FinishKeeps(h: Hub, t: nat, state: TaskState, result: Option<StoredResult>)
    requires Inv(h) && t < |h.tasks| && Terminal(state)
    ensures Inv(Finish(h, t, state, result))
  {
    var r := Finish(h, t, state, result);
    forall u | 0 <= u < |r.tasks| ensures TaskHeld(r, u) {
      assert TaskHeld(h, u);
    }
    forall n | n in r.agents ensures AgentHolds(r, n) {
      assert AgentHolds(h, n);
    }
  }

  /** Rows that agree on holder, state and status keep the matching. */
  lemma Frame(h: Hub, r: Hub)
    requires Inv(h) && |r.tasks| == |h.tasks| && r.agents.Keys == h.agents.Keys
    requires forall t :: 0 <= t < |h.tasks| ==>
               r.tasks[t].assignee == h.tasks[t].assignee && Terminal(r.tasks[t].state) == Terminal(h.tasks[t].state)
    requires forall n :: n in h.agents ==>
               r.agents[n].currentTask == h.agents[n].currentTask && r.agents[n].status == h.agents[n].status
    ensures Inv(r)
  {
    forall u | 0 <= u < |r.tasks| ensures TaskHeld(r, u) {
      assert TaskHeld(h, u);
    }
    forall n | n in r.agents ensures AgentHolds(r, n) {
      assert AgentHolds(h, n);
    }
  }

  lemma CheckInKeeps(h: Hub, now: int, name: string, profile: Profile, instance: Instance, op: string,
                     addr: Option<string>)
    requires Inv(h)
    ensures Inv(CheckIn(h, now, name, profile, instance, op, addr).hub)
  {
    var r := CheckIn(h, now, name, profile, instance, op, addr).hub;
    forall u | 0 <= u < |r.tasks| ensures TaskHeld(r, u) {
      assert TaskHeld(h, u);
    }
    forall n | n in r.agents ensures AgentHolds(r, n) {
      if n in h.agents { assert AgentHolds(h, n); }
    }
  }

  lemma ReleaseKeeps(h: Hub, name: string)
    requires Inv(h)
    ensures Inv(ReleaseAgent(h, name).hub)
  {
    var r := ReleaseAgent(h, name).hub;
    forall u | 0 <= u < |r.tasks| ensures TaskHeld(r, u) {
      assert TaskHeld(h, u);
    }
    forall n | n in r.agents ensures AgentHolds(r, n) {
      assert AgentHolds(h, n);
    }
  }

  lemma AssignKeeps(h: Hub, now: int, b: Brief)
    requires Inv(h)
    ensures Inv(AssignTask(h, now, b).hub)
  {
    var r := AssignTask(h, now, b).hub;
    forall u | 0 <= u < |r.tasks| ensures TaskHeld(r, u) {
      if u < |h.tasks| {
        assert TaskHeld(h, u);
        if r != h { assert AgentHolds(h, b.assignee); }
      }
    }
    forall n | n in r.agents ensures AgentHolds(r, n) {
      assert AgentHolds(h, n);
    }
  }

  lemma {:induction false} ExpireKeeps(h: Hub, now: int, k: nat)
    requires Inv(h) && k <= |h.tasks|
    ensures Inv(ExpireLeases(h, now, k)) && ExpireLeases(h, now, k).roster == h.roster
  {
    if k > 0 {
      ExpireKeeps(h, now, k - 1);
      Frame(ExpireLeases(h, now, k - 1), ExpireLeases(h, now, k));
    }
  }

  /** The agents the silence pass has not reached yet keep the rows it read up front, as long as
      the roster has no duplicates. */
  lemma {:induction false} LoseKeeps(h: Hub, cutoff: int, k: nat)
    requires Inv(h) && k <= |h.roster|
    requires Growth.Distinct(h.roster)
    ensures Inv(LoseAgents(h, cutoff, k))
    ensures LoseAgents(h, cutoff, k).agents.Keys == h.agents.Keys
    ensures forall i :: k <= i < |h.roster| && h.roster[i] in h.agents ==>
              LoseAgents(h, cutoff, k).agents[h.roster[i]] == h.agents[h.roster[i]]
  {
    if k > 0 {
      LoseKeeps(h, cutoff, k - 1);
      var prev, name := LoseAgents(h, cutoff, k - 1), h.roster[k - 1];
      if name in h.agents && Silent(h.agents[name], cutoff) {
        LoseOneKeeps(prev, name);
        assert AgentHolds(prev, name);
      }
    }
  }

  lemma LoseOneKeeps(h: Hub, name: string)
    requires Inv(h) && name in h.agents
    ensures Inv(LoseAgent(h, name, h.agents[name]))
    ensures LoseAgent(h, name, h.agents[name]).agents.Keys == h.agents.Keys
    ensures forall n :: n in h.agents && n != name ==> LoseAgent(h, name, h.agents[name]).agents[n] == h.agents[n]
  {
    var r := LoseAgent(h, name, h.agents[name]);
    assert AgentHolds(h, name);
    forall n | n in h.agents && n != name ensures r.agents[n] == h.agents[n] {
      assert AgentHolds(h, n);
    }
    forall u | 0 <= u < |r.tasks| ensures TaskHeld(r, u) {
      assert TaskHeld(h, u);
    }
    forall n | n in r.agents ensures AgentHolds(r, n) {
      assert AgentHolds(h, n);
    }
  }

  lemma ResultKeeps(h: Hub, t: nat, agent: string, result: TaskResult, op: string)
    requires Inv(h)
    ensures Inv(SubmitResult(h, t, agent, result, op).hub)
  {
    hide ResultEcho, TerminalStatus;
    var r := SubmitResult(h, t, agent, result, op).hub;
    if r != h {
      FinishKeeps(h, t, TerminalStatus(result), Some(Typed(result)));
      Frame(Finish(h, t, TerminalStatus(result), Some(Typed(result))), r);
    }
  }

  lemma OverrideKeeps(h: Hub, t: nat, state: TaskState, note: Text)
    requires Inv(h)
    ensures Inv(SetTaskState(h, t, state, note).hub)
  {
    var r := SetTaskState(h, t, state, note).hub;
    if r != h {
      FinishKeeps(h, t, state, Some(Overridden(state, note.body)));
      Frame(Finish(h, t, state, Some(Overridden(state, note.body))), r);
    }
  }

  lemma CancelKeeps(h: Hub, t: nat)
    requires Inv(h)
    ensures Inv(CancelTask(h, t).hub)
  {
    if CancelTask(h, t).hub != h { FinishKeeps(h, t, Canceled, None); }
  }

  lemma HeartbeatKeeps(h: Hub, now: int, name: string, instance: Instance, current: Option<nat>,
                       addr: Option<string>)
    requires Inv(h)
    ensures Inv(Heartbeat(h, now, name, instance, current, addr).hub)
  {
    Frame(h, Heartbeat(h, now, name, instance, current, addr).hub);
  }

  lemma ClaimKeeps(h: Hub, name: string)
    requires Inv(h)
    ensures Inv(ClaimAssignment(h, name).hub)
  {
    Frame(h, ClaimAssignment(h, name).hub);
  }

  lemma ProgressKeeps(h: Hub, now: int, t: nat, agent: string, note: Text, op: string)
    requires Inv(h)
    ensures Inv(RecordProgress(h, now, t, agent, note, op).hub)
  {
    Frame(h, RecordProgress(h, now, t, agent, note, op).hub);
  }

  lemma QuestionKeeps(h: Hub, t: nat, agent: string, question: Text, sentAs: string)
    requires Inv(h)
    ensures Inv(OpenQuestion(h, t, agent, question, sentAs).hub)
  {
    Frame(h, OpenQuestion(h, t, agent, question, sentAs).hub);
  }

  lemma ReplyKeeps(h: Hub, t: nat, text: Text, messageId: nat)
    requires Inv(h)
    ensures Inv(ReplyTo(h, t, text, messageId).hub)
  {
    Frame(h, ReplyTo(h, t, text, messageId).hub);
  }

  lemma SweepKeeps(h: Hub, now: int, lostAfter: int)
    requires Inv(h) && Growth.Distinct(h.roster)
    ensures Inv(Sweep(h, now, lostAfter).hub)
  {
    ExpireKeeps(h, now, |h.tasks|);
    var h1 := ExpireLeases(h, now, |h.tasks|);
    LoseKeeps(h1, now - lostAfter, |h1.roster|);
  }

  lemma AuditKeeps(h: Hub, now: int, call: Call)
    requires Inv(h)
    requires call.DoInitialize? || call.DoStatus? || call.DoDecision? || call.DoLease? || call.DoAck?
    ensures Inv(Apply(h, now, call).hub)
  {
    hide Inv;
    Frame(h, Apply(h, now, call).hub);
  }

  /** Every call keeps the matching, at any clock reading. */
  lemma StepKeeps(h: Hub, now: int, call: Call)
    requires Inv(h) && Growth.Distinct(h.roster)
    ensures Inv(Apply(h, now, call).hub)
  {
    hide Inv;
    match call
    case DoSweep(lostAfter) => SweepKeeps(h, now, lostAfter);
    case DoCheckIn(name, profile, instance, op, addr) => CheckInKeeps(h, now, name, profile, instance, op, addr);
    case DoRelease(name) => ReleaseKeeps(h, name);
    case DoAssign(brief) => AssignKeeps(h, now, brief);
    case DoResult(task, name, result, op) => ResultKeeps(h, task, name, result, op);
    case DoOverride(task, state, text) => OverrideKeeps(h, task, state, text);
    case DoCancel(task) => CancelKeeps(h, task);
    case DoHeartbeat(name, instance, current, addr) => HeartbeatKeeps(h, now, name, instance, current, addr);
    case DoClaim(name) => ClaimKeeps(h, name);
    case DoProgress(task, name, note, op) => ProgressKeeps(h, now, task, name, note, op);
    case DoQuestion(task, name, note, sentAs) => QuestionKeeps(h, task, name, note, sentAs);
    case DoReply(task, text, messageId) => ReplyKeeps(h, task, text, messageId);
    case _ => AuditKeeps(h, now, call);
  }
}
