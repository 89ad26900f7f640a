/** What Alice is told is so: every event ever queued is borne out by the tables, then and ever after. */
module Truth {
  import opened HubTypes
  import opened HubSpec
  import Growth
  import HubRuns
  import Replays
  import Outcomes
  import Sweeping

  /** A row of the transcript by this sender on this task. */
  predicate Said(m: Message, t: nat, sender: string, text: string) {
    m.task == Some(t) && m.sender == sender && m.text == text
  }

  ghost predicate IsTrue(h: Hub, body: EventBody) {
    match body
    case AgentCheckedIn(agent, context, _, _) => context < |h.roster| && h.roster[context] == agent
    case TaskProgress(t, agent, note) =>
      exists i :: 0 <= i < |h.messages| && Said(h.messages[i], t, agent, note) && h.messages[i].kind == ProgressNote
    case TaskCompleted(t, _, result) =>
      t < |h.tasks| && h.tasks[t].state == Completed && h.tasks[t].result == Some(Typed(result))
      && Outcomes.Succeeds(result)
    case TaskFailed(t, _, result) =>
      t < |h.tasks| && h.tasks[t].state == Failed && h.tasks[t].result == Some(Typed(result))
      && !Outcomes.Succeeds(result)
    case WorkerQuestion(t, agent, question, m) =>
      m < |h.messages| && Said(h.messages[m], t, agent, question) && h.messages[m].kind.Question?
    case LeaseExpired(t, agent, _) => t < |h.tasks| && h.tasks[t].assignee == agent
    case AgentLost(agent, lost, _) =>
      lost.Some? ==> lost.value < |h.tasks| && h.tasks[lost.value].assignee == agent
                     && h.tasks[lost.value].state == Failed && h.tasks[lost.value].result == Some(WorkerLost(agent))
  }

  ghost predicate Inv(h: Hub) {
    forall e :: 0 <= e < |h.events| ==> IsTrue(h, h.events[e].body)
  }

  lemma TrueStays(h: Hub, r: Hub, body: EventBody)
    requires Growth.Extends(h, r) && IsTrue(h, body)
    ensures IsTrue(r, body)
  {
    if body.TaskProgress? {
      var i :| 0 <= i < |h.messages| && Said(h.messages[i], body.task, body.agent, body.note)
               && h.messages[i].kind == ProgressNote;
      assert r.messages[i] == h.messages[i];
    }
    if body.LeaseExpired? { assert Growth.SameTerms(h.tasks[body.task], r.tasks[body.task]); }
  }

  /** Of the workers' calls these queue no event, and neither does any of Alice's. */
  lemma NoNews(h: Hub, now: int, call: Call)
    requires call.DoInitialize? || call.DoStatus? || call.DoDecision? || call.DoHeartbeat? || call.DoRelease?
             || call.DoAssign? || call.DoClaim? || call.DoReply? || call.DoOverride? || call.DoCancel?
             || call.DoLease? || call.DoAck?
    ensures |Apply(h, now, call).hub.events| == |h.events|
  {
  }

  /** The events a call adds are true when it commits. */
  ghost predicate AddsTrue(h: Hub, r: Hub) {
    forall e :: |h.events| <= e < |r.events| ==> IsTrue(r, r.events[e].body)
  }

  lemma OneTrue(h: Hub, r: Hub, body: EventBody)
    requires Outcomes.Queues(h, r, body) && IsTrue(r, body)
    ensures AddsTrue(h, r)
  {
    hide IsTrue;
  }

  lemma NoneAdded(h: Hub)
    ensures AddsTrue(h, h)
  {
  }

  lemma CheckInTrue(h: Hub, now: int, name: string, profile: Profile, instance: Instance, op: string,
                    addr: Option<string>)
    requires HubRuns.Inv(h)
    ensures AddsTrue(h, CheckIn(h, now, name, profile, instance, op, addr).hub)
  {
    var call := DoCheckIn(name, profile, instance, op, addr);
    assert Apply(h, now, call) == CheckIn(h, now, name, profile, instance, op, addr);
    hide Apply, CheckIn, HubRuns.Inv, AddsTrue;
    NoneAdded(h);
    var s := CheckIn(h, now, name, profile, instance, op, addr);
    if OpKey(name, op) in h.operations {
      Replays.ReplayChangesNothing(h, now, call);
    } else {
      Outcomes.CheckInActsIff(h, now, name, profile, instance, op, addr);
      if s.response.Registered? {
        Outcomes.CheckInTells(h, now, name, profile, instance, op, addr);
        HubRuns.StepKeeps(h, now, call);
        Named(s.hub, name);
        OneTrue(h, s.hub, AgentCheckedIn(name, s.hub.agents[name].context, instance, profile));
      }
    }
  }

  lemma Named(h: Hub, name: string)
    requires HubRuns.Inv(h) && name in h.agents
    ensures h.agents[name].context < |h.roster| && h.roster[h.agents[name].context] == name
  {
    assert HubRuns.AgentHistory.Seated(h, name);
  }

  lemma ProgressTrue(h: Hub, now: int, t: nat, agent: string, note: Text, op: string)
    ensures AddsTrue(h, RecordProgress(h, now, t, agent, note, op).hub)
  {
    var r := RecordProgress(h, now, t, agent, note, op).hub;
    if OpKey(agent, op) !in h.operations {
      Outcomes.ProgressDoes(h, now, t, agent, note, op);
      if r != h { assert Said(r.messages[|h.messages|], t, agent, note.body); }
    }
  }

  lemma QuestionTrue(h: Hub, t: nat, agent: string, question: Text, sentAs: string)
    ensures AddsTrue(h, OpenQuestion(h, t, agent, question, sentAs).hub)
  {
  }

  lemma EndedAs(h: Hub, r: Hub, t: nat, state: TaskState, result: Option<StoredResult>)
    requires t < |h.tasks| && Outcomes.Ends(h, r, t, state, result)
    ensures t < |r.tasks| && r.tasks[t].state == state && r.tasks[t].result == result
  {
  }

  lemma NewResultTrue(h: Hub, t: nat, agent: string, result: TaskResult, op: string)
    requires OpKey(agent, op) !in h.operations && Outcomes.MayWrite(h, t, agent) && result.detail.fits
    ensures AddsTrue(h, SubmitResult(h, t, agent, result, op).hub)
  {
    hide SubmitResult, AddsTrue, Outcomes.Ends, Outcomes.Succeeds;
    var r := SubmitResult(h, t, agent, result, op).hub;
    Outcomes.ResultDoes(h, t, agent, result, op);
    EndedAs(h, r, t, if Outcomes.Succeeds(result) then Completed else Failed, Some(Typed(result)));
    OneTrue(h, r, if Outcomes.Succeeds(result) then TaskCompleted(t, agent, result) else TaskFailed(t, agent, result));
  }

  lemma ResultTrue(h: Hub, t: nat, agent: string, result: TaskResult, op: string)
    ensures AddsTrue(h, SubmitResult(h, t, agent, result, op).hub)
  {
    var call := DoResult(t, agent, result, op);
    assert Apply(h, 0, call) == SubmitResult(h, t, agent, result, op);
    hide Apply, SubmitResult, AddsTrue, Outcomes.MayWrite, Outcomes.Ends;
    NoneAdded(h);
    if OpKey(agent, op) in h.operations {
      Replays.ReplayChangesNothing(h, 0, call);
    } else if Outcomes.MayWrite(h, t, agent) && result.detail.fits {
      NewResultTrue(h, t, agent, result, op);
    } else {
      Outcomes.ResultDoes(h, t, agent, result, op);
    }
  }

  lemma SweepTrue(h: Hub, now: int, lostAfter: int)
    requires HubRuns.Inv(h)
    ensures AddsTrue(h, Sweep(h, now, lostAfter).hub)
  {
    var r := Sweep(h, now, lostAfter).hub;
    Sweeping.SweepTells(h, now, lostAfter);
    forall e | |h.events| <= e < |r.events| ensures IsTrue(r, r.events[e].body) {
      assert Sweeping.News(h, r, now, e);
      var body := r.events[e].body;
      if body.LeaseExpired? {
        Sweeping.SweepTasks(h, now, lostAfter, body.task);
      } else {
        LostTask(h, now, lostAfter, body.agent);
      }
    }
  }

  /** The task an agent held when it was lost failed with it. */
  lemma LostTask(h: Hub, now: int, lostAfter: int, n: string)
    requires HubRuns.Inv(h) && n in h.agents && h.agents[n].status != Lost
    requires n in Sweep(h, now, lostAfter).hub.agents && Sweep(h, now, lostAfter).hub.agents[n].status == Lost
    ensures IsTrue(Sweep(h, now, lostAfter).hub, AgentLost(n, h.agents[n].currentTask, h.agents[n].lastHeartbeat))
  {
    assert HubRuns.Holder.AgentHolds(h, n);
    if h.agents[n].currentTask.Some? {
      Sweeping.SweepTasks(h, now, lostAfter, h.agents[n].currentTask.value);
    }
  }

  lemma StepAddsTrue(h: Hub, now: int, call: Call)
    requires HubRuns.Inv(h)
    ensures AddsTrue(h, Apply(h, now, call).hub)
  {
    hide HubRuns.Inv, AddsTrue;
    match call
    case DoCheckIn(name, profile, instance, op, addr) => CheckInTrue(h, now, name, profile, instance, op, addr);
    case DoProgress(task, name, note, op) => ProgressTrue(h, now, task, name, note, op);
    case DoQuestion(task, name, note, sentAs) => QuestionTrue(h, task, name, note, sentAs);
    case DoResult(task, name, result, op) => ResultTrue(h, task, name, result, op);
    case DoSweep(lostAfter) => SweepTrue(h, now, lostAfter);
    case _ => NothingAdded(h, now, call);
  }

  lemma NothingAdded(h: Hub, now: int, call: Call)
    requires !call.DoCheckIn? && !call.DoProgress? && !call.DoQuestion? && !call.DoResult? && !call.DoSweep?
    ensures AddsTrue(h, Apply(h, now, call).hub)
  {
    NoNews(h, now, call);
    hide Apply;
  }

  lemma StepKeeps(h: Hub, now: int, call: Call)
    requires HubRuns.Inv(h) && Inv(h)
    ensures Inv(Apply(h, now, call).hub)
  {
    hide Apply, HubRuns.Inv, Growth.TasksExtend, Growth.AgentsExtend;
    var r := Apply(h, now, call).hub;
    HubRuns.StepExtends(h, now, call);
    StepAddsTrue(h, now, call);
    forall e | 0 <= e < |r.events| ensures IsTrue(r, r.events[e].body) {
      if e < |h.events| { TrueStays(h, r, h.events[e].body); }
    }
  }

  /** In any run every event on record is true, whether read or not. */
  lemma {:induction false} AlwaysTrue(trace: seq<Timed>)
    ensures Inv(Run(EMPTY, trace))
  {
    if trace != [] {
      var n := |trace| - 1;
      AlwaysTrue(trace[..n]);
      HubRuns.Reachable(trace[..n]);
      StepKeeps(Run(EMPTY, trace[..n]), trace[n].now, trace[n].call);
    }
  }
}
