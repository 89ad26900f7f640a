/** Claims over whole runs: any calls, in any order, at any clock readings, from the empty hub. */
module HubRuns {
  import opened HubTypes
  import opened HubSpec
  import Growth
  import AgentHistory
  import Holder
  import Leases
  import Questions
  import Endings
  import Deliveries
  import Redelivery
  import Store

  /** Everything the tables promise one another. */
  ghost predicate Inv(h: Hub) {
    && AgentHistory.Inv(h)
    && Holder.Inv(h)
    && Leases.Inv(h)
    && Questions.Inv(h)
    && Endings.Inv(h)
    && Deliveries.Inv(h)
    && Redelivery.Inv(h)
  }

  lemma StepKeeps(h: Hub, now: int, call: Call)
    requires Inv(h)
    ensures Inv(Apply(h, now, call).hub)
  {
    AgentHistory.StepKeeps(h, now, call);
    Holder.StepKeeps(h, now, call);
    Leases.StepKeeps(h, now, call);
    Questions.StepKeeps(h, now, call);
    Endings.StepKeeps(h, now, call);
    Deliveries.StepKeeps(h, now, call);
    Redelivery.StepKeeps(h, now, call);
  }

  lemma EmptyInv()
    ensures Inv(EMPTY)
  {
  }

  lemma {:induction false} RunKeeps(h: Hub, trace: seq<Timed>)
    requires Inv(h)
    ensures Inv(Run(h, trace))
  {
    if trace != [] {
      var n := |trace| - 1;
      RunKeeps(h, trace[..n]);
      StepKeeps(Run(h, trace[..n]), trace[n].now, trace[n].call);
    }
  }

  /** Every reachable state satisfies the invariant. */
  lemma Reachable(trace: seq<Timed>)
    ensures Inv(Run(EMPTY, trace))
  {
    EmptyInv();
    RunKeeps(EMPTY, trace);
  }

  lemma StepExtends(h: Hub, now: int, call: Call)
    requires Inv(h)
    ensures Growth.Extends(h, Apply(h, now, call).hub)
  {
    Growth.StepExtends(h, now, call);
  }

  lemma {:induction false} RunExtends(h: Hub, trace: seq<Timed>)
    requires Inv(h)
    ensures Growth.Extends(h, Run(h, trace))
  {
    if trace != [] {
      var n := |trace| - 1;
      var mid := Run(h, trace[..n]);
      RunExtends(h, trace[..n]);
      RunKeeps(h, trace[..n]);
      StepExtends(mid, trace[n].now, trace[n].call);
      Growth.Transitive(h, mid, Run(h, trace));
    }
  }

  // -- tasks ------------------------------------------------------------------

  /** In every reachable state an agent's open tasks are exactly its current task, if it has one; busy
      agents have one, idle and lost agents none. */
  lemma HoldersMatch(trace: seq<Timed>, name: string, t: nat)
    requires name in Run(EMPTY, trace).agents
    ensures var h := Run(EMPTY, trace);
      var a := h.agents[name];
      && (Open(h, t) && h.tasks[t].assignee == name <==> a.currentTask == Some(t))
      && (a.status == Busy ==> a.currentTask.Some?)
      && (a.status == Idle || a.status == Lost ==> a.currentTask.None?)
  {
    Reachable(trace);
    var h := Run(EMPTY, trace);
    assert Holder.AgentHolds(h, name);
    if t < |h.tasks| { assert Holder.TaskHeld(h, t); }
  }

  /** In every reachable state, whatever the clock has done: an open task's lease ends no later than its
      cap, and its expiry has been reported once if the lease is gone and never if it is held. No task
      is ever reported twice. */
  lemma LeasesBounded(trace: seq<Timed>, t: nat)
    requires t < |Run(EMPTY, trace).tasks|
    ensures var h := Run(EMPTY, trace);
      var task, reports := h.tasks[t], Leases.Reports(h.events, t, |h.events|);
      && reports <= 1
      && (Open(h, t) && task.leaseExpires.Some? ==> reports == 0 && task.leaseExpires.value <= task.created + Cap(h))
      && (Open(h, t) && task.leaseExpires.None? ==> reports == 1)
  {
    Reachable(trace);
    assert Leases.RowOk(Run(EMPTY, trace), t);
  }

  // -- redelivery -------------------------------------------------------------

  /** Alice acts on an event, the hub goes on through any run, and the event comes again: repeating the
      action leaves the hub exactly as it is. Only an action that set the workflow status could be undone
      in between, by setting it otherwise. */
  lemma RedeliveryIsHarmless(h: Hub, now: int, action: Call, between: seq<Timed>, now': int)
    requires Inv(h) && Redelivery.EventAction(action) && Redelivery.Took(Apply(h, now, action).response)
    requires action.DoStatus? ==> forall i :: 0 <= i < |between| ==> !between[i].call.DoStatus?
    ensures var later := Run(Apply(h, now, action).hub, between); Apply(later, now', action).hub == later
  {
    if action.DoStatus? { StatusTook(h, now, action); }
    hide Run, Apply, Growth.Extends, Redelivery.Took, Redelivery.EventAction;
    var first := Apply(h, now, action).hub;
    StepKeeps(h, now, action);
    RunKeeps(first, between);
    RunExtends(first, between);
    if action.DoStatus? { Redelivery.StatusStands(first, between); }
    Redelivery.ActAgain(h, now, action, Run(first, between), now');
  }

  lemma StatusTook(h: Hub, now: int, action: Call)
    requires action.DoStatus? && Redelivery.Took(Apply(h, now, action).response)
    ensures var r := Apply(h, now, action).hub; r.workflow.Some? && r.workflow.value.status == action.status
  {
  }

  lemma {:induction false} RunSplit(h: Hub, a: seq<Timed>, b: seq<Timed>)
    ensures Run(h, a + b) == Run(Run(h, a), b)
  {
    if b == [] {
      assert a + b == a;
    } else {
      var n := |b| - 1;
      assert (a + b)[..|a + b| - 1] == a + b[..n];
      RunSplit(h, a, b[..n]);
    }
  }

  /** Call `i` of the run was this action, it took effect, and no later call set the workflow status. */
  ghost predicate ActedAt(trace: seq<Timed>, action: Call, i: nat) {
    && i < |trace| && trace[i].call == action
    && Redelivery.Took(Apply(Run(EMPTY, trace[..i]), trace[i].now, action).response)
    && (action.DoStatus? ==> forall j :: i < j < |trace| ==> !trace[j].call.DoStatus?)
  }

  lemma ActedStands(trace: seq<Timed>, action: Call, i: nat, now: int)
    requires Redelivery.EventAction(action) && ActedAt(trace, action, i)
    ensures Apply(Run(EMPTY, trace), now, action).hub == Run(EMPTY, trace)
  {
    var h, after := Run(EMPTY, trace[..i]), trace[i + 1..];
    assert Run(EMPTY, trace[..i + 1]) == Apply(h, trace[i].now, action).hub by {
      assert trace[..i + 1][..i] == trace[..i];
    }
    hide Run, Apply, Inv, Redelivery.Took, Redelivery.EventAction;
    assert trace[..i + 1] + after == trace;
    RunSplit(EMPTY, trace[..i + 1], after);
    Reachable(trace[..i]);
    RedeliveryIsHarmless(h, trace[i].now, action, after, now);
  }

  /** What Alice does for one event may be several calls, cut short by a crash and taken up again. Once
      each of them has taken effect somewhere in the run, going through all of them again leaves the hub
      exactly as it is. */
  lemma {:induction false} ScriptAgain(trace: seq<Timed>, script: seq<Timed>, at: seq<nat>)
    requires |at| == |script|
    requires forall k :: 0 <= k < |script| ==>
               Redelivery.EventAction(script[k].call) && ActedAt(trace, script[k].call, at[k])
    ensures Run(Run(EMPTY, trace), script) == Run(EMPTY, trace)
  {
    if script != [] {
      var n := |script| - 1;
      ScriptAgain(trace, script[..n], at[..n]);
      ActedStands(trace, script[n].call, at[n], script[n].now);
    }
  }

  /** Taken up again from the start after only its first `n` actions took effect, the script does what
      the rest of it alone would do. */
  lemma ScriptResumed(trace: seq<Timed>, script: seq<Timed>, at: seq<nat>, n: nat)
    requires |at| == n <= |script|
    requires forall k :: 0 <= k < n ==> Redelivery.EventAction(script[k].call) && ActedAt(trace, script[k].call, at[k])
    ensures Run(Run(EMPTY, trace), script) == Run(Run(EMPTY, trace), script[n..])
  {
    hide Run, Apply, ActedAt, Redelivery.EventAction;
    ScriptAgain(trace, script[..n], at);
    RunSplit(Run(EMPTY, trace), script[..n], script[n..]);
    assert script[..n] + script[n..] == script;
  }

  /** However often and however late a question is sent again under its message id, the hub answers with
      the row it made the first time and adds nothing, as long as the task is open. */
  lemma QuestionAskedOnce(h: Hub, t: nat, agent: string, question: Text, sentAs: string,
                          between: seq<Timed>, again: Text)
    requires Inv(h) && sentAs != "" && OpenQuestion(h, t, agent, question, sentAs).response.MessageId?
    ensures var first := OpenQuestion(h, t, agent, question, sentAs);
      var later := Run(first.hub, between);
      Open(later, t) ==> OpenQuestion(later, t, agent, again, sentAs) == Step(later, first.response, {})
  {
    var first := OpenQuestion(h, t, agent, question, sentAs).hub;
    assert Apply(h, 0, DoQuestion(t, agent, question, sentAs)).hub == first && agent in first.agents;
    hide Run, Apply, OpenQuestion, Growth.TasksExtend, Growth.EventsExtend;
    var later := Run(first, between);
    assert Inv(later) && Growth.Extends(first, later) by {
      hide Inv, Growth.Extends;
      StepKeeps(h, 0, DoQuestion(t, agent, question, sentAs));
      RunKeeps(first, between);
      RunExtends(first, between);
    }
    if Open(later, t) { Questions.AskedAgain(h, t, agent, question, sentAs, later, again); }
  }

  // -- agents -----------------------------------------------------------------

  /** An agent once released stays released, and no task is ever assigned to it again. */
  lemma {:induction false} ReleasedForGood(h: Hub, trace: seq<Timed>, name: string)
    requires Inv(h) && name in h.agents && h.agents[name].status == Released
    ensures var r := Run(h, trace);
      && name in r.agents && r.agents[name].status == Released
      && |h.tasks| <= |r.tasks|
      && forall t :: |h.tasks| <= t < |r.tasks| ==> r.tasks[t].assignee != name
  {
    if trace != [] {
      var n := |trace| - 1;
      var mid := Run(h, trace[..n]);
      ReleasedForGood(h, trace[..n], name);
      RunKeeps(h, trace[..n]);
      ReleasedStep(mid, trace[n].now, trace[n].call, name);
    }
  }

  lemma ReleasedStep(h: Hub, now: int, call: Call, name: string)
    requires Inv(h) && name in h.agents && h.agents[name].status == Released
    ensures var r := Apply(h, now, call).hub;
      && name in r.agents && r.agents[name].status == Released
      && |h.tasks| <= |r.tasks|
      && (forall t :: 0 <= t < |h.tasks| ==> r.tasks[t].assignee == h.tasks[t].assignee)
      && (forall t :: |h.tasks| <= t < |r.tasks| ==> r.tasks[t].assignee != name)
  {
    hide Inv;
    var r := Apply(h, now, call).hub;
    StepExtends(h, now, call);
    if call.DoAssign? {
      AssignsToIdle(h, now, call.brief);
    } else {
      Redelivery.OnlyAssignAdds(h, now, call);
    }
    forall t | 0 <= t < |h.tasks| ensures r.tasks[t].assignee == h.tasks[t].assignee {
      assert Growth.SameTerms(h.tasks[t], r.tasks[t]);
    }
  }

  lemma AssignsToIdle(h: Hub, now: int, b: Brief)
    ensures var r := AssignTask(h, now, b).hub;
      r.tasks == h.tasks || (|r.tasks| == |h.tasks| + 1 && r.tasks[|h.tasks|].assignee == b.assignee
                             && b.assignee in h.agents && h.agents[b.assignee].status == Idle)
  {
  }

  /** Between two losses of one agent, in any run, lies a check-in of it. */
  lemma LossesAlternate(trace: seq<Timed>, name: string, i: nat, j: nat)
    requires i < j < |Run(EMPTY, trace).events|
    requires AgentHistory.IsLoss(Run(EMPTY, trace).events[i].body, name)
    requires AgentHistory.IsLoss(Run(EMPTY, trace).events[j].body, name)
    ensures exists k :: i < k < j && AgentHistory.IsCheckIn(Run(EMPTY, trace).events[k].body, name)
  {
    Reachable(trace);
    AgentHistory.LossesAlternate(Run(EMPTY, trace).events, name, i, j);
  }

  // -- sweeping twice ---------------------------------------------------------

  lemma {:induction false} NothingOverdue(h: Hub, now: int, k: nat)
    requires k <= |h.tasks| && forall t :: 0 <= t < |h.tasks| ==> !Overdue(h.tasks[t], now)
    ensures ExpireLeases(h, now, k) == h
  {
    if k > 0 { NothingOverdue(h, now, k - 1); }
  }

  lemma {:induction false} NobodySilent(h: Hub, cutoff: int, k: nat)
    requires k <= |h.roster| && forall n :: n in h.agents ==> !Silent(h.agents[n], cutoff)
    ensures LoseAgents(h, cutoff, k) == h
  {
    if k > 0 { NobodySilent(h, cutoff, k - 1); }
  }

  /** Whoever is still silent after the pass has visited `k` agents comes later on the roster. */
  lemma {:induction false} SilentAreLater(h: Hub, cutoff: int, k: nat, name: string)
    requires AgentHistory.RosterOk(h) && k <= |h.roster| && name in h.agents
    requires name in LoseAgents(h, cutoff, k).agents && Silent(LoseAgents(h, cutoff, k).agents[name], cutoff)
    ensures Silent(h.agents[name], cutoff) && h.agents[name].context >= k
  {
    assert AgentHistory.Seated(h, name);
    if k > 0 { SilentAreLater(h, cutoff, k - 1, name); }
  }

  /** A second sweep at the same instant queues nothing and changes nothing. */
  lemma SweepTwice(h: Hub, now: int, lostAfter: int)
    requires Inv(h)
    ensures var r := Sweep(h, now, lostAfter).hub;
      Sweep(r, now, lostAfter) == Step(r, Swept(|r.events|, |r.events|), {})
  {
    var r := Sweep(h, now, lostAfter).hub;
    assert ExpireLeases(r, now, |r.tasks|) == r by {
      Leases.SweepKeeps(h, now, lostAfter);
      NothingOverdue(r, now, |r.tasks|);
    }
    SweepSilencesNobodyTwice(h, now, lostAfter);
  }

  lemma SweepSilencesNobodyTwice(h: Hub, now: int, lostAfter: int)
    requires AgentHistory.Inv(h)
    ensures var r := Sweep(h, now, lostAfter).hub; LoseAgents(r, now - lostAfter, |r.roster|) == r
  {
    var h1 := ExpireLeases(h, now, |h.tasks|);
    var r, cutoff := Sweep(h, now, lostAfter).hub, now - lostAfter;
    assert AgentHistory.RosterOk(h1) by { AgentHistory.ExpireKeeps(h, now, |h.tasks|); }
    SameAgents(h1, cutoff, |h1.roster|);
    forall n | n in r.agents ensures !Silent(r.agents[n], cutoff) {
      assert AgentHistory.Seated(h1, n);
      if Silent(r.agents[n], cutoff) { SilentAreLater(h1, cutoff, |h1.roster|, n); }
    }
    NobodySilent(r, cutoff, |r.roster|);
  }

  lemma {:induction false} SameAgents(h: Hub, cutoff: int, k: nat)
    requires k <= |h.roster|
    ensures LoseAgents(h, cutoff, k).agents.Keys == h.agents.Keys
  {
    if k > 0 { SameAgents(h, cutoff, k - 1); }
  }

  // -- the books --------------------------------------------------------------

  /** Cancels that were carried out along a run. */
  function CancelsIn(h: Hub, trace: seq<Timed>): nat {
    if trace == [] then 0
    else
      var n := |trace| - 1;
      var mid := Run(h, trace[..n]);
      CancelsIn(h, trace[..n])
      + Endings.Bit(trace[n].call.DoCancel? && !Apply(mid, trace[n].now, trace[n].call).response.Refused?)
  }

  lemma {:induction false} CancelsCounted(h: Hub, trace: seq<Timed>)
    requires Inv(h)
    ensures Endings.PlainCancels(Run(h, trace).tasks, |Run(h, trace).tasks|) ==
            Endings.PlainCancels(h.tasks, |h.tasks|) + CancelsIn(h, trace)
  {
    if trace != [] {
      var n := |trace| - 1;
      CancelsCounted(h, trace[..n]);
      RunKeeps(h, trace[..n]);
      CancelStep(Run(h, trace[..n]), trace[n].now, trace[n].call);
    }
  }

  /** One row may become a bare cancel; the count follows. */
  lemma {:induction false} CancelRows(a: seq<Task>, b: seq<Task>, t: nat, n: nat)
    requires n <= |a| && n <= |b|
    requires forall u :: 0 <= u < n && u != t ==> Endings.CanceledPlainly(a[u]) == Endings.CanceledPlainly(b[u])
    requires t < n ==> !Endings.CanceledPlainly(a[t]) && Endings.CanceledPlainly(b[t])
    ensures Endings.PlainCancels(b, n) == Endings.PlainCancels(a, n) + Endings.Bit(t < n)
  {
    if n > 0 { CancelRows(a, b, t, n - 1); }
  }

  lemma {:induction false} NewRowsAreOpen(ts: seq<Task>, n: nat, k: nat)
    requires n <= k <= |ts| && forall t :: n <= t < k ==> !Endings.CanceledPlainly(ts[t])
    ensures Endings.PlainCancels(ts, k) == Endings.PlainCancels(ts, n)
    decreases k
  {
    if n < k { NewRowsAreOpen(ts, n, k - 1); }
  }

  /** No other call produces a canceled row without a result. */
  lemma OnlyCancelCancels(h: Hub, now: int, call: Call)
    requires Inv(h) && !call.DoCancel?
    ensures var r := Apply(h, now, call).hub;
      && |h.tasks| <= |r.tasks|
      && (forall t :: 0 <= t < |h.tasks| ==> Endings.CanceledPlainly(r.tasks[t]) == Endings.CanceledPlainly(h.tasks[t]))
      && (forall t :: |h.tasks| <= t < |r.tasks| ==> !Endings.CanceledPlainly(r.tasks[t]))
  {
    hide Inv;
    match call
    case DoResult(task, name, result, op) => ResultHasResult(h, task, name, result, op);
    case DoOverride(task, state, text) => OverrideHasResult(h, task, state, text);
    case DoSweep(lostAfter) =>
      SweepCancelsNothing(h, now, |h.tasks|);
      var h1 := ExpireLeases(h, now, |h.tasks|);
      LoseCancelsNothing(h1, now - lostAfter, |h1.roster|);
    case DoAssign(brief) => Endings.AssignQuiet(h, now, brief);
    case DoHeartbeat(name, instance, current, addr) => Endings.HeartbeatQuiet(h, now, name, instance, current, addr);
    case DoQuestion(task, name, note, sentAs) => Endings.QuestionQuiet(h, task, name, note, sentAs);
    case DoReply(task, text, messageId) => Endings.ReplyQuiet(h, task, text, messageId);
    case DoClaim(name) => Endings.ClaimQuiet(h, name);
    case _ => Growth.PlainCalls(h, now, call);
  }

  lemma OverrideHasResult(h: Hub, t: nat, state: TaskState, note: Text)
    ensures var r := SetTaskState(h, t, state, note).hub;
      |r.tasks| == |h.tasks| &&
      forall u :: 0 <= u < |h.tasks| ==> Endings.CanceledPlainly(r.tasks[u]) == Endings.CanceledPlainly(h.tasks[u])
  {
  }

  lemma ResultHasResult(h: Hub, t: nat, agent: string, result: TaskResult, op: string)
    ensures var r := SubmitResult(h, t, agent, result, op).hub;
      |r.tasks| == |h.tasks| &&
      forall u :: 0 <= u < |h.tasks| ==> Endings.CanceledPlainly(r.tasks[u]) == Endings.CanceledPlainly(h.tasks[u])
  {
    hide ResultEcho, TerminalStatus;
  }

  lemma {:induction false} SweepCancelsNothing(h: Hub, now: int, k: nat)
    requires k <= |h.tasks|
    ensures forall t :: 0 <= t < |h.tasks| ==>
              Endings.CanceledPlainly(ExpireLeases(h, now, k).tasks[t]) == Endings.CanceledPlainly(h.tasks[t])
  {
    if k > 0 { SweepCancelsNothing(h, now, k - 1); }
  }

  lemma {:induction false} LoseCancelsNothing(h: Hub, cutoff: int, k: nat)
    requires k <= |h.roster|
    ensures |LoseAgents(h, cutoff, k).tasks| == |h.tasks|
    ensures forall t :: 0 <= t < |h.tasks| ==>
              Endings.CanceledPlainly(LoseAgents(h, cutoff, k).tasks[t]) == Endings.CanceledPlainly(h.tasks[t])
  {
    if k > 0 { LoseCancelsNothing(h, cutoff, k - 1); }
  }

  lemma CancelStep(h: Hub, now: int, call: Call)
    requires Inv(h)
    ensures var r := Apply(h, now, call).hub;
      Endings.PlainCancels(r.tasks, |r.tasks|) ==
      Endings.PlainCancels(h.tasks, |h.tasks|)
      + Endings.Bit(call.DoCancel? && !Apply(h, now, call).response.Refused?)
  {
    hide Inv;
    var r := Apply(h, now, call).hub;
    if call.DoCancel? {
      Endings.CancelEnds(h, call.task);
      if r != h { CancelRows(h.tasks, r.tasks, call.task, |h.tasks|); }
    } else {
      OnlyCancelCancels(h, now, call);
      CancelRows(h.tasks, r.tasks, |h.tasks|, |h.tasks|);
      NewRowsAreOpen(r.tasks, |h.tasks|, |r.tasks|);
    }
  }

  /** In any run, the tasks that ended are as many as completion and failure events, losses that took a
      task, overrides in the transcript, and cancels carried out. */
  lemma EveryEndingAccountedFor(trace: seq<Timed>)
    ensures var h := Run(EMPTY, trace);
      Endings.EndedTasks(h.tasks, |h.tasks|) ==
      Endings.EndingEvents(h.events, |h.events|) + Endings.AllOverrides(h.messages, |h.messages|)
      + CancelsIn(EMPTY, trace)
  {
    Reachable(trace);
    EmptyInv();
    Endings.BooksBalance(Run(EMPTY, trace));
    CancelsCounted(EMPTY, trace);
  }

  /** A task that has ended keeps its state and its result through any further run. */
  lemma EndedForGood(h: Hub, trace: seq<Timed>, t: nat)
    requires Inv(h) && t < |h.tasks| && Terminal(h.tasks[t].state)
    ensures t < |Run(h, trace).tasks| && Run(h, trace).tasks[t] == h.tasks[t]
  {
    RunExtends(h, trace);
  }

  // -- the store itself -------------------------------------------------------

  /** One call on the store object is one step of a run. */
  method Perform(store: Store.HubStore, now: int, call: Call) returns (r: Response, woken: set<Key>)
    requires Inv(store.View())
    modifies store
    ensures Step(store.View(), r, woken) == Apply(old(store.View()), now, call)
    ensures Inv(store.View())
  {
    hide Inv;
    StepKeeps(store.View(), now, call);
    match call {
      case DoInitialize(goal, policy) => r, woken := store.InitializeWorkflow(goal, policy);
      case DoStatus(status, summary) => r, woken := store.SetWorkflowStatus(status, summary);
      case DoDecision(summary, rationale, key) => r, woken := store.LogDecision(summary, rationale, key);
      case DoCheckIn(name, profile, instance, op, addr) =>
        r, woken := store.CheckIn(now, name, profile, instance, op, addr);
      case DoHeartbeat(name, instance, current, addr) =>
        r, woken := store.Heartbeat(now, name, instance, current, addr);
      case DoRelease(name) => r, woken := store.ReleaseAgent(name);
      case DoAssign(brief) => r, woken := store.AssignTask(now, brief);
      case DoClaim(name) => r, woken := store.ClaimAssignment(name);
      case DoProgress(task, name, note, op) => r, woken := store.RecordProgress(now, task, name, note, op);
      case DoQuestion(task, name, note, sentAs) => r, woken := store.OpenQuestion(task, name, note, sentAs);
      case DoReply(task, text, messageId) => r, woken := store.ReplyTo(task, text, messageId);
      case DoResult(task, name, result, op) => r, woken := store.SubmitResult(task, name, result, op);
      case DoOverride(task, state, text) => r, woken := store.SetTaskState(task, state, text);
      case DoCancel(task) => r, woken := store.CancelTask(task);
      case DoLease(lease) => r, woken := store.LeaseNextEvent(now, lease);
      case DoAck(delivery) => r, woken := store.AckEvent(delivery);
      case DoSweep(lostAfter) => r, woken := store.Sweep(now, lostAfter);
    }
  }

  /** And a store that starts empty goes through exactly the reachable states. */
  method PerformAll(trace: seq<Timed>) returns (store: Store.HubStore)
    ensures fresh(store) && store.View() == Run(EMPTY, trace) && Inv(store.View())
  {
    hide Inv;
    store := new Store.HubStore();
    EmptyInv();
    for i := 0 to |trace|
      invariant fresh(store) && store.View() == Run(EMPTY, trace[..i]) && Inv(store.View())
    {
      var _, _ := Perform(store, trace[i].now, trace[i].call);
      assert trace[..i + 1][..i] == trace[..i];
    }
    assert trace[..|trace|] == trace;
  }
}
