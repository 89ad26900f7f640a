/** Alice may see one event twice; what she did the first time is not done again. */
module Redelivery {
  import opened HubTypes
  import opened HubSpec
  import Growth

  // -- at most once, unconditionally ------------------------------------------

  predicate SameSource(a: Task, b: Task) {
    a.sourceEvent.Some? && a.sourceEvent == b.sourceEvent
  }

  predicate SameKey(a: Decision, b: Decision) {
    a.key.Some? && a.key == b.key
  }

  /** Each source event has at most one task and each decision key at most one row. */
  ghost predicate Inv(h: Hub) {
    && (forall t, u :: 0 <= t < u < |h.tasks| ==> !SameSource(h.tasks[t], h.tasks[u]))
    && (forall d, e :: 0 <= d < e < |h.decisions| ==> !SameKey(h.decisions[d], h.decisions[e]))
  }

  lemma AssignKeeps(h: Hub, now: int, b: Brief)
    requires Inv(h)
    ensures Inv(AssignTask(h, now, b).hub)
  {
  }

  lemma DecisionKeeps(h: Hub, summary: string, rationale: string, key: Option<string>)
    requires Inv(h)
    ensures Inv(LogDecision(h, summary, rationale, key).hub)
  {
  }

  /** Only assignments add tasks. */
  lemma OnlyAssignAdds(h: Hub, now: int, call: Call)
    requires !call.DoAssign?
    ensures |Apply(h, now, call).hub.tasks| == |h.tasks|
  {
    match call
    case DoSweep(lostAfter) =>
      var h1 := ExpireLeases(h, now, |h.tasks|);
      LoseKeepsCount(h1, now - lostAfter, |h1.roster|);
    case _ =>
      hide Apply;
      if call.DoCheckIn? || call.DoHeartbeat? || call.DoClaim? || call.DoProgress? || call.DoQuestion?
         || call.DoResult? {
        WorkAddsNone(h, now, call);
      } else {
        OthersAddNone(h, now, call);
      }
  }

  lemma WorkAddsNone(h: Hub, now: int, call: Call)
    requires call.DoCheckIn? || call.DoHeartbeat? || call.DoClaim? || call.DoProgress? || call.DoQuestion?
             || call.DoResult?
    ensures |Apply(h, now, call).hub.tasks| == |h.tasks|
  {
    hide TerminalStatus, ResultEcho, WorkspaceTaken, RenewedLease;
  }

  lemma OthersAddNone(h: Hub, now: int, call: Call)
    requires call.DoInitialize? || call.DoStatus? || call.DoDecision? || call.DoRelease? || call.DoReply?
             || call.DoOverride? || call.DoCancel? || call.DoLease? || call.DoAck?
    ensures |Apply(h, now, call).hub.tasks| == |h.tasks|
  {
  }

  lemma {:induction false} LoseKeepsCount(h: Hub, cutoff: int, k: nat)
    requires k <= |h.roster|
    ensures |LoseAgents(h, cutoff, k).tasks| == |h.tasks| && LoseAgents(h, cutoff, k).decisions == h.decisions
  {
    if k > 0 { LoseKeepsCount(h, cutoff, k - 1); }
  }

  lemma {:induction false} ExpireKeepsDecisions(h: Hub, now: int, k: nat)
    requires k <= |h.tasks|
    ensures ExpireLeases(h, now, k).decisions == h.decisions
  {
    if k > 0 { ExpireKeepsDecisions(h, now, k - 1); }
  }

  /** Only Alice's audit calls add decisions, and a status change is logged without a key. */
  lemma OnlyAuditLogs(h: Hub, now: int, call: Call)
    requires !call.DoDecision?
    ensures var r := Apply(h, now, call).hub;
      r.decisions == h.decisions
      || (|r.decisions| == |h.decisions| + 1 && r.decisions[..|h.decisions|] == h.decisions
          && r.decisions[|h.decisions|].key.None?)
  {
    match call
    case DoSweep(lostAfter) =>
      var h1 := ExpireLeases(h, now, |h.tasks|);
      ExpireKeepsDecisions(h, now, |h.tasks|);
      LoseKeepsCount(h1, now - lostAfter, |h1.roster|);
    case _ =>
  }

  lemma Frame(h: Hub, r: Hub)
    requires Inv(h) && Growth.TasksExtend(h.tasks, r.tasks) && |r.tasks| == |h.tasks|
    requires r.decisions == h.decisions
             || (|r.decisions| == |h.decisions| + 1 && r.decisions[..|h.decisions|] == h.decisions
                 && r.decisions[|h.decisions|].key.None?)
    ensures Inv(r)
  {
    forall t, u | 0 <= t < u < |r.tasks| ensures !SameSource(r.tasks[t], r.tasks[u]) {
      assert Growth.SameTerms(h.tasks[t], r.tasks[t]) && Growth.SameTerms(h.tasks[u], r.tasks[u]);
      assert !SameSource(h.tasks[t], h.tasks[u]);
    }
    forall d, e | 0 <= d < e < |r.decisions| ensures !SameKey(r.decisions[d], r.decisions[e]) {
      if e < |h.decisions| { assert !SameKey(h.decisions[d], h.decisions[e]); }
    }
  }

  lemma StepKeeps(h: Hub, now: int, call: Call)
    requires Inv(h) && Growth.Distinct(h.roster)
    ensures Inv(Apply(h, now, call).hub)
  {
    match call
    case DoAssign(brief) => AssignKeeps(h, now, brief);
    case DoDecision(summary, rationale, key) => DecisionKeeps(h, summary, rationale, key);
    case _ =>
      OnlyAssignAdds(h, now, call);
      OnlyAuditLogs(h, now, call);
      Growth.StepExtends(h, now, call);
      Frame(h, Apply(h, now, call).hub);
  }

  // -- doing it again does nothing --------------------------------------------

  /** What Alice does in answer to an event, in a form she can repeat: assignments carry their source
      event and decisions their checkpoint key. */
  predicate EventAction(call: Call) {
    || call.DoInitialize? || call.DoStatus? || call.DoRelease? || call.DoReply? || call.DoOverride? || call.DoCancel?
    || (call.DoDecision? && call.key.Some?)
    || (call.DoAssign? && call.brief.source.Some?)
  }

  predicate Took(r: Response) {
    !r.Refused? && r != Flag(false)
  }

  /** Repeating the assignment returns the task it made, in whatever state that is now. */
  lemma AssignAgain(h: Hub, now: int, b: Brief, later: Hub, now': int)
    requires Inv(later) && b.source.Some? && AssignTask(h, now, b).response.TaskIs?
    requires Growth.Extends(AssignTask(h, now, b).hub, later)
    ensures var t := AssignTask(h, now, b).response.taskId;
      && t < |later.tasks| && Growth.SameTerms(AssignTask(h, now, b).response.row, later.tasks[t])
      && AssignTask(later, now', b) == Step(later, TaskIs(t, later.tasks[t]), {})
  {
    var first := AssignTask(h, now, b);
    var t := first.response.taskId;
    assert t < |first.hub.tasks| && first.hub.tasks[t] == first.response.row;
    assert SameAssignment(first.hub, b, first.hub.tasks[t]) && first.hub.tasks[t].sourceEvent == b.source;
    assert Growth.SameTerms(first.hub.tasks[t], later.tasks[t]);
    var found := SourcedTask(later.tasks, b.source.value, |later.tasks|);
    if found.Some? && found.value != t {
      assert SameSource(later.tasks[found.value], later.tasks[t]);
    }
  }

  /** A question answered once stays answered: the reply on record stops a second one. */
  lemma ReplyAgain(h: Hub, t: nat, text: Text, m: nat, later: Hub)
    requires ReplyTo(h, t, text, m).response == Flag(true)
    requires Growth.Extends(ReplyTo(h, t, text, m).hub, later)
    ensures ReplyTo(later, t, text, m) == Step(later, Flag(false), {})
  {
    var n := |h.messages|;
    var first := ReplyTo(h, t, text, m).hub;
    assert m < n && first.messages[n] == later.messages[n];
    assert AnswersAfter(later.messages[n], t);
    assert FirstFromAlice(later.messages, t, m + 1).Some?;
  }

  lemma DecisionAgain(h: Hub, summary: string, rationale: string, key: string, later: Hub)
    requires Inv(later) && Growth.Extends(LogDecision(h, summary, rationale, Some(key)).hub, later)
    ensures LogDecision(later, summary, rationale, Some(key)) ==
            Step(later, LogDecision(h, summary, rationale, Some(key)).response, {})
  {
    var first := LogDecision(h, summary, rationale, Some(key));
    var d := first.response.id;
    assert first.hub.decisions[d].key == Some(key) && later.decisions[d] == first.hub.decisions[d];
    var found := KeyedDecision(later.decisions, key, |later.decisions|);
    if found.Some? && found.value != d {
      assert SameKey(later.decisions[found.value], later.decisions[d]);
    }
  }

  lemma EndAgain(h: Hub, call: Call, now: int, later: Hub, now': int)
    requires call.DoOverride? || call.DoCancel?
    requires Took(Apply(h, now, call).response) && Growth.Extends(Apply(h, now, call).hub, later)
    ensures Apply(later, now', call) == Refuse(later, Conflict)
  {
    var t := call.task;
    var first := Apply(h, now, call).hub;
    assert t < |first.tasks| && Terminal(first.tasks[t].state);
    assert later.tasks[t] == first.tasks[t];
  }

  /** The status Alice set stands until she sets another. */
  lemma {:induction false} StatusStands(h: Hub, trace: seq<Timed>)
    requires h.workflow.Some? && forall i :: 0 <= i < |trace| ==> !trace[i].call.DoStatus?
    ensures Run(h, trace).workflow.Some? && Run(h, trace).workflow.value.status == h.workflow.value.status
  {
    if trace != [] {
      var n := |trace| - 1;
      StatusStands(h, trace[..n]);
      StatusStep(Run(h, trace[..n]), trace[n].now, trace[n].call);
    }
  }

  lemma StatusStep(h: Hub, now: int, call: Call)
    requires h.workflow.Some? && !call.DoStatus?
    ensures Apply(h, now, call).hub.workflow == h.workflow
  {
    match call
    case DoSweep(lostAfter) =>
      var h1 := ExpireLeases(h, now, |h.tasks|);
      SweepKeepsWorkflow(h, now, |h.tasks|);
      LoseKeepsWorkflow(h1, now - lostAfter, |h1.roster|);
    case _ =>
  }

  lemma {:induction false} SweepKeepsWorkflow(h: Hub, now: int, k: nat)
    requires k <= |h.tasks|
    ensures ExpireLeases(h, now, k).workflow == h.workflow
  {
    if k > 0 { SweepKeepsWorkflow(h, now, k - 1); }
  }

  lemma {:induction false} LoseKeepsWorkflow(h: Hub, cutoff: int, k: nat)
    requires k <= |h.roster|
    ensures LoseAgents(h, cutoff, k).workflow == h.workflow
  {
    if k > 0 { LoseKeepsWorkflow(h, cutoff, k - 1); }
  }

  /** Once an action took effect, repeating it in any later state changes no row whatsoever. The one
      call that could be undone in between, the workflow status, must not have been set otherwise. */
  lemma ActAgain(h: Hub, now: int, call: Call, later: Hub, now': int)
    requires EventAction(call) && Took(Apply(h, now, call).response)
    requires Growth.Extends(Apply(h, now, call).hub, later) && Inv(later)
    requires call.DoStatus? ==> later.workflow.Some? && later.workflow.value.status == call.status
    ensures Apply(later, now', call).hub == later
  {
    match call
    case DoAssign(brief) => AssignAgain(h, now, brief, later, now');
    case DoReply(task, text, messageId) => ReplyAgain(h, task, text, messageId, later);
    case DoDecision(summary, rationale, key) => DecisionAgain(h, summary, rationale, key.value, later);
    case DoOverride(_, _, _) => EndAgain(h, call, now, later, now');
    case DoCancel(_) => EndAgain(h, call, now, later, now');
    case DoRelease(name) => assert name in later.agents && later.agents[name].status == Released;
    case DoStatus(_, _) =>
    case DoInitialize(_, _) =>
  }

  // -- refusals ---------------------------------------------------------------

  /** A call that raises changes nothing, so a refused first attempt leaves no trace and the event's
      redelivery may still succeed. */
  lemma RefusalsLeaveNoTrace(h: Hub, now: int, call: Call)
    requires Apply(h, now, call).response.Refused?
    ensures Apply(h, now, call).hub == h && Apply(h, now, call).notified == {}
  {
  }

  /** What an assignment needs to act at all. */
  predicate MayAssign(h: Hub, b: Brief) {
    && (b.prHead.Some? ==> IsSha(b.prHead.value))
    && h.workflow.Some?
    && (b.source.Some? ==>
          b.source.value < |h.events| && forall t :: 0 <= t < |h.tasks| ==> h.tasks[t].sourceEvent != b.source)
    && b.assignee in h.agents && h.agents[b.assignee].status == Idle
    && b.instructions.fits
  }

  /** An assignment, the first or a redelivered one, acts exactly when its guards allow, and then makes one
      task for its event, held by its assignee. */
  lemma AssignActsIff(h: Hub, now: int, b: Brief)
    ensures var s := AssignTask(h, now, b);
      && (s.hub != h <==> MayAssign(h, b))
      && (MayAssign(h, b) ==>
            && s.response.TaskIs? && s.response.taskId == |h.tasks| && |s.hub.tasks| == |h.tasks| + 1
            && s.hub.tasks[..|h.tasks|] == h.tasks && s.hub.tasks[|h.tasks|] == s.response.row
            && s.response.row.assignee == b.assignee && s.response.row.sourceEvent == b.source
            && s.hub.agents[b.assignee].currentTask == Some(|h.tasks|))
  {
    if b.source.Some? && b.source.value < |h.events| {
      var t := SourcedTask(h.tasks, b.source.value, |h.tasks|);
      assert t.Some? ==> h.tasks[t.value].sourceEvent == b.source;
    }
    if MayAssign(h, b) { assert |AssignTask(h, now, b).hub.tasks| == |h.tasks| + 1; }
  }
}
