/** How tasks end: once, for good, and each leaving exactly one record of why. */
module Endings {
  import opened HubTypes
  import opened HubSpec
  import Growth

  /** The event says that `t` completed, failed, or went down with its agent. */
  predicate Ends(body: EventBody, t: nat) {
    || (body.TaskCompleted? && body.task == t)
    || (body.TaskFailed? && body.task == t)
    || (body.AgentLost? && body.lostTask == Some(t))
  }

  predicate IsEnding(body: EventBody) {
    body.TaskCompleted? || body.TaskFailed? || (body.AgentLost? && body.lostTask.Some?)
  }

  function EndedTask(body: EventBody): nat
    requires IsEnding(body)
  {
    if body.AgentLost? then body.lostTask.value else body.task
  }

  predicate Overrides(m: Message, t: nat) {
    m.kind.StateOverride? && m.task == Some(t)
  }

  /** `cancel_task` leaves neither message nor event, only a canceled row without a result. */
  predicate CanceledPlainly(task: Task) {
    task.state == Canceled && task.result.None?
  }

  function Bit(b: bool): nat { if b then 1 else 0 }

  function EndEvents(es: seq<Event>, t: nat, k: nat): nat
    requires k <= |es|
  {
    if k == 0 then 0 else EndEvents(es, t, k - 1) + Bit(Ends(es[k - 1].body, t))
  }

  function OverridesOf(ms: seq<Message>, t: nat, k: nat): nat
    requires k <= |ms|
  {
    if k == 0 then 0 else OverridesOf(ms, t, k - 1) + Bit(Overrides(ms[k - 1], t))
  }

  /** The records of task `t` having ended. */
  function Records(h: Hub, t: nat): nat
    requires t < |h.tasks|
  {
    EndEvents(h.events, t, |h.events|) + OverridesOf(h.messages, t, |h.messages|) + Bit(CanceledPlainly(h.tasks[t]))
  }

  ghost predicate RowOk(h: Hub, t: nat)
    requires t < |h.tasks|
  {
    Records(h, t) == Bit(Terminal(h.tasks[t].state))
  }

  /** Every ended task has exactly one record of its ending and every open one none. */
  ghost predicate Inv(h: Hub) {
    && (forall t :: 0 <= t < |h.tasks| ==> RowOk(h, t))
    && (forall e :: 0 <= e < |h.events| && IsEnding(h.events[e].body) ==> EndedTask(h.events[e].body) < |h.tasks|)
    && (forall i :: 0 <= i < |h.messages| && h.messages[i].kind.StateOverride? ==>
          h.messages[i].task.Some? && h.messages[i].task.value < |h.tasks|)
  }

  lemma {:induction false} EventsFrame(a: seq<Event>, b: seq<Event>, t: nat, k: nat)
    requires k <= |a| && k <= |b|
    requires forall i :: 0 <= i < k ==> a[i].body == b[i].body
    ensures EndEvents(a, t, k) == EndEvents(b, t, k)
  {
    if k > 0 { EventsFrame(a, b, t, k - 1); }
  }

  lemma {:induction false} EventsSkip(es: seq<Event>, t: nat, j: nat, k: nat)
    requires j <= k <= |es| && forall i :: j <= i < k ==> !Ends(es[i].body, t)
    ensures EndEvents(es, t, k) == EndEvents(es, t, j)
    decreases k
  {
    if j < k { EventsSkip(es, t, j, k - 1); }
  }

  lemma {:induction false} OverridesFrame(a: seq<Message>, b: seq<Message>, t: nat, k: nat)
    requires a <= b && k <= |a|
    ensures OverridesOf(a, t, k) == OverridesOf(b, t, k)
  {
    if k > 0 { OverridesFrame(a, b, t, k - 1); }
  }

  lemma {:induction false} OverridesSkip(ms: seq<Message>, t: nat, j: nat, k: nat)
    requires j <= k <= |ms| && forall i :: j <= i < k ==> !Overrides(ms[i], t)
    ensures OverridesOf(ms, t, k) == OverridesOf(ms, t, j)
    decreases k
  {
    if j < k { OverridesSkip(ms, t, j, k - 1); }
  }

  // -- the calls --------------------------------------------------------------

  /** Nothing ends: at most open tasks move among open states and new ones appear. */
  ghost predicate Quiet(h: Hub, r: Hub) {
    && |h.tasks| <= |r.tasks|
    && (forall t :: 0 <= t < |h.tasks| ==>
          r.tasks[t] == h.tasks[t] || (!Terminal(h.tasks[t].state) && !Terminal(r.tasks[t].state)))
    && (forall t :: |h.tasks| <= t < |r.tasks| ==> !Terminal(r.tasks[t].state))
    && Growth.EventsExtend(h.events, r.events)
    && (forall i :: |h.events| <= i < |r.events| ==> !IsEnding(r.events[i].body))
    && h.messages <= r.messages
    && (forall i :: |h.messages| <= i < |r.messages| ==> !r.messages[i].kind.StateOverride?)
  }

  lemma QuietKeeps(h: Hub, r: Hub)
    requires Inv(h) && Quiet(h, r)
    ensures Inv(r)
  {
    forall t | 0 <= t < |r.tasks| ensures RowOk(r, t) {
      EventsFrame(h.events, r.events, t, |h.events|);
      EventsSkip(r.events, t, |h.events|, |r.events|);
      OverridesFrame(h.messages, r.messages, t, |h.messages|);
      OverridesSkip(r.messages, t, |h.messages|, |r.messages|);
      if t < |h.tasks| {
        assert RowOk(h, t);
      } else {
        EventsSkip(h.events, t, 0, |h.events|);
        OverridesSkip(h.messages, t, 0, |h.messages|);
      }
    }
  }

  /** Task `t` alone ends, with one record: an event, an override or a bare cancel. */
  ghost predicate OneEnding(h: Hub, r: Hub, t: nat) {
    && Open(h, t) && |r.tasks| == |h.tasks| && Terminal(r.tasks[t].state)
    && (forall u :: 0 <= u < |h.tasks| && u != t ==> r.tasks[u] == h.tasks[u])
    && (r.events == h.events || (|r.events| == |h.events| + 1 && r.events[..|h.events|] == h.events))
    && (r.messages == h.messages || (|r.messages| == |h.messages| + 1 && r.messages[..|h.messages|] == h.messages))
    && (|r.events| > |h.events| ==> IsEnding(r.events[|h.events|].body) && EndedTask(r.events[|h.events|].body) == t)
    && (|r.messages| > |h.messages| && r.messages[|h.messages|].kind.StateOverride? ==>
          r.messages[|h.messages|].task == Some(t))
    && Bit(|r.events| > |h.events|)
       + Bit(|r.messages| > |h.messages| && r.messages[|h.messages|].kind.StateOverride?)
       + Bit(CanceledPlainly(r.tasks[t])) == 1
  }

  lemma EndingKeeps(h: Hub, r: Hub, t: nat)
    requires Inv(h) && OneEnding(h, r, t)
    ensures Inv(r)
  {
    forall u | 0 <= u < |r.tasks| ensures RowOk(r, u) {
      assert RowOk(h, u);
      EventsFrame(h.events, r.events, u, |h.events|);
      OverridesFrame(h.messages, r.messages, u, |h.messages|);
    }
  }

  lemma ResultEnds(h: Hub, t: nat, agent: string, result: TaskResult, op: string)
    ensures var r := SubmitResult(h, t, agent, result, op).hub; r == h || OneEnding(h, r, t)
  {
    hide ResultEcho, TerminalStatus;
  }

  lemma OverrideEnds(h: Hub, t: nat, state: TaskState, note: Text)
    ensures var r := SetTaskState(h, t, state, note).hub; r == h || OneEnding(h, r, t)
  {
  }

  lemma CancelEnds(h: Hub, t: nat)
    ensures var r := CancelTask(h, t).hub; r == h || OneEnding(h, r, t)
    ensures CancelTask(h, t).hub == h <==> CancelTask(h, t).response.Refused?
  {
  }

  lemma LoseOneEnds(h: Hub, name: string, row: Agent)
    ensures var r := LoseAgent(h, name, row);
      if OpenTaskId(h, row.currentTask).Some? then OneEnding(h, r, row.currentTask.value) else Quiet(h, r)
  {
  }

  lemma {:induction false} LoseKeeps(h: Hub, cutoff: int, k: nat)
    requires Inv(h) && k <= |h.roster|
    ensures Inv(LoseAgents(h, cutoff, k))
  {
    if k > 0 {
      LoseKeeps(h, cutoff, k - 1);
      var prev, r, name := LoseAgents(h, cutoff, k - 1), LoseAgents(h, cutoff, k), h.roster[k - 1];
      if name in h.agents && Silent(h.agents[name], cutoff) {
        LoseOneEnds(prev, name, h.agents[name]);
        if OpenTaskId(prev, h.agents[name].currentTask).Some? {
          EndingKeeps(prev, r, h.agents[name].currentTask.value);
        } else {
          QuietKeeps(prev, r);
        }
      }
    }
  }

  lemma {:induction false} ExpireKeeps(h: Hub, now: int, k: nat)
    requires Inv(h) && k <= |h.tasks|
    ensures Inv(ExpireLeases(h, now, k))
  {
    if k > 0 {
      ExpireKeeps(h, now, k - 1);
      QuietKeeps(ExpireLeases(h, now, k - 1), ExpireLeases(h, now, k));
    }
  }

  lemma SweepKeeps(h: Hub, now: int, lostAfter: int)
    requires Inv(h)
    ensures Inv(Sweep(h, now, lostAfter).hub)
  {
    ExpireKeeps(h, now, |h.tasks|);
    var h1 := ExpireLeases(h, now, |h.tasks|);
    LoseKeeps(h1, now - lostAfter, |h1.roster|);
  }

  lemma AssignQuiet(h: Hub, now: int, b: Brief)
    ensures Quiet(h, AssignTask(h, now, b).hub)
  {
  }

  lemma HeartbeatQuiet(h: Hub, now: int, name: string, instance: Instance, current: Option<nat>,
                       addr: Option<string>)
    ensures Quiet(h, Heartbeat(h, now, name, instance, current, addr).hub)
  {
  }

  lemma QuestionQuiet(h: Hub, t: nat, agent: string, question: Text, sentAs: string)
    ensures Quiet(h, OpenQuestion(h, t, agent, question, sentAs).hub)
  {
  }

  lemma ReplyQuiet(h: Hub, t: nat, text: Text, m: nat)
    ensures Quiet(h, ReplyTo(h, t, text, m).hub)
  {
  }

  lemma ClaimQuiet(h: Hub, name: string)
    ensures Quiet(h, ClaimAssignment(h, name).hub)
  {
  }

  lemma PlainQuiet(h: Hub, now: int, call: Call)
    requires Growth.IsPlain(call)
    ensures Quiet(h, Apply(h, now, call).hub)
  {
    hide Apply;
    Growth.PlainCalls(h, now, call);
  }

  lemma EndedOrNot(h: Hub, r: Hub, t: nat)
    requires Inv(h) && (r == h || OneEnding(h, r, t))
    ensures Inv(r)
  {
    if r != h { EndingKeeps(h, r, t); }
  }

  lemma StepKeeps(h: Hub, now: int, call: Call)
    requires Inv(h)
    ensures Inv(Apply(h, now, call).hub)
  {
    hide Inv, OneEnding, Quiet;
    var r := Apply(h, now, call).hub;
    match call
    case DoSweep(lostAfter) => SweepKeeps(h, now, lostAfter);
    case DoResult(task, name, result, op) =>
      ResultEnds(h, task, name, result, op);
      EndedOrNot(h, r, task);
    case DoOverride(task, state, text) =>
      OverrideEnds(h, task, state, text);
      EndedOrNot(h, r, task);
    case DoCancel(task) =>
      CancelEnds(h, task);
      EndedOrNot(h, r, task);
    case DoAssign(brief) => AssignQuiet(h, now, brief); QuietKeeps(h, r);
    case DoHeartbeat(name, instance, current, addr) =>
      HeartbeatQuiet(h, now, name, instance, current, addr); QuietKeeps(h, r);
    case DoQuestion(task, name, note, sentAs) => QuestionQuiet(h, task, name, note, sentAs); QuietKeeps(h, r);
    case DoReply(task, text, messageId) => ReplyQuiet(h, task, text, messageId); QuietKeeps(h, r);
    case DoClaim(name) => ClaimQuiet(h, name); QuietKeeps(h, r);
    case _ => PlainQuiet(h, now, call); QuietKeeps(h, r);
  }

  // -- the books balance ------------------------------------------------------

  function EndedTasks(tasks: seq<Task>, n: nat): nat
    requires n <= |tasks|
  {
    if n == 0 then 0 else EndedTasks(tasks, n - 1) + Bit(Terminal(tasks[n - 1].state))
  }

  function PlainCancels(tasks: seq<Task>, n: nat): nat
    requires n <= |tasks|
  {
    if n == 0 then 0 else PlainCancels(tasks, n - 1) + Bit(CanceledPlainly(tasks[n - 1]))
  }

  /** All completions, failures and losses that took a task with them. */
  function EndingEvents(es: seq<Event>, k: nat): nat
    requires k <= |es|
  {
    if k == 0 then 0 else EndingEvents(es, k - 1) + Bit(IsEnding(es[k - 1].body))
  }

  function AllOverrides(ms: seq<Message>, k: nat): nat
    requires k <= |ms|
  {
    if k == 0 then 0 else AllOverrides(ms, k - 1) + Bit(ms[k - 1].kind.StateOverride?)
  }

  /** The same two counts restricted to tasks below `n`. */
  function EndEventsBelow(es: seq<Event>, n: nat): nat
  {
    if n == 0 then 0 else EndEventsBelow(es, n - 1) + EndEvents(es, n - 1, |es|)
  }

  function OverridesBelow(ms: seq<Message>, n: nat): nat
  {
    if n == 0 then 0 else OverridesBelow(ms, n - 1) + OverridesOf(ms, n - 1, |ms|)
  }

  lemma {:induction false} BelowAppend(es: seq<Event>, e: Event, n: nat)
    ensures EndEventsBelow(es + [e], n) == EndEventsBelow(es, n) + Bit(IsEnding(e.body) && EndedTask(e.body) < n)
  {
    if n > 0 {
      BelowAppend(es, e, n - 1);
      EventsFrame(es, es + [e], n - 1, |es|);
    }
  }

  lemma {:induction false} EventsRegroup(es: seq<Event>, n: nat)
    requires forall e :: 0 <= e < |es| && IsEnding(es[e].body) ==> EndedTask(es[e].body) < n
    ensures EndEventsBelow(es, n) == EndingEvents(es, |es|)
    decreases |es|
  {
    if es == [] {
      NoneBelow(n);
    } else {
      var init, last := es[..|es| - 1], es[|es| - 1];
      assert es == init + [last];
      EventsRegroup(init, n);
      BelowAppend(init, last, n);
      EndingFrame(init, last, |init|);
    }
  }

  lemma {:induction false} NoneBelow(n: nat)
    ensures EndEventsBelow([], n) == 0 && OverridesBelow([], n) == 0
  {
    if n > 0 { NoneBelow(n - 1); }
  }

  lemma {:induction false} EndingFrame(es: seq<Event>, e: Event, k: nat)
    requires k <= |es|
    ensures EndingEvents(es + [e], k) == EndingEvents(es, k)
  {
    if k > 0 { EndingFrame(es, e, k - 1); }
  }

  lemma {:induction false} OverridesBelowAppend(ms: seq<Message>, m: Message, n: nat)
    ensures OverridesBelow(ms + [m], n) ==
            OverridesBelow(ms, n) + Bit(m.kind.StateOverride? && m.task.Some? && m.task.value < n)
  {
    if n > 0 {
      OverridesBelowAppend(ms, m, n - 1);
      OverridesFrame(ms, ms + [m], n - 1, |ms|);
    }
  }

  lemma {:induction false} AllOverridesFrame(ms: seq<Message>, m: Message, k: nat)
    requires k <= |ms|
    ensures AllOverrides(ms + [m], k) == AllOverrides(ms, k)
  {
    if k > 0 { AllOverridesFrame(ms, m, k - 1); }
  }

  lemma {:induction false} OverridesRegroup(ms: seq<Message>, n: nat)
    requires forall i :: 0 <= i < |ms| && ms[i].kind.StateOverride? ==> ms[i].task.Some? && ms[i].task.value < n
    ensures OverridesBelow(ms, n) == AllOverrides(ms, |ms|)
    decreases |ms|
  {
    if ms == [] {
      NoneBelow(n);
    } else {
      var init, last := ms[..|ms| - 1], ms[|ms| - 1];
      assert ms == init + [last];
      OverridesRegroup(init, n);
      OverridesBelowAppend(init, last, n);
      AllOverridesFrame(init, last, |init|);
    }
  }

  lemma {:induction false} SumRecords(h: Hub, n: nat)
    requires Inv(h) && n <= |h.tasks|
    ensures EndedTasks(h.tasks, n) ==
            EndEventsBelow(h.events, n) + OverridesBelow(h.messages, n) + PlainCancels(h.tasks, n)
  {
    if n > 0 {
      SumRecords(h, n - 1);
      assert RowOk(h, n - 1);
    }
  }

  /** Ended tasks = completion and failure events + losses that took a task + overrides + cancels. */
  lemma BooksBalance(h: Hub)
    requires Inv(h)
    ensures EndedTasks(h.tasks, |h.tasks|) ==
            EndingEvents(h.events, |h.events|) + AllOverrides(h.messages, |h.messages|)
            + PlainCancels(h.tasks, |h.tasks|)
  {
    SumRecords(h, |h.tasks|);
    EventsRegroup(h.events, |h.tasks|);
    OverridesRegroup(h.messages, |h.tasks|);
  }
}
