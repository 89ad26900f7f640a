/** No lost wakeup: a held request is asleep only while there is nothing for it, or somebody is
    already on the way to wake it, or its timer is about to. */
module Wakeups {
  import opened HubTypes
  import opened HubSpec
  import Growth
  import HubRuns
  import Redelivery
  import Deliveries

  // -- which writes notify whom -----------------------------------------------

  /** What a held request waits for: an assignment, Alice's reply after a message, or an event. */
  datatype Wait = ForAssignment(name: string, context: nat) | ForReply(task: nat, after: nat) | ForEvent

  function KeyOf(w: Wait): Key {
    match w
    case ForAssignment(_, context) => ContextKey(context)
    case ForReply(task, _) => TaskKey(task)
    case ForEvent => EventKey
  }

  /** A poll made at `now` would come back with something. */
  predicate Ready(h: Hub, w: Wait, now: int) {
    match w
    case ForAssignment(name, _) =>
      name in h.agents && (h.agents[name].status == Released || ClaimCandidate(h.tasks, name, |h.tasks|).Some?)
    case ForReply(task, after) => PendingReply(h, task, after).Some?
    case ForEvent => NextEligible(h.events, now, 0).Some?
  }

  /** The request was opened for an agent that exists, under its own context. */
  predicate Sound(h: Hub, w: Wait) {
    match w
    case ForAssignment(name, context) => name in h.agents && h.agents[name].context == context
    case ForReply(task, after) => task < |h.tasks| && after < |h.messages|
    case ForEvent => true
  }

  lemma StaysSound(h: Hub, now: int, call: Call, w: Wait)
    requires HubRuns.Inv(h) && Sound(h, w)
    ensures Sound(Apply(h, now, call).hub, w)
  {
    Growth.StepExtends(h, now, call);
  }

  /** Whatever a call makes ready, it notifies. */
  lemma WritesNotify(h: Hub, now: int, call: Call, w: Wait)
    requires HubRuns.Inv(h) && Sound(h, w)
    requires !Ready(h, w, now) && Ready(Apply(h, now, call).hub, w, now)
    requires call.DoLease? ==> call.lease >= 0
    ensures KeyOf(w) in Apply(h, now, call).notified
  {
    match w
    case ForAssignment(name, context) => AssignmentsNotify(h, now, call, name);
    case ForReply(task, after) => RepliesNotify(h, now, call, task, after);
    case ForEvent => EventsNotify(h, now, call);
  }

  lemma AssignmentsNotify(h: Hub, now: int, call: Call, name: string)
    requires HubRuns.Inv(h) && name in h.agents && h.agents[name].status != Released
    requires ClaimCandidate(h.tasks, name, |h.tasks|).None?
    requires var r := Apply(h, now, call).hub;
      name in r.agents && (r.agents[name].status == Released || ClaimCandidate(r.tasks, name, |r.tasks|).Some?)
    ensures ContextKey(h.agents[name].context) in Apply(h, now, call).notified
  {
    var r := Apply(h, now, call).hub;
    Growth.StepExtends(h, now, call);
    var t := ClaimCandidate(r.tasks, name, |r.tasks|);
    if t.Some? {
      assert forall u :: 0 <= u < |h.tasks| ==> Growth.SameTerms(h.tasks[u], r.tasks[u]);
      NewTasksNotify(h, now, call, t.value);
    } else {
      ReleasesNotify(h, now, call, name);
    }
  }

  lemma NewTasksNotify(h: Hub, now: int, call: Call, t: nat)
    requires HubRuns.Inv(h) && |h.tasks| <= t < |Apply(h, now, call).hub.tasks|
    ensures var task := Apply(h, now, call).hub.tasks[t];
      task.assignee in h.agents && ContextKey(h.agents[task.assignee].context) in Apply(h, now, call).notified
  {
    if call.DoAssign? {
      AssignNotifies(h, now, call.brief);
    } else {
      Redelivery.OnlyAssignAdds(h, now, call);
      assert false;
    }
  }

  lemma AssignNotifies(h: Hub, now: int, b: Brief)
    ensures var s := AssignTask(h, now, b);
      s.hub.tasks == h.tasks
      || (|s.hub.tasks| == |h.tasks| + 1 && s.hub.tasks[|h.tasks|].assignee in h.agents
          && ContextKey(h.agents[s.hub.tasks[|h.tasks|].assignee].context) in s.notified)
  {
  }

  lemma ReleasesNotify(h: Hub, now: int, call: Call, name: string)
    requires name in h.agents && h.agents[name].status != Released
    requires name in Apply(h, now, call).hub.agents && Apply(h, now, call).hub.agents[name].status == Released
    ensures ContextKey(h.agents[name].context) in Apply(h, now, call).notified
  {
    if call.DoRelease? {
      ReleaseNotifies(h, now, call.name, name);
    } else if call.DoCheckIn? || call.DoHeartbeat? {
      PresenceReleasesNobody(h, now, call, name);
      assert false;
    } else {
      hide Apply;
      Growth.OneSteady(h, now, call, name);
    }
  }

  lemma ReleaseNotifies(h: Hub, now: int, n: string, name: string)
    requires name in h.agents && h.agents[name].status != Released
    ensures var s := Apply(h, now, DoRelease(n));
      name in s.hub.agents
      && (s.hub.agents[name].status == Released ==> ContextKey(h.agents[name].context) in s.notified)
  {
  }

  lemma PresenceReleasesNobody(h: Hub, now: int, call: Call, name: string)
    requires (call.DoCheckIn? || call.DoHeartbeat?) && name in h.agents && h.agents[name].status != Released
    ensures name in Apply(h, now, call).hub.agents && Apply(h, now, call).hub.agents[name].status != Released
  {
  }

  lemma RepliesNotify(h: Hub, now: int, call: Call, t: nat, after: nat)
    requires HubRuns.Inv(h) && t < |h.tasks| && after < |h.messages|
    requires PendingReply(h, t, after).None? && PendingReply(Apply(h, now, call).hub, t, after).Some?
    ensures TaskKey(t) in Apply(h, now, call).notified
  {
    var r := Apply(h, now, call).hub;
    Growth.StepExtends(h, now, call);
    var i := PendingReply(r, t, after).value;
    assert forall j :: after + 1 <= j < |h.messages| ==> !AnswersAfter(r.messages[j], t);
    NewAnswers(h, now, call, i, t);
  }

  /** Alice's words on an existing task come with a wakeup for it. */
  lemma NewAnswers(h: Hub, now: int, call: Call, i: nat, t: nat)
    requires HubRuns.Inv(h) && t < |h.tasks| && |h.messages| <= i < |Apply(h, now, call).hub.messages|
    requires AnswersAfter(Apply(h, now, call).hub.messages[i], t)
    ensures TaskKey(t) in Apply(h, now, call).notified
  {
    hide HubRuns.Inv;
    match call
    case DoReply(task, text, messageId) => ReplySays(h, task, text, messageId, i, t);
    case DoOverride(task, state, text) => OverrideSays(h, task, state, text, i, t);
    case DoAssign(brief) => AssignSays(h, now, brief, i, t);
    case DoQuestion(task, name, note, sentAs) => QuestionSays(h, task, name, note, sentAs, i, t);
    case DoResult(task, name, result, op) => ResultSays(h, task, name, result, op, i, t);
    case DoHeartbeat(_, _, _, _) => QuietCallSays(h, now, call);
    case DoClaim(_) => QuietCallSays(h, now, call);
    case DoCancel(_) => QuietCallSays(h, now, call);
    case DoSweep(lostAfter) => SweepSaysNothing(h, now, lostAfter);
    case _ => Growth.PlainCalls(h, now, call);
  }

  lemma ReplySays(h: Hub, task: nat, text: Text, m: nat, i: nat, t: nat)
    ensures var s := ReplyTo(h, task, text, m);
      |h.messages| <= i < |s.hub.messages| && AnswersAfter(s.hub.messages[i], t) ==> TaskKey(t) in s.notified
  {
  }

  lemma OverrideSays(h: Hub, task: nat, state: TaskState, text: Text, i: nat, t: nat)
    ensures var s := SetTaskState(h, task, state, text);
      |h.messages| <= i < |s.hub.messages| && AnswersAfter(s.hub.messages[i], t) ==> TaskKey(t) in s.notified
  {
  }

  lemma AssignSays(h: Hub, now: int, b: Brief, i: nat, t: nat)
    ensures var s := AssignTask(h, now, b);
      |h.messages| <= i < |s.hub.messages| && AnswersAfter(s.hub.messages[i], t) ==> t == |h.tasks|
  {
  }

  lemma QuestionSays(h: Hub, task: nat, agent: string, question: Text, sentAs: string, i: nat, t: nat)
    ensures var s := OpenQuestion(h, task, agent, question, sentAs);
      |h.messages| <= i < |s.hub.messages| ==> !AnswersAfter(s.hub.messages[i], t)
  {
  }

  lemma ResultSays(h: Hub, task: nat, agent: string, result: TaskResult, op: string, i: nat, t: nat)
    ensures var s := SubmitResult(h, task, agent, result, op);
      |h.messages| <= i < |s.hub.messages| ==> !AnswersAfter(s.hub.messages[i], t)
  {
    hide ResultEcho, TerminalStatus;
  }

  lemma QuietCallSays(h: Hub, now: int, call: Call)
    requires call.DoHeartbeat? || call.DoClaim? || call.DoCancel?
    ensures Apply(h, now, call).hub.messages == h.messages
  {
  }

  lemma SweepSaysNothing(h: Hub, now: int, lostAfter: int)
    ensures Sweep(h, now, lostAfter).hub.messages == h.messages
  {
    ExpireSaysNothing(h, now, |h.tasks|);
    var h1 := ExpireLeases(h, now, |h.tasks|);
    LoseSaysNothing(h1, now - lostAfter, |h1.roster|);
  }

  lemma {:induction false} ExpireSaysNothing(h: Hub, now: int, k: nat)
    requires k <= |h.tasks|
    ensures ExpireLeases(h, now, k).messages == h.messages
  {
    if k > 0 { ExpireSaysNothing(h, now, k - 1); }
  }

  lemma {:induction false} LoseSaysNothing(h: Hub, cutoff: int, k: nat)
    requires k <= |h.roster|
    ensures LoseAgents(h, cutoff, k).messages == h.messages
  {
    if k > 0 { LoseSaysNothing(h, cutoff, k - 1); }
  }

  lemma EventsNotify(h: Hub, now: int, call: Call)
    requires HubRuns.Inv(h) && (call.DoLease? ==> call.lease >= 0)
    requires NextEligible(h.events, now, 0).None? && NextEligible(Apply(h, now, call).hub.events, now, 0).Some?
    ensures EventKey in Apply(h, now, call).notified
  {
    match call
    case DoLease(_) =>
    case DoAck(_) =>
    case _ =>
      Deliveries.StepAppends(h, now, call);
      NewEventsNotify(h, now, call);
  }

  /** Every event queued for Alice comes with a wakeup for her inbox. */
  lemma NewEventsNotify(h: Hub, now: int, call: Call)
    requires |Apply(h, now, call).hub.events| > |h.events|
    ensures EventKey in Apply(h, now, call).notified
  {
  }

  // -- what ends a held question ----------------------------------------------

  /** Of all the ways an unanswered task can end only an override puts something where a held question
      looks. A cancel wakes the question all the same, a result or a loss does not. */
  lemma EndingAnswersIff(h: Hub, now: int, call: Call, t: nat, m: nat)
    requires HubRuns.Inv(h) && Open(h, t) && m < |h.messages| && PendingReply(h, t, m).None?
    requires t < |Apply(h, now, call).hub.tasks| && !Open(Apply(h, now, call).hub, t)
    ensures PendingReply(Apply(h, now, call).hub, t, m).Some? <==> call.DoOverride?
    ensures TaskKey(t) in Apply(h, now, call).notified <==> call.DoOverride? || call.DoCancel?
  {
    var r := Apply(h, now, call).hub;
    HubRuns.StepExtends(h, now, call);
    assert h.messages <= r.messages;
    if call.DoOverride? {
      OverrideAnswers(h, call.task, call.state, call.text, t, m);
    } else {
      EndingCalls(h, now, call, t);
      if PendingReply(r, t, m).Some? {
        var i := PendingReply(r, t, m).value;
        assert forall j :: m < j < |h.messages| ==> !AnswersAfter(r.messages[j], t);
        NewAnswers(h, now, call, i, t);
        if call.DoCancel? { QuietCallSays(h, now, call); }
      }
    }
  }

  /** Results, cancels and losses end tasks, and of these only a cancel wakes the task's waiters. */
  lemma EndingCalls(h: Hub, now: int, call: Call, t: nat)
    requires HubRuns.Inv(h) && Open(h, t) && !call.DoOverride?
    requires t < |Apply(h, now, call).hub.tasks| && !Open(Apply(h, now, call).hub, t)
    ensures call.DoResult? || call.DoCancel? || call.DoSweep?
    ensures TaskKey(t) in Apply(h, now, call).notified <==> call.DoCancel?
  {
    hide HubRuns.Inv;
    match call
    case DoResult(task, name, result, op) => ResultWakes(h, task, name, result, op, t);
    case DoCancel(task) => CancelWakes(h, task, t);
    case DoSweep(lostAfter) =>
    case DoAssign(brief) => StaysOpen(h, now, call, t); assert false;
    case DoReply(_, _, _) => StaysOpen(h, now, call, t); assert false;
    case DoClaim(_) => StaysOpen(h, now, call, t); assert false;
    case DoHeartbeat(_, _, _, _) => StaysOpen(h, now, call, t); assert false;
    case DoQuestion(_, _, _, _) => StaysOpen(h, now, call, t); assert false;
    case _ => Growth.PlainCalls(h, now, call); assert false;
  }

  lemma ResultWakes(h: Hub, task: nat, agent: string, result: TaskResult, op: string, t: nat)
    ensures TaskKey(t) !in SubmitResult(h, task, agent, result, op).notified
  {
    hide ResultEcho, TerminalStatus;
  }

  lemma CancelWakes(h: Hub, task: nat, t: nat)
    requires Open(h, t) && !Open(CancelTask(h, task).hub, t)
    ensures TaskKey(t) in CancelTask(h, task).notified
  {
  }

  lemma StaysOpen(h: Hub, now: int, call: Call, t: nat)
    requires Open(h, t) && (call.DoAssign? || call.DoReply? || call.DoClaim? || call.DoHeartbeat? || call.DoQuestion?)
    ensures Open(Apply(h, now, call).hub, t)
  {
  }

  lemma OverrideAnswers(h: Hub, task: nat, state: TaskState, text: Text, t: nat, m: nat)
    requires Open(h, t) && m < |h.messages| && t < |SetTaskState(h, task, state, text).hub.tasks|
    requires !Open(SetTaskState(h, task, state, text).hub, t)
    ensures var s := SetTaskState(h, task, state, text);
      |h.messages| < |s.hub.messages| && AnswersAfter(s.hub.messages[|h.messages|], t) && TaskKey(t) in s.notified
      && PendingReply(s.hub, t, m).Some?
  {
  }

  /** And what was not there when the task ended will never be: such a question is held to its deadline. */
  lemma {:induction false} EndedStaysSilent(h: Hub, trace: seq<HubSpec.Timed>, t: nat, m: nat)
    requires HubRuns.Inv(h) && t < |h.tasks| && Terminal(h.tasks[t].state)
    requires m < |h.messages| && PendingReply(h, t, m).None?
    ensures m < |Run(h, trace).messages| && PendingReply(Run(h, trace), t, m).None?
  {
    if trace != [] {
      var n := |trace| - 1;
      EndedStaysSilent(h, trace[..n], t, m);
      HubRuns.EndedForGood(h, trace[..n], t);
      HubRuns.RunKeeps(h, trace[..n]);
      SilentStep(Run(h, trace[..n]), trace[n].now, trace[n].call, t, m);
    }
  }

  lemma SilentStep(h: Hub, now: int, call: Call, t: nat, m: nat)
    requires HubRuns.Inv(h) && t < |h.tasks| && Terminal(h.tasks[t].state)
    requires m < |h.messages| && PendingReply(h, t, m).None?
    ensures m < |Apply(h, now, call).hub.messages| && PendingReply(Apply(h, now, call).hub, t, m).None?
  {
    var r := Apply(h, now, call).hub;
    HubRuns.StepExtends(h, now, call);
    assert h.messages <= r.messages;
    if PendingReply(r, t, m).Some? {
      RepliesNotify(h, now, call, t, m);
      EndedNotifiesNobody(h, now, call, t);
    }
  }

  lemma EndedNotifiesNobody(h: Hub, now: int, call: Call, t: nat)
    requires t < |h.tasks| && Terminal(h.tasks[t].state)
    ensures TaskKey(t) !in Apply(h, now, call).notified
  {
  }

  // -- the fine-grained race --------------------------------------------------

  /** Where a held request stands in its loop. The flag is cleared before the poll. After a poll that found
      nothing the request gauges how long it may still be held and goes to sleep; a request for events
      first reads the clock and then the earliest expiry, and sleeps no longer than until that. `gauged` is
      the timer when it gauged, `at` the clock it read, `since` the timer when it fell asleep. */
  datatype Pc =
    | Top
    | Cleared
    | Polled
    | Gauged(remaining: int, gauged: int)
    | Dated(remaining: int, gauged: int, at: int)
    | Measured(step: int, gauged: int, at: int)
    | Asleep(since: int, step: int, gauged: int, at: int)

  datatype Held = Held(wait: Wait, pc: Pc, flag: bool, deadline: int)

  /** A writer that has committed: the keys it has yet to look up, and the waiters of its snapshots it
      has yet to wake. */
  datatype Writer = Writer(keys: set<Key>, targets: set<nat>)

  /** `wall` is the clock transactions read, which may be set either way; `timer` the one deadlines and
      sleeps go by, which only advances. `scheduled` are the waiters whose home loop has been asked, from
      another thread, to set their flag. */
  datatype World = World(
    hub: Hub,
    wall: int,
    timer: int,
    held: map<nat, Held>,
    writers: map<nat, Writer>,
    scheduled: set<nat>)

  const START: World := World(EMPTY, 0, 0, map[], map[], {})

  /** Ten milliseconds. */
  const FLOOR: int := 10

  datatype Action =
    | Tick(ms: nat, shift: int)
    | Subscribe(id: nat, wait: Wait, timeout: nat)
    | Clear(id: nat)
    | Poll(id: nat, lease: nat)
    | Gauge(id: nat)
    | ReadClock(id: nat)
    | ReadExpiry(id: nat)
    | Sleep(id: nat)
    | Rouse(id: nat)
    | Commit(writer: nat, call: Call)
    | Snapshot(writer: nat, key: Key)
    | Wake(writer: nat, id: nat, home: bool)
    | RunScheduled(id: nat)
    | Retire(writer: nat)

  function Earliest(a: Option<int>, b: Option<int>): Option<int> {
    if a.None? then b else if b.None? then a else Some(Min(a.value, b.value))
  }

  /** The earliest expiry among deliveries still out, over the first `n` events. */
  function EarliestExpiry(es: seq<Event>, n: nat): (r: Option<int>)
    requires n <= |es|
    ensures forall e :: 0 <= e < n && es[e].state == Delivered && es[e].expires.Some? ==>
              r.Some? && r.value <= es[e].expires.value
    ensures r.Some? ==> exists e :: 0 <= e < n && es[e].state == Delivered && es[e].expires == r
  {
    if n == 0 then None
    else Earliest(EarliestExpiry(es, n - 1), if es[n - 1].state == Delivered then es[n - 1].expires else None)
  }

  /** How long a request that read the clock at `at` may sleep at most. */
  function StepFor(es: seq<Event>, remaining: int, at: int): (step: int)
    ensures step <= remaining
    ensures forall e :: 0 <= e < |es| && es[e].state == Delivered && es[e].expires.Some? ==>
              step <= Max(FLOOR, es[e].expires.value - at)
    ensures step == remaining || exists e :: 0 <= e < |es| && es[e].state == Delivered && es[e].expires.Some?
                                             && step == Max(FLOOR, es[e].expires.value - at)
  {
    var earliest := EarliestExpiry(es, |es|);
    if earliest.None? then remaining else Min(remaining, Max(FLOOR, earliest.value - at))
  }

  function Put(w: World, id: nat, r: Held): World {
    w.(held := w.held[id := r])
  }

  /** The transaction of a poll that found something. */
  function Taken(h: Hub, now: int, wait: Wait, lease: nat): Hub {
    match wait
    case ForAssignment(name, _) => ClaimAssignment(h, name).hub
    case ForReply(_, _) => h
    case ForEvent => LeaseNextEvent(h, now, lease).hub
  }

  /** The requests registered for a key. */
  function WaitersOn(w: World, key: Key): set<nat> {
    set id | id in w.held && KeyOf(w.held[id].wait) == key
  }

  /** The timer reading at which a sleeper's timeout fires. */
  function Until(pc: Pc): int
    requires pc.Asleep?
  {
    pc.since + pc.step
  }

  function Next(w: World, a: Action): World {
    match a
    case Tick(ms, shift) => w.(timer := w.timer + ms, wall := w.wall + shift)
    case Subscribe(id, wait, timeout) =>
      if id in w.held || !Sound(w.hub, wait) then w else Put(w, id, Held(wait, Top, false, w.timer + timeout))
    case Clear(id) =>
      if id in w.held && w.held[id].pc == Top then Put(w, id, w.held[id].(pc := Cleared, flag := false)) else w
    case Poll(id, lease) =>
      if id !in w.held || w.held[id].pc != Cleared then w
      else if Ready(w.hub, w.held[id].wait, w.wall) then
        w.(hub := Taken(w.hub, w.wall, w.held[id].wait, lease), held := w.held - {id})
      else Put(w, id, w.held[id].(pc := Polled))
    case Gauge(id) =>
      if id !in w.held || w.held[id].pc != Polled then w
      else if w.held[id].deadline <= w.timer then w.(held := w.held - {id})
      else Put(w, id, w.held[id].(pc := Gauged(w.held[id].deadline - w.timer, w.timer)))
    case ReadClock(id) =>
      if id !in w.held || !w.held[id].pc.Gauged? || !w.held[id].wait.ForEvent? then w
      else Put(w, id, w.held[id].(pc := Dated(w.held[id].pc.remaining, w.held[id].pc.gauged, w.wall)))
    case ReadExpiry(id) =>
      if id !in w.held || !w.held[id].pc.Dated? then w
      else
        var p := w.held[id].pc;
        Put(w, id, w.held[id].(pc := Measured(StepFor(w.hub.events, p.remaining, p.at), p.gauged, p.at)))
    case Sleep(id) =>
      if id !in w.held then w
      else
        var r := w.held[id];
        if r.pc.Measured? then Put(w, id, r.(pc := Asleep(w.timer, r.pc.step, r.pc.gauged, r.pc.at)))
        else if r.pc.Gauged? && !r.wait.ForEvent? then
          Put(w, id, r.(pc := Asleep(w.timer, r.pc.remaining, r.pc.gauged, w.wall)))
        else w
    case Rouse(id) =>
      if id in w.held && w.held[id].pc.Asleep? && (w.held[id].flag || Until(w.held[id].pc) <= w.timer)
      then Put(w, id, w.held[id].(pc := Top)) else w
    case Commit(writer, call) =>
      if writer in w.writers || (call.DoLease? && call.lease < 0) then w
      else
        var step := Apply(w.hub, w.wall, call);
        w.(hub := step.hub, writers := w.writers[writer := Writer(step.notified, {})])
    case Snapshot(writer, key) =>
      if writer !in w.writers || key !in w.writers[writer].keys then w
      else
        var found := WaitersOn(w, key);
        w.(writers := w.writers[writer := Writer(w.writers[writer].keys - {key}, w.writers[writer].targets + found)])
    case Wake(writer, id, home) =>
      if writer !in w.writers || id !in w.writers[writer].targets then w
      else
        var w1 := w.(writers := w.writers[writer := w.writers[writer].(targets := w.writers[writer].targets - {id})]);
        if id !in w.held then w1
        else if home then Put(w1, id, w.held[id].(flag := true))
        else w1.(scheduled := w1.scheduled + {id})
    case RunScheduled(id) =>
      if id !in w.scheduled then w
      else
        var w1 := w.(scheduled := w.scheduled - {id});
        if id in w.held then Put(w1, id, w.held[id].(flag := true)) else w1
    case Retire(writer) =>
      if writer in w.writers && w.writers[writer] == Writer({}, {}) then w.(writers := w.writers - {writer}) else w
  }

  function Play(w: World, actions: seq<Action>): World {
    if actions == [] then w else Next(Play(w, actions[..|actions| - 1]), actions[|actions| - 1])
  }

  /** The wakeup of `id` is on its way: its flag is set, about to be set, or a writer still owes it. */
  ghost predicate Coming(w: World, id: nat)
    requires id in w.held
  {
    || w.held[id].flag
    || id in w.scheduled
    || exists v :: v in w.writers && Owes(w.writers[v], w.held[id].wait, id)
  }

  predicate Owes(v: Writer, wait: Wait, id: nat) {
    KeyOf(wait) in v.keys || id in v.targets
  }

  /** There is nothing for the request in the tables, except what time alone will bring. */
  ghost predicate Settled(h: Hub, r: Held) {
    match r.wait
    case ForAssignment(_, _) => !Ready(h, r.wait, 0)
    case ForReply(_, _) => !Ready(h, r.wait, 0)
    case ForEvent =>
      && (forall e :: 0 <= e < |h.events| ==> h.events[e].state != Queued)
      && (r.pc.Measured? || r.pc.Asleep? ==>
            forall e :: 0 <= e < |h.events| && h.events[e].state == Delivered ==>
              h.events[e].expires.Some? && r.pc.step <= Max(FLOOR, h.events[e].expires.value - r.pc.at))
  }

  /** What a request means to sleep never reaches past its deadline, seen from when it gauged; only a request
      for events sleeps for less than what was left, and nobody sleeps for nothing. */
  predicate OnTime(r: Held, timer: int) {
    && (r.pc.Gauged? || r.pc.Dated? ==>
          r.pc.remaining == r.deadline - r.pc.gauged && r.pc.remaining > 0 && r.pc.gauged <= timer)
    && (r.pc.Measured? || r.pc.Asleep? ==>
          && 0 < r.pc.step <= r.deadline - r.pc.gauged && r.pc.gauged <= timer
          && (!r.wait.ForEvent? ==> r.pc.step == r.deadline - r.pc.gauged))
  }

  ghost predicate HeldOk(w: World, id: nat)
    requires id in w.held
  {
    var r := w.held[id];
    && Sound(w.hub, r.wait)
    && (r.pc.Asleep? ==> r.pc.gauged <= r.pc.since <= w.timer)
    && OnTime(r, w.timer)
    && (r.pc.Dated? || r.pc.Measured? ==> r.wait.ForEvent?)
    && (!r.pc.Top? && !r.pc.Cleared? ==> Coming(w, id) || Settled(w.hub, r))
  }

  ghost predicate Inv(w: World) {
    HubRuns.Inv(w.hub) && forall id :: id in w.held ==> HeldOk(w, id)
  }

  /** A transaction either leaves a settled request settled or notifies its key. */
  lemma SettledStep(h: Hub, now: int, call: Call, r: Held)
    requires HubRuns.Inv(h) && Sound(h, r.wait) && Settled(h, r)
    requires call.DoLease? ==> call.lease >= 0
    ensures Settled(Apply(h, now, call).hub, r) || KeyOf(r.wait) in Apply(h, now, call).notified
  {
    if r.wait.ForEvent? {
      SettledInbox(h, now, call, r);
    } else if Ready(Apply(h, now, call).hub, r.wait, now) {
      WritesNotify(h, now, call, r.wait);
    }
  }

  lemma SettledInbox(h: Hub, now: int, call: Call, r: Held)
    requires HubRuns.Inv(h) && r.wait.ForEvent? && Settled(h, r)
    requires call.DoLease? ==> call.lease >= 0
    ensures Settled(Apply(h, now, call).hub, r) || EventKey in Apply(h, now, call).notified
  {
    hide HubRuns.Inv;
    if call.DoLease? || call.DoAck? {
      InboxCallSettles(h, now, call, r);
    } else {
      hide Apply;
      Deliveries.StepAppends(h, now, call);
      if |Apply(h, now, call).hub.events| > |h.events| { NewEventsNotify(h, now, call); }
    }
  }

  lemma InboxCallSettles(h: Hub, now: int, call: Call, r: Held)
    requires r.wait.ForEvent? && Settled(h, r) && (call.DoAck? || (call.DoLease? && call.lease >= 0))
    ensures Settled(Apply(h, now, call).hub, r) || EventKey in Apply(h, now, call).notified
  {
  }

  /** Steps that change no table and take nothing that is coming to a request away. */
  lemma Calm(w: World, v: World, id: nat)
    requires HubRuns.Inv(w.hub) && v.hub == w.hub && id in w.held && id in v.held && HeldOk(w, id)
    requires v.held[id].wait == w.held[id].wait && w.timer <= v.timer
    requires v.held[id].deadline == w.held[id].deadline
    requires v.held[id].pc == w.held[id].pc && (w.held[id].flag ==> v.held[id].flag)
    requires Coming(w, id) ==> Coming(v, id)
    ensures HeldOk(v, id)
  {
  }

  lemma SubscribeKeeps(w: World, id: nat, wait: Wait, timeout: nat)
    requires Inv(w)
    ensures Inv(Next(w, Subscribe(id, wait, timeout)))
  {
    var v := Next(w, Subscribe(id, wait, timeout));
    forall i | i in v.held ensures HeldOk(v, i) {
      if i in w.held { Calm(w, v, i); }
    }
  }

  lemma LoopKeeps(w: World, a: Action)
    requires Inv(w) && (a.Clear? || a.Rouse? || a.Tick?)
    ensures Inv(Next(w, a))
  {
    var v := Next(w, a);
    forall i | i in v.held ensures HeldOk(v, i) {
      if v.held[i] == w.held[i] { Calm(w, v, i); }
    }
  }

  /** On its way from the poll to sleep a request takes nothing that is coming to it away. */
  lemma ParkedOk(w: World, a: Action, id: nat)
    requires Inv(w) && (a.Gauge? || a.ReadClock? || a.ReadExpiry? || a.Sleep?)
    requires id in Next(w, a).held && id in w.held && HeldOk(w, id) && Next(w, a).held[id] != w.held[id]
    ensures HeldOk(Next(w, a), id)
  {
    hide HubRuns.Inv, Apply, Ready, Sound, StepFor;
    var v := Next(w, a);
    if Coming(w, id) {
      assert Coming(v, id);
    } else if a.ReadExpiry? {
      ReadSettles(w, id);
    }
  }

  lemma ParkKeeps(w: World, a: Action)
    requires Inv(w) && (a.Gauge? || a.ReadClock? || a.ReadExpiry? || a.Sleep?)
    ensures Inv(Next(w, a))
  {
    hide HubRuns.Inv, Apply, Ready, Sound, StepFor;
    var v := Next(w, a);
    forall i | i in v.held ensures HeldOk(v, i) {
      assert HeldOk(w, i);
      if v.held[i] == w.held[i] {
        Calm(w, v, i);
      } else {
        ParkedOk(w, a, i);
      }
    }
  }

  /** The timeout covers every delivery that is out. */
  lemma ReadSettles(w: World, id: nat)
    requires Inv(w) && id in w.held && w.held[id].pc.Dated? && Settled(w.hub, w.held[id])
    ensures var p := w.held[id].pc;
      Settled(w.hub, w.held[id].(pc := Measured(StepFor(w.hub.events, p.remaining, p.at), p.gauged, p.at)))
  {
    var p := w.held[id].pc;
    if w.held[id].wait.ForEvent? {
      forall e | 0 <= e < |w.hub.events| && w.hub.events[e].state == Delivered
        ensures w.hub.events[e].expires.Some?
        ensures StepFor(w.hub.events, p.remaining, p.at) <= Max(FLOOR, w.hub.events[e].expires.value - p.at)
      {
        assert Deliveries.RowOk(w.hub, e);
      }
    }
  }

  /** A transaction, seen from a request that is not itself making it. */
  lemma CommitSeen(w: World, v: World, call: Call, id: nat)
    requires Inv(w) && id in w.held && id in v.held && v.held[id] == w.held[id]
    requires call.DoLease? ==> call.lease >= 0
    requires v.hub == Apply(w.hub, w.wall, call).hub && v.scheduled == w.scheduled
    requires v.wall == w.wall && v.timer == w.timer
    requires forall k :: k in w.writers ==> k in v.writers && v.writers[k] == w.writers[k]
    requires KeyOf(w.held[id].wait) in Apply(w.hub, w.wall, call).notified ==> Coming(v, id)
    ensures HeldOk(v, id)
  {
    assert HeldOk(w, id);
    StaysSound(w.hub, w.wall, call, w.held[id].wait);
    if Coming(w, id) {
      assert Coming(v, id);
    } else if Settled(w.hub, w.held[id]) {
      SettledStep(w.hub, w.wall, call, w.held[id]);
    }
  }

  lemma CommitKeeps(w: World, writer: nat, call: Call)
    requires Inv(w)
    ensures Inv(Next(w, Commit(writer, call)))
  {
    hide HubRuns.Inv;
    var v := Next(w, Commit(writer, call));
    if v != w {
      HubRuns.StepKeeps(w.hub, w.wall, call);
      forall i | i in v.held ensures HeldOk(v, i) {
        if KeyOf(w.held[i].wait) in Apply(w.hub, w.wall, call).notified {
          assert Owes(v.writers[writer], w.held[i].wait, i);
        }
        CommitSeen(w, v, call, i);
      }
    }
  }

  /** The call a successful poll makes. */
  function PollCall(wait: Wait, lease: nat): Call
    requires !wait.ForReply?
  {
    if wait.ForEvent? then DoLease(lease) else DoClaim(wait.name)
  }

  lemma PollKeeps(w: World, id: nat, lease: nat)
    requires Inv(w)
    ensures Inv(Next(w, Poll(id, lease)))
  {
    hide HubRuns.Inv;
    var v := Next(w, Poll(id, lease));
    if id in w.held && w.held[id].pc == Cleared {
      var wait := w.held[id].wait;
      if Ready(w.hub, wait, w.wall) && !wait.ForReply? {
        var call := PollCall(wait, lease);
        HubRuns.StepKeeps(w.hub, w.wall, call);
        forall i | i in v.held ensures HeldOk(v, i) { CommitSeen(w, v, call, i); }
      } else {
        forall i | i in v.held ensures HeldOk(v, i) {
          assert HeldOk(w, i);
          if v.held[i] == w.held[i] { Calm(w, v, i); } else { FoundNothing(w, wait); }
        }
      }
    }
  }

  lemma FoundNothing(w: World, wait: Wait)
    requires !Ready(w.hub, wait, w.wall)
    ensures forall r: Held :: r.wait == wait && r.pc == Polled ==> Settled(w.hub, r)
  {
    if wait.ForEvent? {
      forall e | 0 <= e < |w.hub.events| ensures w.hub.events[e].state != Queued {
        assert !Eligible(w.hub.events[e], w.wall);
      }
    }
  }

  lemma WritersKeep(w: World, a: Action)
    requires Inv(w) && (a.Snapshot? || a.Wake? || a.RunScheduled? || a.Retire?)
    ensures Inv(Next(w, a))
  {
    var v := Next(w, a);
    forall i | i in v.held ensures HeldOk(v, i) {
      assert HeldOk(w, i);
      if Coming(w, i) { StillComing(w, a, i); }
      Calm(w, v, i);
    }
  }

  lemma StillComing(w: World, a: Action, id: nat)
    requires id in w.held && Coming(w, id) && (a.Snapshot? || a.Wake? || a.RunScheduled? || a.Retire?)
    ensures id in Next(w, a).held && Coming(Next(w, a), id)
  {
    var v := Next(w, a);
    if !w.held[id].flag && id !in w.scheduled {
      var k :| k in w.writers && Owes(w.writers[k], w.held[id].wait, id);
      if k in v.writers && Owes(v.writers[k], v.held[id].wait, id) {
      } else {
        assert a == Wake(k, id, a.home);
      }
    }
  }

  lemma NextKeeps(w: World, a: Action)
    requires Inv(w)
    ensures Inv(Next(w, a))
  {
    match a
    case Subscribe(id, wait, timeout) => SubscribeKeeps(w, id, wait, timeout);
    case Poll(id, lease) => PollKeeps(w, id, lease);
    case Commit(writer, call) => CommitKeeps(w, writer, call);
    case Tick(_, _) => LoopKeeps(w, a);
    case Clear(_) => LoopKeeps(w, a);
    case Rouse(_) => LoopKeeps(w, a);
    case Gauge(_) => ParkKeeps(w, a);
    case ReadClock(_) => ParkKeeps(w, a);
    case ReadExpiry(_) => ParkKeeps(w, a);
    case Sleep(_) => ParkKeeps(w, a);
    case _ => WritersKeep(w, a);
  }

  lemma {:induction false} PlayKeeps(actions: seq<Action>)
    ensures Inv(Play(START, actions))
  {
    if actions == [] {
      HubRuns.EmptyInv();
    } else {
      PlayKeeps(actions[..|actions| - 1]);
      NextKeeps(Play(START, actions[..|actions| - 1]), actions[|actions| - 1]);
    }
  }

  /** A held request leaves exactly when its poll finds something, taking it, or when it looks at what time it
      has left and finds none. */
  lemma LeavesIff(w: World, a: Action, id: nat)
    requires id in w.held
    ensures id !in Next(w, a).held <==>
              || (a.Poll? && a.id == id && w.held[id].pc == Cleared && Ready(w.hub, w.held[id].wait, w.wall))
              || (a.Gauge? && a.id == id && w.held[id].pc == Polled && w.held[id].deadline <= w.timer)
    ensures a.Poll? && a.id == id && w.held[id].pc == Cleared && Ready(w.hub, w.held[id].wait, w.wall) ==>
              Next(w, a).hub == match w.held[id].wait
                case ForAssignment(name, _) => Apply(w.hub, w.wall, DoClaim(name)).hub
                case ForReply(_, _) => w.hub
                case ForEvent => Apply(w.hub, w.wall, DoLease(a.lease)).hub
  {
  }

  /** A sleeper wakes exactly when its flag is set or its timeout has come, to poll again. */
  lemma RousesIff(w: World, id: nat)
    requires id in w.held && w.held[id].pc.Asleep?
    ensures var v := Next(w, Rouse(id));
      if w.held[id].flag || w.held[id].pc.since + w.held[id].pc.step <= w.timer
      then v == w.(held := w.held[id := w.held[id].(pc := Top)]) else v == w
  {
  }

  /** The request goes round again at step `i`. */
  predicate Restarts(actions: seq<Action>, i: int, id: nat)
    requires 0 <= i < |actions|
  {
    var w := Play(START, actions[..i]);
    actions[i] == Clear(id) && id in w.held && w.held[id].pc == Top
  }

  /** Its flag was set at step `j`, and it has not gone round since. */
  predicate WokenAt(actions: seq<Action>, j: int, id: nat) {
    && 0 <= j < |actions|
    && (actions[j] == RunScheduled(id) || (actions[j].Wake? && actions[j].id == id && actions[j].home))
    && forall i :: j < i < |actions| ==> !Restarts(actions, i, id)
  }

  /** A flag stands for a wakeup since the last time round, so each wakeup costs at most one empty poll. */
  lemma {:induction false} FlagMeansWoken(actions: seq<Action>, id: nat)
    requires var w := Play(START, actions); id in w.held && w.held[id].flag
    ensures exists j :: WokenAt(actions, j, id)
  {
    if actions != [] {
      var n := |actions| - 1;
      var init, a := actions[..n], actions[n];
      FlagRises(Play(START, init), a, id);
      if a == RunScheduled(id) || (a.Wake? && a.id == id && a.home) {
        assert WokenAt(actions, n, id);
      } else {
        FlagMeansWoken(init, id);
        var j :| WokenAt(init, j, id);
        forall i | j < i < |actions| ensures !Restarts(actions, i, id) {
          if i < n {
            assert !Restarts(init, i, id);
            assert init[..i] == actions[..i];
          }
        }
        assert WokenAt(actions, j, id);
      }
    }
  }

  lemma FlagRises(w: World, a: Action, id: nat)
    requires id in Next(w, a).held && Next(w, a).held[id].flag
    ensures a == RunScheduled(id) || (a.Wake? && a.id == id && a.home)
            || (id in w.held && w.held[id].flag && !(a == Clear(id) && w.held[id].pc == Top))
  {
    hide Apply, Taken, Ready, StepFor, Sound;
  }

  /** In every reachable world a sleeper's timeout fires no later than its deadline, but for the time it took
      to fall asleep after gauging what was left; a request for an assignment or a reply sleeps exactly
      that long. */
  lemma SleepsToDeadline(actions: seq<Action>, id: nat)
    requires id in Play(START, actions).held && Play(START, actions).held[id].pc.Asleep?
    ensures var r := Play(START, actions).held[id];
      && r.pc.gauged <= r.pc.since && r.pc.since < Until(r.pc) <= r.deadline + (r.pc.since - r.pc.gauged)
      && (!r.wait.ForEvent? ==> Until(r.pc) == r.deadline + (r.pc.since - r.pc.gauged))
  {
    PlayKeeps(actions);
    assert HeldOk(Play(START, actions), id);
  }

  /** By how much the clock has gained on the timer since the sleeper read it. */
  function Gain(w: World, pc: Pc): int
    requires pc.Asleep?
  {
    (w.wall - pc.at) - (w.timer - pc.since)
  }

  /** Under every interleaving of writers and waiters, whatever the clock does: a request sleeps with nobody
      on the way to wake it only if a poll would find nothing, or what it would find is an expired
      delivery. Then its timeout fires within the floor, or within what the clock has gained on the timer
      since the request read it, whichever is more. */
  lemma NoLostWakeup(actions: seq<Action>, id: nat)
    requires id in Play(START, actions).held
    requires Play(START, actions).held[id].pc.Asleep? && !Coming(Play(START, actions), id)
    ensures var w := Play(START, actions); var r := w.held[id];
      Ready(w.hub, r.wait, w.wall) ==>
        r.wait.ForEvent? && Until(r.pc) <= w.timer + Max(FLOOR, Gain(w, r.pc))
        && exists e :: 0 <= e < |w.hub.events| && w.hub.events[e].state == Delivered && w.hub.events[e].expires.Some?
                       && w.hub.events[e].expires.value <= w.wall
                       && r.pc.step <= Max(FLOOR, w.hub.events[e].expires.value - r.pc.at)
  {
    PlayKeeps(actions);
    var w := Play(START, actions);
    assert HeldOk(w, id);
    if w.held[id].wait.ForEvent? && Ready(w.hub, ForEvent, w.wall) {
      var e := NextEligible(w.hub.events, w.wall, 0).value;
      assert w.hub.events[e].state == Delivered;
    }
  }

  /** A sleeper nobody is about to wake, while a poll would find something; the clock has gained `gain`. */
  ghost predicate Overdue(actions: seq<Action>, id: nat, gain: int) {
    var w := Play(START, actions);
    && id in w.held && w.held[id].pc.Asleep? && !Coming(w, id)
    && Ready(w.hub, w.held[id].wait, w.wall) && Gain(w, w.held[id].pc) == gain
  }

  /** And it will sleep on for longer than the floor. */
  ghost predicate Oversleeps(actions: seq<Action>, id: nat, gain: int) {
    var w := Play(START, actions);
    Overdue(actions, id, gain) && Until(w.held[id].pc) > w.timer + FLOOR
  }
}
