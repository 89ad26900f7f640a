/** Task leases under a clock that may step either way: bounded by the workflow cap, never moved
    back by a heartbeat, and reported at most once. */
module Leases {
  import opened HubTypes
  import opened HubSpec
  import Growth

  predicate IsReport(body: EventBody, t: nat) {
    body.LeaseExpired? && body.task == t
  }

  /** How many of the first `k` events report that the lease of `t` ran out. */
  function Reports(es: seq<Event>, t: nat, k: nat): nat
    requires k <= |es|
  {
    if k == 0 then 0 else Reports(es, t, k - 1) + (if IsReport(es[k - 1].body, t) then 1 else 0)
  }

  /** A held lease is within the cap and unreported; an open task without one was reported exactly once. */
  ghost predicate RowOk(h: Hub, t: nat)
    requires t < |h.tasks|
  {
    var task, reports := h.tasks[t], Reports(h.events, t, |h.events|);
    && reports <= 1
    && (!Terminal(task.state) && task.leaseExpires.Some? ==>
          reports == 0 && task.leaseExpires.value <= task.created + Cap(h))
    && (!Terminal(task.state) && task.leaseExpires.None? ==> reports == 1)
  }

  ghost predicate Inv(h: Hub) {
    && (|h.tasks| > 0 ==> h.workflow.Some?)
    && (forall t :: 0 <= t < |h.tasks| ==> RowOk(h, t))
    && (forall e :: 0 <= e < |h.events| && h.events[e].body.LeaseExpired? ==> h.events[e].body.task < |h.tasks|)
  }

  lemma {:induction false} ReportsFrame(a: seq<Event>, b: seq<Event>, t: nat, k: nat)
    requires k <= |a| && k <= |b|
    requires forall i :: 0 <= i < k ==> a[i].body == b[i].body
    ensures Reports(a, t, k) == Reports(b, t, k)
  {
    if k > 0 { ReportsFrame(a, b, t, k - 1); }
  }

  lemma {:induction false} ReportsSkip(es: seq<Event>, t: nat, j: nat, k: nat)
    requires j <= k <= |es|
    requires forall i :: j <= i < k ==> !IsReport(es[i].body, t)
    ensures Reports(es, t, k) == Reports(es, t, j)
    decreases k
  {
    if j < k { ReportsSkip(es, t, j, k - 1); }
  }

  /** How one row may change without a report: it ends, or it stays open under a lease within the cap
      or under none as before. */
  ghost predicate CalmRow(a: Task, b: Task, cap: int) {
    && b.created == a.created
    && (Terminal(a.state) ==> Terminal(b.state))
    && (Terminal(b.state) || (
          && b.leaseExpires.Some? == a.leaseExpires.Some?
          && (b.leaseExpires.Some? ==> b.leaseExpires == a.leaseExpires || b.leaseExpires.value <= a.created + cap)))
  }

  ghost predicate Calm(h: Hub, r: Hub) {
    && Growth.EventsExtend(h.events, r.events)
    && (forall i :: |h.events| <= i < |r.events| ==> !r.events[i].body.LeaseExpired?)
    && |h.tasks| <= |r.tasks|
    && (|r.tasks| > 0 ==> r.workflow.Some?)
    && (|h.tasks| > 0 ==> Cap(r) == Cap(h))
    && (forall t :: 0 <= t < |h.tasks| ==> CalmRow(h.tasks[t], r.tasks[t], Cap(h)))
    && (forall t :: |h.tasks| <= t < |r.tasks| ==>
          !Terminal(r.tasks[t].state) && r.tasks[t].leaseExpires.Some?
          && r.tasks[t].leaseExpires.value <= r.tasks[t].created + Cap(r))
  }

  lemma CalmKeeps(h: Hub, r: Hub)
    requires Inv(h) && Calm(h, r)
    ensures Inv(r)
  {
    forall t | 0 <= t < |r.tasks| ensures RowOk(r, t) {
      ReportsFrame(h.events, r.events, t, |h.events|);
      ReportsSkip(r.events, t, |h.events|, |r.events|);
      if t < |h.tasks| {
        assert RowOk(h, t) && CalmRow(h.tasks[t], r.tasks[t], Cap(h));
      } else {
        ReportsSkip(h.events, t, 0, |h.events|);
      }
    }
  }

  /** The cap is the workflow's rail, or two hours where it has none. */
  lemma CapIs(h: Hub)
    requires h.workflow.Some? ==> SoundPolicy(h.workflow.value.policy)
    ensures Cap(h) > 0
    ensures h.workflow.Some? && h.workflow.value.policy.maxLease.Some? ==>
      Some(Cap(h)) == h.workflow.value.policy.maxLease
    ensures h.workflow.None? || h.workflow.value.policy.maxLease.None? ==> Cap(h) == 120 * 60 * 1000
  {
  }

  /** Past the expiry check the cap is still ahead, so the branch that clamps to a passed cap never runs. */
  lemma CapAhead(h: Hub, t: nat, now: int)
    requires Inv(h) && Open(h, t) && h.tasks[t].leaseExpires.Some? && now < h.tasks[t].leaseExpires.value
    ensures now < h.tasks[t].created + Cap(h)
  {
    assert RowOk(h, t);
  }

  /** A heartbeat at any clock reading keeps every held lease held, never earlier, never past the cap. */
  lemma HeartbeatNeverShortens(h: Hub, now: int, name: string, instance: Instance, current: Option<nat>,
                               addr: Option<string>, t: nat)
    requires Inv(h) && Open(h, t) && h.tasks[t].leaseExpires.Some?
    ensures var r := Heartbeat(h, now, name, instance, current, addr).hub;
      && Open(r, t) && r.tasks[t].leaseExpires.Some?
      && h.tasks[t].leaseExpires.value <= r.tasks[t].leaseExpires.value <= h.tasks[t].created + Cap(h)
  {
    assert RowOk(h, t);
  }

  /** A lapsed lease, seen by the sweeper or not, is beyond renewal. */
  lemma LapsedStaysLapsed(h: Hub, now: int, name: string, instance: Instance, current: Option<nat>,
                          addr: Option<string>, t: nat)
    requires t < |h.tasks|
    requires h.tasks[t].leaseExpires.None? || h.tasks[t].leaseExpires.value <= now
    ensures Heartbeat(h, now, name, instance, current, addr).hub.tasks[t].leaseExpires == h.tasks[t].leaseExpires
  {
  }

  // -- the calls --------------------------------------------------------------

  lemma HeartbeatCalm(h: Hub, now: int, name: string, instance: Instance, current: Option<nat>,
                      addr: Option<string>)
    requires Inv(h)
    ensures Calm(h, Heartbeat(h, now, name, instance, current, addr).hub)
  {
  }

  lemma AssignCalm(h: Hub, now: int, b: Brief)
    requires Inv(h)
    ensures Calm(h, AssignTask(h, now, b).hub)
  {
  }

  lemma ResultCalm(h: Hub, t: nat, agent: string, result: TaskResult, op: string)
    requires Inv(h)
    ensures Calm(h, SubmitResult(h, t, agent, result, op).hub)
  {
    hide ResultEcho, TerminalStatus;
  }

  lemma QuestionCalm(h: Hub, t: nat, agent: string, question: Text, sentAs: string)
    requires Inv(h)
    ensures Calm(h, OpenQuestion(h, t, agent, question, sentAs).hub)
  {
  }

  lemma ReplyCalm(h: Hub, t: nat, text: Text, m: nat)
    requires Inv(h)
    ensures Calm(h, ReplyTo(h, t, text, m).hub)
  {
  }

  lemma CancelCalm(h: Hub, t: nat)
    requires Inv(h)
    ensures Calm(h, CancelTask(h, t).hub)
  {
  }

  lemma ClaimCalm(h: Hub, name: string)
    requires Inv(h)
    ensures Calm(h, ClaimAssignment(h, name).hub)
  {
  }

  lemma OverrideCalm(h: Hub, t: nat, state: TaskState, note: Text)
    requires Inv(h)
    ensures Calm(h, SetTaskState(h, t, state, note).hub)
  {
  }

  lemma PlainCalm(h: Hub, now: int, call: Call)
    requires Inv(h) && Growth.IsPlain(call) && Growth.Distinct(h.roster)
    ensures Calm(h, Apply(h, now, call).hub)
  {
    Growth.PlainCalls(h, now, call);
    Growth.StepExtends(h, now, call);
  }

  lemma {:induction false} ExpireKeeps(h: Hub, now: int, k: nat)
    requires Inv(h) && k <= |h.tasks|
    ensures Inv(ExpireLeases(h, now, k))
    ensures forall t :: 0 <= t < k ==> !Overdue(ExpireLeases(h, now, k).tasks[t], now)
  {
    if k > 0 {
      ExpireKeeps(h, now, k - 1);
      var prev, r := ExpireLeases(h, now, k - 1), ExpireLeases(h, now, k);
      if Overdue(h.tasks[k - 1], now) { ReportOne(prev, k - 1); }
    }
  }

  lemma ReportOne(h: Hub, t: nat)
    requires Inv(h) && Open(h, t) && h.tasks[t].leaseExpires.Some?
    ensures Inv(AddEvent(SetLease(h, t, None), LeaseExpired(t, h.tasks[t].assignee, h.tasks[t].leaseExpires.value)))
  {
    var r := AddEvent(SetLease(h, t, None), LeaseExpired(t, h.tasks[t].assignee, h.tasks[t].leaseExpires.value));
    forall u | 0 <= u < |r.tasks| ensures RowOk(r, u) {
      assert RowOk(h, u);
      ReportsFrame(h.events, r.events, u, |h.events|);
    }
  }

  lemma LoseOneCalm(h: Hub, name: string, row: Agent)
    requires Inv(h)
    ensures Calm(h, LoseAgent(h, name, row))
    ensures forall t :: 0 <= t < |h.tasks| ==>
              LoseAgent(h, name, row).tasks[t] == h.tasks[t] || Terminal(LoseAgent(h, name, row).tasks[t].state)
  {
  }

  lemma {:induction false} LoseKeeps(h: Hub, cutoff: int, k: nat)
    requires Inv(h) && k <= |h.roster|
    ensures Inv(LoseAgents(h, cutoff, k)) && |LoseAgents(h, cutoff, k).tasks| == |h.tasks|
    ensures forall t :: 0 <= t < |h.tasks| ==>
              LoseAgents(h, cutoff, k).tasks[t] == h.tasks[t] || Terminal(LoseAgents(h, cutoff, k).tasks[t].state)
  {
    if k > 0 {
      LoseKeeps(h, cutoff, k - 1);
      var prev, name := LoseAgents(h, cutoff, k - 1), h.roster[k - 1];
      if name in h.agents && Silent(h.agents[name], cutoff) {
        LoseOneCalm(prev, name, h.agents[name]);
        CalmKeeps(prev, LoseAgents(h, cutoff, k));
      }
    }
  }

  /** After a sweep nothing is overdue. */
  lemma SweepKeeps(h: Hub, now: int, lostAfter: int)
    requires Inv(h)
    ensures Inv(Sweep(h, now, lostAfter).hub)
    ensures forall t :: 0 <= t < |Sweep(h, now, lostAfter).hub.tasks| ==>
              !Overdue(Sweep(h, now, lostAfter).hub.tasks[t], now)
  {
    ExpireKeeps(h, now, |h.tasks|);
    var h1 := ExpireLeases(h, now, |h.tasks|);
    LoseKeeps(h1, now - lostAfter, |h1.roster|);
  }

  /** A task still open after a sweep at or past its cap has been reported exactly once. */
  lemma SweptPastCap(h: Hub, now: int, lostAfter: int, t: nat)
    requires Inv(h)
    requires Open(Sweep(h, now, lostAfter).hub, t)
    requires var r := Sweep(h, now, lostAfter).hub; r.tasks[t].created + Cap(r) <= now
    ensures var r := Sweep(h, now, lostAfter).hub; Reports(r.events, t, |r.events|) == 1
  {
    SweepKeeps(h, now, lostAfter);
    assert RowOk(Sweep(h, now, lostAfter).hub, t);
  }

  lemma StepKeeps(h: Hub, now: int, call: Call)
    requires Inv(h) && Growth.Distinct(h.roster)
    ensures Inv(Apply(h, now, call).hub)
  {
    hide Inv;
    var r := Apply(h, now, call).hub;
    match call
    case DoSweep(lostAfter) => SweepKeeps(h, now, lostAfter);
    case DoHeartbeat(name, instance, current, addr) =>
      HeartbeatCalm(h, now, name, instance, current, addr); CalmKeeps(h, r);
    case DoAssign(brief) => AssignCalm(h, now, brief); CalmKeeps(h, r);
    case DoResult(task, name, result, op) => ResultCalm(h, task, name, result, op); CalmKeeps(h, r);
    case DoQuestion(task, name, note, sentAs) => QuestionCalm(h, task, name, note, sentAs); CalmKeeps(h, r);
    case DoOverride(task, state, text) => OverrideCalm(h, task, state, text); CalmKeeps(h, r);
    case DoReply(task, text, messageId) => ReplyCalm(h, task, text, messageId); CalmKeeps(h, r);
    case DoCancel(task) => CancelCalm(h, task); CalmKeeps(h, r);
    case DoClaim(name) => ClaimCalm(h, name); CalmKeeps(h, r);
    case _ => PlainCalm(h, now, call); CalmKeeps(h, r);
  }
}
