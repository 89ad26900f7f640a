/** What a sweep does: which leases run out, which agents are lost, what becomes of their tasks, and what
    Alice is told.
 */
module Sweeping {
  import opened HubTypes
  import opened HubSpec
  import Growth
  import AgentHistory
  import Holder

  /** The lease has run out on an open task. */
  predicate RunOut(task: Task, now: int) {
    && task.state in {Submitted, Working, InputRequired}
    && task.leaseExpires.Some? && task.leaseExpires.value <= now
  }

  /** The agent is there and has not been heard from for too long. */
  predicate GoneSilent(a: Agent, cutoff: int) {
    a.status in {Idle, Busy} && a.lastHeartbeat <= cutoff
  }

  predicate IsQueued(e: Event, body: EventBody) {
    e == Event(body, Queued, None, 0, None)
  }

  // -- the lease pass ---------------------------------------------------------

  function Report(h: Hub, t: nat): EventBody
    requires t < |h.tasks| && h.tasks[t].leaseExpires.Some?
  {
    LeaseExpired(t, h.tasks[t].assignee, h.tasks[t].leaseExpires.value)
  }

  /** Event `i` of the pass reports that the lease of `t`, which had run out. */
  ghost predicate Reports(h: Hub, r: Hub, now: int, i: nat, t: nat)
    requires i < |r.events|
  {
    t < |h.tasks| && RunOut(h.tasks[t], now) && IsQueued(r.events[i], Report(h, t))
  }

  /** The pass over the first `k` tasks: a lease that had run out is gone and reported, once; nothing else. */
  ghost predicate Expired(h: Hub, r: Hub, now: int, k: nat) {
    && r == h.(tasks := r.tasks, events := r.events)
    && |r.tasks| == |h.tasks| && h.events <= r.events
    && (forall t :: 0 <= t < |h.tasks| ==>
          r.tasks[t] == if t < k && RunOut(h.tasks[t], now) then h.tasks[t].(leaseExpires := None) else h.tasks[t])
    && (forall t :: 0 <= t < |h.tasks| && t < k && RunOut(h.tasks[t], now) ==>
          exists i :: |h.events| <= i < |r.events| && Reports(h, r, now, i, t))
    && (forall i :: |h.events| <= i < |r.events| ==> r.events[i].body.LeaseExpired? && r.events[i].body.task < k
                                                     && Reports(h, r, now, i, r.events[i].body.task))
    && (forall i, j :: |h.events| <= i < j < |r.events| ==> r.events[i].body.task < r.events[j].body.task)
  }

  lemma NoExpiry(h: Hub, now: int)
    ensures ExpireLeases(h, now, 0) == h && Expired(h, h, now, 0)
  {
  }

  lemma NextLease(h: Hub, now: int, t: nat)
    requires t < |h.tasks|
    ensures var p := ExpireLeases(h, now, t);
      && p.tasks[t] == h.tasks[t]
      && ExpireLeases(h, now, t + 1)
         == if RunOut(h.tasks[t], now) then AddEvent(SetLease(p, t, None), Report(h, t)) else p
  {
    hide AddEvent, SetLease;
  }

  lemma {:induction false} ExpiryDoes(h: Hub, now: int, k: nat)
    requires k <= |h.tasks|
    ensures Expired(h, ExpireLeases(h, now, k), now, k)
  {
    hide Expired, ExpireLeases, AddEvent, SetLease;
    if k == 0 {
      NoExpiry(h, now);
    } else {
      ExpiryDoes(h, now, k - 1);
      NextLease(h, now, k - 1);
      ExpiryStep(h, ExpireLeases(h, now, k - 1), ExpireLeases(h, now, k), now, k - 1);
    }
  }

  lemma ExpiryStep(h: Hub, p: Hub, r: Hub, now: int, t: nat)
    requires t < |h.tasks| && Expired(h, p, now, t) && p.tasks[t] == h.tasks[t]
    requires r == if RunOut(h.tasks[t], now) then AddEvent(SetLease(p, t, None), Report(h, t)) else p
    ensures Expired(h, r, now, t + 1)
  {
    forall u | 0 <= u < |h.tasks| && u < t + 1 && RunOut(h.tasks[u], now)
      ensures exists i :: |h.events| <= i < |r.events| && Reports(h, r, now, i, u)
    {
      if u < t {
        var i :| |h.events| <= i < |p.events| && Reports(h, p, now, i, u);
        assert Reports(h, r, now, i, u);
      } else {
        assert Reports(h, r, now, |p.events|, t);
      }
    }
    forall i | |h.events| <= i < |r.events|
      ensures r.events[i].body.LeaseExpired? && r.events[i].body.task < t + 1
              && Reports(h, r, now, i, r.events[i].body.task)
    {
      if i < |p.events| { assert Reports(h, p, now, i, p.events[i].body.task); }
    }
  }

  // -- the silence pass -------------------------------------------------------

  function Loss(h: Hub, n: string): EventBody
    requires n in h.agents
  {
    AgentLost(n, h.agents[n].currentTask, h.agents[n].lastHeartbeat)
  }

  /** The pass has come to this agent and found it silent. */
  predicate Gone(h: Hub, cutoff: int, k: nat, n: string) {
    n in h.agents && h.agents[n].context < k && GoneSilent(h.agents[n], cutoff)
  }

  predicate LostWith(h: Hub, cutoff: int, k: nat, t: nat)
    requires t < |h.tasks|
  {
    h.tasks[t].state in {Submitted, Working, InputRequired} && Gone(h, cutoff, k, h.tasks[t].assignee)
  }

  ghost predicate Tells(h: Hub, r: Hub, i: nat, n: string)
    requires i < |r.events|
  {
    n in h.agents && IsQueued(r.events[i], Loss(h, n))
  }

  ghost predicate AgentsLost(h: Hub, r: Hub, cutoff: int, k: nat) {
    && r.agents.Keys == h.agents.Keys
    && forall n :: n in h.agents ==>
         r.agents[n] == if Gone(h, cutoff, k, n) then h.agents[n].(status := Lost, currentTask := None) else h.agents[n]
  }

  ghost predicate TasksLost(h: Hub, r: Hub, cutoff: int, k: nat) {
    && |r.tasks| == |h.tasks|
    && forall t :: 0 <= t < |h.tasks| ==>
         r.tasks[t] == if LostWith(h, cutoff, k, t)
                       then h.tasks[t].(state := Failed, leaseExpires := None,
                                        result := Some(WorkerLost(h.tasks[t].assignee)))
                       else h.tasks[t]
  }

  ghost predicate LossesTold(h: Hub, r: Hub, cutoff: int, k: nat) {
    && h.events <= r.events
    && (forall n :: Gone(h, cutoff, k, n) ==> exists i :: |h.events| <= i < |r.events| && Tells(h, r, i, n))
    && (forall i :: |h.events| <= i < |r.events| ==> r.events[i].body.AgentLost?
                                                     && Gone(h, cutoff, k, r.events[i].body.agent)
                                                     && Tells(h, r, i, r.events[i].body.agent))
    && (forall i, j :: |h.events| <= i < j < |r.events| ==> r.events[i].body.agent != r.events[j].body.agent)
  }

  /** All that the pass over the first `k` agents does. */
  ghost predicate Losses(h: Hub, r: Hub, cutoff: int, k: nat) {
    && AgentsLost(h, r, cutoff, k) && TasksLost(h, r, cutoff, k) && LossesTold(h, r, cutoff, k)
    && r == h.(agents := r.agents, tasks := r.tasks, events := r.events)
  }

  lemma NoLosses(h: Hub, cutoff: int)
    ensures LoseAgents(h, cutoff, 0) == h && Losses(h, h, cutoff, 0)
  {
  }

  /** The agent at place `k - 1` is `n` and nobody else. */
  lemma OneSeat(h: Hub, k: nat)
    requires AgentHistory.RosterOk(h) && 0 < k <= |h.roster|
    ensures h.roster[k - 1] in h.agents && h.agents[h.roster[k - 1]].context == k - 1
    ensures forall m :: m in h.agents && h.agents[m].context == k - 1 ==> m == h.roster[k - 1]
  {
    forall m | m in h.agents && h.agents[m].context == k - 1 ensures m == h.roster[k - 1] {
      assert AgentHistory.Seated(h, m);
    }
  }

  lemma LossSkips(h: Hub, r: Hub, cutoff: int, k: nat, n: string)
    requires k > 0 && Losses(h, r, cutoff, k - 1) && n in h.agents && h.agents[n].context == k - 1
    requires forall m :: m in h.agents && h.agents[m].context == k - 1 ==> m == n
    requires !GoneSilent(h.agents[n], cutoff)
    ensures Losses(h, r, cutoff, k)
  {
    assert forall m :: Gone(h, cutoff, k, m) <==> Gone(h, cutoff, k - 1, m);
    hide Gone;
  }

  lemma NextVisit(h: Hub, cutoff: int, k: nat)
    requires 0 < k <= |h.roster| && h.roster[k - 1] in h.agents
    ensures var p, n := LoseAgents(h, cutoff, k - 1), h.roster[k - 1];
      LoseAgents(h, cutoff, k) == if GoneSilent(h.agents[n], cutoff) then LoseAgent(p, n, h.agents[n]) else p
  {
    hide LoseAgent;
  }

  lemma {:induction false} LossDoes(h: Hub, cutoff: int, k: nat)
    requires AgentHistory.RosterOk(h) && Holder.Inv(h) && k <= |h.roster|
    ensures Losses(h, LoseAgents(h, cutoff, k), cutoff, k)
  {
    hide AgentHistory.RosterOk, Holder.Inv, LoseAgents, LoseAgent, Losses;
    if k == 0 {
      NoLosses(h, cutoff);
    } else {
      LossDoes(h, cutoff, k - 1);
      OneSeat(h, k);
      NextVisit(h, cutoff, k);
      var p, n := LoseAgents(h, cutoff, k - 1), h.roster[k - 1];
      if GoneSilent(h.agents[n], cutoff) {
        LossStep(h, p, LoseAgents(h, cutoff, k), cutoff, k, n);
      } else {
        LossSkips(h, p, cutoff, k, n);
      }
    }
  }

  lemma LossStep(h: Hub, p: Hub, r: Hub, cutoff: int, k: nat, n: string)
    requires Holder.Inv(h) && k > 0 && n in h.agents && h.agents[n].context == k - 1
    requires forall m :: m in h.agents && h.agents[m].context == k - 1 ==> m == n
    requires GoneSilent(h.agents[n], cutoff) && r == LoseAgent(p, n, h.agents[n])
    requires Losses(h, p, cutoff, k - 1)
    ensures Losses(h, r, cutoff, k)
  {
    assert forall m :: Gone(h, cutoff, k, m) <==> m == n || Gone(h, cutoff, k - 1, m);
    var task := h.agents[n].currentTask;
    assert Holder.AgentHolds(h, n);
    assert task.Some? ==> !LostWith(h, cutoff, k - 1, task.value) && LostWith(h, cutoff, k, task.value);
    assert OpenTaskId(p, task) == task;
    LosingComes(p, r, n, h.agents[n]);
    hide LoseAgent, Holder.Inv, Gone, LostWith;
    StepAgents(h, p, r, cutoff, k, n);
    StepTasks(h, p, r, cutoff, k, n);
    StepTold(h, p, r, cutoff, k, n);
  }

  /** What losing one agent comes to, for a row whose task is still open. */
  lemma LosingComes(p: Hub, r: Hub, n: string, row: Agent)
    requires r == LoseAgent(p, n, row) && OpenTaskId(p, row.currentTask) == row.currentTask
    ensures r == p.(agents := r.agents, tasks := r.tasks, events := r.events) && r.agents.Keys == p.agents.Keys
    ensures r.events == p.events + [Event(AgentLost(n, row.currentTask, row.lastHeartbeat), Queued, None, 0, None)]
    ensures row.currentTask.None? ==> r.tasks == p.tasks
    ensures row.currentTask.Some? ==>
              var t := row.currentTask.value;
              t < |p.tasks| && r.tasks == p.tasks[t := p.tasks[t].(state := Failed, leaseExpires := None,
                                                                   result := Some(WorkerLost(n)))]
    ensures forall m :: m in p.agents && m != n
                        && (row.currentTask.None? || p.agents[m].currentTask != row.currentTask) ==>
              r.agents[m] == p.agents[m]
    ensures n in p.agents && p.agents[n].currentTask == row.currentTask ==>
              r.agents[n] == p.agents[n].(status := Lost, currentTask := None)
  {
  }

  lemma StepAgents(h: Hub, p: Hub, r: Hub, cutoff: int, k: nat, n: string)
    requires Holder.Inv(h) && k > 0 && n in h.agents && h.agents[n].context == k - 1
    requires GoneSilent(h.agents[n], cutoff) && AgentsLost(h, p, cutoff, k - 1)
    requires forall m :: Gone(h, cutoff, k, m) <==> m == n || Gone(h, cutoff, k - 1, m)
    requires !Gone(h, cutoff, k - 1, n)
    requires r.agents.Keys == p.agents.Keys
    requires var row := h.agents[n];
      forall m :: m in p.agents && m != n && (row.currentTask.None? || p.agents[m].currentTask != row.currentTask) ==>
        r.agents[m] == p.agents[m]
    requires n in p.agents && p.agents[n].currentTask == h.agents[n].currentTask ==>
               r.agents[n] == p.agents[n].(status := Lost, currentTask := None)
    ensures AgentsLost(h, r, cutoff, k)
  {
    hide Gone;
    forall m | m in h.agents
      ensures r.agents[m] == if Gone(h, cutoff, k, m) then h.agents[m].(status := Lost, currentTask := None)
                             else h.agents[m]
    {
      assert Holder.AgentHolds(h, m) && Holder.AgentHolds(h, n);
    }
  }

  lemma StepTasks(h: Hub, p: Hub, r: Hub, cutoff: int, k: nat, n: string)
    requires Holder.Inv(h) && k > 0 && n in h.agents && TasksLost(h, p, cutoff, k - 1)
    requires forall m :: Gone(h, cutoff, k, m) <==> m == n || Gone(h, cutoff, k - 1, m)
    requires !Gone(h, cutoff, k - 1, n)
    requires h.agents[n].currentTask.None? ==> r.tasks == p.tasks
    requires h.agents[n].currentTask.Some? ==>
               var t := h.agents[n].currentTask.value;
               t < |p.tasks| && r.tasks == p.tasks[t := p.tasks[t].(state := Failed, leaseExpires := None,
                                                                    result := Some(WorkerLost(n)))]
    ensures TasksLost(h, r, cutoff, k)
  {
    hide Gone;
    assert Holder.AgentHolds(h, n);
    forall t | 0 <= t < |h.tasks|
      ensures LostWith(h, cutoff, k, t) <==> h.agents[n].currentTask == Some(t) || LostWith(h, cutoff, k - 1, t)
      ensures h.agents[n].currentTask == Some(t) ==> !LostWith(h, cutoff, k - 1, t) && h.tasks[t].assignee == n
    {
      assert Holder.TaskHeld(h, t);
    }
  }

  lemma StepTold(h: Hub, p: Hub, r: Hub, cutoff: int, k: nat, n: string)
    requires k > 0 && n in h.agents && LossesTold(h, p, cutoff, k - 1)
    requires forall m :: Gone(h, cutoff, k, m) <==> m == n || Gone(h, cutoff, k - 1, m)
    requires !Gone(h, cutoff, k - 1, n)
    requires r.events == p.events + [Event(Loss(h, n), Queued, None, 0, None)]
    ensures LossesTold(h, r, cutoff, k)
  {
    hide Gone;
    forall m | Gone(h, cutoff, k, m) ensures exists i :: |h.events| <= i < |r.events| && Tells(h, r, i, m) {
      if m == n {
        assert Tells(h, r, |p.events|, n);
      } else {
        var i :| |h.events| <= i < |p.events| && Tells(h, p, i, m);
        assert Tells(h, r, i, m);
      }
    }
    forall i | |h.events| <= i < |r.events|
      ensures r.events[i].body.AgentLost? && Gone(h, cutoff, k, r.events[i].body.agent)
              && Tells(h, r, i, r.events[i].body.agent)
    {
      if i < |p.events| { assert Tells(h, p, i, p.events[i].body.agent); }
    }
  }

  // -- the sweep --------------------------------------------------------------

  /** After the lease pass the silence pass finds the same agents, and open tasks open. */
  lemma PassesMeet(h: Hub, now: int, lostAfter: int)
    requires AgentHistory.RosterOk(h) && Holder.Inv(h)
    ensures var e, r := ExpireLeases(h, now, |h.tasks|), Sweep(h, now, lostAfter).hub;
      && Expired(h, e, now, |h.tasks|) && Losses(e, r, now - lostAfter, |h.roster|)
  {
    hide Expired, Losses, Holder.Inv, AgentHistory.RosterOk, LoseAgents, ExpireLeases;
    var e := ExpireLeases(h, now, |h.tasks|);
    ExpiryDoes(h, now, |h.tasks|);
    Holder.ExpireKeeps(h, now, |h.tasks|);
    Growth.RosterKept(h, now, |h.tasks|);
    SameRoster(h, e);
    LossDoes(e, now - lostAfter, |h.roster|);
  }

  lemma SameRoster(h: Hub, e: Hub)
    requires AgentHistory.RosterOk(h) && e.agents == h.agents && e.roster == h.roster
    ensures AgentHistory.RosterOk(e)
  {
    forall n | n in e.agents ensures AgentHistory.Seated(e, n) { assert AgentHistory.Seated(h, n); }
  }

  /** Exactly the agents last heard from too long ago are lost, and of their rows only status and current
      task change; every other row stays as it is. */
  lemma SweepLosesIff(h: Hub, now: int, lostAfter: int, n: string)
    requires AgentHistory.RosterOk(h) && Holder.Inv(h) && n in h.agents
    ensures var r := Sweep(h, now, lostAfter).hub;
      && r.agents.Keys == h.agents.Keys
      && (r.agents[n].status == Lost <==>
            || h.agents[n].status == Lost
            || (h.agents[n].status in {Idle, Busy} && h.agents[n].lastHeartbeat + lostAfter <= now))
      && (r.agents[n] == h.agents[n] || r.agents[n] == h.agents[n].(status := Lost, currentTask := None))
  {
    PassesMeet(h, now, lostAfter);
    assert AgentHistory.Seated(h, n);
    assert Holder.AgentHolds(h, n);
  }

  /** Exactly the open tasks of agents lost in it fail, each in its agent's name; exactly the other open tasks
      whose lease has run out lose it; every other task stays as it is. */
  lemma SweepTasks(h: Hub, now: int, lostAfter: int, t: nat)
    requires AgentHistory.RosterOk(h) && Holder.Inv(h) && t < |h.tasks|
    ensures var r := Sweep(h, now, lostAfter).hub;
      var task := h.tasks[t];
      && |r.tasks| == |h.tasks|
      && if task.state in {Submitted, Working, InputRequired} && task.assignee in h.agents
            && h.agents[task.assignee].status != Lost
            && task.assignee in r.agents && r.agents[task.assignee].status == Lost
         then r.tasks[t] == task.(state := Failed, leaseExpires := None, result := Some(WorkerLost(task.assignee)))
         else if RunOut(task, now) then r.tasks[t] == task.(leaseExpires := None)
         else r.tasks[t] == task
  {
    PassesMeet(h, now, lostAfter);
    assert Holder.TaskHeld(h, t);
    if h.tasks[t].assignee in h.agents {
      assert AgentHistory.Seated(h, h.tasks[t].assignee);
      SweepLosesIff(h, now, lostAfter, h.tasks[t].assignee);
    }
  }

  /** Event `i` is news of this sweep: a lease that had run out, or an agent newly lost, as they were read. */
  ghost predicate News(h: Hub, r: Hub, now: int, i: nat)
    requires i < |r.events|
  {
    var body := r.events[i].body;
    || (body.LeaseExpired? && body.task < |h.tasks| && RunOut(h.tasks[body.task], now)
        && IsQueued(r.events[i], Report(h, body.task)))
    || (body.AgentLost? && body.agent in h.agents && body.agent in r.agents
        && h.agents[body.agent].status != Lost && r.agents[body.agent].status == Lost
        && IsQueued(r.events[i], Loss(h, body.agent)))
  }

  /** Alice is told exactly that, once each, and woken if there is anything to tell. */
  lemma SweepTells(h: Hub, now: int, lostAfter: int)
    requires AgentHistory.RosterOk(h) && Holder.Inv(h)
    ensures var s := Sweep(h, now, lostAfter);
      && h.events <= s.hub.events && s.response == Swept(|h.events|, |s.hub.events|)
      && s.notified == (if |s.hub.events| == |h.events| then {} else {EventKey})
      && (forall i :: |h.events| <= i < |s.hub.events| ==> News(h, s.hub, now, i))
      && s.hub.(agents := h.agents, tasks := h.tasks, events := h.events) == h
  {
    PassesMeet(h, now, lostAfter);
    var e, r := ExpireLeases(h, now, |h.tasks|), Sweep(h, now, lostAfter).hub;
    forall i | |h.events| <= i < |r.events| ensures News(h, r, now, i) {
      if i < |e.events| {
        assert Reports(h, e, now, i, e.events[i].body.task);
      } else {
        assert Tells(e, r, i, r.events[i].body.agent);
        SweepLosesIff(h, now, lostAfter, r.events[i].body.agent);
      }
    }
  }

  lemma SweepTellsOfLease(h: Hub, now: int, lostAfter: int, t: nat)
    requires AgentHistory.RosterOk(h) && Holder.Inv(h) && t < |h.tasks| && RunOut(h.tasks[t], now)
    ensures var r := Sweep(h, now, lostAfter).hub;
      exists i :: |h.events| <= i < |r.events| && IsQueued(r.events[i], Report(h, t))
                  && forall j :: |h.events| <= j < |r.events| && r.events[j].body == Report(h, t) ==> j == i
  {
    PassesMeet(h, now, lostAfter);
    var e, r := ExpireLeases(h, now, |h.tasks|), Sweep(h, now, lostAfter).hub;
    var i :| |h.events| <= i < |e.events| && Reports(h, e, now, i, t);
    assert r.events[i] == e.events[i];
    assert forall j :: |e.events| <= j < |r.events| ==> r.events[j].body.AgentLost?;
    assert forall j :: |h.events| <= j < |e.events| ==> r.events[j] == e.events[j];
  }

  /** Event `i` is the only one since `h` that tells of a loss of `n`. */
  ghost predicate OnlyTells(h: Hub, r: Hub, i: int, n: string) {
    && |h.events| <= i < |r.events|
    && forall j :: |h.events| <= j < |r.events| && r.events[j].body.AgentLost? && r.events[j].body.agent == n ==> j == i
  }

  lemma ToldOnce(h: Hub, e: Hub, r: Hub, now: int, cutoff: int, k: nat, n: string)
    requires Expired(h, e, now, |h.tasks|) && LossesTold(e, r, cutoff, k) && Gone(e, cutoff, k, n)
    ensures exists i :: OnlyTells(h, r, i, n) && IsQueued(r.events[i], Loss(e, n))
  {
    var i :| |e.events| <= i < |r.events| && Tells(e, r, i, n);
    assert forall j :: |h.events| <= j < |e.events| ==> r.events[j] == e.events[j] && r.events[j].body.LeaseExpired?;
    assert OnlyTells(h, r, i, n);
  }

  /** An agent newly lost has exactly one event, naming the open task it held and the heartbeat read. */
  lemma SweepTellsOfLoss(h: Hub, now: int, lostAfter: int, n: string)
    requires AgentHistory.RosterOk(h) && Holder.Inv(h) && n in h.agents && h.agents[n].status != Lost
    requires n in Sweep(h, now, lostAfter).hub.agents && Sweep(h, now, lostAfter).hub.agents[n].status == Lost
    ensures var r := Sweep(h, now, lostAfter).hub;
      exists i :: OnlyTells(h, r, i, n)
                  && IsQueued(r.events[i], AgentLost(n, h.agents[n].currentTask, h.agents[n].lastHeartbeat))
  {
    hide LoseAgents, ExpireLeases, Sweep, LossesTold, Holder.Inv;
    var e, r := ExpireLeases(h, now, |h.tasks|), Sweep(h, now, lostAfter).hub;
    PassesMeet(h, now, lostAfter);
    SweepLosesIff(h, now, lostAfter, n);
    assert AgentHistory.Seated(h, n);
    assert Gone(e, now - lostAfter, |h.roster|, n);
    ToldOnce(h, e, r, now, now - lostAfter, |h.roster|, n);
  }
}
