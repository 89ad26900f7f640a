/** The life of an agent: check-ins, losses, releases, and the workspaces live agents sit in. */
module AgentHistory {
  import opened HubTypes
  import opened HubSpec
  import Growth

  // -- the roster -------------------------------------------------------------

  /** The roster lists every agent once, and an agent's context is its place on it. */
  ghost predicate RosterOk(h: Hub) {
    && Growth.Distinct(h.roster)
    && (forall i :: 0 <= i < |h.roster| ==> h.roster[i] in h.agents && h.agents[h.roster[i]].context == i)
    && (forall n :: n in h.agents ==> Seated(h, n))
  }

  ghost predicate Seated(h: Hub, name: string)
    requires name in h.agents
  {
    h.agents[name].context < |h.roster| && h.roster[h.agents[name].context] == name
  }

  // -- workspaces -------------------------------------------------------------

  predicate Apart(a: Agent, b: Agent) {
    Live(a.status) && Live(b.status) && a.profile.workspace.Some? ==> a.profile.workspace != b.profile.workspace
  }

  /** No two live agents share a workspace. */
  ghost predicate WorkspacesOk(h: Hub) {
    forall n, m :: n in h.agents && m in h.agents && n != m ==> Apart(h.agents[n], h.agents[m])
  }

  // -- check-ins and losses ---------------------------------------------------

  predicate IsCheckIn(body: EventBody, name: string) {
    body.AgentCheckedIn? && body.agent == name
  }

  predicate IsLoss(body: EventBody, name: string) {
    body.AgentLost? && body.agent == name
  }

  /** Among the first `k` events, the last check-in or loss of `name` is a check-in. */
  predicate Here(es: seq<Event>, name: string, k: nat)
    requires k <= |es|
  {
    k > 0 && (IsCheckIn(es[k - 1].body, name) || (!IsLoss(es[k - 1].body, name) && Here(es, name, k - 1)))
  }

  /** Every loss finds its agent checked in. */
  ghost predicate LossesFollow(es: seq<Event>) {
    forall i :: 0 <= i < |es| && es[i].body.AgentLost? ==> Here(es, es[i].body.agent, i)
  }

  /** A live agent's last trace in the log is its check-in. */
  ghost predicate PresenceOk(h: Hub) {
    forall n :: n in h.agents && Live(h.agents[n].status) ==> Here(h.events, n, |h.events|)
  }

  ghost predicate Inv(h: Hub) {
    RosterOk(h) && WorkspacesOk(h) && LossesFollow(h.events) && PresenceOk(h)
  }

  /** Only bodies matter, so leasing and acking change nothing and appending looks only at the end. */
  lemma {:induction false} HereFrame(a: seq<Event>, b: seq<Event>, name: string, k: nat)
    requires k <= |a| && k <= |b|
    requires forall i :: 0 <= i < k ==> a[i].body == b[i].body
    ensures Here(a, name, k) == Here(b, name, k)
  {
    if k > 0 { HereFrame(a, b, name, k - 1); }
  }

  /** Two losses of one agent always have a check-in of it between them. */
  lemma {:induction false} CheckInBetween(es: seq<Event>, name: string, i: nat, j: nat)
    requires i < j <= |es| && Here(es, name, j) && IsLoss(es[i].body, name)
    ensures exists k :: i < k < j && IsCheckIn(es[k].body, name)
    decreases j
  {
    if !IsCheckIn(es[j - 1].body, name) {
      CheckInBetween(es, name, i, j - 1);
    }
  }

  lemma LossesAlternate(es: seq<Event>, name: string, i: nat, j: nat)
    requires LossesFollow(es) && i < j < |es| && IsLoss(es[i].body, name) && IsLoss(es[j].body, name)
    ensures exists k :: i < k < j && IsCheckIn(es[k].body, name)
  {
    CheckInBetween(es, name, i, j);
  }

  // -- what keeps the log in step with the rows -------------------------------

  /** A call that queues nothing about presence and makes nobody live. */
  lemma LogFrame(h: Hub, r: Hub)
    requires LossesFollow(h.events) && PresenceOk(h) && Growth.EventsExtend(h.events, r.events)
    requires forall i :: |h.events| <= i < |r.events| ==>
               !r.events[i].body.AgentCheckedIn? && !r.events[i].body.AgentLost?
    requires forall n :: n in r.agents && Live(r.agents[n].status) ==> n in h.agents && Live(h.agents[n].status)
    ensures LossesFollow(r.events) && PresenceOk(r)
  {
    forall i | 0 <= i < |r.events| && r.events[i].body.AgentLost?
      ensures Here(r.events, r.events[i].body.agent, i)
    {
      HereFrame(h.events, r.events, r.events[i].body.agent, i);
    }
    forall n | n in r.agents && Live(r.agents[n].status) ensures Here(r.events, n, |r.events|) {
      HereFrame(h.events, r.events, n, |h.events|);
      HereSkips(r.events, n, |h.events|, |r.events|);
    }
  }

  lemma {:induction false} HereSkips(es: seq<Event>, name: string, j: nat, k: nat)
    requires j <= k <= |es| && Here(es, name, j)
    requires forall i :: j <= i < k ==> !IsCheckIn(es[i].body, name) && !IsLoss(es[i].body, name)
    ensures Here(es, name, k)
    decreases k - j
  {
    if j < k { HereSkips(es, name, j, k - 1); }
  }

  /** A call that only touches columns other than status, context and profile. */
  lemma RowsFrame(h: Hub, r: Hub)
    requires RosterOk(h) && WorkspacesOk(h) && r.roster == h.roster && r.agents.Keys == h.agents.Keys
    requires forall n :: n in h.agents ==>
               && r.agents[n].context == h.agents[n].context
               && (Live(r.agents[n].status) ==> Live(h.agents[n].status))
               && r.agents[n].profile == h.agents[n].profile
    ensures RosterOk(r) && WorkspacesOk(r)
  {
    forall n | n in r.agents ensures Seated(r, n) {
      assert Seated(h, n);
    }
    forall n, m | n in r.agents && m in r.agents && n != m ensures Apart(r.agents[n], r.agents[m]) {
      assert Apart(h.agents[n], h.agents[m]);
    }
  }

  lemma CheckInKeeps(h: Hub, now: int, name: string, profile: Profile, instance: Instance, op: string,
                     addr: Option<string>)
    requires Inv(h)
    ensures Inv(CheckIn(h, now, name, profile, instance, op, addr).hub)
  {
    var r := CheckIn(h, now, name, profile, instance, op, addr).hub;
    if r != h {
      CheckInRows(h, now, name, profile, instance, op, addr);
      var k := |h.events|;
      forall i | 0 <= i < |r.events| && r.events[i].body.AgentLost?
        ensures Here(r.events, r.events[i].body.agent, i)
      {
        HereFrame(h.events, r.events, r.events[i].body.agent, i);
      }
      forall n | n in r.agents && Live(r.agents[n].status) ensures Here(r.events, n, |r.events|) {
        HereFrame(h.events, r.events, n, k);
      }
    }
  }

  lemma CheckInRows(h: Hub, now: int, name: string, profile: Profile, instance: Instance, op: string,
                    addr: Option<string>)
    requires Inv(h) && CheckIn(h, now, name, profile, instance, op, addr).hub != h
    ensures var r := CheckIn(h, now, name, profile, instance, op, addr).hub; RosterOk(r) && WorkspacesOk(r)
  {
    hide RosterOk, WorkspacesOk, LossesFollow, PresenceOk;
    var row := CheckedInRow(h, now, name, profile, instance, addr);
    SeatRow(h, name, row);
    PlaceRow(h, name, row);
    var r := CheckIn(h, now, name, profile, instance, op, addr).hub;
    SameRows(h.(agents := h.agents[name := row], roster := r.roster), r);
  }

  lemma SameRows(h: Hub, r: Hub)
    requires RosterOk(h) && WorkspacesOk(h) && r.agents == h.agents && r.roster == h.roster
    ensures RosterOk(r) && WorkspacesOk(r)
  {
    forall n | n in r.agents ensures Seated(r, n) { assert Seated(h, n); }
    forall n, m | n in r.agents && m in r.agents && n != m ensures Apart(r.agents[n], r.agents[m]) {
      assert Apart(h.agents[n], h.agents[m]);
    }
  }

  lemma PlaceRow(h: Hub, name: string, row: Agent)
    requires WorkspacesOk(h) && !WorkspaceTaken(h, name, row.profile)
    ensures WorkspacesOk(h.(agents := h.agents[name := row],
                            roster := if name in h.agents then h.roster else h.roster + [name]))
  {
    var agents := h.agents[name := row];
    forall n, m | n in agents && m in agents && n != m ensures Apart(agents[n], agents[m]) {
      if n != name && m != name { assert Apart(h.agents[n], h.agents[m]); }
    }
  }

  lemma SeatRow(h: Hub, name: string, row: Agent)
    requires RosterOk(h)
    requires row.context == if name in h.agents then h.agents[name].context else |h.roster|
    ensures RosterOk(h.(agents := h.agents[name := row],
                        roster := if name in h.agents then h.roster else h.roster + [name]))
  {
    var r := h.(agents := h.agents[name := row],
                roster := if name in h.agents then h.roster else h.roster + [name]);
    forall n | n in r.agents ensures Seated(r, n) {
      if n in h.agents { assert Seated(h, n); }
    }
  }

  lemma LoseOneKeeps(h: Hub, name: string, row: Agent)
    requires Inv(h) && name in h.agents && Live(h.agents[name].status)
    ensures Inv(LoseAgent(h, name, row))
  {
    hide LoseAgent;
    var r := LoseAgent(h, name, row);
    LoseOneRows(h, name, row);
    RowsFrame(h, r);
    LoseOneLogged(h, r, name);
  }

  /** A live agent's loss, logged right after its last check-in. */
  lemma LoseOneLogged(h: Hub, r: Hub, name: string)
    requires LossesFollow(h.events) && PresenceOk(h) && name in h.agents && Live(h.agents[name].status)
    requires r.agents.Keys == h.agents.Keys
    requires forall n :: n in h.agents ==> Live(r.agents[n].status) == (Live(h.agents[n].status) && n != name)
    requires |r.events| == |h.events| + 1 && r.events[..|h.events|] == h.events
    requires IsLoss(r.events[|h.events|].body, name)
    ensures LossesFollow(r.events) && PresenceOk(r)
  {
    forall i | 0 <= i < |r.events| && r.events[i].body.AgentLost?
      ensures Here(r.events, r.events[i].body.agent, i)
    {
      HereFrame(h.events, r.events, r.events[i].body.agent, i);
    }
    forall n | n in r.agents && Live(r.agents[n].status) ensures Here(r.events, n, |r.events|) {
      HereFrame(h.events, r.events, n, |h.events|);
    }
  }

  lemma LoseOneRows(h: Hub, name: string, row: Agent)
    ensures var r := LoseAgent(h, name, row);
      && r.roster == h.roster && r.agents.Keys == h.agents.Keys
      && (forall n :: n in h.agents ==>
            && r.agents[n].context == h.agents[n].context && r.agents[n].profile == h.agents[n].profile
            && Live(r.agents[n].status) == (Live(h.agents[n].status) && n != name))
      && |r.events| == |h.events| + 1 && r.events[..|h.events|] == h.events
      && IsLoss(r.events[|h.events|].body, name)
  {
  }

  lemma {:induction false} LoseKeeps(h: Hub, cutoff: int, k: nat)
    requires Inv(h) && k <= |h.roster|
    ensures Inv(LoseAgents(h, cutoff, k))
  {
    if k > 0 {
      assert Growth.Distinct(h.roster);
      hide Inv, LoseAgent, Silent;
      LoseKeeps(h, cutoff, k - 1);
      var prev, name := LoseAgents(h, cutoff, k - 1), h.roster[k - 1];
      if name in h.agents && Silent(h.agents[name], cutoff) {
        assert Live(h.agents[name].status) by { SilentLives(h.agents[name], cutoff); }
        Growth.StillLive(h, cutoff, k - 1, k - 1);
        LoseOneKeeps(prev, name, h.agents[name]);
        assert LoseAgents(h, cutoff, k) == LoseAgent(prev, name, h.agents[name]);
      } else {
        assert LoseAgents(h, cutoff, k) == prev;
      }
    }
  }

  lemma SilentLives(a: Agent, cutoff: int)
    requires Silent(a, cutoff)
    ensures Live(a.status)
  {
  }

  lemma {:induction false} ExpireKeeps(h: Hub, now: int, k: nat)
    requires Inv(h) && k <= |h.tasks|
    ensures Inv(ExpireLeases(h, now, k)) && ExpireLeases(h, now, k).roster == h.roster
  {
    if k > 0 {
      ExpireKeeps(h, now, k - 1);
      var prev, r := ExpireLeases(h, now, k - 1), ExpireLeases(h, now, k);
      RowsFrame(prev, r);
      LogFrame(prev, r);
    }
  }

  /** A call that leaves contexts, profiles and the dead alone and queues no presence event. */
  ghost predicate Quiet(h: Hub, r: Hub) {
    && r.roster == h.roster && r.agents.Keys == h.agents.Keys
    && (forall n :: n in h.agents ==>
          && r.agents[n].context == h.agents[n].context
          && (Live(r.agents[n].status) ==> Live(h.agents[n].status))
          && r.agents[n].profile == h.agents[n].profile)
    && Growth.EventsExtend(h.events, r.events)
    && (forall i :: |h.events| <= i < |r.events| ==>
          !r.events[i].body.AgentCheckedIn? && !r.events[i].body.AgentLost?)
  }

  lemma QuietKeeps(h: Hub, r: Hub)
    requires Inv(h) && Quiet(h, r)
    ensures Inv(r)
  {
    RowsFrame(h, r);
    LogFrame(h, r);
  }

  lemma ResultQuiet(h: Hub, t: nat, agent: string, result: TaskResult, op: string)
    ensures Quiet(h, SubmitResult(h, t, agent, result, op).hub)
  {
    hide ResultEcho, TerminalStatus;
  }

  lemma QuestionQuiet(h: Hub, t: nat, agent: string, question: Text, sentAs: string)
    ensures Quiet(h, OpenQuestion(h, t, agent, question, sentAs).hub)
  {
  }

  lemma ProgressQuiet(h: Hub, now: int, t: nat, agent: string, note: Text, op: string)
    ensures Quiet(h, RecordProgress(h, now, t, agent, note, op).hub)
  {
  }

  lemma AssignQuiet(h: Hub, now: int, b: Brief)
    ensures Quiet(h, AssignTask(h, now, b).hub)
  {
  }

  lemma HeartbeatQuiet(h: Hub, now: int, name: string, instance: Instance, current: Option<nat>,
                       addr: Option<string>)
    ensures Quiet(h, Heartbeat(h, now, name, instance, current, addr).hub)
  {
  }

  lemma OverrideQuiet(h: Hub, t: nat, state: TaskState, note: Text)
    ensures Quiet(h, SetTaskState(h, t, state, note).hub)
  {
  }

  lemma CancelQuiet(h: Hub, t: nat)
    ensures Quiet(h, CancelTask(h, t).hub)
  {
  }

  lemma ReplyQuiet(h: Hub, t: nat, text: Text, m: nat)
    ensures Quiet(h, ReplyTo(h, t, text, m).hub)
  {
  }

  lemma ClaimQuiet(h: Hub, name: string)
    ensures Quiet(h, ClaimAssignment(h, name).hub)
  {
  }

  lemma OtherQuiet(h: Hub, now: int, call: Call)
    requires call.DoRelease? || call.DoLease? || call.DoAck?
    ensures Quiet(h, Apply(h, now, call).hub)
  {
  }

  lemma AuditQuiet(h: Hub, now: int, call: Call)
    requires call.DoInitialize? || call.DoStatus? || call.DoDecision?
    ensures Quiet(h, Apply(h, now, call).hub)
  {
  }

  lemma StepQuiet(h: Hub, now: int, call: Call)
    requires !call.DoSweep? && !call.DoCheckIn?
    ensures Quiet(h, Apply(h, now, call).hub)
  {
    hide Quiet;
    match call
    case DoResult(task, name, result, op) => ResultQuiet(h, task, name, result, op);
    case DoQuestion(task, name, note, sentAs) => QuestionQuiet(h, task, name, note, sentAs);
    case DoProgress(task, name, note, op) => ProgressQuiet(h, now, task, name, note, op);
    case DoAssign(brief) => AssignQuiet(h, now, brief);
    case DoHeartbeat(name, instance, current, addr) => HeartbeatQuiet(h, now, name, instance, current, addr);
    case DoOverride(task, state, text) => OverrideQuiet(h, task, state, text);
    case DoCancel(task) => CancelQuiet(h, task);
    case DoReply(task, text, messageId) => ReplyQuiet(h, task, text, messageId);
    case DoClaim(name) => ClaimQuiet(h, name);
    case DoInitialize(_, _) => AuditQuiet(h, now, call);
    case DoStatus(_, _) => AuditQuiet(h, now, call);
    case DoDecision(_, _, _) => AuditQuiet(h, now, call);
    case _ => OtherQuiet(h, now, call);
  }

  lemma SweepKeeps(h: Hub, now: int, lostAfter: int)
    requires Inv(h)
    ensures Inv(Sweep(h, now, lostAfter).hub)
  {
    hide RosterOk, WorkspacesOk, LossesFollow, PresenceOk;
    ExpireKeeps(h, now, |h.tasks|);
    var h1 := ExpireLeases(h, now, |h.tasks|);
    LoseKeeps(h1, now - lostAfter, |h1.roster|);
  }

  lemma StepKeeps(h: Hub, now: int, call: Call)
    requires Inv(h)
    ensures Inv(Apply(h, now, call).hub)
  {
    hide Inv;
    match call
    case DoSweep(lostAfter) =>
      SweepKeeps(h, now, lostAfter);
    case DoCheckIn(name, profile, instance, op, addr) => CheckInKeeps(h, now, name, profile, instance, op, addr);
    case _ =>
      StepQuiet(h, now, call);
      QuietKeeps(h, Apply(h, now, call).hub);
  }
}
