/** Runs that show how a plausible claim about the hub fails. Each goes with the exact condition under
    which the claim holds. */
module Witnesses {
  import opened HubTypes
  import opened HubSpec
  import Deliveries
  import Questions
  import Redelivery
  import Stamps
  import W = Wakeups

  const NOBODY: Option<string> := None
  const PLAIN: Profile := Profile("", [], None, true)
  const BOB: Call := DoCheckIn("bob", PLAIN, "b", "1", NOBODY)
  const BOB_AGAIN: Call := DoCheckIn("bob", PLAIN, "b2", "2", NOBODY)
  const CAROL: Call := DoCheckIn("carol", PLAIN, "c", "1", NOBODY)
  const BEGIN: Call := DoInitialize("", Policy(None, None, None, None, None, "", true))

  lemma First(t: Timed)
    ensures Run(EMPTY, [t]) == Apply(EMPTY, t.now, t.call).hub
  {
    assert [t][..0] == [];
  }

  lemma After(trace: seq<Timed>, t: Timed)
    ensures Run(EMPTY, trace + [t]) == Apply(Run(EMPTY, trace), t.now, t.call).hub
  {
    assert (trace + [t])[..|trace|] == trace;
  }

  lemma WorkBegins()
    ensures var r := Apply(EMPTY, 0, BEGIN).hub; r.workflow.Some? && r.(workflow := None) == EMPTY
  {
  }

  /** Bob is the first to check in. */
  lemma BobArrives(h: Hub, now: int)
    requires h.(workflow := None) == EMPTY
    ensures var r := Apply(h, now, BOB).hub;
      && r.roster == ["bob"] && r.workflow == h.workflow && r.tasks == [] && |r.events| == 1
      && r.agents == map["bob" := Agent(Idle, 0, "b", now, now, None, None, PLAIN, NOBODY, NOBODY)]
      && |r.messages| == 1 && r.messages[0].kind == CheckInNote
      && r.operations.Keys == {OpKey("bob", "1")} && r.events[0].state == Queued
      && Apply(h, now, BOB).notified == {EventKey}
  {
  }

  // -- acks out of order ------------------------------------------------------

  const TWO_EVENTS: seq<Timed> := [Timed(0, BOB)] + [Timed(0, CAROL)]

  /** Two leases of a second each at the same instant. */
  const IMPATIENT: seq<Timed> := TWO_EVENTS + [Timed(0, DoLease(1000))] + [Timed(0, DoLease(1000))]

  lemma TwoArrive()
    ensures var h := Run(EMPTY, TWO_EVENTS);
      |h.events| == 2 && h.events[0].state == Queued && h.events[1].state == Queued
  {
    First(Timed(0, BOB));
    After([Timed(0, BOB)], Timed(0, CAROL));
    var h1 := Run(EMPTY, [Timed(0, BOB)]);
    BobArrives(EMPTY, 0);
    assert OpKey("carol", "1") !in h1.operations;
  }

  /** The second lease overtakes the first delivery, and both events are out. */
  lemma OrderCanBreak()
    ensures !Deliveries.InOrder(Run(EMPTY, IMPATIENT))
  {
    hide CheckIn;
    TwoArrive();
    After(TWO_EVENTS, Timed(0, DoLease(1000)));
    After(TWO_EVENTS + [Timed(0, DoLease(1000))], Timed(0, DoLease(1000)));
    var h2, h3 := Run(EMPTY, TWO_EVENTS), Run(EMPTY, TWO_EVENTS + [Timed(0, DoLease(1000))]);
    assert NextEligible(h2.events, 0, 0) == Some(0);
    assert NextEligible(h3.events, 0, 0) == Some(1);
    var h4 := Run(EMPTY, IMPATIENT);
    assert h4.events[0].state == Delivered && h4.events[1].state == Delivered;
  }

  // -- stamps that fall -------------------------------------------------------

  /** A sweep that finds one silent agent, bob, and no task. */
  lemma SweepLosesBob(h: Hub, now: int)
    requires h.roster == ["bob"] && h.agents.Keys == {"bob"} && h.tasks == [] && Silent(h.agents["bob"], now)
    requires h.agents["bob"].currentTask == None
    ensures var r := Apply(h, now, DoSweep(0)).hub;
      && r.agents == map["bob" := h.agents["bob"].(status := Lost)]
      && r.tasks == [] && r.operations == h.operations && r.workflow == h.workflow && |r.events| == |h.events| + 1
  {
    assert LoseAgents(h, now, 1) == LoseAgent(h, "bob", h.agents["bob"]);
  }

  const AWAY: seq<Timed> := [Timed(10, BOB)] + [Timed(10, DoSweep(0))]

  lemma BobIsLost()
    ensures var h := Run(EMPTY, AWAY);
      && h.agents.Keys == {"bob"} && h.agents["bob"].status == Lost
      && h.agents["bob"].lastHeartbeat == 10 && h.agents["bob"].lastSeen == 10
      && h.operations.Keys == {OpKey("bob", "1")}
  {
    hide Run, Apply;
    First(Timed(10, BOB));
    After([Timed(10, BOB)], Timed(10, DoSweep(0)));
    var h1 := Run(EMPTY, [Timed(10, BOB)]);
    BobArrives(EMPTY, 10);
    SweepLosesBob(h1, 10);
  }

  /** A worker declared lost checks in again after the clock was set back. */
  lemma StampsCanFall()
    ensures var h, r := Run(EMPTY, AWAY), Run(EMPTY, AWAY + [Timed(5, BOB_AGAIN)]);
      && "bob" in h.agents && "bob" in r.agents
      && h.agents["bob"].lastHeartbeat == 10 && r.agents["bob"].lastHeartbeat == 5
      && h.agents["bob"].lastSeen == 10 && r.agents["bob"].lastSeen == 5
  {
    hide CheckIn, Sweep;
    BobIsLost();
    After(AWAY, Timed(5, BOB_AGAIN));
    Stamps.CheckInResets(Run(EMPTY, AWAY), 5, "bob", PLAIN, "b2", "2", NOBODY, "bob");
  }

  // -- an assignment refused first and made later -----------------------------

  const BRIEF: Brief := Brief("bob", "", "", Text("", true), 1000, None, Some(0))

  const LOST: seq<Timed> := [Timed(0, BEGIN)] + [Timed(0, BOB)] + [Timed(0, DoSweep(0))]

  lemma BobIsLostAtWork()
    ensures var h := Run(EMPTY, LOST);
      && h.workflow.Some? && h.tasks == [] && |h.events| == 2
      && h.agents.Keys == {"bob"} && h.agents["bob"].status == Lost && h.agents["bob"].currentTask == None
      && h.operations.Keys == {OpKey("bob", "1")}
  {
    hide Run, Apply;
    First(Timed(0, BEGIN));
    After([Timed(0, BEGIN)], Timed(0, BOB));
    After([Timed(0, BEGIN)] + [Timed(0, BOB)], Timed(0, DoSweep(0)));
    var h1 := Run(EMPTY, [Timed(0, BEGIN)]);
    WorkBegins();
    var h2 := Run(EMPTY, [Timed(0, BEGIN)] + [Timed(0, BOB)]);
    BobArrives(h1, 0);
    SweepLosesBob(h2, 0);
  }

  /** Alice assigns in answer to a check-in whose worker is lost by then; the event comes again after the
      worker has, and the same assignment makes the task. */
  lemma RefusedThenMade()
    ensures var h, r := Run(EMPTY, LOST), Run(EMPTY, LOST + [Timed(0, BOB_AGAIN)]);
      && AssignTask(h, 0, BRIEF) == Refuse(h, Conflict)
      && AssignTask(r, 0, BRIEF).response.TaskIs? && AssignTask(r, 0, BRIEF).hub != r
  {
    BobIsLostAtWork();
    After(LOST, Timed(0, BOB_AGAIN));
    var h, r := Run(EMPTY, LOST), Run(EMPTY, LOST + [Timed(0, BOB_AGAIN)]);
    assert r.agents["bob"].status == Idle && r.workflow.Some? && r.tasks == [] && |r.events| == 3;
    Redelivery.AssignActsIff(r, 0, BRIEF);
  }

  // -- a question answered with the answer to another -------------------------

  const JOB: Brief := Brief("bob", "", "", Text("", true), 1000, None, None)

  const AT_WORK: seq<Timed> := [Timed(0, BEGIN)] + [Timed(0, BOB)] + [Timed(0, DoAssign(JOB))]

  const FIRST: Timed := Timed(0, DoQuestion(0, "bob", Text("first", true), "a"))
  const SECOND: Timed := Timed(0, DoQuestion(0, "bob", Text("second", true), "b"))
  const ANSWER: Timed := Timed(0, DoReply(0, Text("yes", true), 3))

  const SUPERSEDED: seq<Timed> := AT_WORK + [FIRST] + [SECOND] + [ANSWER]

  lemma BobIsAtWork()
    ensures var h := Run(EMPTY, AT_WORK);
      && |h.tasks| == 1 && h.tasks[0].state == Submitted && h.tasks[0].assignee == "bob"
      && "bob" in h.agents && |h.messages| == 2
      && h.messages[0].kind == CheckInNote && h.messages[1].kind == Assignment && h.messages[1].task == Some(0)
  {
    First(Timed(0, BEGIN));
    After([Timed(0, BEGIN)], Timed(0, BOB));
    After([Timed(0, BEGIN)] + [Timed(0, BOB)], Timed(0, DoAssign(JOB)));
    var h1 := Run(EMPTY, [Timed(0, BEGIN)]);
    WorkBegins();
    var h2 := Run(EMPTY, [Timed(0, BEGIN)] + [Timed(0, BOB)]);
    BobArrives(h1, 0);
    hide CheckIn;
    Redelivery.AssignActsIff(h2, 0, JOB);
  }

  lemma BobAsked()
    ensures var h := Run(EMPTY, AT_WORK + [FIRST]);
      && |h.tasks| == 1 && !Terminal(h.tasks[0].state) && h.tasks[0].assignee == "bob" && "bob" in h.agents
      && |h.messages| == 3
      && h.messages[0].kind == CheckInNote && h.messages[1].kind == Assignment
      && h.messages[2].kind == Question("a") && h.messages[2].task == Some(0)
  {
    BobIsAtWork();
    After(AT_WORK, FIRST);
    var h := Run(EMPTY, AT_WORK);
    assert AskedQuestion(h.messages, 0, "a", 0) == None;
    assert Run(EMPTY, AT_WORK + [FIRST]) == OpenQuestion(h, 0, "bob", Text("first", true), "a").hub;
  }

  lemma BobAskedAgain()
    ensures var h := Run(EMPTY, AT_WORK + [FIRST] + [SECOND]);
      && |h.tasks| == 1 && h.tasks[0].state == InputRequired && h.tasks[0].assignee in h.agents && |h.messages| == 4
      && h.messages[2].kind == Question("a") && h.messages[2].task == Some(0)
      && h.messages[3].kind == Question("b") && h.messages[3].task == Some(0)
  {
    BobAsked();
    After(AT_WORK + [FIRST], SECOND);
    var h, r := Run(EMPTY, AT_WORK + [FIRST]), Run(EMPTY, AT_WORK + [FIRST] + [SECOND]);
    assert AskedQuestion(h.messages, 0, "b", 0) == None;
    assert r == OpenQuestion(h, 0, "bob", Text("second", true), "b").hub;
  }

  /** The worker asks twice and Alice answers the second question: what is pending for the first is the
      answer to the second. */
  lemma AnswerCanBeAnothers()
    ensures var h := Run(EMPTY, SUPERSEDED);
      && |h.messages| == 5 && h.messages[2].kind == Question("a") && h.messages[3].kind == Question("b")
      && PendingReply(h, 0, 2) == Some(4)
      && Questions.Answers(h.messages, 0, 4, 3) && !Questions.Answers(h.messages, 0, 4, 2)
  {
    BobAskedAgain();
    After(AT_WORK + [FIRST] + [SECOND], ANSWER);
    var h, r := Run(EMPTY, AT_WORK + [FIRST] + [SECOND]), Run(EMPTY, SUPERSEDED);
    assert NewestQuestion(h.messages, 0, 4) == Some(3) && FirstFromAlice(h.messages, 0, 4) == None;
    assert r == ReplyTo(h, 0, Text("yes", true), 3).hub && |r.messages| == 5;
    assert FirstFromAlice(r.messages, 0, 3) == Some(4);
    assert Questions.Turn(r.messages, 0, 4) == Some(3);
  }

  const STOP: Timed := Timed(0, DoOverride(0, Failed, Text("stop", true)))

  lemma Stops(h: Hub)
    requires |h.tasks| == 1 && !Terminal(h.tasks[0].state) && h.tasks[0].assignee in h.agents
    ensures var r := Apply(h, 0, STOP.call).hub;
      |r.messages| == |h.messages| + 1 && r.messages[..|h.messages|] == h.messages
      && r.messages[|h.messages|].kind == StateOverride && r.messages[|h.messages|].task == Some(0)
  {
  }

  /** Alice ends the task instead: what is pending for its only question is the override. */
  lemma AnswerCanBeAnOverride()
    ensures var h := Run(EMPTY, AT_WORK + [FIRST] + [STOP]);
      && |h.messages| == 4 && h.messages[2].kind == Question("a") && h.messages[3].kind == StateOverride
      && PendingReply(h, 0, 2) == Some(3) && NewestQuestion(h.messages, 0, 3) == Some(2)
      && !Questions.Answers(h.messages, 0, 3, 2)
  {
    BobAsked();
    After(AT_WORK + [FIRST], STOP);
    Stops(Run(EMPTY, AT_WORK + [FIRST]));
    hide Run, Apply;
    var h, r := Run(EMPTY, AT_WORK + [FIRST]), Run(EMPTY, AT_WORK + [FIRST] + [STOP]);
    assert forall i :: 0 <= i < 3 ==> r.messages[i] == h.messages[i];
    assert NewestQuestion(r.messages, 0, 3) == Some(2);
  }

  // -- a sleeper left behind by its clock -------------------------------------

  lemma AfterAction(actions: seq<W.Action>, a: W.Action)
    ensures W.Play(W.START, actions + [a]) == W.Next(W.Play(W.START, actions), a)
  {
    assert (actions + [a])[..|actions|] == actions;
  }

  const QUEUED: seq<W.Action> := [] + [W.Commit(1, BOB)] + [W.Snapshot(1, EventKey)]

  function OneOut(gain: nat): seq<W.Action> {
    QUEUED + [W.Commit(2, DoLease(gain))]
  }

  function Waiting(gain: nat): seq<W.Action> {
    OneOut(gain) + [W.Subscribe(7, W.ForEvent, 2 * gain)] + [W.Clear(7)] + [W.Poll(7, 0)]
  }

  function Sleeping(gain: nat): seq<W.Action> {
    Waiting(gain) + [W.Gauge(7)] + [W.ReadClock(7)] + [W.ReadExpiry(7)] + [W.Sleep(7)]
  }

  lemma SnapshotOfNobody(w: W.World, writer: nat, key: Key)
    requires w.held == map[] && writer in w.writers && key in w.writers[writer].keys
    ensures W.Next(w, W.Snapshot(writer, key))
            == w.(writers := w.writers[writer := W.Writer(w.writers[writer].keys - {key}, w.writers[writer].targets)])
  {
    assert W.WaitersOn(w, key) == {} && w.writers[writer].targets + {} == w.writers[writer].targets;
  }

  lemma OneIsQueued()
    ensures var w := W.Play(W.START, QUEUED);
      && w == W.START.(hub := Apply(EMPTY, 0, BOB).hub, writers := map[1 := W.Writer({}, {})])
      && |w.hub.events| == 1 && w.hub.events[0].state == Queued
  {
    AfterAction([], W.Commit(1, BOB));
    AfterAction([] + [W.Commit(1, BOB)], W.Snapshot(1, EventKey));
    BobArrives(EMPTY, 0);
    Nothing();
    hide W.Play, Apply;
    var w := W.Play(W.START, [] + [W.Commit(1, BOB)]);
    assert w.writers == map[1 := W.Writer({EventKey}, {})];
    SnapshotOfNobody(w, 1, EventKey);
    assert {EventKey} - {EventKey} == {};
  }

  /** One event is out for `gain` milliseconds, and nobody owes anyone a wakeup. */
  lemma OneIsOut(gain: nat)
    ensures var w := W.Play(W.START, OneOut(gain));
      && OutFor(w, gain) && w.scheduled == {}
      && w.writers == map[1 := W.Writer({}, {}), 2 := W.Writer({}, {})]
  {
    OneIsQueued();
    AfterAction(QUEUED, W.Commit(2, DoLease(gain)));
    LeasesOne(W.Play(W.START, QUEUED).hub, gain);
    hide W.Play, Apply;
  }

  lemma LeasesOne(h: Hub, gain: nat)
    requires |h.events| == 1 && h.events[0].state == Queued
    ensures var s := Apply(h, 0, DoLease(gain));
      && s.notified == {} && |s.hub.events| == 1
      && s.hub.events[0].state == Delivered && s.hub.events[0].expires == Some(gain)
  {
    assert NextEligible(h.events, 0, 0) == Some(0);
  }

  lemma Nothing()
    ensures W.Play(W.START, []) == W.START
  {
  }

  function Waiter(pc: W.Pc, gain: nat): map<nat, W.Held> {
    map[7 := W.Held(W.ForEvent, pc, false, 2 * gain)]
  }

  /** One delivery is out, for `gain` milliseconds. */
  predicate OutFor(o: W.World, gain: nat) {
    && o.wall == 0 && o.timer == 0 && o.held == map[]
    && |o.hub.events| == 1 && o.hub.events[0].state == Delivered && o.hub.events[0].expires == Some(gain)
  }

  lemma PollsInVain(o: W.World, gain: nat)
    requires gain > W.FLOOR && OutFor(o, gain)
    ensures W.Next(o, W.Subscribe(7, W.ForEvent, 2 * gain)) == o.(held := Waiter(W.Top, gain))
    ensures W.Next(o.(held := Waiter(W.Top, gain)), W.Clear(7)) == o.(held := Waiter(W.Cleared, gain))
    ensures W.Next(o.(held := Waiter(W.Cleared, gain)), W.Poll(7, 0)) == o.(held := Waiter(W.Polled, gain))
  {
    hide Apply;
    assert NextEligible(o.hub.events, 0, 0) == None;
  }

  lemma ParksForOne(o: W.World, gain: nat)
    requires gain > W.FLOOR && OutFor(o, gain)
    ensures W.Next(o.(held := Waiter(W.Polled, gain)), W.Gauge(7)) == o.(held := Waiter(W.Gauged(2 * gain, 0), gain))
    ensures W.Next(o.(held := Waiter(W.Gauged(2 * gain, 0), gain)), W.ReadClock(7))
            == o.(held := Waiter(W.Dated(2 * gain, 0, 0), gain))
    ensures W.Next(o.(held := Waiter(W.Dated(2 * gain, 0, 0), gain)), W.ReadExpiry(7))
            == o.(held := Waiter(W.Measured(gain, 0, 0), gain))
    ensures W.Next(o.(held := Waiter(W.Measured(gain, 0, 0), gain)), W.Sleep(7))
            == o.(held := Waiter(W.Asleep(0, gain, 0, 0), gain))
  {
    assert W.EarliestExpiry(o.hub.events, 1) == Some(gain);
    assert W.StepFor(o.hub.events, 2 * gain, 0) == gain;
    hide Apply, W.EarliestExpiry, W.StepFor, NextEligible, W.Ready;
  }

  /** It polls in vain and sleeps until that delivery expires. */
  lemma BobSleeps(gain: nat)
    requires gain > W.FLOOR
    ensures var w, o := W.Play(W.START, Sleeping(gain)), W.Play(W.START, OneOut(gain));
      w == o.(held := Waiter(W.Asleep(0, gain, 0, 0), gain))
  {
    hide Apply, W.Next, W.Play, Waiter;
    OneIsOut(gain);
    PollsInVain(W.Play(W.START, OneOut(gain)), gain);
    ParksForOne(W.Play(W.START, OneOut(gain)), gain);
    AfterAction(OneOut(gain), W.Subscribe(7, W.ForEvent, 2 * gain));
    AfterAction(OneOut(gain) + [W.Subscribe(7, W.ForEvent, 2 * gain)], W.Clear(7));
    AfterAction(OneOut(gain) + [W.Subscribe(7, W.ForEvent, 2 * gain)] + [W.Clear(7)], W.Poll(7, 0));
    AfterAction(Waiting(gain), W.Gauge(7));
    AfterAction(Waiting(gain) + [W.Gauge(7)], W.ReadClock(7));
    AfterAction(Waiting(gain) + [W.Gauge(7)] + [W.ReadClock(7)], W.ReadExpiry(7));
    AfterAction(Waiting(gain) + [W.Gauge(7)] + [W.ReadClock(7)] + [W.ReadExpiry(7)], W.Sleep(7));
  }

  /** A sleeper can be left longer than the floor with something to find, and nobody about to wake it, if and
      only if the clock has gained more than the floor on the timer since the sleeper read it. */
  lemma OversleepsIff(gain: int)
    ensures (exists actions, id: nat :: W.Oversleeps(actions, id, gain)) <==> gain > W.FLOOR
  {
    if exists actions, id: nat :: W.Oversleeps(actions, id, gain) {
      var actions, id: nat :| W.Oversleeps(actions, id, gain);
      W.NoLostWakeup(actions, id);
    }
    if gain > W.FLOOR {
      BobSleeps(gain);
      OneIsOut(gain);
      AfterAction(Sleeping(gain), W.Tick(0, gain));
      var w := W.Play(W.START, Sleeping(gain) + [W.Tick(0, gain)]);
      assert Eligible(w.hub.events[0], gain);
      assert W.Oversleeps(Sleeping(gain) + [W.Tick(0, gain)], 7, gain);
    }
  }
}
