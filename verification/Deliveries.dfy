/** Alice's inbox: every lease mints a delivery id, only the newest one of an event acks it, and a
    disciplined reader acks the queue in order. */
module Deliveries {
  import opened HubTypes
  import opened HubSpec
  import Store

  /** The newest of the first `k` deliveries that was for event `e`. */
  function Newest(ds: seq<nat>, e: nat, k: nat): (r: Option<nat>)
    requires k <= |ds|
    ensures r.Some? ==> r.value < k && ds[r.value] == e && forall i :: r.value < i < k ==> ds[i] != e
    ensures r.None? ==> forall i :: 0 <= i < k ==> ds[i] != e
  {
    if k == 0 then None
    else if ds[k - 1] == e then Some(k - 1)
    else Newest(ds, e, k - 1)
  }

  /** How often event `e` was leased among the first `k` deliveries. */
  function Leases(ds: seq<nat>, e: nat, k: nat): nat
    requires k <= |ds|
  {
    if k == 0 then 0 else Leases(ds, e, k - 1) + (if ds[k - 1] == e then 1 else 0)
  }

  /** The row of event `e` is what the delivery log says. */
  ghost predicate RowOk(h: Hub, e: nat)
    requires e < |h.events|
  {
    var row := h.events[e];
    && row.deliveryId == Newest(h.deliveries, e, |h.deliveries|)
    && row.attempts == Leases(h.deliveries, e, |h.deliveries|)
    && (row.state == Queued <==> row.deliveryId.None?)
    && (row.state == Delivered ==> row.expires.Some?)
  }

  ghost predicate Inv(h: Hub) {
    && (forall e :: 0 <= e < |h.events| ==> RowOk(h, e))
    && (forall d :: 0 <= d < |h.deliveries| ==> h.deliveries[d] < |h.events|)
  }

  /** An ack counts exactly when it names the newest delivery of an event not acked yet. Neither the
      clock nor the delivery's expiry has a say. */
  lemma AckCountsIff(h: Hub, d: nat)
    requires Inv(h)
    ensures AckEvent(h, d).response == Flag(true) <==>
              d < |h.deliveries| && h.events[h.deliveries[d]].state != Acked
              && Newest(h.deliveries, h.deliveries[d], |h.deliveries|) == Some(d)
  {
    if exists e :: 0 <= e < |h.events| && Outstanding(h.events[e], d) {
      var e :| 0 <= e < |h.events| && Outstanding(h.events[e], d);
      assert RowOk(h, e);
    }
    if d < |h.deliveries| && Newest(h.deliveries, h.deliveries[d], |h.deliveries|) == Some(d)
       && h.events[h.deliveries[d]].state != Acked {
      assert RowOk(h, h.deliveries[d]);
      assert Outstanding(h.events[h.deliveries[d]], d);
    }
  }

  /** A counted ack moves one row, the one its delivery was for, and nothing else. */
  lemma AckMovesOne(h: Hub, d: nat)
    requires Inv(h) && AckEvent(h, d).response == Flag(true)
    ensures d < |h.deliveries|
    ensures var e := h.deliveries[d];
      AckEvent(h, d).hub == h.(events := h.events[e := h.events[e].(state := Acked)])
  {
    AckCountsIff(h, d);
    var e := h.deliveries[d];
    assert RowOk(h, e);
    forall i | 0 <= i < |h.events| ensures AckedRow(h.events[i], d) == h.events[e := h.events[e].(state := Acked)][i] {
      assert RowOk(h, i);
    }
    assert AckEvent(h, d).hub.events == h.events[e := h.events[e].(state := Acked)];
  }

  // -- the calls --------------------------------------------------------------

  predicate Fresh(e: Event) {
    e.state == Queued && e.deliveryId.None? && e.attempts == 0 && e.expires.None?
  }

  /** Calls outside the inbox only put fresh events at its end. */
  ghost predicate Appends(h: Hub, r: Hub) {
    && h.events <= r.events
    && (forall e :: |h.events| <= e < |r.events| ==> Fresh(r.events[e]))
    && r.deliveries == h.deliveries
  }

  lemma AppendsKeeps(h: Hub, r: Hub)
    requires Inv(h) && Appends(h, r)
    ensures Inv(r)
  {
    forall e | 0 <= e < |r.events| ensures RowOk(r, e) {
      if e < |h.events| {
        assert RowOk(h, e);
      } else {
        NeverLeased(h.deliveries, e, |h.deliveries|);
      }
    }
  }

  lemma {:induction false} NeverLeased(ds: seq<nat>, e: nat, k: nat)
    requires k <= |ds| && forall i :: 0 <= i < k ==> ds[i] != e
    ensures Leases(ds, e, k) == 0
  {
    if k > 0 { NeverLeased(ds, e, k - 1); }
  }

  lemma {:induction false} LogFrame(ds: seq<nat>, d: nat, e: nat, k: nat)
    requires k <= |ds|
    ensures Newest(ds + [d], e, k) == Newest(ds, e, k) && Leases(ds + [d], e, k) == Leases(ds, e, k)
  {
    if k > 0 { LogFrame(ds, d, e, k - 1); }
  }

  lemma LeaseKeeps(h: Hub, now: int, lease: int)
    requires Inv(h)
    ensures Inv(LeaseNextEvent(h, now, lease).hub)
  {
    var r := LeaseNextEvent(h, now, lease).hub;
    var next := NextEligible(h.events, now, 0);
    if next.Some? {
      forall e | 0 <= e < |r.events| ensures RowOk(r, e) {
        assert RowOk(h, e);
        LogFrame(h.deliveries, next.value, e, |h.deliveries|);
      }
    }
  }

  lemma AckKeeps(h: Hub, d: nat)
    requires Inv(h)
    ensures Inv(AckEvent(h, d).hub)
  {
    var r := AckEvent(h, d).hub;
    forall e | 0 <= e < |r.events| ensures RowOk(r, e) {
      assert RowOk(h, e);
    }
  }

  lemma CheckInAppends(h: Hub, now: int, name: string, profile: Profile, instance: Instance, op: string,
                       addr: Option<string>)
    ensures Appends(h, CheckIn(h, now, name, profile, instance, op, addr).hub)
  {
  }

  lemma HeartbeatAppends(h: Hub, now: int, name: string, instance: Instance, current: Option<nat>,
                         addr: Option<string>)
    ensures Appends(h, Heartbeat(h, now, name, instance, current, addr).hub)
  {
  }

  lemma AssignAppends(h: Hub, now: int, b: Brief)
    ensures Appends(h, AssignTask(h, now, b).hub)
  {
  }

  lemma ProgressAppends(h: Hub, now: int, t: nat, agent: string, note: Text, op: string)
    ensures Appends(h, RecordProgress(h, now, t, agent, note, op).hub)
  {
  }

  lemma QuestionAppends(h: Hub, t: nat, agent: string, question: Text, sentAs: string)
    ensures Appends(h, OpenQuestion(h, t, agent, question, sentAs).hub)
  {
  }

  lemma ResultAppends(h: Hub, t: nat, agent: string, result: TaskResult, op: string)
    ensures Appends(h, SubmitResult(h, t, agent, result, op).hub)
  {
    hide ResultEcho, TerminalStatus;
  }

  lemma AliceAppends(h: Hub, now: int, call: Call)
    requires call.DoRelease? || call.DoClaim? || call.DoReply? || call.DoOverride? || call.DoCancel?
    ensures Appends(h, Apply(h, now, call).hub)
  {
  }

  lemma {:induction false} ExpireAppends(h: Hub, now: int, k: nat)
    requires k <= |h.tasks|
    ensures Appends(h, ExpireLeases(h, now, k))
  {
    if k > 0 { ExpireAppends(h, now, k - 1); }
  }

  lemma {:induction false} LoseAppends(h: Hub, cutoff: int, k: nat)
    requires k <= |h.roster|
    ensures Appends(h, LoseAgents(h, cutoff, k))
  {
    if k > 0 { LoseAppends(h, cutoff, k - 1); }
  }

  lemma SweepAppends(h: Hub, now: int, lostAfter: int)
    ensures Appends(h, Sweep(h, now, lostAfter).hub)
  {
    ExpireAppends(h, now, |h.tasks|);
    var h1 := ExpireLeases(h, now, |h.tasks|);
    LoseAppends(h1, now - lostAfter, |h1.roster|);
  }

  lemma StepAppends(h: Hub, now: int, call: Call)
    requires !call.DoLease? && !call.DoAck?
    ensures Appends(h, Apply(h, now, call).hub)
  {
    match call
    case DoSweep(lostAfter) => SweepAppends(h, now, lostAfter);
    case DoCheckIn(name, profile, instance, op, addr) => CheckInAppends(h, now, name, profile, instance, op, addr);
    case DoHeartbeat(name, instance, current, addr) => HeartbeatAppends(h, now, name, instance, current, addr);
    case DoAssign(brief) => AssignAppends(h, now, brief);
    case DoProgress(task, name, note, op) => ProgressAppends(h, now, task, name, note, op);
    case DoQuestion(task, name, note, sentAs) => QuestionAppends(h, task, name, note, sentAs);
    case DoResult(task, name, result, op) => ResultAppends(h, task, name, result, op);
    case DoInitialize(_, _) =>
    case DoStatus(_, _) =>
    case DoDecision(_, _, _) =>
    case _ => AliceAppends(h, now, call);
  }

  lemma StepKeeps(h: Hub, now: int, call: Call)
    requires Inv(h)
    ensures Inv(Apply(h, now, call).hub)
  {
    match call
    case DoLease(lease) => LeaseKeeps(h, now, lease);
    case DoAck(delivery) => AckKeeps(h, delivery);
    case _ =>
      StepAppends(h, now, call);
      AppendsKeeps(h, Apply(h, now, call).hub);
  }

  /** Once acked, an event's row never changes again. */
  lemma AckedIsFinal(h: Hub, now: int, call: Call, e: nat)
    requires e < |h.events| && h.events[e].state == Acked
    ensures e < |Apply(h, now, call).hub.events| && Apply(h, now, call).hub.events[e] == h.events[e]
  {
    match call
    case DoLease(lease) =>
    case DoAck(delivery) =>
    case _ => StepAppends(h, now, call);
  }

  // -- a disciplined reader ---------------------------------------------------

  /** The first `k` events are acked, the next may be out for delivery, the rest are queued. */
  ghost predicate PrefixAcked(h: Hub, k: nat) {
    && k <= |h.events|
    && (forall e :: 0 <= e < k ==> h.events[e].state == Acked)
    && (forall e :: k <= e < |h.events| ==> h.events[e].state != Acked)
    && (forall e :: k < e < |h.events| ==> h.events[e].state == Queued)
  }

  /** No delivery is still running: each was acked, or the reader that held it waited out its lease. */
  ghost predicate ClearAt(h: Hub, now: int) {
    forall e :: 0 <= e < |h.events| && h.events[e].state == Delivered ==>
      h.events[e].expires.Some? && h.events[e].expires.value <= now
  }

  /** Call `i` of the run hands an event out only when no delivery is still running. Alice waits in this
      sense if she acks before she leases again and a restarted session waits out the old delivery. Acks
      may be lost, repeated, or carry any id at all, and a poll that comes back empty is free. */
  ghost predicate Waits(trace: seq<Timed>, i: nat)
    requires i < |trace|
  {
    var h := Run(EMPTY, trace[..i]);
    trace[i].call.DoLease? && Apply(h, trace[i].now, trace[i].call).response.Leased? ==> ClearAt(h, trace[i].now)
  }

  /** The acked events are a prefix of the queue, and at most the next event is out for delivery. */
  ghost predicate InOrder(h: Hub) {
    exists k :: PrefixAcked(h, k)
  }

  lemma LeasePrefix(h: Hub, now: int, lease: int, k: nat)
    requires PrefixAcked(h, k) && (LeaseNextEvent(h, now, lease).response.Leased? ==> ClearAt(h, now))
    ensures PrefixAcked(LeaseNextEvent(h, now, lease).hub, k)
  {
    assert k < |h.events| && ClearAt(h, now) ==> Eligible(h.events[k], now);
  }

  /** A lease taken while a delivery is running goes to a later event, and the order is lost. */
  lemma LeaseAhead(h: Hub, now: int, lease: int)
    requires Inv(h) && InOrder(h) && LeaseNextEvent(h, now, lease).response.Leased?
    requires InOrder(LeaseNextEvent(h, now, lease).hub)
    ensures ClearAt(h, now)
  {
    var r := LeaseNextEvent(h, now, lease).hub;
    var k: nat :| PrefixAcked(h, k);
    var k': nat :| PrefixAcked(r, k');
    var e := NextEligible(h.events, now, 0).value;
    assert r.events[e].state == Delivered;
    assert forall j :: 0 <= j < |h.events| && j != e ==> r.events[j] == h.events[j];
    forall i | 0 <= i < |h.events| && h.events[i].state == Delivered
      ensures h.events[i].expires.Some? && h.events[i].expires.value <= now
    {
      assert RowOk(h, i) && i == k;
    }
  }

  lemma AckPrefix(h: Hub, d: nat, k: nat)
    requires Inv(h) && PrefixAcked(h, k)
    ensures PrefixAcked(AckEvent(h, d).hub, k) || PrefixAcked(AckEvent(h, d).hub, k + 1)
  {
    if AckEvent(h, d).response == Flag(true) {
      AckCountsIff(h, d);
      AckMovesOne(h, d);
      assert RowOk(h, h.deliveries[d]);
      assert h.deliveries[d] == k;
    }
  }

  lemma AppendsPrefix(h: Hub, r: Hub, k: nat)
    requires PrefixAcked(h, k) && Appends(h, r)
    ensures PrefixAcked(r, k)
  {
  }

  lemma PrefixStep(h: Hub, now: int, call: Call, k: nat)
    requires Inv(h) && PrefixAcked(h, k)
    requires call.DoLease? && Apply(h, now, call).response.Leased? ==> ClearAt(h, now)
    ensures PrefixAcked(Apply(h, now, call).hub, k) || PrefixAcked(Apply(h, now, call).hub, k + 1)
  {
    hide PrefixAcked, Appends, Inv;
    match call
    case DoLease(lease) => LeasePrefix(h, now, lease, k);
    case DoAck(d) => AckPrefix(h, d, k);
    case _ =>
      hide Apply;
      StepAppends(h, now, call);
      AppendsPrefix(h, Apply(h, now, call).hub, k);
  }

  lemma {:induction false} AlwaysSound(trace: seq<Timed>)
    ensures Inv(Run(EMPTY, trace))
  {
    if trace != [] {
      AlwaysSound(trace[..|trace| - 1]);
      StepKeeps(Run(EMPTY, trace[..|trace| - 1]), trace[|trace| - 1].now, trace[|trace| - 1].call);
    }
  }

  /** A run in which every lease waits is in order at its end. */
  lemma {:induction false} WaitingKeepsOrder(trace: seq<Timed>)
    requires forall i :: 0 <= i < |trace| ==> Waits(trace, i)
    ensures InOrder(Run(EMPTY, trace))
  {
    if trace == [] {
      assert PrefixAcked(EMPTY, 0);
    } else {
      var n := |trace| - 1;
      var init := trace[..n];
      forall i | 0 <= i < n ensures Waits(init, i) {
        assert Waits(trace, i) && trace[..i] == init[..i] && trace[i] == init[i];
      }
      WaitingKeepsOrder(init);
      AlwaysSound(init);
      var k: nat :| PrefixAcked(Run(EMPTY, init), k);
      assert Waits(trace, n);
      PrefixStep(Run(EMPTY, init), trace[n].now, trace[n].call, k);
    }
  }

  /** Acked events are a prefix of the queue all through a run, with at most the next one delivered, if
      and only if every lease in it waits until no delivery is running. */
  lemma AckedInOrder(trace: seq<Timed>)
    ensures (forall i :: 0 <= i <= |trace| ==> InOrder(Run(EMPTY, trace[..i])))
            <==> (forall i :: 0 <= i < |trace| ==> Waits(trace, i))
  {
    if forall i :: 0 <= i <= |trace| ==> InOrder(Run(EMPTY, trace[..i])) {
      forall i | 0 <= i < |trace| ensures Waits(trace, i) { OrderWaited(trace, i); }
    }
    if forall i :: 0 <= i < |trace| ==> Waits(trace, i) {
      forall i | 0 <= i <= |trace| ensures InOrder(Run(EMPTY, trace[..i])) {
        forall j | 0 <= j < i ensures Waits(trace[..i], j) {
          assert Waits(trace, j) && trace[..i][..j] == trace[..j];
        }
        WaitingKeepsOrder(trace[..i]);
      }
    }
  }

  lemma OrderWaited(trace: seq<Timed>, i: nat)
    requires i < |trace| && InOrder(Run(EMPTY, trace[..i])) && InOrder(Run(EMPTY, trace[..i + 1]))
    ensures Waits(trace, i)
  {
    assert trace[..i + 1][..i] == trace[..i];
    AlwaysSound(trace[..i]);
    if trace[i].call.DoLease? && Apply(Run(EMPTY, trace[..i]), trace[i].now, trace[i].call).response.Leased? {
      LeaseAhead(Run(EMPTY, trace[..i]), trace[i].now, trace[i].call.lease);
    }
  }

  // -- draining the inbox -----------------------------------------------------

  /** One `wait_for_event` poll: ack the previous delivery, then lease the next eligible event. */
  method WaitForEvent(store: Store.HubStore, now: int, ack: Option<nat>, lease: int) returns (r: Response)
    modifies store
    ensures var acked := if ack.Some? then AckEvent(old(store.View()), ack.value).hub else old(store.View());
            store.View() == LeaseNextEvent(acked, now, lease).hub && r == LeaseNextEvent(acked, now, lease).response
  {
    var woken;
    if ack.Some? {
      var _, _ := store.AckEvent(ack.value);
    }
    r, woken := store.LeaseNextEvent(now, lease);
  }

  /** `order` lists the events that are not acked, oldest first, each once. */
  ghost predicate Unread(es: seq<Event>, order: seq<nat>) {
    && (forall i :: 0 <= i < |order| ==> order[i] < |es| && es[order[i]].state != Acked)
    && (forall i, j :: 0 <= i < j < |order| ==> order[i] < order[j])
    && (forall e :: 0 <= e < |es| && es[e].state != Acked ==> e in order)
  }

  /** Everything the drain has passed, up to and including `q`, is acked but for the delivery in hand. */
  ghost predicate DrainedTo(h0: Hub, h: Hub, q: int, last: Option<nat>, order: seq<nat>) {
    && -1 <= q < |h0.events| && |h.events| == |h0.events|
    && h == h0.(events := h.events, deliveries := h.deliveries)
    && (forall e :: 0 <= e < q ==> h.events[e].state == Acked)
    && (forall e :: q < e < |h.events| ==> h.events[e] == h0.events[e])
    && (q == -1 ==> last.None?)
    && (q >= 0 ==> last.Some? && Outstanding(h.events[q], last.value) && order != [] && order[|order| - 1] == q)
    && (forall i :: 0 <= i < |order| ==> 0 <= order[i] <= q && h0.events[order[i]].state != Acked)
    && (forall i, j :: 0 <= i < j < |order| ==> order[i] < order[j])
    && (forall e :: 0 <= e <= q && h0.events[e].state != Acked ==> e in order)
  }

  /** The same with the delivery in hand acked. */
  ghost predicate AckedTo(h0: Hub, a: Hub, q: int, order: seq<nat>) {
    && -1 <= q < |h0.events| && |a.events| == |h0.events|
    && a == h0.(events := a.events, deliveries := a.deliveries)
    && (forall e :: 0 <= e <= q ==> a.events[e].state == Acked)
    && (forall e :: q < e < |a.events| ==> a.events[e] == h0.events[e])
    && (forall i :: 0 <= i < |order| ==> 0 <= order[i] <= q && h0.events[order[i]].state != Acked)
    && (forall i, j :: 0 <= i < j < |order| ==> order[i] < order[j])
    && (forall e :: 0 <= e <= q && h0.events[e].state != Acked ==> e in order)
  }

  lemma DrainAck(h0: Hub, h: Hub, q: int, last: Option<nat>, order: seq<nat>)
    requires Inv(h) && DrainedTo(h0, h, q, last, order)
    ensures var a := if last.Some? then AckEvent(h, last.value).hub else h;
      Inv(a) && AckedTo(h0, a, q, order)
  {
    if last.Some? {
      AckKeeps(h, last.value);
      assert RowOk(h, q);
      AckCountsIff(h, last.value);
      AckMovesOne(h, last.value);
    }
  }

  lemma DrainLease(h0: Hub, a: Hub, now: int, lease: int, q: int, order: seq<nat>)
    requires Inv(a) && ClearAt(h0, now) && AckedTo(h0, a, q, order)
    ensures var next, r := NextEligible(a.events, now, 0), LeaseNextEvent(a, now, lease).hub;
      if next.None? then r == a && forall e :: 0 <= e < |a.events| ==> a.events[e].state == Acked
      else next.value > q && DrainedTo(h0, r, next.value, Some(|a.deliveries|), order + [next.value])
  {
    var next := NextEligible(a.events, now, 0);
    var upTo := if next.Some? then next.value else |a.events|;
    forall e | q < e < upTo ensures a.events[e].state == Acked {
      assert !Eligible(a.events[e], now);
      assert RowOk(a, e) && a.events[e] == h0.events[e];
    }
    if next.Some? {
      assert q < next.value;
      var longer := order + [next.value];
      forall e | 0 <= e <= next.value && h0.events[e].state != Acked ensures e in longer {
        if e == next.value { assert longer[|order|] == e; } else { assert e in order; }
      }
    }
  }

  /** Lease and ack until nothing is left, at a time when no other delivery is still running: every
      unacked event is handed over once, oldest first, and ends acked. */
  method Drain(store: Store.HubStore, now: int, lease: int) returns (order: seq<nat>)
    requires Inv(store.View()) && ClearAt(store.View(), now)
    modifies store
    ensures Unread(old(store.View()).events, order)
    ensures |store.View().events| == |old(store.View()).events|
    ensures forall e :: 0 <= e < |store.View().events| ==> store.View().events[e].state == Acked
    ensures store.View() == old(store.View()).(events := store.View().events, deliveries := store.View().deliveries)
  {
    ghost var h0 := store.View();
    ghost var q: int := -1;
    order := [];
    var last: Option<nat> := None;
    while true
      invariant Inv(store.View()) && DrainedTo(h0, store.View(), q, last, order)
      decreases |h0.events| - q
    {
      ghost var h := store.View();
      var r := WaitForEvent(store, now, last, lease);
      DrainAck(h0, h, q, last, order);
      ghost var a := if last.Some? then AckEvent(h, last.value).hub else h;
      LeaseKeeps(a, now, lease);
      DrainLease(h0, a, now, lease, q, order);
      if !r.Leased? {
        return;
      }
      last := r.event.deliveryId;
      order := order + [r.eventId];
      q := r.eventId;
    }
  }
}
