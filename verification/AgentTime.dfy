/** Where an agent's time went: working on a turn, waiting for the hub, or idle. */
module AgentTime {
  import opened HubTypes
  import opened Intervals

  // -- intervals and their ticks ----------------------------------------------

  function Span(xs: seq<Interval>): int {
    if xs == [] then 0 else Span(xs[..|xs| - 1]) + (xs[|xs| - 1].hi - xs[|xs| - 1].lo)
  }

  /** The ticks from `lo` up to but not including `hi`. */
  ghost function Range(lo: int, hi: int): (r: set<int>)
    ensures forall t :: t in r <==> lo <= t < hi
    ensures |r| == if lo <= hi then hi - lo else 0
    decreases hi - lo
  {
    if lo < hi then Range(lo, hi - 1) + {hi - 1} else {}
  }

  /** The ticks an interval list covers. */
  ghost function Ticks(xs: seq<Interval>): set<int> {
    if xs == [] then {} else Ticks(xs[..|xs| - 1]) + Range(xs[|xs| - 1].lo, xs[|xs| - 1].hi)
  }

  lemma {:induction false} InTicks(xs: seq<Interval>, t: int)
    ensures t in Ticks(xs) <==> Covers(xs, t)
  {
    if xs != [] {
      var n := |xs| - 1;
      InTicks(xs[..n], t);
      CoversAppend(xs[..n], xs[n], t);
      assert xs[..n] + [xs[n]] == xs;
    }
  }

  lemma BelowLast(xs: seq<Interval>, t: int)
    requires Separated(xs) && xs != [] && Covers(xs[..|xs| - 1], t)
    ensures t < xs[|xs| - 1].lo
  {
    var i :| 0 <= i < |xs| - 1 && xs[..|xs| - 1][i].lo <= t < xs[..|xs| - 1][i].hi;
    assert xs[i].hi < xs[|xs| - 1].lo;
  }

  /** The span of a separated list is the number of ticks it covers. */
  lemma {:induction false} SpanCountsTicks(xs: seq<Interval>)
    requires Separated(xs)
    ensures Span(xs) == |Ticks(xs)|
  {
    if xs != [] {
      var n := |xs| - 1;
      var init, last := Ticks(xs[..n]), Range(xs[n].lo, xs[n].hi);
      SpanCountsTicks(xs[..n]);
      assert init * last == {} by {
        forall t | t in init ensures t !in last {
          InTicks(xs[..n], t);
          BelowLast(xs, t);
        }
      }
      assert |init + last| == |init| + |last|;
    }
  }

  lemma SpanOfOne(x: Interval)
    ensures Span([x]) == x.hi - x.lo
  {
    assert [x][..0] == [];
  }

  /** Two lists over the same ticks have the same span, however their intervals are cut. */
  lemma SpanIsCanonical(xs: seq<Interval>, ys: seq<Interval>)
    requires Separated(xs) && Separated(ys) && forall t :: Covers(xs, t) <==> Covers(ys, t)
    ensures Span(xs) == Span(ys)
  {
    SpanCountsTicks(ys);
    SpanOfSet(xs, Ticks(ys)) by {
      forall t ensures Covers(xs, t) <==> t in Ticks(ys) { InTicks(ys, t); }
    }
  }

  // -- what the report reads --------------------------------------------------

  datatype Call = Call(tool: string, outcome: string, start: Option<int>, end: Option<int>)

  datatype TaskRow = TaskRow(assignee: string, pickedUp: Option<int>, created: Option<int>, finished: Option<int>)

  /** `connected` says that the agent has a row whose status is idle or busy. */
  datatype Evidence = Evidence(
    name: string,
    calls: seq<Call>,
    tasks: seq<TaskRow>,
    releasedInTelemetry: Option<int>,
    connected: bool,
    now: int)

  const ALICE := "alice"

  /** A blocking call that came back with nothing: time spent waiting. */
  predicate EmptyHold(c: Call) {
    c.tool in {"await_assignment", "wait_for_event"} && c.outcome in {"timeout", "null_event"}
  }

  /** The least of the values present. */
  function Least(xs: seq<Option<int>>): (r: Option<int>)
    ensures r.None? <==> forall i :: 0 <= i < |xs| ==> xs[i].None?
    ensures r.Some? ==> r in xs && forall i :: 0 <= i < |xs| && xs[i].Some? ==> r.value <= xs[i].value
  {
    if xs == [] then None
    else
      var n := |xs| - 1;
      var rest := Least(xs[..n]);
      assert forall i :: 0 <= i < n ==> xs[i] == xs[..n][i];
      if xs[n].None? then rest
      else if rest.None? || xs[n].value < rest.value then xs[n]
      else rest
  }

  /** The greatest of the values present. */
  function Greatest(xs: seq<Option<int>>): (r: Option<int>)
    ensures r.None? <==> forall i :: 0 <= i < |xs| ==> xs[i].None?
    ensures r.Some? ==> r in xs && forall i :: 0 <= i < |xs| && xs[i].Some? ==> xs[i].value <= r.value
  {
    if xs == [] then None
    else
      var n := |xs| - 1;
      var rest := Greatest(xs[..n]);
      assert forall i :: 0 <= i < n ==> xs[i] == xs[..n][i];
      if xs[n].None? then rest
      else if rest.None? || rest.value < xs[n].value then xs[n]
      else rest
  }

  function Starts(calls: seq<Call>): seq<Option<int>> {
    seq(|calls|, i requires 0 <= i < |calls| => calls[i].start)
  }

  function CheckInStarts(calls: seq<Call>): seq<Option<int>> {
    seq(|calls|, i requires 0 <= i < |calls| => if calls[i].tool == "check_in" then calls[i].start else None)
  }

  function Ends(calls: seq<Call>): seq<Option<int>> {
    seq(|calls|, i requires 0 <= i < |calls| => calls[i].end)
  }

  function ReleaseEnds(calls: seq<Call>): seq<Option<int>> {
    seq(|calls|, i requires 0 <= i < |calls| => if calls[i].outcome == "release" then calls[i].end else None)
  }

  /** When the agent's clock starts: a worker's at its first check-in if one was seen. */
  function FirstSeen(e: Evidence): Option<int> {
    var checkedIn := Least(CheckInStarts(e.calls));
    if e.name != ALICE && checkedIn.Some? then checkedIn else Least(Starts(e.calls))
  }

  function ReleasedAt(e: Evidence): Option<int> {
    if e.releasedInTelemetry.Some? then e.releasedInTelemetry else Greatest(ReleaseEnds(e.calls))
  }

  /** When it stops: at release, or at the last trace, or now while the agent is still connected. */
  function LastSeen(e: Evidence): Option<int> {
    var trace := Greatest(Ends(e.calls) + Starts(e.calls));
    if ReleasedAt(e).Some? then ReleasedAt(e)
    else if e.connected && trace.Some? then Some(Max(trace.value, e.now))
    else trace
  }

  predicate CheckInAt(c: Call, t: int) {
    c.tool == "check_in" && c.start == Some(t)
  }

  predicate SeenAt(c: Call, t: int) {
    c.start == Some(t) || c.end == Some(t)
  }

  /** A worker's window opens at its first check-in, or for want of one, like Alice's, at its first call. */
  lemma FirstSeenIs(e: Evidence)
    ensures var first := FirstSeen(e);
      if e.name != "alice" && exists c, t :: c in e.calls && CheckInAt(c, t)
      then first.Some? && (exists c :: c in e.calls && CheckInAt(c, first.value))
           && forall c, t :: c in e.calls && CheckInAt(c, t) ==> first.value <= t
      else (first.None? <==> forall c :: c in e.calls ==> c.start.None?)
           && (first.Some? ==> (exists c :: c in e.calls && c.start == first)
                               && forall c :: c in e.calls && c.start.Some? ==> first.value <= c.start.value)
  {
    var starts, checkIns := Starts(e.calls), CheckInStarts(e.calls);
    assert forall i :: 0 <= i < |e.calls| ==> starts[i] == e.calls[i].start;
    forall i | 0 <= i < |e.calls| && checkIns[i].Some? ensures CheckInAt(e.calls[i], checkIns[i].value) {}
    forall i, t | 0 <= i < |e.calls| && CheckInAt(e.calls[i], t) ensures checkIns[i] == Some(t) {}
    if Least(checkIns).Some? {
      var i :| 0 <= i < |checkIns| && checkIns[i] == Least(checkIns);
      assert CheckInAt(e.calls[i], Least(checkIns).value);
    }
  }

  predicate ReleasedBy(c: Call, t: int) {
    c.outcome == "release" && c.end == Some(t)
  }

  /** The last release among the calls. */
  lemma LastRelease(e: Evidence)
    ensures var r := Greatest(ReleaseEnds(e.calls));
      && (r.None? <==> forall c, t :: c in e.calls ==> !ReleasedBy(c, t))
      && (r.Some? ==> (exists c :: c in e.calls && ReleasedBy(c, r.value))
                      && forall c, t :: c in e.calls && ReleasedBy(c, t) ==> t <= r.value)
  {
    var ends := ReleaseEnds(e.calls);
    var r := Greatest(ends);
    forall i, t | 0 <= i < |e.calls| ensures ReleasedBy(e.calls[i], t) <==> ends[i] == Some(t) {}
    if r.Some? {
      var i :| 0 <= i < |ends| && ends[i] == r;
      assert ReleasedBy(e.calls[i], r.value);
    }
    forall c, t | c in e.calls && ReleasedBy(c, t) ensures r.Some? && t <= r.value {
      var i :| 0 <= i < |e.calls| && e.calls[i] == c;
      assert ends[i] == Some(t);
    }
  }

  /** The last sign of life among the calls. */
  lemma LastTrace(e: Evidence)
    ensures var r := Greatest(Ends(e.calls) + Starts(e.calls));
      && (r.None? <==> forall c, t :: c in e.calls ==> !SeenAt(c, t))
      && (r.Some? ==> (exists c :: c in e.calls && SeenAt(c, r.value))
                      && forall c, t :: c in e.calls && SeenAt(c, t) ==> t <= r.value)
  {
    var trace, n := Ends(e.calls) + Starts(e.calls), |e.calls|;
    var r := Greatest(trace);
    assert forall i :: 0 <= i < n ==> trace[i] == e.calls[i].end;
    assert forall i :: n <= i < n + n ==> trace[i] == e.calls[i - n].start;
    if r.Some? {
      var i :| 0 <= i < |trace| && trace[i] == r;
      assert SeenAt(e.calls[if i < n then i else i - n], r.value);
    }
    forall c, t | c in e.calls && SeenAt(c, t) ensures r.Some? && t <= r.value {
      var i :| 0 <= i < n && e.calls[i] == c;
      assert trace[i] == Some(t) || trace[n + i] == Some(t);
    }
  }

  /** The window closes at the release telemetry saw, or the last one among the calls; or for want of both at
      the last sign of life, which for an agent still connected is no earlier than now. */
  lemma LastSeenIs(e: Evidence)
    ensures var last := LastSeen(e);
      if e.releasedInTelemetry.Some? then last == e.releasedInTelemetry
      else if exists c, t :: c in e.calls && ReleasedBy(c, t)
      then last.Some? && (exists c :: c in e.calls && ReleasedBy(c, last.value))
           && forall c, t :: c in e.calls && ReleasedBy(c, t) ==> t <= last.value
      else (last.None? <==> forall c, t :: c in e.calls ==> !SeenAt(c, t))
           && (last.Some? ==>
                 && (forall c, t :: c in e.calls && SeenAt(c, t) ==> t <= last.value)
                 && (e.connected ==> e.now <= last.value)
                 && ((e.connected && last.value == e.now) || exists c :: c in e.calls && SeenAt(c, last.value)))
  {
    LastRelease(e);
    LastTrace(e);
    hide Greatest, Ends, Starts, ReleaseEnds, SeenAt, ReleasedBy;
  }

  datatype Figures = Figures(total: int, turn: int, waiting: int, idle: int)

  /** Some task was in this agent's hands at tick `t`. */
  predicate Active(e: Evidence, t: int) {
    exists i :: 0 <= i < |e.tasks| && ActiveOn(e, e.tasks[i], t)
  }

  predicate ActiveOn(e: Evidence, task: TaskRow, t: int) {
    var start := if task.pickedUp.Some? then task.pickedUp else task.created;
    task.assignee == e.name && start.Some?
    && start.value <= t < (if task.finished.Some? then task.finished.value else e.now)
  }

  /** The agent sat in a blocking call that came to nothing. */
  predicate Holding(e: Evidence, t: int) {
    exists i :: 0 <= i < |e.calls| && HoldingIn(e.calls[i], t)
  }

  predicate HoldingIn(c: Call, t: int) {
    EmptyHold(c) && c.start.Some? && c.end.Some? && c.start.value <= t < c.end.value
  }

  /** A worker is on a turn whenever it has a task; Alice whenever she is not waiting. */
  predicate OnTurn(e: Evidence, t: int) {
    if e.name == ALICE then !Holding(e, t) else Active(e, t)
  }

  ghost function TurnTicks(e: Evidence, lo: int, hi: int): set<int> {
    set t | t in Range(lo, hi) && OnTurn(e, t)
  }

  ghost function WaitingTicks(e: Evidence, lo: int, hi: int): set<int> {
    set t | t in Range(lo, hi) && Holding(e, t) && !OnTurn(e, t)
  }

  ghost function IdleTicks(e: Evidence, lo: int, hi: int): set<int> {
    set t | t in Range(lo, hi) && !Holding(e, t) && !OnTurn(e, t)
  }

  /** The windows in which a task was in the agent's hands. */
  method ActiveWindows(e: Evidence) returns (windows: seq<Interval>)
    ensures Separated(windows)
    ensures forall t :: Covers(windows, t) <==> Active(e, t)
  {
    var found: seq<Interval> := [];
    for i := 0 to |e.tasks|
      invariant forall t :: Covers(found, t) <==> exists j :: 0 <= j < i && ActiveOn(e, e.tasks[j], t)
    {
      var task := e.tasks[i];
      ghost var was := found;
      var start := if task.pickedUp.Some? then task.pickedUp else task.created;
      var end := if task.finished.Some? then task.finished.value else e.now;
      if task.assignee == e.name && start.Some? {
        found := found + [Interval(start.value, end)];
        forall t ensures Covers(found, t) <==> Covers(was, t) || ActiveOn(e, task, t) {
          CoversAppend(was, Interval(start.value, end), t);
        }
      }
      assert forall t :: Covers(found, t) <==> Covers(was, t) || ActiveOn(e, task, t);
    }
    windows := Union(found);
  }

  /** The blocking calls that came back empty, as recorded. */
  method WaitingHolds(e: Evidence) returns (holds: seq<Interval>)
    ensures forall t :: Covers(holds, t) <==> Holding(e, t)
  {
    holds := [];
    for i := 0 to |e.calls|
      invariant forall t :: Covers(holds, t) <==> exists j :: 0 <= j < i && HoldingIn(e.calls[j], t)
    {
      var c := e.calls[i];
      ghost var was := holds;
      if EmptyHold(c) && c.start.Some? && c.end.Some? {
        holds := holds + [Interval(c.start.value, c.end.value)];
        forall t ensures Covers(holds, t) <==> Covers(was, t) || HoldingIn(c, t) {
          CoversAppend(was, Interval(c.start.value, c.end.value), t);
        }
      }
      assert forall t :: Covers(holds, t) <==> Covers(was, t) || HoldingIn(c, t);
    }
  }

  /** Two disjoint parts of a window leave the rest over. */
  lemma Parts(all: set<int>, a: set<int>, b: set<int>)
    requires a <= all && b <= all && a !! b
    ensures |a| + |b| + |all - a - b| == |all|
  {
    assert all == (a + b) + (all - a - b);
    assert |a + b| == |a| + |b|;
  }

  lemma SpanOfSet(xs: seq<Interval>, s: set<int>)
    requires Separated(xs) && forall t :: Covers(xs, t) <==> t in s
    ensures Span(xs) == |s|
  {
    SpanCountsTicks(xs);
    forall t ensures t in Ticks(xs) <==> t in s { InTicks(xs, t); }
    assert Ticks(xs) == s;
  }

  lemma IdleIsTheRest(e: Evidence, first: int, last: int)
    requires first <= last
    ensures |TurnTicks(e, first, last)| + |WaitingTicks(e, first, last)| + |IdleTicks(e, first, last)| == last - first
    ensures e.name == ALICE ==> IdleTicks(e, first, last) == {}
  {
    var all, turn, waiting := Range(first, last), TurnTicks(e, first, last), WaitingTicks(e, first, last);
    assert all - turn - waiting == IdleTicks(e, first, last);
    Parts(all, turn, waiting);
  }

  /** The sets of ticks behind the three figures. */
  lemma Tally(e: Evidence, first: int, last: int, turn: seq<Interval>, waiting: seq<Interval>)
    requires first <= last && Separated(turn) && Separated(waiting)
    requires forall t :: Covers(turn, t) <==> first <= t < last && OnTurn(e, t)
    requires forall t :: Covers(waiting, t) <==> first <= t < last && Holding(e, t) && !OnTurn(e, t)
    ensures Span(turn) == |TurnTicks(e, first, last)|
    ensures Span(waiting) == |WaitingTicks(e, first, last)|
    ensures last - first - Span(turn) - Span(waiting) == |IdleTicks(e, first, last)|
    ensures e.name == ALICE ==> last - first - Span(turn) - Span(waiting) == 0
  {
    SpanOfSet(turn, TurnTicks(e, first, last));
    SpanOfSet(waiting, WaitingTicks(e, first, last));
    IdleIsTheRest(e, first, last);
  }

  /** The time figures. Turn, waiting and idle are the numbers of ticks of the agent's window spent on a
      turn, in an empty hold off any turn, and otherwise; they add up to the whole window, and the clamp
      on idle never has anything to clamp. */
  method TimeFigures(e: Evidence) returns (r: Option<Figures>)
    ensures r.None? <==> FirstSeen(e).None? || LastSeen(e).None? || LastSeen(e).value < FirstSeen(e).value
    ensures r.Some? ==>
      var f, first, last := r.value, FirstSeen(e).value, LastSeen(e).value;
      && f.total == last - first
      && f.turn == |TurnTicks(e, first, last)|
      && f.waiting == |WaitingTicks(e, first, last)|
      && f.idle == |IdleTicks(e, first, last)|
    ensures r.Some? ==> r.value.turn + r.value.waiting + r.value.idle == r.value.total
    ensures r.Some? && e.name == ALICE ==> r.value.idle == 0
  {
    var windows := ActiveWindows(e);
    var seen, left := FirstSeen(e), LastSeen(e);
    var holds := WaitingHolds(e);
    if seen.None? || left.None? || left.value < seen.value {
      return None;
    }
    var first, last := seen.value, left.value;
    var total := Span([Interval(first, last)]);
    var waiting := Clip(holds, first, last);
    var turn;
    forall t ensures Covers([Interval(first, last)], t) <==> first <= t < last {
      CoversAppend([], Interval(first, last), t);
      assert [] + [Interval(first, last)] == [Interval(first, last)];
    }
    if e.name == ALICE {
      turn := Subtract([Interval(first, last)], waiting);
    } else {
      turn := Clip(windows, first, last);
      waiting := Subtract(waiting, turn);
    }
    SpanOfOne(Interval(first, last));
    Tally(e, first, last, turn, waiting);
    var idle := Max(0, total - Span(turn) - Span(waiting));
    r := Some(Figures(total, Span(turn), Span(waiting), idle));
  }
}
