/** Interval lists on a clock of whole ticks, and the sets of ticks they stand for. */
module Intervals {
  import opened HubTypes

  /** The half-open interval from `lo` up to but not including `hi`; empty when `hi <= lo`. */
  datatype Interval = Interval(lo: int, hi: int)

  /** Tick `t` lies in one of the intervals. */
  predicate Covers(xs: seq<Interval>, t: int) {
    exists i :: 0 <= i < |xs| && xs[i].lo <= t < xs[i].hi
  }

  /** Sorted, non-empty, and with a gap of at least one tick between neighbours. */
  predicate Separated(xs: seq<Interval>) {
    && (forall i :: 0 <= i < |xs| ==> xs[i].lo < xs[i].hi)
    && (forall i, j :: 0 <= i < j < |xs| ==> xs[i].hi < xs[j].lo)
  }

  predicate Before(a: Interval, b: Interval) {
    a.lo < b.lo || (a.lo == b.lo && a.hi <= b.hi)
  }

  predicate Sorted(xs: seq<Interval>) {
    forall i, j :: 0 <= i < j < |xs| ==> Before(xs[i], xs[j])
  }

  // -- sorting, which the source takes from the language ----------------------

  function Insert(x: Interval, xs: seq<Interval>): (r: seq<Interval>)
    ensures multiset(r) == multiset(xs) + multiset{x}
  {
    if xs == [] then [x]
    else if Before(x, xs[0]) then [x] + xs
    else
      assert xs == [xs[0]] + xs[1..];
      [xs[0]] + Insert(x, xs[1..])
  }

  lemma {:induction false} InsertSorted(x: Interval, xs: seq<Interval>)
    requires Sorted(xs)
    ensures Sorted(Insert(x, xs))
  {
    if xs != [] && !Before(x, xs[0]) {
      InsertSorted(x, xs[1..]);
      var rest := Insert(x, xs[1..]);
      forall i | 0 <= i < |rest| ensures Before(xs[0], rest[i]) {
        assert rest[i] in multiset(xs[1..]) + multiset{x};
      }
    }
  }

  function Sort(xs: seq<Interval>): (r: seq<Interval>)
    ensures multiset(r) == multiset(xs) && Sorted(r)
  {
    if xs == [] then []
    else
      assert xs == [xs[0]] + xs[1..];
      InsertSorted(xs[0], Sort(xs[1..]));
      Insert(xs[0], Sort(xs[1..]))
  }

  lemma SamePieces(a: seq<Interval>, b: seq<Interval>, t: int)
    requires multiset(a) == multiset(b) && Covers(a, t)
    ensures Covers(b, t)
  {
    var i :| 0 <= i < |a| && a[i].lo <= t < a[i].hi;
    assert a[i] in multiset(b);
    var j :| 0 <= j < |b| && b[j] == a[i];
  }

  // -- union ------------------------------------------------------------------

  /** Sorted, strictly separated, non-empty intervals over exactly the ticks of the input. */
  method Union(intervals: seq<Interval>) returns (merged: seq<Interval>)
    ensures Separated(merged)
    ensures forall t :: Covers(merged, t) <==> Covers(intervals, t)
  {
    var kept: seq<Interval> := [];
    for i := 0 to |intervals|
      invariant forall j :: 0 <= j < |kept| ==> kept[j].lo < kept[j].hi
      invariant forall t :: Covers(kept, t) <==> Covers(intervals[..i], t)
    {
      ghost var was := kept;
      if intervals[i].hi > intervals[i].lo {
        kept := kept + [intervals[i]];
      }
      forall t ensures Covers(kept, t) <==> Covers(intervals[..i + 1], t) {
        CoversAppend(intervals[..i], intervals[i], t);
        CoversAppend(was, intervals[i], t);
        assert intervals[..i] + [intervals[i]] == intervals[..i + 1];
      }
    }
    assert intervals[..|intervals|] == intervals;
    var sorted := Sort(kept);
    forall t ensures Covers(sorted, t) <==> Covers(intervals, t) {
      if Covers(sorted, t) { SamePieces(sorted, kept, t); }
      if Covers(kept, t) { SamePieces(kept, sorted, t); }
    }
    assert forall j :: 0 <= j < |sorted| ==> sorted[j] in multiset(kept);
    merged := Merge(sorted);
  }

  lemma CoversAppend(xs: seq<Interval>, x: Interval, t: int)
    ensures Covers(xs + [x], t) <==> Covers(xs, t) || x.lo <= t < x.hi
  {
    if Covers(xs, t) {
      var i :| 0 <= i < |xs| && xs[i].lo <= t < xs[i].hi;
      assert (xs + [x])[i] == xs[i];
    }
    assert (xs + [x])[|xs|] == x;
  }

  lemma Grow(init: seq<Interval>, last: Interval, x: Interval, t: int)
    requires last.lo <= x.lo <= last.hi && x.lo < x.hi
    ensures Covers(init + [Interval(last.lo, Max(last.hi, x.hi))], t) <==> Covers(init + [last], t) || x.lo <= t < x.hi
  {
    CoversAppend(init, last, t);
    CoversAppend(init, Interval(last.lo, Max(last.hi, x.hi)), t);
  }

  /** The merging pass over sorted, non-empty intervals. */
  method Merge(sorted: seq<Interval>) returns (merged: seq<Interval>)
    requires Sorted(sorted) && forall i :: 0 <= i < |sorted| ==> sorted[i].lo < sorted[i].hi
    ensures Separated(merged)
    ensures forall t :: Covers(merged, t) <==> Covers(sorted, t)
  {
    merged := [];
    assert sorted[..0] == [];
    hide Covers;
    for i := 0 to |sorted|
      invariant Separated(merged)
      invariant i == 0 ==> merged == []
      invariant i > 0 ==> merged != [] && merged[|merged| - 1].lo <= sorted[i - 1].lo
      invariant forall t :: Covers(merged, t) <==> Covers(sorted[..i], t)
    {
      ghost var was := merged;
      var x := sorted[i];
      var n := |merged| - 1;
      assert i > 0 ==> Before(sorted[i - 1], x);
      if merged != [] && x.lo <= merged[n].hi {
        var grown := Interval(merged[n].lo, Max(merged[n].hi, x.hi));
        merged := merged[..n] + [grown];
        assert was == was[..n] + [was[n]];
        forall t ensures Covers(merged, t) <==> Covers(was, t) || x.lo <= t < x.hi {
          Grow(was[..n], was[n], x, t);
        }
      } else {
        merged := merged + [x];
        forall t ensures Covers(merged, t) <==> Covers(was, t) || x.lo <= t < x.hi {
          CoversAppend(was, x, t);
        }
      }
      forall t ensures Covers(merged, t) <==> Covers(sorted[..i + 1], t) {
        CoversAppend(sorted[..i], x, t);
        assert sorted[..i] + [x] == sorted[..i + 1];
      }
    }
    assert sorted[..|sorted|] == sorted;
  }

  // -- clip and subtract ------------------------------------------------------

  /** The ticks of the input that lie in the window. */
  method Clip(intervals: seq<Interval>, lower: int, upper: int) returns (r: seq<Interval>)
    ensures Separated(r)
    ensures forall t :: Covers(r, t) <==> Covers(intervals, t) && lower <= t < upper
  {
    var clipped := seq(|intervals|, i requires 0 <= i < |intervals| =>
                       Interval(Max(intervals[i].lo, lower), Min(intervals[i].hi, upper)));
    forall t ensures Covers(clipped, t) <==> Covers(intervals, t) && lower <= t < upper {
      if Covers(intervals, t) && lower <= t < upper {
        var i :| 0 <= i < |intervals| && intervals[i].lo <= t < intervals[i].hi;
        assert clipped[i].lo <= t < clipped[i].hi;
      }
      if Covers(clipped, t) {
        var i :| 0 <= i < |clipped| && clipped[i].lo <= t < clipped[i].hi;
        assert intervals[i].lo <= t < intervals[i].hi;
      }
    }
    r := Union(clipped);
  }

  /** The ticks of the first list outside the second, whatever order either comes in. */
  method Subtract(intervals: seq<Interval>, removed: seq<Interval>) returns (r: seq<Interval>)
    ensures Separated(r)
    ensures forall t :: Covers(r, t) <==> Covers(intervals, t) && !Covers(removed, t)
  {
    var result: seq<Interval> := [];
    for i := 0 to |intervals|
      invariant forall t :: Covers(result, t) <==> Covers(intervals[..i], t) && !Covers(removed, t)
    {
      ghost var was := result;
      var pieces := Carve(intervals[i], removed);
      result := result + pieces;
      forall t ensures Covers(result, t) <==> Covers(intervals[..i + 1], t) && !Covers(removed, t) {
        CoversConcat(was, pieces, t);
        CoversAppend(intervals[..i], intervals[i], t);
        assert intervals[..i] + [intervals[i]] == intervals[..i + 1];
      }
    }
    assert intervals[..|intervals|] == intervals;
    r := Union(result);
  }

  lemma CoversConcat(xs: seq<Interval>, ys: seq<Interval>, t: int)
    ensures Covers(xs + ys, t) <==> Covers(xs, t) || Covers(ys, t)
  {
    if Covers(xs, t) {
      var i :| 0 <= i < |xs| && xs[i].lo <= t < xs[i].hi;
      assert (xs + ys)[i] == xs[i];
    }
    if Covers(ys, t) {
      var i :| 0 <= i < |ys| && ys[i].lo <= t < ys[i].hi;
      assert (xs + ys)[|xs| + i] == ys[i];
    }
  }

  /** One interval with every removed one taken out in turn. */
  method Carve(x: Interval, removed: seq<Interval>) returns (pieces: seq<Interval>)
    ensures forall t :: Covers(pieces, t) <==> x.lo <= t < x.hi && !Covers(removed, t)
  {
    pieces := [x];
    forall t ensures Covers(pieces, t) <==> x.lo <= t < x.hi { CoversAppend([], x, t); assert [] + [x] == [x]; }
    for k := 0 to |removed|
      invariant forall t :: Covers(pieces, t) <==> x.lo <= t < x.hi && !Covers(removed[..k], t)
    {
      ghost var was := pieces;
      pieces := CarveOne(pieces, removed[k]);
      forall t ensures Covers(pieces, t) <==> x.lo <= t < x.hi && !Covers(removed[..k + 1], t) {
        CoversAppend(removed[..k], removed[k], t);
        assert removed[..k] + [removed[k]] == removed[..k + 1];
      }
    }
    assert removed[..|removed|] == removed;
  }

  /** What each piece keeps of itself on either side of `gone`. */
  method CarveOne(pieces: seq<Interval>, gone: Interval) returns (next: seq<Interval>)
    ensures forall t :: Covers(next, t) <==> Covers(pieces, t) && !(gone.lo <= t < gone.hi)
  {
    next := [];
    for i := 0 to |pieces|
      invariant forall t :: Covers(next, t) <==> Covers(pieces[..i], t) && !(gone.lo <= t < gone.hi)
    {
      var p := pieces[i];
      ghost var was := next;
      if gone.hi <= p.lo || gone.lo >= p.hi {
        next := next + [p];
      } else {
        if gone.lo > p.lo {
          next := next + [Interval(p.lo, gone.lo)];
        }
        ghost var mid := next;
        if gone.hi < p.hi {
          next := next + [Interval(gone.hi, p.hi)];
        }
        forall t ensures Covers(next, t) <==> Covers(was, t) || (p.lo <= t < p.hi && !(gone.lo <= t < gone.hi)) {
          CoversAppend(was, Interval(p.lo, gone.lo), t);
          CoversAppend(mid, Interval(gone.hi, p.hi), t);
        }
      }
      forall t ensures Covers(next, t) <==> Covers(pieces[..i + 1], t) && !(gone.lo <= t < gone.hi) {
        CoversAppend(pieces[..i], p, t);
        CoversAppend(was, p, t);
        assert pieces[..i] + [p] == pieces[..i + 1];
      }
    }
    assert pieces[..|pieces|] == pieces;
  }
}
