/** The waiter registry and the held requests of the race are two views of one thing: what the registry's
    methods do are steps of the race. */
module Wiring {
  import opened HubTypes
  import S = Signals
  import W = Wakeups

  /** Every held request sits in the registry on a waiter of its own, under its key, and nobody else does. */
  ghost predicate Registered(s: S.Signals, seats: map<nat, S.Waiter>, w: W.World)
    reads s
  {
    && s.Valid()
    && seats.Keys == w.held.Keys
    && (forall i, j :: i in seats && j in seats && i != j ==> seats[i] != seats[j])
    && (forall i, k :: i in seats ==> (seats[i] in s.At(k) <==> W.KeyOf(w.held[i].wait) == k))
    && (forall k, x :: x in s.At(k) ==> Seated(seats, x))
  }

  /** The flags are the same on both sides. */
  ghost predicate Flagged(seats: map<nat, S.Waiter>, w: W.World)
    reads seats.Values
  {
    forall i :: i in seats ==>
      i in w.held && seats[i].flag == w.held[i].flag && (seats[i].scheduled <==> i in w.scheduled)
  }

  ghost predicate Mirrors(s: S.Signals, seats: map<nat, S.Waiter>, w: W.World)
    reads s, seats.Values
  {
    Registered(s, seats, w) && Flagged(seats, w)
  }

  /** Waking nobody in or out leaves the register as it was. */
  lemma RegisterStays(s: S.Signals, seats: map<nat, S.Waiter>, w: W.World, v: W.World)
    requires Registered(s, seats, w) && v.held.Keys == w.held.Keys
    requires forall i :: i in w.held ==> v.held[i].wait == w.held[i].wait
    ensures Registered(s, seats, v)
  {
  }

  lemma OnKey(s: S.Signals, seats: map<nat, S.Waiter>, w: W.World, key: Key)
    requires Registered(s, seats, w)
    ensures forall i :: i in seats ==> (seats[i] in s.At(key) <==> i in W.WaitersOn(w, key))
  {
  }

  ghost predicate Seated(seats: map<nat, S.Waiter>, x: S.Waiter) {
    exists i :: i in seats && seats[i] == x
  }

  /** The wakings of some requests, one after the other; those at home are flagged, the others scheduled. */
  ghost function Wakings(writer: nat, ids: set<nat>, home: set<nat>): seq<W.Action> {
    if ids == {} then []
    else
      var id :| id in ids;
      Wakings(writer, ids - {id}, home) + [W.Wake(writer, id, id in home)]
  }

  lemma {:induction false} OnlyWakings(writer: nat, ids: set<nat>, home: set<nat>)
    ensures forall a :: a in Wakings(writer, ids, home) ==> a.Wake? && a.writer == writer
    decreases |ids|
  {
    if ids != {} {
      var id :| id in ids && Wakings(writer, ids, home)
                             == Wakings(writer, ids - {id}, home) + [W.Wake(writer, id, id in home)];
      OnlyWakings(writer, ids - {id}, home);
    }
  }

  /** What they come to. */
  ghost function Woken(w: W.World, writer: nat, ids: set<nat>, home: set<nat>): W.World
    requires writer in w.writers
  {
    w.(writers := w.writers[writer := w.writers[writer].(targets := w.writers[writer].targets - ids)],
       held := map i | i in w.held :: if i in ids && i in home then w.held[i].(flag := true) else w.held[i],
       scheduled := w.scheduled + (ids - home))
  }

  lemma WokenNobody(w: W.World, writer: nat, home: set<nat>)
    requires writer in w.writers
    ensures Woken(w, writer, {}, home) == w
  {
    var r := Woken(w, writer, {}, home);
    assert w.writers[writer].targets - {} == w.writers[writer].targets;
    assert r.writers == w.writers;
    assert r.held == w.held;
    assert {} - home == {} && w.scheduled + {} == w.scheduled;
  }

  lemma WokenOneMore(w: W.World, writer: nat, ids: set<nat>, home: set<nat>, id: nat)
    requires writer in w.writers && ids <= w.writers[writer].targets && ids <= w.held.Keys && id in ids
    ensures W.Next(Woken(w, writer, ids - {id}, home), W.Wake(writer, id, id in home)) == Woken(w, writer, ids, home)
  {
    var r, v := Woken(w, writer, ids, home), Woken(w, writer, ids - {id}, home);
    var n := W.Next(v, W.Wake(writer, id, id in home));
    assert w.writers[writer].targets - (ids - {id}) - {id} == w.writers[writer].targets - ids;
    assert n.writers == r.writers;
    assert n.held == r.held;
    assert n.scheduled == r.scheduled;
  }

  lemma {:induction false} WakingsCome(w: W.World, writer: nat, ids: set<nat>, home: set<nat>)
    requires writer in w.writers && ids <= w.writers[writer].targets && ids <= w.held.Keys
    ensures W.Play(w, Wakings(writer, ids, home)) == Woken(w, writer, ids, home)
    decreases |ids|
  {
    hide W.Next, Woken;
    var actions := Wakings(writer, ids, home);
    if ids == {} {
      WokenNobody(w, writer, home);
    } else {
      var id :| id in ids && actions == Wakings(writer, ids - {id}, home) + [W.Wake(writer, id, id in home)];
      assert actions[..|actions| - 1] == Wakings(writer, ids - {id}, home);
      WakingsCome(w, writer, ids - {id}, home);
      WokenOneMore(w, writer, ids, home, id);
    }
  }

  lemma SnapshotComes(w: W.World, writer: nat, key: Key)
    requires writer in w.writers && key in w.writers[writer].keys && w.writers[writer].targets == {}
    ensures W.Next(w, W.Snapshot(writer, key))
            == w.(writers := w.writers[writer := W.Writer(w.writers[writer].keys - {key}, W.WaitersOn(w, key))])
  {
    assert {} + W.WaitersOn(w, key) == W.WaitersOn(w, key);
  }

  /** One `notify` is a snapshot by the writer followed by a waking of every request in it, all on loops that
      are still open. */
  method Notify(s: S.Signals, seats: map<nat, S.Waiter>, key: Key, running: Option<nat>, ghost w: W.World,
                ghost writer: nat)
    returns (ghost actions: seq<W.Action>)
    requires Mirrors(s, seats, w)
    requires writer in w.writers && key in w.writers[writer].keys && w.writers[writer].targets == {}
    modifies s.At(key)
    ensures actions != [] && actions[0] == W.Snapshot(writer, key)
    ensures forall a :: a in actions[1..] ==> a.Wake? && a.writer == writer
    ensures Mirrors(s, seats, W.Play(w, actions))
    ensures W.Play(w, actions).writers == w.writers[writer := W.Writer(w.writers[writer].keys - {key}, {})]
    ensures W.Play(w, actions).hub == w.hub
  {
    hide Registered, W.Play, Wakings, W.Next, W.WaitersOn, W.Sound;
    ghost var ids := W.WaitersOn(w, key);
    ghost var home := set i | i in seats && running == Some(seats[i].home);
    actions := Notification(writer, key, ids, home);
    NotifyComes(w, writer, key, home);
    OnKey(s, seats, w, key);
    RegisterStays(s, seats, w, W.Play(w, actions));
    FlagAll(s, seats, key, running, ids);
  }

  /** A snapshot and the wakings that follow it. */
  ghost function Notification(writer: nat, key: Key, ids: set<nat>, home: set<nat>): (actions: seq<W.Action>)
    ensures actions != [] && actions[0] == W.Snapshot(writer, key)
    ensures forall a :: a in actions[1..] ==> a.Wake? && a.writer == writer
  {
    OnlyWakings(writer, ids, home);
    [W.Snapshot(writer, key)] + Wakings(writer, ids, home)
  }

  /** The same on the side of the registry, seat by seat. */
  method FlagAll(s: S.Signals, seats: map<nat, S.Waiter>, key: Key, running: Option<nat>, ghost ids: set<nat>)
    requires forall i :: i in seats ==> (seats[i] in s.At(key) <==> i in ids)
    modifies s.At(key)
    ensures s.waiters == old(s.waiters)
    ensures forall i :: i in seats ==>
              && seats[i].flag == (old(seats[i].flag) || (i in ids && running == Some(seats[i].home)))
              && seats[i].scheduled == (old(seats[i].scheduled) || (i in ids && running != Some(seats[i].home)))
  {
    s.Notify(key, running, {});
  }

  /** The whole of it, on the side of the race. */
  lemma NotifyComes(w: W.World, writer: nat, key: Key, home: set<nat>)
    requires writer in w.writers && key in w.writers[writer].keys && w.writers[writer].targets == {}
    ensures
      var ids := W.WaitersOn(w, key);
      var v := W.Play(w, Notification(writer, key, ids, home));
      && v.writers == w.writers[writer := W.Writer(w.writers[writer].keys - {key}, {})]
      && v.hub == w.hub && v.held.Keys == w.held.Keys && v.scheduled == w.scheduled + (ids - home)
      && forall i :: i in w.held ==>
           && v.held[i] == (if i in ids && i in home then w.held[i].(flag := true) else w.held[i])
           && v.held[i].wait == w.held[i].wait
  {
    var ids := W.WaitersOn(w, key);
    var snapped := W.Next(w, W.Snapshot(writer, key));
    SnapshotComes(w, writer, key);
    WakingsCome(snapped, writer, ids, home);
    SnapshotFirst(w, writer, key, Wakings(writer, ids, home));
    hide W.Next, W.Play, Wakings;
    assert ids - ids == {};
  }

  lemma {:induction false} SnapshotFirst(w: W.World, writer: nat, key: Key, rest: seq<W.Action>)
    ensures W.Play(w, [W.Snapshot(writer, key)] + rest) == W.Play(W.Next(w, W.Snapshot(writer, key)), rest)
  {
    var all := [W.Snapshot(writer, key)] + rest;
    if rest == [] {
      assert all == [W.Snapshot(writer, key)] && all[..0] == [];
    } else {
      assert all[..|all| - 1] == [W.Snapshot(writer, key)] + rest[..|rest| - 1];
      SnapshotFirst(w, writer, key, rest[..|rest| - 1]);
    }
  }

  /** A waiter's home loop running what was scheduled on it is one step. */
  method RunScheduled(s: S.Signals, seats: map<nat, S.Waiter>, id: nat, ghost w: W.World)
    requires Mirrors(s, seats, w) && id in seats
    modifies seats[id]
    ensures Mirrors(s, seats, W.Next(w, W.RunScheduled(id)))
  {
    seats[id].RunScheduled();
  }

  lemma SeatTaken(seats: map<nat, S.Waiter>, id: nat, x: S.Waiter)
    requires id !in seats
    ensures Seated(seats[id := x], x)
    ensures forall y :: Seated(seats, y) ==> Seated(seats[id := x], y)
  {
    assert seats[id := x][id] == x;
    forall y | Seated(seats, y) ensures Seated(seats[id := x], y) {
      var i :| i in seats && seats[i] == y;
      assert seats[id := x][i] == y;
    }
  }

  lemma SubscribeComes(w: W.World, id: nat, wait: W.Wait, timeout: nat)
    requires id !in w.held && W.Sound(w.hub, wait)
    ensures W.Next(w, W.Subscribe(id, wait, timeout))
            == w.(held := w.held[id := W.Held(wait, W.Top, false, w.timer + timeout)])
  {
  }

  /** Subscribing takes a fresh seat. */
  method Subscribe(s: S.Signals, seats: map<nat, S.Waiter>, id: nat, wait: W.Wait, timeout: nat, home: nat,
                   ghost w: W.World)
    returns (seated: map<nat, S.Waiter>)
    requires Mirrors(s, seats, w) && id !in w.held && id !in w.scheduled && W.Sound(w.hub, wait)
    modifies s
    ensures Mirrors(s, seated, W.Next(w, W.Subscribe(id, wait, timeout)))
  {
    hide W.Next, W.Sound;
    SubscribeComes(w, id, wait, timeout);
    var x := s.Subscribe(W.KeyOf(wait), home);
    seated := seats[id := x];
    SeatTaken(seats, id, x);
    forall k, y | y in s.At(k) ensures Seated(seated, y) {
      if y != x { assert y in old(s.At(k)) && Seated(seats, y); }
    }
  }

  /** Leaving gives the seat up; requests leave when a poll finds something or the deadline has passed. */
  method Unsubscribe(s: S.Signals, seats: map<nat, S.Waiter>, id: nat, key: Key, ghost w: W.World)
    returns (seated: map<nat, S.Waiter>)
    requires Mirrors(s, seats, w) && id in seats && key == W.KeyOf(w.held[id].wait)
    modifies s
    ensures Mirrors(s, seated, w.(held := w.held - {id}))
  {
    s.Unsubscribe(key, seats[id]);
    seated := seats - {id};
    forall k, x | x in s.At(k) ensures Seated(seated, x) {
      assert x in old(s.At(k)) && x != seats[id] && Seated(seats, x);
      var i :| i in seats && seats[i] == x;
      assert i in seated && seated[i] == x;
    }
  }
}
