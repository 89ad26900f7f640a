/** The scenario driver: two disturbances of a repository, each made once however often the driver is
    killed and started again.

    Three things outlive a crash: the remote repository, the checkpoint file and the driver's clone.
    `DriverOnce` may stop dead after any write to them, and others may change the remote between any
    two of its steps. Observations that only gate progress (approvals, checks, an open pull request)
    may go either way at any time.
 */
module Driver {
  import opened HubTypes

  // -- the remote and the checkpoint ------------------------------------------

  datatype Kind = HeadCanary | BaseFixture | Other

  /** A commit: `kind` is what its own difference to its parent amounts to. */
  datatype Commit = Commit(id: nat, parent: nat, kind: Kind)

  datatype PrState = PrOpen | PrClosed | PrMerged

  datatype Pr = Pr(head: nat, state: PrState, mergeCommit: Option<nat>)

  datatype HeadMark = HeadMark(oldHead: nat, newHead: Option<nat>, pushed: bool)

  datatype BaseMark = BaseMark(oldMain: nat, head: Option<nat>, pr: Option<nat>, merged: bool, newMain: Option<nat>)

  datatype Checkpoint = Checkpoint(head: Option<HeadMark>, base: Option<BaseMark>)

  /** `impl` is the work branch from its root to its head. `seen` holds every commit that was ever on it,
      `mine` the head disturbances this driver pushed, oldest first, and `merges` counts its merges. */
  datatype World = World(
    checkpoint: Checkpoint,
    impl: seq<Commit>,
    base: Option<Commit>,
    main: nat,
    prs: seq<Pr>,
    dirty: bool,
    nextId: nat,
    seen: set<Commit>,
    mine: seq<nat>,
    merges: nat)

  function Head(w: World): Commit
    requires w.impl != []
  {
    w.impl[|w.impl| - 1]
  }

  predicate Prepared(c: Checkpoint) {
    c.head.Some? && !c.head.value.pushed
  }

  /** A branch from its root to its head: each commit is the parent of the next, and ids are its own. */
  predicate Linear(history: seq<Commit>, nextId: nat) {
    && history != []
    && (forall i :: 0 <= i < |history| - 1 ==> Linked(history, i))
    && (forall i, j :: 0 <= i < j < |history| ==> history[i].id != history[j].id)
    && (forall i :: 0 <= i < |history| ==> history[i].id < nextId)
  }

  predicate Linked(history: seq<Commit>, i: int)
    requires 0 <= i < |history| - 1
  {
    history[i + 1].parent == history[i].id
  }

  // -- everybody else ---------------------------------------------------------

  datatype Move =
    | PushWork(kind: Kind)
    | ResetWork(history: seq<Commit>)
    | AdvanceMain(to: nat)
    | SetBase(branch: Option<Commit>)
    | ClosePr

  /** Open pull requests follow their branch, and close when it is deleted. */
  function FollowBase(prs: seq<Pr>, to: Option<Commit>): seq<Pr> {
    if to.None? then CloseAll(prs)
    else seq(|prs|, i requires 0 <= i < |prs| =>
             if prs[i].state == PrOpen then prs[i].(head := to.value.id) else prs[i])
  }

  function CloseAll(prs: seq<Pr>): seq<Pr> {
    seq(|prs|, i requires 0 <= i < |prs| => if prs[i].state == PrOpen then prs[i].(state := PrClosed) else prs[i])
  }

  /** What others may do to the remote. The work branch only moves forward while the checkpoint is
      prepared; the driver alone opens and merges base pull requests. */
  function Disturb(w: World, m: Move): World {
    match m
    case PushWork(kind) =>
      if w.impl == [] then w
      else
        var c := Commit(w.nextId, Head(w).id, kind);
        w.(impl := w.impl + [c], seen := w.seen + {c}, nextId := w.nextId + 1)
    case ResetWork(history) =>
      if Prepared(w.checkpoint) || !Linear(history, w.nextId) then w
      else w.(impl := history, seen := w.seen + set c | c in history)
    case AdvanceMain(to) => w.(main := to)
    case SetBase(branch) => w.(base := branch, prs := FollowBase(w.prs, branch))
    case ClosePr => w.(prs := CloseAll(w.prs))
  }

  function DisturbAll(w: World, moves: seq<Move>): World {
    if moves == [] then w else Disturb(DisturbAll(w, moves[..|moves| - 1]), moves[|moves| - 1])
  }

  // -- the invariant ----------------------------------------------------------

  /** `id` follows `parent` on the branch. */
  predicate Follows(impl: seq<Commit>, parent: nat, id: nat) {
    exists p :: 0 <= p < |impl| - 1 && impl[p].id == parent && impl[p + 1].id == id
  }

  /** The head disturbance on record is a canary commit on the old head that was on the branch, and the
      driver's own if it pushed one. */
  ghost predicate HeadRecorded(w: World) {
    w.checkpoint.head.Some? && w.checkpoint.head.value.pushed
    && var m := w.checkpoint.head.value;
    && m.newHead.Some?
    && Commit(m.newHead.value, m.oldHead, HeadCanary) in w.seen
    && (w.mine != [] ==> w.mine == [m.newHead.value])
  }

  ghost predicate HeadInv(w: World) {
    && Linear(w.impl, w.nextId)
    && (forall c :: c in w.impl ==> c in w.seen)
    && |w.mine| <= 1
    && (w.checkpoint.head.None? ==> w.mine == [])
    && (Prepared(w.checkpoint) && w.mine != [] ==> Follows(w.impl, w.checkpoint.head.value.oldHead, w.mine[0]))
    && (Prepared(w.checkpoint) && w.mine != [] ==> w.checkpoint.head.value.newHead == Some(w.mine[0]))
    && (w.checkpoint.head.Some? && w.checkpoint.head.value.pushed ==> HeadRecorded(w))
  }

  /** The base disturbance on record is the one merged pull request, head and merge commit alike. */
  ghost predicate BaseRecorded(w: World) {
    w.checkpoint.base.Some? && w.checkpoint.base.value.merged
    && var b := w.checkpoint.base.value;
    && b.pr == Some(0) && |w.prs| == 1 && w.prs[0].state == PrMerged
    && b.head == Some(w.prs[0].head) && b.newMain == w.prs[0].mergeCommit && b.newMain.Some?
  }

  ghost predicate BaseInv(w: World) {
    && |w.prs| <= 1
    && (forall i :: 0 <= i < |w.prs| && w.prs[i].state == PrMerged ==> w.prs[i].mergeCommit.Some?)
    && w.merges == (if |w.prs| == 1 && w.prs[0].state == PrMerged then 1 else 0)
    && (w.checkpoint.base.Some? ==> w.checkpoint.head.Some? && w.checkpoint.head.value.pushed)
    && (w.checkpoint.base.Some? && w.checkpoint.base.value.pr.Some? ==>
          w.checkpoint.base.value.pr == Some(0) && |w.prs| == 1)
    && (w.checkpoint.base.Some? && w.checkpoint.base.value.merged ==> BaseRecorded(w))
  }

  ghost predicate Inv(w: World) {
    HeadInv(w) && BaseInv(w)
  }

  /** Both disturbances are done and the checkpoint says exactly what the remote holds. */
  ghost predicate Recorded(w: World) {
    HeadRecorded(w) && BaseRecorded(w)
  }

  // -- what others cannot spoil -----------------------------------------------

  /** The branch as the driver last saw it is still there underneath. */
  ghost predicate Undisturbed(w: World, v: World) {
    && v.checkpoint == w.checkpoint && v.mine == w.mine && v.merges == w.merges && v.dirty == w.dirty
    && |v.prs| == |w.prs| && w.nextId <= v.nextId && w.seen <= v.seen
    && (Prepared(w.checkpoint) ==>
          w.impl <= v.impl && forall i :: |w.impl| <= i < |v.impl| ==> v.impl[i].id >= w.nextId)
    && (forall i :: 0 <= i < |w.prs| && w.prs[i].state == PrMerged ==> v.prs[i] == w.prs[i])
  }

  lemma FollowsStays(a: seq<Commit>, b: seq<Commit>, parent: nat, id: nat)
    requires a <= b && Follows(a, parent, id)
    ensures Follows(b, parent, id)
  {
    var p :| 0 <= p < |a| - 1 && a[p].id == parent && a[p + 1].id == id;
    assert b[p] == a[p] && b[p + 1] == a[p + 1];
  }

  lemma Grown(history: seq<Commit>, nextId: nat, c: Commit, later: nat)
    requires Linear(history, nextId) && c.parent == history[|history| - 1].id && nextId <= later && c.id < later
    requires forall x :: x in history ==> x.id != c.id
    ensures Linear(history + [c], later)
  {
    var grown := history + [c];
    forall i | 0 <= i < |grown| - 1 ensures Linked(grown, i) {
      assert i < |history| - 1 ==> Linked(history, i);
    }
  }

  lemma PushWorkKeeps(w: World, kind: Kind)
    requires Inv(w)
    ensures Inv(Disturb(w, PushWork(kind))) && Undisturbed(w, Disturb(w, PushWork(kind)))
  {
    var v := Disturb(w, PushWork(kind));
    Grown(w.impl, w.nextId, Commit(w.nextId, Head(w).id, kind), w.nextId + 1);
    if Prepared(w.checkpoint) && w.mine != [] {
      FollowsStays(w.impl, v.impl, w.checkpoint.head.value.oldHead, w.mine[0]);
    }
    assert HeadInv(v) by { hide BaseInv; }
    assert BaseInv(v) by { hide HeadInv; }
  }

  lemma ResetWorkKeeps(w: World, history: seq<Commit>)
    requires Inv(w)
    ensures Inv(Disturb(w, ResetWork(history))) && Undisturbed(w, Disturb(w, ResetWork(history)))
  {
    var v := Disturb(w, ResetWork(history));
    assert HeadInv(v) by { hide BaseInv; }
    assert BaseInv(v) by { hide HeadInv; }
  }

  lemma BaseMoveKeeps(w: World, m: Move)
    requires Inv(w) && (m.AdvanceMain? || m.SetBase? || m.ClosePr?)
    ensures Inv(Disturb(w, m)) && Undisturbed(w, Disturb(w, m))
  {
    var v := Disturb(w, m);
    assert HeadInv(v) by { hide BaseInv; }
    assert BaseInv(v) by { hide HeadInv; }
  }

  lemma DisturbKeeps(w: World, m: Move)
    requires Inv(w)
    ensures Inv(Disturb(w, m)) && Undisturbed(w, Disturb(w, m))
  {
    hide Inv, Undisturbed, Disturb;
    match m
    case PushWork(kind) => PushWorkKeeps(w, kind);
    case ResetWork(history) => ResetWorkKeeps(w, history);
    case _ => BaseMoveKeeps(w, m);
  }

  lemma {:induction false} DisturbAllKeeps(w: World, moves: seq<Move>)
    requires Inv(w)
    ensures Inv(DisturbAll(w, moves)) && Undisturbed(w, DisturbAll(w, moves))
  {
    if moves != [] {
      var n := |moves| - 1;
      DisturbAllKeeps(w, moves[..n]);
      DisturbKeeps(DisturbAll(w, moves[..n]), moves[n]);
    }
  }

  // -- what one run leaves behind ---------------------------------------------

  /** What no later run takes back: commits pushed, pull requests opened, merges, and completed records. */
  ghost predicate Onward(w: World, v: World) {
    && w.mine <= v.mine && |w.prs| <= |v.prs| && w.merges <= v.merges
    && (w.checkpoint.head.Some? ==>
          v.checkpoint.head.Some? && v.checkpoint.head.value.oldHead == w.checkpoint.head.value.oldHead)
    && (HeadRecorded(w) ==> v.checkpoint.head == w.checkpoint.head && v.mine == w.mine)
    && (BaseRecorded(w) ==> v.checkpoint.base == w.checkpoint.base && v.prs == w.prs)
  }

  /** The states crashes alone can lead to: whatever is on the remote, the checkpoint foresaw it. */
  ghost predicate Foreseen(w: World) {
    && w.impl != []
    && (Prepared(w.checkpoint) ==> OnCourse(w.checkpoint.head.value, Head(w)))
    && (w.base.Some? ==> w.checkpoint.base.Some? && IsFixture(w.checkpoint.base.value, w.base.value))
    && (w.prs != [] ==>
          && w.checkpoint.base.Some? && w.checkpoint.base.value.head == Some(w.prs[0].head)
          && !w.prs[0].state.PrClosed?
          && (w.prs[0].state.PrOpen? ==> w.base.Some? && w.base.value.id == w.prs[0].head)
          && (w.prs[0].state.PrMerged? ==> w.checkpoint.base.value.pr.Some?))
  }

  predicate OnCourse(h: HeadMark, c: Commit) {
    c.id == h.oldHead || IsCanary(h, c)
  }

  /** A commit the driver may take for its own push. */
  predicate IsCanary(h: HeadMark, c: Commit) {
    c.kind == HeadCanary && c.parent == h.oldHead
  }

  predicate IsFixture(b: BaseMark, c: Commit) {
    b.head == Some(c.id) && c.parent == b.oldMain && c.kind == BaseFixture
  }

  /** What happens at one point of a run: what others do first, whether the observation made there lets
      the driver go on, and whether it dies right after. */
  datatype Turn = Turn(moves: seq<Move>, go: bool, dies: bool)

  ghost predicate Still(turns: nat -> Turn) {
    forall i: nat :: turns(i).moves == []
  }

  ghost predicate StillAll(passes: seq<nat -> Turn>) {
    forall i :: 0 <= i < |passes| ==> Still(passes[i])
  }

  ghost predicate Calm(turns: nat -> Turn) {
    forall i: nat :: turns(i) == Turn([], true, false)
  }

  /** Nobody interferes, everything is in place, and the driver dies at one point. */
  ghost predicate DiesAt(turns: nat -> Turn, k: nat) {
    forall i: nat :: turns(i) == Turn([], true, i == k)
  }

  /** The next thing the driver does is to stage a canary. */
  ghost predicate Stages(w: World) {
    && w.impl != []
    && (w.checkpoint.head.None?
        || (Prepared(w.checkpoint) && Head(w).id == w.checkpoint.head.value.oldHead))
  }

  datatype Outcome = Again | AllDone | Stopped | Crashed

  /** The base disturbance is begun and not yet recorded as merged. */
  predicate Underway(w: World) {
    w.checkpoint.base.Some? && !w.checkpoint.base.value.merged
  }

  /** One step of the driver, or several: nothing is lost, and without others nothing is unforeseen. */
  ghost predicate Keeps(w: World, v: World, still: bool) {
    Inv(v) && Onward(w, v) && (still && Foreseen(w) ==> Foreseen(v))
  }

  lemma Chain(u: World, w: World, v: World, still: bool)
    requires Inv(w) && Keeps(u, w, still) && Keeps(w, v, still)
    ensures Keeps(u, v, still)
  {
  }

  lemma UndisturbedKeeps(w: World, v: World)
    requires Inv(w) && Inv(v) && Undisturbed(w, v)
    ensures Onward(w, v)
  {
  }

  /** Where a run starts from. */
  lemma Standing(w: World, still: bool)
    requires Inv(w)
    ensures Keeps(w, w, still)
    ensures w.impl != [] && forall x :: x in w.impl ==> x.id < w.nextId
    ensures w.checkpoint.head.Some? && w.checkpoint.head.value.pushed <==> HeadRecorded(w)
    ensures Underway(w) || w.checkpoint.base.None? || Recorded(w)
  {
  }

  lemma Weaken(w: World, v: World, still: bool, stiller: bool)
    requires Keeps(w, v, still) && (stiller ==> still)
    ensures Keeps(w, v, stiller)
  {
  }

  // -- the driver's own effects -----------------------------------------------

  function MarkHead(w: World, h: HeadMark): World {
    w.(checkpoint := w.checkpoint.(head := Some(h)))
  }

  function MarkBase(w: World, b: BaseMark): World {
    w.(checkpoint := w.checkpoint.(base := Some(b)))
  }

  /** The clone commits; the id is new. */
  function CommitOne(w: World): World {
    w.(dirty := false, nextId := w.nextId + 1)
  }

  /** A push without force: refused unless the branch is still where it was fetched. */
  function PushHead(w: World, c: Commit): Option<World> {
    if w.impl == [] || Head(w).id != c.parent then None
    else Some(w.(impl := w.impl + [c], seen := w.seen + {c}, mine := w.mine + [c.id]))
  }

  function PushBase(w: World, c: Commit): Option<World> {
    if w.base.Some? && w.base.value.id != c.parent then None
    else Some(w.(base := Some(c), prs := FollowBase(w.prs, Some(c))))
  }

  function OpenPr(w: World): Option<World> {
    if w.base.None? then None else Some(w.(prs := w.prs + [Pr(w.base.value.id, PrOpen, None)]))
  }

  /** Merges the first pull request if it is open at exactly this head, and deletes its branch. */
  function MergePr(w: World, head: nat): Option<World> {
    if w.prs == [] || !w.prs[0].state.PrOpen? || w.prs[0].head != head then None
    else Some(w.(prs := w.prs[0 := Pr(head, PrMerged, Some(w.nextId))], main := w.nextId, nextId := w.nextId + 1,
                 base := None, merges := w.merges + 1))
  }

  lemma SameSpot(impl: seq<Commit>, nextId: nat, i: nat, j: nat)
    requires Linear(impl, nextId) && i < |impl| && j < |impl| && impl[i].id == impl[j].id
    ensures i == j
  {
  }

  /** Once the old head lies under the driver's own commit, the branch's head is never the old one again:
      there is nothing to push a second disturbance onto. */
  lemma NeverTwice(w: World)
    requires HeadInv(w) && Prepared(w.checkpoint) && Head(w).id == w.checkpoint.head.value.oldHead
    ensures w.mine == []
  {
    assert forall p :: 0 <= p < |w.impl| - 1 ==> w.impl[p].id != w.impl[|w.impl| - 1].id;
  }

  /** A canary on the old head that others could have put there is the driver's own if it pushed one. */
  lemma OnlyMine(w: World, c: Commit)
    requires HeadInv(w) && Prepared(w.checkpoint) && w.mine != []
    requires c == Head(w) && c.parent == w.checkpoint.head.value.oldHead
    ensures w.mine == [c.id]
  {
    var start := w.checkpoint.head.value.oldHead;
    var p: nat :| p < |w.impl| - 1 && w.impl[p].id == start && w.impl[p + 1].id == w.mine[0];
    assert Linked(w.impl, |w.impl| - 2);
    SameSpot(w.impl, w.nextId, p, |w.impl| - 2);
  }

  lemma PushHeadKeeps(w: World, c: Commit)
    requires Inv(w) && Prepared(w.checkpoint) && IsCanary(w.checkpoint.head.value, c)
    requires c.id < w.nextId && forall x :: x in w.impl ==> x.id != c.id
    requires w.checkpoint.head.value.newHead == Some(c.id) && PushHead(w, c).Some?
    ensures Keeps(w, PushHead(w, c).value, true) && PushHead(w, c).value.mine == [c.id]
  {
    NeverTwice(w);
    Grown(w.impl, w.nextId, c, w.nextId);
    var v := PushHead(w, c).value;
    var p := |w.impl| - 1;
    assert v.impl[p] == w.impl[p] && v.impl[p + 1] == c;
    assert Follows(v.impl, c.parent, c.id);
  }

  lemma CommitKeeps(w: World)
    requires Inv(w)
    ensures Keeps(w, CommitOne(w), true)
  {
  }

  lemma DirtyKeeps(w: World)
    requires Inv(w)
    ensures Keeps(w, w.(dirty := true), true)
  {
  }

  /** Until the push is made, the checkpoint may name any intended commit. */
  lemma PrepareKeeps(w: World, h: HeadMark)
    requires Inv(w) && !h.pushed
    requires w.checkpoint.head.None?
             || (Prepared(w.checkpoint) && h.oldHead == w.checkpoint.head.value.oldHead && h.oldHead == Head(w).id)
    ensures Keeps(w, MarkHead(w, h), w.checkpoint.head.Some? || h.oldHead == Head(w).id)
  {
  }

  lemma PushedKeeps(w: World, newHead: nat)
    requires Inv(w) && Prepared(w.checkpoint)
    requires Commit(newHead, w.checkpoint.head.value.oldHead, HeadCanary) in w.seen
    requires w.mine == [] || w.mine == [newHead]
    ensures
      var v := MarkHead(w, w.checkpoint.head.value.(newHead := Some(newHead), pushed := true));
      Keeps(w, v, true) && HeadRecorded(v)
  {
  }

  /** The base disturbance may be begun, or given another intended head or its pull request. */
  ghost predicate MayMark(w: World, b: BaseMark) {
    && w.checkpoint.head.Some? && w.checkpoint.head.value.pushed
    && (w.checkpoint.base.Some? ==> !w.checkpoint.base.value.merged)
    && !b.merged
    && (b.pr.Some? ==> b.pr == Some(0) && w.prs != [])
  }

  lemma MarkBaseKeeps(w: World, b: BaseMark)
    requires Inv(w) && MayMark(w, b)
    ensures Keeps(w, MarkBase(w, b), (w.base.None? && w.prs == [])
                                     || (w.checkpoint.base.Some? && b == w.checkpoint.base.value.(pr := Some(0))))
  {
  }

  lemma PushBaseKeeps(w: World, c: Commit)
    requires Inv(w) && PushBase(w, c).Some?
    requires w.checkpoint.base.Some? && !w.checkpoint.base.value.merged && IsFixture(w.checkpoint.base.value, c)
    ensures Keeps(w, PushBase(w, c).value, w.prs == [])
  {
  }

  lemma OpenPrKeeps(w: World)
    requires Inv(w) && w.prs == [] && OpenPr(w).Some?
    ensures Keeps(w, OpenPr(w).value, true)
  {
  }

  lemma MergePrKeeps(w: World, head: nat)
    requires Inv(w) && MergePr(w, head).Some?
    requires w.checkpoint.base.Some? && !w.checkpoint.base.value.merged && w.checkpoint.base.value.pr.Some?
    ensures Keeps(w, MergePr(w, head).value, w.checkpoint.base.value.head == Some(head))
  {
  }

  lemma MergedKeeps(w: World)
    requires Inv(w) && w.checkpoint.base.Some? && !w.checkpoint.base.value.merged
    requires w.checkpoint.base.value.pr.Some? && w.prs[0].state.PrMerged?
    requires w.checkpoint.base.value.head == Some(w.prs[0].head)
    ensures
      var v := MarkBase(w, w.checkpoint.base.value.(merged := true, newMain := w.prs[0].mergeCommit));
      Keeps(w, v, true) && Recorded(v)
  {
  }

  predicate Unmerged(w: World) {
    w.prs == [] || !w.prs[0].state.PrMerged?
  }

  /** Main, the base branch and the pull requests are as they were. */
  predicate SameElse(w: World, v: World) {
    v.main == w.main && v.base == w.base && v.prs == w.prs && v.checkpoint.base == w.checkpoint.base
  }

  /** Just the head was disturbed: one canary on the old head, made now or found there. */
  predicate HeadMoved(w: World, v: World) {
    && SameElse(w, v) && w.impl != [] && v.checkpoint.head.Some?
    && var h := v.checkpoint.head.value;
    && h.pushed && h.newHead.Some?
    && if w.checkpoint.head.None? || w.checkpoint.head.value.oldHead == Head(w).id
       then h.oldHead == Head(w).id && v.impl == w.impl + [Commit(h.newHead.value, h.oldHead, HeadCanary)]
       else v.impl == w.impl && h.newHead == Some(Head(w).id)
  }

  /** Just main moved, from where it was found to the recorded merge, and the base branch is gone again. */
  predicate BaseMoved(w: World, v: World) {
    && v.impl == w.impl && v.checkpoint.head == w.checkpoint.head && v.base.None? && v.checkpoint.base.Some?
    && v.checkpoint.base.value.oldMain == w.main && v.checkpoint.base.value.newMain == Some(v.main)
  }

  predicate SameCounts(w: World, v: World) {
    v.mine == w.mine && v.merges == w.merges
  }

  /** The driver has done nothing, whatever others did. */
  predicate Passive(w: World, v: World) {
    SameCounts(w, v) && v.checkpoint == w.checkpoint && |v.prs| == |w.prs| && v.dirty == w.dirty
  }

  /** No push without the approval of the old head, no merge without its checks. */
  predicate Gated(w: World, v: World, turns: nat -> Turn) {
    (!turns(4).go ==> v.mine == w.mine) && (!turns(18).go ==> v.merges == w.merges)
  }

  // -- the driver -------------------------------------------------------------

  class ScenarioDriver {
    var world: World

    constructor (start: World)
      requires Inv(start)
      ensures world == start
    {
      world := start;
    }

    /** Others take their turn. */
    method Others(t: Turn)
      requires Inv(world)
      modifies this
      ensures Inv(world) && Undisturbed(old(world), world) && Keeps(old(world), world, t.moves == [])
      ensures t.moves == [] ==> world == old(world)
    {
      DisturbAllKeeps(world, t.moves);
      UndisturbedKeeps(world, DisturbAll(world, t.moves));
      world := DisturbAll(world, t.moves);
    }

    method DriverOnce(turns: nat -> Turn) returns (o: Outcome)
      requires Inv(world)
      modifies this
      ensures Keeps(old(world), world, Still(turns))
      ensures o == AllDone ==> Recorded(world)
      ensures Calm(turns) && Foreseen(old(world)) && !old(world).dirty ==>
        && !world.dirty && HeadRecorded(world)
        && o == (if HeadRecorded(old(world)) then AllDone else Again)
      ensures old(world).dirty ==> world.dirty && (o == Stopped || o == Again)
      ensures Calm(turns) && old(world).dirty ==> o == Stopped && world == old(world)
      ensures !old(world).dirty && world.dirty ==> o == Crashed && (turns(4).dies || turns(11).dies)
      ensures DiesAt(turns, 4) && Stages(old(world)) && !old(world).dirty ==> o == Crashed && world.dirty
      ensures Calm(turns) && Foreseen(old(world)) && !old(world).dirty ==>
                if HeadRecorded(old(world)) then old(world).checkpoint.base.None? ==> BaseMoved(old(world), world)
                else HeadMoved(old(world), world)
      ensures !turns(0).go ==> o == Again && world == old(world)
      ensures turns(0).go && (!turns(1).go || old(world).dirty) ==> o == Stopped && Passive(old(world), world)
      ensures !turns(2).go && old(world).checkpoint.head.None? ==>
                (o == Again || o == Stopped) && Passive(old(world), world)
      ensures !turns(3).go && HeadRecorded(old(world)) ==>
                (o == Again || o == Stopped) && Passive(old(world), world)
      ensures Gated(old(world), world, turns)
    {
      hide HeadInv, Onward;
      Standing(world, Still(turns));
      if !turns(0).go { return Again; }
      var found := Head(world).id;
      Others(turns(0));
      if !turns(1).go || world.dirty { return Stopped; }
      ghost var here := world;
      if world.checkpoint.head.None? {
        if !turns(2).go { return Again; }
        o := Prepare(found, turns);
        assert Keeps(here, world, Still(turns));
        Chain(old(world), here, world, Still(turns));
        if o != Again { return; }
        here := world;
      }
      o := Proceed(turns);
      Chain(old(world), here, world, Still(turns));
    }

    method Proceed(turns: nat -> Turn) returns (o: Outcome)
      requires Inv(world) && world.checkpoint.head.Some?
      modifies this
      ensures Keeps(old(world), world, Still(turns))
      ensures o == AllDone ==> Recorded(world)
      ensures Calm(turns) && Foreseen(old(world)) && !old(world).dirty ==>
        && !world.dirty && HeadRecorded(world)
        && o == (if Prepared(old(world).checkpoint) then Again else AllDone)
      ensures !old(world).dirty && world.dirty ==> o == Crashed && (turns(4).dies || turns(11).dies)
      ensures DiesAt(turns, 4) && Prepared(old(world).checkpoint) && Stages(old(world)) ==> o == Crashed && world.dirty
      ensures Calm(turns) && Foreseen(old(world)) && !old(world).dirty ==>
                if Prepared(old(world).checkpoint) then HeadMoved(old(world), world)
                else old(world).checkpoint.base.None? ==> BaseMoved(old(world), world)
      ensures Gated(old(world), world, turns)
      ensures !turns(3).go && !Prepared(old(world).checkpoint) ==> o == Again && world == old(world)
    {
      if !world.checkpoint.head.value.pushed {
        o := DisturbHead(turns);
      } else if turns(3).go {
        o := DisturbBase(turns);
      } else {
        o := Again;
      }
    }

    /** Takes note of the head to disturb. */
    method Prepare(found: nat, turns: nat -> Turn) returns (o: Outcome)
      requires Inv(world) && world.checkpoint.head.None?
      modifies this
      ensures Keeps(old(world), world, Still(turns) && found == Head(old(world)).id)
      ensures Prepared(world.checkpoint) && o == (if turns(2).dies then Crashed else Again)
      ensures world.dirty == old(world).dirty
      ensures world.checkpoint.head.value.oldHead == found
      ensures turns(2).moves == [] ==> world.impl == old(world).impl
      ensures turns(2).moves == [] ==> world == MarkHead(old(world), HeadMark(found, None, false))
      ensures SameCounts(old(world), world)
    {
      Others(turns(2));
      ghost var here := world;
      PrepareKeeps(world, HeadMark(found, None, false));
      world := MarkHead(world, HeadMark(found, None, false));
      Chain(old(world), here, world, Still(turns) && found == Head(old(world)).id);
      o := if turns(2).dies then Crashed else Again;
    }

    method DisturbHead(turns: nat -> Turn) returns (o: Outcome)
      requires Inv(world) && Prepared(world.checkpoint)
      modifies this
      ensures Keeps(old(world), world, Still(turns))
      ensures o != AllDone
      ensures Calm(turns) && Foreseen(old(world)) && !old(world).dirty ==>
        o == Again && HeadRecorded(world) && !world.dirty
      ensures !old(world).dirty && world.dirty ==> o == Crashed && turns(4).dies
      ensures DiesAt(turns, 4) && Stages(old(world)) ==> o == Crashed && world.dirty
      ensures Calm(turns) && Foreseen(old(world)) && !old(world).dirty ==> HeadMoved(old(world), world)
      ensures world.merges == old(world).merges && (!turns(4).go ==> world.mine == old(world).mine)
    {
      var h := world.checkpoint.head.value;
      var remote := Head(world);
      var newHead := remote.id;
      if remote.id != h.oldHead {
        if !IsCanary(h, remote) { return Stopped; }
        if world.mine != [] { OnlyMine(world, remote); }
        assert remote in world.impl;
        Others(turns(4));
      } else {
        o, newHead := PushCanary(turns);
        if o != Again { return; }
      }
      ghost var here := world;
      PushedKeeps(world, newHead);
      world := MarkHead(world, world.checkpoint.head.value.(newHead := Some(newHead), pushed := true));
      Chain(old(world), here, world, Still(turns));
      o := if turns(9).dies then Crashed else Again;
    }

    /** Commits a canary on the old head and pushes it. Not `Again` means the run ends here. */
    method PushCanary(turns: nat -> Turn) returns (o: Outcome, newHead: nat)
      requires Inv(world) && Prepared(world.checkpoint)
      requires Head(world).id == world.checkpoint.head.value.oldHead
      modifies this
      ensures Keeps(old(world), world, Still(turns)) && Prepared(world.checkpoint) && o != AllDone
      ensures o == Again ==>
        Commit(newHead, world.checkpoint.head.value.oldHead, HeadCanary) in world.seen && world.mine == [newHead]
      ensures Calm(turns) && Head(old(world)).id == old(world).checkpoint.head.value.oldHead ==>
        o == Again && !world.dirty
      ensures !old(world).dirty ==> (world.dirty <==> turns(4).go && turns(4).dies)
      ensures turns(4).go && turns(4).dies ==> o == Crashed && world.dirty
      ensures Calm(turns) && o == Again ==>
                && SameElse(old(world), world)
                && world.impl
                   == old(world).impl + [Commit(newHead, old(world).checkpoint.head.value.oldHead, HeadCanary)]
      ensures world.merges == old(world).merges
      ensures !turns(4).go ==> o == Stopped && world == old(world)
    {
      hide HeadInv, Onward;
      Standing(world, Still(turns));
      newHead := 0;
      if !turns(4).go { return Stopped, 0; }
      ghost var here := world;
      DirtyKeeps(world);
      world := world.(dirty := true);
      if turns(4).dies { return Crashed, 0; }
      var h := world.checkpoint.head.value;
      var c := Commit(world.nextId, h.oldHead, HeadCanary);
      world := CommitOne(world);
      CommitKeeps(here);
      assert world == CommitOne(here);
      if turns(5).dies { return Crashed, 0; }
      o := PushCommit(c, turns);
      Chain(old(world), CommitOne(here), world, Still(turns));
      newHead := c.id;
    }

    method PushCommit(c: Commit, turns: nat -> Turn) returns (o: Outcome)
      requires Inv(world) && Prepared(world.checkpoint) && IsCanary(world.checkpoint.head.value, c)
      requires c.id < world.nextId && Head(world).id == c.parent && forall x :: x in world.impl ==> x.id != c.id
      modifies this
      ensures Keeps(old(world), world, Still(turns)) && Prepared(world.checkpoint) && o != AllDone
      ensures o == Again ==>
        Commit(c.id, world.checkpoint.head.value.oldHead, HeadCanary) in world.seen && world.mine == [c.id]
      ensures Calm(turns) && Head(old(world)).id == c.parent ==> o == Again
      ensures world.dirty == old(world).dirty
      ensures Calm(turns) && o == Again ==> SameElse(old(world), world) && world.impl == old(world).impl + [c]
      ensures world.merges == old(world).merges
    {
      hide HeadInv, Onward;
      Standing(world, Still(turns));
      var h := world.checkpoint.head.value;
      PrepareKeeps(world, h.(newHead := Some(c.id)));
      world := MarkHead(world, h.(newHead := Some(c.id)));
      ghost var here := world;
      if turns(6).dies { return Crashed; }
      Others(turns(6));
      Chain(old(world), here, world, Still(turns));
      here := world;
      var pushed := PushHead(world, c);
      if pushed.None? { return Stopped; }
      PushHeadKeeps(world, c);
      world := pushed.value;
      Chain(old(world), here, world, Still(turns));
      here := world;
      if turns(7).dies { return Crashed; }
      Others(turns(7));
      Chain(old(world), here, world, Still(turns));
      o := Again;
    }

    method DisturbBase(turns: nat -> Turn) returns (o: Outcome)
      requires Inv(world) && world.checkpoint.head.Some? && world.checkpoint.head.value.pushed
      modifies this
      ensures Keeps(old(world), world, Still(turns))
      ensures o == AllDone ==> Recorded(world)
      ensures Calm(turns) && Foreseen(old(world)) && !old(world).dirty ==> o == AllDone && !world.dirty
      ensures !old(world).dirty && world.dirty ==> o == Crashed && turns(11).dies
      ensures Calm(turns) && Foreseen(old(world)) && !old(world).dirty && old(world).checkpoint.base.None? ==>
                BaseMoved(old(world), world)
      ensures world.mine == old(world).mine && (!turns(18).go ==> world.merges == old(world).merges)
      ensures !turns(10).go && Underway(old(world)) && old(world).checkpoint.base.value.pr.Some?
              && !Unmerged(old(world)) ==>
                o == Stopped && Passive(old(world), world)
    {
      hide HeadInv, Onward;
      Standing(world, Still(turns));
      if world.checkpoint.base.None? {
        o := BeginBase(turns);
        if o != Again { return; }
      }
      ghost var here := world;
      if world.checkpoint.base.value.merged { return AllDone; }
      if world.checkpoint.base.value.pr.Some? {
        o := Resume(turns);
        Chain(old(world), here, world, Still(turns));
        if o != Again { return; }
        here := world;
      }
      o := Finish(turns);
      Chain(old(world), here, world, Still(turns));
    }

    /** From whatever is there of branch and pull request to the recorded merge. */
    method Finish(turns: nat -> Turn) returns (o: Outcome)
      requires Inv(world) && Underway(world)
      modifies this
      ensures Keeps(old(world), world, Still(turns) && Unmerged(old(world)))
      ensures o == AllDone ==> Recorded(world)
      ensures world.checkpoint.head == old(world).checkpoint.head && world.checkpoint.base.Some?
      ensures world.checkpoint.base.value.oldMain == old(world).checkpoint.base.value.oldMain
      ensures Still(turns) ==> world.impl == old(world).impl
      ensures Calm(turns) && Foreseen(old(world)) && Unmerged(old(world)) && !old(world).dirty ==>
                && o == AllDone && !world.dirty
                && world.base.None? && world.checkpoint.base.value.newMain == Some(world.main)
      ensures !old(world).dirty && world.dirty ==> o == Crashed && turns(11).dies
      ensures world.mine == old(world).mine && (!turns(18).go ==> world.merges == old(world).merges)
    {
      hide HeadInv, Onward;
      ghost var still := Still(turns) && Unmerged(old(world));
      o := EnsureBranch(turns);
      if o != Again { return; }
      ghost var here := world;
      o := EnsurePr(turns);
      Chain(old(world), here, world, still);
      if o != Again { return; }
      here := world;
      o := Merge(turns);
      Chain(old(world), here, world, still);
    }

    /** Takes note of the main branch the base disturbance starts from. */
    method BeginBase(turns: nat -> Turn) returns (o: Outcome)
      requires Inv(world) && world.checkpoint.base.None?
               && world.checkpoint.head.Some? && world.checkpoint.head.value.pushed
      modifies this
      ensures Keeps(old(world), world, Still(turns))
      ensures world.checkpoint.base == Some(BaseMark(old(world).main, None, None, false, None))
      ensures world.dirty == old(world).dirty && o == (if turns(3).dies then Crashed else Again)
      ensures turns(3).moves == [] ==> world == MarkBase(old(world), world.checkpoint.base.value)
      ensures SameCounts(old(world), world)
    {
      var b := BaseMark(world.main, None, None, false, None);
      Others(turns(3));
      ghost var here := world;
      MarkBaseKeeps(world, b);
      world := MarkBase(world, b);
      Chain(old(world), here, world, Still(turns));
      o := if turns(3).dies then Crashed else Again;
    }

    /** A pull request on record may have been merged just before a crash. */
    method Resume(turns: nat -> Turn) returns (o: Outcome)
      requires Inv(world) && Underway(world) && world.checkpoint.base.value.pr.Some?
      modifies this
      ensures Keeps(old(world), world, Still(turns)) && world.dirty == old(world).dirty
      ensures o == AllDone ==> Recorded(world)
      ensures o == Again ==> Underway(world) && Unmerged(old(world)) && (Still(turns) ==> world == old(world))
      ensures Calm(turns) && Foreseen(old(world)) ==> o == if Unmerged(old(world)) then Again else AllDone
      ensures SameCounts(old(world), world)
      ensures !turns(10).go && !Unmerged(old(world)) ==> o == Stopped && Passive(old(world), world)
    {
      var b := world.checkpoint.base.value;
      var view := world.prs[b.pr.value];
      Others(turns(10));
      if b.head != Some(view.head) { return Stopped; }
      if !view.state.PrMerged? { return Again; }
      if !turns(10).go { return Stopped; }
      ghost var here := world;
      RecordMerge(view);
      Chain(old(world), here, world, Still(turns));
      o := AllDone;
    }

    method RecordMerge(view: Pr)
      requires Inv(world) && Underway(world) && world.checkpoint.base.value.pr.Some?
      requires world.checkpoint.base.value.head == Some(view.head)
      requires world.prs[0] == view && view.state.PrMerged?
      modifies this
      ensures Keeps(old(world), world, true) && Recorded(world) && world.dirty == old(world).dirty
      ensures world.main == old(world).main && world.impl == old(world).impl && world.base == old(world).base
      ensures world.checkpoint.base.Some? && world.checkpoint.base.value.newMain == view.mergeCommit
              && world.checkpoint.base.value.oldMain == old(world).checkpoint.base.value.oldMain
      ensures world.checkpoint.head == old(world).checkpoint.head
      ensures SameCounts(old(world), world)
    {
      MergedKeeps(world);
      world := MarkBase(world, world.checkpoint.base.value.(merged := true, newMain := view.mergeCommit));
    }

    /** The remote holds the base branch the checkpoint intends, or the driver pushes one. */
    method EnsureBranch(turns: nat -> Turn) returns (o: Outcome)
      requires Inv(world) && Underway(world)
      modifies this
      ensures Keeps(old(world), world, Still(turns) && Unmerged(old(world))) && Underway(world)
      ensures o == Again ==> world.checkpoint.base.value.head.Some?
      ensures Still(turns) && Unmerged(old(world)) ==> Unmerged(world)
      ensures o != AllDone
      ensures Calm(turns) && Foreseen(old(world)) && Unmerged(old(world)) && !old(world).dirty ==>
        o == Again && !world.dirty && world.base.Some?
      ensures !old(world).dirty ==> (world.dirty <==> old(world).base.None? && turns(11).dies)
      ensures !old(world).dirty && world.dirty ==> o == Crashed
      ensures world.checkpoint.base.value.oldMain == old(world).checkpoint.base.value.oldMain
      ensures Still(turns) ==> world.main == old(world).main && world.impl == old(world).impl
      ensures world.checkpoint.head == old(world).checkpoint.head
      ensures SameCounts(old(world), world)
      ensures old(world).base.Some? ==>
                && Passive(old(world), world)
                && o == if IsFixture(old(world).checkpoint.base.value, old(world).base.value) then Again else Stopped
    {
      hide HeadInv, Onward;
      Standing(world, Still(turns));
      var b := world.checkpoint.base.value;
      var remote := world.base;
      Others(turns(11));
      if remote.Some? {
        return if IsFixture(b, remote.value) then Again else Stopped;
      }
      ghost var here := world;
      DirtyKeeps(world);
      world := world.(dirty := true);
      Chain(old(world), here, world, Still(turns) && Unmerged(old(world)));
      if turns(11).dies { return Crashed; }
      var c := Commit(world.nextId, b.oldMain, BaseFixture);
      here := world;
      CommitKeeps(world);
      world := CommitOne(world);
      Chain(old(world), here, world, Still(turns) && Unmerged(old(world)));
      if turns(12).dies { return Crashed; }
      here := world;
      o := PushFixture(c, turns);
      Chain(old(world), here, world, Still(turns) && Unmerged(old(world)));
    }

    method PushFixture(c: Commit, turns: nat -> Turn) returns (o: Outcome)
      requires Inv(world) && Underway(world)
      requires c.parent == world.checkpoint.base.value.oldMain && c.kind == BaseFixture
      modifies this
      ensures Keeps(old(world), world, Still(turns) && old(world).base.None? && old(world).prs == []) && Underway(world)
      ensures o == Again ==> world.checkpoint.base.value.head.Some?
      ensures o != AllDone && world.dirty == old(world).dirty
      ensures Still(turns) && Unmerged(old(world)) ==> Unmerged(world)
      ensures Calm(turns) && old(world).base.None? ==> o == Again && world.base.Some?
      ensures world.checkpoint.base.value.oldMain == old(world).checkpoint.base.value.oldMain
      ensures Still(turns) ==> world.main == old(world).main && world.impl == old(world).impl
      ensures world.checkpoint.head == old(world).checkpoint.head
      ensures SameCounts(old(world), world)
    {
      hide HeadInv, Onward;
      Standing(world, Still(turns));
      ghost var still := Still(turns) && old(world).base.None? && old(world).prs == [];
      var b := world.checkpoint.base.value.(head := Some(c.id));
      MarkBaseKeeps(world, b);
      world := MarkBase(world, b);
      ghost var here := world;
      if turns(13).dies { return Crashed; }
      Others(turns(13));
      Chain(old(world), here, world, still);
      here := world;
      var pushed := PushBase(world, c);
      if pushed.None? { return Stopped; }
      PushBaseKeeps(world, c);
      world := pushed.value;
      Chain(old(world), here, world, still);
      o := if turns(14).dies then Crashed else Again;
    }

    /** There is one pull request for the branch, and the checkpoint names it. */
    method EnsurePr(turns: nat -> Turn) returns (o: Outcome)
      requires Inv(world) && Underway(world) && world.checkpoint.base.value.head.Some?
      modifies this
      ensures Keeps(old(world), world, Still(turns)) && Underway(world) && world.dirty == old(world).dirty
      ensures o == Again ==> world.checkpoint.base.value.pr.Some? && world.checkpoint.base.value.head.Some?
      ensures o != AllDone
      ensures Calm(turns) && old(world).base.Some? ==> o == Again
      ensures world.checkpoint.base.value.oldMain == old(world).checkpoint.base.value.oldMain
      ensures Still(turns) ==> world.main == old(world).main && world.impl == old(world).impl
      ensures world.checkpoint.head == old(world).checkpoint.head
      ensures Still(turns) && Unmerged(old(world)) ==> Unmerged(world)
      ensures SameCounts(old(world), world)
    {
      hide HeadInv, Onward;
      Standing(world, Still(turns));
      Others(turns(15));
      if |world.prs| > 1 { return Stopped; }
      ghost var here := world;
      if world.prs == [] {
        o := Open(turns);
        Chain(old(world), here, world, Still(turns));
        if o != Again { return; }
        here := world;
      }
      var b := world.checkpoint.base.value.(pr := Some(0));
      MarkBaseKeeps(world, b);
      world := MarkBase(world, b);
      Chain(old(world), here, world, Still(turns));
      o := if turns(17).dies then Crashed else Again;
    }

    method Open(turns: nat -> Turn) returns (o: Outcome)
      requires Inv(world) && world.prs == []
      modifies this
      ensures Keeps(old(world), world, Still(turns)) && world.dirty == old(world).dirty
      ensures world.checkpoint == old(world).checkpoint
      ensures o == Again ==> |world.prs| == 1
      ensures o != AllDone
      ensures Calm(turns) && old(world).base.Some? ==> o == Again
      ensures Still(turns) ==> world.main == old(world).main && world.impl == old(world).impl
      ensures Still(turns) ==> Unmerged(world)
      ensures SameCounts(old(world), world)
    {
      hide HeadInv, Onward;
      Standing(world, Still(turns));
      Others(turns(15));
      var made := OpenPr(world);
      if made.None? { return Stopped; }
      ghost var here := world;
      OpenPrKeeps(world);
      world := made.value;
      Chain(old(world), here, world, Still(turns));
      if turns(16).dies { return Crashed; }
      here := world;
      Others(turns(16));
      Chain(old(world), here, world, Still(turns));
      o := Again;
    }

    /** Merges the recorded pull request at the recorded head, and no other. */
    method Merge(turns: nat -> Turn) returns (o: Outcome)
      requires Inv(world) && Underway(world)
               && world.checkpoint.base.value.head.Some? && world.checkpoint.base.value.pr.Some?
      modifies this
      ensures Keeps(old(world), world, Still(turns)) && world.dirty == old(world).dirty
      ensures o == AllDone ==> Recorded(world)
      ensures Calm(turns) && Foreseen(old(world)) ==> o == AllDone
      ensures world.checkpoint.base.Some?
              && world.checkpoint.base.value.oldMain == old(world).checkpoint.base.value.oldMain
      ensures Still(turns) ==> world.impl == old(world).impl
      ensures Calm(turns) && Foreseen(old(world)) && Unmerged(old(world)) ==>
                world.base.None? && world.checkpoint.base.value.newMain == Some(world.main)
      ensures world.checkpoint.head == old(world).checkpoint.head
      ensures world.mine == old(world).mine && (!turns(18).go ==> world.merges == old(world).merges)
      ensures var pr, head := old(world).prs[0], old(world).checkpoint.base.value.head.value;
        && (pr.head != head ==> o == Stopped && Passive(old(world), world))
        && (o == Again <==> pr.head == head && (pr.state.PrClosed? || (pr.state.PrOpen? && !turns(18).go)))
        && (o == Again ==> Passive(old(world), world))
    {
      hide HeadInv, Onward;
      Standing(world, Still(turns));
      var head := world.checkpoint.base.value.head.value;
      var view := world.prs[0];
      Others(turns(18));
      if view.head != head { return Stopped; }
      ghost var here := world;
      if !view.state.PrMerged? {
        if !view.state.PrOpen? || !turns(18).go { return Again; }
        Others(turns(19));
        Chain(old(world), here, world, Still(turns));
        here := world;
        var merged := MergePr(world, head);
        if merged.None? { return Stopped; }
        MergePrKeeps(world, head);
        world := merged.value;
        Chain(old(world), here, world, Still(turns));
        if turns(19).dies { return Crashed; }
        here := world;
        Others(turns(20));
        Chain(old(world), here, world, Still(turns));
        here := world;
        view := world.prs[0];
      }
      RecordMerge(view);
      Chain(old(world), here, world, Still(turns));
      o := AllDone;
    }

    /** Passes, and what came of each, until both disturbances are recorded or the deadline comes. From
        wherever crashes alone have led, two calm passes finish if and only if the clone was left clean; from
        a dirty clone no passes do. */
    method Drive(passes: seq<nat -> Turn>) returns (o: Outcome, outcomes: seq<Outcome>)
      requires Inv(world)
      modifies this
      ensures Keeps(old(world), world, StillAll(passes))
      ensures o == AllDone ==> Recorded(world)
      ensures |passes| >= 2 && Calm(passes[0]) && Calm(passes[1]) && Foreseen(old(world)) ==>
                (o == AllDone <==> !old(world).dirty)
      ensures old(world).dirty ==> o != AllDone && world.dirty
      ensures |outcomes| <= |passes| && forall i :: 0 <= i < |outcomes| - 1 ==> outcomes[i] == Again
      ensures if outcomes != [] && outcomes[|outcomes| - 1] != Again then o == outcomes[|outcomes| - 1]
              else o == Stopped && |outcomes| == |passes|
    {
      hide HeadInv, BaseInv, Onward, HeadRecorded, BaseRecorded, Foreseen, Recorded;
      ghost var still := StillAll(passes);
      Standing(world, still);
      outcomes := [];
      for i := 0 to |passes|
        invariant Keeps(old(world), world, still)
        invariant i <= 1 || !Calm(passes[0]) || !Calm(passes[1]) || !Foreseen(old(world)) || old(world).dirty
        invariant i == 1 && Calm(passes[0]) && Foreseen(old(world)) && !old(world).dirty ==>
                    Foreseen(world) && !world.dirty && HeadRecorded(world)
        invariant i == 0 ==> world == old(world)
        invariant old(world).dirty ==> world.dirty
        invariant |outcomes| == i && forall k :: 0 <= k < i ==> outcomes[k] == Again
      {
        ghost var here := world;
        o := DriverOnce(passes[i]);
        outcomes := outcomes + [o];
        assert Keeps(here, world, still);
        Chain(old(world), here, world, still);
        if o == AllDone || o == Stopped || o == Crashed { return; }
      }
      o := Stopped;
    }

    /** Any number of starts, each after the last one crashed, gave up or finished. */
    method Campaign(starts: seq<seq<nat -> Turn>>) returns (done: bool)
      requires Inv(world)
      modifies this
      ensures |world.mine| <= 1 && |world.prs| <= 1 && world.merges <= 1
      ensures done ==> Recorded(world)
      ensures Keeps(old(world), world, forall k :: 0 <= k < |starts| ==> StillAll(starts[k]))
    {
      hide Inv, Onward;
      ghost var still := forall k :: 0 <= k < |starts| ==> StillAll(starts[k]);
      Standing(world, still);
      done := false;
      for k := 0 to |starts|
        invariant Keeps(old(world), world, still)
        invariant done ==> Recorded(world)
      {
        ghost var here := world;
        var o, _ := Drive(starts[k]);
        Weaken(here, world, StillAll(starts[k]), still);
        Chain(old(world), here, world, still);
        if done { RecordedForGood(here, world, still); }
        done := done || o == AllDone;
      }
      AtMostOnce(world);
    }
  }

  lemma AtMostOnce(w: World)
    requires Inv(w)
    ensures |w.mine| <= 1 && |w.prs| <= 1 && w.merges <= 1
  {
  }

  /** The one crash that strands a scenario: from the very start, dying between staging the canary and
      committing it, and however the driver is started again after that. */
  method Stranded(start: World, turns: nat -> Turn, passes: seq<nat -> Turn>) returns (first: Outcome, later: Outcome)
    requires Inv(start) && Stages(start) && !start.dirty && DiesAt(turns, 4)
    ensures first == Crashed && later != AllDone
  {
    var d := new ScenarioDriver(start);
    first := d.DriverOnce(turns);
    var outcomes;
    later, outcomes := d.Drive(passes);
  }

  /** Where a scenario begins: a work branch, and nothing disturbed yet. */
  lemma Untouched(impl: seq<Commit>, main: nat, nextId: nat)
    requires Linear(impl, nextId)
    ensures
      var w := World(Checkpoint(None, None), impl, None, main, [], false, nextId, set c | c in impl, [], 0);
      Inv(w) && Foreseen(w) && Stages(w)
  {
  }

  /** What is recorded stays recorded, whatever the driver and others do afterwards. */
  lemma RecordedForGood(w: World, v: World, still: bool)
    requires Inv(w) && Recorded(w) && Keeps(w, v, still)
    ensures Recorded(v) && v.checkpoint == w.checkpoint && v.mine == w.mine && v.prs == w.prs && v.merges == 1
  {
  }
}
