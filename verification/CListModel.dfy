/** Snapshots of the concurrent list: what its memory holds between two steps that
    another goroutine can see. Elements are named by their order of insertion. */
module CListModel {

  datatype Option<+T> = None | Some(value: T)

  /** A wait group made to be waited on once, and the channel that goes with it. */
  datatype WaitGroup = WaitGroup(pending: bool)
  datatype Channel = Channel(closed: bool)

  /** A link and what there is to wait on for it. `oldWgs` and `oldChs` are those it had
      before: waiters may still hold them. */
  datatype Side = Side(
    link: Option<nat>, wg: WaitGroup, ch: Channel, oldWgs: seq<WaitGroup>, oldChs: seq<Channel>)

  datatype Cell = Cell(prev: Side, next: Side, removed: bool)

  /** All elements ever pushed, the live ones in list order, and the list's own fields. */
  datatype Snap = Snap(cells: seq<Cell>, live: seq<nat>, head: Option<nat>, tail: Option<nat>, len: int, gate: Side)

  const NEW_SIDE := Side(None, WaitGroup(true), Channel(false), [], [])
  const NEW_CELL := Cell(NEW_SIDE, NEW_SIDE, false)

  // ---------------------------------------------------------------- one link

  /** Releasing twice would panic. */
  predicate CanRelease(s: Side) {
    s.wg.pending && !s.ch.closed
  }

  function Release(s: Side): Side {
    s.(wg := WaitGroup(false), ch := Channel(true))
  }

  function Renew(s: Side): Side {
    s.(wg := WaitGroup(true), ch := Channel(false), oldWgs := s.oldWgs + [s.wg], oldChs := s.oldChs + [s.ch])
  }

  /** A link set: waiters released when it gets a target, a new wait group and
      channel when it loses it. (Where releasing panics, the link is set already.) */
  function SetLink(s: Side, to: Option<nat>): Side {
    if s.link.Some? && to.None? then Renew(s).(link := to)
    else if s.link.None? && to.Some? && CanRelease(s) then Release(s).(link := to)
    else s.(link := to)
  }

  /** Whoever should be awake is: the channel is closed and the wait group done exactly
      when `ready`, and all that were replaced had been released. */
  ghost predicate Settled(s: Side, ready: bool) {
    && (s.ch.closed <==> ready)
    && (s.wg.pending <==> !ready)
    && (forall g | g in s.oldWgs :: !g.pending)
    && (forall c | c in s.oldChs :: c.closed)
  }

  ghost predicate CellSettled(c: Cell) {
    Settled(c.next, c.next.link.Some? || c.removed) && Settled(c.prev, c.prev.link.Some? || c.removed)
  }

  lemma SetLinkSettles(s: Side, to: Option<nat>)
    requires Settled(s, s.link.Some?)
    ensures Settled(SetLink(s, to), to.Some?)
    ensures s.link.None? && to.Some? ==> CanRelease(s)
  {
  }

  function SetNext(s: Snap, e: nat, to: Option<nat>): Snap
    requires e < |s.cells|
  {
    s.(cells := s.cells[e := s.cells[e].(next := SetLink(s.cells[e].next, to))])
  }

  function SetPrev(s: Snap, e: nat, to: Option<nat>): Snap
    requires e < |s.cells|
  {
    s.(cells := s.cells[e := s.cells[e].(prev := SetLink(s.cells[e].prev, to))])
  }

  /** Wakes up anyone waiting in either direction. */
  function SetRemoved(s: Snap, e: nat): Snap
    requires e < |s.cells|
  {
    var c := s.cells[e];
    s.(cells := s.cells[e := Cell(if c.prev.link.None? then Release(c.prev) else c.prev,
                                  if c.next.link.None? then Release(c.next) else c.next, true)])
  }

  // ---------------------------------------------------------------- invariants

  ghost predicate Ordered(live: seq<nat>, n: nat) {
    (forall i | 0 <= i < |live| :: live[i] < n) && (forall i, j | 0 <= i < j < |live| :: live[i] < live[j])
  }

  /** No live element lies between two. */
  ghost predicate NoneBetween(live: seq<nat>, x: nat, y: nat) {
    forall k | 0 <= k < |live| :: !(x < live[k] < y)
  }

  /** A pointer, of an element live or removed, leads to a later (earlier) element
      with no live element between the two. */
  ghost predicate Hop(s: Snap, i: nat)
    requires i < |s.cells|
  {
    var c := s.cells[i];
    && (c.next.link.Some? ==> i < c.next.link.value < |s.cells| && NoneBetween(s.live, i, c.next.link.value))
    && (c.prev.link.Some? ==> c.prev.link.value < i && NoneBetween(s.live, c.prev.link.value, i))
  }

  ghost predicate AllHop(s: Snap) {
    forall i | 0 <= i < |s.cells| :: Hop(s, i)
  }

  ghost predicate AllSettled(s: Snap) {
    forall i | 0 <= i < |s.cells| :: CellSettled(s.cells[i])
  }

  /** What goroutines that walk the elements rely on; it holds after every step. */
  ghost predicate WalkersSafe(s: Snap) {
    Ordered(s.live, |s.cells|) && AllHop(s) && AllSettled(s)
  }

  function At(live: seq<nat>, k: int): Option<nat> {
    if 0 <= k < |live| then Some(live[k]) else None
  }

  /** The live elements are linked both ways. */
  ghost predicate Chained(s: Snap) {
    Ordered(s.live, |s.cells|) && forall k | 0 <= k < |s.live| :: ChainedAt(s, k)
  }

  ghost predicate ChainedAt(s: Snap, k: nat)
    requires Ordered(s.live, |s.cells|) && k < |s.live|
  {
    var c := s.cells[s.live[k]];
    c.next.link == At(s.live, k + 1) && c.prev.link == At(s.live, k - 1)
  }

  /** Head, tail and length are those of the live elements, and the list's own waiters
      are released exactly when there are any. */
  ghost predicate Framed(s: Snap) {
    && s.head == At(s.live, 0) && s.tail == At(s.live, |s.live| - 1) && s.len == |s.live|
    && s.gate.link.None? && Settled(s.gate, s.live != [])
  }

  ghost predicate Parted(s: Snap) {
    forall i | 0 <= i < |s.cells| :: s.cells[i].removed <==> i !in s.live
  }

  ghost predicate Inv(s: Snap) {
    WalkersSafe(s) && Chained(s) && Framed(s) && Parted(s)
  }

  // ---------------------------------------------------------------- pushing

  /** The list counts one more, and its own waiters are released if it was empty. */
  function Counted(s: Snap): Snap {
    s.(live := s.live + [|s.cells|], len := s.len + 1, gate := if s.len == 0 then Release(s.gate) else s.gate)
  }

  /** The new element, already pointing back, becomes reachable from the old tail. */
  function Attach(s: Snap): Snap
    requires s.tail.Some? ==> s.tail.value < |s.cells|
  {
    var n := |s.cells|;
    var s1 := s.(cells := s.cells + [NEW_CELL.(prev := SetLink(NEW_SIDE, s.tail))],
                 head := if s.tail.None? then Some(n) else s.head, tail := Some(n));
    if s.tail.None? then s1 else SetNext(s1, s.tail.value, Some(n))
  }

  function Push(s: Snap): Snap
    requires s.tail.Some? ==> s.tail.value < |s.cells|
  {
    Attach(Counted(s))
  }

  lemma TailIsLast(s: Snap)
    requires Chained(s) && Framed(s)
    ensures s.tail.Some? <==> s.live != []
    ensures s.tail.Some? ==> s.tail.value == s.live[|s.live| - 1] && s.tail.value < |s.cells|
    ensures s.tail.Some? ==> s.cells[s.tail.value].next.link.None?
  {
    if s.live != [] {
      assert ChainedAt(s, |s.live| - 1);
    }
  }

  /** A push changes the next link of the old tail and adds a cell. */
  lemma PushCells(s: Snap)
    requires s.tail.Some? ==> s.tail.value < |s.cells|
    ensures var t, n := Push(s), |s.cells|;
            && |t.cells| == n + 1 && t.live == s.live + [n]
            && t.cells[n] == NEW_CELL.(prev := SetLink(NEW_SIDE, s.tail))
            && (forall i | 0 <= i < n :: Some(i) != s.tail ==> t.cells[i] == s.cells[i])
            && (s.tail.Some? ==> t.cells[s.tail.value] == s.cells[s.tail.value].(next := SetLink(s.cells[s.tail.value].next, Some(n))))
  {
  }

  lemma PushKeeps(s: Snap)
    requires Inv(s)
    ensures s.tail.Some? ==> s.tail.value < |s.cells|
    ensures Inv(Push(s)) && Push(s).live == s.live + [|s.cells|]
    ensures s.len == 0 ==> CanRelease(s.gate)
    ensures s.tail.Some? ==> CanRelease(s.cells[s.tail.value].next)
  {
    hide Push, AllHop, AllSettled, Chained, Framed, Parted, Ordered, CanRelease;
    TailIsLast(s);
    PushCells(s);
    PushHops(s);
    PushSettles(s);
    PushChains(s);
    PushFrames(s);
    PushParts(s);
    ReadyToRelease(s);
  }

  lemma PushParts(s: Snap)
    requires Parted(s) && Ordered(s.live, |s.cells|) && (s.tail.Some? ==> s.tail.value < |s.cells|)
    ensures Parted(Push(s))
  {
    PushCells(s);
    hide Push, SetLink;
    assert forall i | 0 <= i < |s.cells| :: i in Push(s).live <==> i in s.live;
  }

  /** A push releases nothing twice. */
  lemma ReadyToRelease(s: Snap)
    requires AllSettled(s) && Chained(s) && Framed(s) && Parted(s)
    ensures s.len == 0 ==> CanRelease(s.gate)
    ensures s.tail.Some? ==> s.tail.value < |s.cells| && CanRelease(s.cells[s.tail.value].next)
  {
    TailIsLast(s);
    if s.tail.Some? {
      assert CellSettled(s.cells[s.tail.value]) && s.tail.value in s.live;
    }
  }

  lemma PushHops(s: Snap)
    requires AllHop(s) && Chained(s) && Framed(s)
    ensures s.tail.Some? ==> s.tail.value < |s.cells|
    ensures AllHop(Push(s))
  {
    TailIsLast(s);
    PushCells(s);
    hide Push;
    var t, n := Push(s), |s.cells|;
    forall i | 0 <= i < |t.cells|
      ensures Hop(t, i)
    {
      if i < n {
        assert Hop(s, i);
        MoreBetween(s, t, i);
      }
      if s.tail == Some(i) || (i == n && s.tail.Some?) {
        NoneAfterLast(s.live, n);
      }
    }
  }

  lemma NoneAfterLast(live: seq<nat>, n: nat)
    requires Ordered(live, n) && live != []
    ensures NoneBetween(live + [n], live[|live| - 1], n)
  {
  }

  lemma MoreBetween(s: Snap, t: Snap, i: nat)
    requires i < |s.cells| && t.live == s.live + [|s.cells|] && Hop(s, i)
    ensures var c := s.cells[i];
            && (c.next.link.Some? ==> NoneBetween(t.live, i, c.next.link.value))
            && (c.prev.link.Some? ==> NoneBetween(t.live, c.prev.link.value, i))
  {
  }

  lemma PushSettles(s: Snap)
    requires AllSettled(s) && Chained(s) && Framed(s) && Parted(s)
    ensures s.tail.Some? ==> s.tail.value < |s.cells|
    ensures AllSettled(Push(s))
  {
    TailIsLast(s);
    PushCells(s);
    hide Push;
    SetLinkSettles(NEW_SIDE, s.tail);
    if s.tail.Some? {
      assert CellSettled(s.cells[s.tail.value]) && s.tail.value in s.live;
      SetLinkSettles(s.cells[s.tail.value].next, Some(|s.cells|));
    }
  }

  lemma PushChains(s: Snap)
    requires Chained(s) && Framed(s)
    ensures s.tail.Some? ==> s.tail.value < |s.cells|
    ensures Chained(Push(s)) && Ordered(Push(s).live, |Push(s).cells|)
  {
    TailIsLast(s);
    PushCells(s);
    hide Push;
    var t, n := Push(s), |s.cells|;
    forall k | 0 <= k < |t.live|
      ensures ChainedAt(t, k)
    {
      if k < |s.live| {
        assert ChainedAt(s, k) && t.live[k] == s.live[k];
      }
    }
  }

  lemma PushFrames(s: Snap)
    requires Framed(s) && (s.tail.Some? ==> s.tail.value < |s.cells|)
    ensures Framed(Push(s))
  {
  }

  // ---------------------------------------------------------------- removing

  function Without(live: seq<nat>, k: nat): seq<nat>
    requires k < |live|
  {
    live[..k] + live[k + 1..]
  }

  /** The element before the removed one is linked past it; from here on the element
      is no longer in the list. */
  function Unlink(s: Snap, k: nat): Snap
    requires k < |s.live|
    requires k > 0 ==> s.live[k - 1] < |s.cells|
  {
    var s1 := s.(live := Without(s.live, k), len := s.len - 1,
                 head := if k == 0 then At(s.live, 1) else s.head,
                 gate := if s.len == 1 then Renew(s.gate) else s.gate);
    if k == 0 then s1 else SetNext(s1, s.live[k - 1], At(s.live, k + 1))
  }

  /** The one after it is linked back past it. */
  function Relink(s: Snap, prev: Option<nat>, next: Option<nat>): Snap
    requires next.Some? ==> next.value < |s.cells|
  {
    if next.None? then s.(tail := prev) else SetPrev(s, next.value, prev)
  }

  /** Remove of the element at position `k`. */
  function Removal(s: Snap, k: nat): Snap
    requires k < |s.live| && Ordered(s.live, |s.cells|)
  {
    SetRemoved(Relink(Unlink(s, k), At(s.live, k - 1), At(s.live, k + 1)), s.live[k])
  }

  lemma UnlinkCells(s: Snap, k: nat)
    requires k < |s.live| && (k > 0 ==> s.live[k - 1] < |s.cells|)
    ensures var t := Unlink(s, k);
            && |t.cells| == |s.cells| && t.live == Without(s.live, k)
            && (forall i | 0 <= i < |s.cells| :: Some(i) != At(s.live, k - 1) ==> t.cells[i] == s.cells[i])
            && (k > 0 ==>
                  t.cells[s.live[k - 1]] ==
                  s.cells[s.live[k - 1]].(next := SetLink(s.cells[s.live[k - 1]].next, At(s.live, k + 1))))
  {
  }

  lemma UnlinkHops(s: Snap, k: nat)
    requires AllHop(s) && Ordered(s.live, |s.cells|) && k < |s.live|
    ensures AllHop(Unlink(s, k)) && Ordered(Without(s.live, k), |s.cells|)
  {
    UnlinkCells(s, k);
    hide Unlink;
    var t := Unlink(s, k);
    forall i | 0 <= i < |t.cells|
      ensures Hop(t, i)
    {
      assert Hop(s, i);
      if Some(i) == At(s.live, k - 1) && k + 1 < |s.live| {
        SkipsOnly(s.live, k, |s.cells|);
      }
      FewerBetween(s, t, i, k);
    }
  }

  lemma UnlinkSettles(s: Snap, k: nat)
    requires AllSettled(s) && Chained(s) && Parted(s) && k < |s.live|
    ensures AllSettled(Unlink(s, k))
  {
    UnlinkCells(s, k);
    hide Unlink;
    if k > 0 {
      assert CellSettled(s.cells[s.live[k - 1]]) && s.live[k - 1] in s.live;
      SetLinkSettles(s.cells[s.live[k - 1]].next, At(s.live, k + 1));
    }
  }

  /** What is between the unlinking and the end of a removal. */
  function Relinked(s: Snap, k: nat): Snap
    requires k < |s.live| && Ordered(s.live, |s.cells|)
  {
    Relink(Unlink(s, k), At(s.live, k - 1), At(s.live, k + 1))
  }

  lemma RelinkCells(s: Snap, k: nat)
    requires k < |s.live| && Ordered(s.live, |s.cells|)
    ensures var u, t := Unlink(s, k), Relinked(s, k);
            && |t.cells| == |s.cells| == |u.cells| && t.live == Without(s.live, k)
            && (forall i | 0 <= i < |s.cells| :: Some(i) != At(s.live, k + 1) ==> t.cells[i] == u.cells[i])
            && (k + 1 < |s.live| ==>
                  && u.cells[s.live[k + 1]] == s.cells[s.live[k + 1]]
                  && t.cells[s.live[k + 1]] ==
                     s.cells[s.live[k + 1]].(prev := SetLink(s.cells[s.live[k + 1]].prev, At(s.live, k - 1))))
  {
  }

  lemma RelinkHops(s: Snap, k: nat)
    requires AllHop(s) && Ordered(s.live, |s.cells|) && k < |s.live|
    ensures AllHop(Relinked(s, k))
  {
    UnlinkHops(s, k);
    UnlinkCells(s, k);
    RelinkCells(s, k);
    hide Unlink, Relinked;
    var u, t := Unlink(s, k), Relinked(s, k);
    forall i | 0 <= i < |t.cells|
      ensures Hop(t, i)
    {
      assert Hop(u, i);
      if Some(i) == At(s.live, k + 1) && k > 0 {
        SkipsOnly(s.live, k, |s.cells|);
      }
    }
  }

  lemma RelinkSettles(s: Snap, k: nat)
    requires AllSettled(s) && Chained(s) && Parted(s) && k < |s.live|
    ensures AllSettled(Relinked(s, k))
  {
    UnlinkSettles(s, k);
    UnlinkCells(s, k);
    RelinkCells(s, k);
    hide Unlink, Relinked;
    var u, t := Unlink(s, k), Relinked(s, k);
    if k + 1 < |s.live| {
      assert CellSettled(s.cells[s.live[k + 1]]) && s.live[k + 1] in s.live;
      SetLinkSettles(s.cells[s.live[k + 1]].prev, At(s.live, k - 1));
    }
    forall i | 0 <= i < |t.cells|
      ensures CellSettled(t.cells[i])
    {
      assert CellSettled(u.cells[i]);
    }
  }

  lemma RemovalCells(s: Snap, k: nat)
    requires Ordered(s.live, |s.cells|) && k < |s.live|
    ensures var u, t, e := Relinked(s, k), Removal(s, k), s.live[k];
            && |t.cells| == |u.cells| == |s.cells| && t.live == u.live == Without(s.live, k)
            && u.cells[e] == s.cells[e]
            && t.cells[e].next.link == s.cells[e].next.link && t.cells[e].prev.link == s.cells[e].prev.link
            && t.cells[e] == SetRemoved(u, e).cells[e]
            && (forall i | 0 <= i < |s.cells| && i != e :: t.cells[i] == u.cells[i])
  {
    UnlinkCells(s, k);
    RelinkCells(s, k);
    hide Unlink;
  }

  /** The removed element's waiters are released, none twice. */
  lemma RemovedSettles(s: Snap, k: nat)
    requires AllSettled(s) && Ordered(s.live, |s.cells|) && Parted(s) && k < |s.live|
    ensures var e := s.live[k];
            && CellSettled(Removal(s, k).cells[e]) && Removal(s, k).cells[e].removed
            && (s.cells[e].prev.link.None? ==> CanRelease(s.cells[e].prev))
            && (s.cells[e].next.link.None? ==> CanRelease(s.cells[e].next))
  {
    RemovalCells(s, k);
    hide Relinked, Removal;
    assert CellSettled(s.cells[s.live[k]]) && s.live[k] in s.live;
  }

  /** Walkers are safe after every step of a removal: once the element before is linked
      past the removed one, once the element after is, and at the end. */
  lemma RemovalKeepsWalkersSafe(s: Snap, k: nat)
    requires Inv(s) && k < |s.live|
    ensures WalkersSafe(Unlink(s, k)) && WalkersSafe(Relinked(s, k)) && WalkersSafe(Removal(s, k))
  {
    hide Unlink, Relinked, Removal, AllHop, AllSettled, Chained, Framed, Parted, Without;
    UnlinkHops(s, k);
    UnlinkSettles(s, k);
    RelinkHops(s, k);
    RelinkSettles(s, k);
    UnlinkCells(s, k);
    RelinkCells(s, k);
    RemovalCells(s, k);
    RemovalHops(s, k);
    RemovalSettles(s, k);
  }

  lemma RemovalHops(s: Snap, k: nat)
    requires Ordered(s.live, |s.cells|) && k < |s.live| && AllHop(Relinked(s, k))
    ensures AllHop(Removal(s, k))
  {
    RemovalCells(s, k);
    hide Relinked, Removal;
    var u, t := Relinked(s, k), Removal(s, k);
    forall i | 0 <= i < |t.cells|
      ensures Hop(t, i)
    {
      assert Hop(u, i);
    }
  }

  lemma RemovalSettles(s: Snap, k: nat)
    requires Ordered(s.live, |s.cells|) && k < |s.live| && Parted(s) && AllSettled(s) && AllSettled(Relinked(s, k))
    ensures AllSettled(Removal(s, k))
  {
    RemovalCells(s, k);
    RemovedSettles(s, k);
    hide Relinked, Removal;
    var u, t := Relinked(s, k), Removal(s, k);
    forall i | 0 <= i < |t.cells|
      ensures CellSettled(t.cells[i])
    {
      assert CellSettled(u.cells[i]);
    }
  }

  /** The links of a live element after a removal. */
  lemma RemovalLinks(s: Snap, k: nat, j: nat)
    requires Chained(s) && k < |s.live| && j < |s.live| && j != k
    ensures var t, c := Removal(s, k), s.live[j];
            && |t.cells| == |s.cells|
            && t.cells[c].next.link == (if j + 1 == k then At(s.live, k + 1) else At(s.live, j + 1))
            && t.cells[c].prev.link == (if j == k + 1 then At(s.live, k - 1) else At(s.live, j - 1))
  {
    UnlinkCells(s, k);
    RelinkCells(s, k);
    RemovalCells(s, k);
    hide Unlink, Relinked, Removal;
    assert ChainedAt(s, j);
  }

  lemma WithoutAt(live: seq<nat>, k: nat, j: int)
    requires k < |live| && -1 <= j <= |live|
    ensures |Without(live, k)| == |live| - 1
    ensures At(Without(live, k), j) == if j < k then At(live, j) else At(live, j + 1)
    ensures 0 <= j < |live| - 1 ==> Without(live, k)[j] == live[if j < k then j else j + 1]
  {
  }

  lemma RemovalChains(s: Snap, k: nat)
    requires Chained(s) && k < |s.live|
    ensures Chained(Removal(s, k))
  {
    RemovalCells(s, k);
    WithoutOrdered(s.live, k, |s.cells|);
    hide Relinked, Removal, At, Without;
    var t := Removal(s, k);
    forall j | 0 <= j < |t.live|
      ensures ChainedAt(t, j)
    {
      WithoutAt(s.live, k, j - 1);
      WithoutAt(s.live, k, j);
      WithoutAt(s.live, k, j + 1);
      RemovalLinks(s, k, if j < k then j else j + 1);
    }
  }

  lemma WithoutOrdered(live: seq<nat>, k: nat, n: nat)
    requires Ordered(live, n) && k < |live|
    ensures Ordered(Without(live, k), n) && |Without(live, k)| == |live| - 1
  {
  }

  lemma RemovalFrames(s: Snap, k: nat)
    requires Framed(s) && Ordered(s.live, |s.cells|) && k < |s.live|
    ensures Framed(Removal(s, k))
  {
  }

  lemma RemovalParts(s: Snap, k: nat)
    requires Parted(s) && Ordered(s.live, |s.cells|) && k < |s.live|
    ensures Parted(Removal(s, k))
  {
    UnlinkCells(s, k);
    RelinkCells(s, k);
    RemovalCells(s, k);
    hide Unlink, Relinked, Removal;
    var t := Removal(s, k);
    forall i | 0 <= i < |t.cells|
      ensures t.cells[i].removed <==> i !in t.live
    {
      InWithout(s.live, k, i, |s.cells|);
    }
  }

  lemma InWithout(live: seq<nat>, k: nat, i: nat, n: nat)
    requires Ordered(live, n) && k < |live|
    ensures i in Without(live, k) <==> i in live && i != live[k]
  {
    if i in live && i != live[k] {
      var j :| 0 <= j < |live| && live[j] == i;
      assert Without(live, k)[if j < k then j else j - 1] == i;
    }
    if i in Without(live, k) {
      var j :| 0 <= j < |live| - 1 && Without(live, k)[j] == i;
      assert live[if j < k then j else j + 1] == i;
    }
  }

  /** Remove deletes just the element, and keeps everything in order. */
  lemma RemovalKeeps(s: Snap, k: nat)
    requires Inv(s) && k < |s.live|
    ensures Inv(Removal(s, k)) && Removal(s, k).live == Without(s.live, k)
  {
    hide Unlink, Relinked, Removal, AllHop, AllSettled, Ordered, Chained, Framed, Parted, Without;
    RemovalKeepsWalkersSafe(s, k);
    RemovalCells(s, k);
    RemovalChains(s, k);
    RemovalFrames(s, k);
    RemovalParts(s, k);
  }

  lemma SkipsOnly(live: seq<nat>, k: nat, n: nat)
    requires Ordered(live, n) && 0 < k < |live| - 1
    ensures NoneBetween(Without(live, k), live[k - 1], live[k + 1])
  {
  }

  lemma FewerBetween(s: Snap, t: Snap, i: nat, k: nat)
    requires k < |s.live| && t.live == Without(s.live, k) && i < |s.cells| == |t.cells| && Hop(s, i)
    ensures var c := s.cells[i];
            && (c.next.link.Some? ==> NoneBetween(t.live, i, c.next.link.value))
            && (c.prev.link.Some? ==> NoneBetween(t.live, c.prev.link.value, i))
  {
    forall j | 0 <= j < |t.live|
      ensures t.live[j] in s.live
    {
      assert t.live[j] == if j < k then s.live[j] else s.live[j + 1];
    }
    var c := s.cells[i];
    if c.next.link.Some? {
      Fewer(s.live, t.live, i, c.next.link.value);
    }
    if c.prev.link.Some? {
      Fewer(s.live, t.live, c.prev.link.value, i);
    }
  }

  lemma Fewer(live: seq<nat>, rest: seq<nat>, x: nat, y: nat)
    requires NoneBetween(live, x, y) && forall j | 0 <= j < |rest| :: rest[j] in live
    ensures NoneBetween(rest, x, y)
  {
  }

  /** How a live element is linked. */
  lemma LinksAt(s: Snap, k: nat)
    requires Inv(s) && k < |s.live|
    ensures Ordered(s.live, |s.cells|)
    ensures var c := s.cells[s.live[k]];
            c.next.link == At(s.live, k + 1) && c.prev.link == At(s.live, k - 1) && !c.removed
    ensures k > 0 ==> s.cells[s.live[k - 1]].next.link == Some(s.live[k])
    ensures k + 1 < |s.live| ==> s.cells[s.live[k + 1]].prev.link == Some(s.live[k])
    ensures s.head == Some(s.live[0]) && s.tail == Some(s.live[|s.live| - 1])
  {
    hide AllHop, AllSettled, Hop;
    assert ChainedAt(s, k) && s.live[k] in s.live;
    if k > 0 {
      assert ChainedAt(s, k - 1);
    }
    if k + 1 < |s.live| {
      assert ChainedAt(s, k + 1);
    }
  }

  // ---------------------------------------------------------------- removing by links

  predicate IsCell(s: Snap, e: Option<nat>) {
    e.Some? ==> e.value < |s.cells|
  }

  /** Setting the link would release its waiters a second time, which panics. */
  predicate Rereleases(s: Side, to: Option<nat>) {
    s.link.None? && to.Some? && !CanRelease(s)
  }

  ghost predicate Attached(s: Snap, e: nat) {
    e < |s.cells| && IsCell(s, s.cells[e].prev.link) && IsCell(s, s.cells[e].next.link)
  }

  /** What Remove does to the memory of a list that holds elements, going by the links of
      the element; the flag is false if it panics in the middle. */
  ghost function Cutout(s: Snap, e: nat): (Snap, bool)
    requires Attached(s, e)
  {
    var p, n := s.cells[e].prev.link, s.cells[e].next.link;
    var s1 := s.(len := s.len - 1, gate := if s.len == 1 then Renew(s.gate) else s.gate);
    var s2 := if p.None? then s1.(head := n) else SetNext(s1, p.value, n);
    if p.Some? && Rereleases(s1.cells[p.value].next, n) then (s2, false) else
    var s3 := if n.None? then s2.(tail := p) else SetPrev(s2, n.value, p);
    if n.Some? && Rereleases(s2.cells[n.value].prev, p) then (s3, false) else
    (SetRemoved(s3, e), true)
  }

  /** For an element of the list that is its removal. */
  lemma CutoutRemoves(s: Snap, k: nat)
    requires Inv(s) && k < |s.live|
    ensures Attached(s, s.live[k]) && Cutout(s, s.live[k]).0.live == s.live
    ensures Cutout(s, s.live[k]).1 && Cutout(s, s.live[k]).0.(live := Without(s.live, k)) == Removal(s, k)
  {
    hide AllHop, AllSettled, Chained, Framed, Parted, SetLink;
    LinksAt(s, k);
    if k > 0 {
      LinksAt(s, k - 1);
    }
    if k + 1 < |s.live| {
      LinksAt(s, k + 1);
    }
  }

  lemma {:induction false} SameOrdered(a: seq<nat>, b: seq<nat>, n: nat)
    requires Ordered(a, n) && Ordered(b, n) && forall i: nat | i < n :: i in a <==> i in b
    ensures a == b
    decreases |a| + |b|
  {
    assert a != [] ==> a[0] in a;
    assert b != [] ==> b[0] in b;
    if a != [] && b != [] {
      var x, y := a[|a| - 1], b[|b| - 1];
      LastIsMost(a, y, n);
      LastIsMost(b, x, n);
      var a1, b1 := a[..|a| - 1], b[..|b| - 1];
      forall i: nat | i < n
        ensures i in a1 <==> i in b1
      {
        InInit(a, i, n);
        InInit(b, i, n);
      }
      SameOrdered(a1, b1, n);
      assert a == a1 + [x] && b == b1 + [y];
    }
  }

  lemma LastIsMost(a: seq<nat>, i: nat, n: nat)
    requires Ordered(a, n) && a != []
    ensures a[|a| - 1] in a && a[|a| - 1] < n && (i in a ==> i <= a[|a| - 1])
  {
  }

  lemma InInit(a: seq<nat>, i: nat, n: nat)
    requires Ordered(a, n) && a != []
    ensures i in a[..|a| - 1] <==> i in a && i != a[|a| - 1]
  {
    if i in a && i != a[|a| - 1] {
      var k :| 0 <= k < |a| && a[k] == i;
      assert a[..|a| - 1][k] == i;
    }
  }

  lemma CutoutMarks(s: Snap, e: nat, i: nat)
    requires Attached(s, e) && s.cells[e].removed && i < |s.cells|
    ensures |Cutout(s, e).0.cells| == |s.cells| && Cutout(s, e).0.cells[i].removed == s.cells[i].removed
    ensures Cutout(s, e).0.len == s.len - 1 && Cutout(s, e).0.live == s.live
  {
    hide SetLink, Rereleases;
  }

  /** Removing an element a second time, still attached, leaves a list that is not in
      order, whichever elements one takes to be in it. */
  lemma RemovedTwiceBreaks(s: Snap, e: nat, live: seq<nat>)
    requires Inv(s) && Attached(s, e) && s.cells[e].removed
    ensures !Inv(Cutout(s, e).0.(live := live))
  {
    hide AllHop, AllSettled, Chained, Cutout, ChainedAt;
    var t := Cutout(s, e).0.(live := live);
    CutoutMarks(s, e, e);
    if Inv(t) {
      forall i: nat | i < |s.cells|
        ensures i in live <==> i in s.live
      {
        CutoutMarks(s, e, i);
      }
      SameOrdered(live, s.live, |s.cells|);
    }
  }

  /** Removing an element from between two others and then at once again changes nothing
      but the length, which is now one too small. */
  lemma RemovedTwiceMiscounts(s: Snap, k: nat)
    requires Inv(s) && 0 < k < |s.live| - 1
    ensures var t, e := Removal(s, k), s.live[k];
            Inv(t) && Attached(t, e) && t.cells[e].removed && Cutout(t, e) == (t.(len := |t.live| - 1), true)
  {
    assert Chained(s);
    hide Removal, Relinked, SetRemoved, Inv, Chained, AllSettled, Parted, Without;
    RemovalKeeps(s, k);
    LinksAt(s, k);
    var t, e, p, n := Removal(s, k), s.live[k], s.live[k - 1], s.live[k + 1];
    RemovalCells(s, k);
    RemovalLinks(s, k, k - 1);
    RemovalLinks(s, k, k + 1);
    MarkedAndCounted(s, k);
    CutoutIdle(t, e, p, n);
  }

  lemma MarkedAndCounted(s: Snap, k: nat)
    requires Inv(s) && 0 < k < |s.live| - 1
    ensures Removal(s, k).len == |Removal(s, k).live| >= 2
    ensures |Removal(s, k).cells| == |s.cells| && Removal(s, k).cells[s.live[k]].removed
  {
    hide Removal, AllHop, Chained;
    RemovedSettles(s, k);
    RemovalKeeps(s, k);
    RemovalCells(s, k);
    WithoutAt(s.live, k, 0);
  }

  /** Where the neighbours are linked past the element already. */
  lemma CutoutIdle(t: Snap, e: nat, p: nat, n: nat)
    requires e < |t.cells| && p < |t.cells| && n < |t.cells| && t.len >= 2 && t.cells[e].removed
    requires t.cells[e].prev.link == Some(p) && t.cells[e].next.link == Some(n)
    requires t.cells[p].next.link == Some(n) && t.cells[n].prev.link == Some(p)
    ensures Attached(t, e) && Cutout(t, e) == (t.(len := t.len - 1), true)
  {
    var s1 := t.(len := t.len - 1);
    assert SetNext(s1, p, Some(n)) == s1;
    assert SetPrev(s1, n, Some(p)) == s1;
    assert SetRemoved(s1, e) == s1;
  }

  /** Three elements pushed, the middle one removed twice: two are in the list, and its
      length is one. */
  lemma RemovedTwice()
    ensures var s := Removal(Push(Push(Push(INIT.s))), 1);
            Inv(s) && s.live == [0, 2] && Attached(s, 1) && Cutout(s, 1) == (s.(len := 1), true)
  {
    hide Inv, Push, Removal, Cutout;
    var s0 := INIT.s;
    InitKeeps();
    PushKeeps(s0);
    PushCells(s0);
    PushKeeps(Push(s0));
    PushCells(Push(s0));
    PushKeeps(Push(Push(s0)));
    var s3 := Push(Push(Push(s0)));
    assert s3.live == [0, 1, 2];
    RemovalKeeps(s3, 1);
    RemovedTwiceMiscounts(s3, 1);
  }

  // ---------------------------------------------------------------- detaching

  function DetachNext(s: Snap, e: nat): Snap
    requires e < |s.cells|
  {
    s.(cells := s.cells[e := s.cells[e].(next := s.cells[e].next.(link := None))])
  }

  function DetachPrev(s: Snap, e: nat): Snap
    requires e < |s.cells|
  {
    s.(cells := s.cells[e := s.cells[e].(prev := s.cells[e].prev.(link := None))])
  }

  lemma DetachKeeps(s: Snap, e: nat)
    requires Inv(s) && e < |s.cells| && s.cells[e].removed
    ensures Inv(DetachNext(s, e)) && Inv(DetachPrev(s, e))
  {
    CutKeeps(s, DetachNext(s, e), e);
    CutKeeps(s, DetachPrev(s, e), e);
  }

  lemma CutKeeps(s: Snap, t: Snap, e: nat)
    requires Inv(s) && e < |s.cells| && s.cells[e].removed
    requires |t.cells| == |s.cells| && t == s.(cells := s.cells[e := t.cells[e]])
    requires var c, d := s.cells[e], t.cells[e];
             && d.removed && (d.next == c.next || d.next == c.next.(link := None))
             && (d.prev == c.prev || d.prev == c.prev.(link := None))
    ensures Inv(t)
  {
    forall i | 0 <= i < |t.cells|
      ensures Hop(t, i) && CellSettled(t.cells[i])
    {
      assert Hop(s, i) && CellSettled(s.cells[i]);
    }
    forall k | 0 <= k < |t.live|
      ensures ChainedAt(t, k)
    {
      assert ChainedAt(s, k) && s.live[k] in s.live;
    }
  }

  // ---------------------------------------------------------------- runs

  /** What holds the lock of the list: nobody, or a removal that has linked the element
      before past the removed one, or the element after as well. */
  datatype Place = Idle | Unlinked(e: nat, prev: Option<nat>, next: Option<nat>) | Bypassed(e: nat)

  datatype Conc = Conc(s: Snap, at: Place)

  /** A removal is three steps. Detaching takes only the lock of its element. */
  datatype Move = PushBack | BeginRemove(e: nat) | LinkBack | EndRemove | CutNext(e: nat) | CutPrev(e: nat)

  const INIT := Conc(Snap([], [], None, None, 0, NEW_SIDE), Idle)

  function Position(live: seq<nat>, e: nat): (k: nat)
    requires e in live
    ensures k < |live| && live[k] == e
  {
    if live[0] == e then 0 else 1 + Position(live[1..], e)
  }

  /** Elements are removed while in the list, so once each, and detached after that. */
  predicate Allowed(c: Conc, move: Move) {
    match move
    case PushBack => c.at.Idle?
    case BeginRemove(e) => c.at.Idle? && e in c.s.live
    case LinkBack => c.at.Unlinked?
    case EndRemove => c.at.Bypassed?
    case CutNext(e) => e < |c.s.cells| && c.s.cells[e].removed
    case CutPrev(e) => e < |c.s.cells| && c.s.cells[e].removed
  }

  /** The memory after the move; None if it followed a pointer to nowhere. */
  function Apply(c: Conc, move: Move): Option<Conc>
    requires Allowed(c, move)
  {
    match move
    case PushBack => if IsCell(c.s, c.s.tail) then Some(Conc(Push(c.s), Idle)) else None
    case BeginRemove(e) =>
      var k := Position(c.s.live, e);
      if IsCell(c.s, At(c.s.live, k - 1)) then
        Some(Conc(Unlink(c.s, k), Unlinked(e, At(c.s.live, k - 1), At(c.s.live, k + 1))))
      else None
    case LinkBack =>
      if IsCell(c.s, c.at.next) then Some(Conc(Relink(c.s, c.at.prev, c.at.next), Bypassed(c.at.e))) else None
    case EndRemove => if c.at.e < |c.s.cells| then Some(Conc(SetRemoved(c.s, c.at.e), Idle)) else None
    case CutNext(e) => Some(c.(s := DetachNext(c.s, e)))
    case CutPrev(e) => Some(c.(s := DetachPrev(c.s, e)))
  }

  /** During a removal the memory is that of a list in order, part of the way on. */
  ghost predicate ConcInv(c: Conc) {
    match c.at
    case Idle => Inv(c.s)
    case Unlinked(e, prev, next) => exists o, k :: OnTheWay(c, o, k)
    case Bypassed(e) => exists o, k :: OnTheWay(c, o, k)
  }

  ghost predicate OnTheWay(c: Conc, o: Snap, k: nat) {
    && Inv(o) && k < |o.live| && !c.at.Idle? && c.at.e == o.live[k]
    && (c.at.Unlinked? ==> c.s == Unlink(o, k) && c.at.prev == At(o.live, k - 1) && c.at.next == At(o.live, k + 1))
    && (c.at.Bypassed? ==> c.s == Relinked(o, k))
  }

  /** Detaching a removed element commutes with the steps of a removal. */
  lemma DetachCommutes(o: Snap, k: nat, x: nat)
    requires Inv(o) && k < |o.live| && x < |o.cells| && o.cells[x].removed
    ensures Unlink(DetachNext(o, x), k) == DetachNext(Unlink(o, k), x)
    ensures Unlink(DetachPrev(o, x), k) == DetachPrev(Unlink(o, k), x)
    ensures Relinked(DetachNext(o, x), k) == DetachNext(Relinked(o, k), x)
    ensures Relinked(DetachPrev(o, x), k) == DetachPrev(Relinked(o, k), x)
  {
    hide AllHop, AllSettled, Chained, Framed;
    assert x !in o.live;
    assert k > 0 ==> o.live[k - 1] != x;
    assert k + 1 < |o.live| ==> o.live[k + 1] != x;
  }

  lemma RemovedBefore(o: Snap, k: nat, x: nat)
    requires Inv(o) && k < |o.live| && x < |o.cells|
    ensures |Unlink(o, k).cells| == |Relinked(o, k).cells| == |o.cells|
    ensures Unlink(o, k).cells[x].removed == o.cells[x].removed && Relinked(o, k).cells[x].removed == o.cells[x].removed
  {
    hide AllHop, AllSettled, Chained, Framed, Parted;
    UnlinkCells(o, k);
    RelinkCells(o, k);
    hide Unlink, Relinked;
  }

  lemma CutMoves(c: Conc, move: Move)
    requires ConcInv(c) && Allowed(c, move) && (move.CutNext? || move.CutPrev?)
    ensures ConcInv(Apply(c, move).value)
  {
    hide Inv, Unlink, Relinked;
    if c.at.Idle? {
      RemovedOnly(c.s, move.e);
      DetachKeeps(c.s, move.e);
    } else {
      var o, k :| OnTheWay(c, o, k);
      RemovedCells(o, k);
      RemovedBefore(o, k, move.e);
      DetachKeeps(o, move.e);
      DetachCommutes(o, k, move.e);
      var o1 := if move.CutNext? then DetachNext(o, move.e) else DetachPrev(o, move.e);
      assert OnTheWay(Apply(c, move).value, o1, k);
    }
  }

  lemma RemovedOnly(s: Snap, e: nat)
    requires e < |s.cells|
    ensures DetachNext(s, e).live == s.live == DetachPrev(s, e).live
  {
  }

  lemma RemovedCells(o: Snap, k: nat)
    requires Inv(o) && k < |o.live|
    ensures |Unlink(o, k).cells| == |Relinked(o, k).cells| == |o.cells|
  {
    hide AllHop, AllSettled, Chained, Framed, Parted;
    UnlinkCells(o, k);
    RelinkCells(o, k);
  }

  lemma RemoveMoves(c: Conc, move: Move)
    requires ConcInv(c) && Allowed(c, move) && (move.BeginRemove? || move.LinkBack? || move.EndRemove?)
    ensures Apply(c, move).Some? && ConcInv(Apply(c, move).value)
  {
    hide AllHop, AllSettled, Chained, Framed, Parted;
    match move {
      case BeginRemove(e) =>
        var k := Position(c.s.live, e);
        hide Unlink;
        assert OnTheWay(Apply(c, move).value, c.s, k);
      case LinkBack =>
        var o, k :| OnTheWay(c, o, k);
        RemovedCells(o, k);
        hide Unlink, Relink;
        assert OnTheWay(Apply(c, move).value, o, k);
      case EndRemove =>
        var o, k :| OnTheWay(c, o, k);
        RemovedCells(o, k);
        RemovalKeeps(o, k);
        hide Unlink, Relink, Inv;
    }
  }

  /** Every move keeps the invariant, and none follows a pointer to nowhere. */
  lemma MovesKeep(c: Conc, move: Move)
    requires ConcInv(c) && Allowed(c, move)
    ensures Apply(c, move).Some? && ConcInv(Apply(c, move).value)
  {
    hide Inv;
    match move {
      case PushBack => PushKeeps(c.s);
      case CutNext(_) => CutMoves(c, move);
      case CutPrev(_) => CutMoves(c, move);
      case _ => RemoveMoves(c, move);
    }
  }

  lemma ConcIsSafe(c: Conc)
    requires ConcInv(c)
    ensures WalkersSafe(c.s)
  {
    hide WalkersSafe, Chained, Framed, Parted;
    if !c.at.Idle? {
      var o, k :| OnTheWay(c, o, k);
      RemovalKeepsWalkersSafe(o, k);
    }
  }

  /** The states of a run, one before each move and one at the end. */
  ghost predicate IsRun(states: seq<Conc>, moves: seq<Move>) {
    && |states| == |moves| + 1 && states[0] == INIT
    && forall i | 0 <= i < |moves| :: Moves(states[i], moves[i], states[i + 1])
  }

  ghost predicate Moves(c: Conc, move: Move, c1: Conc) {
    Allowed(c, move) && (Apply(c, move).Some? ==> c1 == Apply(c, move).value)
  }

  /** In every state of every run walkers are safe, in the middle of a removal too; when
      nobody holds the lock the list is in order. */
  lemma {:induction false} RunsKeepOrder(states: seq<Conc>, moves: seq<Move>, i: nat)
    requires IsRun(states, moves) && i < |states|
    ensures ConcInv(states[i]) && WalkersSafe(states[i].s)
    ensures states[i].at.Idle? ==> Inv(states[i].s)
    ensures i < |moves| ==> Allowed(states[i], moves[i]) && Apply(states[i], moves[i]).Some?
  {
    hide Inv, WalkersSafe;
    if i == 0 {
      InitKeeps();
    } else {
      RunsKeepOrder(states, moves, i - 1);
      assert Moves(states[i - 1], moves[i - 1], states[i]);
      MovesKeep(states[i - 1], moves[i - 1]);
    }
    ConcIsSafe(states[i]);
    if i < |moves| {
      assert Moves(states[i], moves[i], states[i + 1]);
      MovesKeep(states[i], moves[i]);
    }
  }

  lemma InitKeeps()
    ensures Inv(INIT.s)
  {
  }

  // ---------------------------------------------------------------- what a run does to the list

  lemma MoveGrows(c: Conc, move: Move)
    requires Allowed(c, move) && Apply(c, move).Some?
    ensures var t := Apply(c, move).value.s;
            && |c.s.cells| <= |t.cells|
            && (forall x: nat | x < |c.s.cells| :: x in t.live ==> x in c.s.live)
  {
    hide SetLink, Release, Renew;
    if move.BeginRemove? {
      var k := Position(c.s.live, move.e);
      forall x: nat | x in Without(c.s.live, k)
        ensures x in c.s.live
      {
      }
    }
  }

  /** Elements are only added, and one that is not in the list does not come back. */
  lemma {:induction false} GoneStaysGone(states: seq<Conc>, moves: seq<Move>, i: nat, j: nat, x: nat)
    requires IsRun(states, moves) && i <= j < |states|
    ensures |states[i].s.cells| <= |states[j].s.cells|
    ensures x < |states[i].s.cells| && x in states[j].s.live ==> x in states[i].s.live
    decreases j
  {
    hide Apply, WalkersSafe, Inv, ConcInv;
    if i < j {
      RunsKeepOrder(states, moves, j - 1);
      assert Moves(states[j - 1], moves[j - 1], states[j]);
      MoveGrows(states[j - 1], moves[j - 1]);
      GoneStaysGone(states, moves, i, j - 1, x);
    }
  }

  // ---------------------------------------------------------------- walks

  /** A walk along next pointers during a run: at its hop from `path[j]` the walker sees
      the state at time `times[j]`. */
  ghost predicate IsWalk(states: seq<Conc>, times: seq<nat>, path: seq<nat>) {
    && |path| == |times| + 1
    && (forall j | 0 <= j < |times| :: times[j] < |states|)
    && (forall i, j | 0 <= i < j < |times| :: times[i] <= times[j])
    && (forall j | 0 <= j < |times| :: Hops(states[times[j]].s, path[j], path[j + 1]))
  }

  ghost predicate Hops(s: Snap, x: nat, y: nat) {
    x < |s.cells| && s.cells[x].next.link == Some(y)
  }

  /** Whatever happens to the list meanwhile, a walk goes forward in insertion order. */
  lemma {:induction false} WalksGoForward(states: seq<Conc>, moves: seq<Move>, times: seq<nat>, path: seq<nat>, i: nat, j: nat)
    requires IsRun(states, moves) && IsWalk(states, times, path) && i < j < |path|
    ensures path[i] + (j - i) <= path[j] && path[j] < |states[times[j - 1]].s.cells|
    decreases j
  {
    hide ConcInv, Inv, AllSettled, NoneBetween;
    var s := states[times[j - 1]].s;
    RunsKeepOrder(states, moves, times[j - 1]);
    assert Hops(s, path[j - 1], path[j]) && Hop(s, path[j - 1]);
    if i < j - 1 {
      WalksGoForward(states, moves, times, path, i, j - 1);
    }
  }

  /** So it has fewer hops than elements had been pushed by its last look. */
  lemma {:induction false} WalksAreShort(states: seq<Conc>, moves: seq<Move>, times: seq<nat>, path: seq<nat>)
    requires IsRun(states, moves) && IsWalk(states, times, path) && times != []
    ensures |times| < |states[times[|times| - 1]].s.cells|
  {
    WalksGoForward(states, moves, times, path, 0, |times|);
  }

  /** And it visits every element in its range that is in the list from its first look to
      its last. */
  lemma {:induction false} WalksSkipNothing(states: seq<Conc>, moves: seq<Move>, times: seq<nat>, path: seq<nat>, x: nat)
    requires IsRun(states, moves) && IsWalk(states, times, path) && times != []
    requires x in states[times[0]].s.live && x in states[times[|times| - 1]].s.live
    requires path[0] <= x <= path[|path| - 1]
    ensures x in path
    decreases |path|
  {
    hide ConcInv, Inv, AllSettled;
    var n := |times|;
    if x != path[n] {
      var s := states[times[n - 1]].s;
      RunsKeepOrder(states, moves, times[n - 1]);
      assert Hops(s, path[n - 1], path[n]) && Hop(s, path[n - 1]);
      var k :| 0 <= k < |s.live| && s.live[k] == x;
      assert x <= path[n - 1];
      if n > 1 {
        RunsKeepOrder(states, moves, times[0]);
        IsWalkPrefix(states, times, path);
        GoneStaysGone(states, moves, times[0], times[n - 2], x);
        GoneStaysGone(states, moves, times[n - 2], times[n - 1], x);
        InCells(states[times[0]].s, x);
        WalksSkipNothing(states, moves, times[..n - 1], path[..n], x);
      }
    }
  }

  lemma InCells(s: Snap, x: nat)
    requires WalkersSafe(s) && x in s.live
    ensures x < |s.cells|
  {
  }

  lemma IsWalkPrefix(states: seq<Conc>, times: seq<nat>, path: seq<nat>)
    requires IsWalk(states, times, path) && times != []
    ensures IsWalk(states, times[..|times| - 1], path[..|times|])
  {
    var ts, ps := times[..|times| - 1], path[..|times|];
    forall j | 0 <= j < |ts|
      ensures Hops(states[ts[j]].s, ps[j], ps[j + 1])
    {
      assert Hops(states[times[j]].s, path[j], path[j + 1]);
    }
  }
}
