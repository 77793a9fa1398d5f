/** The concurrent list itself: linked elements, changed in place. Its methods do to
    the memory what CListModel says, and never release a waiter twice. */
module CList {
  import opened CListModel

  class Element<V> {
    /** The place of the element in the order of insertion. */
    ghost const stamp: nat
    const value: V
    var prev: Element?<V>
    var prevWg: WaitGroup
    var prevWaitCh: Channel
    var next: Element?<V>
    var nextWg: WaitGroup
    var nextWaitCh: Channel
    var removed: bool
    ghost var oldPrevWgs: seq<WaitGroup>
    ghost var oldPrevChs: seq<Channel>
    ghost var oldNextWgs: seq<WaitGroup>
    ghost var oldNextChs: seq<Channel>

    ghost function View(): Cell
      reads this
    {
      Cell(Side(Name(prev), prevWg, prevWaitCh, oldPrevWgs, oldPrevChs),
           Side(Name(next), nextWg, nextWaitCh, oldNextWgs, oldNextChs), removed)
    }

    static ghost function Name(e: Element?<V>): Option<nat> {
      if e == null then None else Some(e.stamp)
    }

    constructor (ghost stamp: nat, value: V)
      ensures this.stamp == stamp && this.value == value
      ensures View() == NEW_CELL && prev == null && next == null
    {
      this.stamp, this.value := stamp, value;
      prev, prevWg, prevWaitCh := null, WaitGroup(true), Channel(false);
      next, nextWg, nextWaitCh := null, WaitGroup(true), Channel(false);
      removed := false;
      oldPrevWgs, oldPrevChs, oldNextWgs, oldNextChs := [], [], [], [];
    }

    /** False is the panic on doing a wait group or closing a channel a second time. */
    method SetNext(newNext: Element?<V>) returns (ok: bool)
      modifies this
      ensures next == newNext && prev == old(prev)
      ensures ok <==> !Rereleases(old(View()).next, Name(newNext))
      ensures View() == old(View()).(next := SetLink(old(View()).next, Name(newNext)))
    {
      var oldNext := next;
      next := newNext;
      if oldNext != null && newNext == null {
        oldNextWgs, oldNextChs := oldNextWgs + [nextWg], oldNextChs + [nextWaitCh];
        nextWg := WaitGroup(true);
        nextWaitCh := Channel(false);
      }
      if oldNext == null && newNext != null {
        if !nextWg.pending || nextWaitCh.closed {
          return false;
        }
        nextWg := WaitGroup(false);
        nextWaitCh := Channel(true);
      }
      ok := true;
    }

    method SetPrev(newPrev: Element?<V>) returns (ok: bool)
      modifies this
      ensures prev == newPrev && next == old(next)
      ensures ok <==> !Rereleases(old(View()).prev, Name(newPrev))
      ensures View() == old(View()).(prev := SetLink(old(View()).prev, Name(newPrev)))
    {
      var oldPrev := prev;
      prev := newPrev;
      if oldPrev != null && newPrev == null {
        oldPrevWgs, oldPrevChs := oldPrevWgs + [prevWg], oldPrevChs + [prevWaitCh];
        prevWg := WaitGroup(true);
        prevWaitCh := Channel(false);
      }
      if oldPrev == null && newPrev != null {
        if !prevWg.pending || prevWaitCh.closed {
          return false;
        }
        prevWg := WaitGroup(false);
        prevWaitCh := Channel(true);
      }
      ok := true;
    }

    method SetRemoved()
      requires prev == null ==> CanRelease(View().prev)
      requires next == null ==> CanRelease(View().next)
      modifies this
      ensures prev == old(prev) && next == old(next)
      ensures var c := old(View());
              View() == Cell(if c.prev.link.None? then Release(c.prev) else c.prev,
                             if c.next.link.None? then Release(c.next) else c.next, true)
    {
      removed := true;
      if prev == null {
        prevWg := WaitGroup(false);
        prevWaitCh := Channel(true);
      }
      if next == null {
        nextWg := WaitGroup(false);
        nextWaitCh := Channel(true);
      }
    }
  }

  class LinkedList<V> {
    const maxLen: int
    var wg: WaitGroup
    var waitCh: Channel
    var head: Element?<V>
    var tail: Element?<V>
    var len: int
    ghost var oldWgs: seq<WaitGroup>
    ghost var oldChs: seq<Channel>
    /** Every element ever pushed, and what the memory holds. */
    ghost var all: seq<Element<V>>
    ghost var view: Snap

    /** A pointer is to one of the elements. */
    ghost predicate Points(e: Element?<V>)
      reads this`all
    {
      e != null ==> e.stamp < |all| && all[e.stamp] == e
    }

    /** The element bears the stamp of its place, its pointers are to elements, and the
        view of it is what it holds. */
    ghost predicate TiedAt(i: nat)
      requires i < |all| == |view.cells|
      reads this`all, this`view, all
    {
      all[i].stamp == i && Points(all[i].prev) && Points(all[i].next) && view.cells[i] == all[i].View()
    }

    ghost predicate Tied()
      reads this, all
    {
      && |view.cells| == |all| && (forall i | 0 <= i < |all| :: TiedAt(i))
      && Points(head) && Points(tail)
      && view.head == Element<V>.Name(head) && view.tail == Element<V>.Name(tail) && view.len == len
      && view.gate == Side(None, wg, waitCh, oldWgs, oldChs)
    }

    ghost predicate Valid()
      reads this, all
    {
      Tied() && Inv(view)
    }

    /** The elements with given stamps. */
    static ghost function Pick(es: seq<Element<V>>, stamps: seq<nat>): (r: seq<Element<V>>)
      requires Ordered(stamps, |es|)
      ensures |r| == |stamps| && forall k | 0 <= k < |r| :: r[k] == es[stamps[k]]
    {
      seq(|stamps|, k requires 0 <= k < |stamps| && Ordered(stamps, |es|) => es[stamps[k]])
    }

    /** The elements of the list, in order. */
    ghost function Contents(): (r: seq<Element<V>>)
      requires Ordered(view.live, |all|)
      reads this`all, this`view
    {
      Pick(all, view.live)
    }

    constructor (maxLen: int)
      ensures Valid() && view == INIT.s && all == [] && this.maxLen == maxLen
    {
      this.maxLen := maxLen;
      wg, waitCh, oldWgs, oldChs := WaitGroup(true), Channel(false), [], [];
      head, tail, len := null, null, 0;
      all, view := [], INIT.s;
    }

    // -------------------------------------------------------------- one step at a time

    lemma TiedFields(e: Element<V>)
      requires Tied()
      ensures |view.cells| == |all| && view.head == Element<V>.Name(head) && view.tail == Element<V>.Name(tail)
      ensures view.len == len && Points(head) && Points(tail)
      ensures Points(e) ==> e.stamp < |view.cells| && view.cells[e.stamp] == e.View() && Points(e.prev) && Points(e.next)
    {
      if Points(e) {
        assert TiedAt(e.stamp);
      }
    }

    method LinkNext(e: Element<V>, x: Element?<V>) returns (ok: bool)
      requires Tied() && Points(e) && Points(x)
      modifies this`view, e
      ensures Tied() && e.stamp < |old(view).cells| && view == SetNext(old(view), e.stamp, Element<V>.Name(x))
      ensures ok <==> !Rereleases(old(view).cells[e.stamp].next, Element<V>.Name(x))
    {
      assert TiedAt(e.stamp);
      ok := e.SetNext(x);
      view := SetNext(view, e.stamp, Element<V>.Name(x));
      forall i | 0 <= i < |all|
        ensures TiedAt(i)
      {
        assert old(TiedAt(i));
      }
    }

    method LinkPrev(e: Element<V>, x: Element?<V>) returns (ok: bool)
      requires Tied() && Points(e) && Points(x)
      modifies this`view, e
      ensures Tied() && e.stamp < |old(view).cells| && view == SetPrev(old(view), e.stamp, Element<V>.Name(x))
      ensures ok <==> !Rereleases(old(view).cells[e.stamp].prev, Element<V>.Name(x))
    {
      assert TiedAt(e.stamp);
      ok := e.SetPrev(x);
      view := SetPrev(view, e.stamp, Element<V>.Name(x));
      forall i | 0 <= i < |all|
        ensures TiedAt(i)
      {
        assert old(TiedAt(i));
      }
    }

    method MarkRemoved(e: Element<V>)
      requires Tied() && Points(e)
      requires e.prev == null ==> CanRelease(e.View().prev)
      requires e.next == null ==> CanRelease(e.View().next)
      modifies this`view, e
      ensures Tied() && e.stamp < |old(view).cells| && view == SetRemoved(old(view), e.stamp)
    {
      assert TiedAt(e.stamp);
      e.SetRemoved();
      view := SetRemoved(view, e.stamp);
      forall i | 0 <= i < |all|
        ensures TiedAt(i)
      {
        assert old(TiedAt(i));
      }
    }

    method SetHead(x: Element?<V>)
      requires Tied() && Points(x)
      modifies this`head, this`view
      ensures Tied() && head == x && view == old(view).(head := Element<V>.Name(x))
    {
      head := x;
      view := view.(head := Element<V>.Name(x));
      assert forall i | 0 <= i < |all| :: TiedAt(i) == old(TiedAt(i));
    }

    method SetTail(x: Element?<V>)
      requires Tied() && Points(x)
      modifies this`tail, this`view
      ensures Tied() && tail == x && view == old(view).(tail := Element<V>.Name(x))
    {
      tail := x;
      view := view.(tail := Element<V>.Name(x));
      assert forall i | 0 <= i < |all| :: TiedAt(i) == old(TiedAt(i));
    }

    /** A new element, linked back, joins the others. */
    ghost method Join(n: Element<V>)
      requires Tied() && n !in all && n.stamp == |all| && Points(n.prev) && n.next == null
      modifies this`all, this`view
      ensures all == old(all) + [n] && Tied()
      ensures view == old(view).(cells := old(view).cells + [n.View()])
    {
      all := all + [n];
      view := view.(cells := view.cells + [n.View()]);
      forall i | 0 <= i < |all|
        ensures TiedAt(i)
      {
        assert i < |old(all)| ==> old(TiedAt(i));
      }
    }

    // -------------------------------------------------------------- pushing

    /** Counts one more element and releases those who wait on an empty list; false is
        the panic at the maximal length. */
    method CountOne() returns (ok: bool)
      requires Tied() && (len == 0 ==> CanRelease(view.gate))
      modifies this`len, this`wg, this`waitCh, this`view
      ensures Tied() && (ok <==> old(len) < maxLen)
      ensures view == if ok then Counted(old(view)) else old(view).(gate := if old(len) == 0 then Release(old(view).gate) else old(view).gate)
    {
      if len == 0 {
        wg := WaitGroup(false);
        waitCh := Channel(true);
        view := view.(gate := Release(view.gate));
      }
      if len >= maxLen {
        assert forall i | 0 <= i < |all| :: TiedAt(i) == old(TiedAt(i));
        return false;
      }
      len := len + 1;
      view := Counted(old(view));
      assert forall i | 0 <= i < |all| :: TiedAt(i) == old(TiedAt(i));
      ok := true;
    }

    /** Links a new element behind the tail; only then can walkers reach it. */
    method AttachTail(n: Element<V>)
      requires Tied() && n !in all && n.stamp == |all| && n.View() == NEW_CELL && n.prev == null && n.next == null
      requires tail != null ==> tail.next == null && CanRelease(tail.View().next)
      modifies this`all, this`head, this`tail, this`view, n, tail
      ensures all == old(all) + [n] && Tied()
      ensures view.tail.Some? && (old(view).tail.Some? ==> old(view).tail.value < |old(view).cells|)
      ensures view == Attach(old(view))
    {
      hide Tied, SetLink;
      NewCanRelease(n.View());
      TiedFields(n);
      if tail == null {
        Join(n);
        SetHead(n);
        SetTail(n);
      } else {
        TiedFields(tail);
        LinkBack(n);
        Join(n);
        var ok := LinkNext(tail, n);
        SetTail(n);
      }
    }

    /** A new element does not show in the list before it joins. */
    method LinkBack(n: Element<V>)
      requires Tied() && n !in all && tail != null && n.prev == null && CanRelease(n.View().prev)
      modifies n
      ensures Tied() && n.prev == tail && n.next == old(n.next)
      ensures n.View() == old(n.View()).(prev := SetLink(old(n.View()).prev, Element<V>.Name(tail)))
    {
      var ok := n.SetPrev(tail);
      assert forall i | 0 <= i < |all| :: TiedAt(i) == old(TiedAt(i));
    }

    lemma NewCanRelease(c: Cell)
      requires c == NEW_CELL
      ensures CanRelease(c.prev) && CanRelease(c.next) && c.(prev := SetLink(NEW_SIDE, None)) == c
    {
    }

    /** Appends an element; null is the panic at the maximal length. By then those who
        wait on an empty list have been released, if it was empty: nothing else has
        changed, and the list is in order if and only if it was not empty. */
    method PushBack(v: V) returns (e: Element?<V>)
      requires Valid()
      modifies this, all
      ensures e == null <==> old(len) >= maxLen
      ensures e == null ==>
                && Tied() && all == old(all)
                && view == old(view).(gate := if old(len) == 0 then Release(old(view).gate) else old(view).gate)
                && (Valid() <==> old(len) > 0)
      ensures e != null ==>
                && Valid() && fresh(e) && e.value == v && all == old(all) + [e]
                && Contents() == old(Contents()) + [e]
    {
      hide Tied, Inv, Attach, Counted;
      ghost var s := view;
      PushKeeps(s);
      var n := new Element(|all|, v);
      PushReady(n);
      var ok := CountOne();
      if !ok {
        GateOnly(s);
        return null;
      }
      AttachTail(n);
      PushedContents(s, old(all), n);
      e := n;
    }

    /** Waiters released while there is nothing to find. */
    static lemma GateOnly(s: Snap)
      requires Inv(s)
      ensures s.len >= 0
      ensures Inv(s.(gate := if s.len == 0 then Release(s.gate) else s.gate)) <==> s.len > 0
    {
      hide AllHop, AllSettled, Chained, Parted;
      var t := s.(gate := if s.len == 0 then Release(s.gate) else s.gate);
      if s.len > 0 {
        assert t == s;
      }
    }

    lemma PushReady(n: Element<V>)
      requires Valid()
      ensures |all| == |view.cells| && Ordered(view.live, |all|) && view.len == len
      ensures len == 0 ==> CanRelease(view.gate)
      ensures tail != null ==> tail in all && tail.next == null && CanRelease(tail.View().next)
    {
      TiedFields(n);
      TailIsLast(view);
      ReadyToRelease(view);
      if tail != null {
        TiedFields(tail);
      }
    }

    static lemma PushedContents(s: Snap, es: seq<Element<V>>, n: Element<V>)
      requires |s.cells| == |es| && Inv(s)
      ensures Ordered(s.live, |es|) && (s.tail.Some? ==> s.tail.value < |s.cells|)
      ensures Ordered(Push(s).live, |es + [n]|)
      ensures Pick(es + [n], Push(s).live) == Pick(es, s.live) + [n]
    {
      PushKeeps(s);
      PushCells(s);
    }

    // -------------------------------------------------------------- removing

    /** Counts one element less; those who come to wait on an emptied list get a new
        wait group and channel. */
    method UncountOne()
      requires Tied()
      modifies this`len, this`wg, this`waitCh, this`oldWgs, this`oldChs, this`view
      ensures Tied()
      ensures view == old(view).(len := old(view).len - 1,
                                 gate := if old(view).len == 1 then Renew(old(view).gate) else old(view).gate)
    {
      if len == 1 {
        oldWgs, oldChs := oldWgs + [wg], oldChs + [waitCh];
        wg := WaitGroup(true);
        waitCh := Channel(false);
      }
      len := len - 1;
      view := view.(len := len, gate := Side(None, wg, waitCh, oldWgs, oldChs));
      assert forall i | 0 <= i < |all| :: TiedAt(i) == old(TiedAt(i));
    }

    /** Where a live element is linked. */
    lemma Neighbours(e: Element<V>) returns (k: nat)
      requires Valid() && Points(e) && e.stamp in view.live
      ensures Ordered(view.live, |view.cells|) && |view.cells| == |all|
      ensures k < |view.live| && view.live[k] == e.stamp
      ensures Element<V>.Name(e.prev) == At(view.live, k - 1) && Element<V>.Name(e.next) == At(view.live, k + 1)
      ensures Points(e.prev) && Points(e.next) && !e.removed
      ensures head != null && tail != null
      ensures e.prev == null ==> head == e
      ensures e.next == null ==> tail == e
      ensures e.prev == null ==> CanRelease(e.View().prev)
      ensures e.next == null ==> CanRelease(e.View().next)
      ensures e.prev != null ==> e.prev in all && e.prev.next == e
      ensures e.next != null ==> e.next in all && e.next.prev == e
      ensures e.prev != e && e.next != e && (e.prev != null ==> e.prev != e.next)
    {
      k := Position(view.live, e.stamp);
      LinksAt(view, k);
      RemovedSettles(view, k);
      hide Inv, Tied, Ordered;
      TiedFields(e);
      if e.prev != null {
        TiedFields(e.prev);
      }
      if e.next != null {
        TiedFields(e.next);
      }
    }

    /** Removes an element; false is a panic. An element of the list is removed. One removed
        before is refused, if the list is empty or the element detached on a side; if
        not, the list is in order no longer. */
    method Remove(e: Element<V>) returns (ok: bool)
      requires Valid() && Points(e)
      modifies this, e, e.prev, e.next
      ensures Tied() && all == old(all)
      ensures Valid() <==> e.stamp in old(view).live || old(Refuses(e))
      ensures e.stamp in old(view).live ==>
                ok && exists k | 0 <= k < |old(view).live| ::
                        && old(view).live[k] == e.stamp && view == Removal(old(view), k)
                        && Contents() == old(Contents())[..k] + old(Contents())[k + 1..]
      ensures e.stamp !in old(view).live && old(Refuses(e)) ==> !ok && view == old(view)
      ensures e.stamp !in old(view).live && !old(Refuses(e)) ==>
                Attached(old(view), e.stamp) && (view, ok) == Cutout(old(view), e.stamp)
    {
      hide Tied, Inv, Cutout;
      if head == null || tail == null {
        EmptyList(e);
        return false;
      }
      if e.prev == null && head != e {
        NotAlone(e);
        return false;
      }
      if e.next == null && tail != e {
        NotAlone(e);
        return false;
      }
      HeadIsLive(e);
      ghost var s, k := view, 0;
      if e.stamp in s.live {
        k := Neighbours(e);
        RemovalKeeps(s, k);
        CutoutRemoves(s, k);
        RemovedContents(s, k, all);
      } else {
        LooseEnds(e);
        RemovedTwiceBreaks(s, e.stamp, s.live);
        CutoutMarks(s, e.stamp, e.stamp);
      }
      ok := RemoveAt(e);
      if e.stamp in s.live {
        Unlist(k);
        assert view == Removal(s, k) && Contents() == old(Contents())[..k] + old(Contents())[k + 1..];
      }
    }

    /** What the three checks of Remove come to for an element that is not in the list. */
    ghost predicate Refuses(e: Element<V>)
      reads this`head, e`prev, e`next
    {
      head == null || e.prev == null || e.next == null
    }

    lemma EmptyList(e: Element<V>)
      requires Valid() && Points(e) && (head == null || tail == null)
      ensures e.stamp !in view.live && head == null
    {
      TiedFields(e);
    }

    lemma NotAlone(e: Element<V>)
      requires Valid() && Points(e)
      requires (e.prev == null && head != e) || (e.next == null && tail != e)
      ensures e.stamp !in view.live
    {
      if e.stamp in view.live {
        var k := Neighbours(e);
      }
    }

    lemma HeadIsLive(e: Element<V>)
      requires Valid() && Points(e) && head != null && tail != null
      ensures head == e || tail == e ==> e.stamp in view.live
    {
      TiedFields(e);
    }

    /** An element not in the list and not detached. */
    lemma LooseEnds(e: Element<V>)
      requires Valid() && Points(e) && e.stamp !in view.live && e.prev != null && e.next != null
      ensures Attached(view, e.stamp) && view.cells[e.stamp].removed
      ensures e.prev != e && e.next != e && e.prev != e.next
    {
      TiedFields(e);
      hide AllSettled, Chained, Framed;
      assert Hop(view, e.stamp);
    }

    /** Links the neighbours past the element, then marks it. */
    method RemoveAt(e: Element<V>) returns (ok: bool)
      requires Tied() && Points(e)
      requires e.prev == null ==> CanRelease(e.View().prev)
      requires e.next == null ==> CanRelease(e.View().next)
      requires e.prev != e && e.next != e && (e.prev != null ==> e.prev != e.next)
      modifies this`len, this`wg, this`waitCh, this`oldWgs, this`oldChs, this`view, this`head, this`tail, e, e.prev, e.next
      ensures Tied() && Attached(old(view), e.stamp) && (view, ok) == Cutout(old(view), e.stamp)
    {
      hide Tied, SetLink, Rereleases;
      TiedFields(e);
      var prev, next := e.prev, e.next;
      UncountOne();
      ok := true;
      if prev == null {
        SetHead(next);
      } else {
        ok := LinkNext(prev, next);
      }
      if !ok {
        return;
      }
      if next == null {
        SetTail(prev);
      } else {
        ok := LinkPrev(next, prev);
      }
      if !ok {
        return;
      }
      MarkRemoved(e);
    }

    /** The element at place `k` no longer counts as one of the list. */
    ghost method Unlist(k: nat)
      requires Tied() && k < |view.live|
      modifies this`view
      ensures Tied() && view == old(view).(live := Without(old(view).live, k))
    {
      view := view.(live := Without(view.live, k));
      assert forall i | 0 <= i < |all| :: TiedAt(i) == old(TiedAt(i));
    }

    static lemma RemovedContents(s: Snap, k: nat, es: seq<Element<V>>)
      requires |s.cells| == |es| && Ordered(s.live, |es|) && k < |s.live|
      ensures Ordered(Without(s.live, k), |es|)
      ensures Pick(es, Without(s.live, k)) == Pick(es, s.live)[..k] + Pick(es, s.live)[k + 1..]
    {
      WithoutOrdered(s.live, k, |es|);
    }

    // -------------------------------------------------------------- detaching

    /** Cuts a removed element loose; false is the panic on one that was not removed.
        (An operation of the element: the list only sees it.) */
    method DetachNext(e: Element<V>) returns (ok: bool)
      requires Valid() && Points(e)
      modifies this`view, e`next
      ensures ok == e.removed && Valid() && all == old(all)
      ensures e.stamp < |old(view).cells| && view == if ok then CListModel.DetachNext(old(view), e.stamp) else old(view)
      ensures e.next == if ok then null else old(e.next)
    {
      TiedFields(e);
      if !e.removed {
        return false;
      }
      DetachKeeps(view, e.stamp);
      hide Inv;
      e.next := null;
      view := CListModel.DetachNext(view, e.stamp);
      forall i | 0 <= i < |all|
        ensures TiedAt(i)
      {
        assert old(TiedAt(i));
      }
      ok := true;
    }

    method DetachPrev(e: Element<V>) returns (ok: bool)
      requires Valid() && Points(e)
      modifies this`view, e`prev
      ensures ok == e.removed && Valid() && all == old(all)
      ensures e.stamp < |old(view).cells| && view == if ok then CListModel.DetachPrev(old(view), e.stamp) else old(view)
      ensures e.prev == if ok then null else old(e.prev)
    {
      TiedFields(e);
      if !e.removed {
        return false;
      }
      DetachKeeps(view, e.stamp);
      hide Inv;
      e.prev := null;
      view := CListModel.DetachPrev(view, e.stamp);
      forall i | 0 <= i < |all|
        ensures TiedAt(i)
      {
        assert old(TiedAt(i));
      }
      ok := true;
    }
  }
}
