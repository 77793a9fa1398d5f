/** Stacks of the virtual machine, top first, with truncation to a saved depth. */
module GnoStacks {

  datatype List<+T> = Nil | Cons(head: T, tail: List<T>)

  function Len<T>(l: List<T>): nat {
    match l
    case Nil => 0
    case Cons(_, t) => 1 + Len(t)
  }

  /** The stack cut back to its lowest `n` entries (the stack itself when it is
      no deeper than that). */
  function Chop<T>(l: List<T>, n: nat): List<T> {
    if Len(l) <= n then l else Chop(l.tail, n)
  }

  /** Pushes a sequence, its first element first. */
  function PushAll<T>(l: List<T>, xs: seq<T>): List<T>
    decreases |xs|
  {
    if xs == [] then l else PushAll(Cons(xs[0], l), xs[1..])
  }

  /** The top `n` entries, oldest first. */
  function TopN<T>(l: List<T>, n: nat): seq<T>
    requires n <= Len(l)
    ensures |TopN(l, n)| == n
  {
    if n == 0 then [] else TopN(l.tail, n - 1) + [l.head]
  }

  /** The stack without its top `n` entries. */
  function DropN<T>(l: List<T>, n: nat): List<T>
    requires n <= Len(l)
    ensures Len(DropN(l, n)) == Len(l) - n
  {
    if n == 0 then l else DropN(l.tail, n - 1)
  }

  lemma LenChop<T>(l: List<T>, n: nat)
    ensures Len(Chop(l, n)) == if Len(l) <= n then Len(l) else n
  {
  }

  lemma ChopChop<T>(l: List<T>, a: nat, b: nat)
    requires b <= a
    ensures Chop(Chop(l, a), b) == Chop(l, b)
  {
  }

  lemma LenPushAll<T>(l: List<T>, xs: seq<T>)
    ensures Len(PushAll(l, xs)) == Len(l) + |xs|
    decreases |xs|
  {
    if xs != [] {
      LenPushAll(Cons(xs[0], l), xs[1..]);
    }
  }

  lemma {:induction false} PushAllSnoc<T>(l: List<T>, xs: seq<T>, x: T)
    ensures PushAll(l, xs + [x]) == Cons(x, PushAll(l, xs))
    decreases |xs|
  {
    if xs == [] {
      assert [x][1..] == [];
    } else {
      assert (xs + [x])[1..] == xs[1..] + [x];
      PushAllSnoc(Cons(xs[0], l), xs[1..], x);
    }
  }

  /** Popping as many entries as were pushed gives them back in order. */
  lemma {:induction false} PopPushAll<T>(l: List<T>, xs: seq<T>)
    ensures Len(PushAll(l, xs)) == Len(l) + |xs|
    ensures TopN(PushAll(l, xs), |xs|) == xs
    ensures DropN(PushAll(l, xs), |xs|) == l
    decreases |xs|
  {
    LenPushAll(l, xs);
    if xs != [] {
      var ys, y := xs[..|xs| - 1], xs[|xs| - 1];
      assert xs == ys + [y];
      PushAllSnoc(l, ys, y);
      LenPushAll(l, ys);
      PopPushAll(l, ys);
    }
  }

  lemma ChopPushAll<T>(l: List<T>, xs: seq<T>, n: nat)
    requires n <= Len(l)
    ensures Chop(PushAll(l, xs), n) == Chop(l, n)
    decreases |xs|
  {
    if xs != [] {
      ChopPushAll(Cons(xs[0], l), xs[1..], n);
    }
  }

  lemma ChopDropN<T>(l: List<T>, n: nat, k: nat)
    requires n <= Len(l) && k <= Len(l) - n
    ensures Chop(DropN(l, n), k) == Chop(l, k)
  {
  }

  // ---------------------------------------------------------------- stacks kept in slices

  /** A slice whose last element is the top of the stack. */
  function ToList<T>(s: seq<T>): (l: List<T>)
    ensures Len(l) == |s|
  {
    if s == [] then Nil else Cons(s[|s| - 1], ToList(s[..|s| - 1]))
  }

  lemma ToListSnoc<T>(s: seq<T>, x: T)
    ensures ToList(s + [x]) == Cons(x, ToList(s))
  {
    assert (s + [x])[..|s|] == s;
  }

  /** Re-slicing is truncation. */
  lemma {:induction false} ChopToList<T>(s: seq<T>, n: nat)
    requires n <= |s|
    ensures Chop(ToList(s), n) == ToList(s[..n])
    decreases |s|
  {
    if n == |s| {
      assert s[..n] == s;
    } else {
      ChopToList(s[..|s| - 1], n);
      assert s[..|s| - 1][..n] == s[..n];
    }
  }

  lemma {:induction false} PushAllToList<T>(s: seq<T>, xs: seq<T>)
    ensures PushAll(ToList(s), xs) == ToList(s + xs)
    decreases |xs|
  {
    if xs == [] {
      assert s + xs == s;
    } else {
      ToListSnoc(s, xs[0]);
      PushAllToList(s + [xs[0]], xs[1..]);
      assert s + [xs[0]] + xs[1..] == s + xs;
    }
  }

  lemma {:induction false} PopToList<T>(s: seq<T>, n: nat)
    requires n <= |s|
    ensures TopN(ToList(s), n) == s[|s| - n..]
    ensures DropN(ToList(s), n) == ToList(s[..|s| - n])
    decreases n
  {
    if n == 0 {
      assert s[..|s|] == s;
    } else {
      var t := s[..|s| - 1];
      PopToList(t, n - 1);
      assert t[..|t| - (n - 1)] == s[..|s| - n];
      assert t[|t| - (n - 1)..] + [s[|s| - 1]] == s[|s| - n..];
    }
  }
}
