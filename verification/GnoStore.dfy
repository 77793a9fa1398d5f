/** The variables of blocks: what is written through a path is what is read through it. */
module GnoStore {
  import opened GnoValues
  import opened GnoSyntax
  import opened GnoMachine
  import opened GnoSemantics

  lemma {:induction false} ResolveKept(store: seq<Scope>, st: seq<Scope>, a: nat, depth: nat)
    requires |st| == |store| && forall b | 0 <= b < |store| :: st[b].parent == store[b].parent
    ensures Resolve(st, a, depth) == Resolve(store, a, depth)
    decreases depth
  {
    if depth > 1 && a < |store| && store[a].parent.Some? {
      ResolveKept(store, st, store[a].parent.value, depth - 1);
    }
  }

  /** `up` climbs from a block to the one its last entry names, parent by parent. */
  ghost predicate Climbs(store: seq<Scope>, up: seq<nat>) {
    && (forall i | 0 <= i < |up| :: up[i] < |store|)
    && (forall i | 0 <= i < |up| - 1 :: ParentIs(store, up[i], up[i + 1]))
  }

  ghost predicate ParentIs(store: seq<Scope>, b: nat, p: nat) {
    b < |store| && store[b].parent == Some(p)
  }

  /** A depth means a climb through as many blocks, the first being the current one. */
  lemma {:induction false} DepthIsClimb(store: seq<Scope>, up: seq<nat>)
    requires up != [] && Climbs(store, up)
    ensures Resolve(store, up[0], |up|) == Some(up[|up| - 1])
    decreases |up|
  {
    if |up| > 1 {
      assert ParentIs(store, up[0], up[1]);
      forall i | 0 <= i < |up[1..]| - 1
        ensures ParentIs(store, up[1..][i], up[1..][i + 1])
      {
        assert ParentIs(store, up[i + 1], up[i + 2]);
      }
      DepthIsClimb(store, up[1..]);
    }
  }

  lemma {:induction false} ResolvedHasClimb(store: seq<Scope>, a: nat, depth: nat) returns (up: seq<nat>)
    requires Resolve(store, a, depth).Some?
    ensures |up| == depth > 0 && up[0] == a && up[depth - 1] == Resolve(store, a, depth).value
    ensures Climbs(store, up)
    decreases depth
  {
    if depth == 1 {
      up := [a];
    } else {
      var rest := ResolvedHasClimb(store, store[a].parent.value, depth - 1);
      up := [a] + rest;
      forall i | 0 <= i < |up| - 1
        ensures ParentIs(store, up[i], up[i + 1])
      {
        assert i > 0 ==> ParentIs(store, rest[i - 1], rest[i]);
      }
    }
  }

  /** Assignment through a path gives the variable at its end the value, and no other
      variable of any block another one. */
  lemma WriteThenLoad(store: seq<Scope>, a: nat, p: Path, v: Value, a2: nat, q: Path)
    requires p.Slot? && Write(store, a, p, v).Some?
    ensures var st := Write(store, a, p, v).value;
            && Load(st, a, p) == Some(v)
            && (q.Slot? && (q.index != p.index || Resolve(store, a2, q.depth) != Resolve(store, a, p.depth)) ==>
                  Load(st, a2, q) == Load(store, a2, q))
            && (q.Slot? && q.index == p.index && Resolve(store, a2, q.depth) == Resolve(store, a, p.depth) ==>
                  Load(st, a2, q) == Some(v))
  {
    var st := Write(store, a, p, v).value;
    ResolveKept(store, st, a, p.depth);
    if q.Slot? {
      ResolveKept(store, st, a2, q.depth);
    }
  }

  lemma {:induction false} SlotMapHolds(vs: seq<Value>, from: nat, i: nat)
    ensures i in SlotMap(vs, from) <==> from <= i < from + |vs|
    ensures from <= i < from + |vs| ==> SlotMap(vs, from)[i] == vs[i - from]
    decreases |vs|
  {
    if vs != [] {
      SlotMapHolds(vs[..|vs| - 1], from, i);
    }
  }

  /** Results moved to the function block are the results read back from it, and leave
      the other variables of every block alone. */
  lemma ResultsComeBack(store: seq<Scope>, b: nat, fn: Func, vs: seq<Value>, c: nat, i: nat)
    requires b < |store| && |vs| == |fn.defaults|
    ensures ReadResults(WriteResults(store, b, fn, vs), b, fn) == vs
    ensures c != b || i < fn.numParams || i >= fn.numParams + |vs| ==>
              ReadSlot(WriteResults(store, b, fn, vs), c, i) == ReadSlot(store, c, i)
  {
    forall k | 0 <= k < |vs|
      ensures ReadSlot(WriteResults(store, b, fn, vs), b, fn.numParams + k) == vs[k]
    {
      SlotMapHolds(vs, fn.numParams, fn.numParams + k);
    }
    SlotMapHolds(vs, fn.numParams, i);
  }

  /** A new function block holds the arguments, then the default results. */
  lemma CallSlots(args: seq<Value>, fn: Func, i: nat)
    requires |args| == fn.numParams
    ensures var vals := SlotMap(args, 0) + SlotMap(fn.defaults, fn.numParams);
            && (i in vals <==> i < fn.numParams + |fn.defaults|)
            && (i < fn.numParams ==> vals[i] == args[i])
            && (fn.numParams <= i < fn.numParams + |fn.defaults| ==> vals[i] == fn.defaults[i - fn.numParams])
  {
    SlotMapHolds(args, 0, i);
    SlotMapHolds(fn.defaults, fn.numParams, i);
  }

  // ---------------------------------------------------------------- deferred bodies

  /** The blocks below `a` are nested in blocks below `a`. */
  ghost predicate ClosedBelow(store: seq<Scope>, a: nat) {
    a <= |store| && forall b | 0 <= b < a && store[b].parent.Some? :: store[b].parent.value < a
  }

  lemma {:induction false} StaysBelow(store: seq<Scope>, a: nat, b: nat, depth: nat)
    requires ClosedBelow(store, a) && b < a
    ensures Resolve(store, b, depth).Some? ==> Resolve(store, b, depth).value < a
    decreases depth
  {
    if depth > 1 && store[b].parent.Some? {
      StaysBelow(store, a, store[b].parent.value, depth - 1);
    }
  }

  lemma {:induction false} SameBelow(st1: seq<Scope>, st2: seq<Scope>, a: nat, b: nat, depth: nat)
    requires ClosedBelow(st1, a) && b < a <= |st2| && SameParents(st1, st2, a)
    ensures Resolve(st1, b, depth) == Resolve(st2, b, depth)
    decreases depth
  {
    assert st1[b].parent == st2[b].parent;
    if depth > 1 && st1[b].parent.Some? {
      SameBelow(st1, st2, a, st1[b].parent.value, depth - 1);
    }
  }

  /** The two stores nest their blocks alike, but for block `a`. */
  ghost predicate SameParents(st1: seq<Scope>, st2: seq<Scope>, a: nat) {
    |st1| == |st2| && forall b | 0 <= b < |st1| && b != a :: st1[b].parent == st2[b].parent
  }

  /** A function body run in block `a`, nested in block `p` of the one store and in
      block `q` of the other, as it is by a plain and by a deferred call. From a block
      `b` of the body from which a climb of `j` blocks ends at `a`, a path no longer
      than that denotes the same in both, and a longer one denotes the same if and only
      if what is left of it does from `p` and from `q`. */
  lemma {:induction false} BodyPathsAgreeIff(st1: seq<Scope>, st2: seq<Scope>, a: nat, p: nat, q: nat, b: nat, j: nat, depth: nat)
    requires SameParents(st1, st2, a) && ClosedBelow(st1, a) && a < |st1| && p < a && q < a
    requires st1[a].parent == Some(p) && st2[a].parent == Some(q)
    requires Resolve(st1, b, j) == Some(a)
    ensures Resolve(st1, b, depth) == Resolve(st2, b, depth) <==>
            depth <= j || Resolve(st1, p, depth - j) == Resolve(st1, q, depth - j)
    decreases j
  {
    if b == a {
      if j > 1 {
        StaysBelow(st1, a, p, j - 1);
      } else if depth > 1 {
        SameBelow(st1, st2, a, q, depth - 1);
      }
    } else if depth > 1 {
      BodyPathsAgreeIff(st1, st2, a, p, q, st1[b].parent.value, j - 1, depth - 1);
    }
  }

  /** The store in which the machine runs the body of a deferred call. */
  function DeferredStore(g: Globals, d: Deferred): seq<Scope> {
    g.store + [Scope(Some(d.parent), SlotMap(d.args, 0))]
  }

  /** In the block of a deferred body every path denotes what it denotes in a plain call
      of the same function if and only if the block of the defer statement is the
      one the function was created in. */
  lemma {:induction false} DeferredPathsAgreeIff(P: Program, d: Deferred, g: Globals)
    requires P.IsFunc(d.fv) && ClosedBelow(g.store, |g.store|) && d.fv.closure < |g.store| && d.parent < |g.store|
    ensures (forall depth: nat :: PathAgrees(P, d, g, depth)) <==> d.parent == d.fv.closure
  {
    assert PathAgrees(P, d, g, 2) <==> d.parent == d.fv.closure by {
      DeferredPathAgreesIff(P, d, g, 2);
      assert Resolve(g.store, d.fv.closure, 1) == Some(d.fv.closure);
      assert Resolve(g.store, d.parent, 1) == Some(d.parent);
    }
    if d.parent == d.fv.closure {
      forall depth: nat
        ensures PathAgrees(P, d, g, depth)
      {
        DeferredPathAgreesIff(P, d, g, depth);
      }
    }
  }

  ghost predicate PathAgrees(P: Program, d: Deferred, g: Globals, depth: nat)
    requires P.IsFunc(d.fv)
  {
    Resolve(Enter(P, d.fv, d.args, g).store, |g.store|, depth) == Resolve(DeferredStore(g, d), |g.store|, depth)
  }

  lemma {:induction false} DeferredPathAgreesIff(P: Program, d: Deferred, g: Globals, depth: nat)
    requires P.IsFunc(d.fv) && ClosedBelow(g.store, |g.store|) && d.fv.closure < |g.store| && d.parent < |g.store|
    ensures PathAgrees(P, d, g, depth) <==>
            depth <= 1 || Resolve(g.store, d.fv.closure, depth - 1) == Resolve(g.store, d.parent, depth - 1)
  {
    var st1, st2, a := Enter(P, d.fv, d.args, g).store, DeferredStore(g, d), |g.store|;
    BodyPathsAgreeIff(st1, st2, a, d.fv.closure, d.parent, a, 1, depth);
    if depth > 1 {
      SameBlocks(g.store, st1, d.fv.closure, depth - 1);
      SameBlocks(g.store, st1, d.parent, depth - 1);
    }
  }

  lemma {:induction false} SameBlocks(store: seq<Scope>, st: seq<Scope>, b: nat, depth: nat)
    requires ClosedBelow(store, |store|) && b < |store| <= |st| && st[..|store|] == store
    ensures Resolve(st, b, depth) == Resolve(store, b, depth)
    decreases depth
  {
    assert st[b] == st[..|store|][b];
    if depth > 1 && store[b].parent.Some? {
      SameBlocks(store, st, store[b].parent.value, depth - 1);
    }
  }

  /** The variables of the body itself start alike, but for results: a deferred body
      finds them undefined instead of with their default values. */
  lemma DeferredSlotsAgreeIff(P: Program, d: Deferred, g: Globals, i: nat)
    requires P.IsFunc(d.fv) && |d.args| == P.FuncOf(d.fv).numParams
    ensures var fn := P.FuncOf(d.fv);
            ReadSlot(Enter(P, d.fv, d.args, g).store, |g.store|, i) == ReadSlot(DeferredStore(g, d), |g.store|, i) <==>
            i < fn.numParams || i >= fn.numParams + |fn.defaults| || fn.defaults[i - fn.numParams] == VUndef
  {
    SlotMapHolds(d.args, 0, i);
    CallSlots(d.args, P.FuncOf(d.fv), i);
  }
}
