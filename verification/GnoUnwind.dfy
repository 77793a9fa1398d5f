/** A panic through any number of calls, and a return that takes a frame for one a
    panic has unwound: where the machine is afterwards. */
module GnoUnwind {
  import opened GnoValues
  import opened GnoStacks
  import opened GnoSyntax
  import opened GnoMachine
  import opened GnoSemantics
  import opened GnoSimBase
  import opened GnoSimulation

  // ---------------------------------------------------------------- the caller's stacks

  /** The stacks from which the call of frame `fr` was made, in its package and realm. */
  function CutTo(m: State, fr: Frame, rest: List<Frame>): State
    requires fr.kind.CallFrame?
  {
    State(Chop(m.ops, fr.numOps), Chop(m.values, fr.numValues), Chop(m.exprs, fr.numExprs),
          Chop(m.stmts, fr.numStmts), Chop(m.blocks, fr.numBlocks), rest,
          Globals([], None, 0, fr.kind.lastPkg, fr.kind.lastRealm, []))
  }

  /** The saved depths of the calls are nested within the stacks. */
  ghost predicate Nested(P: Program, frames: List<Frame>, m: State)
    decreases frames
  {
    match frames
    case Nil => true
    case Cons(fr, rest) =>
      if fr.kind.LoopFrame? then Nested(P, rest, m)
      else CallDepth(fr, m) && P.IsFunc(fr.kind.fv) && Nested(P, rest, CutTo(m, fr, rest))
  }

  /** A machine with the call's frame on top, seen from the caller. */
  lemma CutSettles(m: State, fr: Frame, rest: List<Frame>, x: State) returns (a: nat)
    requires fr.kind.CallFrame? && CallDepth(fr, m) && Below(m, x, fr)
    ensures BlockAt(m.blocks, fr.numBlocks) == Some(a)
    ensures fr == CallFrameOf(CutTo(m, fr, rest), fr.kind.fv, fr.kind.defers)
    ensures Settled(CutTo(m, fr, rest), a, x)
  {
    LenChop(m.ops, fr.numOps);
    LenChop(m.values, fr.numValues);
    LenChop(m.exprs, fr.numExprs);
    LenChop(m.stmts, fr.numStmts);
    LenChop(m.blocks, fr.numBlocks);
    LenChop(m.blocks, fr.numBlocks + 1);
    ChopChop(m.blocks, fr.numBlocks + 1, fr.numBlocks);
    ChopChop(x.blocks, fr.numBlocks + 1, fr.numBlocks);
    var top := Chop(m.blocks, fr.numBlocks + 1);
    a := top.head;
    assert Chop(top, fr.numBlocks) == top.tail;
  }

  lemma {:induction false} NestedCall(P: Program, frames: List<Frame>, m: State)
    requires Nested(P, frames, m)
    ensures var t := CallTail(frames);
            t.Cons? ==> t.head.kind.CallFrame? && CallDepth(t.head, m) && P.IsFunc(t.head.kind.fv)
                        && Nested(P, t.tail, CutTo(m, t.head, t.tail))
    decreases frames
  {
    if frames.Cons? && frames.head.kind.LoopFrame? {
      NestedCall(P, frames.tail, m);
    }
  }

  /** Cutting back does not look above the frame. */
  lemma SameCut(m: State, x: State, fr: Frame, rest: List<Frame>)
    requires fr.kind.CallFrame? && Below(m, x, fr)
    ensures CutTo(x, fr, rest) == CutTo(m, fr, rest) && BlockAt(x.blocks, fr.numBlocks) == BlockAt(m.blocks, fr.numBlocks)
  {
    ChopChop(m.blocks, fr.numBlocks + 1, fr.numBlocks);
    ChopChop(x.blocks, fr.numBlocks + 1, fr.numBlocks);
  }

  // ---------------------------------------------------------------- dropped returns

  /** What the call frame on top of `frames` is returned from with: the results its
      block holds; None when there is no call frame. */
  function ReturnedFrom(P: Program, frames: List<Frame>, m: State, g: Globals): Option<State> {
    match CallTail(frames)
    case Nil => None
    case Cons(fr, rest) =>
      if !(fr.kind.CallFrame? && P.IsFunc(fr.kind.fv)) then None else
      match BlockAt(m.blocks, fr.numBlocks)
      case None => None
      case Some(a) =>
        var c, vs := CutTo(m, fr, rest), ReadResults(g.store, a, P.FuncOf(fr.kind.fv));
        Some(c.(values := PushAll(c.values, vs), g := Leave(g, c.g, rest.Nil?, vs).g))
  }

  /** A dropped return returns from the function around it. */
  lemma DropLands(P: Program, m: State, x: State, w: World)
    requires Nested(P, m.frames, m) && Dropping(m, x, w)
    ensures ReturnedFrom(P, m.frames, m, w.g).Some?
    ensures Run(P, x, 1) == Next(ReturnedFrom(P, m.frames, m, w.g).value)
  {
    hide Step, Run;
    NestedCall(P, m.frames, m);
    var fr, rest := CallTail(m.frames).head, CallTail(m.frames).tail;
    var a := CutSettles(m, fr, rest, x.(ops := x.ops.tail));
    LandsFromBlock(P, CutTo(m, fr, rest), fr.kind.fv, a, w.defers, x);
  }

  /** A return with pending deferred calls, once they have ended normally, is in its own
      caller if and only if no exception is pending then or it stands in a loop.
      Otherwise it has returned from the function its caller is in; without one
      that is a panic of the interpreter. */
  lemma {:induction false} ReturnReachesCallerIff(P: Program, fuel: nat, fv: Value, a: nat, rv: Option<seq<Value>>, inLoop: bool,
                                                  w: World, m: State, m1: State)
    returns (n: nat)
    requires P.IsFunc(fv) && Returning(Callee(m, fv, a, w), m1, rv, inLoop, w) && w.defers != []
    requires rv.Some? ==> |rv.value| == |P.FuncOf(fv).defaults|
    requires Nested(P, m.frames, m)
    requires RunDefers(P, fuel, a, Delivered(P, fv, a, rv, w)).Normal?
    ensures var w1 := RunDefers(P, fuel, a, Delivered(P, fv, a, rv, w)).w;
            var vs := ReadResults(w1.g.store, a, P.FuncOf(fv));
            if w1.g.exc.None? || inLoop then
              Run(P, m1, n) == Next(m.(values := PushAll(m.values, vs), g := Leave(w1.g, m.g, m.frames.Nil?, vs).g))
            else if CallTail(m.frames).Nil? then Run(P, m1, n) == GoPanic
            else
              && ReturnedFrom(P, m.frames, m, w1.g).Some?
              && Run(P, m1, n) == Next(ReturnedFrom(P, m.frames, m, w1.g).value)
              && Len(ReturnedFrom(P, m.frames, m, w1.g).value.frames) < Len(m.frames)
  {
    hide Step, Run, RunDefers;
    NestedCall(P, m.frames, m);
    var m2;
    n, m2 := SimFinish(P, fuel, fv, a, rv, inLoop, w, m, m1);
    var w1 := RunDefers(P, fuel, a, Delivered(P, fv, a, rv, w)).w;
    assert Finish(P, fuel, P.FuncOf(fv), a, rv, inLoop, w, m.g, m.frames.Nil?) ==
           AfterNoDefers(P.FuncOf(fv), a, inLoop, w1, m.g, m.frames.Nil?);
    if w1.g.exc.Some? && !inLoop && CallTail(m.frames).Cons? {
      DropLands(P, m, m2, World(w1.g, DefersOf(m.frames)));
      RunThen(P, m1, n, m2, 1);
      n := n + 1;
      CallTailShorter(m.frames);
    }
  }

  /** The world of a return with its results moved to the function block. */
  function Delivered(P: Program, fv: Value, a: nat, rv: Option<seq<Value>>, w: World): World
    requires P.IsFunc(fv)
  {
    if rv.Some? then World(w.g.(store := WriteResults(w.g.store, a, P.FuncOf(fv), rv.value)), w.defers) else w
  }

  lemma {:induction false} CallTailShorter(frames: List<Frame>)
    ensures Len(CallTail(frames)) <= Len(frames)
  {
    if frames.Cons? {
      CallTailShorter(frames.tail);
    }
  }

  // ---------------------------------------------------------------- unwinding

  /** Where a panic ends: back in the caller of a function, uncaught, in a panic of the
      interpreter, or not within the fuel. */
  datatype Fate = BackIn(e: State) | Escapes(g: Globals) | Fails | Late | Unknown

  /** Unwinds the calls on `frames` from the top one down, with globals `g`: the first
      whose deferred calls do not leave the panic pending ends it. */
  function Unwinds(P: Program, fuel: nat, frames: List<Frame>, m: State, g: Globals): Fate
    decreases frames
  {
    match frames
    case Nil => Escapes(g)
    case Cons(fr, rest) =>
      if fr.kind.LoopFrame? then Unwinds(P, fuel, rest, m, g)
      else if !P.IsFunc(fr.kind.fv) || BlockAt(m.blocks, fr.numBlocks).None? then Unknown
      else
        var a, c := BlockAt(m.blocks, fr.numBlocks).value, CutTo(m, fr, rest);
        match Unwind(P, fuel, P.FuncOf(fr.kind.fv), a, World(g, fr.kind.defers), c.g, rest.Nil?)
        case Ok(vs, g1) => BackIn(c.(values := PushAll(c.values, vs), g := g1))
        case Panicked(g1) => Unwinds(P, fuel, rest, c, g1)
        case Dropped(g1) =>
          (match ReturnedFrom(P, rest, c, g1)
           case Some(e) => BackIn(e)
           case None => Fails)
        case Failed => Fails
        case Timeout => Late
        case Stuck => Unknown
  }

  /** A panic is pending and the deferred calls of the top frame are about to run. */
  predicate Raised(d: State) {
    && d.ops.Cons? && d.ops.head == OpReturnCallDefers && d.ops.tail.Cons? && d.ops.tail.head == OpPanic2
    && d.g.exc.Some?
    && d.frames.Cons? && d.frames.head.kind.CallFrame?
  }

  ghost predicate Meets(P: Program, fuel: nat, d: State, n: nat, fate: Fate) {
    match fate
    case BackIn(e) => Run(P, d, n) == Next(e)
    case Escapes(g) => g.exc.Some? && Run(P, d, n) == Uncaught(g.exc.value)
    case Fails => Run(P, d, n) == GoPanic
    case Late => n >= fuel && Run(P, d, n).Next?
    case Unknown => true
  }

  /** The machine does to a panic what unwinding its frames says. */
  lemma {:induction false} UnwindingEnds(P: Program, fuel: nat, d: State) returns (n: nat)
    requires Raised(d) && Nested(P, d.frames, d.(ops := d.ops.tail.tail))
    ensures Meets(P, fuel, d, n, Unwinds(P, fuel, d.frames, d.(ops := d.ops.tail.tail), d.g))
    decreases Len(d.frames)
  {
    hide Step, Run, Unwind, CutTo;
    var fr, rest, d3 := d.frames.head, d.frames.tail, d.(ops := d.ops.tail.tail);
    var c := CutTo(d3, fr, rest);
    var a, m2;
    a, n, m2 := UnwindsOne(P, fuel, d);
    CutFrames(d3, fr, rest);
    NestedCall(P, rest, c);
    var r := Unwind(P, fuel, P.FuncOf(fr.kind.fv), a, World(d.g, fr.kind.defers), c.g, rest.Nil?);
    if r.Panicked? {
      NoCallLeft(P, fuel, rest, c, r.g);
      if CallTail(rest).Cons? {
        n := UnwindsOn(P, fuel, d, n, c, r.g, m2);
      }
    } else if r.Dropped? && CallTail(rest).Cons? {
      DropLands(P, c, m2, World(r.g, DefersOf(rest)));
      RunThen(P, d, n, m2, 1);
      n := n + 1;
    }
  }

  lemma CutFrames(m: State, fr: Frame, rest: List<Frame>)
    requires fr.kind.CallFrame?
    ensures CutTo(m, fr, rest).frames == rest
  {
  }

  lemma {:induction false} NoCallLeft(P: Program, fuel: nat, frames: List<Frame>, m: State, g: Globals)
    ensures CallTail(frames).Nil? ==> Unwinds(P, fuel, frames, m, g) == Escapes(g)
    ensures Unwinds(P, fuel, frames, m, g) == Unwinds(P, fuel, CallTail(frames), m, g)
    decreases frames
  {
    if frames.Cons? && frames.head.kind.LoopFrame? {
      NoCallLeft(P, fuel, frames.tail, m, g);
    }
  }

  /** The top call: its deferred calls run, and it returns or the panic goes on below. */
  lemma {:induction false} UnwindsOne(P: Program, fuel: nat, d: State) returns (a: nat, n: nat, m2: State)
    requires Raised(d) && Nested(P, d.frames, d.(ops := d.ops.tail.tail))
    ensures var fr, c := d.frames.head, CutTo(d.(ops := d.ops.tail.tail), d.frames.head, d.frames.tail);
            && BlockAt(d.blocks, fr.numBlocks) == Some(a)
            && ListSim(P, fuel, d, c, n, m2,
                       Unwind(P, fuel, P.FuncOf(fr.kind.fv), a, World(d.g, fr.kind.defers), c.g, c.frames.Nil?))
  {
    hide Step, Run, Unwind;
    var fr, rest, d3 := d.frames.head, d.frames.tail, d.(ops := d.ops.tail.tail);
    var c := CutTo(d3, fr, rest);
    ExtNear(d3, d3);
    BelowOfExt(d3, d3, fr);
    a := CutSettles(d3, fr, rest, d3);
    var w := World(d.g, fr.kind.defers);
    SettledIsBelow(c, fr.kind.fv, a, w, d3);
    NestedCall(P, rest, c);
    n, m2 := SimUnwind(P, fuel, fr.kind.fv, a, w, c, d);
  }

  lemma SettledIsBelow(m: State, fv: Value, a: nat, w: World, x: State)
    requires Settled(m, a, x)
    ensures Below(Callee(m, fv, a, w), x, CallFrameOf(m, fv, w.defers))
  {
    ChopCons(fv, m.values, Len(m.values));
  }

  /** The panic went on in the next call, in `m2`. */
  lemma {:induction false} UnwindsOn(P: Program, fuel: nat, d: State, k: nat, c: State, g: Globals, m2: State) returns (n: nat)
    requires Run(P, d, k) == Next(m2) && Unwinding(c, m2, World(g, DefersOf(c.frames)))
    requires Nested(P, c.frames, c) && Len(c.frames) < Len(d.frames)
    ensures Meets(P, fuel, d, n, Unwinds(P, fuel, CallTail(c.frames), c, g))
    decreases Len(d.frames), 0
  {
    hide Step, Run, Unwind, Unwinds, CutTo, Nested;
    RaisedIn(P, fuel, c, g, m2);
    CallTailShorter(c.frames);
    n := UnwindingEnds(P, fuel, m2);
    RunThen(P, d, k, m2, n);
    n := k + n;
  }

  /** A panic that has come to the function running in `c`. */
  lemma RaisedIn(P: Program, fuel: nat, c: State, g: Globals, m2: State)
    requires Unwinding(c, m2, World(g, DefersOf(c.frames))) && Nested(P, c.frames, c)
    ensures Raised(m2) && m2.frames == CallTail(c.frames) && m2.g == g && Nested(P, m2.frames, m2.(ops := m2.ops.tail.tail))
    ensures Unwinds(P, fuel, m2.frames, m2.(ops := m2.ops.tail.tail), g) == Unwinds(P, fuel, CallTail(c.frames), c, g)
  {
    hide Unwind, CutTo;
    NestedCall(P, c.frames, c);
    SetDefersFacts(c.frames, [], []);
    SetDefersFacts(CallTail(c.frames), [], []);
    var fr, rest, x := CallTail(c.frames).head, CallTail(c.frames).tail, m2.(ops := m2.ops.tail.tail);
    SameCut(c, x, fr, rest);
  }

  /** A panic out of an expression unwinds the calls it is evaluated in. */
  lemma {:induction false} PanicOutOf(P: Program, fuel: nat, e: Expr, m: State) returns (n: nat)
    requires m.blocks.Cons? && CallTail(m.frames).Cons? && Nested(P, m.frames, m)
    requires Eval(P, fuel, e, m.blocks.head, m.frames.Nil?, m.g).Panicked?
    ensures Meets(P, fuel, PushEval(m, e), n,
                  Unwinds(P, fuel, m.frames, m, Eval(P, fuel, e, m.blocks.head, m.frames.Nil?, m.g).g))
  {
    hide Step, Run, Unwind, Unwinds, CutTo, Nested, Eval;
    NestedCall(P, m.frames, m);
    var g := Eval(P, fuel, e, m.blocks.head, m.frames.Nil?, m.g).g;
    var n1, m2 := SimExpr(P, fuel, e, m);
    RaisedIn(P, fuel, m, g, m2);
    NoCallLeft(P, fuel, m.frames, m, g);
    n := UnwindingEnds(P, fuel, m2);
    RunThen(P, PushEval(m, e), n1, m2, n);
    n := n1 + n;
  }

  /** Calls nest: the frame of a call made from a nested machine is nested in it. */
  lemma CallNests(P: Program, m: State, fv: Value, a: nat, w: World)
    requires Nested(P, m.frames, m) && P.IsFunc(fv)
    ensures Nested(P, Callee(m, fv, a, w).frames, Callee(m, fv, a, w))
  {
    var k := Callee(m, fv, a, w);
    var fr := k.frames.head;
    ChopCons(fv, m.values, Len(m.values));
    ChopCons(a, m.blocks, Len(m.blocks));
    assert CutTo(k, fr, m.frames) == m.(g := CutTo(k, fr, m.frames).g);
    NestedStacks(P, m.frames, m, CutTo(k, fr, m.frames));
  }

  lemma {:induction false} NestedStacks(P: Program, frames: List<Frame>, m: State, x: State)
    requires Nested(P, frames, m) && x == m.(g := x.g)
    ensures Nested(P, frames, x)
    decreases frames
  {
    if frames.Cons? && frames.head.kind.LoopFrame? {
      NestedStacks(P, frames.tail, m, x);
    }
  }

  // ---------------------------------------------------------------- deferred bodies that end normally

  /** Along the unwinding, the deferred bodies of every call it reaches end normally in
      the world it is reached in. */
  ghost predicate EndNormally(P: Program, fuel: nat, frames: List<Frame>, m: State, g: Globals)
    decreases frames
  {
    match frames
    case Nil => true
    case Cons(fr, rest) =>
      if fr.kind.LoopFrame? then EndNormally(P, fuel, rest, m, g)
      else
        && P.IsFunc(fr.kind.fv) && BlockAt(m.blocks, fr.numBlocks).Some?
        && var o := RunDefers(P, fuel, BlockAt(m.blocks, fr.numBlocks).value, World(g, fr.kind.defers));
           o.Normal? && (o.w.g.exc.Some? ==> EndNormally(P, fuel, rest, CutTo(m, fr, rest), o.w.g))
  }

  /** The machine after the first call on the way whose deferred calls leave no exception
      pending has returned; None if there is no such call. */
  function Recoverer(P: Program, fuel: nat, frames: List<Frame>, m: State, g: Globals): Option<State>
    decreases frames
  {
    match frames
    case Nil => None
    case Cons(fr, rest) =>
      if fr.kind.LoopFrame? then Recoverer(P, fuel, rest, m, g)
      else if !P.IsFunc(fr.kind.fv) || BlockAt(m.blocks, fr.numBlocks).None? then None
      else
        var o := RunDefers(P, fuel, BlockAt(m.blocks, fr.numBlocks).value, World(g, fr.kind.defers));
        if !o.Normal? then None
        else if o.w.g.exc.None? then ReturnedFrom(P, frames, m, o.w.g)
        else Recoverer(P, fuel, rest, CutTo(m, fr, rest), o.w.g)
  }

  lemma {:induction false} FateOfNormal(P: Program, fuel: nat, frames: List<Frame>, m: State, g: Globals)
    requires EndNormally(P, fuel, frames, m, g)
    ensures var r, fate := Recoverer(P, fuel, frames, m, g), Unwinds(P, fuel, frames, m, g);
            if r.Some? then fate == BackIn(r.value) else fate.Escapes?
    decreases frames
  {
    hide CutTo, RunDefers;
    if frames.Cons? {
      var fr, rest := frames.head, frames.tail;
      if fr.kind.LoopFrame? {
        FateOfNormal(P, fuel, rest, m, g);
      } else {
        var o := RunDefers(P, fuel, BlockAt(m.blocks, fr.numBlocks).value, World(g, fr.kind.defers));
        if o.w.g.exc.Some? {
          FateOfNormal(P, fuel, rest, CutTo(m, fr, rest), o.w.g);
        }
      }
    }
  }

  /** Unwinding through deferred bodies that end normally ends: back in the caller of the
      first call whose deferred calls recovered, and uncaught exactly when none did. */
  lemma {:induction false} UnwindingTerminates(P: Program, fuel: nat, d: State) returns (n: nat)
    requires Raised(d) && Nested(P, d.frames, d.(ops := d.ops.tail.tail))
    requires EndNormally(P, fuel, d.frames, d.(ops := d.ops.tail.tail), d.g)
    ensures var r := Recoverer(P, fuel, d.frames, d.(ops := d.ops.tail.tail), d.g);
            && (Run(P, d, n).Uncaught? <==> r.None?)
            && (r.Some? ==> Run(P, d, n) == Next(r.value))
  {
    hide Run, Recoverer, Unwinds;
    n := UnwindingEnds(P, fuel, d);
    FateOfNormal(P, fuel, d.frames, d.(ops := d.ops.tail.tail), d.g);
  }
}
