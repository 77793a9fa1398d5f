/** What it means for a machine run to realise an outcome of the structured
    semantics, and how such runs compose. */
module GnoSimBase {
  import opened GnoValues
  import opened GnoStacks
  import opened GnoSyntax
  import opened GnoMachine
  import opened GnoSemantics

  // ---------------------------------------------------------------- extension

  /** `l2` is `l` with up to four entries pushed. */
  predicate Near<T(==)>(l: List<T>, l2: List<T>) {
    l2 == l || (l2.Cons? && (l2.tail == l || (l2.tail.Cons? && (l2.tail.tail == l ||
      (l2.tail.tail.Cons? && (l2.tail.tail.tail == l ||
        (l2.tail.tail.tail.Cons? && l2.tail.tail.tail.tail == l)))))))
  }

  ghost predicate OnTop<T>(l: List<T>, l2: List<T>) {
    Len(l) <= Len(l2) && Chop(l2, Len(l)) == l
  }

  /** Every stack of `m2` has the one of `m` at its bottom. */
  ghost predicate Ext(m: State, m2: State) {
    && OnTop(m.ops, m2.ops)
    && OnTop(m.values, m2.values)
    && OnTop(m.exprs, m2.exprs)
    && OnTop(m.stmts, m2.stmts)
    && OnTop(m.blocks, m2.blocks)
  }

  lemma ChopCons<T>(x: T, l: List<T>, n: nat)
    requires n <= Len(l)
    ensures Len(Cons(x, l)) == Len(l) + 1
    ensures Chop(Cons(x, l), n) == Chop(l, n)
  {
  }

  lemma OnTopCons<T>(l: List<T>, l2: List<T>, x: T)
    requires OnTop(l, l2)
    ensures OnTop(l, Cons(x, l2))
  {
    ChopCons(x, l2, Len(l));
  }

  lemma NearOnTop<T>(l: List<T>, l2: List<T>)
    requires Near(l, l2)
    ensures OnTop(l, l2)
    decreases l2
  {
    if l2 == l {
    } else if l2.tail == l {
      OnTopCons(l, l, l2.head);
    } else if l2.tail.tail == l {
      OnTopCons(l, l, l2.tail.head);
      OnTopCons(l, l2.tail, l2.head);
    } else if l2.tail.tail.tail == l {
      OnTopCons(l, l, l2.tail.tail.head);
      OnTopCons(l, l2.tail.tail, l2.tail.head);
      OnTopCons(l, l2.tail, l2.head);
    } else {
      OnTopCons(l, l, l2.tail.tail.tail.head);
      OnTopCons(l, l2.tail.tail.tail, l2.tail.tail.head);
      OnTopCons(l, l2.tail.tail, l2.tail.head);
      OnTopCons(l, l2.tail, l2.head);
    }
  }

  lemma ExtNear(m: State, m2: State)
    requires Near(m.ops, m2.ops) && Near(m.values, m2.values) && Near(m.exprs, m2.exprs)
    requires Near(m.stmts, m2.stmts) && Near(m.blocks, m2.blocks)
    ensures Ext(m, m2)
  {
    NearOnTop(m.ops, m2.ops);
    NearOnTop(m.values, m2.values);
    NearOnTop(m.exprs, m2.exprs);
    NearOnTop(m.stmts, m2.stmts);
    NearOnTop(m.blocks, m2.blocks);
  }

  lemma OnTopTrans<T>(a: List<T>, b: List<T>, c: List<T>)
    requires OnTop(a, b) && OnTop(b, c)
    ensures OnTop(a, c)
  {
    ChopChop(c, Len(b), Len(a));
  }

  lemma ExtTrans(a: State, b: State, c: State)
    requires Ext(a, b) && Ext(b, c)
    ensures Ext(a, c)
  {
    OnTopTrans(a.ops, b.ops, c.ops);
    OnTopTrans(a.values, b.values, c.values);
    OnTopTrans(a.exprs, b.exprs, c.exprs);
    OnTopTrans(a.stmts, b.stmts, c.stmts);
    OnTopTrans(a.blocks, b.blocks, c.blocks);
  }

  lemma OnTopChop<T>(l: List<T>, l2: List<T>, n: nat)
    requires OnTop(l, l2) && n <= Len(l)
    ensures Chop(l2, n) == Chop(l, n)
  {
    ChopChop(l2, Len(l), n);
  }

  /** Queueing expressions or pushing values keeps what is below. */
  lemma ExtEvals(m: State, es: seq<Expr>)
    ensures Ext(m, PushEvals(m, es))
    ensures PushEvals(m, es) == m.(exprs := PushEvals(m, es).exprs, ops := PushEvals(m, es).ops)
  {
    if es == [] {
      ExtNear(m, m);
    } else {
      ExtEvals(m, es[1..]);
      var m1 := PushEvals(m, es[1..]);
      ExtNear(m1, PushEval(m1, es[0]));
      ExtTrans(m, m1, PushEval(m1, es[0]));
    }
  }

  // ---------------------------------------------------------------- frames

  predicate CallDepth(fr: Frame, m: State) {
    Deeper(m, fr) && fr.numBlocks < Len(m.blocks)
  }

  predicate LoopDepth(fr: Frame, m: State)
    requires fr.kind.LoopFrame?
  {
    && Deeper(m, fr)
    && fr.numOps < Len(m.ops)
    && fr.numValues + (if fr.kind.isRange then 1 else 0) <= Len(m.values)
    && fr.numStmts < Len(m.stmts)
    && fr.numBlocks < Len(m.blocks)
  }

  /** The frames of the running function lie within the stacks. */
  ghost predicate FramesWithin(frames: List<Frame>, m: State) {
    match frames
    case Nil => true
    case Cons(fr, rest) =>
      if fr.kind.CallFrame? then CallDepth(fr, m) else LoopDepth(fr, m) && FramesWithin(rest, m)
  }

  ghost predicate FramesOK(m: State) {
    FramesWithin(m.frames, m)
  }

  /** The depths saved by the running call lie within the stacks. */
  ghost predicate CallOK(m: State) {
    CallTail(m.frames).Cons? ==> CallDepth(CallTail(m.frames).head, m)
  }

  lemma CallTailIsCall(frames: List<Frame>)
    ensures CallTail(frames).Cons? ==> CallTail(frames).head.kind.CallFrame?
  {
  }

  lemma CallExt(m: State, m2: State)
    requires Ext(m, m2) && CallTail(m2.frames) == CallTail(m.frames) && CallOK(m)
    ensures CallOK(m2)
  {
  }

  lemma FramesWithinExt(frames: List<Frame>, m: State, m2: State)
    requires Ext(m, m2) && FramesWithin(frames, m)
    ensures FramesWithin(frames, m2)
  {
  }

  /** Setting the deferred calls of the running function changes nothing else. */
  lemma SetDefersFacts(frames: List<Frame>, ds: seq<Deferred>, es: seq<Deferred>)
    ensures SetDefers(SetDefers(frames, ds), es) == SetDefers(frames, es)
    ensures CallTail(SetDefers(frames, ds)) == SetDefers(CallTail(frames), ds)
    ensures CallTail(CallTail(frames)) == CallTail(frames)
    ensures CallTail(frames).Cons? ==> DefersOf(SetDefers(frames, ds)) == ds
    ensures SetDefers(frames, DefersOf(frames)) == frames
    ensures DefersOf(CallTail(frames)) == DefersOf(frames)
    ensures SetDefers(frames, ds).Nil? == frames.Nil?
  {
  }

  lemma FramesWithinDefers(frames: List<Frame>, ds: seq<Deferred>, m: State)
    ensures FramesWithin(SetDefers(frames, ds), m) == FramesWithin(frames, m)
  {
  }

  function SetW(m: State, w: World): State {
    m.(g := w.g, frames := SetDefers(m.frames, w.defers))
  }

  function WorldOf(m: State): World {
    World(m.g, DefersOf(m.frames))
  }

  lemma FramesOKSetW(m: State, w: World)
    requires FramesOK(m)
    ensures FramesOK(SetW(m, w))
    ensures m.(g := w.g) == SetW(m, World(w.g, DefersOf(m.frames)))
  {
    SetDefersFacts(m.frames, w.defers, w.defers);
    FramesWithinDefers(m.frames, w.defers, m);
    FramesWithinExtSame(SetDefers(m.frames, w.defers), m, SetW(m, w));
  }

  lemma FramesWithinExtSame(frames: List<Frame>, m: State, m2: State)
    requires FramesWithin(frames, m)
    requires m2.ops == m.ops && m2.values == m.values && m2.exprs == m.exprs
    requires m2.stmts == m.stmts && m2.blocks == m.blocks
    ensures FramesWithin(frames, m2)
  {
  }

  // ---------------------------------------------------------------- runs

  lemma StepThen(P: Program, m: State, m1: State, n: nat)
    requires Step(P, m) == Next(m1)
    ensures Run(P, m, n + 1) == Run(P, m1, n)
  {
  }

  lemma RunThen(P: Program, m: State, a: nat, m1: State, b: nat)
    requires Run(P, m, a) == Next(m1)
    ensures Run(P, m, a + b) == Run(P, m1, b)
  {
    RunAdd(P, m, a, b);
  }

  // ---------------------------------------------------------------- one dispatch

  lemma Once(P: Program, m: State)
    ensures Run(P, m, 1) == Step(P, m)
  {
    assert Run(P, m, 1) == RunFrom(P, Step(P, m), 0);
  }

  lemma StepEval(P: Program, m: State, e: Expr)
    ensures Step(P, PushEval(m, e)) == DoOpEval(m.(exprs := Cons(e, m.exprs)))
  {
  }

  lemma OnLogic(P: Program, m: State)
    requires m.ops.Cons? && (m.ops.head.OpLand? || m.ops.head.OpLor?)
    ensures Run(P, m, 1) == Step(P, m) == DoOpLogic(m.(ops := m.ops.tail), m.ops.head.OpLand?)
  {
    Once(P, m);
  }

  lemma OnPopValue(P: Program, m: State)
    requires m.ops.Cons? && m.ops.head.OpPopValue? && m.values.Cons?
    ensures Run(P, m, 1) == Step(P, m) == Next(m.(ops := m.ops.tail, values := m.values.tail))
  {
    Once(P, m);
  }

  lemma OnPopBlock(P: Program, m: State)
    requires m.ops.Cons? && m.ops.head.OpPopBlock? && m.blocks.Cons?
    ensures Run(P, m, 1) == Step(P, m) == Next(m.(ops := m.ops.tail, blocks := m.blocks.tail))
  {
    Once(P, m);
  }

  lemma OnUnary(P: Program, m: State)
    requires m.ops.Cons? && m.ops.head.OpUnary?
    ensures Run(P, m, 1) == Step(P, m) == DoOpUnary(m.(ops := m.ops.tail), m.ops.head.u)
  {
    Once(P, m);
  }

  lemma OnBinary(P: Program, m: State)
    requires m.ops.Cons? && m.ops.head.OpBinary?
    ensures Run(P, m, 1) == Step(P, m) == DoOpBinary(m.(ops := m.ops.tail), m.ops.head.b)
  {
    Once(P, m);
  }

  lemma OnBinary1(P: Program, m: State)
    requires m.ops.Cons? && m.ops.head.OpBinary1?
    ensures Run(P, m, 1) == Step(P, m) == DoOpBinary1(m.(ops := m.ops.tail))
  {
    Once(P, m);
  }

  lemma OnFuncLit(P: Program, m: State)
    requires m.ops.Cons? && m.ops.head.OpFuncLit?
    ensures Run(P, m, 1) == Step(P, m) == DoOpFuncLit(m.(ops := m.ops.tail))
  {
    Once(P, m);
  }

  lemma OnPrecall(P: Program, m: State)
    requires m.ops.Cons? && m.ops.head.OpPrecall?
    ensures Run(P, m, 1) == Step(P, m) == DoOpPrecall(P, m.(ops := m.ops.tail))
  {
    Once(P, m);
  }

  lemma OnCall(P: Program, m: State)
    requires m.ops.Cons? && m.ops.head.OpCall?
    ensures Run(P, m, 1) == Step(P, m) == DoOpCall(P, m.(ops := m.ops.tail))
  {
    Once(P, m);
  }

  lemma OnNative(P: Program, m: State)
    requires m.ops.Cons? && m.ops.head.OpCallNativeBody?
    ensures Run(P, m, 1) == Step(P, m) == DoOpCallNativeBody(m.(ops := m.ops.tail))
  {
    Once(P, m);
  }

  lemma OnReturn(P: Program, m: State)
    requires m.ops.Cons? && m.ops.head.OpReturn?
    ensures Run(P, m, 1) == Step(P, m) == DoOpReturn(P, m.(ops := m.ops.tail))
  {
    Once(P, m);
  }

  lemma OnReturnFromBlock(P: Program, m: State)
    requires m.ops.Cons? && m.ops.head.OpReturnFromBlock?
    ensures Run(P, m, 1) == Step(P, m) == DoOpReturnFromBlock(P, m.(ops := m.ops.tail))
  {
    Once(P, m);
  }

  lemma OnReturnToBlock(P: Program, m: State)
    requires m.ops.Cons? && m.ops.head.OpReturnToBlock?
    ensures Run(P, m, 1) == Step(P, m) == DoOpReturnToBlock(P, m.(ops := m.ops.tail))
  {
    Once(P, m);
  }

  lemma OnCallDefers(P: Program, m: State)
    requires m.ops.Cons? && m.ops.head.OpReturnCallDefers?
    ensures Run(P, m, 1) == Step(P, m) == DoOpReturnCallDefers(P, m)
  {
    Once(P, m);
  }

  lemma OnDefer(P: Program, m: State)
    requires m.ops.Cons? && m.ops.head.OpDefer?
    ensures Run(P, m, 1) == Step(P, m) == DoOpDefer(P, m.(ops := m.ops.tail))
  {
    Once(P, m);
  }

  lemma OnPanic1(P: Program, m: State)
    requires m.ops.Cons? && m.ops.head.OpPanic1?
    ensures Run(P, m, 1) == Step(P, m) == DoOpPanic1(m.(ops := m.ops.tail))
  {
    Once(P, m);
  }

  lemma OnPanic2(P: Program, m: State)
    requires m.ops.Cons? && m.ops.head.OpPanic2?
    ensures Run(P, m, 1) == Step(P, m) == DoOpPanic2(m.(ops := m.ops.tail))
  {
    Once(P, m);
  }

  lemma OnIfCond(P: Program, m: State)
    requires m.ops.Cons? && m.ops.head.OpIfCond?
    ensures Run(P, m, 1) == Step(P, m) == DoOpIfCond(m.(ops := m.ops.tail))
  {
    Once(P, m);
  }

  lemma OnPopResults(P: Program, m: State)
    requires m.ops.Cons? && m.ops.head.OpPopResults?
    ensures Run(P, m, 1) == Step(P, m) == DoPopResults(m.(ops := m.ops.tail))
  {
    Once(P, m);
  }

  lemma OnAssign(P: Program, m: State)
    requires m.ops.Cons? && m.ops.head.OpAssign?
    ensures Run(P, m, 1) == Step(P, m) == DoOpAssign(m.(ops := m.ops.tail))
  {
    Once(P, m);
  }

  lemma OnExec(P: Program, m: State)
    requires m.ops.Cons? && m.ops.head.OpExec?
    ensures Run(P, m, 1) == Step(P, m) == DoOpExec(P, m.(ops := m.ops.tail))
  {
    Once(P, m);
  }

  lemma OnBody(P: Program, m: State)
    requires m.ops.Cons? && m.ops.head.OpBody?
    ensures Run(P, m, 1) == Step(P, m) == DoOpBody(P, m)
  {
    Once(P, m);
  }

  lemma OnForLoop(P: Program, m: State)
    requires m.ops.Cons? && m.ops.head.OpForLoop?
    ensures Run(P, m, 1) == Step(P, m) == DoOpForLoop(P, m)
  {
    Once(P, m);
  }

  lemma OnRangeIter(P: Program, m: State)
    requires m.ops.Cons? && m.ops.head.OpRangeIter?
    ensures Run(P, m, 1) == Step(P, m) == DoOpRangeIter(P, m)
  {
    Once(P, m);
  }

  // ---------------------------------------------------------------- outcomes

  /** Below the depths saved in call frame `fr`, and in its function block,
      `m2` still holds what `m` held. */
  ghost predicate Below(m: State, m2: State, fr: Frame) {
    && Deeper(m2, fr) && fr.numBlocks < Len(m2.blocks)
    && Chop(m2.ops, fr.numOps) == Chop(m.ops, fr.numOps)
    && Chop(m2.values, fr.numValues) == Chop(m.values, fr.numValues)
    && Chop(m2.exprs, fr.numExprs) == Chop(m.exprs, fr.numExprs)
    && Chop(m2.stmts, fr.numStmts) == Chop(m.stmts, fr.numStmts)
    && Chop(m2.blocks, fr.numBlocks + 1) == Chop(m.blocks, fr.numBlocks + 1)
  }

  lemma BelowExt(m: State, mA: State, m2: State, fr: Frame)
    requires Ext(m, mA) && CallDepth(fr, m) && Below(mA, m2, fr)
    ensures Below(m, m2, fr)
  {
    OnTopChop(m.ops, mA.ops, fr.numOps);
    OnTopChop(m.values, mA.values, fr.numValues);
    OnTopChop(m.exprs, mA.exprs, fr.numExprs);
    OnTopChop(m.stmts, mA.stmts, fr.numStmts);
    OnTopChop(m.blocks, mA.blocks, fr.numBlocks + 1);
  }

  /** A panic has reached the function running in `m`: its deferred calls are next. */
  ghost predicate Unwinding(m: State, m2: State, w: World) {
    && CallTail(m.frames).Cons?
    && m2.g == w.g && w.g.exc.Some?
    && m2.frames == SetDefers(CallTail(m.frames), w.defers)
    && m2.ops.Cons? && m2.ops.head == OpReturnCallDefers
    && m2.ops.tail.Cons? && m2.ops.tail.head == OpPanic2
    && Below(m, m2.(ops := m2.ops.tail.tail), CallTail(m.frames).head)
  }

  /** A return has taken the frame of its own function for an unwound one: the
      function running in `m` is about to be returned from. */
  ghost predicate Dropping(m: State, m2: State, w: World) {
    && CallTail(m.frames).Cons?
    && m2.g == w.g
    && CallTail(m2.frames) == SetDefers(CallTail(m.frames), w.defers)
    && m2.ops.Cons? && m2.ops.head == OpReturnFromBlock
    && Below(m, m2.(ops := m2.ops.tail), CallTail(m.frames).head)
  }

  /** The same call is running, whatever its pending deferred calls. */
  ghost predicate SameCall(m: State, m2: State) {
    SetDefers(CallTail(m.frames), []) == SetDefers(CallTail(m2.frames), [])
  }

  lemma SameCallFacts(m: State, m2: State, ds: seq<Deferred>)
    requires SameCall(m, m2)
    ensures CallTail(m.frames).Nil? == CallTail(m2.frames).Nil?
    ensures SetDefers(CallTail(m.frames), ds) == SetDefers(CallTail(m2.frames), ds)
    ensures CallTail(m.frames).Cons? && CallDepth(CallTail(m.frames).head, m) ==>
              CallDepth(CallTail(m2.frames).head, m)
    ensures forall x :: CallTail(m.frames).Cons? && Below(m, x, CallTail(m2.frames).head) ==>
              Below(m, x, CallTail(m.frames).head)
  {
    CallTailIsCall(m.frames);
    CallTailIsCall(m2.frames);
  }

  lemma UnwindingExt(m: State, mA: State, m2: State, w: World)
    requires Ext(m, mA) && CallOK(m) && Unwinding(mA, m2, w) && SameCall(m, mA)
    ensures Unwinding(m, m2, w)
  {
    SameCallFacts(m, mA, w.defers);
    BelowExt(m, mA, m2.(ops := m2.ops.tail.tail), CallTail(mA.frames).head);
  }

  lemma DroppingExt(m: State, mA: State, m2: State, w: World)
    requires Ext(m, mA) && CallOK(m) && Dropping(mA, m2, w) && SameCall(m, mA)
    ensures Dropping(m, m2, w)
  {
    SameCallFacts(m, mA, w.defers);
    BelowExt(m, mA, m2.(ops := m2.ops.tail), CallTail(mA.frames).head);
  }

  /** How a run from `start` realises an evaluation begun in `m` that gives no value. */
  ghost predicate AbortSim<T>(P: Program, fuel: nat, start: State, m: State, n: nat, m2: State, r: EvalR<T>)
    requires !r.Ok?
  {
    match r
    case Failed => Run(P, start, n) == GoPanic
    case Timeout => n >= fuel && Run(P, start, n).Next?
    case Panicked(g) =>
      if CallTail(m.frames).Nil? then g.exc.Some? && Run(P, start, n) == Uncaught(g.exc.value)
      else Run(P, start, n) == Next(m2) && Unwinding(m, m2, World(g, DefersOf(m.frames)))
    case Dropped(g) =>
      if CallTail(m.frames).Nil? then Run(P, start, n) == GoPanic
      else Run(P, start, n) == Next(m2) && Dropping(m, m2, World(g, DefersOf(m.frames)))
    case Stuck => true
  }

  ghost predicate ExprSim(P: Program, fuel: nat, start: State, m: State, n: nat, m2: State, r: EvalR<Value>) {
    if r.Ok? then Run(P, start, n) == Next(m.(values := Cons(r.v, m.values), g := r.g))
    else AbortSim(P, fuel, start, m, n, m2, r)
  }

  ghost predicate ListSim(P: Program, fuel: nat, start: State, m: State, n: nat, m2: State, r: EvalR<seq<Value>>) {
    if r.Ok? then Run(P, start, n) == Next(m.(values := PushAll(m.values, r.v), g := r.g))
    else AbortSim(P, fuel, start, m, n, m2, r)
  }

  /** A failing evaluation inside a larger one fails the larger one. */
  lemma Propagate<T, U>(P: Program, fuel: nat, start: State, a: nat, start1: State,
                        m: State, mA: State, n: nat, m2: State, r: EvalR<T>, r2: EvalR<U>)
    requires !r.Ok? && r2 == Recast(r)
    requires Run(P, start, a) == Next(start1)
    requires AbortSim(P, fuel, start1, mA, n, m2, r)
    requires Ext(m, mA) && mA.frames == m.frames && CallOK(m)
    ensures AbortSim(P, fuel, start, m, a + n, m2, r2)
  {
    RunThen(P, start, a, start1, n);
    if r.Panicked? && CallTail(m.frames).Cons? {
      UnwindingExt(m, mA, m2, World(r.g, DefersOf(m.frames)));
    } else if r.Dropped? && CallTail(m.frames).Cons? {
      DroppingExt(m, mA, m2, World(r.g, DefersOf(m.frames)));
    }
  }

  // ---------------------------------------------------------------- statements

  /** The machine `mt` executing a body: its record on top of the statements. */
  function WithBody(mt: State, b: BodyStmt): State {
    mt.(stmts := Cons(SBody(b), mt.stmts))
  }

  /** The label names a loop of the running function. */
  ghost predicate Bound(frames: List<Frame>, lab: string) {
    match frames
    case Nil => false
    case Cons(fr, rest) => fr.kind.LoopFrame? && (Targets(fr, lab) || Bound(rest, lab))
  }

  lemma BoundDefers(frames: List<Frame>, ds: seq<Deferred>, lab: string)
    ensures Bound(SetDefers(frames, ds), lab) == Bound(frames, lab)
  {
  }

  /** The ops a return leaves to be done. */
  predicate HasRet(ops: List<Op>, rv: Option<seq<Value>>, ds: seq<Deferred>) {
    if ds == [] then ops.Cons? && ops.head == (if rv.None? then OpReturnFromBlock else OpReturn)
    else if rv.None? then
      ops.Cons? && ops.head == OpReturnCallDefers && ops.tail.Cons? && ops.tail.head == OpReturnFromBlock
    else
      && ops.Cons? && ops.head == OpReturnToBlock
      && ops.tail.Cons? && ops.tail.head == OpReturnCallDefers
      && ops.tail.tail.Cons? && ops.tail.tail.head == OpReturnFromBlock
  }

  function RetRest(ops: List<Op>, rv: Option<seq<Value>>, ds: seq<Deferred>): List<Op>
    requires HasRet(ops, rv, ds)
  {
    if ds == [] then ops.tail else if rv.None? then ops.tail.tail else ops.tail.tail.tail
  }

  function RetValues(rv: Option<seq<Value>>): seq<Value> {
    if rv.Some? then rv.value else []
  }

  predicate LoopTop(m: State) {
    m.frames.Cons? && m.frames.head.kind.LoopFrame?
  }

  /** A return statement has evaluated its results: they are on top of the
      values, and the returning ops on top of the ops; `inLoop` says that it is in
      a loop begun since `m`. */
  ghost predicate Returning(m: State, m2: State, rv: Option<seq<Value>>, inLoop: bool, w: World) {
    && CallTail(m.frames).Cons?
    && (LoopTop(m2) <==> inLoop || LoopTop(m))
    && m2.g == w.g
    && CallTail(m2.frames) == SetDefers(CallTail(m.frames), w.defers)
    && HasRet(m2.ops, rv, w.defers)
    && |RetValues(rv)| <= Len(m2.values)
    && TopN(m2.values, |RetValues(rv)|) == RetValues(rv)
    && var m3 := m2.(ops := RetRest(m2.ops, rv, w.defers), values := DropN(m2.values, |RetValues(rv)|));
       Below(m, m3, CallTail(m.frames).head) && FramesOK(m3)
  }

  lemma ReturningExt(m: State, mA: State, m2: State, rv: Option<seq<Value>>, inLoopA: bool, inLoop: bool, w: World)
    requires Ext(m, mA) && CallOK(m) && Returning(mA, m2, rv, inLoopA, w) && SameCall(m, mA)
    requires (inLoop || LoopTop(m)) == (inLoopA || LoopTop(mA))
    ensures Returning(m, m2, rv, inLoop, w)
  {
    SameCallFacts(m, mA, w.defers);
    BelowExt(m, mA, m2.(ops := RetRest(m2.ops, rv, w.defers), values := DropN(m2.values, |RetValues(rv)|)),
             CallTail(mA.frames).head);
  }

  lemma BelowOfExt(m: State, m2: State, fr: Frame)
    requires Ext(m, m2) && CallDepth(fr, m)
    ensures Below(m, m2, fr)
  {
    OnTopChop(m.ops, m2.ops, fr.numOps);
    OnTopChop(m.values, m2.values, fr.numValues);
    OnTopChop(m.exprs, m2.exprs, fr.numExprs);
    OnTopChop(m.stmts, m2.stmts, fr.numStmts);
    OnTopChop(m.blocks, m2.blocks, fr.numBlocks + 1);
  }

  /** The return ops queued for results of the function's own number. */
  predicate Fits(P: Program, m: State, rv: Option<seq<Value>>) {
    && CallTail(m.frames).Cons? && CallTail(m.frames).head.kind.CallFrame?
    && P.IsFunc(CallTail(m.frames).head.kind.fv)
    && (rv.Some? ==> |rv.value| == |P.FuncOf(CallTail(m.frames).head.kind.fv).defaults|)
  }

  /** How the run after dispatch result `r0` realises a statement executed from
      body `b` in `mt`. On normal completion only the body's active statement
      may differ (`act`); a branch is where its loop puts it; a return and a
      panic are on their way to the frame of the running call. */
  ghost predicate StmtSim(P: Program, fuel: nat, r0: Res, mt: State, b: BodyStmt,
                          n: nat, act: Option<Stmt>, m2: State, o: Outcome)
  {
    match o
    case Normal(w) => RunFrom(P, r0, n) == Next(WithBody(SetW(mt, w), b.(active := act)))
    case Breaks(l, w) =>
      Bound(mt.frames, l) ==> RunFrom(P, r0, n) == DoBreak(WithBody(SetW(mt, w), b.(active := act)), l)
    case Continues(l, w) =>
      Bound(mt.frames, l) ==> RunFrom(P, r0, n) == DoContinue(WithBody(SetW(mt, w), b.(active := act)), l)
    case Returns(rv, inLoop, w) => Fits(P, mt, rv) ==> RunFrom(P, r0, n) == Next(m2) && Returning(mt, m2, rv, inLoop, w)
    case Panics(w) => RunFrom(P, r0, n) == Next(m2) && Unwinding(mt, m2, w)
    case Drops(w) => RunFrom(P, r0, n) == Next(m2) && Dropping(mt, m2, w)
    case SFailed => RunFrom(P, r0, n) == GoPanic
    case STimeout => n >= fuel && RunFrom(P, r0, n).Next?
    case SStuck => true
  }

  /** Block `act` is the function block of the call running in `m`. */
  ghost predicate ActIs(m: State, act: nat) {
    CallTail(m.frames).Cons? && BlockAt(m.blocks, CallTail(m.frames).head.numBlocks) == Some(act)
  }

  lemma ActExt(m: State, m2: State, act: nat)
    requires ActIs(m, act) && Ext(m, m2) && SameCall(m, m2) && CallOK(m)
    ensures ActIs(m2, act)
  {
    SameCallFacts(m, m2, []);
    CallTailIsCall(m.frames);
    CallTailIsCall(m2.frames);
    OnTopChop(m.blocks, m2.blocks, CallTail(m.frames).head.numBlocks + 1);
  }

  /** What a statement needs of the machine that executes it. */
  ghost predicate StmtPre(P: Program, act: nat, mt: State, b: BodyStmt) {
    && mt.blocks.Cons?
    && ActIs(mt, act)
    && CallOK(mt)
    && FramesOK(WithBody(mt, b))
    && CallTail(mt.frames).head.kind.CallFrame?
    && P.IsFunc(CallTail(mt.frames).head.kind.fv)
  }

  lemma FramesWithinLonger(frames: List<Frame>, m: State, m2: State)
    requires FramesWithin(frames, m)
    requires Len(m.ops) <= Len(m2.ops) && Len(m.values) <= Len(m2.values) && Len(m.exprs) <= Len(m2.exprs)
    requires Len(m.stmts) <= Len(m2.stmts) && Len(m.blocks) <= Len(m2.blocks)
    ensures FramesWithin(frames, m2)
  {
  }

  /** A branch lands in the same place from any machine that has the stacks of
      `m` at the bottom. */
  lemma {:induction false} BranchExt(m: State, m2: State, frames: List<Frame>, lab: string)
    requires Ext(m, m2) && m2.g == m.g && FramesWithin(frames, m) && Bound(frames, lab)
    ensures DoBreak(m2.(frames := frames), lab) == DoBreak(m.(frames := frames), lab)
    ensures DoContinue(m2.(frames := frames), lab) == DoContinue(m.(frames := frames), lab)
    decreases frames
  {
    hide Chop;
    var fr := frames.head;
    if Targets(fr, lab) {
      var x := if fr.kind.isRange then 1 else 0;
      OnTopChop(m.ops, m2.ops, fr.numOps);
      OnTopChop(m.ops, m2.ops, fr.numOps + 1);
      OnTopChop(m.values, m2.values, fr.numValues);
      OnTopChop(m.values, m2.values, fr.numValues + x);
      OnTopChop(m.exprs, m2.exprs, fr.numExprs);
      OnTopChop(m.stmts, m2.stmts, fr.numStmts);
      OnTopChop(m.stmts, m2.stmts, fr.numStmts + 1);
      OnTopChop(m.blocks, m2.blocks, fr.numBlocks);
      OnTopChop(m.blocks, m2.blocks, fr.numBlocks + 1);
    } else {
      BranchExt(m, m2, frames.tail, lab);
    }
  }

  /** A branch does not depend on how far the body it leaves had got. */
  lemma BranchIgnoresNext(mt: State, b: BodyStmt, i: int, frames: List<Frame>, lab: string)
    requires FramesWithin(frames, WithBody(mt, b)) && Bound(frames, lab)
    ensures DoBreak(WithBody(mt, b.(next := i)).(frames := frames), lab) == DoBreak(WithBody(mt, b).(frames := frames), lab)
    ensures DoContinue(WithBody(mt, b.(next := i)).(frames := frames), lab) == DoContinue(WithBody(mt, b).(frames := frames), lab)
  {
    var fr := frames.head;
    if Targets(fr, lab) {
      ChopCons(SBody(b), mt.stmts, fr.numStmts);
      ChopCons(SBody(b.(next := i)), mt.stmts, fr.numStmts);
      if fr.numStmts < Len(mt.stmts) {
        ChopCons(SBody(b), mt.stmts, fr.numStmts + 1);
        ChopCons(SBody(b.(next := i)), mt.stmts, fr.numStmts + 1);
      }
    } else {
      BranchIgnoresNext(mt, b, i, frames.tail, lab);
    }
  }

  /** A failing evaluation inside a statement fails the statement. */
  lemma LiftAbort<T>(P: Program, fuel: nat, r0: Res, a: nat, start: State, mt: State, b: BodyStmt, act: Option<Stmt>,
                     mA: State, n: nat, m2: State, r: EvalR<T>)
    requires !r.Ok? && RunFrom(P, r0, a) == Next(start) && r0.Next?
    requires AbortSim(P, fuel, start, mA, n, m2, r)
    requires Ext(mt, mA) && SameCall(mt, mA) && CallOK(mt) && CallTail(mt.frames).Cons?
    ensures StmtSim(P, fuel, r0, mt, b, a + n, act, m2, Abort(r, DefersOf(mA.frames)))
  {
    RunThen(P, r0.m, a, start, n);
    SameCallFacts(mt, mA, []);
    if r.Panicked? {
      UnwindingExt(mt, mA, m2, World(r.g, DefersOf(mA.frames)));
    } else if r.Dropped? {
      DroppingExt(mt, mA, m2, World(r.g, DefersOf(mA.frames)));
    }
  }

  /** An inner statement or body that returns, panics or fails does so for the
      statement around it. */
  lemma LiftStmt(P: Program, fuel: nat, r0: Res, a: nat, start: State, mt: State, b: BodyStmt,
                 mA: State, bA: BodyStmt, n: nat, act: Option<Stmt>, m2: State, o: Outcome)
    requires r0.Next? && RunFrom(P, r0, a) == Next(start)
    requires StmtSim(P, fuel, Next(start), mA, bA, n, act, m2, o)
    requires !o.Normal? && !o.Breaks? && !o.Continues?
    requires Ext(mt, mA) && SameCall(mt, mA) && CallOK(mt) && CallTail(mt.frames).Cons?
    requires LoopTop(mt) == LoopTop(mA)
    ensures StmtSim(P, fuel, r0, mt, b, a + n, act, m2, o)
  {
    RunThen(P, r0.m, a, start, n);
    SameCallFacts(mt, mA, []);
    CallTailIsCall(mt.frames);
    CallTailIsCall(mA.frames);
    if o.Panics? {
      UnwindingExt(mt, mA, m2, o.w);
    } else if o.Drops? {
      DroppingExt(mt, mA, m2, o.w);
    } else if o.Returns? && Fits(P, mt, o.rv) {
      ReturningExt(mt, mA, m2, o.rv, o.inLoop, o.inLoop, o.w);
    }
  }

  /** The same where the inner machine is in a loop that the statement began. */
  lemma LiftLoop(P: Program, fuel: nat, r0: Res, s: Stmt, mt: State, b: BodyStmt,
                 mL: State, bA: BodyStmt, n: nat, act: Option<Stmt>, m2: State, o: Outcome)
    requires r0.Next? && (s.For? || s.Range?)
    requires StmtSim(P, fuel, r0, mL, bA, n, act, m2, o)
    requires !o.Normal? && !o.Breaks? && !o.Continues?
    requires Ext(mt, mL) && SameCall(mt, mL) && CallOK(mt) && CallTail(mt.frames).Cons? && LoopTop(mL)
    ensures StmtSim(P, fuel, r0, mt, b, n, act, m2, LeaveLoop(s, o))
  {
    SameCallFacts(mt, mL, []);
    CallTailIsCall(mt.frames);
    CallTailIsCall(mL.frames);
    if o.Panics? {
      UnwindingExt(mt, mL, m2, o.w);
    } else if o.Drops? {
      DroppingExt(mt, mL, m2, o.w);
    } else if o.Returns? && Fits(P, mt, o.rv) {
      ReturningExt(mt, mL, m2, o.rv, o.inLoop, true, o.w);
    }
  }

  /** How a run from `start` realises a simple statement on top of the statements of `m`. */
  ghost predicate SimpleSim(P: Program, fuel: nat, start: State, done: State, mt: State, n: nat, m2: State, r: EvalR<()>) {
    if r.Ok? then Run(P, start, n) == Next(done.(g := r.g))
    else AbortSim(P, fuel, start, mt, n, m2, r)
  }

  /** How a run from `start` realises a body begun in `base`. */
  ghost predicate BodySim(P: Program, fuel: nat, start: State, base: State, n: nat, m2: State, o: Outcome) {
    match o
    case Normal(w) => Run(P, start, n) == Next(SetW(base, w))
    case Breaks(l, w) => Bound(base.frames, l) ==> Run(P, start, n) == DoBreak(SetW(base, w), l)
    case Continues(l, w) => Bound(base.frames, l) ==> Run(P, start, n) == DoContinue(SetW(base, w), l)
    case Returns(rv, inLoop, w) => Fits(P, base, rv) ==> Run(P, start, n) == Next(m2) && Returning(base, m2, rv, inLoop, w)
    case Panics(w) => Run(P, start, n) == Next(m2) && Unwinding(base, m2, w)
    case Drops(w) => Run(P, start, n) == Next(m2) && Dropping(base, m2, w)
    case SFailed => Run(P, start, n) == GoPanic
    case STimeout => n >= fuel && Run(P, start, n).Next?
    case SStuck => true
  }

  ghost predicate BodyPre(P: Program, act: nat, base: State) {
    && base.blocks.Cons?
    && ActIs(base, act)
    && CallOK(base)
    && FramesOK(base)
    && CallTail(base.frames).head.kind.CallFrame?
    && P.IsFunc(CallTail(base.frames).head.kind.fv)
  }

  /** An inner body that returns, panics or fails does so for the statement
      around it. */
  lemma LiftBody(P: Program, fuel: nat, r0: Res, a: nat, start: State, mt: State, b: BodyStmt, act: Option<Stmt>,
                 base: State, n: nat, m2: State, o: Outcome)
    requires r0.Next? && RunFrom(P, r0, a) == Next(start)
    requires BodySim(P, fuel, start, base, n, m2, o)
    requires !o.Normal? && !o.Breaks? && !o.Continues?
    requires Ext(mt, base) && SameCall(mt, base) && CallOK(mt) && CallTail(mt.frames).Cons?
    requires LoopTop(mt) == LoopTop(base)
    ensures StmtSim(P, fuel, r0, mt, b, a + n, act, m2, o)
  {
    RunThen(P, r0.m, a, start, n);
    SameCallFacts(mt, base, []);
    CallTailIsCall(mt.frames);
    CallTailIsCall(base.frames);
    if o.Panics? {
      UnwindingExt(mt, base, m2, o.w);
    } else if o.Drops? {
      DroppingExt(mt, base, m2, o.w);
    } else if o.Returns? && Fits(P, mt, o.rv) {
      ReturningExt(mt, base, m2, o.rv, o.inLoop, o.inLoop, o.w);
    }
  }

  lemma SetWTwice(m: State, w1: World, w2: World)
    ensures SetW(SetW(m, w1), w2) == SetW(m, w2)
    ensures CallTail(m.frames).Cons? ==> WorldOf(SetW(m, w1)) == w1
    ensures SetW(m, WorldOf(m)) == m
    ensures SameCall(m, SetW(m, w1))
    ensures CallTail(SetW(m, w1).frames) == SetDefers(CallTail(m.frames), w1.defers)
    ensures LoopTop(SetW(m, w1)) == LoopTop(m)
  {
    SetDefersFacts(m.frames, w1.defers, w2.defers);
    SetDefersFacts(CallTail(m.frames), w1.defers, []);
  }

  lemma ActSetW(m: State, act: nat, w: World)
    requires ActIs(m, act)
    ensures ActIs(SetW(m, w), act)
  {
    SetWTwice(m, w, w);
    SameCallFacts(m, SetW(m, w), []);
    CallTailIsCall(m.frames);
  }

  lemma StmtPreSetW(P: Program, act: nat, mt: State, b: BodyStmt, b2: BodyStmt, w: World)
    requires StmtPre(P, act, mt, b)
    ensures StmtPre(P, act, SetW(mt, w), b2)
  {
    SetWTwice(mt, w, w);
    ActSetW(mt, act, w);
    FramesWithinDefers(mt.frames, w.defers, WithBody(mt, b));
    FramesWithinLonger(SetDefers(mt.frames, w.defers), WithBody(mt, b), WithBody(SetW(mt, w), b2));
  }
}
