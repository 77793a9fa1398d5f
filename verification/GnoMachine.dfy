/** The stack machine: its state and the handler of each op. */
module GnoMachine {
  import opened GnoValues
  import opened GnoStacks
  import opened GnoSyntax

  datatype Op =
    | OpHalt | OpExec | OpPrecall | OpCall | OpCallNativeBody
    | OpReturn | OpReturnFromBlock | OpReturnToBlock | OpDefer
    | OpPanic1 | OpPanic2 | OpIfCond | OpPopValue | OpPopResults | OpPopBlock
    | OpUnary(u: UnaryOp) | OpBinary(b: BinaryOp) | OpLor | OpLand | OpBinary1
    | OpEval | OpFuncLit | OpAssign
    | OpBody | OpForLoop | OpRangeIter | OpReturnCallDefers

  /** Sticky ops stay on the stack until they are force-popped. */
  predicate Sticky(op: Op) {
    op.OpBody? || op.OpForLoop? || op.OpRangeIter? || op.OpReturnCallDefers?
  }

  /** A variable block: the block it is nested in and the slots written so far. */
  datatype Scope = Scope(parent: Option<nat>, vals: map<nat, Value>)

  /** A realm finalized; a call deferred by activation `act`, which it names by its
      function block, and one started, both with their place in its list. */
  datatype Event =
    | Finalized(realm: nat)
    | Pushed(act: nat, pos: nat, call: Deferred)
    | RanDefer(act: nat, pos: nat, call: Deferred)

  /** What outlives the stacks: every block ever created, the pending exception,
      the number of results of the last return, the current package and realm,
      and the log of finalized realms, calls deferred and deferred calls started. */
  datatype Globals = Globals(
    store: seq<Scope>,
    exc: Option<Value>,
    nres: nat,
    pkg: nat,
    realm: Option<nat>,
    events: seq<Event>)

  /** The mutable record that drives a body: `next` is -2 before the first
      visit, -1 when a condition or element is due, else the next statement. */
  datatype BodyStmt = BodyStmt(
    body: seq<Stmt>,
    next: int,
    cnd: Option<Expr>,
    post: Option<Simple>,
    key: Option<Path>,
    val: Option<Path>,
    listLen: int,
    listIndex: int,
    active: Option<Stmt>)

  function PlainBody(body: seq<Stmt>): BodyStmt {
    BodyStmt(body, -2, None, None, None, None, 0, 0, None)
  }

  datatype StmtEntry = SStmt(s: Stmt) | SBody(b: BodyStmt)

  datatype Deferred = Deferred(fv: Value, args: seq<Value>, parent: nat)

  datatype FrameKind =
    | LoopFrame(lab: string, isRange: bool, src: Stmt)
    | CallFrame(fv: Value, defers: seq<Deferred>, lastPkg: nat, lastRealm: Option<nat>)

  datatype Frame = Frame(
    kind: FrameKind,
    numOps: nat,
    numValues: nat,
    numExprs: nat,
    numStmts: nat,
    numBlocks: nat)

  datatype State = State(
    ops: List<Op>,
    values: List<Value>,
    exprs: List<Expr>,
    stmts: List<StmtEntry>,
    blocks: List<nat>,
    frames: List<Frame>,
    g: Globals)

  /** The outcome of a dispatch. GoPanic is a Go-level panic of the interpreter,
      Uncaught the one that reports a Gno panic no function recovered. */
  datatype Res = Next(m: State) | Halted(m: State) | GoPanic | Uncaught(ex: Value)

  // ---------------------------------------------------------------- store

  /** The block `depth - 1` parents above block `a`. */
  function Resolve(store: seq<Scope>, a: nat, depth: nat): Option<nat>
    decreases depth
  {
    if depth == 0 || a >= |store| then None
    else if depth == 1 then Some(a)
    else match store[a].parent
      case None => None
      case Some(p) => Resolve(store, p, depth - 1)
  }

  function Load(store: seq<Scope>, a: nat, p: Path): Option<Value> {
    match p
    case Blank => None
    case Slot(depth, index) =>
      match Resolve(store, a, depth)
      case None => None
      case Some(b) =>
        if b < |store| then
          Some(if index in store[b].vals then store[b].vals[index] else VUndef)
        else None
  }

  function WriteSlot(store: seq<Scope>, b: nat, index: nat, v: Value): seq<Scope>
    requires b < |store|
  {
    store[b := store[b].(vals := store[b].vals[index := v])]
  }

  /** Assignment through a path; writing to `_` has no effect. */
  function Write(store: seq<Scope>, a: nat, p: Path, v: Value): Option<seq<Scope>> {
    match p
    case Blank => Some(store)
    case Slot(depth, index) =>
      match Resolve(store, a, depth)
      case None => None
      case Some(b) => if b < |store| then Some(WriteSlot(store, b, index, v)) else None
  }

  function WriteOpt(store: seq<Scope>, a: nat, p: Option<Path>, v: Value): Option<seq<Scope>> {
    match p
    case None => Some(store)
    case Some(q) => Write(store, a, q, v)
  }

  /** Slots `from`, `from + 1`, ... holding `vs`. */
  function SlotMap(vs: seq<Value>, from: nat): map<nat, Value> {
    if vs == [] then map[]
    else SlotMap(vs[..|vs| - 1], from)[from + |vs| - 1 := vs[|vs| - 1]]
  }

  function ReadSlot(store: seq<Scope>, b: nat, index: nat): Value {
    if b < |store| && index in store[b].vals then store[b].vals[index] else VUndef
  }

  function ReadResults(store: seq<Scope>, b: nat, fn: Func): seq<Value> {
    seq(|fn.defaults|, i requires 0 <= i < |fn.defaults| => ReadSlot(store, b, fn.numParams + i))
  }

  function WriteResults(store: seq<Scope>, b: nat, fn: Func, vs: seq<Value>): seq<Scope> {
    if b < |store| then
      store[b := store[b].(vals := store[b].vals + SlotMap(vs, fn.numParams))]
    else store
  }

  // ---------------------------------------------------------------- stacks

  function PushOp(m: State, op: Op): State {
    m.(ops := Cons(op, m.ops))
  }

  function PushValue(m: State, v: Value): State {
    m.(values := Cons(v, m.values))
  }

  function PushEval(m: State, e: Expr): State {
    m.(exprs := Cons(e, m.exprs), ops := Cons(OpEval, m.ops))
  }

  /** Queues expressions so that the first is evaluated first. */
  function PushEvals(m: State, es: seq<Expr>): State {
    if es == [] then m else PushEval(PushEvals(m, es[1..]), es[0])
  }

  function PushStmt(m: State, s: StmtEntry): State {
    m.(stmts := Cons(s, m.stmts))
  }

  /** The statement PopStmt would return: the active one of a body. */
  function TopStmt(m: State): Option<Stmt> {
    match m.stmts
    case Nil => None
    case Cons(SStmt(s), _) => Some(s)
    case Cons(SBody(b), _) => b.active
  }

  /** Pops a plain statement; a body stays and loses its active statement. */
  function PopStmt(m: State): State {
    match m.stmts
    case Nil => m
    case Cons(SStmt(_), rest) => m.(stmts := rest)
    case Cons(SBody(b), rest) => m.(stmts := Cons(SBody(b.(active := None)), rest))
  }

  /** A new block nested in the last one. */
  function PushBlock(m: State, parent: Option<nat>, vals: map<nat, Value>): State {
    m.(blocks := Cons(|m.g.store|, m.blocks),
       g := m.g.(store := m.g.store + [Scope(parent, vals)]))
  }

  /** A basic frame records its loop statement and the depth of every stack. */
  function PushFrameBasic(m: State, s: Stmt): State
    requires s.For? || s.Range?
  {
    m.(frames := Cons(Frame(LoopFrame(s.lab, s.Range?, s), Len(m.ops), Len(m.values),
                            Len(m.exprs), Len(m.stmts), Len(m.blocks)), m.frames))
  }

  // ---------------------------------------------------------------- frames

  predicate Deeper(m: State, fr: Frame) {
    && fr.numOps <= Len(m.ops)
    && fr.numValues <= Len(m.values)
    && fr.numExprs <= Len(m.exprs)
    && fr.numStmts <= Len(m.stmts)
    && fr.numBlocks <= Len(m.blocks)
  }

  /** Leaves a loop: back to the depths saved in its frame, loop statement done. */
  function PopFrameAndReset(m: State): Res {
    match m.frames
    case Nil => GoPanic
    case Cons(fr, rest) =>
      if !Deeper(m, fr) then GoPanic else
      Next(PopStmt(State(
        Chop(m.ops, fr.numOps), Chop(m.values, fr.numValues), Chop(m.exprs, fr.numExprs),
        Chop(m.stmts, fr.numStmts), Chop(m.blocks, fr.numBlocks), rest, m.g)))
  }

  /** Back to the loop op and loop body of the last frame (and the ranged-over
      value), with all body statements done. */
  function PeekFrameAndContinue(m: State): Res {
    match m.frames
    case Nil => GoPanic
    case Cons(fr, _) =>
      var x := if fr.kind.LoopFrame? && fr.kind.isRange then 1 else 0;
      if !(Deeper(m, fr) && fr.numOps < Len(m.ops) && fr.numValues + x <= Len(m.values)
           && fr.numStmts < Len(m.stmts) && fr.numBlocks < Len(m.blocks)) then GoPanic else
      var stmts: List<StmtEntry> := Chop(m.stmts, fr.numStmts + 1);
      match stmts
      case Cons(SBody(b), rest) =>
        Next(State(
          Chop(m.ops, fr.numOps + 1), Chop(m.values, fr.numValues + x), Chop(m.exprs, fr.numExprs),
          Cons(SBody(b.(next := |b.body|)), rest), Chop(m.blocks, fr.numBlocks + 1), m.frames, m.g))
      case _ => GoPanic
  }

  predicate Targets(fr: Frame, lab: string) {
    fr.kind.LoopFrame? && (lab == "" || lab == fr.kind.lab)
  }

  /** Pops frames up to the loop the label names, and leaves that loop. */
  function DoBreak(m: State, lab: string): Res
    decreases m.frames
  {
    match m.frames
    case Nil => GoPanic
    case Cons(fr, rest) =>
      if Targets(fr, lab) then PopFrameAndReset(m) else DoBreak(m.(frames := rest), lab)
  }

  function DoContinue(m: State, lab: string): Res
    decreases m.frames
  {
    match m.frames
    case Nil => GoPanic
    case Cons(fr, rest) =>
      if Targets(fr, lab) then PeekFrameAndContinue(m) else DoContinue(m.(frames := rest), lab)
  }

  /** The frames from the last call frame down (Nil when there is none). */
  function CallTail(frames: List<Frame>): List<Frame> {
    match frames
    case Nil => Nil
    case Cons(fr, rest) => if fr.kind.CallFrame? then frames else CallTail(rest)
  }

  function SetDefers(frames: List<Frame>, ds: seq<Deferred>): List<Frame> {
    match frames
    case Nil => Nil
    case Cons(fr, rest) =>
      if fr.kind.CallFrame? then Cons(fr.(kind := fr.kind.(defers := ds)), rest)
      else Cons(fr, SetDefers(rest, ds))
  }

  function DefersOf(frames: List<Frame>): seq<Deferred> {
    match CallTail(frames)
    case Nil => []
    case Cons(fr, _) => if fr.kind.CallFrame? then fr.kind.defers else []
  }

  /** The block at index `n` from the bottom. */
  function BlockAt(blocks: List<nat>, n: nat): Option<nat> {
    match Chop(blocks, n + 1)
    case Nil => None
    case Cons(a, rest) => if Len(rest) == n then Some(a) else None
  }

  /** The function block of the running call. */
  function ActOf(m: State): nat {
    match CallTail(m.frames)
    case Nil => 0
    case Cons(fr, _) =>
      match BlockAt(m.blocks, fr.numBlocks)
      case None => 0
      case Some(a) => a
  }

  /** The realm log when a call made from realm `last` returns: the current realm
      is finalized if the call switched realms or nothing is left on the frame
      stack below it. */
  function Finalize(g: Globals, last: Option<nat>, outermost: bool): Globals {
    if g.realm.Some? && (outermost || g.realm != last) then
      g.(events := g.events + [Finalized(g.realm.value)])
    else g
  }

  /** Leaves the function of the last frame: the results move down to where the
      call began, every other stack to its saved depth. */
  function PopFrameAndReturn(P: Program, m: State): Res {
    match m.frames
    case Nil => GoPanic
    case Cons(fr, rest) =>
      if !(fr.kind.CallFrame? && P.IsFunc(fr.kind.fv)) then GoPanic else
      var n := |P.FuncOf(fr.kind.fv).defaults|;
      if !(Deeper(m, fr) && fr.numValues + n <= Len(m.values)) then GoPanic else
      var g := Finalize(m.g, fr.kind.lastRealm, rest.Nil?);
      Next(State(
        Chop(m.ops, fr.numOps), PushAll(Chop(m.values, fr.numValues), TopN(m.values, n)),
        Chop(m.exprs, fr.numExprs), Chop(m.stmts, fr.numStmts), Chop(m.blocks, fr.numBlocks), rest,
        g.(nres := n, pkg := fr.kind.lastPkg, realm := fr.kind.lastRealm)))
  }

  // ---------------------------------------------------------------- handlers

  function NewLoopBody(s: Stmt): BodyStmt
    requires s.For? || s.Range?
  {
    match s
    case For(_, _, cnd, post, body) => BodyStmt(body, -2, cnd, post, None, None, 0, 0, None)
    case Range(_, key, val, _, body) => BodyStmt(body, -2, None, None, key, val, 0, 0, None)
  }

  function QueueInit(m: State, init: Option<Simple>): State {
    match init
    case None => m
    case Some(s) => PushOp(PushStmt(m, SStmt(Basic(s))), OpExec)
  }

  function QueueCond(m: State, cnd: Option<Expr>): State {
    match cnd
    case None => m
    case Some(e) => PushEval(m, e)
  }

  /** Queues the ops of a return: straight out when the function has no pending
      deferred calls, else by way of the function block. */
  function DoReturnStmt(P: Program, m: State, es: seq<Expr>): Res {
    match CallTail(m.frames)
    case Nil => GoPanic
    case Cons(fr, _) =>
      if !(fr.kind.CallFrame? && P.IsFunc(fr.kind.fv)) then GoPanic else
      var fn := P.FuncOf(fr.kind.fv);
      var m1 :=
        if fr.kind.defers != [] then
          var m2 := PushOp(PushOp(m, OpReturnFromBlock), OpReturnCallDefers);
          if es != [] && fn.defaults != [] then PushOp(m2, OpReturnToBlock) else m2
        else if es == [] then PushOp(m, OpReturnFromBlock)
        else PushOp(m, OpReturn);
      Next(PushEvals(m1, es))
  }

  /** The statement switch that OpExec, OpBody and the loop ops jump to. */
  function ExecSwitch(P: Program, m: State, s: Stmt): Res {
    match s
    case Basic(Assign(_, rhs)) => Next(PushEval(PushOp(m, OpAssign), rhs))
    case Basic(ExprStmt(x)) =>
      Next(PushEval(PushOp(PopStmt(m), if x.Call? then OpPopResults else OpPopValue), x))
    case Block(body) =>
      if m.blocks.Nil? then GoPanic else
      var m1 := PushOp(PushBlock(m, Some(m.blocks.head), map[]), OpPopBlock);
      Next(PushStmt(PushOp(m1, OpBody), SBody(PlainBody(body))))
    case If(init, cond, _, _) =>
      if m.blocks.Nil? then GoPanic else
      var m1 := PushOp(PushOp(PushBlock(m, Some(m.blocks.head), map[]), OpPopBlock), OpIfCond);
      Next(QueueInit(PushEval(m1, cond), init))
    case For(_, init, cnd, _, _) =>
      if m.blocks.Nil? then GoPanic else
      var m1 := PushBlock(PushFrameBasic(m, s), Some(m.blocks.head), map[]);
      var m2 := PushStmt(PushOp(m1, OpForLoop), SBody(NewLoopBody(s)));
      Next(QueueInit(QueueCond(m2, cnd), init))
    case Range(_, _, _, x, _) =>
      if m.blocks.Nil? then GoPanic else
      var m1 := PushBlock(PushFrameBasic(m, s), Some(m.blocks.head), map[]);
      var m2 := PushStmt(PushOp(m1, OpRangeIter), SBody(NewLoopBody(s)));
      Next(PushEval(m2, x))
    case Break(lab) => DoBreak(m, lab)
    case Continue(lab) => DoContinue(m, lab)
    case Return(es) =>
      DoReturnStmt(P, PopStmt(m), es)
    case Panic(ex) => Next(PushEval(PushOp(PopStmt(m), OpPanic1), ex))
    case Defer(fn, args) => Next(PushEval(PushEvals(PushOp(m, OpDefer), args), fn))
  }

  function DoOpExec(P: Program, m: State): Res {
    match m.stmts
    case Cons(SStmt(s), _) => ExecSwitch(P, m, s)
    case _ => GoPanic
  }

  /** Marks the next statement of the body active and executes it. */
  function ExecNext(P: Program, m: State, b: BodyStmt): Res
    requires m.stmts.Cons? && 0 <= b.next < |b.body|
  {
    var s := b.body[b.next];
    ExecSwitch(P, m.(stmts := Cons(SBody(b.(next := b.next + 1, active := Some(s))), m.stmts.tail)), s)
  }

  function DoOpBody(P: Program, m: State): Res {
    match m.stmts
    case Cons(SBody(b0), rest) =>
      var b := if b0.next == -2 then b0.(next := 0) else b0;
      if 0 <= b.next < |b.body| then ExecNext(P, m, b)
      else if m.ops.Nil? then GoPanic
      else Next(m.(ops := m.ops.tail, stmts := rest))
    case _ => GoPanic
  }

  function LoopBodyOrPost(P: Program, m: State, b: BodyStmt): Res
    requires m.stmts.Cons? && 0 <= b.next
  {
    if b.next < |b.body| then ExecNext(P, m, b)
    else if b.next == |b.body| then
      var m1 := QueueCond(m, b.cnd);
      match b.post
      case None => Next(m1.(stmts := Cons(SBody(b.(next := -1, active := None)), m.stmts.tail)))
      case Some(s) =>
        var b1 := b.(next := -1, active := Some(Basic(s)));
        ExecSwitch(P, m1.(stmts := Cons(SBody(b1), m.stmts.tail)), Basic(s))
    else GoPanic
  }

  function DoOpForLoop(P: Program, m: State): Res {
    match m.stmts
    case Cons(SBody(b0), rest) =>
      var b := if b0.next == -2 then b0.(next := -1) else b0;
      if b.next == -1 then
        match b.cnd
        case None => LoopBodyOrPost(P, m, b.(next := 0))
        case Some(_) =>
          match m.values
          case Cons(VBool(true), vs) => LoopBodyOrPost(P, m.(values := vs), b.(next := 0))
          case Cons(VBool(false), vs) =>
            PopFrameAndReset(m.(values := vs, stmts := Cons(SBody(b), rest)))
          case _ => GoPanic
      else if b.next < 0 then GoPanic
      else LoopBodyOrPost(P, m, b)
    case _ => GoPanic
  }

  /** Assigns index and element to the loop variables. */
  function AssignElement(m: State, b: BodyStmt, elem: Value): Option<State> {
    if m.blocks.Nil? then None else
    match WriteOpt(m.g.store, m.blocks.head, b.key, VInt(Int, b.listIndex))
    case None => None
    case Some(st1) =>
      match WriteOpt(st1, m.blocks.head, b.val, elem)
      case None => None
      case Some(st2) => Some(m.(g := m.g.(store := st2)))
  }

  function RangeBody(P: Program, m: State, b: BodyStmt): Res
    requires m.stmts.Cons? && 0 <= b.next
  {
    if b.next < |b.body| then ExecNext(P, m, b)
    else if b.next == |b.body| then
      if b.listIndex < b.listLen - 1 then
        Next(m.(stmts := Cons(SBody(b.(listIndex := b.listIndex + 1, next := -1, active := None)), m.stmts.tail)))
      else PopFrameAndReset(m)
    else GoPanic
  }

  function DoOpRangeIter(P: Program, m: State): Res {
    match (m.stmts, m.values)
    case (Cons(SBody(b0), _), Cons(VList(elems), _)) =>
      if b0.next == -2 && |elems| == 0 then PopFrameAndReset(m) else
      var b := if b0.next == -2 then b0.(listLen := |elems|, next := -1) else b0;
      if b.next == -1 then
        if !(0 <= b.listIndex < |elems|) then GoPanic else
        match AssignElement(m, b, elems[b.listIndex])
        case None => GoPanic
        case Some(m1) => RangeBody(P, m1, b.(next := 0))
      else if b.next < 0 then GoPanic
      else RangeBody(P, m, b)
    case _ => GoPanic
  }

  function DoOpIfCond(m: State): Res {
    var s := TopStmt(m);
    if !(s.Some? && s.value.If?) || !(m.values.Cons? && m.values.head.VBool?) then GoPanic else
    var m1 := PopStmt(m).(values := m.values.tail);
    var body := if m.values.head.b then s.value.thn else s.value.els;
    if body == [] then Next(m1)
    else Next(PushStmt(PushOp(m1, OpBody), SBody(PlainBody(body))))
  }

  function DoOpEval(m: State): Res {
    match m.exprs
    case Nil => GoPanic
    case Cons(x, xs) =>
      match x
      case Const(v) => Next(PushValue(m.(exprs := xs), v))
      case Name(p) =>
        if m.blocks.Nil? then GoPanic else (
        match Load(m.g.store, m.blocks.head, p)
        case None => GoPanic
        case Some(v) => Next(PushValue(m.(exprs := xs), v)))
      case Unary(op, y) => Next(PushEval(PushOp(m, OpUnary(op)), y))
      case Binary(op, l, r) => Next(PushEval(PushEval(PushOp(m, OpBinary(op)), r), l))
      case And(l, _) => Next(PushEval(PushOp(m, OpBinary1), l))
      case Or(l, _) => Next(PushEval(PushOp(m, OpBinary1), l))
      case FuncLit(_) => Next(PushEval(PushOp(m, OpFuncLit), Const(VType)))
      case Call(fn, args) => Next(PushEval(PushEvals(PushOp(m, OpPrecall), args), fn))
  }

  function DoOpUnary(m: State, op: UnaryOp): Res {
    if m.exprs.Nil? || m.values.Nil? then GoPanic else
    var r := ApplyUnary(op, m.values.head);
    if r.None? then GoPanic else Next(m.(exprs := m.exprs.tail, values := Cons(r.value, m.values.tail)))
  }

  function DoOpBinary(m: State, op: BinaryOp): Res {
    if m.exprs.Nil? || m.values.Nil? || m.values.tail.Nil? then GoPanic else
    var v := ApplyBinary(op, m.values.tail.head, m.values.head);
    if v.None? then GoPanic else Next(m.(exprs := m.exprs.tail, values := Cons(v.value, m.values.tail.tail)))
  }

  /** After the left operand of `&&` or `||`: done, or on to the right one. */
  function DoOpBinary1(m: State): Res {
    if m.exprs.Nil? || !(m.exprs.head.And? || m.exprs.head.Or?) || !(m.values.Cons? && m.values.head.VBool?) then GoPanic else
    var e, m1 := m.exprs.head, m.(exprs := m.exprs.tail);
    if m.values.head.b == e.And? then Next(PushEval(PushOp(m1, if e.And? then OpLand else OpLor), e.right)) else Next(m1)
  }

  function DoOpLogic(m: State, and: bool): Res {
    if m.values.Nil? || m.values.tail.Nil? then GoPanic else
    var r, l := m.values.head, m.values.tail.head;
    if !(r.VBool? && l.VBool?) then GoPanic
    else Next(m.(values := Cons(VBool(if and then l.b && r.b else l.b || r.b), m.values.tail.tail)))
  }

  function DoOpFuncLit(m: State): Res {
    if !(m.exprs.Cons? && m.exprs.head.FuncLit?) || m.values.Nil? || m.blocks.Nil? then GoPanic
    else Next(m.(exprs := m.exprs.tail, values := Cons(VFunc(m.exprs.head.fid, m.blocks.head, m.g.pkg), m.values.tail)))
  }

  function DoOpAssign(m: State): Res {
    var s := TopStmt(m);
    if !(s.Some? && s.value.Basic? && s.value.s.Assign?) || m.values.Nil? || m.blocks.Nil? then GoPanic else
    var st := Write(m.g.store, m.blocks.head, s.value.s.path, m.values.head);
    if st.None? then GoPanic else Next(PopStmt(m).(values := m.values.tail, g := m.g.(store := st.value)))
  }

  /** Pushes a call frame and enters the callee's package and realm. */
  function DoOpPrecall(P: Program, m: State): Res {
    match m.exprs
    case Cons(Call(_, args), xs) =>
      if Len(m.values) <= |args| then GoPanic else
      var rest := DropN(m.values, |args|);
      var fv := rest.head;
      if !P.IsFunc(fv) then GoPanic else
      var kind := CallFrame(fv, [], m.g.pkg, m.g.realm);
      var fr := Frame(kind, Len(m.ops), Len(rest) - 1, Len(xs), Len(m.stmts), Len(m.blocks));
      var rlm := P.RealmOf(fv.pkg);
      Next(PushOp(m.(exprs := xs, frames := Cons(fr, m.frames),
                     g := m.g.(pkg := fv.pkg, realm := if rlm.Some? then rlm else m.g.realm)), OpCall))
    case _ => GoPanic
  }

  /** Creates the function block with its parameters and default results, and
      queues the body, under an implicit return when there are no results. */
  function DoOpCall(P: Program, m: State): Res {
    match m.frames
    case Cons(Frame(CallFrame(fv, _, _, _), _, _, _, _, _), _) =>
      if !P.IsFunc(fv) then GoPanic else
      var fn := P.FuncOf(fv);
      if Len(m.values) < fn.numParams then GoPanic else
      var vals := SlotMap(TopN(m.values, fn.numParams), 0) + SlotMap(fn.defaults, fn.numParams);
      var m1 := PushBlock(m, Some(fv.closure), vals).(values := DropN(m.values, fn.numParams));
      if fn.native then Next(PushOp(PushOp(m1, OpReturn), OpCallNativeBody)) else
      var m2 := if fn.defaults == [] then PushOp(PushStmt(m1, SStmt(Return([]))), OpExec) else m1;
      Next(PushStmt(PushOp(m2, OpBody), SBody(PlainBody(fn.body))))
    case _ => GoPanic
  }

  /** `recover`: the pending exception, which is cleared. */
  function DoOpCallNativeBody(m: State): Res {
    Next(PushValue(m.(g := m.g.(exc := None)), if m.g.exc.Some? then m.g.exc.value else VUndef))
  }

  function DoOpReturn(P: Program, m: State): Res {
    PopFrameAndReturn(P, m.(frames := CallTail(m.frames)))
  }

  function DoOpReturnFromBlock(P: Program, m: State): Res {
    match CallTail(m.frames)
    case Cons(Frame(CallFrame(fv, ds, lp, lr), _, _, _, _, nb), rest) =>
      if !P.IsFunc(fv) then GoPanic else
      (match BlockAt(m.blocks, nb)
       case None => GoPanic
       case Some(a) =>
         PopFrameAndReturn(P, m.(frames := CallTail(m.frames),
                                 values := PushAll(m.values, ReadResults(m.g.store, a, P.FuncOf(fv))))))
    case _ => GoPanic
  }

  function DoOpReturnToBlock(P: Program, m: State): Res {
    match CallTail(m.frames)
    case Cons(Frame(CallFrame(fv, _, _, _), _, _, _, _, nb), _) =>
      if !P.IsFunc(fv) then GoPanic else
      var fn := P.FuncOf(fv);
      if Len(m.values) < |fn.defaults| then GoPanic else
      (match BlockAt(m.blocks, nb)
       case None => GoPanic
       case Some(a) =>
         Next(m.(values := DropN(m.values, |fn.defaults|),
                 g := m.g.(store := WriteResults(m.g.store, a, fn, TopN(m.values, |fn.defaults|))))))
    case _ => GoPanic
  }

  /** Starts the last deferred call of the current function, or, when none is
      left, gives way to the op below; while panicking the function's frame goes too. */
  function DoOpReturnCallDefers(P: Program, m: State): Res {
    match CallTail(m.frames)
    case Cons(Frame(CallFrame(_, ds, _, _), _, _, _, _, nb), _) =>
      if ds == [] then
        if m.ops.Nil? then GoPanic
        else if m.g.exc.None? then Next(m.(ops := m.ops.tail))
        else if m.frames.Nil? then GoPanic
        else Next(m.(ops := m.ops.tail, frames := m.frames.tail))
      else
        var d := ds[|ds| - 1];
        if !P.IsFunc(d.fv) || P.FuncOf(d.fv).native then GoPanic else
        (match BlockAt(m.blocks, nb)
         case None => GoPanic
         case Some(a) =>
           var m1 := m.(frames := SetDefers(m.frames, ds[..|ds| - 1]),
                        g := m.g.(events := m.g.events + [RanDefer(a, |ds| - 1, d)]));
           var m2 := PushBlock(m1, Some(d.parent), SlotMap(d.args, 0));
           Next(PushStmt(PushOp(m2, OpBody), SBody(PlainBody(P.FuncOf(d.fv).body)))))
    case _ => GoPanic
  }

  function DoOpDefer(P: Program, m: State): Res {
    var s := TopStmt(m);
    if !(s.Some? && s.value.Defer?) || CallTail(m.frames).Nil? || m.blocks.Nil? then GoPanic else
    var n := |s.value.args|;
    if Len(m.values) <= n then GoPanic else
    var rest := DropN(m.values, n);
    if !P.IsFunc(rest.head) then GoPanic else
    var d, ds := Deferred(rest.head, TopN(m.values, n), m.blocks.head), DefersOf(m.frames);
    Next(PopStmt(m).(values := rest.tail, frames := SetDefers(m.frames, ds + [d]),
                     g := m.g.(events := m.g.events + [Pushed(ActOf(m), |ds|, d)])))
  }

  function DoOpPanic1(m: State): Res {
    match m.values
    case Nil => GoPanic
    case Cons(v, vs) =>
      var frames := CallTail(m.frames);
      Next(PushOp(PushOp(m.(values := vs, g := m.g.(exc := Some(v)),
                            frames := if frames.Nil? then m.frames else frames), OpPanic2), OpReturnCallDefers))
  }

  /** Either a deferred call recovered and the function returns, or the panic
      goes on in the next call frame down. */
  function DoOpPanic2(m: State): Res {
    match m.g.exc
    case None => Next(PushOp(PushOp(m, OpReturnFromBlock), OpReturnCallDefers))
    case Some(v) =>
      match CallTail(m.frames)
      case Nil => Uncaught(v)
      case Cons(fr, rest) =>
        Next(PushOp(PushOp(m.(frames := CallTail(m.frames)), OpPanic2), OpReturnCallDefers))
  }

  function DoPopResults(m: State): Res {
    if Len(m.values) < m.g.nres then GoPanic
    else Next(m.(values := DropN(m.values, m.g.nres), g := m.g.(nres := 0)))
  }

  /** One dispatch of the run loop: fetch the top op, popping it unless sticky. */
  function Step(P: Program, m0: State): Res {
    match m0.ops
    case Nil => GoPanic
    case Cons(op, rest) =>
      var m := if Sticky(op) then m0 else m0.(ops := rest);
      Dispatch(P, m, op)
  }

  function Dispatch(P: Program, m: State, op: Op): Res {
    match op
    case OpHalt => Halted(m)
    case OpExec => DoOpExec(P, m)
    case OpPrecall => DoOpPrecall(P, m)
    case OpCall => DoOpCall(P, m)
    case OpCallNativeBody => DoOpCallNativeBody(m)
    case OpReturn => DoOpReturn(P, m)
    case OpReturnFromBlock => DoOpReturnFromBlock(P, m)
    case OpReturnToBlock => DoOpReturnToBlock(P, m)
    case OpDefer => DoOpDefer(P, m)
    case OpPanic1 => DoOpPanic1(m)
    case OpPanic2 => DoOpPanic2(m)
    case OpIfCond => DoOpIfCond(m)
    case OpPopValue => if m.values.Nil? then GoPanic else Next(m.(values := m.values.tail))
    case OpPopResults => DoPopResults(m)
    case OpPopBlock => if m.blocks.Nil? then GoPanic else Next(m.(blocks := m.blocks.tail))
    case OpUnary(u) => DoOpUnary(m, u)
    case OpBinary(b) => DoOpBinary(m, b)
    case OpLor => DoOpLogic(m, false)
    case OpLand => DoOpLogic(m, true)
    case OpBinary1 => DoOpBinary1(m)
    case OpEval => DoOpEval(m)
    case OpFuncLit => DoOpFuncLit(m)
    case OpAssign => DoOpAssign(m)
    case OpBody => DoOpBody(P, m)
    case OpForLoop => DoOpForLoop(P, m)
    case OpRangeIter => DoOpRangeIter(P, m)
    case OpReturnCallDefers => DoOpReturnCallDefers(P, m)
  }

  /** `n` dispatches, fewer if the machine stops. */
  function Run(P: Program, m: State, n: nat): Res
    decreases n
  {
    if n == 0 then Next(m) else
    match Step(P, m)
    case Next(m1) => Run(P, m1, n - 1)
    case r => r
  }

  function RunFrom(P: Program, r: Res, n: nat): Res {
    match r
    case Next(m) => Run(P, m, n)
    case _ => r
  }

  lemma {:induction false} RunAdd(P: Program, m: State, a: nat, b: nat)
    ensures Run(P, m, a + b) == RunFrom(P, Run(P, m, a), b)
    decreases a
  {
    if a > 0 {
      match Step(P, m)
      case Next(m1) => RunAdd(P, m1, a - 1, b);
      case _ =>
    }
  }
}
