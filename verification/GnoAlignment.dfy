/** The static checks on branches and returns that a Go compiler makes, and the shape
    they give every run that raises no exception: loop ops, loop records and loop
    frames stay in step, and so do calls. */
module GnoAlignment {
  import opened GnoValues
  import opened GnoStacks
  import opened GnoSyntax
  import opened GnoMachine
  import opened GnoTheorems

  // ---------------------------------------------------------------- static checks

  /** The loop of `loops`, innermost first, that a branch with this label means. */
  predicate HasTarget(loops: List<Stmt>, lab: string) {
    match loops
    case Nil => false
    case Cons(s, rest) => Means(s, lab) || HasTarget(rest, lab)
  }

  predicate Means(s: Stmt, lab: string) {
    (s.For? || s.Range?) && (lab == "" || lab == s.lab)
  }

  /** Every branch stands inside a loop of the same function that it means. */
  predicate Placed(s: Stmt, loops: List<Stmt>) {
    match s
    case Break(lab) => HasTarget(loops, lab)
    case Continue(lab) => HasTarget(loops, lab)
    case Block(body) => forall x | x in body :: Placed(x, loops)
    case If(_, _, thn, els) => (forall x | x in thn :: Placed(x, loops)) && (forall x | x in els :: Placed(x, loops))
    case For(_, _, _, _, body) => forall x | x in body :: Placed(x, Cons(s, loops))
    case Range(_, _, _, _, body) => forall x | x in body :: Placed(x, Cons(s, loops))
    case _ => true
  }

  /** The statement holds a break with label `lab` to a loop around it. */
  predicate Escapes(s: Stmt, lab: string) {
    match s
    case Break(t) => t == lab
    case Block(body) => exists x | x in body :: Escapes(x, lab)
    case If(_, _, thn, els) => (exists x | x in thn :: Escapes(x, lab)) || (exists x | x in els :: Escapes(x, lab))
    case For(l, _, _, _, body) => lab != "" && l != lab && exists x | x in body :: Escapes(x, lab)
    case Range(l, _, _, _, body) => lab != "" && l != lab && exists x | x in body :: Escapes(x, lab)
    case _ => false
  }

  /** A loop without condition and without a break out of it. */
  predicate Endless(s: Stmt) {
    s.For? && s.cnd.None? && forall x | x in s.body :: !Escapes(x, "") && !Escapes(x, s.lab)
  }

  /** The terminating statements of the Go specification. */
  predicate Ends(s: Stmt) {
    match s
    case Return(_) => true
    case Panic(_) => true
    case Block(body) => EndsSeq(body)
    case If(_, _, thn, els) => EndsSeq(thn) && EndsSeq(els)
    case For(_, _, _, _, _) => Endless(s)
    case _ => false
  }

  predicate EndsSeq(body: seq<Stmt>) {
    body != [] && Ends(body[|body| - 1])
  }

  /** Branches have their loops, and a function with results ends in a terminating
      statement. */
  predicate Compiled(P: Program) {
    forall f | f in P.funcs && !f.native ::
      && (forall s | s in f.body :: Placed(s, Nil))
      && (f.defaults != [] ==> EndsSeq(f.body))
  }

  // ---------------------------------------------------------------- the invariant

  predicate BodyOp(op: Op) {
    op.OpBody? || op.OpForLoop? || op.OpRangeIter?
  }

  /** A body op comes next, possibly after the condition or block it waits for. */
  predicate Settled(ops: List<Op>) {
    ops.Cons? && (BodyOp(ops.head) || ((ops.head.OpEval? || ops.head.OpPopBlock?) && ops.tail.Cons? && BodyOp(ops.tail.head)))
  }

  /** The loops the running function is in. */
  function Loops(frames: List<Frame>): List<Stmt> {
    match frames
    case Nil => Nil
    case Cons(fr, rest) => if fr.kind.CallFrame? then Nil else Cons(fr.kind.src, Loops(rest))
  }

  predicate Labelled(frames: List<Frame>) {
    match frames
    case Nil => true
    case Cons(fr, rest) =>
      && (fr.kind.LoopFrame? ==> (fr.kind.src.For? || fr.kind.src.Range?) && fr.kind.lab == fr.kind.src.lab)
      && Labelled(rest)
  }

  function Target(loops: List<Stmt>, lab: string): Stmt
    requires HasTarget(loops, lab)
  {
    if Means(loops.head, lab) then loops.head else Target(loops.tail, lab)
  }

  predicate MindsTarget(s: Stmt, loops: List<Stmt>, lab: string) {
    Escapes(s, lab) && HasTarget(loops, lab) ==> !Endless(Target(loops, lab))
  }

  /** No loop the statement breaks out of is endless. */
  ghost predicate Minded(s: Stmt, loops: List<Stmt>) {
    forall lab :: MindsTarget(s, loops, lab)
  }

  ghost predicate InPlace(s: Stmt, loops: List<Stmt>) {
    Placed(s, loops) && Minded(s, loops)
  }

  ghost predicate AllInPlace(body: seq<Stmt>, loops: List<Stmt>) {
    forall s | s in body :: InPlace(s, loops)
  }

  /** The statements a body record has not started. */
  function Remaining(b: BodyStmt): seq<Stmt> {
    if b.next == -2 then b.body else if 0 <= b.next <= |b.body| then b.body[b.next..] else []
  }

  /** The stacks below an op; `dead` when control never falls through to there. */
  datatype Pos = Pos(stmts: List<StmtEntry>, frames: List<Frame>, dead: bool)

  /** What an op needs of the statements and frames it finds, and what it leaves
      to the ops below it. */
  ghost function Below(op: Op, rest: List<Op>, p: Pos): Option<Pos> {
    match op
    case OpExec =>
      if p.stmts.Cons? && p.stmts.head.SStmt? && (p.stmts.head.s.Basic? || p.stmts.head.s.Return?)
      then Some(Pos(p.stmts.tail, p.frames, p.dead || p.stmts.head.s.Return?)) else None
    case OpBody =>
      if p.stmts.Cons? && p.stmts.head.SBody? && AllInPlace(p.stmts.head.b.body, Loops(p.frames))
      then Some(Pos(p.stmts.tail, p.frames, p.dead || EndsSeq(Remaining(p.stmts.head.b)))) else None
    case OpForLoop => if LoopHere(true, rest, p) then Some(Pos(p.stmts.tail, p.frames.tail, Endless(p.frames.head.kind.src))) else None
    case OpRangeIter => if LoopHere(false, rest, p) then Some(Pos(p.stmts.tail, p.frames.tail, false)) else None
    case OpAssign => PastStmt(rest, p)
    case OpDefer => PastStmt(rest, p)
    case OpIfCond =>
      if p.stmts.Cons? && p.stmts.head.SBody? && IfHere(p.stmts.head.b.active, Loops(p.frames)) && Settled(rest)
      then Some(p.(dead := p.dead || Ends(p.stmts.head.b.active.value))) else None
    case OpCall =>
      if p.frames.Cons? && p.frames.head.kind.CallFrame? && p.frames.head.numOps == Len(rest)
      then Some(p.(dead := true)) else None
    case OpReturn => Some(p.(dead := true))
    case OpReturnFromBlock => Some(p.(dead := true))
    case OpPanic1 => Some(p.(dead := true))
    case OpPanic2 => None
    case OpHalt => None
    case _ => Some(p)
  }

  ghost predicate IfHere(active: Option<Stmt>, loops: List<Stmt>) {
    active.Some? && active.value.If? && InPlace(active.value, loops)
  }

  /** The op has the frame of its loop on top of the frames and its record on top
      of the statements, and the op that runs the loop statement below it. */
  ghost predicate LoopHere(isFor: bool, rest: List<Op>, p: Pos) {
    && p.stmts.Cons? && p.stmts.head.SBody? && p.stmts.tail.Cons? && p.stmts.tail.head.SBody?
    && rest.Cons? && BodyOp(rest.head)
    && p.frames.Cons? && p.frames.head.kind.LoopFrame?
    && (var fr, b := p.frames.head, p.stmts.head.b;
        && fr.numOps == Len(rest) && fr.numStmts == Len(p.stmts.tail)
        && (if isFor then fr.kind.src.For? && b.cnd == fr.kind.src.cnd else fr.kind.src.Range?)
        && b.body == fr.kind.src.body && AllInPlace(b.body, Loops(p.frames)))
  }

  /** The op ends the statement on top: a queued one goes, a body's stays. */
  function PastStmt(rest: List<Op>, p: Pos): Option<Pos> {
    if p.stmts.Nil? then None
    else if p.stmts.head.SStmt? then Some(p.(stmts := p.stmts.tail))
    else if Settled(rest) then Some(p) else None
  }

  predicate AtCall(ops: List<Op>, frames: List<Frame>) {
    frames.Cons? && frames.head.kind.CallFrame? && frames.head.numOps == Len(ops)
  }

  /** The stacks are in step all the way down: below the last op of a call are the
      stacks of its caller, which control only reaches by returning. */
  ghost predicate Aligned(ops: List<Op>, p: Pos)
    decreases ops, p.frames
  {
    if AtCall(ops, p.frames) then
      p.dead && p.frames.head.numStmts == Len(p.stmts) && Aligned(ops, Pos(p.stmts, p.frames.tail, false))
    else
      match ops
      case Nil => false
      case Cons(op, rest) =>
        if op.OpHalt? then p.frames.Nil? else
        var q := Below(op, rest, p);
        q.Some? && Aligned(rest, q.value)
  }

  ghost predicate InStep(m: State) {
    Aligned(m.ops, Pos(m.stmts, m.frames, false)) && Labelled(m.frames)
  }

  // ---------------------------------------------------------------- statements in place

  lemma {:induction false} NothingEscapes(s: Stmt, loops: List<Stmt>, lab: string)
    requires Placed(s, loops) && !HasTarget(loops, lab)
    ensures !Escapes(s, lab)
  {
    match s {
      case Block(body) => forall x | x in body ensures !Escapes(x, lab) { NothingEscapes(x, loops, lab); }
      case If(_, _, thn, els) =>
        forall x | x in thn ensures !Escapes(x, lab) { NothingEscapes(x, loops, lab); }
        forall x | x in els ensures !Escapes(x, lab) { NothingEscapes(x, loops, lab); }
      case For(l, _, _, _, body) =>
        if lab != "" && l != lab {
          forall x | x in body ensures !Escapes(x, lab) { NothingEscapes(x, Cons(s, loops), lab); }
        }
      case Range(l, _, _, _, body) =>
        if lab != "" && l != lab {
          forall x | x in body ensures !Escapes(x, lab) { NothingEscapes(x, Cons(s, loops), lab); }
        }
      case _ =>
    }
  }

  function Append(a: List<Stmt>, b: List<Stmt>): List<Stmt> {
    match a
    case Nil => b
    case Cons(s, rest) => Cons(s, Append(rest, b))
  }

  lemma {:induction false} TargetsMore(a: List<Stmt>, b: List<Stmt>, lab: string)
    requires HasTarget(a, lab)
    ensures HasTarget(Append(a, b), lab)
  {
    if !Means(a.head, lab) {
      TargetsMore(a.tail, b, lab);
    }
  }

  lemma {:induction false} PlacedMore(s: Stmt, inner: List<Stmt>, loops: List<Stmt>)
    requires Placed(s, inner)
    ensures Placed(s, Append(inner, loops))
  {
    match s {
      case Break(lab) => TargetsMore(inner, loops, lab);
      case Continue(lab) => TargetsMore(inner, loops, lab);
      case Block(body) => forall x | x in body ensures Placed(x, Append(inner, loops)) { PlacedMore(x, inner, loops); }
      case If(_, _, thn, els) =>
        forall x | x in thn ensures Placed(x, Append(inner, loops)) { PlacedMore(x, inner, loops); }
        forall x | x in els ensures Placed(x, Append(inner, loops)) { PlacedMore(x, inner, loops); }
      case For(_, _, _, _, body) =>
        forall x | x in body ensures Placed(x, Cons(s, Append(inner, loops))) { PlacedMore(x, Cons(s, inner), loops); }
      case Range(_, _, _, _, body) =>
        forall x | x in body ensures Placed(x, Cons(s, Append(inner, loops))) { PlacedMore(x, Cons(s, inner), loops); }
      case _ =>
    }
  }

  /** The body of a function is in place whatever loops it is run in, as deferred
      bodies are. */
  lemma FuncInPlace(P: Program, fv: Value, loops: List<Stmt>)
    requires Compiled(P) && P.IsFunc(fv) && !P.FuncOf(fv).native
    ensures AllInPlace(P.FuncOf(fv).body, loops)
  {
    assert P.FuncOf(fv) in P.funcs;
    forall s | s in P.FuncOf(fv).body
      ensures InPlace(s, loops)
    {
      assert Placed(s, Nil);
      PlacedMore(s, Nil, loops);
      forall lab ensures MindsTarget(s, loops, lab) { NothingEscapes(s, Nil, lab); }
    }
  }

  /** The parts of a statement in place are in place. */
  lemma PartsInPlace(s: Stmt, loops: List<Stmt>)
    requires InPlace(s, loops)
    ensures s.Block? ==> AllInPlace(s.body, loops)
    ensures s.If? ==> AllInPlace(s.thn, loops) && AllInPlace(s.els, loops)
    ensures s.For? || s.Range? ==> AllInPlace(s.body, Cons(s, loops))
  {
    match s {
      case Block(body) => forall x | x in body ensures InPlace(x, loops) { MindedPart(s, x, loops); }
      case If(_, _, thn, els) =>
        forall x | x in thn ensures InPlace(x, loops) { MindedPart(s, x, loops); }
        forall x | x in els ensures InPlace(x, loops) { MindedPart(s, x, loops); }
      case For(_, _, _, _, body) => forall x | x in body ensures InPlace(x, Cons(s, loops)) { MindedInLoop(s, x, loops); }
      case Range(_, _, _, _, body) => forall x | x in body ensures InPlace(x, Cons(s, loops)) { MindedInLoop(s, x, loops); }
      case _ =>
    }
  }

  lemma MindedPart(s: Stmt, x: Stmt, loops: List<Stmt>)
    requires Minded(s, loops)
    requires (s.Block? && x in s.body) || (s.If? && (x in s.thn || x in s.els))
    ensures Minded(x, loops)
  {
    forall lab ensures MindsTarget(x, loops, lab) { assert MindsTarget(s, loops, lab); }
  }

  lemma MindedInLoop(s: Stmt, x: Stmt, loops: List<Stmt>)
    requires Minded(s, loops)
    requires (s.For? || s.Range?) && x in s.body
    ensures Minded(x, Cons(s, loops))
  {
    forall lab ensures MindsTarget(x, Cons(s, loops), lab) { assert MindsTarget(s, loops, lab); }
  }

  // ---------------------------------------------------------------- the stacks further down

  /** Knowing that control never falls through helps. */
  lemma {:induction false} DeadAligned(ops: List<Op>, p: Pos)
    requires Aligned(ops, p)
    ensures Aligned(ops, p.(dead := true))
    decreases ops, p.frames
  {
    if !AtCall(ops, p.frames) && !ops.head.OpHalt? {
      var q := Below(ops.head, ops.tail, p).value;
      var q1 := Below(ops.head, ops.tail, p.(dead := true)).value;
      assert q1.stmts == q.stmts && q1.frames == q.frames && (q.dead ==> q1.dead);
      if q1.dead && !q.dead {
        DeadAligned(ops.tail, q);
      }
    }
  }

  lemma ChopTail<T>(l: List<T>, n: nat)
    requires l.Cons? && n <= Len(l.tail)
    ensures Chop(l, n) == Chop(l.tail, n)
  {
  }

  lemma ChopAll<T>(l: List<T>)
    ensures Chop(l, Len(l)) == l
  {
  }

  /** Where the running function was called the stacks are in step. */
  lemma {:induction false} AlignedAtCall(ops: List<Op>, p: Pos, fr: Frame, below: List<Frame>)
    requires Aligned(ops, p) && CallTail(p.frames) == Cons(fr, below)
    ensures fr.numOps <= Len(ops) && fr.numStmts <= Len(p.stmts)
    ensures Aligned(Chop(ops, fr.numOps), Pos(Chop(p.stmts, fr.numStmts), below, false))
    decreases ops, p.frames
  {
    if AtCall(ops, p.frames) {
      ChopAll(ops);
      ChopAll(p.stmts);
    } else {
      var q := Below(ops.head, ops.tail, p).value;
      AlignedAtCall(ops.tail, q, fr, below);
      ChopTail(ops, fr.numOps);
      if q.stmts != p.stmts {
        ChopTail(p.stmts, fr.numStmts);
      }
    }
  }

  /** The frames from the loop a branch means down. */
  function LoopTail(frames: List<Frame>, lab: string): List<Frame> {
    match frames
    case Nil => Nil
    case Cons(fr, rest) => if Targets(fr, lab) then frames else LoopTail(rest, lab)
  }

  lemma {:induction false} LoopTailIs(frames: List<Frame>, lab: string)
    requires Labelled(frames) && HasTarget(Loops(frames), lab)
    ensures var t := LoopTail(frames, lab);
            && t.Cons? && Targets(t.head, lab) && t.head.kind.src == Target(Loops(frames), lab)
            && Labelled(t)
  {
    if !Targets(frames.head, lab) {
      LoopTailIs(frames.tail, lab);
    }
  }

  lemma BelowIs(op: Op, rest: List<Op>, p: Pos)
    requires Below(op, rest, p).Some?
    ensures var q := Below(op, rest, p).value;
            && (q.stmts == p.stmts || (p.stmts.Cons? && q.stmts == p.stmts.tail))
            && (if op.OpForLoop? || op.OpRangeIter? then LoopHere(op.OpForLoop?, rest, p) && q.stmts == p.stmts.tail && q.frames == p.frames.tail
                else q.frames == p.frames)
  {
  }

  /** Cut back to the loop of the frame on top of `t`, the stacks are in step. */
  ghost predicate LoopAt(ops: List<Op>, stmts: List<StmtEntry>, t: List<Frame>) {
    && t.Cons? && t.head.numOps < Len(ops) && t.head.numStmts < Len(stmts)
    && (var ops1 := Chop(ops, t.head.numOps + 1);
        && ops1.Cons? && (ops1.head.OpForLoop? || ops1.head.OpRangeIter?)
        && Aligned(ops1, Pos(Chop(stmts, t.head.numStmts + 1), t, false)))
  }

  lemma LoopFurtherDown(ops: List<Op>, stmts: List<StmtEntry>, rest: List<StmtEntry>, t: List<Frame>)
    requires ops.Cons? && LoopAt(ops.tail, rest, t)
    requires rest == stmts || (stmts.Cons? && rest == stmts.tail)
    ensures LoopAt(ops, stmts, t)
  {
    hide Aligned;
    ChopTail(ops, t.head.numOps + 1);
    if rest != stmts {
      ChopTail(stmts, t.head.numStmts + 1);
    }
  }

  lemma LoopOnTop(ops: List<Op>, p: Pos)
    requires Aligned(ops, p) && ops.Cons? && (ops.head.OpForLoop? || ops.head.OpRangeIter?)
    requires LoopHere(ops.head.OpForLoop?, ops.tail, p)
    ensures LoopAt(ops, p.stmts, p.frames)
  {
    LoopFlag(ops, p, false);
    hide Aligned;
    ChopAll(ops);
    ChopAll(p.stmts);
  }

  /** The op of the loop a branch means stands in step with its record and frame. */
  lemma {:induction false} AlignedAtLoop(ops: List<Op>, p: Pos, lab: string)
    requires Aligned(ops, p) && Labelled(p.frames) && HasTarget(Loops(p.frames), lab)
    ensures LoopAt(ops, p.stmts, LoopTail(p.frames, lab))
    decreases ops, p.frames
  {
    hide Below, AllInPlace, LoopAt;
    var op := ops.head;
    var q := Below(op, ops.tail, p).value;
    BelowIs(op, ops.tail, p);
    if (op.OpForLoop? || op.OpRangeIter?) && Targets(p.frames.head, lab) {
      LoopOnTop(ops, p);
    } else {
      AlignedAtLoop(ops.tail, q, lab);
      LoopFurtherDown(ops, p.stmts, q.stmts, LoopTail(p.frames, lab));
    }
  }

  /** A loop may be left, whatever its body does. */
  lemma LoopFlag(ops: List<Op>, p: Pos, dead: bool)
    requires Aligned(ops, p) && ops.Cons? && (ops.head.OpForLoop? || ops.head.OpRangeIter?)
    requires p.frames.Cons? && p.frames.head.kind.LoopFrame?
    ensures Aligned(ops, p.(dead := dead))
  {
  }

  /** The active statement of a record matters only to a pending condition. */
  lemma {:induction false} ActiveFree(ops: List<Op>, p: Pos, active: Option<Stmt>)
    requires Aligned(ops, p) && Settled(ops) && p.stmts.Cons? && p.stmts.head.SBody?
    ensures Aligned(ops, p.(stmts := Cons(SBody(p.stmts.head.b.(active := active)), p.stmts.tail)))
    decreases ops, p.frames
  {
    if AtCall(ops, p.frames) {
      ActiveFree(ops, Pos(p.stmts, p.frames.tail, false), active);
    } else if !BodyOp(ops.head) {
      ActiveFree(ops.tail, p, active);
    }
  }

  // ---------------------------------------------------------------- pushing ops

  lemma PushedOp(op: Op, ops: List<Op>, p: Pos)
    requires !op.OpHalt? && Below(op, ops, p).Some? && Aligned(ops, Below(op, ops, p).value)
    ensures Aligned(Cons(op, ops), p)
  {
    var q := Below(op, ops, p).value;
    BelowIs(op, ops, p);
    if p.frames.Cons? && p.frames.head.kind.CallFrame? {
      hide Below, Aligned;
      AlignedAtCall(ops, q, p.frames.head, p.frames.tail);
    }
  }

  /** The ops that look at neither statements nor frames. */
  predicate Plain(op: Op) {
    !(op.OpHalt? || op.OpExec? || BodyOp(op) || op.OpAssign? || op.OpDefer? || op.OpIfCond? || op.OpCall?
      || op.OpReturn? || op.OpReturnFromBlock? || op.OpPanic1? || op.OpPanic2?)
  }

  lemma PlainOp(op: Op, ops: List<Op>, p: Pos)
    requires Aligned(ops, p) && Plain(op)
    ensures Aligned(Cons(op, ops), p)
  {
    PushedOp(op, ops, p);
  }

  lemma {:induction false} EvalsAligned(m: State, es: seq<Expr>, p: Pos)
    requires Aligned(m.ops, p)
    ensures Aligned(PushEvals(m, es).ops, p)
    ensures PushEvals(m, es).stmts == m.stmts && PushEvals(m, es).frames == m.frames
  {
    if es != [] {
      EvalsAligned(m, es[1..], p);
      PlainOp(OpEval, PushEvals(m, es[1..]).ops, p);
    }
  }

  lemma {:induction false} LoopsOfSetDefers(frames: List<Frame>, ds: seq<Deferred>)
    ensures Loops(SetDefers(frames, ds)) == Loops(frames)
    ensures Labelled(SetDefers(frames, ds)) == Labelled(frames)
  {
    match frames
    case Nil =>
    case Cons(fr, rest) => if !fr.kind.CallFrame? { LoopsOfSetDefers(rest, ds); }
  }

  lemma BelowDefers(op: Op, rest: List<Op>, p: Pos, ds: seq<Deferred>)
    requires Below(op, rest, p).Some?
    ensures var q := Below(op, rest, p).value;
            Below(op, rest, p.(frames := SetDefers(p.frames, ds))) == Some(q.(frames := SetDefers(q.frames, ds)))
  {
    LoopsOfSetDefers(p.frames, ds);
    hide AllInPlace, EndsSeq, Endless, IfHere, Remaining;
  }

  lemma {:induction false} DefersAligned(ops: List<Op>, p: Pos, ds: seq<Deferred>)
    requires Aligned(ops, p)
    ensures Aligned(ops, p.(frames := SetDefers(p.frames, ds)))
    decreases ops, p.frames
  {
    hide Below;
    if !AtCall(ops, p.frames) && !ops.head.OpHalt? {
      BelowDefers(ops.head, ops.tail, p, ds);
      DefersAligned(ops.tail, Below(ops.head, ops.tail, p).value, ds);
    }
  }

  // ---------------------------------------------------------------- statements

  ghost predicate Keeps(r: Res) {
    r.Next? ==> InStep(r.m)
  }

  function Here(m: State, dead: bool): Pos {
    Pos(m.stmts, m.frames, dead)
  }

  /** A statement about to run: a queued one, or the active one of the body whose op
      is next. */
  ghost predicate Ready(m: State, s: Stmt) {
    && Labelled(m.frames) && m.stmts.Cons?
    && (match m.stmts.head
        case SStmt(t) => t == s && (s.Basic? || s.Return?) && Aligned(m.ops, Pos(m.stmts.tail, m.frames, Ends(s)))
        case SBody(b) =>
          && b.active == Some(s) && InPlace(s, Loops(m.frames)) && Settled(m.ops)
          && (s.Basic? || BodyOp(m.ops.head))
          && Aligned(m.ops, Here(m, Ends(s))))
  }

  lemma PoppedStmt(m: State, s: Stmt)
    requires Ready(m, s)
    ensures Aligned(m.ops, Here(PopStmt(m), Ends(s))) && PopStmt(m).ops == m.ops && PopStmt(m).frames == m.frames
  {
    if m.stmts.head.SBody? {
      ActiveFree(m.ops, Here(m, Ends(s)), None);
    }
  }

  lemma BasicKeeps(P: Program, m: State, s: Stmt)
    requires Ready(m, s) && s.Basic?
    ensures Keeps(ExecSwitch(P, m, s))
  {
    hide Aligned;
    var p := Here(m, false);
    if s.s.Assign? {
      PushedOp(OpAssign, m.ops, p);
      PlainOp(OpEval, Cons(OpAssign, m.ops), p);
    } else {
      PoppedStmt(m, s);
      var op := if s.s.x.Call? then OpPopResults else OpPopValue;
      PlainOp(op, m.ops, Here(PopStmt(m), false));
      PlainOp(OpEval, Cons(op, m.ops), Here(PopStmt(m), false));
    }
  }

  lemma BlockKeeps(P: Program, m: State, s: Stmt)
    requires Ready(m, s) && s.Block?
    ensures Keeps(ExecSwitch(P, m, s))
  {
    hide Aligned;
    PartsInPlace(s, Loops(m.frames));
    PlainOp(OpPopBlock, m.ops, Here(m, Ends(s)));
    PushedOp(OpBody, Cons(OpPopBlock, m.ops), Pos(Cons(SBody(PlainBody(s.body)), m.stmts), m.frames, false));
  }

  lemma QueuedInit(m: State, init: Option<Simple>, p: Pos)
    requires Aligned(m.ops, p) && p.stmts == m.stmts
    ensures var m1 := QueueInit(m, init); Aligned(m1.ops, p.(stmts := m1.stmts)) && m1.frames == m.frames
  {
    hide Aligned;
    if init.Some? {
      PushedOp(OpExec, m.ops, p.(stmts := Cons(SStmt(Basic(init.value)), m.stmts)));
    }
  }

  lemma IfKeeps(P: Program, m: State, s: Stmt)
    requires Ready(m, s) && s.If?
    ensures Keeps(ExecSwitch(P, m, s))
  {
    hide Aligned;
    if m.blocks.Cons? {
      PlainOp(OpPopBlock, m.ops, Here(m, Ends(s)));
      PushedOp(OpIfCond, Cons(OpPopBlock, m.ops), Here(m, false));
      PlainOp(OpEval, Cons(OpIfCond, Cons(OpPopBlock, m.ops)), Here(m, false));
      var m1 := PushOp(PushOp(PushBlock(m, Some(m.blocks.head), map[]), OpPopBlock), OpIfCond);
      QueuedInit(PushEval(m1, s.cond), s.init, Here(m, false));
    }
  }

  lemma LoopKeeps(P: Program, m: State, s: Stmt)
    requires Ready(m, s) && (s.For? || s.Range?)
    ensures Keeps(ExecSwitch(P, m, s))
  {
    hide Aligned;
    if m.blocks.Cons? {
      PartsInPlace(s, Loops(m.frames));
      var m1 := PushBlock(PushFrameBasic(m, s), Some(m.blocks.head), map[]);
      var op := if s.For? then OpForLoop else OpRangeIter;
      var m2 := PushStmt(PushOp(m1, op), SBody(NewLoopBody(s)));
      PushedOp(op, m.ops, Here(m2, false));
      PlainOp(OpEval, m2.ops, Here(m2, false));
      if s.For? {
        QueuedInit(QueueCond(m2, s.cnd), s.init, Here(m2, false));
      }
    }
  }

  lemma ReturnKeeps(P: Program, m: State, s: Stmt)
    requires Ready(m, s) && s.Return?
    ensures Keeps(ExecSwitch(P, m, s))
  {
    hide Aligned;
    PoppedStmt(m, s);
    var m1 := PopStmt(m);
    var p := Here(m1, false);
    PushedOp(OpReturn, m.ops, p);
    EvalsAligned(PushOp(m1, OpReturn), s.results, p);
    PushedOp(OpReturnFromBlock, m.ops, p);
    EvalsAligned(PushOp(m1, OpReturnFromBlock), s.results, p);
    var m2 := PushOp(PushOp(m1, OpReturnFromBlock), OpReturnCallDefers);
    PlainOp(OpReturnCallDefers, Cons(OpReturnFromBlock, m.ops), p);
    EvalsAligned(m2, s.results, p);
    PlainOp(OpReturnToBlock, m2.ops, p);
    EvalsAligned(PushOp(m2, OpReturnToBlock), s.results, p);
  }

  lemma PanicKeeps(P: Program, m: State, s: Stmt)
    requires Ready(m, s) && s.Panic?
    ensures Keeps(ExecSwitch(P, m, s))
  {
    hide Aligned;
    PoppedStmt(m, s);
    PushedOp(OpPanic1, m.ops, Here(PopStmt(m), false));
    PlainOp(OpEval, Cons(OpPanic1, m.ops), Here(PopStmt(m), false));
  }

  lemma DeferKeeps(P: Program, m: State, s: Stmt)
    requires Ready(m, s) && s.Defer?
    ensures Keeps(ExecSwitch(P, m, s))
  {
    hide Aligned;
    PushedOp(OpDefer, m.ops, Here(m, false));
    EvalsAligned(PushOp(m, OpDefer), s.args, Here(m, false));
    PlainOp(OpEval, PushEvals(PushOp(m, OpDefer), s.args).ops, Here(m, false));
  }

  lemma {:induction false} BranchIs(m: State, lab: string)
    ensures DoBreak(m, lab) == if LoopTail(m.frames, lab).Nil? then GoPanic else PopFrameAndReset(m.(frames := LoopTail(m.frames, lab)))
    ensures DoContinue(m, lab) == if LoopTail(m.frames, lab).Nil? then GoPanic else PeekFrameAndContinue(m.(frames := LoopTail(m.frames, lab)))
    decreases m.frames
  {
    match m.frames
    case Nil =>
    case Cons(fr, rest) => if !Targets(fr, lab) { BranchIs(m.(frames := rest), lab); }
  }

  /** Leaving a loop that is not endless. */
  lemma LeavesLoop(m: State, p: Pos)
    requires Aligned(m.ops, p) && p.stmts == m.stmts && p.frames == m.frames && Labelled(m.frames)
    requires m.ops.Cons? && (m.ops.head.OpForLoop? || m.ops.head.OpRangeIter?)
    requires m.frames.Cons? && m.frames.head.kind.LoopFrame? && !Endless(m.frames.head.kind.src)
    ensures Chop(m.ops, m.frames.head.numOps) == m.ops.tail && Chop(m.stmts, m.frames.head.numStmts) == m.stmts.tail
    ensures Keeps(PopFrameAndReset(m))
  {
    var q := Below(m.ops.head, m.ops.tail, p).value;
    assert q == Pos(m.stmts.tail, m.frames.tail, false);
    hide Below, Aligned;
    ChopTail(m.ops, m.frames.head.numOps);
    ChopAll(m.ops.tail);
    ChopTail(m.stmts, m.frames.head.numStmts);
    ChopAll(m.stmts.tail);
    ActiveFree(m.ops.tail, q, None);
  }

  lemma BreakKeeps(P: Program, m: State, s: Stmt)
    requires Ready(m, s) && s.Break?
    ensures Keeps(ExecSwitch(P, m, s))
  {
    hide Aligned, PopFrameAndReset;
    BranchIs(m, s.target);
    AlignedAtLoop(m.ops, Here(m, false), s.target);
    LoopTailIs(m.frames, s.target);
    var t := LoopTail(m.frames, s.target);
    assert MindsTarget(s, Loops(m.frames), s.target);
    var m1 := m.(ops := Chop(m.ops, t.head.numOps + 1), stmts := Chop(m.stmts, t.head.numStmts + 1), frames := t);
    LeavesLoop(m1, Here(m1, false));
    ResetChopped(m.(frames := t), m1);
  }

  lemma ResetChopped(m: State, m1: State)
    requires m.frames.Cons? && m.frames.head.numOps < Len(m.ops) && m.frames.head.numStmts < Len(m.stmts)
    requires m1 == m.(ops := Chop(m.ops, m.frames.head.numOps + 1), stmts := Chop(m.stmts, m.frames.head.numStmts + 1))
    ensures PopFrameAndReset(m) == PopFrameAndReset(m1)
  {
    LenChop(m.ops, m.frames.head.numOps + 1);
    LenChop(m.stmts, m.frames.head.numStmts + 1);
    ChopChop(m.ops, m.frames.head.numOps + 1, m.frames.head.numOps);
    ChopChop(m.stmts, m.frames.head.numStmts + 1, m.frames.head.numStmts);
  }

  lemma ContinueKeeps(P: Program, m: State, s: Stmt)
    requires Ready(m, s) && s.Continue?
    ensures Keeps(ExecSwitch(P, m, s))
  {
    hide Aligned;
    BranchIs(m, s.target);
    AlignedAtLoop(m.ops, Here(m, false), s.target);
    LoopTailIs(m.frames, s.target);
    var t := LoopTail(m.frames, s.target);
    var ops, stmts := Chop(m.ops, t.head.numOps + 1), Chop(m.stmts, t.head.numStmts + 1);
    LoopIsHere(ops, Pos(stmts, t, false));
    var b := stmts.head.b;
    NextFree(ops, Pos(stmts, t, false), b.(next := |b.body|));
  }

  /** A loop may go on with its next round at any time. */
  lemma NextFree(ops: List<Op>, p: Pos, b: BodyStmt)
    requires Aligned(ops, p) && ops.Cons? && LoopHere(ops.head.OpForLoop?, ops.tail, p)
    requires ops.head.OpForLoop? || ops.head.OpRangeIter?
    requires b.body == p.stmts.head.b.body && b.cnd == p.stmts.head.b.cnd
    ensures Aligned(ops, p.(stmts := Cons(SBody(b), p.stmts.tail)))
  {
    hide Aligned, Below;
    BelowAligned(ops, p);
    BelowSame(ops.head, ops.tail, p, b);
    PushedOp(ops.head, ops.tail, p.(stmts := Cons(SBody(b), p.stmts.tail)));
  }

  lemma BelowSame(op: Op, rest: List<Op>, p: Pos, b: BodyStmt)
    requires (op.OpForLoop? || op.OpRangeIter?) && LoopHere(op.OpForLoop?, rest, p)
    requires b.body == p.stmts.head.b.body && b.cnd == p.stmts.head.b.cnd
    ensures Below(op, rest, p.(stmts := Cons(SBody(b), p.stmts.tail))) == Below(op, rest, p)
  {
    hide AllInPlace, Endless;
    var p1 := p.(stmts := Cons(SBody(b), p.stmts.tail));
    assert LoopHere(op.OpForLoop?, rest, p1);
  }

  lemma BelowAligned(ops: List<Op>, p: Pos)
    requires Aligned(ops, p) && ops.Cons? && !ops.head.OpHalt? && !AtCall(ops, p.frames)
    ensures var q := Below(ops.head, ops.tail, p); q.Some? && Aligned(ops.tail, q.value)
  {
    hide Below;
  }

  lemma LoopIsHere(ops: List<Op>, p: Pos)
    requires Aligned(ops, p) && ops.Cons? && (ops.head.OpForLoop? || ops.head.OpRangeIter?)
    requires p.frames.Cons? && p.frames.head.kind.LoopFrame?
    ensures LoopHere(ops.head.OpForLoop?, ops.tail, p)
  {
  }

  lemma SwitchInStep(P: Program, m: State, s: Stmt)
    requires Ready(m, s)
    ensures Keeps(ExecSwitch(P, m, s))
  {
    hide Ready, Keeps, ExecSwitch;
    match s
    case Basic(_) => BasicKeeps(P, m, s);
    case Block(_) => BlockKeeps(P, m, s);
    case If(_, _, _, _) => IfKeeps(P, m, s);
    case For(_, _, _, _, _) => LoopKeeps(P, m, s);
    case Range(_, _, _, _, _) => LoopKeeps(P, m, s);
    case Break(_) => BreakKeeps(P, m, s);
    case Continue(_) => ContinueKeeps(P, m, s);
    case Return(_) => ReturnKeeps(P, m, s);
    case Panic(_) => PanicKeeps(P, m, s);
    case Defer(_, _) => DeferKeeps(P, m, s);
  }

  // ---------------------------------------------------------------- body ops

  /** Starting the next statement of a body. */
  lemma NextReady(P: Program, m: State, b: BodyStmt)
    requires InStep(m) && m.ops.Cons? && m.ops.head.OpBody? && m.stmts.Cons? && m.stmts.head.SBody?
    requires b == m.stmts.head.b || (m.stmts.head.b.next == -2 && b == m.stmts.head.b.(next := 0))
    requires 0 <= b.next < |b.body|
    ensures Keeps(ExecNext(P, m, b))
  {
    hide ExecSwitch;
    var s := b.body[b.next];
    var b1 := b.(next := b.next + 1, active := Some(s));
    var m1 := m.(stmts := Cons(SBody(b1), m.stmts.tail));
    var p := Here(m1, Ends(s));
    assert !AtCall(m.ops, m.frames);
    var q := Below(OpBody, m.ops.tail, Here(m, false)).value;
    var q1 := Below(OpBody, m.ops.tail, p).value;
    assert q.dead ==> q1.dead by {
      assert Remaining(m.stmts.head.b) == [s] + Remaining(b1);
    }
    if !q.dead {
      DeadAligned(m.ops.tail, q);
    }
    PushedOp(OpBody, m.ops.tail, p);
    SwitchInStep(P, m1, s);
  }

  lemma BodyInStep(P: Program, m: State)
    requires InStep(m) && m.ops.Cons? && m.ops.head.OpBody?
    ensures Keeps(DoOpBody(P, m))
  {
    hide ExecNext;
    if m.stmts.Cons? && m.stmts.head.SBody? {
      var b0 := m.stmts.head.b;
      var b := if b0.next == -2 then b0.(next := 0) else b0;
      if 0 <= b.next < |b.body| {
        NextReady(P, m, b);
      } else {
        assert Remaining(b0) == [];
        assert !AtCall(m.ops, m.frames);
      }
    }
  }

  /** The record of the running loop, changed where a round may change it. */
  ghost predicate SameLoop(m: State, b: BodyStmt) {
    && InStep(m) && m.ops.Cons? && (m.ops.head.OpForLoop? || m.ops.head.OpRangeIter?)
    && m.frames.Cons? && m.frames.head.kind.LoopFrame?
    && m.stmts.Cons? && m.stmts.head.SBody?
    && b.body == m.stmts.head.b.body && b.cnd == m.stmts.head.b.cnd
  }

  lemma LoopNextReady(P: Program, m: State, b: BodyStmt)
    requires SameLoop(m, b) && 0 <= b.next < |b.body|
    ensures Keeps(ExecNext(P, m, b))
  {
    hide ExecSwitch;
    var s := b.body[b.next];
    var b1 := b.(next := b.next + 1, active := Some(s));
    var m1 := m.(stmts := Cons(SBody(b1), m.stmts.tail));
    AtLoopOp(m);
    NextFree(m.ops, Here(m, false), b1);
    LoopFlag(m.ops, Here(m1, false), Ends(s));
    SwitchInStep(P, m1, s);
  }

  lemma PostKeeps(P: Program, m: State, b: BodyStmt)
    requires SameLoop(m, b) && b.next == |b.body|
    ensures Keeps(LoopBodyOrPost(P, m, b))
  {
    hide ExecSwitch, Aligned;
    var b1 := b.(next := -1, active := if b.post.Some? then Some(Basic(b.post.value)) else None);
    var m1 := m.(stmts := Cons(SBody(b1), m.stmts.tail));
    AtLoopOp(m);
    NextFree(m.ops, Here(m, false), b1);
    PlainOp(OpEval, m.ops, Here(m1, false));
    if b.post.Some? {
      var m2 := QueueCond(m, b.cnd).(stmts := Cons(SBody(b1), m.stmts.tail));
      BasicInPlace(b.post.value, Loops(m.frames));
      SwitchInStep(P, m2, Basic(b.post.value));
    }
  }

  lemma BasicInPlace(s: Simple, loops: List<Stmt>)
    ensures InPlace(Basic(s), loops)
  {
    forall lab ensures MindsTarget(Basic(s), loops, lab) {}
  }

  lemma LoopPartInStep(P: Program, m: State, b: BodyStmt)
    requires SameLoop(m, b) && 0 <= b.next
    ensures Keeps(LoopBodyOrPost(P, m, b))
  {
    hide ExecNext, ExecSwitch;
    if b.next < |b.body| {
      LoopNextReady(P, m, b);
    } else if b.next == |b.body| {
      PostKeeps(P, m, b);
    }
  }

  lemma AtLoopOp(m: State)
    requires InStep(m) && m.ops.Cons? && (m.ops.head.OpForLoop? || m.ops.head.OpRangeIter?)
    ensures LoopHere(m.ops.head.OpForLoop?, m.ops.tail, Here(m, false))
  {
  }

  lemma ForInStep(P: Program, m: State)
    requires InStep(m) && m.ops.Cons? && m.ops.head.OpForLoop?
    ensures Keeps(DoOpForLoop(P, m))
  {
    hide LoopBodyOrPost, PopFrameAndReset, Aligned;
    AtLoopOp(m);
    var b0 := m.stmts.head.b;
    var b := if b0.next == -2 then b0.(next := -1) else b0;
    NextFree(m.ops, Here(m, false), b);
    if b.next == -1 {
      LoopPartInStep(P, m, b.(next := 0));
      if m.values.Cons? && b.cnd.Some? {
        LoopPartInStep(P, m.(values := m.values.tail), b.(next := 0));
        var m1 := m.(values := m.values.tail, stmts := Cons(SBody(b), m.stmts.tail));
        LeavesLoop(m1, Here(m1, false));
      }
    } else if b.next >= 0 {
      LoopPartInStep(P, m, b);
    }
  }

  lemma RangeBodyInStep(P: Program, m: State, b: BodyStmt)
    requires SameLoop(m, b) && 0 <= b.next && m.ops.head.OpRangeIter?
    ensures Keeps(RangeBody(P, m, b))
  {
    hide ExecNext, PopFrameAndReset;
    if b.next < |b.body| {
      LoopNextReady(P, m, b);
    } else {
      hide Aligned;
      AtLoopOp(m);
      NextFree(m.ops, Here(m, false), b.(listIndex := b.listIndex + 1, next := -1, active := None));
      LeavesLoop(m, Here(m, false));
    }
  }

  lemma RangeInStep(P: Program, m: State)
    requires InStep(m) && m.ops.Cons? && m.ops.head.OpRangeIter?
    ensures Keeps(DoOpRangeIter(P, m))
  {
    hide RangeBody, PopFrameAndReset, Aligned, WriteOpt;
    AtLoopOp(m);
    if m.values.Cons? && m.values.head.VList? {
      var b0, elems := m.stmts.head.b, m.values.head.elems;
      var b := if b0.next == -2 then b0.(listLen := |elems|, next := -1) else b0;
      LeavesLoop(m, Here(m, false));
      if b.next == -1 && 0 <= b.listIndex < |elems| {
        var m1 := AssignElement(m, b, elems[b.listIndex]);
        if m1.Some? {
          RangeBodyInStep(P, m1.value, b.(next := 0));
        }
      } else if b.next >= 0 {
        RangeBodyInStep(P, m, b);
      }
    }
  }

  // ---------------------------------------------------------------- calls

  /** Below the op that just came off. */
  ghost predicate Under(op: Op, m: State) {
    && Labelled(m.frames)
    && (var q := Below(op, m.ops, Here(m, false)); q.Some? && Aligned(m.ops, q.value))
  }

  lemma UnderTop(m: State)
    requires InStep(m) && m.ops.Cons? && !m.ops.head.OpHalt?
    ensures Under(m.ops.head, m.(ops := m.ops.tail))
  {
  }

  lemma PrecallInStep(P: Program, m: State)
    requires Under(OpPrecall, m)
    ensures Keeps(DoOpPrecall(P, m))
  {
    var r := DoOpPrecall(P, m);
    if r.Next? {
      assert Aligned(m.ops, Pos(m.stmts, r.m.frames, true));
      PushedOp(OpCall, m.ops, Here(r.m, false));
    }
  }

  lemma CallInStep(P: Program, m: State)
    requires Compiled(P) && Under(OpCall, m)
    ensures Keeps(DoOpCall(P, m))
  {
    hide Aligned;
    var fv := m.frames.head.kind.fv;
    if P.IsFunc(fv) {
      var fn := P.FuncOf(fv);
      if fn.native {
        PushedOp(OpReturn, m.ops, Here(m, false));
        PlainOp(OpCallNativeBody, Cons(OpReturn, m.ops), Here(m, false));
      } else {
        assert fn in P.funcs;
        FuncInPlace(P, fv, Nil);
        var entry := SBody(PlainBody(fn.body));
        if fn.defaults == [] {
          var stmts := Cons(SStmt(Return([])), m.stmts);
          PushedOp(OpExec, m.ops, Pos(stmts, m.frames, EndsSeq(fn.body)));
          PushedOp(OpBody, Cons(OpExec, m.ops), Pos(Cons(entry, stmts), m.frames, false));
        } else {
          PushedOp(OpBody, m.ops, Pos(Cons(entry, m.stmts), m.frames, false));
        }
      }
    }
  }

  lemma ReturnedInStep(P: Program, m: State)
    requires Labelled(m.frames) && m.frames.Cons? && m.frames.head.kind.CallFrame?
    requires var fr := m.frames.head; Aligned(Chop(m.ops, fr.numOps), Pos(Chop(m.stmts, fr.numStmts), m.frames.tail, false))
    ensures Keeps(PopFrameAndReturn(P, m))
  {
  }

  lemma {:induction false} CallTailIs(frames: List<Frame>)
    ensures var t := CallTail(frames); t.Nil? || (t.head.kind.CallFrame? && (Labelled(frames) ==> Labelled(t)))
  {
    match frames
    case Nil =>
    case Cons(fr, rest) => if !fr.kind.CallFrame? { CallTailIs(rest); }
  }

  lemma ReturnOpInStep(P: Program, m: State, op: Op)
    requires Under(op, m) && (op.OpReturn? || op.OpReturnFromBlock?)
    ensures Keeps(Dispatch(P, m, op))
  {
    hide PopFrameAndReturn, Aligned, ReadResults;
    CallTailIs(m.frames);
    var t := CallTail(m.frames);
    if t.Cons? {
      AlignedAtCall(m.ops, Here(m, true), t.head, t.tail);
      ReturnedInStep(P, m.(frames := t));
      if op.OpReturnFromBlock? && P.IsFunc(t.head.kind.fv) && BlockAt(m.blocks, t.head.numBlocks).Some? {
        ReturnedInStep(P, m.(frames := t, values := PushAll(m.values, ReadResults(m.g.store,
                         BlockAt(m.blocks, t.head.numBlocks).value, P.FuncOf(t.head.kind.fv)))));
      }
    } else {
      assert PopFrameAndReturn(P, m.(frames := t)) == GoPanic by { NoFrame(P, m.(frames := t)); }
    }
  }

  lemma NoFrame(P: Program, m: State)
    requires m.frames.Nil?
    ensures PopFrameAndReturn(P, m) == GoPanic
  {
  }

  // ---------------------------------------------------------------- the other ops

  lemma DeferredInStep(P: Program, m: State)
    requires Compiled(P) && InStep(m) && m.ops.Cons? && m.ops.head.OpReturnCallDefers? && m.g.exc.None?
    ensures Keeps(DoOpReturnCallDefers(P, m))
  {
    var p := Here(m, false);
    CallTailIs(m.frames);
    var t := CallTail(m.frames);
    assert Aligned(m.ops.tail, p);
    hide Aligned;
    if t.Cons? {
      var ds := t.head.kind.defers;
      if ds != [] && P.IsFunc(ds[|ds| - 1].fv) && !P.FuncOf(ds[|ds| - 1].fv).native {
        var ds1, fv := ds[..|ds| - 1], ds[|ds| - 1].fv;
        LoopsOfSetDefers(m.frames, ds1);
        DefersAligned(m.ops, p, ds1);
        FuncInPlace(P, fv, Loops(m.frames));
        var p1 := p.(frames := SetDefers(m.frames, ds1));
        DeadAligned(m.ops, p1);
        PushedOp(OpBody, m.ops, p1.(stmts := Cons(SBody(PlainBody(P.FuncOf(fv).body)), m.stmts)));
      }
    }
  }

  lemma PastInStep(m: State, op: Op)
    requires Under(op, m) && (op.OpAssign? || op.OpDefer?)
    ensures Aligned(m.ops, Here(PopStmt(m), false)) && PopStmt(m).frames == m.frames
  {
    if m.stmts.head.SBody? {
      ActiveFree(m.ops, Here(m, false), None);
    }
  }

  lemma DeferOpInStep(P: Program, m: State)
    requires Under(OpDefer, m)
    ensures Keeps(DoOpDefer(P, m))
  {
    PastInStep(m, OpDefer);
    hide Aligned, Under;
    var r := DoOpDefer(P, m);
    if r.Next? {
      var ds := DefersOf(r.m.frames);
      var args := TopStmt(m).value.args;
      var d := Deferred(DropN(m.values, |args|).head, TopN(m.values, |args|), m.blocks.head);
      LoopsOfSetDefers(m.frames, DefersOf(m.frames) + [d]);
      DefersAligned(m.ops, Here(PopStmt(m), false), DefersOf(m.frames) + [d]);
      assert r.m.frames == SetDefers(m.frames, DefersOf(m.frames) + [d]);
      assert Labelled(m.frames) by { UnderIs(OpDefer, m); }
    }
  }

  lemma UnderIs(op: Op, m: State)
    requires Under(op, m)
    ensures Labelled(m.frames)
  {
  }

  lemma IfInStep(P: Program, m: State)
    requires Under(OpIfCond, m)
    ensures Keeps(DoOpIfCond(m))
  {
    var b := m.stmts.head.b;
    var s := b.active.value;
    PartsInPlace(s, Loops(m.frames));
    ActiveFree(m.ops, Here(m, Ends(s)), None);
    var m1 := PopStmt(m);
    assert Aligned(m.ops, Here(m1, Ends(s)));
    hide Aligned;
    if !Ends(s) {
      DeadAligned(m.ops, Here(m1, false));
    }
    PushedOp(OpBody, m.ops, Pos(Cons(SBody(PlainBody(s.thn)), m1.stmts), m.frames, false));
    PushedOp(OpBody, m.ops, Pos(Cons(SBody(PlainBody(s.els)), m1.stmts), m.frames, false));
  }

  lemma ExecInStep(P: Program, m: State)
    requires Under(OpExec, m)
    ensures Keeps(DoOpExec(P, m))
  {
    hide ExecSwitch;
    SwitchInStep(P, m, m.stmts.head.s);
  }

  lemma EvalInStep(m: State)
    requires Under(OpEval, m)
    ensures Keeps(DoOpEval(m))
  {
    var p := Here(m, false);
    assert Aligned(m.ops, p);
    hide Aligned;
    if m.exprs.Cons? {
      match m.exprs.head {
        case Unary(op, _) => PlainOps2(OpUnary(op), OpEval, m.ops, p);
        case Binary(op, _, _) => PlainOps2(OpBinary(op), OpEval, m.ops, p); PlainOp(OpEval, Cons(OpEval, Cons(OpBinary(op), m.ops)), p);
        case And(_, _) => PlainOps2(OpBinary1, OpEval, m.ops, p);
        case Or(_, _) => PlainOps2(OpBinary1, OpEval, m.ops, p);
        case FuncLit(_) => PlainOps2(OpFuncLit, OpEval, m.ops, p);
        case Call(fn, args) =>
          PlainOp(OpPrecall, m.ops, p);
          EvalsAligned(PushOp(m, OpPrecall), args, p);
          PlainOp(OpEval, PushEvals(PushOp(m, OpPrecall), args).ops, p);
        case _ =>
      }
    }
  }

  lemma PlainOps2(op1: Op, op2: Op, ops: List<Op>, p: Pos)
    requires Aligned(ops, p) && Plain(op1) && Plain(op2)
    ensures Aligned(Cons(op2, Cons(op1, ops)), p)
  {
    hide Aligned;
    PlainOp(op1, ops, p);
    PlainOp(op2, Cons(op1, ops), p);
  }

  lemma ShortCircuitInStep(m: State)
    requires Under(OpBinary1, m)
    ensures Keeps(DoOpBinary1(m))
  {
    var p := Here(m, false);
    assert Aligned(m.ops, p);
    hide Aligned;
    PlainOps2(OpLand, OpEval, m.ops, p);
    PlainOps2(OpLor, OpEval, m.ops, p);
  }

  /** The ops that leave ops, statements and frames as they find them. */
  predicate OnlyPops(op: Op) {
    op.OpCallNativeBody? || op.OpReturnToBlock? || op.OpPopValue? || op.OpPopResults? || op.OpPopBlock?
    || op.OpUnary? || op.OpBinary? || op.OpLor? || op.OpLand? || op.OpFuncLit?
  }

  lemma OnlyPopsInStep(P: Program, m: State, op: Op)
    requires Under(op, m) && OnlyPops(op)
    ensures Keeps(Dispatch(P, m, op))
  {
    assert Aligned(m.ops, Here(m, false));
    hide Aligned, WriteResults, ApplyUnary, ApplyBinary;
    hide TopN, DropN;
    var r := Dispatch(P, m, op);
    assert r.Next? ==> r.m.ops == m.ops && r.m.stmts == m.stmts && r.m.frames == m.frames;
  }

  lemma AssignInStep(P: Program, m: State)
    requires Under(OpAssign, m)
    ensures Keeps(DoOpAssign(m))
  {
    PastInStep(m, OpAssign);
    UnderIs(OpAssign, m);
    hide Aligned, Under, Write;
  }

  /** Every step that raises no exception keeps the stacks in step. */
  lemma StepInStep(P: Program, m: State)
    requires Compiled(P) && InStep(m) && m.g.exc.None?
    requires m.ops.Cons? && !m.ops.head.OpPanic1?
    ensures Keeps(Step(P, m))
  {
    hide DoOpExec, DoOpPrecall, DoOpCall, DoOpReturn, DoOpReturnFromBlock, DoOpReturnToBlock, DoOpDefer, DoOpIfCond;
    hide DoOpEval, DoOpBinary1, DoOpAssign, DoOpBody, DoOpForLoop, DoOpRangeIter, DoOpReturnCallDefers, DoOpPanic2;
    hide DoOpCallNativeBody, DoPopResults, DoOpUnary, DoOpBinary, DoOpLogic, DoOpFuncLit, Aligned, Compiled;
    var op := m.ops.head;
    var m1 := m.(ops := m.ops.tail);
    if !op.OpHalt? {
      UnderTop(m);
    }
    match op {
      case OpHalt =>
      case OpExec => ExecInStep(P, m1);
      case OpPrecall => PrecallInStep(P, m1);
      case OpCall => CallInStep(P, m1);
      case OpReturn => ReturnOpInStep(P, m1, op);
      case OpReturnFromBlock => ReturnOpInStep(P, m1, op);
      case OpDefer => DeferOpInStep(P, m1);
      case OpIfCond => IfInStep(P, m1);
      case OpBinary1 => ShortCircuitInStep(m1);
      case OpEval => EvalInStep(m1);
      case OpAssign => AssignInStep(P, m1);
      case OpBody => BodyInStep(P, m);
      case OpForLoop => ForInStep(P, m);
      case OpRangeIter => RangeInStep(P, m);
      case OpReturnCallDefers => DeferredInStep(P, m);
      case OpPanic2 => assert false;
      case _ => OnlyPopsInStep(P, m1, op);
    }
  }

  // ---------------------------------------------------------------- whole runs

  /** No exception is pending before, between and after `n` dispatches. */
  ghost predicate Unraised(P: Program, m: State, n: nat)
    decreases n
  {
    m.g.exc.None? && (n > 0 && Step(P, m).Next? ==> Unraised(P, Step(P, m).m, n - 1))
  }

  lemma NotRaising(P: Program, m: State)
    requires Step(P, m).Next? && Step(P, m).m.g.exc.None?
    ensures m.ops.Cons? && !m.ops.head.OpPanic1?
  {
  }

  /** The stacks stay in step over every run that raises no exception. */
  lemma {:induction false} RunInStep(P: Program, m: State, n: nat)
    requires Compiled(P) && InStep(m) && Unraised(P, m, n) && Run(P, m, n).Next?
    ensures InStep(Run(P, m, n).m)
    decreases n
  {
    hide Step, Compiled, InStep;
    if n > 0 {
      var m1 := Step(P, m).m;
      assert m1.g.exc.None?;
      NotRaising(P, m);
      StepInStep(P, m);
      RunInStep(P, m1, n - 1);
    }
  }

  lemma BootInStep(m: State, e: Expr)
    requires AtRest(m)
    ensures InStep(Boot(m, e))
  {
  }

  /** In every state of a run from rest that raises no exception, a loop op finds the
      frame and the record of its loop on top, every branch about to run finds its
      loop, and below the running function are the stacks of its caller. */
  lemma {:induction false} LoopsAndCallsNest(P: Program, m: State, e: Expr, n: nat)
    requires Compiled(P) && AtRest(m) && Unraised(P, Boot(m, e), n) && Run(P, Boot(m, e), n).Next?
    ensures var x := Run(P, Boot(m, e), n).m;
            && (x.ops.Cons? && (x.ops.head.OpForLoop? || x.ops.head.OpRangeIter?) ==>
                  LoopHere(x.ops.head.OpForLoop?, x.ops.tail, Here(x, false)))
            && (x.ops.Cons? && BodyOp(x.ops.head) ==>
                  x.stmts.Cons? && x.stmts.head.SBody? && AllInPlace(x.stmts.head.b.body, Loops(x.frames)))
            && (CallTail(x.frames).Cons? ==>
                  var fr := CallTail(x.frames).head;
                  && fr.numOps <= Len(x.ops) && fr.numStmts <= Len(x.stmts)
                  && Aligned(Chop(x.ops, fr.numOps), Pos(Chop(x.stmts, fr.numStmts), CallTail(x.frames).tail, false)))
  {
    BootInStep(m, e);
    RunInStep(P, Boot(m, e), n);
    var x := Run(P, Boot(m, e), n).m;
    BodyOpFinds(x);
    hide *;
    if CallTail(x.frames).Cons? {
      AlignedAtCall(x.ops, Here(x, false), CallTail(x.frames).head, CallTail(x.frames).tail);
    }
  }

  lemma BodyOpFinds(m: State)
    requires InStep(m)
    ensures m.ops.Cons? && (m.ops.head.OpForLoop? || m.ops.head.OpRangeIter?) ==>
              LoopHere(m.ops.head.OpForLoop?, m.ops.tail, Here(m, false))
    ensures m.ops.Cons? && BodyOp(m.ops.head) ==>
              m.stmts.Cons? && m.stmts.head.SBody? && AllInPlace(m.stmts.head.b.body, Loops(m.frames))
    ensures m.ops.Cons? && m.ops.head.OpExec? ==> m.stmts.Cons? && m.stmts.head.SStmt? && (m.stmts.head.s.Basic? || m.stmts.head.s.Return?)
    ensures m.ops.Cons? ==> !m.ops.head.OpPanic2?
  {
  }
}
