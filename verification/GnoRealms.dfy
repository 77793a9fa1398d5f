/** Packages and realms over whole runs: which one is current, and when a realm
    is finalized. */
module GnoRealms {
  import opened GnoValues
  import opened GnoStacks
  import opened GnoSyntax
  import opened GnoMachine
  import opened GnoTheorems
  import GnoAlignment

  /** What a call frame says about packages: the callee's, and the saved ones. */
  datatype CallInfo = CallInfo(pkg: nat, lastPkg: nat, lastRealm: Option<nat>)

  function Calls(frames: List<Frame>): List<CallInfo> {
    match frames
    case Nil => Nil
    case Cons(fr, rest) =>
      if fr.kind.CallFrame? then
        Cons(CallInfo(if fr.kind.fv.VFunc? then fr.kind.fv.pkg else 0, fr.kind.lastPkg, fr.kind.lastRealm), Calls(rest))
      else Calls(rest)
  }

  /** The realm of the innermost call into a realm package, else the starting one. */
  function ActiveRealm(P: Program, calls: List<CallInfo>, start: Option<nat>): Option<nat> {
    match calls
    case Nil => start
    case Cons(c, rest) =>
      if P.RealmOf(c.pkg).Some? then P.RealmOf(c.pkg) else ActiveRealm(P, rest, start)
  }

  function ActivePkg(calls: List<CallInfo>, start: nat): nat {
    match calls
    case Nil => start
    case Cons(c, _) => c.pkg
  }

  /** Every frame saved what was active below it. */
  ghost predicate Saved(P: Program, calls: List<CallInfo>, pkg0: nat, realm0: Option<nat>) {
    match calls
    case Nil => true
    case Cons(c, rest) =>
      && c.lastPkg == ActivePkg(rest, pkg0)
      && c.lastRealm == ActiveRealm(P, rest, realm0)
      && Saved(P, rest, pkg0, realm0)
  }

  ghost predicate Bracketed(P: Program, m: State, pkg0: nat, realm0: Option<nat>) {
    var calls := Calls(m.frames);
    && Saved(P, calls, pkg0, realm0)
    && m.g.pkg == ActivePkg(calls, pkg0)
    && m.g.realm == ActiveRealm(P, calls, realm0)
  }

  /** The realms the log says were finalized, in order. */
  function FinalizedIn(es: seq<Event>): seq<nat> {
    if es == [] then []
    else FinalizedIn(es[..|es| - 1]) + (if es[|es| - 1].Finalized? then [es[|es| - 1].realm] else [])
  }

  lemma FinalizedMore(es: seq<Event>, v: Event)
    ensures FinalizedIn(es + [v]) == FinalizedIn(es) + (if v.Finalized? then [v.realm] else [])
  {
    assert (es + [v])[..|es|] == es;
  }

  // ---------------------------------------------------------------- calm states

  /** A loop of the running function that the branch can mean. */
  predicate Targeted(frames: List<Frame>, lab: string) {
    match frames
    case Nil => false
    case Cons(fr, rest) => fr.kind.LoopFrame? && (Targets(fr, lab) || Targeted(rest, lab))
  }

  predicate BranchTargeted(frames: List<Frame>, s: Stmt) {
    && (s.Break? ==> Targeted(frames, s.target))
    && (s.Continue? ==> Targeted(frames, s.target))
  }

  /** The branches the top statement entry may execute next have their loop. */
  predicate BranchesTargeted(m: State) {
    match m.stmts
    case Nil => true
    case Cons(SStmt(s), _) => BranchTargeted(m.frames, s)
    case Cons(SBody(b), _) => forall s | s in b.body :: BranchTargeted(m.frames, s)
  }

  predicate InLoop(m: State) {
    m.frames.Cons? && m.frames.head.kind.LoopFrame?
  }

  /** No panic is raised or pending, a loop op has its frame on top, and no branch
      is about to leave its function. */
  predicate Calm(m: State) {
    match m.ops
    case Nil => true
    case Cons(op, _) =>
      && m.g.exc.None?
      && !op.OpPanic1? && !op.OpPanic2?
      && (op.OpExec? || op.OpBody? || op.OpForLoop? || op.OpRangeIter? ==> BranchesTargeted(m))
      && (op.OpForLoop? || op.OpRangeIter? ==> InLoop(m))
  }

  // ---------------------------------------------------------------- what ops do to call frames

  lemma {:induction false} CallsOfCallTail(frames: List<Frame>)
    ensures Calls(CallTail(frames)) == Calls(frames)
  {
    match frames
    case Nil =>
    case Cons(fr, rest) => if !fr.kind.CallFrame? { CallsOfCallTail(rest); }
  }

  lemma {:induction false} CallsOfSetDefers(frames: List<Frame>, ds: seq<Deferred>)
    ensures Calls(SetDefers(frames, ds)) == Calls(frames)
  {
    match frames
    case Nil =>
    case Cons(fr, rest) => if !fr.kind.CallFrame? { CallsOfSetDefers(rest, ds); }
  }

  lemma {:induction false} BranchKeepsCalls(m: State, lab: string)
    requires Targeted(m.frames, lab)
    ensures SameBracket(m, DoBreak(m, lab))
    ensures SameBracket(m, DoContinue(m, lab))
    decreases m.frames
  {
    if !Targets(m.frames.head, lab) {
      BranchKeepsCalls(m.(frames := m.frames.tail), lab);
    }
  }

  /** The step leaves calls, package and realm alone and finalizes nothing. */
  ghost predicate SameBracket(m: State, r: Res) {
    r.Next? ==>
      && Calls(r.m.frames) == Calls(m.frames)
      && r.m.g.pkg == m.g.pkg && r.m.g.realm == m.g.realm
      && FinalizedIn(r.m.g.events) == FinalizedIn(m.g.events)
  }

  lemma {:induction false} EvalsKeep(m: State, es: seq<Expr>)
    ensures PushEvals(m, es).frames == m.frames && PushEvals(m, es).g == m.g
  {
    if es != [] {
      EvalsKeep(m, es[1..]);
    }
  }

  lemma SwitchKeeps(P: Program, m: State, s: Stmt)
    requires BranchTargeted(m.frames, s)
    ensures SameBracket(m, ExecSwitch(P, m, s))
  {
    match s {
      case Break(lab) => BranchKeepsCalls(m, lab);
      case Continue(lab) => BranchKeepsCalls(m, lab);
      case Defer(_, args) => EvalsKeep(PushOp(m, OpDefer), args);
      case Return(es) =>
        var m1 := PopStmt(m);
        EvalsKeep(PushOp(PushOp(m1, OpReturnFromBlock), OpReturnCallDefers), es);
        EvalsKeep(PushOp(PushOp(PushOp(m1, OpReturnFromBlock), OpReturnCallDefers), OpReturnToBlock), es);
        EvalsKeep(PushOp(m1, OpReturnFromBlock), es);
        EvalsKeep(PushOp(m1, OpReturn), es);
      case _ =>
    }
  }

  lemma NextKeeps(P: Program, m: State, b: BodyStmt)
    requires m.stmts.Cons? && 0 <= b.next < |b.body|
    requires BranchTargeted(m.frames, b.body[b.next])
    ensures SameBracket(m, ExecNext(P, m, b))
  {
    hide ExecSwitch;
    var s := b.body[b.next];
    SwitchKeeps(P, m.(stmts := Cons(SBody(b.(next := b.next + 1, active := Some(s))), m.stmts.tail)), s);
  }

  lemma BodyOpKeeps(P: Program, m: State)
    requires BranchesTargeted(m)
    ensures SameBracket(m, DoOpBody(P, m))
    ensures SameBracket(m, DoOpExec(P, m))
  {
    hide ExecSwitch, ExecNext;
    match m.stmts {
      case Cons(SBody(b0), _) =>
        var b := if b0.next == -2 then b0.(next := 0) else b0;
        if 0 <= b.next < |b.body| {
          NextKeeps(P, m, b);
        }
      case Cons(SStmt(s), _) => SwitchKeeps(P, m, s);
      case _ =>
    }
  }

  lemma LoopPartKeeps(P: Program, m: State, b: BodyStmt)
    requires m.stmts.Cons? && 0 <= b.next && InLoop(m)
    requires forall s | s in b.body :: BranchTargeted(m.frames, s)
    ensures SameBracket(m, LoopBodyOrPost(P, m, b))
    ensures SameBracket(m, RangeBody(P, m, b))
  {
    hide ExecSwitch, ExecNext;
    if b.next < |b.body| {
      assert b.body[b.next] in b.body;
      NextKeeps(P, m, b);
    } else if b.next == |b.body| && b.post.Some? {
      var m1 := QueueCond(m, b.cnd);
      var b1 := b.(next := -1, active := Some(Basic(b.post.value)));
      SwitchKeeps(P, m1.(stmts := Cons(SBody(b1), m.stmts.tail)), Basic(b.post.value));
    }
  }

  lemma LoopOpKeeps(P: Program, m: State)
    requires BranchesTargeted(m) && InLoop(m)
    ensures SameBracket(m, DoOpForLoop(P, m))
  {
    hide LoopBodyOrPost;
    if m.stmts.Cons? && m.stmts.head.SBody? {
      var b0 := m.stmts.head.b;
      var b := if b0.next == -2 then b0.(next := -1) else b0;
      if b.next == -1 {
        LoopPartKeeps(P, m, b.(next := 0));
        if m.values.Cons? {
          LoopPartKeeps(P, m.(values := m.values.tail), b.(next := 0));
        }
      } else if b.next >= 0 {
        LoopPartKeeps(P, m, b);
      }
    }
  }

  lemma RangeOpKeeps(P: Program, m: State)
    requires BranchesTargeted(m) && InLoop(m)
    ensures SameBracket(m, DoOpRangeIter(P, m))
  {
    hide RangeBody;
    if m.stmts.Cons? && m.stmts.head.SBody? && m.values.Cons? && m.values.head.VList? {
      var b0, elems := m.stmts.head.b, m.values.head.elems;
      var b := if b0.next == -2 then b0.(listLen := |elems|, next := -1) else b0;
      if b.next == -1 && 0 <= b.listIndex < |elems| {
        var m1 := AssignElement(m, b, elems[b.listIndex]);
        if m1.Some? {
          LoopPartKeeps(P, m1.value, b.(next := 0));
        }
      } else if b.next >= 0 {
        LoopPartKeeps(P, m, b);
      }
    }
  }

  lemma EvalOpKeeps(m: State)
    ensures SameBracket(m, DoOpEval(m))
  {
    if m.exprs.Cons? && m.exprs.head.Call? {
      EvalsKeep(PushOp(m, OpPrecall), m.exprs.head.args);
    }
  }

  lemma DeferOpsKeep(P: Program, m: State)
    requires m.g.exc.None?
    ensures SameBracket(m, DoOpReturnCallDefers(P, m))
    ensures SameBracket(m, DoOpDefer(P, m))
  {
    var tail := CallTail(m.frames);
    if tail.Cons? && tail.head.kind.CallFrame? {
      var ds := tail.head.kind.defers;
      if ds != [] {
        CallsOfSetDefers(m.frames, ds[..|ds| - 1]);
        if BlockAt(m.blocks, tail.head.numBlocks).Some? {
          FinalizedMore(m.g.events, RanDefer(BlockAt(m.blocks, tail.head.numBlocks).value, |ds| - 1, ds[|ds| - 1]));
        }
      }
    }
    if TopStmt(m).Some? && TopStmt(m).value.Defer? && m.blocks.Cons? {
      var args := TopStmt(m).value.args;
      if Len(m.values) > |args| {
        var rest, ds := DropN(m.values, |args|), DefersOf(m.frames);
        var d := Deferred(rest.head, TopN(m.values, |args|), m.blocks.head);
        CallsOfSetDefers(m.frames, ds + [d]);
        FinalizedMore(m.g.events, Pushed(ActOf(m), |ds|, d));
      }
    }
  }

  predicate Crosses(op: Op) {
    op.OpPrecall? || op.OpReturn? || op.OpReturnFromBlock?
  }

  /** No other op touches the brackets. */
  lemma OthersKeep(P: Program, m: State)
    requires Calm(m) && m.ops.Cons? && !Crosses(m.ops.head)
    ensures SameBracket(m, Step(P, m))
  {
    hide DoOpExec, DoOpBody, DoOpForLoop, DoOpRangeIter, DoOpEval, DoOpReturnCallDefers, DoOpDefer;
    var op := m.ops.head;
    var m1 := if Sticky(op) then m else m.(ops := m.ops.tail);
    match op {
      case OpExec => BodyOpKeeps(P, m1);
      case OpBody => BodyOpKeeps(P, m1);
      case OpForLoop => LoopOpKeeps(P, m1);
      case OpRangeIter => RangeOpKeeps(P, m1);
      case OpEval => EvalOpKeeps(m1);
      case OpReturnCallDefers => DeferOpsKeep(P, m1);
      case OpDefer => DeferOpsKeep(P, m1);
      case _ =>
    }
  }

  // ---------------------------------------------------------------- the invariant

  /** The call a return leaves had entered another realm, or nothing is below it. */
  ghost predicate SwitchedOrOutermost(P: Program, frames: List<Frame>, realm0: Option<nat>)
    requires CallTail(frames).Cons?
  {
    var calls := Calls(CallTail(frames));
    var below := Calls(CallTail(frames).tail);
    || CallTail(frames).tail.Nil?
    || ActiveRealm(P, calls, realm0) != ActiveRealm(P, below, realm0)
  }

  /** The realm the next dispatch has to finalize: at a return of a call that had
      switched realm, or of the outermost one, with a realm active, that realm. */
  ghost function Due(P: Program, m: State, realm0: Option<nat>): seq<nat> {
    var active := ActiveRealm(P, Calls(m.frames), realm0);
    if m.ops.Cons? && (m.ops.head.OpReturn? || m.ops.head.OpReturnFromBlock?) && CallTail(m.frames).Cons?
       && active.Some? && SwitchedOrOutermost(P, m.frames, realm0)
    then [active.value] else []
  }

  /** Every calm step keeps the bracketing and finalizes what is due. */
  lemma StepKeepsBracket(P: Program, m: State, pkg0: nat, realm0: Option<nat>)
    requires Bracketed(P, m, pkg0, realm0) && Calm(m)
    requires Step(P, m).Next?
    ensures Bracketed(P, Step(P, m).m, pkg0, realm0)
    ensures FinalizedIn(Step(P, m).m.g.events) == FinalizedIn(m.g.events) + Due(P, m, realm0)
  {
    assert m.ops.Cons?;
    hide Step;
    if m.ops.head.OpPrecall? {
      PrecallBrackets(P, m, pkg0, realm0);
    } else if Crosses(m.ops.head) {
      ReturnBrackets(P, m, pkg0, realm0);
    } else {
      OthersKeep(P, m);
    }
  }

  lemma PrecallBrackets(P: Program, m: State, pkg0: nat, realm0: Option<nat>)
    requires Bracketed(P, m, pkg0, realm0) && m.ops.Cons? && m.ops.head.OpPrecall?
    requires Step(P, m).Next?
    ensures Bracketed(P, Step(P, m).m, pkg0, realm0)
    ensures Step(P, m).m.g.events == m.g.events
  {
  }

  /** A return op leaves the call on top of the call frames. */
  lemma ReturnStep(P: Program, m: State)
    requires m.ops.Cons? && (m.ops.head.OpReturn? || m.ops.head.OpReturnFromBlock?) && Step(P, m).Next?
    ensures CallTail(m.frames).Cons? && CallTail(m.frames).head.kind.CallFrame?
    ensures var fr, rest, g := CallTail(m.frames).head, CallTail(m.frames).tail, Step(P, m).m.g;
            && Step(P, m).m.frames == rest && g.pkg == fr.kind.lastPkg && g.realm == fr.kind.lastRealm
            && g.events == Finalize(m.g, fr.kind.lastRealm, rest.Nil?).events
  {
    hide ReadResults, PushAll, TopN, Chop;
  }

  lemma ReturnBrackets(P: Program, m: State, pkg0: nat, realm0: Option<nat>)
    requires Bracketed(P, m, pkg0, realm0) && m.ops.Cons?
    requires m.ops.head.OpReturn? || m.ops.head.OpReturnFromBlock?
    requires Step(P, m).Next?
    ensures Bracketed(P, Step(P, m).m, pkg0, realm0)
    ensures FinalizedIn(Step(P, m).m.g.events) == FinalizedIn(m.g.events) + Due(P, m, realm0)
  {
    hide Step;
    ReturnStep(P, m);
    CallsOfCallTail(m.frames);
    if m.g.realm.Some? {
      FinalizedMore(m.g.events, Finalized(m.g.realm.value));
    }
  }

  // ---------------------------------------------------------------- whole runs

  lemma {:induction false} TargetedIs(frames: List<Frame>, lab: string)
    requires GnoAlignment.Labelled(frames) && GnoAlignment.HasTarget(GnoAlignment.Loops(frames), lab)
    ensures Targeted(frames, lab)
  {
    if !Targets(frames.head, lab) {
      TargetedIs(frames.tail, lab);
    }
  }

  /** Stacks in step are calm while no exception is raised. */
  lemma InStepIsCalm(m: State)
    requires GnoAlignment.InStep(m) && m.g.exc.None? && m.ops.Cons? && !m.ops.head.OpPanic1?
    ensures Calm(m)
  {
    GnoAlignment.BodyOpFinds(m);
    if GnoAlignment.BodyOp(m.ops.head) {
      forall s | s in m.stmts.head.b.body
        ensures BranchTargeted(m.frames, s)
      {
        assert GnoAlignment.InPlace(s, GnoAlignment.Loops(m.frames));
        if s.Break? || s.Continue? {
          TargetedIs(m.frames, s.target);
        }
      }
    }
  }

  /** The realms due along `n` dispatches. */
  ghost function DueIn(P: Program, m: State, n: nat, realm0: Option<nat>): seq<nat>
    decreases n
  {
    if n == 0 || !Step(P, m).Next? then []
    else Due(P, m, realm0) + DueIn(P, Step(P, m).m, n - 1, realm0)
  }

  lemma {:induction false} RunKeepsBracket(P: Program, m: State, n: nat, pkg0: nat, realm0: Option<nat>)
    requires GnoAlignment.Compiled(P) && GnoAlignment.InStep(m) && GnoAlignment.Unraised(P, m, n)
    requires Bracketed(P, m, pkg0, realm0) && Run(P, m, n).Next?
    ensures Bracketed(P, Run(P, m, n).m, pkg0, realm0)
    ensures FinalizedIn(Run(P, m, n).m.g.events) == FinalizedIn(m.g.events) + DueIn(P, m, n, realm0)
    decreases n
  {
    hide Step, Due, Bracketed, FinalizedIn, GnoAlignment.InStep, GnoAlignment.Compiled;
    if n > 0 {
      var m1 := Step(P, m).m;
      assert m1.g.exc.None?;
      GnoAlignment.NotRaising(P, m);
      InStepIsCalm(m);
      StepKeepsBracket(P, m, pkg0, realm0);
      GnoAlignment.StepInStep(P, m);
      RunKeepsBracket(P, m1, n - 1, pkg0, realm0);
    }
  }

  /** Over every run from rest that raises no exception: the current realm is that of
      the innermost call into a realm package, else the starting one; the current
      package is that of the innermost call; every frame saved those of its caller;
      and the realms finalized are, in order, those due at the returns of the run. */
  lemma {:induction false} RealmsBracketRuns(P: Program, m: State, e: Expr, n: nat)
    requires GnoAlignment.Compiled(P) && AtRest(m)
    requires GnoAlignment.Unraised(P, Boot(m, e), n) && Run(P, Boot(m, e), n).Next?
    ensures var m2 := Run(P, Boot(m, e), n).m;
            && m2.g.realm == ActiveRealm(P, Calls(m2.frames), m.g.realm)
            && m2.g.pkg == ActivePkg(Calls(m2.frames), m.g.pkg)
            && Saved(P, Calls(m2.frames), m.g.pkg, m.g.realm)
            && FinalizedIn(m2.g.events) == FinalizedIn(m.g.events) + DueIn(P, Boot(m, e), n, m.g.realm)
  {
    GnoAlignment.BootInStep(m, e);
    RunKeepsBracket(P, Boot(m, e), n, m.g.pkg, m.g.realm);
  }

  /** Raising a panic keeps the bracketing: package and realm are still those of the
      innermost call when its deferred calls start. */
  lemma RaisingKeepsBracket(P: Program, m: State, pkg0: nat, realm0: Option<nat>)
    requires Bracketed(P, m, pkg0, realm0) && m.ops.Cons? && m.ops.head.OpPanic1? && Step(P, m).Next?
    ensures Bracketed(P, Step(P, m).m, pkg0, realm0)
  {
    CallsOfCallTail(m.frames);
  }
}
