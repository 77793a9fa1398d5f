/** The machine realises the structured semantics: every evaluation, call,
    statement and body, whatever its outcome. */
module GnoSimulation {
  import opened GnoValues
  import opened GnoStacks
  import opened GnoSyntax
  import opened GnoMachine
  import opened GnoSemantics
  import opened GnoSimBase

  // ---------------------------------------------------------------- expressions

  /** From ops O + [OpEval] and exprs X + [e], the run reaches O, X and the value
      of `e` on top of the value stack, or fails as `e` does. */
  lemma {:induction false} SimExpr(P: Program, fuel: nat, e: Expr, m: State) returns (n: nat, m2: State)
    requires m.blocks.Cons? && CallOK(m)
    ensures ExprSim(P, fuel, PushEval(m, e), m, n, m2, Eval(P, fuel, e, m.blocks.head, m.frames.Nil?, m.g))
    decreases fuel, 0, e, 2
  {
    hide Step;
    var start := PushEval(m, e);
    m2 := m;
    StepEval(P, m, e);
    match e {
      case Const(v) =>
        n := 1;
        StepThen(P, start, PushValue(m, v), 0);
      case Name(p) =>
        n := 1;
        var v := Load(m.g.store, m.blocks.head, p);
        if v.Some? {
          StepThen(P, start, PushValue(m, v.value), 0);
        }
      case Unary(_, _) => n, m2 := SimUnary(P, fuel, e, m);
      case Binary(_, _, _) => n, m2 := SimBinary(P, fuel, e, m);
      case And(_, _) => n, m2 := SimLogic(P, fuel, e, m);
      case Or(_, _) => n, m2 := SimLogic(P, fuel, e, m);
      case FuncLit(fid) =>
        n := 3;
        var m1 := PushOp(m.(exprs := Cons(e, m.exprs)), OpFuncLit);
        StepThen(P, start, PushEval(m1, Const(VType)), 2);
        StepEval(P, m1, Const(VType));
        StepThen(P, PushEval(m1, Const(VType)), PushValue(m1, VType), 1);
        OnFuncLit(P, PushValue(m1, VType));
        StepThen(P, PushValue(m1, VType), PushValue(m, VFunc(fid, m.blocks.head, m.g.pkg)), 0);
      case Call(_, _) =>
        n, m2 := SimCall(P, fuel, e, m);
        var r := EvalCall(P, fuel, e, m.blocks.head, m.frames.Nil?, m.g);
        if r.Ok? && |r.v| == 1 {
          assert r.v[1..] == [];
          assert PushAll(m.values, r.v) == PushAll(Cons(r.v[0], m.values), []);
        }
    }
  }

  lemma {:induction false} SimUnary(P: Program, fuel: nat, e: Expr, m: State) returns (n: nat, m2: State)
    requires m.blocks.Cons? && CallOK(m) && e.Unary?
    ensures ExprSim(P, fuel, PushEval(m, e), m, n, m2, Eval(P, fuel, e, m.blocks.head, m.frames.Nil?, m.g))
    decreases fuel, 0, e, 0
  {
    hide Step;
    var start := PushEval(m, e);
    var mA := PushOp(m.(exprs := Cons(e, m.exprs)), OpUnary(e.uop));
    ExtNear(m, mA);
    CallExt(m, mA);
    var n1;
    n1, m2 := SimExpr(P, fuel, e.x, mA);
    StepEval(P, m, e);
    StepThen(P, start, PushEval(mA, e.x), 0);
    var r := Eval(P, fuel, e.x, m.blocks.head, m.frames.Nil?, m.g);
    if r.Ok? {
      var mB := mA.(values := Cons(r.v, mA.values), g := r.g);
      n := 1 + (n1 + 1);
      RunThen(P, start, 1, PushEval(mA, e.x), n1 + 1);
      RunThen(P, PushEval(mA, e.x), n1, mB, 1);
      OnUnary(P, mB);
    } else {
      n := 1 + n1;
      Propagate(P, fuel, start, 1, PushEval(mA, e.x), m, mA, n1, m2, r, r);
    }
  }

  lemma {:induction false} SimBinary(P: Program, fuel: nat, e: Expr, m: State) returns (n: nat, m2: State)
    requires m.blocks.Cons? && CallOK(m) && e.Binary?
    ensures ExprSim(P, fuel, PushEval(m, e), m, n, m2, Eval(P, fuel, e, m.blocks.head, m.frames.Nil?, m.g))
    decreases fuel, 0, e, 0
  {
    hide Step;
    var start := PushEval(m, e);
    var mO := PushOp(m.(exprs := Cons(e, m.exprs)), OpBinary(e.bop));
    var mA := PushEval(mO, e.right);
    ExtNear(m, mA);
    CallExt(m, mA);
    var n1;
    n1, m2 := SimExpr(P, fuel, e.left, mA);
    StepEval(P, m, e);
    StepThen(P, start, PushEval(mA, e.left), 0);
    var r := Eval(P, fuel, e.left, m.blocks.head, m.frames.Nil?, m.g);
    if r.Ok? {
      var mB := mO.(values := Cons(r.v, m.values), g := r.g);
      ExtNear(m, mB);
      CallExt(m, mB);
      RunThen(P, start, 1, PushEval(mA, e.left), n1);
      assert PushEval(mB, e.right) == mA.(values := Cons(r.v, m.values), g := r.g);
      var n2;
      n2, m2 := SimExpr(P, fuel, e.right, mB);
      var r2 := Eval(P, fuel, e.right, m.blocks.head, m.frames.Nil?, r.g);
      if r2.Ok? {
        var mC := mB.(values := Cons(r2.v, mB.values), g := r2.g);
        n := 1 + n1 + (n2 + 1);
        RunThen(P, start, 1 + n1, PushEval(mB, e.right), n2 + 1);
        RunThen(P, PushEval(mB, e.right), n2, mC, 1);
        OnBinary(P, mC);
      } else {
        n := 1 + n1 + n2;
        Propagate(P, fuel, start, 1 + n1, PushEval(mB, e.right), m, mB, n2, m2, r2, r2);
      }
    } else {
      n := 1 + n1;
      Propagate(P, fuel, start, 1, PushEval(mA, e.left), m, mA, n1, m2, r, r);
    }
  }

  /** `&&` and `||`: the right operand is queued only when the left does not decide. */
  lemma {:induction false} SimLogic(P: Program, fuel: nat, e: Expr, m: State) returns (n: nat, m2: State)
    requires m.blocks.Cons? && CallOK(m) && (e.And? || e.Or?)
    ensures ExprSim(P, fuel, PushEval(m, e), m, n, m2, Eval(P, fuel, e, m.blocks.head, m.frames.Nil?, m.g))
    decreases fuel, 0, e, 1
  {
    hide Step, Run, Eval, EvalRight;
    LogicUnfolds(P, fuel, e, m.blocks.head, m.frames.Nil?, m.g);
    var start := PushEval(m, e);
    var mA := PushOp(m.(exprs := Cons(e, m.exprs)), OpBinary1);
    ExtNear(m, mA);
    CallExt(m, mA);
    var n1;
    n1, m2 := SimExpr(P, fuel, e.left, mA);
    StepEval(P, m, e);
    Once(P, start);
    var r := Eval(P, fuel, e.left, m.blocks.head, m.frames.Nil?, m.g);
    if !r.Ok? {
      n := 1 + n1;
      Propagate(P, fuel, start, 1, PushEval(mA, e.left), m, mA, n1, m2, r, r);
      return;
    }
    var mB := mA.(values := Cons(r.v, m.values), g := r.g);
    RunThen(P, start, 1, PushEval(mA, e.left), n1);
    if r.v == VBool(e.And?) {
      var n2;
      n2, m2 := SimRight(P, fuel, e, m, r.g);
      n := 1 + n1 + n2;
      RunThen(P, start, 1 + n1, mB, n2);
    } else {
      n := 1 + n1 + 1;
      RunThen(P, start, 1 + n1, mB, 1);
      OnBinary1(P, mB);
    }
  }

  /** The meaning of `&&` or `||` once the left operand has left the decision open. */
  function EvalRight(P: Program, fuel: nat, e: Expr, blk: nat, top: bool, g: Globals): EvalR<Value>
    requires e.And? || e.Or?
  {
    match Eval(P, fuel, e.right, blk, top, g)
    case Ok(VBool(b), g2) => Ok(VBool(b), g2)
    case Ok(_, _) => Failed
    case x => x
  }

  lemma LogicUnfolds(P: Program, fuel: nat, e: Expr, blk: nat, top: bool, g: Globals)
    requires e.And? || e.Or?
    ensures var r := Eval(P, fuel, e.left, blk, top, g);
            Eval(P, fuel, e, blk, top, g) ==
            if !r.Ok? then r else if !r.v.VBool? then Failed
            else if r.v.b == e.And? then EvalRight(P, fuel, e, blk, top, r.g) else Ok(r.v, r.g)
  {
  }

  lemma {:induction false} SimRight(P: Program, fuel: nat, e: Expr, m: State, g: Globals) returns (n: nat, m2: State)
    requires m.blocks.Cons? && CallOK(m) && (e.And? || e.Or?)
    ensures ExprSim(P, fuel,
                    State(Cons(OpBinary1, m.ops), Cons(VBool(e.And?), m.values), Cons(e, m.exprs), m.stmts, m.blocks, m.frames, g),
                    m, n, m2, EvalRight(P, fuel, e, m.blocks.head, m.frames.Nil?, g))
    decreases fuel, 0, e, 0
  {
    hide Step;
    var mB := State(Cons(OpBinary1, m.ops), Cons(VBool(e.And?), m.values), Cons(e, m.exprs), m.stmts, m.blocks, m.frames, g);
    var mC := PushOp(m.(values := mB.values, g := g), if e.And? then OpLand else OpLor);
    OnBinary1(P, mB);
    StepThen(P, mB, PushEval(mC, e.right), 0);
    ExtNear(m, mC);
    CallExt(m, mC);
    var n2;
    n2, m2 := SimExpr(P, fuel, e.right, mC);
    var r2 := Eval(P, fuel, e.right, m.blocks.head, m.frames.Nil?, g);
    if r2.Ok? {
      var mD := mC.(values := Cons(r2.v, mC.values), g := r2.g);
      n := 1 + (n2 + 1);
      RunThen(P, mB, 1, PushEval(mC, e.right), n2 + 1);
      RunThen(P, PushEval(mC, e.right), n2, mD, 1);
      OnLogic(P, mD);
    } else {
      n := 1 + n2;
      Propagate(P, fuel, mB, 1, PushEval(mC, e.right), m, mC, n2, m2, r2, r2);
    }
  }

  lemma {:induction false} SimList(P: Program, fuel: nat, es: seq<Expr>, m: State) returns (n: nat, m2: State)
    requires m.blocks.Cons? && CallOK(m)
    ensures ListSim(P, fuel, PushEvals(m, es), m, n, m2, EvalList(P, fuel, es, m.blocks.head, m.frames.Nil?, m.g))
    decreases fuel, 0, es, 0
  {
    hide Step;
    m2 := m;
    if es == [] {
      n := 0;
      return;
    }
    var mA := PushEvals(m, es[1..]);
    ExtEvals(m, es[1..]);
    CallExt(m, mA);
    n, m2 := SimExpr(P, fuel, es[0], mA);
    var r := Eval(P, fuel, es[0], m.blocks.head, m.frames.Nil?, m.g);
    if r.Ok? {
      var mB := m.(values := Cons(r.v, m.values), g := r.g);
      ExtNear(m, mB);
      CallExt(m, mB);
      EvalsElsewhere(m, mB, es[1..]);
      var n2;
      n2, m2 := SimList(P, fuel, es[1..], mB);
      RunThen(P, PushEvals(m, es), n, PushEvals(mB, es[1..]), n2);
      var r2 := EvalList(P, fuel, es[1..], m.blocks.head, m.frames.Nil?, r.g);
      if r2.Ok? {
        assert ([r.v] + r2.v)[1..] == r2.v;
      } else {
        Propagate(P, fuel, PushEvals(m, es), n, PushEvals(mB, es[1..]), m, mB, n2, m2, r2, r2);
      }
      n := n + n2;
    } else {
      Propagate(P, fuel, PushEvals(m, es), 0, PushEvals(m, es), m, mA, n, m2, r, Recast<Value, seq<Value>>(r));
    }
  }

  /** Queueing does not look at values or globals. */
  lemma EvalsElsewhere(m: State, mB: State, es: seq<Expr>)
    requires mB == m.(values := mB.values, g := mB.g)
    ensures PushEvals(mB, es) == PushEvals(m, es).(values := mB.values, g := mB.g)
  {
  }

  lemma {:induction false} SimCall(P: Program, fuel: nat, e: Expr, m: State) returns (n: nat, m2: State)
    requires m.blocks.Cons? && CallOK(m) && e.Call?
    ensures ListSim(P, fuel, PushEval(m, e), m, n, m2, EvalCall(P, fuel, e, m.blocks.head, m.frames.Nil?, m.g))
    decreases fuel, 0, e, 0
  {
    hide Step, Run, Eval, EvalList, CallFn;
    var start := PushEval(m, e);
    var mO := PushOp(m.(exprs := Cons(e, m.exprs)), OpPrecall);
    var mA := PushEvals(mO, e.args);
    ExtNear(m, mO);
    ExtEvals(mO, e.args);
    ExtTrans(m, mO, mA);
    CallExt(m, mA);
    var n1;
    n1, m2 := SimExpr(P, fuel, e.fn, mA);
    StepEval(P, m, e);
    RunNone(P, PushEval(mA, e.fn));
    StepThen(P, start, PushEval(mA, e.fn), 0);
    var r := Eval(P, fuel, e.fn, m.blocks.head, m.frames.Nil?, m.g);
    if !r.Ok? {
      n := 1 + n1;
      Propagate(P, fuel, start, 1, PushEval(mA, e.fn), m, mA, n1, m2, r, Recast<Value, seq<Value>>(r));
      return;
    }
    var mB := mO.(values := Cons(r.v, m.values), g := r.g);
    EvalsElsewhere(mO, mB, e.args);
    RunThen(P, start, 1, PushEval(mA, e.fn), n1);
    var n2;
    n2, m2 := SimArgs(P, fuel, e, r.v, r.g, m);
    ComposeCall(P, fuel, start, 1 + n1, PushEvals(mB, e.args), m, n2, m2,
                EvalArgs(P, fuel, e, r.v, m.blocks.head, m.frames.Nil?, r.g));
    n := 1 + n1 + n2;
  }

  /** The meaning of a call once its function is known. */
  function EvalArgs(P: Program, fuel: nat, e: Expr, fv: Value, blk: nat, top: bool, g: Globals): EvalR<seq<Value>>
    requires e.Call?
  {
    match EvalList(P, fuel, e.args, blk, top, g)
    case Ok(vs, g2) => if fuel == 0 then Timeout else CallFn(P, fuel - 1, fv, vs, top, g2)
    case r => r
  }

  /** Arguments, then the call. */
  lemma {:induction false} SimArgs(P: Program, fuel: nat, e: Expr, fv: Value, g: Globals, m: State) returns (n: nat, m2: State)
    requires m.blocks.Cons? && CallOK(m) && e.Call?
    ensures var mB := State(Cons(OpPrecall, m.ops), Cons(fv, m.values), Cons(e, m.exprs), m.stmts, m.blocks, m.frames, g);
            ListSim(P, fuel, PushEvals(mB, e.args), m, n, m2, EvalArgs(P, fuel, e, fv, m.blocks.head, m.frames.Nil?, g))
    decreases fuel, 0, e.args, 1
  {
    hide Step, Run, EvalList, CallFn;
    var mB := State(Cons(OpPrecall, m.ops), Cons(fv, m.values), Cons(e, m.exprs), m.stmts, m.blocks, m.frames, g);
    ExtNear(m, mB);
    CallExt(m, mB);
    var start := PushEvals(mB, e.args);
    n, m2 := SimList(P, fuel, e.args, mB);
    var r2 := EvalList(P, fuel, e.args, m.blocks.head, m.frames.Nil?, g);
    if !r2.Ok? {
      RunNone(P, start);
      Propagate(P, fuel, start, 0, start, m, mB, n, m2, r2, r2);
    } else if fuel > 0 {
      var mC := m.(g := r2.g);
      ExtNear(m, mC);
      CallExt(m, mC);
      var n3;
      n3, m2 := SimCallFn(P, fuel - 1, fv, r2.v, e, mC);
      var start3 := CallStart(mC, e, fv, r2.v);
      var r3 := CallFn(P, fuel - 1, fv, r2.v, m.frames.Nil?, r2.g);
      RunThen(P, start, n, start3, n3);
      if !r3.Ok? {
        Propagate(P, fuel, start, n, start3, m, mC, n3, m2, r3, r3);
      }
      n := n + n3;
    }
  }

  /** The machine in `m` with function and arguments evaluated for call `e`. */
  function CallStart(m: State, e: Expr, fv: Value, args: seq<Value>): State {
    m.(exprs := Cons(e, m.exprs), ops := Cons(OpPrecall, m.ops), values := PushAll(Cons(fv, m.values), args))
  }

  // ---------------------------------------------------------------- calls

  function CallFrameOf(m: State, fv: Value, ds: seq<Deferred>): Frame {
    Frame(CallFrame(fv, ds, m.g.pkg, m.g.realm), Len(m.ops), Len(m.values), Len(m.exprs), Len(m.stmts), Len(m.blocks))
  }

  /** The machine of a function called from `m`, running in block `a`. */
  function Callee(m: State, fv: Value, a: nat, w: World): State {
    State(m.ops, Cons(fv, m.values), m.exprs, m.stmts, Cons(a, m.blocks), Cons(CallFrameOf(m, fv, w.defers), m.frames), w.g)
  }

  /** The same with the implicit return of a function without results queued. */
  function CalleeBase(P: Program, m: State, fv: Value, a: nat, w: World): State
    requires P.IsFunc(fv)
  {
    var k := Callee(m, fv, a, w);
    if P.FuncOf(fv).defaults == [] then PushOp(PushStmt(k, SStmt(Return([]))), OpExec) else k
  }

  lemma CalleeFacts(P: Program, m: State, fv: Value, a: nat, w: World)
    requires P.IsFunc(fv)
    ensures var k, base := Callee(m, fv, a, w), CalleeBase(P, m, fv, a, w);
            && BodyPre(P, a, k) && BodyPre(P, a, base) && Ext(k, base) && SameCall(k, base) && Ext(m, k)
            && WorldOf(k) == w && WorldOf(base) == w
            && CallTail(k.frames) == k.frames && CallTail(base.frames) == k.frames
  {
    ExtNear(Callee(m, fv, a, w), CalleeBase(P, m, fv, a, w));
    ExtNear(m, Callee(m, fv, a, w));
  }

  lemma {:induction false} SimCallFn(P: Program, fuel: nat, fv: Value, args: seq<Value>, e: Expr, m: State)
    returns (n: nat, m2: State)
    requires m.blocks.Cons? && CallOK(m) && e.Call? && |e.args| == |args|
    ensures ListSim(P, fuel + 1, CallStart(m, e, fv, args), m, n, m2, CallFn(P, fuel, fv, args, m.frames.Nil?, m.g))
    decreases fuel, 2
  {
    hide Step;
    m2 := m;
    n := 0;
    if !P.IsFunc(fv) {
      n := 1;
      PrecallStep(P, fv, args, e, m);
    } else if |args| == P.FuncOf(fv).numParams {
      if P.FuncOf(fv).native {
        if |P.FuncOf(fv).defaults| == 1 {
          n := NativeSteps(P, fv, args, e, m);
        }
      } else {
        n, m2 := SimCallBody(P, fuel, fv, args, e, m);
      }
    }
  }

  lemma {:induction false} SimCallBody(P: Program, fuel: nat, fv: Value, args: seq<Value>, e: Expr, m: State)
    returns (n: nat, m2: State)
    requires m.blocks.Cons? && CallOK(m) && e.Call? && |e.args| == |args|
    requires P.IsFunc(fv) && |args| == P.FuncOf(fv).numParams && !P.FuncOf(fv).native
    ensures var fn, a := P.FuncOf(fv), |m.g.store|;
            ListSim(P, fuel + 1, CallStart(m, e, fv, args), m, n, m2,
                    EndCall(P, fuel, fn, a, ExecBody(P, fuel, fn.body, a, a, World(Enter(P, fv, args, m.g), [])),
                            m.g, m.frames.Nil?))
    decreases fuel, 1, 3
  {
    hide Step;
    var fn, a := P.FuncOf(fv), |m.g.store|;
    var w1 := World(Enter(P, fv, args, m.g), []);
    var base := CalleeBase(P, m, fv, a, w1);
    CalleeFacts(P, m, fv, a, w1);
    n, m2 := SimBody(P, fuel, a, fn.body, base);
    var o := ExecBody(P, fuel, fn.body, a, a, w1);
    var body := WithBody(PushOp(base, OpBody), PlainBody(fn.body));
    n, m2 := SimEndCall(P, fuel, fv, a, m, w1, body, n, m2, o);
    EnterSteps(P, fv, args, e, m);
    ComposeCall(P, fuel, CallStart(m, e, fv, args), 2, body, m, n, m2, EndCall(P, fuel, fn, a, o, m.g, m.frames.Nil?));
    n := 2 + n;
  }

  lemma {:induction false} SimEndCall(P: Program, fuel: nat, fv: Value, a: nat, m: State, w: World, body: State,
                                      n1: nat, m1: State, o: Outcome)
    returns (n: nat, m2: State)
    requires CallOK(m) && P.IsFunc(fv)
    requires BodySim(P, fuel, body, CalleeBase(P, m, fv, a, w), n1, m1, o)
    ensures ListSim(P, fuel, body, m, n, m2, EndCall(P, fuel, P.FuncOf(fv), a, o, m.g, m.frames.Nil?))
    decreases fuel, 1, 2
  {
    hide Step, Run, Finish, Unwind, Returning, Unwinding, Dropping;
    n, m2 := n1, m1;
    var r, fn := EndCall(P, fuel, P.FuncOf(fv), a, o, m.g, m.frames.Nil?), P.FuncOf(fv);
    CalleeFacts(P, m, fv, a, w);
    if o.Normal? {
      if fn.defaults == [] {
        n, m2 := SimFallOff(P, fuel, fv, a, m, w, body, n1, o.w);
      }
    } else if o.Returns? {
      if Fits(P, CalleeBase(P, m, fv, a, w), o.rv) {
        var n2;
        ReturningCallee(P, m, fv, a, w, m1, o.rv, o.inLoop, o.w);
        n2, m2 := SimFinish(P, fuel, fv, a, o.rv, o.inLoop, o.w, m, m1);
        ComposeCall(P, fuel, body, n1, m1, m, n2, m2, Finish(P, fuel, fn, a, o.rv, o.inLoop, o.w, m.g, m.frames.Nil?));
        n := n1 + n2;
      } else {
        MisfitIsStuck(P, fuel, fn, a, o.rv, o.inLoop, o.w, m.g, m.frames.Nil?);
      }
    } else if o.Panics? {
      var n2;
      UnwindingCallee(P, m, fv, a, w, m1, o.w);
      n2, m2 := SimUnwind(P, fuel, fv, a, o.w, m, m1);
      ComposeCall(P, fuel, body, n1, m1, m, n2, m2, Unwind(P, fuel, fn, a, o.w, m.g, m.frames.Nil?));
      n := n1 + n2;
    } else if o.Drops? {
      DropsOut(P, m, fv, a, w, m1, o.w);
      RunThen(P, body, n1, m1, 1);
      n := n1 + 1;
    }
  }

  lemma MisfitIsStuck(P: Program, fuel: nat, fn: Func, a: nat, rv: Option<seq<Value>>, inLoop: bool, w: World, caller: Globals, top: bool)
    requires rv.Some? && |rv.value| != |fn.defaults|
    ensures Finish(P, fuel, fn, a, rv, inLoop, w, caller, top) == Stuck
  {
  }

  /** A return in the body dropped the function: it is returned from. */
  lemma DropsOut(P: Program, m: State, fv: Value, a: nat, w: World, m1: State, w2: World)
    requires P.IsFunc(fv) && Dropping(CalleeBase(P, m, fv, a, w), m1, w2)
    ensures var vs := ReadResults(w2.g.store, a, P.FuncOf(fv));
            Run(P, m1, 1) == Next(m.(values := PushAll(m.values, vs), g := Leave(w2.g, m.g, m.frames.Nil?, vs).g))
  {
    hide Step, Run;
    CalleeFacts(P, m, fv, a, w);
    CalleeWorld(P, m, fv, a, w, w2);
    DroppingExt(Callee(m, fv, a, w), CalleeBase(P, m, fv, a, w), m1, w2);
    DroppingExt(Callee(m, fv, a, w2), Callee(m, fv, a, w), m1, w2);
    BelowIsSettled(m, fv, a, w2, m1.(ops := m1.ops.tail));
    LandsFromBlock(P, m, fv, a, w2.defers, m1);
  }

  lemma ReturningCallee(P: Program, m: State, fv: Value, a: nat, w: World, m1: State, rv: Option<seq<Value>>, inLoop: bool, w2: World)
    requires P.IsFunc(fv) && Returning(CalleeBase(P, m, fv, a, w), m1, rv, inLoop, w2)
    ensures Returning(Callee(m, fv, a, w2), m1, rv, inLoop, w2)
  {
    CalleeFacts(P, m, fv, a, w);
    CalleeWorld(P, m, fv, a, w, w2);
    ReturningExt(Callee(m, fv, a, w), CalleeBase(P, m, fv, a, w), m1, rv, inLoop, inLoop, w2);
    ReturningExt(Callee(m, fv, a, w2), Callee(m, fv, a, w), m1, rv, inLoop, inLoop, w2);
  }

  lemma UnwindingCallee(P: Program, m: State, fv: Value, a: nat, w: World, m1: State, w2: World)
    requires P.IsFunc(fv) && Unwinding(CalleeBase(P, m, fv, a, w), m1, w2)
    ensures Unwinding(Callee(m, fv, a, w2), m1, w2)
  {
    CalleeFacts(P, m, fv, a, w);
    CalleeWorld(P, m, fv, a, w, w2);
    UnwindingExt(Callee(m, fv, a, w), CalleeBase(P, m, fv, a, w), m1, w2);
    UnwindingExt(Callee(m, fv, a, w2), Callee(m, fv, a, w), m1, w2);
  }

  lemma CalleeWorld(P: Program, m: State, fv: Value, a: nat, w: World, w2: World)
    requires P.IsFunc(fv)
    ensures var k, k2 := Callee(m, fv, a, w), Callee(m, fv, a, w2);
            Ext(k2, k) && SameCall(k2, k) && CallOK(k2)
  {
    ExtNear(Callee(m, fv, a, w2), Callee(m, fv, a, w));
  }

  /** A realised end of the call, after the `n` steps that led to it. */
  lemma ComposeCall(P: Program, fuel: nat, start: State, n: nat, start1: State, m: State, n2: nat, m2: State, r: EvalR<seq<Value>>)
    requires Run(P, start, n) == Next(start1)
    requires ListSim(P, fuel, start1, m, n2, m2, r)
    ensures ListSim(P, fuel, start, m, n + n2, m2, r)
    ensures n >= 1 ==> ListSim(P, fuel + 1, start, m, n + n2, m2, r)
  {
    hide Step;
    RunThen(P, start, n, start1, n2);
  }

  lemma PrecallStep(P: Program, fv: Value, args: seq<Value>, e: Expr, m: State)
    requires e.Call? && |e.args| == |args|
    ensures var rlm := if P.IsFunc(fv) then P.RealmOf(fv.pkg) else None;
            Run(P, CallStart(m, e, fv, args), 1) ==
            if !P.IsFunc(fv) then GoPanic else
            Next(State(Cons(OpCall, m.ops), PushAll(Cons(fv, m.values), args), m.exprs, m.stmts, m.blocks,
                       Cons(CallFrameOf(m, fv, []), m.frames),
                       m.g.(pkg := fv.pkg, realm := if rlm.Some? then rlm else m.g.realm)))
  {
    hide Step;
    PopPushAll(Cons(fv, m.values), args);
    var start := CallStart(m, e, fv, args);
    OnPrecall(P, start);
  }

  /** OpPrecall and OpCall: the frame, the realm and the function block. */
  lemma EnterSteps(P: Program, fv: Value, args: seq<Value>, e: Expr, m: State)
    requires e.Call? && |e.args| == |args| && P.IsFunc(fv) && |args| == P.FuncOf(fv).numParams
    ensures var w := World(Enter(P, fv, args, m.g), []);
            Run(P, CallStart(m, e, fv, args), 2) ==
            Next(if P.FuncOf(fv).native then PushOp(PushOp(Callee(m, fv, |m.g.store|, w), OpReturn), OpCallNativeBody)
                 else WithBody(PushOp(CalleeBase(P, m, fv, |m.g.store|, w), OpBody), PlainBody(P.FuncOf(fv).body)))
  {
    hide Step;
    var start := CallStart(m, e, fv, args);
    PrecallStep(P, fv, args, e, m);
    var m1 := Run(P, start, 1).m;
    RunThen(P, start, 1, m1, 1);
    PopPushAll(Cons(fv, m.values), args);
    OnCall(P, m1);
  }

  /** A call of `recover`. */
  lemma NativeSteps(P: Program, fv: Value, args: seq<Value>, e: Expr, m: State) returns (n: nat)
    requires e.Call? && |e.args| == |args| && P.IsFunc(fv) && |args| == P.FuncOf(fv).numParams
    requires P.FuncOf(fv).native && |P.FuncOf(fv).defaults| == 1
    ensures var g1 := Enter(P, fv, args, m.g);
            var r := Leave(g1.(exc := None), m.g, m.frames.Nil?, [if g1.exc.Some? then g1.exc.value else VUndef]);
            Run(P, CallStart(m, e, fv, args), n) == Next(m.(values := PushAll(m.values, r.v), g := r.g))
  {
    hide Step;
    var start := CallStart(m, e, fv, args);
    var a := |m.g.store|;
    var g1 := Enter(P, fv, args, m.g);
    var v := if g1.exc.Some? then g1.exc.value else VUndef;
    EnterSteps(P, fv, args, e, m);
    var m2 := PushOp(PushOp(Callee(m, fv, a, World(g1, [])), OpReturn), OpCallNativeBody);
    RunThen(P, start, 2, m2, 2);
    var m3 := PushValue(PushOp(Callee(m, fv, a, World(g1.(exc := None), [])), OpReturn), v);
    OnNative(P, m2);
    StepThen(P, m2, m3, 1);
    OnReturn(P, m3);
    ExtNear(m, m3.(ops := m.ops));
    assert TopN(m3.values, 1) == [v] by {
      assert TopN(m3.values, 1) == TopN(m3.values.tail, 0) + [v];
    }
    n := 4;
  }

  /** The implicit return at the end of a body without results. */
  lemma {:induction false} SimFallOff(P: Program, fuel: nat, fv: Value, a: nat, m: State, w0: World, body: State, n1: nat, w: World)
    returns (n: nat, m2: State)
    requires P.IsFunc(fv) && P.FuncOf(fv).defaults == [] && CallOK(m)
    requires Run(P, body, n1) == Next(SetW(CalleeBase(P, m, fv, a, w0), w))
    ensures ListSim(P, fuel, body, m, n, m2, Finish(P, fuel, P.FuncOf(fv), a, None, false, w, m.g, m.frames.Nil?))
    decreases fuel, 1, 1
  {
    hide Step;
    var m1 := CalleeBase(P, m, fv, a, w);
    assert m1 == SetW(CalleeBase(P, m, fv, a, w0), w);
    var n2, m3 := FallOffSteps(P, fv, a, m, w);
    RunThen(P, body, n1, m1, n2);
    n, m2 := SimFinish(P, fuel, fv, a, None, false, w, m, m3);
    ComposeCall(P, fuel, body, n1 + n2, m3, m, n, m2, Finish(P, fuel, P.FuncOf(fv), a, None, false, w, m.g, m.frames.Nil?));
    n := n1 + n2 + n;
  }

  lemma FallOffSteps(P: Program, fv: Value, a: nat, m: State, w: World) returns (n: nat, m2: State)
    requires P.IsFunc(fv) && P.FuncOf(fv).defaults == []
    ensures Run(P, CalleeBase(P, m, fv, a, w), n) == Next(m2) && Returning(Callee(m, fv, a, w), m2, None, false, w)
  {
    hide Step;
    var m1, k := CalleeBase(P, m, fv, a, w), Callee(m, fv, a, w);
    CalleeFacts(P, m, fv, a, w);
    ExtNear(k, k);
    m2 := if w.defers == [] then PushOp(k, OpReturnFromBlock)
          else PushOp(PushOp(k, OpReturnFromBlock), OpReturnCallDefers);
    assert PushEvals(m2, []) == m2;
    OnExec(P, m1);
    StepThen(P, m1, m2, 0);
    BelowOfExt(k, k, k.frames.head);
    n := 1;
  }

  /** `x` has the caller's stacks at the bottom and the callee's block above its blocks. */
  ghost predicate Settled(m: State, a: nat, x: State) {
    Ext(m, x) && Chop(x.blocks, Len(m.blocks) + 1) == Cons(a, m.blocks)
  }

  lemma BelowIsSettled(m: State, fv: Value, a: nat, w: World, x: State)
    requires Below(Callee(m, fv, a, w), x, CallFrameOf(m, fv, w.defers))
    ensures Settled(m, a, x)
  {
    ChopCons(fv, m.values, Len(m.values));
    ChopCons(a, m.blocks, Len(m.blocks));
    ChopChop(x.blocks, Len(m.blocks) + 1, Len(m.blocks));
  }

  /** Popping the call frame with the results on top lands in the caller. */
  lemma Lands(P: Program, m: State, fv: Value, ds: seq<Deferred>, m1: State, vs: seq<Value>)
    requires P.IsFunc(fv) && |vs| == |P.FuncOf(fv).defaults|
    requires m1.frames == Cons(CallFrameOf(m, fv, ds), m.frames)
    requires |vs| <= Len(m1.values) && TopN(m1.values, |vs|) == vs
    requires Ext(m, m1.(values := DropN(m1.values, |vs|)))
    ensures PopFrameAndReturn(P, m1) ==
            Next(m.(values := PushAll(m.values, vs), g := Leave(m1.g, m.g, m.frames.Nil?, vs).g))
  {
    ChopDropN(m1.values, |vs|, Len(m.values));
  }

  /** OpReturnFromBlock returns what the function block holds. */
  lemma LandsFromBlock(P: Program, m: State, fv: Value, a: nat, ds: seq<Deferred>, m1: State)
    requires P.IsFunc(fv) && m1.ops.Cons? && m1.ops.head == OpReturnFromBlock
    requires CallTail(m1.frames) == Cons(CallFrameOf(m, fv, ds), m.frames)
    requires Settled(m, a, m1.(ops := m1.ops.tail))
    ensures var vs := ReadResults(m1.g.store, a, P.FuncOf(fv));
            Run(P, m1, 1) == Next(m.(values := PushAll(m.values, vs), g := Leave(m1.g, m.g, m.frames.Nil?, vs).g))
  {
    hide Step;
    var vs := ReadResults(m1.g.store, a, P.FuncOf(fv));
    var m2 := m1.(ops := m1.ops.tail, frames := CallTail(m1.frames), values := PushAll(m1.values, vs));
    PopPushAll(m1.values, vs);
    Lands(P, m, fv, ds, m2, vs);
    OnReturnFromBlock(P, m1);
  }

  /** The machine about to run the pending deferred calls `w.defers` of the call. */
  ghost predicate Deferring(P: Program, m: State, fv: Value, a: nat, w: World, d: State) {
    && P.IsFunc(fv)
    && d.ops.Cons? && d.ops.head == OpReturnCallDefers
    && d.g == w.g
    && CallTail(d.frames) == Cons(CallFrameOf(m, fv, w.defers), m.frames)
    && Settled(m, a, d.(ops := d.ops.tail))
    && FramesOK(d.(ops := d.ops.tail))
  }

  /** How a run from `d` realises what the pending deferred calls do. A body that
      returns, panics or is dropped does so for the function that deferred it. */
  ghost predicate DefersSim(P: Program, fuel: nat, fv: Value, a: nat, m: State, d: State, n: nat, e: State, o: Outcome)
    requires P.IsFunc(fv)
  {
    match o
    case Normal(w) =>
      && Run(P, d, n) == Next(e) && w.defers == [] && Deferring(P, m, fv, a, w, e)
      && e == d.(blocks := e.blocks, g := w.g, frames := SetDefers(d.frames, []))
    case Returns(rv, inLoop, w) =>
      (rv.Some? ==> |rv.value| == |P.FuncOf(fv).defaults|) ==>
        n >= 1 && Run(P, d, n) == Next(e) && Returning(Callee(m, fv, a, w), e, rv, inLoop || LoopTop(d), w)
    case Panics(w) => n >= 1 && Run(P, d, n) == Next(e) && Unwinding(Callee(m, fv, a, w), e, w)
    case Drops(w) => Run(P, d, n) == Next(e) && Dropping(Callee(m, fv, a, w), e, w)
    case SFailed => Run(P, d, n) == GoPanic
    case STimeout => n >= fuel && Run(P, d, n).Next?
    case _ => true
  }

  /** Runs the deferred calls, the last one first, each exactly once. */
  lemma {:induction false} SimDefers(P: Program, fuel: nat, fv: Value, a: nat, w: World, m: State, d: State)
    returns (n: nat, e: State)
    requires Deferring(P, m, fv, a, w, d)
    ensures DefersSim(P, fuel, fv, a, m, d, n, e, RunDefers(P, fuel, a, w))
    decreases fuel, 0, 0
  {
    hide Step, Run, ExecBody;
    n, e := 0, d;
    if w.defers == [] {
      SetDefersFacts(d.frames, [], []);
      RunNone(P, d);
    } else if fuel == 0 {
      RunNone(P, d);
    } else if !P.IsFunc(w.defers[|w.defers| - 1].fv) {
      n := 1;
      OnCallDefers(P, d);
    } else if !P.FuncOf(w.defers[|w.defers| - 1].fv).native {
      n, e := SimLastDefer(P, fuel, fv, a, w, m, d);
    }
  }

  /** What the pending calls do, from the body of the last one on. */
  lemma DefersUnfold(P: Program, fuel: nat, a: nat, w: World)
    requires w.defers != [] && fuel > 0
    requires var df := w.defers[|w.defers| - 1]; P.IsFunc(df.fv) && !P.FuncOf(df.fv).native
    ensures var k := |w.defers| - 1;
            var g1 := w.g.(events := w.g.events + [RanDefer(a, k, w.defers[k])],
                           store := w.g.store + [Scope(Some(w.defers[k].parent), SlotMap(w.defers[k].args, 0))]);
            var o := ExecBody(P, fuel - 1, P.FuncOf(w.defers[k].fv).body, |w.g.store|, a, World(g1, w.defers[..k]));
            RunDefers(P, fuel, a, w) == if o.Normal? then RunDefers(P, fuel - 1, a, o.w) else o
  {
    hide ExecBody;
  }

  lemma {:induction false} SimLastDefer(P: Program, fuel: nat, fv: Value, a: nat, w: World, m: State, d: State)
    returns (n: nat, e: State)
    requires Deferring(P, m, fv, a, w, d) && w.defers != [] && fuel > 0
    requires var df := w.defers[|w.defers| - 1]; P.IsFunc(df.fv) && !P.FuncOf(df.fv).native
    ensures DefersSim(P, fuel, fv, a, m, d, n, e, RunDefers(P, fuel, a, w))
    decreases fuel - 1, 2, 0
  {
    hide Step, Run, ExecBody, RunDefers, Deferring, DefersSim;
    var k := |w.defers| - 1;
    var base := DeferStart(P, m, fv, a, w, d);
    var body := P.FuncOf(w.defers[k].fv).body;
    DeferStartFacts(P, m, fv, a, w, d);
    DefersUnfold(P, fuel, a, w);
    var n1, m1 := SimBody(P, fuel - 1, a, body, base);
    StepThen(P, d, WithBody(PushOp(base, OpBody), PlainBody(body)), n1);
    var o := ExecBody(P, fuel - 1, body, |w.g.store|, a, WorldOf(base));
    n := n1 + 1;
    if o.Normal? {
      DeferredAgain(P, m, fv, a, w, d, base, o.w);
      var n2;
      n2, e := SimDefers(P, fuel - 1, fv, a, o.w, m, SetW(base, o.w));
      SameDefers(d, w.defers[..k], base, o.w);
      DefersOnward(P, fuel, fv, a, m, d, n1 + 1, SetW(base, o.w), n2, e, RunDefers(P, fuel - 1, a, o.w));
      n := n1 + 1 + n2;
    } else {
      e := m1;
      DeferredLeaves(P, fuel - 1, m, fv, a, w, d, n1, m1, o);
    }
  }

  /** The rest of the deferred calls, after the `k` steps of the last one. */
  lemma DefersOnward(P: Program, fuel: nat, fv: Value, a: nat, m: State, d: State, k: nat, d1: State, n: nat, e: State, o: Outcome)
    requires P.IsFunc(fv) && fuel > 0 && k >= 1 && Run(P, d, k) == Next(d1) && DefersSim(P, fuel - 1, fv, a, m, d1, n, e, o)
    requires d1 == d.(blocks := d1.blocks, g := d1.g, frames := d1.frames)
    requires SetDefers(d1.frames, []) == SetDefers(d.frames, []) && LoopTop(d1) == LoopTop(d)
    ensures DefersSim(P, fuel, fv, a, m, d, k + n, e, o)
  {
    hide Step, Run, Deferring, Returning, Unwinding, Dropping;
    RunThen(P, d, k, d1, n);
  }

  lemma RunNone(P: Program, m: State)
    ensures Run(P, m, 0) == Next(m)
  {
  }

  lemma SameDefers(d: State, ds: seq<Deferred>, base: State, w: World)
    requires base.frames == SetDefers(d.frames, ds)
    ensures SetDefers(SetW(base, w).frames, []) == SetDefers(d.frames, []) && LoopTop(SetW(base, w)) == LoopTop(d)
  {
    SetDefersFacts(base.frames, w.defers, []);
    SetDefersFacts(d.frames, ds, []);
    SetWTwice(base, w, w);
    SetWTwice(d, World(d.g, ds), w);
  }

  /** A deferred body that does not end normally leaves the function that deferred it. */
  lemma DeferredLeaves(P: Program, fuel: nat, m: State, fv: Value, a: nat, w: World, d: State, n: nat, m1: State, o: Outcome)
    requires Deferring(P, m, fv, a, w, d) && w.defers != [] && !o.Normal?
    requires var df := w.defers[|w.defers| - 1]; P.IsFunc(df.fv) && !P.FuncOf(df.fv).native
    requires var body, base := P.FuncOf(w.defers[|w.defers| - 1].fv).body, DeferStart(P, m, fv, a, w, d);
             BodySim(P, fuel, WithBody(PushOp(base, OpBody), PlainBody(body)), base, n, m1, o)
    ensures DefersSim(P, fuel + 1, fv, a, m, d, n + 1, m1, o)
  {
    hide Step, Run, Returning, Unwinding, Dropping;
    var base := DeferStart(P, m, fv, a, w, d);
    var ds := w.defers[..|w.defers| - 1];
    var body := P.FuncOf(w.defers[|w.defers| - 1].fv).body;
    DeferStartFacts(P, m, fv, a, w, d);
    StepThen(P, d, WithBody(PushOp(base, OpBody), PlainBody(body)), n);
    DeferStartSettled(P, m, fv, a, w, d);
    if o.Panics? {
      UnwindsFurther(m, fv, a, ds, base, m1, o.w);
    } else if o.Drops? {
      DropsFurther(m, fv, a, ds, base, m1, o.w);
    } else if o.Returns? && Fits(P, base, o.rv) {
      ReturnsFurther(m, fv, a, ds, base, m1, o.rv, o.inLoop, o.w);
    }
  }

  lemma UnwindsFurther(m: State, fv: Value, a: nat, ds: seq<Deferred>, base: State, m1: State, w: World)
    requires Settled(m, a, base) && CallTail(base.frames) == Cons(CallFrameOf(m, fv, ds), m.frames) && Unwinding(base, m1, w)
    ensures Unwinding(Callee(m, fv, a, w), m1, w)
  {
    hide Below, Settled;
    Resettle(m, fv, a, ds, base, m1.(ops := m1.ops.tail.tail), w);
  }

  lemma DropsFurther(m: State, fv: Value, a: nat, ds: seq<Deferred>, base: State, m1: State, w: World)
    requires Settled(m, a, base) && CallTail(base.frames) == Cons(CallFrameOf(m, fv, ds), m.frames) && Dropping(base, m1, w)
    ensures Dropping(Callee(m, fv, a, w), m1, w)
  {
    hide Below, Settled;
    Resettle(m, fv, a, ds, base, m1.(ops := m1.ops.tail), w);
  }

  lemma ReturnsFurther(m: State, fv: Value, a: nat, ds: seq<Deferred>, base: State, m1: State, rv: Option<seq<Value>>, inLoop: bool, w: World)
    requires Settled(m, a, base) && CallTail(base.frames) == Cons(CallFrameOf(m, fv, ds), m.frames)
    requires Returning(base, m1, rv, inLoop, w)
    ensures Returning(Callee(m, fv, a, w), m1, rv, inLoop || LoopTop(base), w)
  {
    hide Below, Settled;
    var m3 := m1.(ops := RetRest(m1.ops, rv, w.defers), values := DropN(m1.values, |RetValues(rv)|));
    Resettle(m, fv, a, ds, base, m3, w);
  }

  lemma DeferStartSettled(P: Program, m: State, fv: Value, a: nat, w: World, d: State)
    requires Deferring(P, m, fv, a, w, d) && w.defers != []
    ensures var base, ds := DeferStart(P, m, fv, a, w, d), w.defers[..|w.defers| - 1];
            && Settled(m, a, base) && LoopTop(base) == LoopTop(d)
            && CallTail(base.frames) == Cons(CallFrameOf(m, fv, ds), m.frames)
  {
    var base, ds := DeferStart(P, m, fv, a, w, d), w.defers[..|w.defers| - 1];
    SetDefersFacts(d.frames, ds, []);
    SetWTwice(d, World(d.g, ds), w);
    var d1 := d.(ops := d.ops.tail);
    ExtNear(d1, base);
    ExtTrans(m, d1, base);
    OnTopChop(d1.blocks, base.blocks, Len(m.blocks) + 1);
  }

  /** What is below the frame of the call in the middle of it is below it at its start. */
  lemma Resettle(m: State, fv: Value, a: nat, ds: seq<Deferred>, base: State, x: State, w: World)
    requires Settled(m, a, base) && Below(base, x, CallFrameOf(m, fv, ds))
    ensures Below(Callee(m, fv, a, w), x, CallFrameOf(m, fv, w.defers))
  {
    ChopCons(fv, m.values, Len(m.values));
  }

  /** The machine in which the body of the last deferred call begins. */
  function DeferStart(P: Program, m: State, fv: Value, a: nat, w: World, d: State): State
    requires w.defers != []
  {
    var k := |w.defers| - 1;
    var df := w.defers[k];
    d.(frames := SetDefers(d.frames, w.defers[..k]),
       blocks := Cons(|w.g.store|, d.blocks),
       g := w.g.(events := w.g.events + [RanDefer(a, k, df)],
                 store := w.g.store + [Scope(Some(df.parent), SlotMap(df.args, 0))]))
  }

  lemma DeferStartFacts(P: Program, m: State, fv: Value, a: nat, w: World, d: State)
    requires Deferring(P, m, fv, a, w, d) && w.defers != []
    requires var df := w.defers[|w.defers| - 1]; P.IsFunc(df.fv) && !P.FuncOf(df.fv).native
    ensures var base := DeferStart(P, m, fv, a, w, d);
            var df := w.defers[|w.defers| - 1];
            && BodyPre(P, a, base)
            && WorldOf(base) == World(base.g, w.defers[..|w.defers| - 1])
            && Step(P, d) == Next(WithBody(PushOp(base, OpBody), PlainBody(P.FuncOf(df.fv).body)))
  {
    hide Step;
    var base := DeferStart(P, m, fv, a, w, d);
    var ds := w.defers[..|w.defers| - 1];
    SetDefersFacts(d.frames, ds, []);
    var d1 := d.(ops := d.ops.tail);
    ExtNear(d1, base);
    FramesWithinDefers(d.frames, ds, d1);
    FramesWithinExt(base.frames, d1, base);
    CallTailIsCall(base.frames);
    CallDepthOfFrames(base.frames, base);
    OnCallDefers(P, d);
    assert BlockAt(d.blocks, Len(m.blocks)) == Some(a);
  }

  lemma CallDepthOfFrames(frames: List<Frame>, m: State)
    requires FramesWithin(frames, m)
    ensures CallTail(frames).Cons? ==> CallDepth(CallTail(frames).head, m)
  {
  }

  /** After a deferred body the next one is due, on a longer block stack. */
  lemma DeferredAgain(P: Program, m: State, fv: Value, a: nat, w: World, d: State, base: State, w1: World)
    requires Deferring(P, m, fv, a, w, d) && w.defers != [] && base == DeferStart(P, m, fv, a, w, d)
    ensures Deferring(P, m, fv, a, w1, SetW(base, w1))
  {
    var ds := w.defers[..|w.defers| - 1];
    SetDefersFacts(d.frames, ds, w1.defers);
    SetDefersFacts(d.frames, w1.defers, []);
    var d1 := d.(ops := d.ops.tail);
    var x := SetW(base, w1).(ops := d.ops.tail);
    ExtNear(d1, x);
    ExtTrans(m, d1, x);
    OnTopChop(d1.blocks, x.blocks, Len(m.blocks) + 1);
    FramesWithinDefers(d.frames, w1.defers, d1);
    FramesWithinExt(x.frames, d1, x);
  }

  /** From a function's return, with its results known, to the caller. */
  lemma {:induction false} SimFinish(P: Program, fuel: nat, fv: Value, a: nat, rv: Option<seq<Value>>, inLoop: bool, w: World,
                                     m: State, m1: State)
    returns (n: nat, m2: State)
    requires P.IsFunc(fv) && Returning(Callee(m, fv, a, w), m1, rv, inLoop, w)
    requires rv.Some? ==> |rv.value| == |P.FuncOf(fv).defaults|
    requires CallOK(m)
    ensures ListSim(P, fuel, m1, m, n, m2, Finish(P, fuel, P.FuncOf(fv), a, rv, inLoop, w, m.g, m.frames.Nil?))
    decreases fuel, 1, 0
  {
    hide Step;
    m2 := m;
    if w.defers == [] {
      n := 1;
      FinishAtOnce(P, m, fv, a, rv, inLoop, w, m1);
      return;
    }
    var g1 := if rv.Some? then w.g.(store := WriteResults(w.g.store, a, P.FuncOf(fv), rv.value)) else w.g;
    var n1, d := BeginDefers(P, m, fv, a, rv, inLoop, w, m1, g1);
    n, m2 := SimFinishDefers(P, fuel, fv, a, inLoop, World(g1, w.defers), m, d);
    ComposeCall(P, fuel, m1, n1, d, m, n, m2, AfterDefers(P, fuel, P.FuncOf(fv), a, inLoop, World(g1, w.defers), m.g, m.frames.Nil?));
    n := n1 + n;
  }

  /** The ops up to the first deferred call of a return. */
  lemma BeginDefers(P: Program, m: State, fv: Value, a: nat, rv: Option<seq<Value>>, inLoop: bool, w: World, m1: State, g1: Globals)
    returns (n: nat, d: State)
    requires P.IsFunc(fv) && Returning(Callee(m, fv, a, w), m1, rv, inLoop, w) && w.defers != []
    requires rv.Some? ==> |rv.value| == |P.FuncOf(fv).defaults|
    requires g1 == if rv.Some? then w.g.(store := WriteResults(w.g.store, a, P.FuncOf(fv), rv.value)) else w.g
    ensures Run(P, m1, n) == Next(d) && Deferring(P, m, fv, a, World(g1, w.defers), d) && LoopTop(d) == inLoop
    ensures d.ops.tail.Cons? && d.ops.tail.head == OpReturnFromBlock && Settled(m, a, d.(ops := d.ops.tail.tail))
  {
    hide Step;
    var m3 := m1.(ops := RetRest(m1.ops, rv, w.defers), values := DropN(m1.values, |RetValues(rv)|));
    BelowIsSettled(m, fv, a, w, m3);
    d := m3.(ops := Cons(OpReturnCallDefers, Cons(OpReturnFromBlock, m3.ops)), g := g1);
    n := if rv.Some? then 1 else 0;
    if rv.Some? {
      ResultsToBlock(P, m, fv, a, rv.value, inLoop, w, m1);
    }
    ReadyToDefer(P, m, fv, a, World(g1, w.defers), m3, d);
  }

  lemma {:induction false} SimFinishDefers(P: Program, fuel: nat, fv: Value, a: nat, inLoop: bool, w: World, m: State, d: State)
    returns (n: nat, m2: State)
    requires Deferring(P, m, fv, a, w, d) && CallOK(m) && LoopTop(d) == inLoop
    requires d.ops.tail.Cons? && d.ops.tail.head == OpReturnFromBlock && Settled(m, a, d.(ops := d.ops.tail.tail))
    ensures ListSim(P, fuel, d, m, n, m2, AfterDefers(P, fuel, P.FuncOf(fv), a, inLoop, w, m.g, m.frames.Nil?))
    decreases fuel, 0, 1
  {
    hide Step, Run, RunDefers;
    var n1, e := SimDefers(P, fuel, fv, a, w, m, d);
    var o := RunDefers(P, fuel, a, w);
    if o.Normal? {
      var k;
      SettledBelow(m, a, d.(ops := d.ops.tail.tail), e);
      SetWTwice(d, World(o.w.g, []), w);
      k, m2 := FinishDeferred(P, fuel, m, fv, a, inLoop, o.w, e);
      ComposeCall(P, fuel, d, n1, e, m, k, m2, AfterNoDefers(P.FuncOf(fv), a, inLoop, o.w, m.g, m.frames.Nil?));
      n := n1 + k;
    } else {
      n, m2 := SimByDeferred(P, fuel, fv, a, inLoop, m, d, n1, e, o);
    }
  }

  /** A deferred body left the function: by its return, its panic, or dropped. */
  lemma {:induction false} SimByDeferred(P: Program, fuel: nat, fv: Value, a: nat, inLoop: bool, m: State, d: State,
                                         n1: nat, e: State, o: Outcome)
    returns (n: nat, m2: State)
    requires P.IsFunc(fv) && CallOK(m) && LoopTop(d) == inLoop && !o.Normal?
    requires DefersSim(P, fuel, fv, a, m, d, n1, e, o)
    ensures ListSim(P, fuel, d, m, n, m2, ByDeferred(P, fuel, P.FuncOf(fv), a, inLoop, o, m.g, m.frames.Nil?))
    decreases fuel, 0, 0
  {
    hide Step, Run, Finish, Unwind, Returning, Unwinding, Dropping;
    n, m2 := n1, e;
    var fn := P.FuncOf(fv);
    if o.Drops? {
      DroppedByDeferred(P, m, fv, a, e, o.w);
      RunThen(P, d, n1, e, 1);
      n := n1 + 1;
    } else if o.Panics? && fuel > 0 {
      var n2;
      n2, m2 := SimUnwind(P, fuel - 1, fv, a, o.w, m, e);
      ComposeCall(P, fuel - 1, d, n1, e, m, n2, m2, Unwind(P, fuel - 1, fn, a, o.w, m.g, m.frames.Nil?));
      n := n1 + n2;
    } else if o.Returns? && fuel > 0 {
      if o.rv.Some? ==> |o.rv.value| == |fn.defaults| {
        var n2;
        n2, m2 := SimFinish(P, fuel - 1, fv, a, o.rv, o.inLoop || inLoop, o.w, m, e);
        ComposeCall(P, fuel - 1, d, n1, e, m, n2, m2,
                    Finish(P, fuel - 1, fn, a, o.rv, o.inLoop || inLoop, o.w, m.g, m.frames.Nil?));
        n := n1 + n2;
      } else {
        MisfitIsStuck(P, fuel - 1, fn, a, o.rv, o.inLoop || inLoop, o.w, m.g, m.frames.Nil?);
      }
    }
  }

  lemma DroppedByDeferred(P: Program, m: State, fv: Value, a: nat, e: State, w: World)
    requires P.IsFunc(fv) && Dropping(Callee(m, fv, a, w), e, w)
    ensures var vs := ReadResults(w.g.store, a, P.FuncOf(fv));
            Run(P, e, 1) == Next(m.(values := PushAll(m.values, vs), g := Leave(w.g, m.g, m.frames.Nil?, vs).g))
  {
    hide Step, Run;
    BelowIsSettled(m, fv, a, w, e.(ops := e.ops.tail));
    LandsFromBlock(P, m, fv, a, w.defers, e);
  }

  lemma ReadyToDefer(P: Program, m: State, fv: Value, a: nat, w: World, m3: State, d: State)
    requires P.IsFunc(fv) && Settled(m, a, m3) && FramesOK(m3)
    requires CallTail(m3.frames) == Cons(CallFrameOf(m, fv, w.defers), m.frames)
    requires d.ops.Cons? && d.ops.head == OpReturnCallDefers && d.ops.tail.Cons? && d.ops.tail.tail == m3.ops
    requires d == m3.(ops := d.ops, g := w.g)
    ensures Deferring(P, m, fv, a, w, d)
  {
    var x := d.(ops := d.ops.tail);
    ExtNear(m3, x);
    ExtTrans(m, m3, x);
    FramesWithinExt(m3.frames, m3, x);
  }

  lemma FinishAtOnce(P: Program, m: State, fv: Value, a: nat, rv: Option<seq<Value>>, inLoop: bool, w: World, m1: State)
    requires P.IsFunc(fv) && Returning(Callee(m, fv, a, w), m1, rv, inLoop, w) && w.defers == []
    requires rv.Some? ==> |rv.value| == |P.FuncOf(fv).defaults|
    ensures var vs := if rv.Some? then rv.value else ReadResults(w.g.store, a, P.FuncOf(fv));
            Run(P, m1, 1) == Next(m.(values := PushAll(m.values, vs), g := Leave(w.g, m.g, m.frames.Nil?, vs).g))
  {
    hide Step;
    var m3 := m1.(ops := RetRest(m1.ops, rv, w.defers), values := DropN(m1.values, |RetValues(rv)|));
    BelowIsSettled(m, fv, a, w, m3);
    if rv.None? {
      LandsFromBlock(P, m, fv, a, [], m1);
    } else {
      var mF := m1.(ops := m1.ops.tail, frames := CallTail(m1.frames));
      Lands(P, m, fv, [], mF, rv.value);
      OnReturn(P, m1);
    }
  }

  lemma ResultsToBlock(P: Program, m: State, fv: Value, a: nat, vs: seq<Value>, inLoop: bool, w: World, m1: State)
    requires P.IsFunc(fv) && Returning(Callee(m, fv, a, w), m1, Some(vs), inLoop, w) && w.defers != []
    requires |vs| == |P.FuncOf(fv).defaults|
    ensures Run(P, m1, 1) ==
            Next(m1.(ops := m1.ops.tail, values := DropN(m1.values, |vs|),
                     g := w.g.(store := WriteResults(w.g.store, a, P.FuncOf(fv), vs))))
  {
    hide Step;
    var m3 := m1.(ops := RetRest(m1.ops, Some(vs), w.defers), values := DropN(m1.values, |vs|));
    BelowIsSettled(m, fv, a, w, m3);
    assert BlockAt(m1.blocks, Len(m.blocks)) == Some(a);
    OnReturnToBlock(P, m1);
  }

  /** A return once its deferred calls are done. */
  function AfterNoDefers(fn: Func, a: nat, inLoop: bool, w: World, caller: Globals, top: bool): EvalR<seq<Value>> {
    if w.g.exc.Some? && !inLoop then Dropped(w.g) else Leave(w.g, caller, top, ReadResults(w.g.store, a, fn))
  }

  /** All deferred calls done: return from the block, unless a pending exception
      took the function's own frame. */
  lemma FinishDeferred(P: Program, fuel: nat, m: State, fv: Value, a: nat, inLoop: bool, w: World, e: State)
    returns (k: nat, m2: State)
    requires Deferring(P, m, fv, a, w, e) && w.defers == [] && CallOK(m) && LoopTop(e) == inLoop
    requires e.ops.tail.Cons? && e.ops.tail.head == OpReturnFromBlock
    requires Settled(m, a, e.(ops := e.ops.tail.tail))
    ensures ListSim(P, fuel, e, m, k, m2, AfterNoDefers(P.FuncOf(fv), a, inLoop, w, m.g, m.frames.Nil?))
  {
    hide Step, Run;
    OnCallDefers(P, e);
    m2 := e.(ops := e.ops.tail);
    k := 2;
    if w.g.exc.None? {
      StepThen(P, e, m2, 1);
      LandsFromBlock(P, m, fv, a, [], m2);
    } else if inLoop {
      m2 := m2.(frames := e.frames.tail);
      StepThen(P, e, m2, 1);
      LandsFromBlock(P, m, fv, a, [], m2);
    } else {
      m2 := m2.(frames := m.frames);
      if CallTail(m.frames).Nil? {
        StepThen(P, e, m2, 1);
        OnReturnFromBlock(P, m2);
      } else {
        k := 1;
        SetDefersFacts(m.frames, [], []);
        SetDefersFacts(CallTail(m.frames), [], []);
        BelowOfExt(m, m2.(ops := m2.ops.tail), CallTail(m.frames).head);
      }
    }
  }

  /** From a panic in a function to the end of its unwinding. */
  lemma {:induction false} SimUnwind(P: Program, fuel: nat, fv: Value, a: nat, w: World, m: State, m1: State)
    returns (n: nat, m2: State)
    requires P.IsFunc(fv) && Unwinding(Callee(m, fv, a, w), m1, w)
    requires CallOK(m)
    ensures ListSim(P, fuel, m1, m, n, m2, Unwind(P, fuel, P.FuncOf(fv), a, w, m.g, m.frames.Nil?))
    decreases fuel, 1, 0
  {
    hide Step, Run, RunDefers;
    var m3 := m1.(ops := m1.ops.tail.tail);
    BelowIsSettled(m, fv, a, w, m3);
    ReadyToDefer(P, m, fv, a, w, m3, m1);
    var n1, e := SimDefers(P, fuel, fv, a, w, m, m1);
    var o := RunDefers(P, fuel, a, w);
    if o.Normal? {
      var k;
      SettledBelow(m, a, m3, e);
      k, m2 := EndUnwind(P, fuel, m, fv, a, o.w, e);
      ComposeCall(P, fuel, m1, n1, e, m, k, m2, Unwound(P.FuncOf(fv), a, o.w, m.g, m.frames.Nil?));
      n := n1 + k;
    } else {
      n, m2 := SimByDeferred(P, fuel, fv, a, false, m, m1, n1, e, o);
    }
  }

  /** The end of a frame's unwinding once its deferred calls are done. */
  function Unwound(fn: Func, a: nat, w: World, caller: Globals, top: bool): EvalR<seq<Value>> {
    if w.g.exc.None? then Leave(w.g, caller, top, ReadResults(w.g.store, a, fn)) else Panicked(w.g)
  }

  /** The function's deferred calls are done: it returns if one recovered, else
      the panic is the caller's. */
  lemma EndUnwind(P: Program, fuel: nat, m: State, fv: Value, a: nat, w: World, e: State) returns (k: nat, m2: State)
    requires Deferring(P, m, fv, a, w, e) && w.defers == [] && CallOK(m)
    requires e.frames.Cons? && e.frames == CallTail(e.frames)
    requires e.ops.tail.Cons? && e.ops.tail.head == OpPanic2
    requires Settled(m, a, e.(ops := e.ops.tail.tail))
    ensures ListSim(P, fuel, e, m, k, m2, Unwound(P.FuncOf(fv), a, w, m.g, m.frames.Nil?))
  {
    hide Step;
    m2 := m;
    if w.g.exc.None? {
      k := 4;
      Recovered(P, m, fv, a, w, e);
    } else {
      k, m2 := PanicsOn(P, m, fv, a, w, e);
    }
  }

  lemma SettledBelow(m: State, a: nat, m3: State, e: State)
    requires e.ops.Cons? && Settled(m, a, m3) && Settled(m, a, e.(ops := e.ops.tail))
    ensures Settled(m, a, e.(ops := m3.ops))
  {
  }

  /** A deferred call recovered: the function returns what its block holds. */
  lemma Recovered(P: Program, m: State, fv: Value, a: nat, w: World, e: State)
    requires Deferring(P, m, fv, a, w, e) && w.defers == [] && w.g.exc.None?
    requires e.ops.tail.Cons? && e.ops.tail.head == OpPanic2
    requires Settled(m, a, e.(ops := e.ops.tail.tail))
    ensures var vs := ReadResults(w.g.store, a, P.FuncOf(fv));
            Run(P, e, 4) == Next(m.(values := PushAll(m.values, vs), g := Leave(w.g, m.g, m.frames.Nil?, vs).g))
  {
    hide Step;
    var e1 := e.(ops := e.ops.tail);
    OnCallDefers(P, e);
    StepThen(P, e, e1, 3);
    var e2 := e.(ops := Cons(OpReturnCallDefers, Cons(OpReturnFromBlock, e.ops.tail.tail)));
    OnPanic2(P, e1);
    StepThen(P, e1, e2, 2);
    var e3 := e.(ops := Cons(OpReturnFromBlock, e.ops.tail.tail));
    OnCallDefers(P, e2);
    StepThen(P, e2, e3, 1);
    LandsFromBlock(P, m, fv, a, [], e3);
  }

  /** Nobody recovered: the frame is popped and the panic is the caller's. */
  lemma PanicsOn(P: Program, m: State, fv: Value, a: nat, w: World, e: State) returns (k: nat, m2: State)
    requires Deferring(P, m, fv, a, w, e) && w.defers == [] && w.g.exc.Some? && CallOK(m)
    requires e.frames.Cons? && e.frames == CallTail(e.frames)
    requires e.ops.tail.Cons? && e.ops.tail.head == OpPanic2
    requires Settled(m, a, e.(ops := e.ops.tail.tail))
    ensures if CallTail(m.frames).Nil? then Run(P, e, k) == Uncaught(w.g.exc.value)
            else Run(P, e, k) == Next(m2) && Unwinding(m, m2, World(w.g, DefersOf(m.frames)))
  {
    hide Step;
    k := 2;
    var e1 := e.(ops := e.ops.tail, frames := m.frames);
    OnCallDefers(P, e);
    StepThen(P, e, e1, 1);
    OnPanic2(P, e1);
    m2 := e1.(frames := CallTail(m.frames), ops := Cons(OpReturnCallDefers, Cons(OpPanic2, e.ops.tail.tail)));
    if CallTail(m.frames).Cons? {
      SetDefersFacts(m.frames, [], []);
      SetDefersFacts(CallTail(m.frames), [], []);
      BelowOfExt(m, m2.(ops := m2.ops.tail.tail), CallTail(m.frames).head);
    }
  }

  // ---------------------------------------------------------------- simple statements

  lemma {:induction false} SimSimple(P: Program, fuel: nat, s: Simple, m: State) returns (n: nat, m2: State)
    requires m.blocks.Cons? && m.frames.Cons? && m.stmts.Cons? && TopStmt(m) == Some(Basic(s))
    requires CallOK(m.(stmts := m.stmts.tail))
    ensures ExecSwitch(P, m, Basic(s)).Next?
    ensures SimpleSim(P, fuel, ExecSwitch(P, m, Basic(s)).m, PopStmt(m), m.(stmts := m.stmts.tail), n, m2,
                      ExecSimple(P, fuel, s, m.blocks.head, m.g))
    decreases fuel, 0, s, 1
  {
    hide Step;
    match s
    case Assign(_, _) => n, m2 := SimAssign(P, fuel, s, m);
    case ExprStmt(x) =>
      if x.Call? {
        n, m2 := SimCallStmt(P, fuel, s, m);
      } else {
        n, m2 := SimExprStmt(P, fuel, s, m);
      }
  }

  lemma {:induction false} SimAssign(P: Program, fuel: nat, s: Simple, m: State) returns (n: nat, m2: State)
    requires m.blocks.Cons? && m.frames.Cons? && m.stmts.Cons? && TopStmt(m) == Some(Basic(s))
    requires CallOK(m.(stmts := m.stmts.tail)) && s.Assign?
    ensures SimpleSim(P, fuel, ExecSwitch(P, m, Basic(s)).m, PopStmt(m), m.(stmts := m.stmts.tail), n, m2,
                      ExecSimple(P, fuel, s, m.blocks.head, m.g))
    decreases fuel, 0, s, 0
  {
    hide Step;
    var mt := m.(stmts := m.stmts.tail);
    var mA := PushOp(m, OpAssign);
    var start := PushEval(mA, s.rhs);
    ExtNear(mt, mA);
    CallExt(mt, mA);
    n, m2 := SimExpr(P, fuel, s.rhs, mA);
    var r := Eval(P, fuel, s.rhs, m.blocks.head, false, m.g);
    if r.Ok? {
      var mB := mA.(values := Cons(r.v, m.values), g := r.g);
      RunThen(P, start, n, mB, 1);
      OnAssign(P, mB);
      n := n + 1;
    } else {
      Propagate(P, fuel, start, 0, start, mt, mA, n, m2, r, Recast<Value, ()>(r));
    }
  }

  lemma {:induction false} SimExprStmt(P: Program, fuel: nat, s: Simple, m: State) returns (n: nat, m2: State)
    requires m.blocks.Cons? && m.frames.Cons? && m.stmts.Cons? && TopStmt(m) == Some(Basic(s))
    requires CallOK(m.(stmts := m.stmts.tail)) && s.ExprStmt? && !s.x.Call?
    ensures SimpleSim(P, fuel, ExecSwitch(P, m, Basic(s)).m, PopStmt(m), m.(stmts := m.stmts.tail), n, m2,
                      ExecSimple(P, fuel, s, m.blocks.head, m.g))
    decreases fuel, 0, s, 0
  {
    hide Step;
    var mt := m.(stmts := m.stmts.tail);
    var mA := PushOp(PopStmt(m), OpPopValue);
    var start := PushEval(mA, s.x);
    ExtNear(mt, mA);
    CallExt(mt, mA);
    n, m2 := SimExpr(P, fuel, s.x, mA);
    var r := Eval(P, fuel, s.x, m.blocks.head, false, m.g);
    if r.Ok? {
      var mB := mA.(values := Cons(r.v, m.values), g := r.g);
      RunThen(P, start, n, mB, 1);
      OnPopValue(P, mB);
      n := n + 1;
    } else {
      Propagate(P, fuel, start, 0, start, mt, mA, n, m2, r, Recast<Value, ()>(r));
    }
  }

  lemma {:induction false} SimCallStmt(P: Program, fuel: nat, s: Simple, m: State) returns (n: nat, m2: State)
    requires m.blocks.Cons? && m.frames.Cons? && m.stmts.Cons? && TopStmt(m) == Some(Basic(s))
    requires CallOK(m.(stmts := m.stmts.tail)) && s.ExprStmt? && s.x.Call?
    ensures SimpleSim(P, fuel, ExecSwitch(P, m, Basic(s)).m, PopStmt(m), m.(stmts := m.stmts.tail), n, m2,
                      ExecSimple(P, fuel, s, m.blocks.head, m.g))
    decreases fuel, 0, s, 0
  {
    hide Step;
    var mt := m.(stmts := m.stmts.tail);
    var mA := PushOp(PopStmt(m), OpPopResults);
    var start := PushEval(mA, s.x);
    ExtNear(mt, mA);
    CallExt(mt, mA);
    n, m2 := SimCall(P, fuel, s.x, mA);
    var r := EvalCall(P, fuel, s.x, m.blocks.head, false, m.g);
    if r.Ok? {
      CallSetsCount(P, fuel, s.x, m.blocks.head, false, m.g);
      PopPushAll(m.values, r.v);
      var mB := mA.(values := PushAll(m.values, r.v), g := r.g);
      RunThen(P, start, n, mB, 1);
      OnPopResults(P, mB);
      n := n + 1;
    } else {
      Propagate(P, fuel, start, 0, start, mt, mA, n, m2, r, Recast<seq<Value>, ()>(r));
    }
  }

  /** A call leaves its number of results for the op that discards them. */
  lemma CallSetsCount(P: Program, fuel: nat, e: Expr, blk: nat, top: bool, g: Globals)
    requires e.Call?
    ensures var r := EvalCall(P, fuel, e, blk, top, g); r.Ok? ==> r.g.nres == |r.v|
  {
    var r := Eval(P, fuel, e.fn, blk, top, g);
    if r.Ok? {
      var r2 := EvalList(P, fuel, e.args, blk, top, r.g);
      if r2.Ok? && fuel > 0 {
        CallFnLeaves(P, fuel - 1, r.v, r2.v, top, r2.g);
      }
    }
  }

  /** A call that returned: the caller's package and realm, and the number of results
      for the op that discards them. */
  ghost predicate LeavesCall(r: EvalR<seq<Value>>, caller: Globals) {
    r.Ok? ==> r.g.pkg == caller.pkg && r.g.realm == caller.realm && r.g.nres == |r.v|
  }

  lemma CallFnLeaves(P: Program, fuel: nat, fv: Value, args: seq<Value>, top: bool, g: Globals)
    ensures LeavesCall(CallFn(P, fuel, fv, args, top, g), g)
  {
    if P.IsFunc(fv) {
      var fn := P.FuncOf(fv);
      var a := |g.store|;
      var o := ExecBody(P, fuel, fn.body, a, a, World(Enter(P, fv, args, g), []));
      match o
      case Normal(w) => FinishLeaves(P, fuel, fn, a, None, false, w, g, top);
      case Returns(rv, inLoop, w) => FinishLeaves(P, fuel, fn, a, rv, inLoop, w, g, top);
      case Panics(w) => UnwindLeaves(P, fuel, fn, a, w, g, top);
      case _ =>
    }
  }

  lemma {:induction false} FinishLeaves(P: Program, fuel: nat, fn: Func, a: nat, rv: Option<seq<Value>>, inLoop: bool, w: World,
                                           caller: Globals, top: bool)
    ensures LeavesCall(Finish(P, fuel, fn, a, rv, inLoop, w, caller, top), caller)
    decreases fuel, 1
  {
    var g1 := if rv.Some? then w.g.(store := WriteResults(w.g.store, a, fn, rv.value)) else w.g;
    ByDeferredLeaves(P, fuel, fn, a, inLoop, RunDefers(P, fuel, a, World(g1, w.defers)), caller, top);
  }

  lemma {:induction false} UnwindLeaves(P: Program, fuel: nat, fn: Func, a: nat, w: World, caller: Globals, top: bool)
    ensures LeavesCall(Unwind(P, fuel, fn, a, w, caller, top), caller)
    decreases fuel, 1
  {
    ByDeferredLeaves(P, fuel, fn, a, false, RunDefers(P, fuel, a, w), caller, top);
  }

  lemma {:induction false} ByDeferredLeaves(P: Program, fuel: nat, fn: Func, a: nat, inLoop: bool, o: Outcome, caller: Globals, top: bool)
    ensures LeavesCall(ByDeferred(P, fuel, fn, a, inLoop, o, caller, top), caller)
    decreases fuel, 0
  {
    if fuel > 0 {
      match o
      case Returns(rv, deep, w) => FinishLeaves(P, fuel - 1, fn, a, rv, deep || inLoop, w, caller, top);
      case Panics(w) => UnwindLeaves(P, fuel - 1, fn, a, w, caller, top);
      case _ =>
    }
  }

  lemma {:induction false} SimOpt(P: Program, fuel: nat, init: Option<Simple>, m: State) returns (n: nat, m2: State)
    requires m.blocks.Cons? && m.frames.Cons? && CallOK(m)
    ensures SimpleSim(P, fuel, QueueInit(m, init), m, m, n, m2, ExecOpt(P, fuel, init, m.blocks.head, m.g))
    decreases fuel, 0, init
  {
    hide Step;
    match init
    case None => n, m2 := 0, m;
    case Some(s) =>
      var m1 := PushStmt(m, SStmt(Basic(s)));
      var start := QueueInit(m, init);
      n, m2 := SimSimple(P, fuel, s, m1);
      OnExec(P, start);
      StepThen(P, start, ExecSwitch(P, m1, Basic(s)).m, n);
      StepThen(P, start, ExecSwitch(P, m1, Basic(s)).m, 0);
      var r := ExecSimple(P, fuel, s, m.blocks.head, m.g);
      if !r.Ok? {
        ExtNear(m, m);
        Propagate(P, fuel, start, 1, ExecSwitch(P, m1, Basic(s)).m, m, m, n, m2, r, r);
      }
      n := n + 1;
  }

  // ---------------------------------------------------------------- bodies

  /** Runs the rest of a body under its sticky op. */
  lemma {:induction false} SimSeq(P: Program, fuel: nat, home: nat, ss: seq<Stmt>, op: Op, b: BodyStmt, mb: State)
    returns (n: nat, act: Option<Stmt>, m2: State)
    requires op.OpBody? || op.OpForLoop? || (op.OpRangeIter? && mb.values.Cons? && mb.values.head.VList?)
    requires StmtPre(P, home, PushOp(mb, op), b)
    requires 0 <= b.next <= |b.body| && ss == b.body[b.next..]
    ensures StmtSim(P, fuel, Next(WithBody(PushOp(mb, op), b)), PushOp(mb, op), b.(next := |b.body|), n, act, m2,
                    ExecBody(P, fuel, ss, mb.blocks.head, home, WorldOf(mb)))
    ensures ss != [] ==> n >= 1
    decreases fuel, 0, ss, 0
  {
    hide Step, DoBreak, DoContinue, ExecSwitch;
    var mt := PushOp(mb, op);
    var m := WithBody(mt, b);
    m2 := m;
    if ss == [] {
      n, act := 0, b.active;
      SetWTwice(mt, WorldOf(mb), WorldOf(mb));
      return;
    }
    var s := ss[0];
    var b1 := b.(next := b.next + 1);
    assert b.body[b.next] == s && ss[1..] == b.body[b1.next..];
    var m1 := WithBody(mt, b1.(active := Some(s)));
    NextStmt(P, mb, op, b);
    StmtPreSetW(P, home, mt, b, b1, WorldOf(mb));
    SetWTwice(mt, WorldOf(mb), WorldOf(mb));
    var n1;
    n1, act, m2 := SimStmt(P, fuel, home, s, mt, b1);
    var o := Exec(P, fuel, s, mb.blocks.head, home, WorldOf(mb));
    assert Run(P, m, n1 + 1) == RunFrom(P, ExecSwitch(P, m1, s), n1);
    if o.Normal? {
      var mb1 := SetW(mb, o.w);
      var b2 := b1.(active := act);
      SetWTwice(mb, o.w, o.w);
      StmtPreSetW(P, home, mt, b, b2, o.w);
      var n2;
      n2, act, m2 := SimSeq(P, fuel, home, ss[1..], op, b2, mb1);
      var o2 := ExecBody(P, fuel, ss[1..], mb.blocks.head, home, o.w);
      AfterNormal(P, fuel, m, n1 + 1, mt, b.(next := |b.body|), o.w, b2, n2, act, m2, o2);
      n := n1 + 1 + n2;
    } else {
      n := n1 + 1;
      var bE := b.(next := |b.body|, active := act);
      if (o.Breaks? || o.Continues?) && Bound(mt.frames, o.lab) {
        StmtPreSetW(P, home, mt, b, bE, o.w);
        BoundDefers(mt.frames, o.w.defers, o.lab);
        BranchIgnoresNext(SetW(mt, o.w), bE, b1.next, SetW(mt, o.w).frames, o.lab);
      }
    }
  }

  /** A sticky body op with statements left dispatches the next one. */
  lemma NextStmt(P: Program, mb: State, op: Op, b: BodyStmt)
    requires op.OpBody? || op.OpForLoop? || (op.OpRangeIter? && mb.values.Cons? && mb.values.head.VList?)
    requires 0 <= b.next < |b.body|
    ensures var s := b.body[b.next];
            Step(P, WithBody(PushOp(mb, op), b)) ==
            ExecSwitch(P, WithBody(PushOp(mb, op), b.(next := b.next + 1, active := Some(s))), s)
  {
    hide Step;
    var m := WithBody(PushOp(mb, op), b);
    if op.OpBody? {
      OnBody(P, m);
    } else if op.OpForLoop? {
      OnForLoop(P, m);
    } else {
      OnRangeIter(P, m);
    }
  }

  /** The rest of a body, after a statement that completed in world `w`. */
  lemma AfterNormal(P: Program, fuel: nat, m: State, a: nat, mt: State, bE: BodyStmt, w: World, b2: BodyStmt,
                    n: nat, act: Option<Stmt>, m2: State, o: Outcome)
    requires CallTail(mt.frames).Cons? && CallOK(mt)
    requires Run(P, m, a) == Next(WithBody(SetW(mt, w), b2))
    requires StmtSim(P, fuel, Next(WithBody(SetW(mt, w), b2)), SetW(mt, w), bE.(active := b2.active), n, act, m2, o)
    ensures StmtSim(P, fuel, Next(m), mt, bE, a + n, act, m2, o)
  {
    hide Step;
    var m1 := WithBody(SetW(mt, w), b2);
    RunThen(P, m, a, m1, n);
    SetWTwice(mt, w, if o.Normal? || o.Breaks? || o.Continues? || o.Returns? || o.Panics? || o.Drops? then o.w else w);
    if o.Breaks? || o.Continues? {
      BoundDefers(mt.frames, w.defers, o.lab);
    } else if !o.Normal? {
      ExtNear(mt, SetW(mt, w));
      LiftStmt(P, fuel, Next(m), a, m1, mt, bE, SetW(mt, w), bE.(active := b2.active), n, act, m2, o);
    }
  }

  /** A whole body under OpBody. */
  lemma {:induction false} SimBody(P: Program, fuel: nat, home: nat, ss: seq<Stmt>, base: State) returns (n: nat, m2: State)
    requires BodyPre(P, home, base)
    ensures BodySim(P, fuel, WithBody(PushOp(base, OpBody), PlainBody(ss)), base, n, m2,
                    ExecBody(P, fuel, ss, base.blocks.head, home, WorldOf(base)))
    decreases fuel, 0, ss, 1
  {
    hide Step, DoBreak, DoContinue;
    var mt := PushOp(base, OpBody);
    var b := PlainBody(ss).(next := 0);
    var start := WithBody(mt, PlainBody(ss));
    var m := WithBody(mt, b);
    ExtNear(base, mt);
    ExtNear(base, m);
    CallExt(base, mt);
    FramesWithinExt(base.frames, base, m);
    assert ss == b.body[0..];
    var act, n1;
    n1, act, m2 := SimSeq(P, fuel, home, ss, OpBody, b, base);
    var o := ExecBody(P, fuel, ss, base.blocks.head, home, WorldOf(base));
    n := BodyEnds(P, fuel, home, ss, base, act, n1, m2, o);
  }

  /** What the statements of a body under OpBody do is what the body does. */
  lemma BodyEnds(P: Program, fuel: nat, home: nat, ss: seq<Stmt>, base: State, act: Option<Stmt>, n1: nat, m2: State, o: Outcome)
    returns (n: nat)
    requires BodyPre(P, home, base) && (o.Normal? || n1 >= 1)
    requires var b := PlainBody(ss).(next := 0);
             StmtSim(P, fuel, Next(WithBody(PushOp(base, OpBody), b)), PushOp(base, OpBody), b.(next := |ss|), n1, act, m2, o)
    ensures BodySim(P, fuel, WithBody(PushOp(base, OpBody), PlainBody(ss)), base, n, m2, o)
  {
    hide Step, DoBreak, DoContinue;
    var mt := PushOp(base, OpBody);
    var b := PlainBody(ss).(next := 0);
    var start := WithBody(mt, PlainBody(ss));
    var m := WithBody(mt, b);
    ExtNear(base, mt);
    var bE := b.(next := |ss|, active := act);
    OnBody(P, start);
    OnBody(P, m);
    if o.Normal? {
      var mE := WithBody(SetW(mt, o.w), bE);
      RunThen(P, m, n1, mE, 1);
      SameStep(P, start, m, n1 + 1);
      OnBody(P, mE);
      n := n1 + 1;
    } else {
      SameStep(P, start, m, n1);
      n := n1;
      if o.Breaks? || o.Continues? {
        if Bound(base.frames, o.lab) {
          FramesOKSetW(base, o.w);
          BoundDefers(base.frames, o.w.defers, o.lab);
          var mE := WithBody(SetW(mt, o.w), bE);
          ExtNear(SetW(base, o.w), mE);
          BranchExt(SetW(base, o.w), mE, mE.frames, o.lab);
        }
      } else if o.Panics? {
        UnwindingExt(base, mt, m2, o.w);
      } else if o.Drops? {
        DroppingExt(base, mt, m2, o.w);
      } else if o.Returns? && Fits(P, base, o.rv) {
        ReturningExt(base, mt, m2, o.rv, o.inLoop, o.inLoop, o.w);
      }
    }
  }

  lemma SameStep(P: Program, m: State, m2: State, n: nat)
    requires Step(P, m) == Step(P, m2) && n >= 1
    ensures Run(P, m, n) == Run(P, m2, n)
  {
  }

  // ---------------------------------------------------------------- statements

  /** A statement executed from a body (by OpBody, OpForLoop or OpRangeIter). */
  lemma {:induction false} SimStmt(P: Program, fuel: nat, home: nat, s: Stmt, mt: State, b: BodyStmt)
    returns (n: nat, act: Option<Stmt>, m2: State)
    requires StmtPre(P, home, mt, b)
    ensures StmtSim(P, fuel, ExecSwitch(P, WithBody(mt, b.(active := Some(s))), s), mt, b, n, act, m2,
                    Exec(P, fuel, s, mt.blocks.head, home, WorldOf(mt)))
    decreases fuel, 0, s, 3
  {
    hide Step;
    var m := WithBody(mt, b.(active := Some(s)));
    m2 := m;
    SetWTwice(mt, WorldOf(mt), WorldOf(mt));
    match s {
      case Basic(x) =>
        n, m2 := SimSimple(P, fuel, x, m);
        act := None;
        var r := ExecSimple(P, fuel, x, mt.blocks.head, mt.g);
        if r.Ok? {
          SetWTwice(mt, WorldOf(mt), World(r.g, DefersOf(mt.frames)));
        } else {
          ExtNear(mt, mt);
          LiftAbort(P, fuel, ExecSwitch(P, m, s), 0, ExecSwitch(P, m, s).m, mt, b, act, mt, n, m2, r);
        }
      case Block(_) => n, act, m2 := SimBlock(P, fuel, home, s, mt, b);
      case If(_, _, _, _) => n, act, m2 := SimIf(P, fuel, home, s, mt, b);
      case For(_, _, _, _, _) => n, act, m2 := SimFor(P, fuel, home, s, mt, b);
      case Range(_, _, _, _, _) => n, act, m2 := SimRange(P, fuel, home, s, mt, b);
      case Break(_) => n, act := 0, Some(s);
      case Continue(_) => n, act := 0, Some(s);
      case Return(_) => n, act, m2 := SimReturn(P, fuel, home, s, mt, b);
      case Panic(_) => n, act, m2 := SimPanic(P, fuel, home, s, mt, b);
      case Defer(_, _) => n, act, m2 := SimDefer(P, fuel, home, s, mt, b);
    }
  }

  lemma AfterStart(P: Program, fuel: nat, start: State, a: nat, start1: State, mt: State, b: BodyStmt,
                   fuel1: nat, n: nat, act: Option<Stmt>, m2: State, o: Outcome)
    requires Run(P, start, a) == Next(start1) && fuel <= fuel1 + a
    requires StmtSim(P, fuel1, Next(start1), mt, b, n, act, m2, o)
    ensures StmtSim(P, fuel, Next(start), mt, b, a + n, act, m2, o)
  {
    hide Step;
    RunThen(P, start, a, start1, n);
  }

  /** Ends the block of an if or block statement whose body ran in `base`. */
  lemma {:induction false} CloseBlock(P: Program, fuel: nat, home: nat, r0: Res, a: nat, start: State, mt: State, b: BodyStmt, act: Option<Stmt>,
                   base: State, n: nat, m2: State, o: Outcome) returns (k: nat)
    requires StmtPre(P, home, mt, b)
    requires r0.Next? && RunFrom(P, r0, a) == Next(start)
    requires base.frames == mt.frames && base.blocks.Cons?
    requires base == State(Cons(OpPopBlock, mt.ops), mt.values, mt.exprs, Cons(SBody(b.(active := act)), mt.stmts),
                           Cons(base.blocks.head, mt.blocks), mt.frames, base.g)
    requires BodySim(P, fuel, start, base, n, m2, o)
    ensures StmtSim(P, fuel, r0, mt, b, k, act, m2, o)
  {
    hide Step;
    RunThen(P, r0.m, a, start, n);
    ExtNear(mt, base);
    if o.Normal? {
      var mE := SetW(base, o.w);
      RunThen(P, r0.m, a + n, mE, 1);
      OnPopBlock(P, mE);
      k := a + n + 1;
    } else {
      k := a + n;
      if o.Breaks? || o.Continues? {
        if Bound(mt.frames, o.lab) {
          var mE := WithBody(SetW(mt, o.w), b.(active := act));
          StmtPreSetW(P, home, mt, b, b.(active := act), o.w);
          BoundDefers(mt.frames, o.w.defers, o.lab);
          ExtNear(mE, SetW(base, o.w));
          BranchExt(mE, SetW(base, o.w), mE.frames, o.lab);
        }
      } else {
        LiftBody(P, fuel, r0, a, start, mt, b, act, base, n, m2, o);
      }
    }
  }

  lemma BodyPreInside(P: Program, home: nat, mt: State, b: BodyStmt, base: State)
    requires StmtPre(P, home, mt, b)
    requires base.frames == mt.frames && base.blocks.Cons?
    requires Near(mt.ops, base.ops) && Near(mt.values, base.values) && Near(mt.exprs, base.exprs)
    requires base.stmts.Cons? && base.stmts.tail == mt.stmts && Near(mt.blocks, base.blocks)
    ensures BodyPre(P, home, base) && Ext(mt, base)
  {
    ExtNear(mt, base);
    CallExt(mt, base);
    ActExt(mt, base, home);
    FramesWithinLonger(mt.frames, WithBody(mt, b), base);
  }

  lemma {:induction false} SimBlock(P: Program, fuel: nat, home: nat, s: Stmt, mt: State, b: BodyStmt)
    returns (n: nat, act: Option<Stmt>, m2: State)
    requires StmtPre(P, home, mt, b) && s.Block?
    ensures StmtSim(P, fuel, ExecSwitch(P, WithBody(mt, b.(active := Some(s))), s), mt, b, n, act, m2,
                    Exec(P, fuel, s, mt.blocks.head, home, WorldOf(mt)))
    decreases fuel, 0, s, 2
  {
    hide Step;
    var m := WithBody(mt, b.(active := Some(s)));
    act := Some(s);
    var base := PushOp(PushBlock(m, Some(mt.blocks.head), map[]), OpPopBlock);
    BodyPreInside(P, home, mt, b, base);
    var n1;
    n1, m2 := SimBody(P, fuel, home, s.body, base);
    var start := WithBody(PushOp(base, OpBody), PlainBody(s.body));
    assert ExecSwitch(P, m, s) == Next(start);
    n := CloseBlock(P, fuel, home, Next(start), 0, start, mt, b, act, base, n1, m2,
                    Exec(P, fuel, s, mt.blocks.head, home, WorldOf(mt)));
  }

  lemma {:induction false} SimIf(P: Program, fuel: nat, home: nat, s: Stmt, mt: State, b: BodyStmt)
    returns (n: nat, act: Option<Stmt>, m2: State)
    requires StmtPre(P, home, mt, b) && s.If?
    ensures StmtSim(P, fuel, ExecSwitch(P, WithBody(mt, b.(active := Some(s))), s), mt, b, n, act, m2,
                    Exec(P, fuel, s, mt.blocks.head, home, WorldOf(mt)))
    decreases fuel, 0, s, 2
  {
    hide Step;
    var m := WithBody(mt, b.(active := Some(s)));
    var ds := DefersOf(mt.frames);
    var a := |mt.g.store|;
    act := None;
    var mC := PushOp(PushOp(PushBlock(m, Some(mt.blocks.head), map[]), OpPopBlock), OpIfCond);
    var mX := PushEval(mC, s.cond);
    var start := QueueInit(mX, s.init);
    assert ExecSwitch(P, m, s) == Next(start);
    ExtNear(mt, mX);
    CallExt(mt, mX);
    var n1;
    n1, m2 := SimOpt(P, fuel, s.init, mX);
    var r := ExecOpt(P, fuel, s.init, a, NewBlock(mt.g, mt.blocks.head));
    if !r.Ok? {
      LiftAbort(P, fuel, Next(start), 0, start, mt, b, act, mX, n1, m2, r);
      n := n1;
      return;
    }
    var n2;
    n2, m2 := SimIfCond(P, fuel, home, s, mt, b, a, r.g);
    AfterStart(P, fuel, start, n1, PushEval(IfStart(mt, b, s, a, r.g), s.cond), mt, b, fuel, n2, act, m2,
               ExecCond(P, fuel, s, a, home, World(r.g, ds)));
    n := n1 + n2;
  }

  /** The machine of an if statement about to evaluate its condition. */
  function IfStart(mt: State, b: BodyStmt, s: Stmt, a: nat, g: Globals): State {
    State(Cons(OpIfCond, Cons(OpPopBlock, mt.ops)), mt.values, mt.exprs,
          Cons(SBody(b.(active := Some(s))), mt.stmts), Cons(a, mt.blocks), mt.frames, g)
  }

  lemma {:induction false} SimIfCond(P: Program, fuel: nat, home: nat, s: Stmt, mt: State, b: BodyStmt, a: nat, g: Globals)
    returns (n: nat, m2: State)
    requires StmtPre(P, home, mt, b) && s.If?
    ensures StmtSim(P, fuel, Next(PushEval(IfStart(mt, b, s, a, g), s.cond)), mt, b, n, None, m2,
                    ExecCond(P, fuel, s, a, home, World(g, DefersOf(mt.frames))))
    decreases fuel, 0, s, 1
  {
    hide Step;
    var mC := IfStart(mt, b, s, a, g);
    var start := PushEval(mC, s.cond);
    ExtNear(mt, mC);
    CallExt(mt, mC);
    var n2;
    n2, m2 := SimExpr(P, fuel, s.cond, mC);
    var r2 := Eval(P, fuel, s.cond, a, false, g);
    if !r2.Ok? {
      var rb: EvalR<bool> := Recast(r2);
      assert EvalBool(P, fuel, s.cond, a, g) == rb;
      ExtNear(mC, mC);
      Propagate(P, fuel, start, 0, start, mC, mC, n2, m2, r2, rb);
      LiftAbort(P, fuel, Next(start), 0, start, mt, b, None, mC, n2, m2, rb);
      n := n2;
      return;
    }
    var mV := mC.(values := Cons(r2.v, mt.values), g := r2.g);
    RunThen(P, start, n2, mV, 1);
    OnIfCond(P, mV);
    if !r2.v.VBool? {
      assert EvalBool(P, fuel, s.cond, a, g) == Failed;
      assert Step(P, mV) == GoPanic;
      n := n2 + 1;
      return;
    }
    var base := State(Cons(OpPopBlock, mt.ops), mt.values, mt.exprs, Cons(SBody(b.(active := None)), mt.stmts),
                      Cons(a, mt.blocks), mt.frames, r2.g);
    var body := if r2.v.b then s.thn else s.els;
    BodyPreInside(P, home, mt, b, base);
    var start3 := if body == [] then base else WithBody(PushOp(base, OpBody), PlainBody(body));
    assert Step(P, mV) == Next(start3);
    var n3 := 0;
    if body != [] {
      n3, m2 := SimBody(P, fuel, home, body, base);
    } else {
      SetWTwice(base, WorldOf(base), WorldOf(base));
    }
    n := CloseBlock(P, fuel, home, Next(start), n2 + 1, start3, mt, b, None, base, n3, m2,
                    ExecBody(P, fuel, body, a, home, World(r2.g, DefersOf(mt.frames))));
  }

  lemma {:induction false} SimReturn(P: Program, fuel: nat, home: nat, s: Stmt, mt: State, b: BodyStmt)
    returns (n: nat, act: Option<Stmt>, m2: State)
    requires StmtPre(P, home, mt, b) && s.Return?
    ensures StmtSim(P, fuel, ExecSwitch(P, WithBody(mt, b.(active := Some(s))), s), mt, b, n, act, m2,
                    Exec(P, fuel, s, mt.blocks.head, home, WorldOf(mt)))
    decreases fuel, 0, s, 2
  {
    hide Step;
    act := None;
    FramesWithinLonger(mt.frames, WithBody(mt, b), WithBody(mt, b.(active := None)));
    n, m2 := SimReturnFrom(P, fuel, s.results, mt, WithBody(mt, b.(active := None)));
    var r := EvalList(P, fuel, s.results, mt.blocks.head, false, mt.g);
    if !r.Ok? {
      ExtNear(mt, mt);
      var r0 := DoReturnStmt(P, WithBody(mt, b.(active := None)), s.results);
      LiftAbort(P, fuel, r0, 0, r0.m, mt, b, act, mt, n, m2, r);
    }
  }

  /** The ops of a return statement, up to the point where its results are on
      the value stack; `m1` is `mt` or `mt` with a body on top. */
  lemma {:induction false} SimReturnFrom(P: Program, fuel: nat, es: seq<Expr>, mt: State, m1: State)
    returns (n: nat, m2: State)
    requires mt.blocks.Cons? && CallTail(mt.frames).Cons? && CallOK(mt)
    requires CallTail(mt.frames).head.kind.CallFrame? && P.IsFunc(CallTail(mt.frames).head.kind.fv)
    requires m1 == mt.(stmts := m1.stmts) && Near(mt.stmts, m1.stmts) && FramesOK(m1)
    ensures DoReturnStmt(P, m1, es).Next?
    ensures var r := EvalList(P, fuel, es, mt.blocks.head, false, mt.g);
            var start := DoReturnStmt(P, m1, es).m;
            var rv := if es == [] || !r.Ok? then None else Some(r.v);
            if r.Ok? then
              Fits(P, mt, rv) ==>
                Run(P, start, n) == Next(m2) && Returning(mt, m2, rv, false, World(r.g, DefersOf(mt.frames)))
            else AbortSim(P, fuel, start, mt, n, m2, r)
    decreases fuel, 0, es, 1
  {
    hide Step, EvalList;
    var fr := CallTail(mt.frames).head;
    var start := DoReturnStmt(P, m1, es).m;
    var mO := RetQueued(P, m1, fr, es);
    assert start == PushEvals(mO, es);
    RetQueuedFacts(P, m1, fr, es);
    ExtNear(mt, mO);
    CallExt(mt, mO);
    n, m2 := SimList(P, fuel, es, mO);
    var r := EvalList(P, fuel, es, mt.blocks.head, false, mt.g);
    if r.Ok? {
      m2 := mO.(values := PushAll(mO.values, r.v), g := r.g);
      if Fits(P, mt, if es == [] then None else Some(r.v)) {
        ReturnIsReady(P, mt, m1, es, r.v, r.g);
      }
    } else {
      Propagate(P, fuel, start, 0, start, mt, mO, n, m2, r, r);
    }
  }

  /** The ops a return statement queues below the evaluation of its results. */
  function RetQueued(P: Program, m: State, fr: Frame, es: seq<Expr>): State
    requires fr.kind.CallFrame? && P.IsFunc(fr.kind.fv)
  {
    if fr.kind.defers != [] then
      var m2 := PushOp(PushOp(m, OpReturnFromBlock), OpReturnCallDefers);
      if es != [] && P.FuncOf(fr.kind.fv).defaults != [] then PushOp(m2, OpReturnToBlock) else m2
    else if es == [] then PushOp(m, OpReturnFromBlock)
    else PushOp(m, OpReturn)
  }

  lemma RetQueuedFacts(P: Program, m: State, fr: Frame, es: seq<Expr>)
    requires fr.kind.CallFrame? && P.IsFunc(fr.kind.fv)
    ensures var mO := RetQueued(P, m, fr, es);
            mO == m.(ops := mO.ops) && Near(m.ops, mO.ops)
    ensures forall rv: Option<seq<Value>> ::
              rv.None? == (es == []) && (rv.Some? ==> P.FuncOf(fr.kind.fv).defaults != []) ==>
                HasRet(RetQueued(P, m, fr, es).ops, rv, fr.kind.defers) &&
                RetRest(RetQueued(P, m, fr, es).ops, rv, fr.kind.defers) == m.ops
  {
  }

  lemma ReturnIsReady(P: Program, mt: State, m1: State, es: seq<Expr>, vs: seq<Value>, g: Globals)
    requires CallTail(mt.frames).Cons? && CallOK(mt) && |vs| == |es|
    requires CallTail(mt.frames).head.kind.CallFrame? && P.IsFunc(CallTail(mt.frames).head.kind.fv)
    requires m1 == mt.(stmts := m1.stmts) && Near(mt.stmts, m1.stmts) && FramesOK(m1)
    requires Fits(P, mt, if es == [] then None else Some(vs))
    ensures var mO := RetQueued(P, m1, CallTail(mt.frames).head, es);
            Returning(mt, mO.(values := PushAll(mO.values, vs), g := g), if es == [] then None else Some(vs), false,
                      World(g, DefersOf(mt.frames)))
  {
    var rv := if es == [] then None else Some(vs);
    var fr := CallTail(mt.frames).head;
    var mO := RetQueued(P, m1, fr, es);
    RetQueuedFacts(P, m1, fr, es);
    var m2 := mO.(values := PushAll(mO.values, vs), g := g);
    PopPushAll(mt.values, vs);
    SetDefersFacts(mt.frames, [], []);
    SetDefersFacts(CallTail(mt.frames), [], []);
    assert RetValues(rv) == vs;
    var mR := mt.(stmts := m1.stmts, g := g);
    assert mR == m2.(ops := RetRest(m2.ops, rv, fr.kind.defers), values := DropN(m2.values, |vs|));
    ExtNear(mt, mR);
    BelowOfExt(mt, mR, fr);
    FramesWithinExtSame(mt.frames, m1, mR);
  }

  lemma {:induction false} SimPanic(P: Program, fuel: nat, home: nat, s: Stmt, mt: State, b: BodyStmt)
    returns (n: nat, act: Option<Stmt>, m2: State)
    requires StmtPre(P, home, mt, b) && s.Panic?
    ensures StmtSim(P, fuel, ExecSwitch(P, WithBody(mt, b.(active := Some(s))), s), mt, b, n, act, m2,
                    Exec(P, fuel, s, mt.blocks.head, home, WorldOf(mt)))
    decreases fuel, 0, s, 2
  {
    hide Step;
    act := None;
    var mA := PushOp(WithBody(mt, b.(active := None)), OpPanic1);
    var start := PushEval(mA, s.ex);
    ExtNear(mt, mA);
    CallExt(mt, mA);
    n, m2 := SimExpr(P, fuel, s.ex, mA);
    var r := Eval(P, fuel, s.ex, mt.blocks.head, false, mt.g);
    if r.Ok? {
      var mV := mA.(values := Cons(r.v, mt.values), g := r.g);
      RunThen(P, start, n, mV, 1);
      OnPanic1(P, mV);
      n := n + 1;
      m2 := DoOpPanic1(mV.(ops := mt.ops)).m;
      SetDefersFacts(mt.frames, [], []);
      SetDefersFacts(CallTail(mt.frames), [], []);
      var mR := m2.(ops := m2.ops.tail.tail);
      ExtNear(mt, mR);
      BelowOfExt(mt, mR, CallTail(mt.frames).head);
    } else {
      LiftAbort(P, fuel, Next(start), 0, start, mt, b, act, mA, n, m2, r);
    }
  }

  lemma {:induction false} SimDefer(P: Program, fuel: nat, home: nat, s: Stmt, mt: State, b: BodyStmt)
    returns (n: nat, act: Option<Stmt>, m2: State)
    requires StmtPre(P, home, mt, b) && s.Defer?
    ensures StmtSim(P, fuel, ExecSwitch(P, WithBody(mt, b.(active := Some(s))), s), mt, b, n, act, m2,
                    Exec(P, fuel, s, mt.blocks.head, home, WorldOf(mt)))
    decreases fuel, 0, s, 2
  {
    hide Step;
    act := None;
    var mO := PushOp(WithBody(mt, b.(active := Some(s))), OpDefer);
    var mA := PushEvals(mO, s.args);
    ExtNear(mt, mO);
    ExtEvals(mO, s.args);
    ExtTrans(mt, mO, mA);
    CallExt(mt, mA);
    var start := PushEval(mA, s.fn);
    n, m2 := SimExpr(P, fuel, s.fn, mA);
    var r := Eval(P, fuel, s.fn, mt.blocks.head, false, mt.g);
    if !r.Ok? {
      LiftAbort(P, fuel, Next(start), 0, start, mt, b, act, mA, n, m2, r);
      return;
    }
    var mB := mO.(values := Cons(r.v, mt.values), g := r.g);
    EvalsElsewhere(mO, mB, s.args);
    var n2;
    n2, m2 := SimDeferArgs(P, fuel, home, s, mt, b, r.v, r.g);
    AfterStart(P, fuel, start, n, PushEvals(mB, s.args), mt, b, fuel, n2, act, m2,
               ExecDefer(P, fuel, s, r.v, mt.blocks.head, home, World(r.g, DefersOf(mt.frames))));
    n := n + n2;
  }

  lemma {:induction false} SimDeferArgs(P: Program, fuel: nat, home: nat, s: Stmt, mt: State, b: BodyStmt, fv: Value, g: Globals)
    returns (n: nat, m2: State)
    requires StmtPre(P, home, mt, b) && s.Defer?
    ensures StmtSim(P, fuel,
                    Next(PushEvals(PushOp(WithBody(mt, b.(active := Some(s))), OpDefer).(values := Cons(fv, mt.values), g := g), s.args)),
                    mt, b, n, None, m2, ExecDefer(P, fuel, s, fv, mt.blocks.head, home, World(g, DefersOf(mt.frames))))
    decreases fuel, 0, s, 1
  {
    hide Step;
    var mB := PushOp(WithBody(mt, b.(active := Some(s))), OpDefer).(values := Cons(fv, mt.values), g := g);
    var start := PushEvals(mB, s.args);
    ExtNear(mt, mB);
    CallExt(mt, mB);
    var n2;
    n2, m2 := SimList(P, fuel, s.args, mB);
    var r2 := EvalList(P, fuel, s.args, mt.blocks.head, false, g);
    if !r2.Ok? {
      LiftAbort(P, fuel, Next(start), 0, start, mt, b, None, mB, n2, m2, r2);
      n := n2;
      return;
    }
    var mC := mB.(values := PushAll(mB.values, r2.v), g := r2.g);
    RunThen(P, start, n2, mC, 1);
    DeferStep(P, home, s, mt, b, fv, r2.v, r2.g);
    n := n2 + 1;
  }

  lemma DeferStep(P: Program, home: nat, s: Stmt, mt: State, b: BodyStmt, fv: Value, vs: seq<Value>, g: Globals)
    requires StmtPre(P, home, mt, b) && s.Defer? && |vs| == |s.args|
    ensures var mC := State(Cons(OpDefer, mt.ops), PushAll(Cons(fv, mt.values), vs), mt.exprs,
                            Cons(SBody(b.(active := Some(s))), mt.stmts), mt.blocks, mt.frames, g);
            var ds, df := DefersOf(mt.frames), Deferred(fv, vs, mt.blocks.head);
            var w := World(g.(events := g.events + [Pushed(home, |ds|, df)]), ds + [df]);
            Run(P, mC, 1) == if P.IsFunc(fv) then Next(WithBody(SetW(mt, w), b.(active := None))) else GoPanic
  {
    hide Step;
    PopPushAll(Cons(fv, mt.values), vs);
    var mC := State(Cons(OpDefer, mt.ops), PushAll(Cons(fv, mt.values), vs), mt.exprs,
                    Cons(SBody(b.(active := Some(s))), mt.stmts), mt.blocks, mt.frames, g);
    OnDefer(P, mC);
  }

  // ---------------------------------------------------------------- loops

  /** The machine inside loop `s` begun in `mt` from body `b`: the loop frame,
      block `a` of the loop, and `vals` as the value stack. */
  function LoopBase(mt: State, b: BodyStmt, s: Stmt, a: nat, vals: List<Value>, w: World): State
    requires s.For? || s.Range?
  {
    var fr := Frame(LoopFrame(s.lab, s.Range?, s), Len(mt.ops), Len(mt.values), Len(mt.exprs), Len(mt.stmts) + 1, Len(mt.blocks));
    State(mt.ops, vals, mt.exprs, Cons(SBody(b.(active := Some(s))), mt.stmts), Cons(a, mt.blocks),
          Cons(fr, SetDefers(mt.frames, w.defers)), w.g)
  }

  /** The loop's body record `lb` running under its sticky op. */
  function InLoop(mt: State, b: BodyStmt, s: Stmt, a: nat, vals: List<Value>, w: World, lb: BodyStmt): State
    requires s.For? || s.Range?
  {
    WithBody(PushOp(LoopBase(mt, b, s, a, vals, w), if s.For? then OpForLoop else OpRangeIter), lb)
  }

  predicate LoopVals(mt: State, s: Stmt, vals: List<Value>) {
    if s.Range? then vals.Cons? && vals.tail == mt.values && vals.head.VList? else vals == mt.values
  }

  predicate RecordOf(s: Stmt, lb: BodyStmt)
    requires s.For? || s.Range?
  {
    lb == NewLoopBody(s).(next := lb.next, active := lb.active, listLen := lb.listLen, listIndex := lb.listIndex)
  }

  lemma LoopInside(P: Program, home: nat, mt: State, b: BodyStmt, s: Stmt, a: nat, vals: List<Value>, w: World, lb: BodyStmt)
    requires StmtPre(P, home, mt, b) && (s.For? || s.Range?) && (LoopVals(mt, s, vals) || vals == mt.values)
    ensures var mL := PushOp(LoopBase(mt, b, s, a, vals, w), if s.For? then OpForLoop else OpRangeIter);
            && Ext(mt, mL) && Ext(mt, WithBody(mL, lb)) && SameCall(mt, mL) && CallOK(mL)
            && CallOK(WithBody(mL, lb)) && SameCall(mt, WithBody(mL, lb))
            && DefersOf(mL.frames) == w.defers
            && (LoopVals(mt, s, vals) ==> StmtPre(P, home, mL, lb))
  {
    var mL := PushOp(LoopBase(mt, b, s, a, vals, w), if s.For? then OpForLoop else OpRangeIter);
    SetWTwice(mt, w, w);
    SetDefersFacts(mt.frames, w.defers, []);
    ExtNear(mt, mL);
    ExtNear(mt, WithBody(mL, lb));
    ExtNear(SetW(mt, w), mL);
    ExtNear(SetW(mt, w), WithBody(mL, lb));
    CallExt(SetW(mt, w), mL);
    CallExt(SetW(mt, w), WithBody(mL, lb));
    StmtPreSetW(P, home, mt, b, b, w);
    FramesWithinLonger(SetW(mt, w).frames, WithBody(SetW(mt, w), b), WithBody(mL, lb));
  }

  /** Leaving the loop puts every stack back where the loop statement began. */
  lemma LoopExits(P: Program, mt: State, b: BodyStmt, s: Stmt, a: nat, vals: List<Value>, w: World, lb: BodyStmt)
    requires s.For? || s.Range?
    requires LoopVals(mt, s, vals)
    ensures PopFrameAndReset(InLoop(mt, b, s, a, vals, w, lb)) == Next(WithBody(SetW(mt, w), b.(active := None)))
  {
    var m := InLoop(mt, b, s, a, vals, w, lb);
    ExtNear(mt.(stmts := m.stmts.tail), m);
  }

  lemma LoopContinues(P: Program, mt: State, b: BodyStmt, s: Stmt, a: nat, vals: List<Value>, w: World, lb: BodyStmt)
    requires s.For? || s.Range?
    requires LoopVals(mt, s, vals)
    ensures PeekFrameAndContinue(InLoop(mt, b, s, a, vals, w, lb)) ==
            Next(InLoop(mt, b, s, a, vals, w, lb.(next := |lb.body|)))
  {
    var m := InLoop(mt, b, s, a, vals, w, lb);
    ExtNear(mt.(stmts := m.stmts.tail), m);
    assert Len(m.stmts) == Len(mt.stmts) + 2;
  }

  /** A branch to an outer loop passes through. */
  lemma LoopPasses(P: Program, home: nat, mt: State, b: BodyStmt, s: Stmt, a: nat, vals: List<Value>, w: World, lb: BodyStmt, t: string)
    requires StmtPre(P, home, mt, b) && (s.For? || s.Range?) && LoopVals(mt, s, vals)
    requires !Matches(t, s.lab) && Bound(mt.frames, t)
    ensures DoBreak(InLoop(mt, b, s, a, vals, w, lb), t) == DoBreak(WithBody(SetW(mt, w), b.(active := Some(s))), t)
    ensures DoContinue(InLoop(mt, b, s, a, vals, w, lb), t) == DoContinue(WithBody(SetW(mt, w), b.(active := Some(s))), t)
  {
    var m := InLoop(mt, b, s, a, vals, w, lb);
    var mE := WithBody(SetW(mt, w), b.(active := Some(s)));
    ExtNear(mE, m);
    StmtPreSetW(P, home, mt, b, b.(active := Some(s)), w);
    BoundDefers(mt.frames, w.defers, t);
    BranchExt(mE, m, mE.frames, t);
  }

  /** The body of a loop has run: the loop goes on, ends, or is left. */
  function AfterBody(s: Stmt, o: Outcome): Option<World>
    requires s.For? || s.Range?
  {
    match o
    case Normal(w) => Some(w)
    case Continues(t, w) => if Matches(t, s.lab) then Some(w) else None
    case _ => None
  }

  /** One pass over the loop body from a machine that steps like the one about
      to execute the first statement. */
  lemma {:induction false} SimLoopBody(P: Program, fuel: nat, home: nat, s: Stmt, mt: State, b: BodyStmt, a: nat, vals: List<Value>,
                                       w: World, lb: BodyStmt)
    returns (n: nat, act: Option<Stmt>, m2: State)
    requires StmtPre(P, home, mt, b) && (s.For? || s.Range?) && LoopVals(mt, s, vals) && RecordOf(s, lb) && lb.next == 0
    ensures var o := ExecBody(P, fuel, lb.body, a, home, w);
            var start := InLoop(mt, b, s, a, vals, w, lb);
            if AfterBody(s, o).Some? then
              Run(P, start, n) == Next(InLoop(mt, b, s, a, vals, AfterBody(s, o).value, lb.(next := |lb.body|, active := act)))
            else StmtSim(P, fuel, Next(start), mt, b, n, act, m2, LeaveLoop(s, o)) && n >= 1
    decreases fuel, 0, lb.body, 2
  {
    hide Step;
    var base := LoopBase(mt, b, s, a, vals, w);
    var op := if s.For? then OpForLoop else OpRangeIter;
    var mL := PushOp(base, op);
    LoopInside(P, home, mt, b, s, a, vals, w, lb);
    assert lb.body == lb.body[0..];
    n, act, m2 := SimSeq(P, fuel, home, lb.body, op, lb, base);
    var start := InLoop(mt, b, s, a, vals, w, lb);
    var o := ExecBody(P, fuel, lb.body, a, home, w);
    if o.Normal? || o.Breaks? || o.Continues? {
      var bE := lb.(next := |lb.body|, active := act);
      SetDefersFacts(mt.frames, w.defers, o.w.defers);
      assert WithBody(SetW(mL, o.w), bE) == InLoop(mt, b, s, a, vals, o.w, bE);
      if !o.Normal? {
        if Matches(o.lab, s.lab) {
          assert Bound(mL.frames, o.lab);
          LoopExits(P, mt, b, s, a, vals, o.w, bE);
          LoopContinues(P, mt, b, s, a, vals, o.w, bE);
          if o.Breaks? {
            act := None;
          }
        } else {
          if Bound(mt.frames, o.lab) {
            BoundDefers(mt.frames, w.defers, o.lab);
            LoopPasses(P, home, mt, b, s, a, vals, o.w, bE, o.lab);
          }
          act := Some(s);
        }
      }
    } else {
      LiftLoop(P, fuel, Next(start), s, mt, b, mL, lb.(next := |lb.body|), n, act, m2, o);
    }
  }

  /** A for statement from its condition on; `lb` is before its first or a later visit. */
  lemma {:induction false} SimForLoop(P: Program, fuel: nat, home: nat, s: Stmt, mt: State, b: BodyStmt, a: nat, w: World, lb: BodyStmt)
    returns (n: nat, act: Option<Stmt>, m2: State)
    requires StmtPre(P, home, mt, b) && s.For? && RecordOf(s, lb) && (lb.next == -1 || lb.next == -2)
    ensures StmtSim(P, fuel, Next(QueueCond(InLoop(mt, b, s, a, mt.values, w, lb), s.cnd)), mt, b, n, act, m2,
                    ExecFor(P, fuel, s, a, home, w))
    decreases fuel, 0, s, 1
  {
    hide Step, Run, Eval, ExecFor, ForBody;
    ForUnfolds(P, fuel, s, a, home, w);
    act := None;
    m2 := mt;
    var m := InLoop(mt, b, s, a, mt.values, w, lb);
    if fuel == 0 {
      n := 0;
      RunNone(P, QueueCond(m, s.cnd));
    } else if s.cnd.Some? {
      n, act, m2 := SimForCond(P, fuel, home, s, mt, b, a, w, lb);
    } else {
      ForDecides(P, s, mt, b, a, w, lb, VUndef);
      n, act, m2 := SimForBody(P, fuel, home, s, mt, b, a, w, lb.(next := 0));
      SameStep(P, m, InLoop(mt, b, s, a, mt.values, w, lb.(next := 0)), n);
    }
  }

  /** A for statement with a condition, from its condition on. */
  lemma {:induction false} SimForCond(P: Program, fuel: nat, home: nat, s: Stmt, mt: State, b: BodyStmt, a: nat, w: World, lb: BodyStmt)
    returns (n: nat, act: Option<Stmt>, m2: State)
    requires StmtPre(P, home, mt, b) && s.For? && RecordOf(s, lb) && (lb.next == -1 || lb.next == -2) && fuel > 0 && s.cnd.Some?
    ensures StmtSim(P, fuel, Next(QueueCond(InLoop(mt, b, s, a, mt.values, w, lb), s.cnd)), mt, b, n, act, m2,
                    ExecFor(P, fuel, s, a, home, w))
    decreases fuel, 0, s, 0, 3
  {
    hide Step, Run, Eval, ExecFor, ForBody;
    ForUnfolds(P, fuel, s, a, home, w);
    act := None;
    var m := InLoop(mt, b, s, a, mt.values, w, lb);
    var start := QueueCond(m, s.cnd);
    LoopInside(P, home, mt, b, s, a, mt.values, w, lb);
    n, m2 := SimExpr(P, fuel, s.cnd.value, m);
    var r := Eval(P, fuel, s.cnd.value, a, false, w.g);
    if !r.Ok? {
      var rb: EvalR<bool> := Recast(r);
      assert EvalCond(P, fuel, s.cnd, a, w.g) == rb;
      ExtNear(m, m);
      RunNone(P, start);
      Propagate(P, fuel, start, 0, start, m, m, n, m2, r, rb);
      LiftAbort(P, fuel, Next(start), 0, start, mt, b, act, m, n, m2, rb);
      return;
    }
    var w1 := World(r.g, w.defers);
    var mV := m.(values := Cons(r.v, mt.values), g := r.g);
    ForDecides(P, s, mt, b, a, w1, lb, r.v);
    assert mV == InLoop(mt, b, s, a, mt.values, w1, lb).(values := Cons(r.v, mt.values));
    if r.v != VBool(true) {
      RunThen(P, start, n, mV, 1);
      n := n + 1;
      assert EvalCond(P, fuel, s.cnd, a, w.g) == if r.v.VBool? then Ok(false, r.g) else Failed;
    } else {
      var n2;
      n2, act, m2 := SimForBody(P, fuel, home, s, mt, b, a, w1, lb.(next := 0));
      assert EvalCond(P, fuel, s.cnd, a, w.g) == Ok(true, r.g);
      StepsAlike(P, fuel, start, n, mV, InLoop(mt, b, s, a, mt.values, w1, lb.(next := 0)), mt, b, n2, act, m2,
                 ForBody(P, fuel, s, a, home, w1));
      n := n + n2;
    }
  }

  /** Of two machines that step alike one realises what the other does. */
  lemma StepsAlike(P: Program, fuel: nat, start: State, n: nat, m: State, mB: State, mt: State, b: BodyStmt,
                   n2: nat, act: Option<Stmt>, m2: State, o: Outcome)
    requires Run(P, start, n) == Next(m) && Step(P, m) == Step(P, mB) && n2 >= 1
    requires StmtSim(P, fuel, Next(mB), mt, b, n2, act, m2, o)
    ensures StmtSim(P, fuel, Next(start), mt, b, n + n2, act, m2, o)
  {
    hide Step, Run, Returning, Unwinding, Dropping;
    SameStep(P, m, mB, n2);
    RunThen(P, start, n, m, n2);
  }

  /** OpForLoop on the value `v` of the condition. */
  lemma ForDecides(P: Program, s: Stmt, mt: State, b: BodyStmt, a: nat, w: World, lb: BodyStmt, v: Value)
    requires s.For? && RecordOf(s, lb) && (lb.next == -1 || lb.next == -2)
    ensures var m := InLoop(mt, b, s, a, mt.values, w, lb);
            var mV := m.(values := Cons(v, mt.values));
            var mB := InLoop(mt, b, s, a, mt.values, w, lb.(next := 0));
            && (s.cnd.None? ==> Step(P, m) == Step(P, mB))
            && (s.cnd.Some? && v == VBool(true) ==> Step(P, mV) == Step(P, mB))
            && (s.cnd.Some? && v == VBool(false) ==>
                  Run(P, mV, 1) == Next(WithBody(SetW(mt, w), b.(active := None))))
            && (s.cnd.Some? && !v.VBool? ==> Run(P, mV, 1) == GoPanic)
  {
    hide Step;
    var m := InLoop(mt, b, s, a, mt.values, w, lb);
    var mV := m.(values := Cons(v, mt.values));
    OnForLoop(P, m);
    OnForLoop(P, mV);
    OnForLoop(P, InLoop(mt, b, s, a, mt.values, w, lb.(next := 0)));
    LoopExits(P, mt, b, s, a, mt.values, w, lb.(next := -1));
  }

  /** Body, post and the further iterations of a for statement. */
  function ForBody(P: Program, fuel: nat, s: Stmt, a: nat, home: nat, w: World): Outcome
    requires s.For? && fuel > 0
  {
    var o := ExecBody(P, fuel, s.body, a, home, w);
    if AfterBody(s, o).Some? then ExecPost(P, fuel, s, a, home, AfterBody(s, o).value) else LeaveLoop(s, o)
  }

  lemma ForUnfolds(P: Program, fuel: nat, s: Stmt, a: nat, home: nat, w: World)
    requires s.For?
    ensures var r := EvalCond(P, fuel, s.cnd, a, w.g);
            ExecFor(P, fuel, s, a, home, w) ==
            if fuel == 0 then STimeout
            else if !r.Ok? then Abort(r, w.defers)
            else if !r.v then Normal(World(r.g, w.defers))
            else ForBody(P, fuel, s, a, home, World(r.g, w.defers))
  {
    hide EvalCond, ExecBody, ExecPost;
  }

  lemma {:induction false} SimForBody(P: Program, fuel: nat, home: nat, s: Stmt, mt: State, b: BodyStmt, a: nat, w: World, lb: BodyStmt)
    returns (n: nat, act: Option<Stmt>, m2: State)
    requires StmtPre(P, home, mt, b) && s.For? && RecordOf(s, lb) && lb.next == 0 && fuel > 0
    ensures n >= 1
    ensures StmtSim(P, fuel, Next(InLoop(mt, b, s, a, mt.values, w, lb)), mt, b, n, act, m2, ForBody(P, fuel, s, a, home, w))
    decreases fuel, 0, s, 0, 2
  {
    hide Step;
    n, act, m2 := SimLoopBody(P, fuel, home, s, mt, b, a, mt.values, w, lb);
    var o := ExecBody(P, fuel, s.body, a, home, w);
    if AfterBody(s, o).Some? {
      var w1 := AfterBody(s, o).value;
      var lb1 := lb.(next := |lb.body|, active := act);
      var n2;
      n2, act, m2 := SimForPost(P, fuel, home, s, mt, b, a, w1, lb1);
      AfterStart(P, fuel, InLoop(mt, b, s, a, mt.values, w, lb), n, InLoop(mt, b, s, a, mt.values, w1, lb1), mt, b,
                 fuel, n2, act, m2, ExecPost(P, fuel, s, a, home, w1));
      n := n + n2;
    }
  }

  lemma {:induction false} SimForPost(P: Program, fuel: nat, home: nat, s: Stmt, mt: State, b: BodyStmt, a: nat, w: World, lb: BodyStmt)
    returns (n: nat, act: Option<Stmt>, m2: State)
    requires StmtPre(P, home, mt, b) && s.For? && RecordOf(s, lb) && lb.next == |s.body| && fuel > 0
    ensures n >= 1
    ensures StmtSim(P, fuel, Next(InLoop(mt, b, s, a, mt.values, w, lb)), mt, b, n, act, m2, ExecPost(P, fuel, s, a, home, w))
    decreases fuel, 0, s, 0, 1
  {
    hide Step;
    var m := InLoop(mt, b, s, a, mt.values, w, lb);
    var lb1 := lb.(next := -1, active := None);
    var w1 := w;
    act := None;
    n := 1;
    PostStep(P, s, mt, b, a, w, lb);
    if s.post.Some? {
      n, m2 := SimPostStmt(P, fuel, home, s, mt, b, a, w, lb);
      var r := ExecSimple(P, fuel, s.post.value, a, w.g);
      assert ExecOpt(P, fuel, s.post, a, w.g) == r;
      if !r.Ok? {
        return;
      }
      w1 := World(r.g, w.defers);
    } else {
      StepThen(P, m, QueueCond(InLoop(mt, b, s, a, mt.values, w, lb1), s.cnd), 0);
    }
    var next := QueueCond(InLoop(mt, b, s, a, mt.values, w1, lb1), s.cnd);
    var n2;
    n2, act, m2 := SimForLoop(P, fuel - 1, home, s, mt, b, a, w1, lb1);
    assert ExecPost(P, fuel, s, a, home, w) == ExecFor(P, fuel - 1, s, a, home, w1);
    AfterStart(P, fuel, m, n, next, mt, b, fuel - 1, n2, act, m2, ExecFor(P, fuel - 1, s, a, home, w1));
    n := n + n2;
  }

  lemma {:induction false} SimPostStmt(P: Program, fuel: nat, home: nat, s: Stmt, mt: State, b: BodyStmt, a: nat, w: World, lb: BodyStmt)
    returns (n: nat, m2: State)
    requires StmtPre(P, home, mt, b) && s.For? && RecordOf(s, lb) && lb.next == |s.body| && s.post.Some?
    ensures n >= 1
    ensures var r := ExecSimple(P, fuel, s.post.value, a, w.g);
            var m := InLoop(mt, b, s, a, mt.values, w, lb);
            if r.Ok? then
              Run(P, m, n) == Next(QueueCond(InLoop(mt, b, s, a, mt.values, World(r.g, w.defers), lb.(next := -1, active := None)), s.cnd))
            else StmtSim(P, fuel, Next(m), mt, b, n, None, m2, Abort(r, w.defers))
    decreases fuel, 0, s, 0, 0
  {
    hide Step;
    var m := InLoop(mt, b, s, a, mt.values, w, lb);
    var lb2 := lb.(next := -1, active := Some(Basic(s.post.value)));
    var mP := QueueCond(InLoop(mt, b, s, a, mt.values, w, lb2), s.cnd);
    LoopInside(P, home, mt, b, s, a, mt.values, w, lb2);
    var mL := PushOp(LoopBase(mt, b, s, a, mt.values, w), OpForLoop);
    var mQ := mP.(stmts := mP.stmts.tail);
    ExtNear(mt, mQ);
    ExtNear(mL, mQ);
    CallExt(mL, mQ);
    var n1;
    n1, m2 := SimSimple(P, fuel, s.post.value, mP);
    var start := ExecSwitch(P, mP, Basic(s.post.value)).m;
    PostStep(P, s, mt, b, a, w, lb);
    StepThen(P, m, start, n1);
    StepThen(P, m, start, 0);
    var r := ExecSimple(P, fuel, s.post.value, a, w.g);
    n := n1 + 1;
    if !r.Ok? {
      LiftAbort(P, fuel, Next(m), 1, start, mt, b, None, mQ, n1, m2, r);
    }
  }

  /** OpForLoop at the end of the body. */
  lemma PostStep(P: Program, s: Stmt, mt: State, b: BodyStmt, a: nat, w: World, lb: BodyStmt)
    requires s.For? && RecordOf(s, lb) && lb.next == |s.body|
    ensures var m := InLoop(mt, b, s, a, mt.values, w, lb);
            Step(P, m) ==
              match s.post
              case None => Next(QueueCond(InLoop(mt, b, s, a, mt.values, w, lb.(next := -1, active := None)), s.cnd))
              case Some(x) =>
                ExecSwitch(P, QueueCond(InLoop(mt, b, s, a, mt.values, w, lb.(next := -1, active := Some(Basic(x)))), s.cnd), Basic(x))
  {
    hide Step;
    OnForLoop(P, InLoop(mt, b, s, a, mt.values, w, lb));
  }

  lemma {:induction false} SimFor(P: Program, fuel: nat, home: nat, s: Stmt, mt: State, b: BodyStmt)
    returns (n: nat, act: Option<Stmt>, m2: State)
    requires StmtPre(P, home, mt, b) && s.For?
    ensures StmtSim(P, fuel, ExecSwitch(P, WithBody(mt, b.(active := Some(s))), s), mt, b, n, act, m2,
                    Exec(P, fuel, s, mt.blocks.head, home, WorldOf(mt)))
    decreases fuel, 0, s, 2
  {
    hide Step;
    var a := |mt.g.store|;
    var w := World(NewBlock(mt.g, mt.blocks.head), DefersOf(mt.frames));
    var lb := NewLoopBody(s);
    SetDefersFacts(mt.frames, [], []);
    var mX := QueueCond(InLoop(mt, b, s, a, mt.values, w, lb), s.cnd);
    var start := QueueInit(mX, s.init);
    assert ExecSwitch(P, WithBody(mt, b.(active := Some(s))), s) == Next(start);
    LoopInside(P, home, mt, b, s, a, mt.values, w, lb);
    ExtNear(InLoop(mt, b, s, a, mt.values, w, lb), mX);
    CallExt(InLoop(mt, b, s, a, mt.values, w, lb), mX);
    ExtNear(mt, mX);
    act := None;
    n, m2 := SimOpt(P, fuel, s.init, mX);
    var r := ExecOpt(P, fuel, s.init, a, w.g);
    if !r.Ok? {
      LiftAbort(P, fuel, Next(start), 0, start, mt, b, act, mX, n, m2, r);
      return;
    }
    var w1 := World(r.g, w.defers);
    var n2;
    n2, act, m2 := SimForLoop(P, fuel, home, s, mt, b, a, w1, lb);
    AfterStart(P, fuel, start, n, QueueCond(InLoop(mt, b, s, a, mt.values, w1, lb), s.cnd), mt, b,
               fuel, n2, act, m2, ExecFor(P, fuel, s, a, home, w1));
    n := n + n2;
  }

  lemma {:induction false} SimRange(P: Program, fuel: nat, home: nat, s: Stmt, mt: State, b: BodyStmt)
    returns (n: nat, act: Option<Stmt>, m2: State)
    requires StmtPre(P, home, mt, b) && s.Range?
    ensures StmtSim(P, fuel, ExecSwitch(P, WithBody(mt, b.(active := Some(s))), s), mt, b, n, act, m2,
                    Exec(P, fuel, s, mt.blocks.head, home, WorldOf(mt)))
    decreases fuel, 0, s, 2
  {
    hide Step;
    var a := |mt.g.store|;
    var w := World(NewBlock(mt.g, mt.blocks.head), DefersOf(mt.frames));
    var lb := NewLoopBody(s);
    SetDefersFacts(mt.frames, [], []);
    var m := InLoop(mt, b, s, a, mt.values, w, lb);
    var start := PushEval(m, s.x);
    assert ExecSwitch(P, WithBody(mt, b.(active := Some(s))), s) == Next(start);
    LoopInside(P, home, mt, b, s, a, mt.values, w, lb);
    act := None;
    n, m2 := SimExpr(P, fuel, s.x, m);
    var r := Eval(P, fuel, s.x, a, false, w.g);
    if !r.Ok? {
      LiftAbort(P, fuel, Next(start), 0, start, mt, b, act, m, n, m2, r);
      return;
    }
    var vals := Cons(r.v, mt.values);
    var w1 := World(r.g, w.defers);
    var mV := InLoop(mt, b, s, a, vals, w1, lb);
    RunThen(P, start, n, mV, 1);
    OnRangeIter(P, mV);
    if !r.v.VList? || |r.v.elems| == 0 {
      if r.v.VList? {
        LoopExits(P, mt, b, s, a, vals, w1, lb);
      }
      n := n + 1;
      return;
    }
    var n2;
    n2, act, m2 := SimRangeLoop(P, fuel, home, s, mt, b, a, r.v.elems, 0, w1, lb);
    AfterStart(P, fuel, start, n, mV, mt, b, fuel, n2, act, m2, ExecRange(P, fuel, s, r.v.elems, 0, a, home, w1));
    n := n + n2;
  }

  lemma {:induction false} SimRangeLoop(P: Program, fuel: nat, home: nat, s: Stmt, mt: State, b: BodyStmt, a: nat,
                                        elems: seq<Value>, i: nat, w: World, lb: BodyStmt)
    returns (n: nat, act: Option<Stmt>, m2: State)
    requires StmtPre(P, home, mt, b) && s.Range? && RecordOf(s, lb) && i < |elems| && lb.listIndex == i
    requires (lb.next == -1 && lb.listLen == |elems|) || (lb.next == -2 && i == 0)
    ensures StmtSim(P, fuel, Next(InLoop(mt, b, s, a, Cons(VList(elems), mt.values), w, lb)), mt, b, n, act, m2,
                    ExecRange(P, fuel, s, elems, i, a, home, w))
    decreases fuel, 0, s, 1, |elems| - i
  {
    hide Step;
    var vals := Cons(VList(elems), mt.values);
    var m := InLoop(mt, b, s, a, vals, w, lb);
    act := None;
    m2 := m;
    RangeStep(P, s, mt, b, a, elems, i, w, lb);
    var st1 := WriteOpt(w.g.store, a, s.key, VInt(Int, i));
    if st1.None? {
      n := 1;
      return;
    }
    var st2 := WriteOpt(st1.value, a, s.val, elems[i]);
    if st2.None? {
      n := 1;
      return;
    }
    var w1 := World(w.g.(store := st2.value), w.defers);
    var lb1 := lb.(next := 0, listLen := |elems|);
    assert ExecRange(P, fuel, s, elems, i, a, home, w) == RangePass(P, fuel, s, elems, i, a, home, w1);
    n, act, m2 := SimRangePass(P, fuel, home, s, mt, b, a, elems, i, w1, lb1);
    SameStep(P, m, InLoop(mt, b, s, a, vals, w1, lb1), n);
  }

  /** One pass over the body and the further iterations of a range statement. */
  function RangePass(P: Program, fuel: nat, s: Stmt, elems: seq<Value>, i: nat, a: nat, home: nat, w: World): Outcome
    requires s.Range? && i < |elems|
  {
    var o := ExecBody(P, fuel, s.body, a, home, w);
    if AfterBody(s, o).Some? then ExecRange(P, fuel, s, elems, i + 1, a, home, AfterBody(s, o).value) else LeaveLoop(s, o)
  }

  lemma {:induction false} SimRangePass(P: Program, fuel: nat, home: nat, s: Stmt, mt: State, b: BodyStmt, a: nat,
                                        elems: seq<Value>, i: nat, w: World, lb: BodyStmt)
    returns (n: nat, act: Option<Stmt>, m2: State)
    requires StmtPre(P, home, mt, b) && s.Range? && RecordOf(s, lb) && i < |elems| && lb.listIndex == i
    requires lb.next == 0 && lb.listLen == |elems|
    ensures n >= 1
    ensures StmtSim(P, fuel, Next(InLoop(mt, b, s, a, Cons(VList(elems), mt.values), w, lb)), mt, b, n, act, m2,
                    RangePass(P, fuel, s, elems, i, a, home, w))
    decreases fuel, 0, s, 1, |elems| - i, 0
  {
    hide Step;
    var vals := Cons(VList(elems), mt.values);
    var m := InLoop(mt, b, s, a, vals, w, lb);
    n, act, m2 := SimLoopBody(P, fuel, home, s, mt, b, a, vals, w, lb);
    var o := ExecBody(P, fuel, s.body, a, home, w);
    if AfterBody(s, o).None? {
      return;
    }
    var w2 := AfterBody(s, o).value;
    var lb2 := lb.(next := |s.body|, active := act);
    var mE := InLoop(mt, b, s, a, vals, w2, lb2);
    RunThen(P, m, n, mE, 1);
    RangeNext(P, s, mt, b, a, elems, i, w2, lb2);
    if i + 1 == |elems| {
      act := None;
      n := n + 1;
    } else {
      var lb3 := lb2.(listIndex := i + 1, next := -1, active := None);
      var mN := InLoop(mt, b, s, a, vals, w2, lb3);
      var n2;
      n2, act, m2 := SimRangeLoop(P, fuel, home, s, mt, b, a, elems, i + 1, w2, lb3);
      AfterStart(P, fuel, m, n + 1, mN, mt, b, fuel, n2, act, m2, ExecRange(P, fuel, s, elems, i + 1, a, home, w2));
      n := n + 1 + n2;
    }
  }

  /** OpRangeIter before an iteration: the loop variables are assigned. */
  lemma RangeStep(P: Program, s: Stmt, mt: State, b: BodyStmt, a: nat, elems: seq<Value>, i: nat, w: World, lb: BodyStmt)
    requires s.Range? && RecordOf(s, lb) && i < |elems| && lb.listIndex == i
    requires (lb.next == -1 && lb.listLen == |elems|) || (lb.next == -2 && i == 0)
    ensures var vals := Cons(VList(elems), mt.values);
            var m := InLoop(mt, b, s, a, vals, w, lb);
            var st1 := WriteOpt(w.g.store, a, s.key, VInt(Int, i));
            if st1.None? then Run(P, m, 1) == GoPanic else
            var st2 := WriteOpt(st1.value, a, s.val, elems[i]);
            if st2.None? then Run(P, m, 1) == GoPanic else
            Step(P, m) == Step(P, InLoop(mt, b, s, a, vals, World(w.g.(store := st2.value), w.defers),
                                         lb.(next := 0, listLen := |elems|)))
  {
    hide Step;
    var m := InLoop(mt, b, s, a, Cons(VList(elems), mt.values), w, lb);
    OnRangeIter(P, m);
    var lb1 := lb.(next := -1, listLen := |elems|);
    var r := AssignElement(m, lb1, elems[i]);
    if r.Some? {
      var mB := r.value.(stmts := Cons(SBody(lb1.(next := 0)), m.stmts.tail));
      OnRangeIter(P, mB);
      assert Step(P, m) == RangeBody(P, r.value, lb1.(next := 0));
      assert Step(P, mB) == RangeBody(P, mB, lb1.(next := 0));
      LoopExits(P, mt, b, s, a, Cons(VList(elems), mt.values), World(mB.g, w.defers), lb);
      LoopExits(P, mt, b, s, a, Cons(VList(elems), mt.values), World(mB.g, w.defers), lb1.(next := 0));
      assert RangeBody(P, mB, lb1.(next := 0)) == RangeBody(P, r.value, lb1.(next := 0));
    }
  }

  /** OpRangeIter at the end of the body: the next element, or out of the loop. */
  lemma RangeNext(P: Program, s: Stmt, mt: State, b: BodyStmt, a: nat, elems: seq<Value>, i: nat, w: World, lb: BodyStmt)
    requires s.Range? && RecordOf(s, lb) && i < |elems| && lb.listIndex == i
    requires lb.next == |s.body| && lb.listLen == |elems|
    ensures var vals := Cons(VList(elems), mt.values);
            Run(P, InLoop(mt, b, s, a, vals, w, lb), 1) ==
            if i + 1 == |elems| then Next(WithBody(SetW(mt, w), b.(active := None)))
            else Next(InLoop(mt, b, s, a, vals, w, lb.(listIndex := i + 1, next := -1, active := None)))
  {
    hide Step;
    var m := InLoop(mt, b, s, a, Cons(VList(elems), mt.values), w, lb);
    OnRangeIter(P, m);
    if i + 1 == |elems| {
      LoopExits(P, mt, b, s, a, Cons(VList(elems), mt.values), w, lb);
      assert RangeBody(P, m, lb) == PopFrameAndReset(m);
    } else {
      assert RangeBody(P, m, lb) ==
             Next(InLoop(mt, b, s, a, Cons(VList(elems), mt.values), w, lb.(listIndex := i + 1, next := -1, active := None)));
    }
  }
}
