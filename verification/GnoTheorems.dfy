/** Whole-run statements about Machine.Eval: the machine stops exactly when the
    program has a meaning, and with that meaning. */
module GnoTheorems {
  import opened GnoValues
  import opened GnoStacks
  import opened GnoSyntax
  import opened GnoMachine
  import opened GnoSemantics
  import opened GnoSimBase
  import opened GnoSimulation

  /** A machine with nothing on the frame stack and call `e` queued above a halt. */
  function Boot(m: State, e: Expr): State {
    PushEval(PushOp(m, OpHalt), e)
  }

  ghost predicate AtRest(m: State) {
    m.blocks.Cons? && m.frames.Nil?
  }

  /** How the machine stops when the call has meaning `r`: halted with exactly
      the results on the values it started with and every other stack as it
      was, or with the interpreter's panic, or with the uncaught Gno panic. A return
      dropped with no function around it is a panic of the interpreter. */
  function Stops(m: State, r: EvalR<seq<Value>>): Res
    requires r.Ok? || r.Failed? || r.Dropped? || (r.Panicked? && r.g.exc.Some?)
  {
    match r
    case Ok(vs, g) => Halted(m.(values := PushAll(m.values, vs), g := g))
    case Panicked(g) => Uncaught(g.exc.value)
    case _ => GoPanic
  }

  /** Every meaning is realised by a run of some length; a timeout by a run that
      is still going after `fuel` dispatches. */
  lemma {:induction false} MeaningIsRun(P: Program, fuel: nat, e: Expr, m: State) returns (n: nat)
    requires AtRest(m) && e.Call?
    ensures var r := EvalCall(P, fuel, e, m.blocks.head, true, m.g);
            && (r.Panicked? ==> r.g.exc.Some?)
            && (r.Timeout? ==> n >= fuel && Run(P, Boot(m, e), n).Next?)
            && (!r.Timeout? && !r.Stuck? ==> Run(P, Boot(m, e), n) == Stops(m, r))
  {
    hide Step;
    var m1 := PushOp(m, OpHalt);
    var m2;
    n, m2 := SimCall(P, fuel, e, m1);
    var r := EvalCall(P, fuel, e, m.blocks.head, true, m.g);
    if r.Ok? {
      var mE := m1.(values := PushAll(m.values, r.v), g := r.g);
      RunThen(P, Boot(m, e), n, mE, 1);
      HaltStep(P, mE);
      n := n + 1;
    }
  }

  lemma HaltStep(P: Program, m: State)
    requires m.ops.Cons? && m.ops.head.OpHalt?
    ensures Run(P, m, 1) == Halted(m.(ops := m.ops.tail))
  {
    Once(P, m);
  }

  /** A machine that has stopped stays stopped. */
  lemma StoppedStays(P: Program, m: State, a: nat, b: nat)
    requires a <= b && !Run(P, m, a).Next?
    ensures Run(P, m, b) == Run(P, m, a)
  {
    hide Step;
    RunAdd(P, m, a, b - a);
  }

  /** If the machine stops within `n` dispatches then `n` is fuel enough, and
      unless the program is outside the language the machine stops the way
      the structured semantics says. */
  lemma {:induction false} RunIsMeaning(P: Program, e: Expr, m: State, n: nat)
    requires AtRest(m) && e.Call?
    requires !Run(P, Boot(m, e), n).Next?
    ensures var r := EvalCall(P, n, e, m.blocks.head, true, m.g);
            && !r.Timeout?
            && (r.Panicked? ==> r.g.exc.Some?)
            && (!r.Stuck? ==> Run(P, Boot(m, e), n) == Stops(m, r))
  {
    hide Step;
    var k := MeaningIsRun(P, n, e, m);
    var r := EvalCall(P, n, e, m.blocks.head, true, m.g);
    if r.Timeout? {
      StoppedStays(P, Boot(m, e), n, k);
    } else if !r.Stuck? {
      if k <= n {
        StoppedStays(P, Boot(m, e), k, n);
      } else {
        StoppedStays(P, Boot(m, e), n, k);
      }
    }
  }

  ghost predicate RunsForever(P: Program, e: Expr, m: State) {
    forall n: nat :: StillRuns(P, e, m, n)
  }

  ghost predicate StillRuns(P: Program, e: Expr, m: State, n: nat) {
    Run(P, Boot(m, e), n).Next?
  }

  /** Every fuel times out. */
  ghost predicate HasNoMeaning(P: Program, e: Expr, m: State)
    requires AtRest(m) && e.Call?
  {
    forall fuel: nat :: TimesOut(P, e, m, fuel)
  }

  ghost predicate TimesOut(P: Program, e: Expr, m: State, fuel: nat)
    requires AtRest(m) && e.Call?
  {
    EvalCall(P, fuel, e, m.blocks.head, true, m.g).Timeout?
  }

  /** The machine runs for ever exactly when every fuel times out. */
  lemma {:induction false} DivergesTogether(P: Program, e: Expr, m: State)
    requires AtRest(m) && e.Call?
    requires forall fuel: nat :: !EvalCall(P, fuel, e, m.blocks.head, true, m.g).Stuck?
    ensures RunsForever(P, e, m) <==> HasNoMeaning(P, e, m)
  {
    hide Step;
    if RunsForever(P, e, m) {
      forall fuel: nat
        ensures TimesOut(P, e, m, fuel)
      {
        var n := MeaningIsRun(P, fuel, e, m);
        assert StillRuns(P, e, m, n);
        assert !EvalCall(P, fuel, e, m.blocks.head, true, m.g).Stuck?;
      }
    }
    if HasNoMeaning(P, e, m) {
      forall n: nat
        ensures StillRuns(P, e, m, n)
      {
        assert TimesOut(P, e, m, n);
        if !StillRuns(P, e, m, n) {
          RunIsMeaning(P, e, m, n);
        }
      }
    }
  }

  /** The meaning does not depend on how much fuel beyond enough it is given. */
  lemma {:induction false} MeaningIsUnique(P: Program, e: Expr, m: State, f1: nat, f2: nat)
    requires AtRest(m) && e.Call?
    requires var r1 := EvalCall(P, f1, e, m.blocks.head, true, m.g); !r1.Timeout? && !r1.Stuck?
    requires var r2 := EvalCall(P, f2, e, m.blocks.head, true, m.g); !r2.Timeout? && !r2.Stuck?
    ensures var r1, r2 := EvalCall(P, f1, e, m.blocks.head, true, m.g), EvalCall(P, f2, e, m.blocks.head, true, m.g);
            && (r1.Panicked? ==> r1.g.exc.Some?)
            && (r2.Panicked? ==> r2.g.exc.Some?)
            && Stops(m, r1) == Stops(m, r2)
  {
    hide Step;
    var n1 := MeaningIsRun(P, f1, e, m);
    var n2 := MeaningIsRun(P, f2, e, m);
    if n1 <= n2 {
      StoppedStays(P, Boot(m, e), n1, n2);
    } else {
      StoppedStays(P, Boot(m, e), n2, n1);
    }
  }

  /** A call that returns leaves the caller's package and realm. */
  lemma {:induction false} CallRestoresRealm(P: Program, fuel: nat, fv: Value, args: seq<Value>, top: bool, g: Globals)
    ensures var r := CallFn(P, fuel, fv, args, top, g);
            r.Ok? ==> r.g.pkg == g.pkg && r.g.realm == g.realm && r.g.nres == |r.v|
  {
    CallFnLeaves(P, fuel, fv, args, top, g);
  }

  /** So does every expression that has a value. */
  lemma {:induction false} EvalRestoresRealm(P: Program, fuel: nat, e: Expr, blk: nat, top: bool, g: Globals)
    ensures var r := Eval(P, fuel, e, blk, top, g); r.Ok? ==> r.g.pkg == g.pkg && r.g.realm == g.realm
    decreases e, 1
  {
    match e {
      case Unary(_, x) => EvalRestoresRealm(P, fuel, x, blk, top, g);
      case Binary(_, l, r) => PairRestoresRealm(P, fuel, e, l, r, blk, top, g);
      case And(l, r) => PairRestoresRealm(P, fuel, e, l, r, blk, top, g);
      case Or(l, r) => PairRestoresRealm(P, fuel, e, l, r, blk, top, g);
      case Call(fn, args) =>
        EvalRestoresRealm(P, fuel, fn, blk, top, g);
        var r := Eval(P, fuel, fn, blk, top, g);
        if r.Ok? {
          ListRestoresRealm(P, fuel, args, blk, top, r.g);
          var r2 := EvalList(P, fuel, args, blk, top, r.g);
          if r2.Ok? && fuel > 0 {
            CallRestoresRealm(P, fuel - 1, r.v, r2.v, top, r2.g);
          }
        }
      case _ =>
    }
  }

  lemma {:induction false} PairRestoresRealm(P: Program, fuel: nat, e: Expr, l: Expr, r: Expr, blk: nat, top: bool, g: Globals)
    requires l < e && r < e
    ensures var r1 := Eval(P, fuel, l, blk, top, g);
            r1.Ok? ==>
              && r1.g.pkg == g.pkg && r1.g.realm == g.realm
              && var r2 := Eval(P, fuel, r, blk, top, r1.g);
                 r2.Ok? ==> r2.g.pkg == g.pkg && r2.g.realm == g.realm
    decreases e, 0
  {
    EvalRestoresRealm(P, fuel, l, blk, top, g);
    var r1 := Eval(P, fuel, l, blk, top, g);
    if r1.Ok? {
      EvalRestoresRealm(P, fuel, r, blk, top, r1.g);
    }
  }

  lemma {:induction false} ListRestoresRealm(P: Program, fuel: nat, es: seq<Expr>, blk: nat, top: bool, g: Globals)
    ensures var r := EvalList(P, fuel, es, blk, top, g); r.Ok? ==> r.g.pkg == g.pkg && r.g.realm == g.realm
    decreases es
  {
    if es != [] {
      EvalRestoresRealm(P, fuel, es[0], blk, top, g);
      var r := Eval(P, fuel, es[0], blk, top, g);
      if r.Ok? {
        ListRestoresRealm(P, fuel, es[1..], blk, top, r.g);
      }
    }
  }

  /** `l && r` and `l || r` run the same whatever `r` is, as soon as `l` decides. */
  lemma {:induction false} RightOperandSkipped(P: Program, fuel: nat, e: Expr, r2: Expr, m: State) returns (n: nat)
    requires m.blocks.Cons? && CallOK(m) && (e.And? || e.Or?)
    requires Eval(P, fuel, e.left, m.blocks.head, m.frames.Nil?, m.g).Ok?
    requires Eval(P, fuel, e.left, m.blocks.head, m.frames.Nil?, m.g).v == VBool(e.Or?)
    ensures var other := if e.And? then And(e.left, r2) else Or(e.left, r2);
            Run(P, PushEval(m, e), n) == Next(PushValue(m, VBool(e.Or?)).(g := Eval(P, fuel, e.left, m.blocks.head, m.frames.Nil?, m.g).g))
            && Eval(P, fuel, other, m.blocks.head, m.frames.Nil?, m.g) == Eval(P, fuel, e, m.blocks.head, m.frames.Nil?, m.g)
  {
    hide Step;
    var m2;
    n, m2 := SimExpr(P, fuel, e, m);
  }
}
