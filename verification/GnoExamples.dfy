/** Programs on which the machine does not do what one would expect. */
module GnoExamples {
  import opened GnoValues
  import opened GnoStacks
  import opened GnoSyntax
  import opened GnoMachine
  import opened GnoSemantics
  import opened GnoTheorems

  // ---------------------------------------------------------------- small programs

  function CallOf(fv: Value): Expr {
    Call(Const(fv), [])
  }

  lemma CallsConst(P: Program, fuel: nat, fv: Value, blk: nat, top: bool, g: Globals)
    requires fuel > 0
    ensures EvalCall(P, fuel, CallOf(fv), blk, top, g) == CallFn(P, fuel - 1, fv, [], top, g)
  {
    assert EvalList(P, fuel, [], blk, top, g) == Ok([], g);
  }

  lemma BodyOfOne(P: Program, fuel: nat, s: Stmt, blk: nat, act: nat, w: World)
    ensures ExecBody(P, fuel, [s], blk, act, w) == Exec(P, fuel, s, blk, act, w)
  {
    hide Exec;
    assert [s][1..] == [];
  }

  lemma BodyOfTwo(P: Program, fuel: nat, s: Stmt, t: Stmt, blk: nat, act: nat, w: World)
    ensures var o := Exec(P, fuel, s, blk, act, w);
            ExecBody(P, fuel, [s, t], blk, act, w) == if o.Normal? then Exec(P, fuel, t, blk, act, o.w) else o
  {
    hide Exec;
    assert [s, t][1..] == [t];
    var o := Exec(P, fuel, s, blk, act, w);
    if o.Normal? {
      BodyOfOne(P, fuel, t, blk, act, o.w);
    }
  }

  /** The globals and the pending calls after `defer fv()`. */
  function Defers(fv: Value, blk: nat, act: nat, w: World): World {
    var d := Deferred(fv, [], blk);
    World(w.g.(events := w.g.events + [Pushed(act, |w.defers|, d)]), w.defers + [d])
  }

  lemma DefersConst(P: Program, fuel: nat, fv: Value, blk: nat, act: nat, w: World)
    requires P.IsFunc(fv)
    ensures Exec(P, fuel, Defer(Const(fv), []), blk, act, w) == Normal(Defers(fv, blk, act, w))
  {
    assert EvalList(P, fuel, [], blk, false, w.g) == Ok([], w.g);
  }

  /** The world in which the one pending call, of a function without parameters, runs. */
  function Started(a: nat, w: World): World
    requires |w.defers| == 1
  {
    var d := w.defers[0];
    World(w.g.(events := w.g.events + [RanDefer(a, 0, d)], store := w.g.store + [Scope(Some(d.parent), map[])]), [])
  }

  lemma RunsTheOne(P: Program, fuel: nat, a: nat, w: World)
    requires fuel > 0 && |w.defers| == 1 && w.defers[0].args == []
    requires P.IsFunc(w.defers[0].fv) && !P.FuncOf(w.defers[0].fv).native
    ensures var o := ExecBody(P, fuel - 1, P.FuncOf(w.defers[0].fv).body, |w.g.store|, a, Started(a, w));
            RunDefers(P, fuel, a, w) == if o.Normal? then RunDefers(P, fuel - 1, a, o.w) else o
  {
    hide ExecBody;
    assert w.defers[..0] == [];
    assert SlotMap([], 0) == map[];
  }

  lemma RunsNone(P: Program, fuel: nat, a: nat, w: World)
    requires w.defers == []
    ensures RunDefers(P, fuel, a, w) == Normal(w)
  {
  }

  lemma EmptyBody(P: Program, fuel: nat, blk: nat, act: nat, w: World)
    ensures ExecBody(P, fuel, [], blk, act, w) == Normal(w)
  {
  }

  /** A call of a function without parameters: its body, then its end. */
  lemma CallUnfolds(P: Program, fuel: nat, fv: Value, top: bool, g: Globals)
    requires P.IsFunc(fv) && !P.FuncOf(fv).native && P.FuncOf(fv).numParams == 0
    ensures CallFn(P, fuel, fv, [], top, g) ==
            EndCall(P, fuel, P.FuncOf(fv), |g.store|,
                    ExecBody(P, fuel, P.FuncOf(fv).body, |g.store|, |g.store|, World(Enter(P, fv, [], g), [])), g, top)
  {
    hide ExecBody, EndCall, Enter;
  }

  lemma EndUnfolds(P: Program, fuel: nat, fn: Func, a: nat, w: World, caller: Globals, top: bool)
    ensures EndCall(P, fuel, fn, a, Panics(w), caller, top) == Unwind(P, fuel, fn, a, w, caller, top)
    ensures fn.defaults == [] ==>
              EndCall(P, fuel, fn, a, Normal(w), caller, top) == Finish(P, fuel, fn, a, None, false, w, caller, top)
  {
    hide Unwind, Finish;
  }

  /** A function left by a panic whose deferred calls came to `o`. */
  lemma UnwindUnfolds(P: Program, fuel: nat, fn: Func, a: nat, w: World, caller: Globals, top: bool, o: Outcome)
    requires RunDefers(P, fuel, a, w) == o && (o.Normal? || o.Drops?)
    ensures Unwind(P, fuel, fn, a, w, caller, top) ==
            if o.Normal? && o.w.g.exc.Some? then Panicked(o.w.g)
            else Leave(o.w.g, caller, top, ReadResults(o.w.g.store, a, fn))
  {
    hide RunDefers, Leave, ReadResults;
  }

  /** A function that ran to its end, with deferred calls and without. */
  lemma FinishUnfolds(P: Program, fuel: nat, fn: Func, a: nat, w: World, caller: Globals, top: bool)
    requires RunDefers(P, fuel, a, w).Normal?
    ensures var w1 := RunDefers(P, fuel, a, w).w;
            Finish(P, fuel, fn, a, None, false, w, caller, top) ==
            if w.defers != [] && w1.g.exc.Some? then Dropped(w1.g)
            else Leave(w1.g, caller, top, ReadResults(w1.g.store, a, fn))
  {
    if w.defers == [] {
      RunsNone(P, fuel, a, w);
    }
    hide RunDefers, Leave, ReadResults;
  }

  lemma CallStatement(P: Program, fuel: nat, fv: Value, blk: nat, act: nat, w: World)
    requires fuel > 0
    ensures var r := CallFn(P, fuel - 1, fv, [], false, w.g);
            Exec(P, fuel, Basic(ExprStmt(CallOf(fv))), blk, act, w) ==
            if r.Ok? then Normal(World(r.g.(nres := 0), w.defers)) else Abort(r, w.defers)
  {
    CallsConst(P, fuel, fv, blk, false, w.g);
    hide EvalCall, CallFn;
  }

  lemma PanicStatement(P: Program, fuel: nat, v: Value, blk: nat, act: nat, w: World)
    ensures Exec(P, fuel, Panic(Const(v)), blk, act, w) == Panics(World(w.g.(exc := Some(v)), w.defers))
  {
  }

  // ---------------------------------------------------------------- a panic that gets lost

  /** f0 defers f1 and panics; f1 calls f2, which defers f3; f3 does nothing. */
  const LOSING: Program :=
    Program([Func(0, [VInt(Int, 7)], [Defer(Const(VFunc(1, 0, 0)), []), Panic(Const(VInt(Int, 1)))], false),
             Func(0, [], [Basic(ExprStmt(CallOf(VFunc(2, 0, 0))))], false),
             Func(0, [], [Defer(Const(VFunc(3, 0, 0)), [])], false),
             Func(0, [], [], false)], map[])

  /** The call of f2 during the panic: its return takes its own frame for an unwound one. */
  lemma InnerReturnDrops(g: Globals)
    requires g.exc.Some?
    ensures var r := CallFn(LOSING, 2, VFunc(2, 0, 0), [], false, g);
            r.Dropped? && r.g.exc == g.exc && |g.store| <= |r.g.store| && r.g.store[..|g.store|] == g.store
  {
    hide CallFn, EndCall, Exec, ExecBody, Eval, EvalCall, Finish, AfterDefers, ByDeferred, Unwind, RunDefers;
    var P, fv, a := LOSING, VFunc(2, 0, 0), |g.store|;
    var g1 := Enter(P, fv, [], g);
    BodyOfOne(P, 2, Defer(Const(VFunc(3, 0, 0)), []), a, a, World(g1, []));
    DefersConst(P, 2, VFunc(3, 0, 0), a, a, World(g1, []));
    var w := Defers(VFunc(3, 0, 0), a, a, World(g1, []));
    CallUnfolds(P, 2, fv, false, g);
    EndUnfolds(P, 2, P.FuncOf(fv), a, w, g, false);
    RunsTheOne(P, 2, a, w);
    EmptyBody(P, 1, |w.g.store|, a, Started(a, w));
    RunsNone(P, 1, a, Started(a, w));
    FinishUnfolds(P, 2, P.FuncOf(fv), a, w, g, false);
  }

  /** The call of f0 returns 7 although it panicked and nobody recovered. */
  lemma PanicIsLost(g: Globals)
    ensures var r := CallFn(LOSING, 4, VFunc(0, 0, 0), [], true, g);
            r.Ok? && r.v == [VInt(Int, 7)] && r.g.exc == Some(VInt(Int, 1))
  {
    hide CallFn, EndCall, Exec, ExecBody, Eval, EvalCall, Finish, AfterDefers, ByDeferred, Unwind, RunDefers;
    var P, fv, a := LOSING, VFunc(0, 0, 0), |g.store|;
    var g1 := Enter(P, fv, [], g);
    var w0 := World(g1, []);
    BodyOfTwo(P, 4, Defer(Const(VFunc(1, 0, 0)), []), Panic(Const(VInt(Int, 1))), a, a, w0);
    DefersConst(P, 4, VFunc(1, 0, 0), a, a, w0);
    var w1 := Defers(VFunc(1, 0, 0), a, a, w0);
    PanicStatement(P, 4, VInt(Int, 1), a, a, w1);
    var w2 := World(w1.g.(exc := Some(VInt(Int, 1))), w1.defers);
    CallUnfolds(P, 4, fv, true, g);
    EndUnfolds(P, 4, P.FuncOf(fv), a, w2, g, true);
    var g4 := DeferredDrops(w2, a);
    UnwindUnfolds(P, 4, P.FuncOf(fv), a, w2, g, true, Drops(World(g4, [])));
    assert SlotMap([VInt(Int, 7)], 0) == map[0 := VInt(Int, 7)] by {
      assert [VInt(Int, 7)][..0] == [];
      assert SlotMap([], 0) == map[];
    }
    assert g4.store[a] == g1.store[a];
    assert g1.store[a].vals[0] == VInt(Int, 7);
    assert P.FuncOf(fv).defaults == [VInt(Int, 7)] && P.FuncOf(fv).numParams == 0;
    assert ReadSlot(g4.store, a, 0) == VInt(Int, 7);
    assert ReadResults(g4.store, a, P.FuncOf(fv)) == [VInt(Int, 7)];
  }

  /** The deferred call of f1 ends in a dropped return. */
  lemma DeferredDrops(w: World, a: nat) returns (g: Globals)
    requires w.defers == [Deferred(VFunc(1, 0, 0), [], a)] && a < |w.g.store| && w.g.exc.Some?
    ensures RunDefers(LOSING, 4, a, w) == Drops(World(g, []))
    ensures g.exc == w.g.exc && |g.store| > a && g.store[a] == w.g.store[a]
  {
    hide CallFn, EndCall, Exec, ExecBody, Eval, EvalCall, Finish, AfterDefers, ByDeferred, Unwind, RunDefers;
    var P, w3 := LOSING, Started(a, w);
    RunsTheOne(P, 4, a, w);
    BodyOfOne(P, 3, Basic(ExprStmt(CallOf(VFunc(2, 0, 0)))), |w.g.store|, a, w3);
    CallStatement(P, 3, VFunc(2, 0, 0), |w.g.store|, a, w3);
    InnerReturnDrops(w3.g);
    g := CallFn(P, 2, VFunc(2, 0, 0), [], false, w3.g).g;
    assert g.store[a] == w3.g.store[a];
  }

  /** Call/return balance fails during a panic: the machine halts with f0's result on
      the values and the exception still pending. */
  lemma {:induction false} LostPanicRuns(m: State) returns (n: nat)
    requires AtRest(m)
    ensures var r := Run(LOSING, Boot(m, CallOf(VFunc(0, 0, 0))), n);
            r.Halted? && r.m.values == Cons(VInt(Int, 7), m.values) && r.m.g.exc == Some(VInt(Int, 1))
            && r.m == m.(values := r.m.values, g := r.m.g)
  {
    hide Run, Step, CallFn, EvalCall;
    n := MeaningIsRun(LOSING, 5, CallOf(VFunc(0, 0, 0)), m);
    CallsConst(LOSING, 5, VFunc(0, 0, 0), m.blocks.head, true, m.g);
    PanicIsLost(m.g);
    PushOne(m.values, VInt(Int, 7));
  }

  lemma PushOne(vs: List<Value>, v: Value)
    ensures PushAll(vs, [v]) == Cons(v, vs)
  {
    assert [v][1..] == [];
  }

  // ---------------------------------------------------------------- the wrong package

  /** f0, of package 0, defers f2 and calls f1 of package 1, which panics; f2 recovers
      and puts a function literal in the package variable; f3 is `recover`. */
  const STRAYING: Program :=
    Program([Func(0, [], [Defer(Const(VFunc(2, 0, 0)), []), Basic(ExprStmt(CallOf(VFunc(1, 0, 1))))], false),
             Func(0, [], [Panic(Const(VInt(Int, 1)))], false),
             Func(0, [], [Basic(ExprStmt(CallOf(VFunc(3, 0, 0)))), Basic(Assign(Slot(3, 0), FuncLit(1)))], false),
             Func(0, [VUndef], [], true)], map[1 := 5])

  lemma CalleePanics(g: Globals)
    ensures var r := CallFn(STRAYING, 3, VFunc(1, 0, 1), [], false, g);
            && r.Panicked? && r.g.exc == Some(VInt(Int, 1)) && r.g.pkg == 1 && r.g.realm == Some(5)
            && r.g.store == g.store + [Scope(Some(0), map[])]
  {
    hide CallFn, EndCall, Exec, ExecBody, Eval, EvalCall, Finish, AfterDefers, ByDeferred, Unwind, RunDefers;
    var P, fv, a := STRAYING, VFunc(1, 0, 1), |g.store|;
    var g1 := Enter(P, fv, [], g);
    assert SlotMap([], 0) == map[];
    BodyOfOne(P, 3, Panic(Const(VInt(Int, 1))), a, a, World(g1, []));
    PanicStatement(P, 3, VInt(Int, 1), a, a, World(g1, []));
    var w := World(g1.(exc := Some(VInt(Int, 1))), []);
    CallUnfolds(P, 3, fv, false, g);
    EndUnfolds(P, 3, P.FuncOf(fv), a, w, g, false);
    RunsNone(P, 3, a, w);
    UnwindUnfolds(P, 3, P.FuncOf(fv), a, w, g, false, Normal(w));
  }

  lemma Recovers(g: Globals)
    ensures var r := CallFn(STRAYING, 2, VFunc(3, 0, 0), [], false, g);
            r.Ok? && r.g.exc == None && r.g.pkg == g.pkg && r.g.store == g.store + [Scope(Some(0), map[0 := VUndef])]
  {
    assert SlotMap([], 0) == map[];
    assert SlotMap([VUndef], 0) == map[0 := VUndef] by { assert [VUndef][..0] == []; }
    assert map[] + map[0 := VUndef] == map[0 := VUndef];
  }

  /** The deferred body, run in the package the panic was raised in. */
  lemma DeferredStrays(w: World, a: nat)
    requires w.defers == [Deferred(VFunc(2, 0, 0), [], a)] && 0 < a < |w.g.store| && w.g.store[a].parent == Some(0)
    ensures var o := RunDefers(STRAYING, 4, a, w);
            && o.Normal? && o.w.defers == [] && o.w.g.exc == None && |o.w.g.store| > |w.g.store|
            && 0 in o.w.g.store[0].vals && o.w.g.store[0].vals[0] == VFunc(1, |w.g.store|, w.g.pkg)
            && o.w.g.store[a] == w.g.store[a]
  {
    hide CallFn, EndCall, ExecBody, EvalCall, RunDefers;
    var P, b := STRAYING, |w.g.store|;
    RunsTheOne(P, 4, a, w);
    var w1 := Started(a, w);
    var s1, s2 := Basic(ExprStmt(CallOf(VFunc(3, 0, 0)))), Basic(Assign(Slot(3, 0), FuncLit(1)));
    BodyOfTwo(P, 3, s1, s2, b, a, w1);
    CallStatement(P, 3, VFunc(3, 0, 0), b, a, w1);
    Recovers(w1.g);
    var g2 := CallFn(P, 2, VFunc(3, 0, 0), [], false, w1.g).g.(nres := 0);
    assert g2.store[b].parent == Some(a) && g2.store[a].parent == Some(0);
    assert Resolve(g2.store, a, 2) == Some(0) by { assert Resolve(g2.store, 0, 1) == Some(0); }
    assert Resolve(g2.store, b, 3) == Some(0);
    var g3 := g2.(store := WriteSlot(g2.store, 0, 0, VFunc(1, b, w.g.pkg)));
    Assigns(P, 3, Slot(3, 0), FuncLit(1), b, a, World(g2, []));
    RunsNone(P, 3, a, World(g3, []));
  }

  /** The function literal of package 0 belongs to package 1. */
  lemma LiteralStrays(g: Globals)
    requires |g.store| > 0 && g.pkg == 0
    ensures var r := CallFn(STRAYING, 4, VFunc(0, 0, 0), [], true, g);
            && r.Ok? && r.v == [] && |r.g.store| > 0
            && 0 in r.g.store[0].vals && r.g.store[0].vals[0].VFunc? && r.g.store[0].vals[0].pkg == 1
  {
    hide CallFn, EndCall, Exec, ExecBody, Eval, EvalCall, Finish, AfterDefers, ByDeferred, Unwind, RunDefers;
    var P, fv, a := STRAYING, VFunc(0, 0, 0), |g.store|;
    var w0 := World(Enter(P, fv, [], g), []);
    var s1, s2 := Defer(Const(VFunc(2, 0, 0)), []), Basic(ExprStmt(CallOf(VFunc(1, 0, 1))));
    BodyOfTwo(P, 4, s1, s2, a, a, w0);
    DefersConst(P, 4, VFunc(2, 0, 0), a, a, w0);
    var w1 := Defers(VFunc(2, 0, 0), a, a, w0);
    CallStatement(P, 4, VFunc(1, 0, 1), a, a, w1);
    CalleePanics(w1.g);
    var w2 := World(CallFn(P, 3, VFunc(1, 0, 1), [], false, w1.g).g, w1.defers);
    CallUnfolds(P, 4, fv, true, g);
    EndUnfolds(P, 4, P.FuncOf(fv), a, w2, g, true);
    DeferredStrays(w2, a);
    UnwindUnfolds(P, 4, P.FuncOf(fv), a, w2, g, true, RunDefers(P, 4, a, w2));
  }

  /** A panic leaves the recovering function in the callee's package and realm: the
      machine halts with a literal of f2 in the package variable that carries package 1. */
  lemma {:induction false} StrayLiteralRuns(m: State) returns (n: nat)
    requires AtRest(m) && |m.g.store| > 0 && m.g.pkg == 0
    ensures var r := Run(STRAYING, Boot(m, CallOf(VFunc(0, 0, 0))), n);
            && r.Halted? && r.m.values == m.values && |r.m.g.store| > 0
            && 0 in r.m.g.store[0].vals && r.m.g.store[0].vals[0].VFunc? && r.m.g.store[0].vals[0].pkg == 1
  {
    hide Run, Step, CallFn, EvalCall;
    n := MeaningIsRun(STRAYING, 5, CallOf(VFunc(0, 0, 0)), m);
    CallsConst(STRAYING, 5, VFunc(0, 0, 0), m.blocks.head, true, m.g);
    LiteralStrays(m.g);
  }

  // ---------------------------------------------------------------- the wrong variables

  /** f0 sets its variable to 9 and defers f1, or, as f2, calls it; f1 copies the package
      variable 0 to the package variable 1. */
  const MISREADING: Program :=
    Program([Func(0, [], [Basic(Assign(Slot(1, 0), Const(VInt(Int, 9)))), Defer(Const(VFunc(1, 0, 0)), [])], false),
             Func(0, [], [Basic(Assign(Slot(2, 1), Name(Slot(2, 0))))], false),
             Func(0, [], [Basic(Assign(Slot(1, 0), Const(VInt(Int, 9)))), Basic(ExprStmt(CallOf(VFunc(1, 0, 0))))], false)], map[])

  /** The body of f1, run in a block nested in block `p`. */
  lemma CopyIn(fuel: nat, b: nat, act: nat, w: World, p: nat)
    requires b < |w.g.store| && w.g.store[b].parent == Some(p) && p < |w.g.store| && 0 in w.g.store[p].vals
    ensures ExecBody(MISREADING, fuel, MISREADING.funcs[1].body, b, act, w) ==
            Normal(World(w.g.(store := WriteSlot(w.g.store, p, 1, w.g.store[p].vals[0])), w.defers))
  {
    var s := Basic(Assign(Slot(2, 1), Name(Slot(2, 0))));
    assert MISREADING.funcs[1].body == [s];
    BodyOfOne(MISREADING, fuel, s, b, act, w);
    assert Resolve(w.g.store, p, 1) == Some(p);
    assert Resolve(w.g.store, b, 2) == Some(p);
    Assigns(MISREADING, fuel, Slot(2, 1), Name(Slot(2, 0)), b, act, w);
  }

  lemma SetsLocal(fuel: nat, a: nat, w: World)
    requires a < |w.g.store|
    ensures Exec(MISREADING, fuel, Basic(Assign(Slot(1, 0), Const(VInt(Int, 9)))), a, a, w) ==
            Normal(World(w.g.(store := WriteSlot(w.g.store, a, 0, VInt(Int, 9))), w.defers))
  {
    assert Resolve(w.g.store, a, 1) == Some(a);
    Assigns(MISREADING, fuel, Slot(1, 0), Const(VInt(Int, 9)), a, a, w);
  }

  lemma Assigns(P: Program, fuel: nat, p: Path, e: Expr, blk: nat, act: nat, w: World)
    requires Eval(P, fuel, e, blk, false, w.g).Ok? && Eval(P, fuel, e, blk, false, w.g).g == w.g
    requires Write(w.g.store, blk, p, Eval(P, fuel, e, blk, false, w.g).v).Some?
    ensures Exec(P, fuel, Basic(Assign(p, e)), blk, act, w) ==
            Normal(World(w.g.(store := Write(w.g.store, blk, p, Eval(P, fuel, e, blk, false, w.g).v).value), w.defers))
  {
    hide Eval, Write;
  }

  /** Deferred, f1 copies a variable of f0 and leaves the package variable alone. */
  lemma DeferredMisreads(g: Globals)
    requires |g.store| > 0 && g.exc.None?
    ensures var r := CallFn(MISREADING, 3, VFunc(0, 0, 0), [], true, g);
            && r.Ok? && r.v == [] && |r.g.store| > |g.store| && r.g.store[0] == g.store[0]
            && r.g.store[|g.store|].vals == map[0 := VInt(Int, 9), 1 := VInt(Int, 9)]
  {
    hide CallFn, EndCall, Exec, ExecBody, Eval, EvalCall, Finish, AfterDefers, ByDeferred, Unwind, RunDefers;
    var P, fv, a := MISREADING, VFunc(0, 0, 0), |g.store|;
    var w0 := World(Enter(P, fv, [], g), []);
    assert SlotMap([], 0) == map[];
    var s1, s2 := Basic(Assign(Slot(1, 0), Const(VInt(Int, 9)))), Defer(Const(VFunc(1, 0, 0)), []);
    BodyOfTwo(P, 3, s1, s2, a, a, w0);
    SetsLocal(3, a, w0);
    var w1 := World(w0.g.(store := WriteSlot(w0.g.store, a, 0, VInt(Int, 9))), []);
    DefersConst(P, 3, VFunc(1, 0, 0), a, a, w1);
    var w2 := Defers(VFunc(1, 0, 0), a, a, w1);
    CallUnfolds(P, 3, fv, true, g);
    EndUnfolds(P, 3, P.FuncOf(fv), a, w2, g, true);
    RunsTheOne(P, 3, a, w2);
    var w3 := Started(a, w2);
    CopyIn(2, |w2.g.store|, a, w3, a);
    RunsNone(P, 2, a, World(w3.g.(store := WriteSlot(w3.g.store, a, 1, VInt(Int, 9))), []));
    FinishUnfolds(P, 3, P.FuncOf(fv), a, w2, g, true);
  }

  /** Called, it copies the package variable. */
  lemma CalledReads(g: Globals, v: Value)
    requires |g.store| > 0 && 0 in g.store[0].vals && g.store[0].vals[0] == v
    ensures var r := CallFn(MISREADING, 3, VFunc(2, 0, 0), [], true, g);
            && r.Ok? && r.v == [] && |r.g.store| > |g.store|
            && r.g.store[0] == g.store[0].(vals := g.store[0].vals[1 := v])
            && r.g.store[|g.store|].vals == map[0 := VInt(Int, 9)]
  {
    hide CallFn, EndCall, Exec, ExecBody, Eval, EvalCall, Finish, AfterDefers, ByDeferred, Unwind, RunDefers;
    var P, fv, a := MISREADING, VFunc(2, 0, 0), |g.store|;
    var w0 := World(Enter(P, fv, [], g), []);
    assert SlotMap([], 0) == map[];
    var s1, s2 := Basic(Assign(Slot(1, 0), Const(VInt(Int, 9)))), Basic(ExprStmt(CallOf(VFunc(1, 0, 0))));
    BodyOfTwo(P, 3, s1, s2, a, a, w0);
    SetsLocal(3, a, w0);
    var w1 := World(w0.g.(store := WriteSlot(w0.g.store, a, 0, VInt(Int, 9))), []);
    CallStatement(P, 3, VFunc(1, 0, 0), a, a, w1);
    PlainCall(w1.g, v);
    var w2 := World(CallFn(P, 2, VFunc(1, 0, 0), [], false, w1.g).g.(nres := 0), []);
    CallUnfolds(P, 3, fv, true, g);
    EndUnfolds(P, 3, P.FuncOf(fv), a, w2, g, true);
    RunsNone(P, 3, a, w2);
    FinishUnfolds(P, 3, P.FuncOf(fv), a, w2, g, true);
  }

  lemma PlainCall(g: Globals, v: Value)
    requires |g.store| > 0 && 0 in g.store[0].vals && g.store[0].vals[0] == v
    ensures var r := CallFn(MISREADING, 2, VFunc(1, 0, 0), [], false, g);
            && r.Ok? && |r.g.store| == |g.store| + 1 && r.g.store[..|g.store|] == WriteSlot(g.store, 0, 1, v)
  {
    hide CallFn, EndCall, Exec, ExecBody, Eval, EvalCall, Finish, AfterDefers, ByDeferred, Unwind, RunDefers;
    var P, fv, a := MISREADING, VFunc(1, 0, 0), |g.store|;
    var w := World(Enter(P, fv, [], g), []);
    CopyIn(2, a, a, w, 0);
    var w1 := World(w.g.(store := WriteSlot(w.g.store, 0, 1, v)), []);
    CallUnfolds(P, 2, fv, false, g);
    EndUnfolds(P, 2, P.FuncOf(fv), a, w1, g, false);
    RunsNone(P, 2, a, w1);
    FinishUnfolds(P, 2, P.FuncOf(fv), a, w1, g, false);
  }

  /** A deferred function reads and writes the variables of the function that defers it
      where a called one reads and writes its package's. */
  lemma {:induction false} MisreadingRuns(m: State, v: Value) returns (n: nat, k: nat)
    requires AtRest(m) && m.g.exc.None? && |m.g.store| > 0 && m.g.store[0].vals == map[0 := v]
    ensures var r := Run(MISREADING, Boot(m, CallOf(VFunc(0, 0, 0))), n);
            && r.Halted? && |r.m.g.store| > |m.g.store| && r.m.g.store[0].vals == map[0 := v]
            && r.m.g.store[|m.g.store|].vals == map[0 := VInt(Int, 9), 1 := VInt(Int, 9)]
    ensures var r := Run(MISREADING, Boot(m, CallOf(VFunc(2, 0, 0))), k);
            && r.Halted? && |r.m.g.store| > |m.g.store| && r.m.g.store[0].vals == map[0 := v, 1 := v]
            && r.m.g.store[|m.g.store|].vals == map[0 := VInt(Int, 9)]
  {
    hide Run, Step, CallFn, EvalCall;
    n := MeaningIsRun(MISREADING, 4, CallOf(VFunc(0, 0, 0)), m);
    CallsConst(MISREADING, 4, VFunc(0, 0, 0), m.blocks.head, true, m.g);
    DeferredMisreads(m.g);
    k := MeaningIsRun(MISREADING, 4, CallOf(VFunc(2, 0, 0)), m);
    CallsConst(MISREADING, 4, VFunc(2, 0, 0), m.blocks.head, true, m.g);
    CalledReads(m.g, v);
  }
}
