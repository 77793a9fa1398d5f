/** In which package and realm deferred calls run while a panic unwinds. */
module GnoPanicRealms {
  import opened GnoValues
  import opened GnoStacks
  import opened GnoSyntax
  import opened GnoMachine
  import opened GnoSemantics
  import opened GnoSimBase
  import opened GnoSimulation
  import opened GnoTheorems
  import opened GnoRealms
  import opened GnoUnwind

  // ---------------------------------------------------------------- statements

  predicate SameRealm(g: Globals, g2: Globals) {
    g2.pkg == g.pkg && g2.realm == g.realm
  }

  /** A statement that neither panics nor drops a return leaves package and realm. */
  predicate Stays(g: Globals, o: Outcome) {
    o.Normal? || o.Breaks? || o.Continues? || o.Returns? ==> SameRealm(g, o.w.g)
  }

  lemma SimpleStays(P: Program, fuel: nat, s: Simple, blk: nat, g: Globals)
    ensures var r := ExecSimple(P, fuel, s, blk, g); r.Ok? ==> SameRealm(g, r.g)
  {
    match s {
      case Assign(_, rhs) => EvalRestoresRealm(P, fuel, rhs, blk, false, g);
      case ExprStmt(x) =>
        EvalRestoresRealm(P, fuel, x, blk, false, g);
        if x.Call? {
          CallStays(P, fuel, x, blk, g);
        }
    }
  }

  lemma CallStays(P: Program, fuel: nat, e: Expr, blk: nat, g: Globals)
    requires e.Call?
    ensures var r := EvalCall(P, fuel, e, blk, false, g); r.Ok? ==> SameRealm(g, r.g)
  {
    EvalRestoresRealm(P, fuel, e.fn, blk, false, g);
    var r := Eval(P, fuel, e.fn, blk, false, g);
    if r.Ok? {
      ListRestoresRealm(P, fuel, e.args, blk, false, r.g);
      var r2 := EvalList(P, fuel, e.args, blk, false, r.g);
      if r2.Ok? && fuel > 0 {
        CallRestoresRealm(P, fuel - 1, r.v, r2.v, false, r2.g);
      }
    }
  }

  lemma OptStays(P: Program, fuel: nat, s: Option<Simple>, blk: nat, g: Globals)
    ensures var r := ExecOpt(P, fuel, s, blk, g); r.Ok? ==> SameRealm(g, r.g)
  {
    if s.Some? {
      SimpleStays(P, fuel, s.value, blk, g);
    }
  }

  lemma CondStays(P: Program, fuel: nat, e: Option<Expr>, blk: nat, g: Globals)
    ensures var r := EvalCond(P, fuel, e, blk, g); r.Ok? ==> SameRealm(g, r.g)
  {
    if e.Some? {
      EvalRestoresRealm(P, fuel, e.value, blk, false, g);
    }
  }

  lemma {:induction false} BodyStays(P: Program, fuel: nat, ss: seq<Stmt>, blk: nat, act: nat, w: World)
    ensures Stays(w.g, ExecBody(P, fuel, ss, blk, act, w))
    decreases fuel, ss, 0
  {
    hide Exec;
    if ss != [] {
      StmtStays(P, fuel, ss[0], blk, act, w);
      var o := Exec(P, fuel, ss[0], blk, act, w);
      if o.Normal? {
        BodyStays(P, fuel, ss[1..], blk, act, o.w);
      }
    }
  }

  lemma {:induction false} StmtStays(P: Program, fuel: nat, s: Stmt, blk: nat, act: nat, w: World)
    ensures Stays(w.g, Exec(P, fuel, s, blk, act, w))
    decreases fuel, s, 2
  {
    hide ExecSimple, ExecOpt, Eval, EvalList, ExecBody, ExecFor, ExecRange, ExecCond;
    var a, g1 := |w.g.store|, NewBlock(w.g, blk);
    match s {
      case Basic(x) => SimpleStays(P, fuel, x, blk, w.g);
      case Block(body) => BodyStays(P, fuel, body, a, act, World(g1, w.defers));
      case If(init, _, _, _) =>
        OptStays(P, fuel, init, a, g1);
        var r := ExecOpt(P, fuel, init, a, g1);
        if r.Ok? {
          BranchStays(P, fuel, s, a, act, World(r.g, w.defers));
        }
      case For(_, init, _, _, _) =>
        OptStays(P, fuel, init, a, g1);
        var r := ExecOpt(P, fuel, init, a, g1);
        if r.Ok? {
          ForStays(P, fuel, s, a, act, World(r.g, w.defers));
        }
      case Range(_, _, _, x, _) =>
        EvalRestoresRealm(P, fuel, x, a, false, g1);
        var r := Eval(P, fuel, x, a, false, g1);
        if r.Ok? && r.v.VList? {
          RangeStays(P, fuel, s, r.v.elems, 0, a, act, World(r.g, w.defers));
        }
      case Return(es) => ListRestoresRealm(P, fuel, es, blk, false, w.g);
      case Panic(ex) => EvalRestoresRealm(P, fuel, ex, blk, false, w.g);
      case Defer(fn, args) =>
        EvalRestoresRealm(P, fuel, fn, blk, false, w.g);
        var r := Eval(P, fuel, fn, blk, false, w.g);
        if r.Ok? {
          ListRestoresRealm(P, fuel, args, blk, false, r.g);
        }
      case _ =>
    }
  }

  lemma {:induction false} BranchStays(P: Program, fuel: nat, s: Stmt, a: nat, act: nat, w: World)
    requires s.If?
    ensures Stays(w.g, ExecCond(P, fuel, s, a, act, w))
    decreases fuel, s, 1
  {
    hide ExecBody;
    EvalRestoresRealm(P, fuel, s.cond, a, false, w.g);
    var r := EvalBool(P, fuel, s.cond, a, w.g);
    if r.Ok? {
      BodyStays(P, fuel, if r.v then s.thn else s.els, a, act, World(r.g, w.defers));
    }
  }

  lemma {:induction false} ForStays(P: Program, fuel: nat, s: Stmt, a: nat, act: nat, w: World)
    requires s.For?
    ensures Stays(w.g, ExecFor(P, fuel, s, a, act, w))
    decreases fuel, s, 1
  {
    hide ExecBody, EvalCond, ExecPost;
    if fuel > 0 {
      CondStays(P, fuel, s.cnd, a, w.g);
      var r := EvalCond(P, fuel, s.cnd, a, w.g);
      if r.Ok? && r.v {
        BodyStays(P, fuel, s.body, a, act, World(r.g, w.defers));
        var o := ExecBody(P, fuel, s.body, a, act, World(r.g, w.defers));
        if o.Normal? || o.Continues? {
          PostStays(P, fuel, s, a, act, o.w);
        }
      }
    }
  }

  lemma {:induction false} PostStays(P: Program, fuel: nat, s: Stmt, a: nat, act: nat, w: World)
    requires s.For? && fuel > 0
    ensures Stays(w.g, ExecPost(P, fuel, s, a, act, w))
    decreases fuel, s, 0
  {
    hide ExecFor, ExecOpt;
    OptStays(P, fuel, s.post, a, w.g);
    var r := ExecOpt(P, fuel, s.post, a, w.g);
    if r.Ok? {
      ForStays(P, fuel - 1, s, a, act, World(r.g, w.defers));
    }
  }

  lemma {:induction false} RangeStays(P: Program, fuel: nat, s: Stmt, elems: seq<Value>, i: nat, a: nat, act: nat, w: World)
    requires s.Range? && i <= |elems|
    ensures Stays(w.g, ExecRange(P, fuel, s, elems, i, a, act, w))
    decreases fuel, s, 1, |elems| - i
  {
    hide ExecBody, WriteOpt;
    if i < |elems| {
      var st1 := WriteOpt(w.g.store, a, s.key, VInt(Int, i));
      if st1.Some? {
        var st2 := WriteOpt(st1.value, a, s.val, elems[i]);
        if st2.Some? {
          var w1 := World(w.g.(store := st2.value), w.defers);
          BodyStays(P, fuel, s.body, a, act, w1);
          var o := ExecBody(P, fuel, s.body, a, act, w1);
          if o.Normal? || o.Continues? {
            RangeStays(P, fuel, s, elems, i + 1, a, act, o.w);
          }
        }
      }
    }
  }

  /** The deferred calls of a function run in the package and realm they begin in. */
  lemma {:induction false} DefersStay(P: Program, fuel: nat, a: nat, w: World)
    ensures Stays(w.g, RunDefers(P, fuel, a, w))
    decreases fuel
  {
    hide ExecBody;
    if w.defers != [] && fuel > 0 {
      var n := |w.defers| - 1;
      var d := w.defers[n];
      if P.IsFunc(d.fv) && !P.FuncOf(d.fv).native {
        var g1 := w.g.(events := w.g.events + [RanDefer(a, n, d)],
                       store := w.g.store + [Scope(Some(d.parent), SlotMap(d.args, 0))]);
        BodyStays(P, fuel - 1, P.FuncOf(d.fv).body, |w.g.store|, a, World(g1, w.defers[..n]));
        var o := ExecBody(P, fuel - 1, P.FuncOf(d.fv).body, |w.g.store|, a, World(g1, w.defers[..n]));
        if o.Normal? {
          DefersStay(P, fuel - 1, a, o.w);
        }
      }
    }
  }

  // ---------------------------------------------------------------- unwinding

  /** A call the panic comes to, with the globals its deferred calls start with. */
  datatype Visit = Visit(frames: List<Frame>, g: Globals)

  /** The calls a panic comes to, from the one it was raised in down. */
  function Visits(P: Program, fuel: nat, frames: List<Frame>, m: State, g: Globals): seq<Visit>
    decreases frames
  {
    match frames
    case Nil => []
    case Cons(fr, rest) =>
      if fr.kind.LoopFrame? then Visits(P, fuel, rest, m, g)
      else if !P.IsFunc(fr.kind.fv) || BlockAt(m.blocks, fr.numBlocks).None? then []
      else
        var o := RunDefers(P, fuel, BlockAt(m.blocks, fr.numBlocks).value, World(g, fr.kind.defers));
        [Visit(frames, g)] + if o.Normal? && o.w.g.exc.Some? then Visits(P, fuel, rest, CutTo(m, fr, rest), o.w.g) else []
  }

  lemma {:induction false} VisitsStay(P: Program, fuel: nat, frames: List<Frame>, m: State, g: Globals, i: nat)
    requires i < |Visits(P, fuel, frames, m, g)|
    ensures SameRealm(g, Visits(P, fuel, frames, m, g)[i].g)
    decreases frames
  {
    hide CutTo, RunDefers;
    var fr, rest := frames.head, frames.tail;
    if fr.kind.LoopFrame? {
      VisitsStay(P, fuel, rest, m, g, i);
    } else if i > 0 {
      var a := BlockAt(m.blocks, fr.numBlocks).value;
      DefersStay(P, fuel, a, World(g, fr.kind.defers));
      var o := RunDefers(P, fuel, a, World(g, fr.kind.defers));
      VisitsStay(P, fuel, rest, CutTo(m, fr, rest), o.w.g, i - 1);
    }
  }

  lemma {:induction false} VisitsPastLoops(P: Program, fuel: nat, frames: List<Frame>, m: State, g: Globals)
    ensures Visits(P, fuel, frames, m, g) == Visits(P, fuel, CallTail(frames), m, g)
    decreases frames
  {
    if frames.Cons? && frames.head.kind.LoopFrame? {
      VisitsPastLoops(P, fuel, frames.tail, m, g);
    }
  }

  lemma VisitsSame(P: Program, fuel: nat, c: State, x: State, g: Globals)
    requires Nested(P, c.frames, c) && CallTail(c.frames).Cons?
    requires CallTail(c.frames).head.kind.CallFrame? && Below(c, x, CallTail(c.frames).head)
    ensures Visits(P, fuel, CallTail(c.frames), x, g) == Visits(P, fuel, c.frames, c, g)
  {
    hide CutTo, RunDefers;
    VisitsPastLoops(P, fuel, c.frames, c, g);
    SameCut(c, x, CallTail(c.frames).head, CallTail(c.frames).tail);
  }

  /** The machine comes to each of these calls. */
  lemma {:induction false} VisitReached(P: Program, fuel: nat, d: State, i: nat) returns (n: nat)
    requires Raised(d) && Nested(P, d.frames, d.(ops := d.ops.tail.tail))
    requires i < |Visits(P, fuel, d.frames, d.(ops := d.ops.tail.tail), d.g)|
    ensures var v := Visits(P, fuel, d.frames, d.(ops := d.ops.tail.tail), d.g)[i];
            var r := Run(P, d, n);
            r.Next? && Raised(r.m) && r.m.frames == v.frames && r.m.g == v.g
    decreases Len(d.frames)
  {
    hide Step, Run, RunDefers, CutTo;
    var fr, rest, d3 := d.frames.head, d.frames.tail, d.(ops := d.ops.tail.tail);
    if i == 0 {
      n := 0;
      RunNone(P, d);
    } else {
      var c := CutTo(d3, fr, rest);
      CutFrames(d3, fr, rest);
      var a, k, m2 := UnwindsOne(P, fuel, d);
      var o := RunDefers(P, fuel, a, World(d.g, fr.kind.defers));
      VisitsPastLoops(P, fuel, rest, c, o.w.g);
      NestedCall(P, d.frames, d3);
      NestedCall(P, rest, c);
      RaisedIn(P, fuel, c, o.w.g, m2);
      VisitsBelow(P, fuel, c, m2, o.w.g);
      CallTailShorter(rest);
      n := VisitReached(P, fuel, m2, i - 1);
      RunThen(P, d, k, m2, n);
      n := k + n;
    }
  }

  lemma VisitsBelow(P: Program, fuel: nat, c: State, m2: State, g: Globals)
    requires Unwinding(c, m2, World(g, DefersOf(c.frames))) && Nested(P, c.frames, c)
    ensures Visits(P, fuel, CallTail(c.frames), m2.(ops := m2.ops.tail.tail), g) == Visits(P, fuel, c.frames, c, g)
  {
    hide CutTo, RunDefers;
    NestedCall(P, c.frames, c);
    VisitsSame(P, fuel, c, m2.(ops := m2.ops.tail.tail), g);
  }

  /** While a panic unwinds, the deferred calls of every call it comes to run in the
      package and realm it was raised in. So package and realm are those in which that
      call was running if and only if no call between had entered another. */
  lemma {:induction false} UnwindKeepsBracketIff(P: Program, fuel: nat, d: State, i: nat, pkg0: nat, realm0: Option<nat>) returns (n: nat)
    requires Raised(d) && Nested(P, d.frames, d.(ops := d.ops.tail.tail)) && Bracketed(P, d, pkg0, realm0)
    requires i < |Visits(P, fuel, d.frames, d.(ops := d.ops.tail.tail), d.g)|
    ensures var v := Visits(P, fuel, d.frames, d.(ops := d.ops.tail.tail), d.g)[i];
            var r := Run(P, d, n);
            && r.Next? && Raised(r.m) && r.m.frames == v.frames && r.m.g == v.g
            && v.g.pkg == d.g.pkg && v.g.realm == d.g.realm
            && (Bracketed(P, r.m, pkg0, realm0) <==>
                  && ActivePkg(Calls(v.frames), pkg0) == ActivePkg(Calls(d.frames), pkg0)
                  && ActiveRealm(P, Calls(v.frames), realm0) == ActiveRealm(P, Calls(d.frames), realm0))
  {
    hide Run;
    n := VisitReached(P, fuel, d, i);
    VisitsStay(P, fuel, d.frames, d.(ops := d.ops.tail.tail), d.g, i);
    SavedBelow(P, fuel, d.frames, d.(ops := d.ops.tail.tail), d.g, i, pkg0, realm0);
  }

  lemma {:induction false} SavedBelow(P: Program, fuel: nat, frames: List<Frame>, m: State, g: Globals, i: nat, pkg0: nat, realm0: Option<nat>)
    requires i < |Visits(P, fuel, frames, m, g)| && Saved(P, Calls(frames), pkg0, realm0)
    ensures Saved(P, Calls(Visits(P, fuel, frames, m, g)[i].frames), pkg0, realm0)
    decreases frames
  {
    hide CutTo, RunDefers;
    var fr, rest := frames.head, frames.tail;
    if fr.kind.LoopFrame? {
      SavedBelow(P, fuel, rest, m, g, i, pkg0, realm0);
    } else if i > 0 {
      var o := RunDefers(P, fuel, BlockAt(m.blocks, fr.numBlocks).value, World(g, fr.kind.defers));
      SavedBelow(P, fuel, rest, CutTo(m, fr, rest), o.w.g, i - 1, pkg0, realm0);
    }
  }
}
