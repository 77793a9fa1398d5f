/** Deferred calls: all of them run before a function is left, each once, the
    last one deferred first, unless a return dropped the function. */
module GnoDefers {
  import opened GnoValues
  import opened GnoStacks
  import opened GnoSyntax
  import opened GnoMachine
  import opened GnoSemantics

  // ---------------------------------------------------------------- the log only grows

  /** The entry is not about the deferred calls of activation `a`. */
  predicate Elsewhere(e: Event, a: int) {
    e.Finalized? || e.act != a
  }

  /** From `g` to `g2` blocks are only added, and the log only extended; every
      deferred call logged since belongs to a block younger than `g`, or to `a`. */
  ghost predicate GrowsFor(g: Globals, g2: Globals, a: int) {
    && |g.store| <= |g2.store|
    && |g.events| <= |g2.events|
    && g2.events[..|g.events|] == g.events
    && forall i | |g.events| <= i < |g2.events| :: AtLeast(g2.events[i], |g.store|, a)
  }

  predicate AtLeast(e: Event, n: nat, a: int) {
    e.Finalized? || e.act >= n || e.act == a
  }

  ghost predicate Grows(g: Globals, g2: Globals) {
    GrowsFor(g, g2, -1)
  }

  lemma GrowsTrans(g: Globals, g1: Globals, g2: Globals, a: int, b: int)
    requires GrowsFor(g, g1, a) && GrowsFor(g1, g2, b)
    requires a == b || a == -1 || b == -1
    requires b >= |g.store| || b == -1 || a == b
    ensures GrowsFor(g, g2, a)
  {
    assert g2.events[..|g.events|] == g1.events[..|g.events|];
    forall i | |g.events| <= i < |g2.events|
      ensures AtLeast(g2.events[i], |g.store|, a)
    {
      if i < |g1.events| {
        assert g2.events[i] == g1.events[i];
        assert AtLeast(g1.events[i], |g.store|, a);
      } else {
        assert AtLeast(g2.events[i], |g1.store|, b);
      }
    }
  }

  ghost predicate ValueGrows<T>(g: Globals, r: EvalR<T>) {
    HasGlobals(r) ==> Grows(g, r.g)
  }

  predicate HasWorld(o: Outcome) {
    o.Normal? || o.Breaks? || o.Continues? || o.Returns? || o.Panics? || o.Drops?
  }

  /** The evaluation ended with globals. */
  predicate HasGlobals<T>(r: EvalR<T>) {
    r.Ok? || r.Panicked? || r.Dropped?
  }

  lemma {:induction false} EvalGrows(P: Program, fuel: nat, e: Expr, blk: nat, top: bool, g: Globals)
    ensures ValueGrows(g, Eval(P, fuel, e, blk, top, g))
    decreases fuel, 0, e, 1
  {
    match e {
      case Const(_) =>
      case Name(_) =>
      case FuncLit(_) =>
      case Unary(_, x) => EvalGrows(P, fuel, x, blk, top, g);
      case Binary(_, l, r) => PairGrows(P, fuel, e, l, r, blk, top, g);
      case And(l, r) => PairGrows(P, fuel, e, l, r, blk, top, g);
      case Or(l, r) => PairGrows(P, fuel, e, l, r, blk, top, g);
      case Call(_, _) => CallGrows(P, fuel, e, blk, top, g);
    }
  }

  lemma {:induction false} PairGrows(P: Program, fuel: nat, e: Expr, l: Expr, r: Expr, blk: nat, top: bool, g: Globals)
    requires l < e && r < e
    ensures var r1 := Eval(P, fuel, l, blk, top, g);
            ValueGrows(g, r1) && (r1.Ok? ==> ValueGrows(g, Eval(P, fuel, r, blk, top, r1.g)))
    decreases fuel, 0, e, 0
  {
    EvalGrows(P, fuel, l, blk, top, g);
    var r1 := Eval(P, fuel, l, blk, top, g);
    if r1.Ok? {
      EvalGrows(P, fuel, r, blk, top, r1.g);
      var r2 := Eval(P, fuel, r, blk, top, r1.g);
      if HasGlobals(r2) {
        GrowsTrans(g, r1.g, r2.g, -1, -1);
      }
    }
  }

  lemma {:induction false} ListGrows(P: Program, fuel: nat, es: seq<Expr>, blk: nat, top: bool, g: Globals)
    ensures ValueGrows(g, EvalList(P, fuel, es, blk, top, g))
    decreases fuel, 0, es, 0
  {
    if es != [] {
      EvalGrows(P, fuel, es[0], blk, top, g);
      var r1 := Eval(P, fuel, es[0], blk, top, g);
      if r1.Ok? {
        ListGrows(P, fuel, es[1..], blk, top, r1.g);
        var r2 := EvalList(P, fuel, es[1..], blk, top, r1.g);
        if HasGlobals(r2) {
          GrowsTrans(g, r1.g, r2.g, -1, -1);
        }
      }
    }
  }

  lemma {:induction false} CallGrows(P: Program, fuel: nat, e: Expr, blk: nat, top: bool, g: Globals)
    requires e.Call?
    ensures ValueGrows(g, EvalCall(P, fuel, e, blk, top, g))
    decreases fuel, 0, e, 0
  {
    EvalGrows(P, fuel, e.fn, blk, top, g);
    var r1 := Eval(P, fuel, e.fn, blk, top, g);
    if r1.Ok? {
      ListGrows(P, fuel, e.args, blk, top, r1.g);
      var r2 := EvalList(P, fuel, e.args, blk, top, r1.g);
      if HasGlobals(r2) {
        GrowsTrans(g, r1.g, r2.g, -1, -1);
      }
      if r2.Ok? && fuel > 0 {
        CallFnGrows(P, fuel - 1, r1.v, r2.v, top, r2.g);
        var r3 := CallFn(P, fuel - 1, r1.v, r2.v, top, r2.g);
        if HasGlobals(r3) {
          GrowsTrans(g, r2.g, r3.g, -1, -1);
        }
      }
    }
  }

  lemma {:induction false} CallFnGrows(P: Program, fuel: nat, fv: Value, args: seq<Value>, top: bool, g: Globals)
    ensures ValueGrows(g, CallFn(P, fuel, fv, args, top, g))
    decreases fuel, 2
  {
    if P.IsFunc(fv) && |args| == P.FuncOf(fv).numParams {
      var fn, a, g1 := P.FuncOf(fv), |g.store|, Enter(P, fv, args, g);
      if fn.native {
        if |fn.defaults| == 1 {
          LeaveGrows(g, g1.(exc := None), top, [if g1.exc.Some? then g1.exc.value else VUndef]);
        }
      } else {
        CallRunsDefersOnce(P, fuel, fv, args, top, g);
      }
    }
  }

  lemma LeaveGrows(g: Globals, g2: Globals, top: bool, vs: seq<Value>)
    requires Grows(g, g2)
    ensures ValueGrows(g, Leave(g2, g, top, vs))
  {
  }

  // ---------------------------------------------------------------- replaying the log

  /** What has been logged since `g`. */
  function Since(g: Globals, g2: Globals): seq<Event>
    requires |g.events| <= |g2.events|
  {
    g2.events[|g.events|..]
  }

  /** The list of pending calls of activation `a`, `ds` before, after one entry of the
      log; None if the entry is not one of a stack: a call deferred goes on top, and
      only the call on top is started. */
  function Replay1(e: Event, a: nat, ds: seq<Deferred>): Option<seq<Deferred>> {
    match e
    case Finalized(_) => Some(ds)
    case Pushed(act, pos, d) =>
      if act != a then Some(ds) else if pos == |ds| then Some(ds + [d]) else None
    case RanDefer(act, pos, d) =>
      if act != a then Some(ds)
      else if ds != [] && pos == |ds| - 1 && d == ds[pos] then Some(ds[..pos]) else None
  }

  function Replay(es: seq<Event>, a: nat, ds: seq<Deferred>): Option<seq<Deferred>> {
    if es == [] then Some(ds) else
    match Replay1(es[0], a, ds)
    case None => None
    case Some(ds1) => Replay(es[1..], a, ds1)
  }

  lemma {:induction false} ReplayAppend(e1: seq<Event>, e2: seq<Event>, a: nat, ds: seq<Deferred>)
    requires Replay(e1, a, ds).Some?
    ensures Replay(e1 + e2, a, ds) == Replay(e2, a, Replay(e1, a, ds).value)
    decreases |e1|
  {
    if e1 == [] {
      assert e1 + e2 == e2;
    } else {
      assert (e1 + e2)[1..] == e1[1..] + e2;
      ReplayAppend(e1[1..], e2, a, Replay1(e1[0], a, ds).value);
    }
  }

  lemma {:induction false} ReplayElsewhere(es: seq<Event>, a: nat, ds: seq<Deferred>)
    requires forall i | 0 <= i < |es| :: Elsewhere(es[i], a)
    ensures Replay(es, a, ds) == Some(ds)
    decreases |es|
  {
    if es != [] {
      assert Elsewhere(es[0], a);
      forall i | 0 <= i < |es[1..]|
        ensures Elsewhere(es[1..][i], a)
      {
        assert Elsewhere(es[i + 1], a);
      }
      ReplayElsewhere(es[1..], a, ds);
    }
  }

  function Times(ds: seq<Deferred>, x: Deferred): nat {
    if ds == [] then 0 else Times(ds[..|ds| - 1], x) + (if ds[|ds| - 1] == x then 1 else 0)
  }

  lemma TimesMore(ds: seq<Deferred>, d: Deferred, x: Deferred)
    ensures Times(ds + [d], x) == Times(ds, x) + (if d == x then 1 else 0)
  {
    assert (ds + [d])[..|ds|] == ds;
  }

  /** How often the log has activation `a` defer or start the call. */
  function Deferrals(es: seq<Event>, a: nat, x: Deferred): nat {
    if es == [] then 0
    else (if es[0].Pushed? && es[0].act == a && es[0].call == x then 1 else 0) + Deferrals(es[1..], a, x)
  }

  function Starts(es: seq<Event>, a: nat, x: Deferred): nat {
    if es == [] then 0
    else (if es[0].RanDefer? && es[0].act == a && es[0].call == x then 1 else 0) + Starts(es[1..], a, x)
  }

  /** In a log that replays every call is started as often as it was pending before or
      deferred, less what is still pending. */
  lemma {:induction false} EachOnce(es: seq<Event>, a: nat, ds: seq<Deferred>, x: Deferred)
    requires Replay(es, a, ds).Some?
    ensures Times(ds, x) + Deferrals(es, a, x) == Starts(es, a, x) + Times(Replay(es, a, ds).value, x)
    decreases |es|
  {
    hide Times;
    if es != [] {
      var e, ds1 := es[0], Replay1(es[0], a, ds).value;
      EachOnce(es[1..], a, ds1, x);
      if e.RanDefer? && e.act == a {
        assert ds == ds1 + [e.call];
        TimesMore(ds1, e.call, x);
      } else if e.Pushed? && e.act == a {
        TimesMore(ds, e.call, x);
      }
    }
  }

  // ---------------------------------------------------------------- statements

  /** From `g` to `g2` the log shows the list of activation `a` go from `ds` to `ds2`. */
  ghost predicate Logs(g: Globals, g2: Globals, a: nat, ds: seq<Deferred>, ds2: seq<Deferred>) {
    GrowsFor(g, g2, a) && Replay(Since(g, g2), a, ds) == Some(ds2)
  }

  lemma LogsTrans(g: Globals, g1: Globals, g2: Globals, a: nat, ds: seq<Deferred>, ds1: seq<Deferred>, ds2: seq<Deferred>)
    requires Logs(g, g1, a, ds, ds1) && Logs(g1, g2, a, ds1, ds2)
    ensures Logs(g, g2, a, ds, ds2)
  {
    GrowsTrans(g, g1, g2, a, a);
    ReplayAppend(Since(g, g1), Since(g1, g2), a, ds);
    assert Since(g, g2) == Since(g, g1) + Since(g1, g2) by {
      assert g2.events == g1.events + Since(g1, g2);
      assert g1.events == g.events + Since(g, g1);
    }
  }

  lemma GrowsLogs(g: Globals, g2: Globals, a: nat, ds: seq<Deferred>)
    requires Grows(g, g2) && a < |g.store|
    ensures Logs(g, g2, a, ds, ds)
  {
    forall i | |g.events| <= i < |g2.events|
      ensures AtLeast(g2.events[i], |g.store|, a)
    {
      assert AtLeast(g2.events[i], |g.store|, -1);
    }
    forall i | 0 <= i < |Since(g, g2)|
      ensures Elsewhere(Since(g, g2)[i], a)
    {
      assert AtLeast(g2.events[|g.events| + i], |g.store|, -1);
    }
    ReplayElsewhere(Since(g, g2), a, ds);
  }

  ghost predicate OutcomeLogs(w: World, a: nat, o: Outcome) {
    HasWorld(o) ==> Logs(w.g, o.w.g, a, w.defers, o.w.defers)
  }

  lemma OutcomeTrans(w: World, g1: Globals, a: nat, ds1: seq<Deferred>, o: Outcome)
    requires Logs(w.g, g1, a, w.defers, ds1) && OutcomeLogs(World(g1, ds1), a, o)
    ensures OutcomeLogs(w, a, o)
  {
    if HasWorld(o) {
      LogsTrans(w.g, g1, o.w.g, a, w.defers, ds1, o.w.defers);
    }
  }

  /** An evaluation that gave no value ends the statement. */
  lemma AbortLogs<T>(w: World, a: nat, r: EvalR<T>)
    requires a < |w.g.store| && ValueGrows(w.g, r) && !r.Ok?
    ensures OutcomeLogs(w, a, Abort(r, w.defers))
  {
    if HasGlobals(r) {
      GrowsLogs(w.g, r.g, a, w.defers);
    }
  }

  lemma {:induction false} SimpleGrows(P: Program, fuel: nat, s: Simple, blk: nat, g: Globals)
    ensures ValueGrows(g, ExecSimple(P, fuel, s, blk, g))
    decreases fuel, 0, s
  {
    match s
    case Assign(p, rhs) =>
      EvalGrows(P, fuel, rhs, blk, false, g);
    case ExprStmt(x) =>
      if x.Call? {
        CallGrows(P, fuel, x, blk, false, g);
      } else {
        EvalGrows(P, fuel, x, blk, false, g);
      }
  }

  lemma {:induction false} OptGrows(P: Program, fuel: nat, s: Option<Simple>, blk: nat, g: Globals)
    ensures ValueGrows(g, ExecOpt(P, fuel, s, blk, g))
    decreases fuel, 0, s
  {
    if s.Some? {
      SimpleGrows(P, fuel, s.value, blk, g);
    }
  }

  lemma {:induction false} CondGrows(P: Program, fuel: nat, e: Option<Expr>, blk: nat, g: Globals)
    ensures ValueGrows(g, EvalCond(P, fuel, e, blk, g))
    decreases fuel, 0, e
  {
    if e.Some? {
      EvalGrows(P, fuel, e.value, blk, false, g);
    }
  }

  /** A body, whatever ends it, defers on top of what was pending and starts nothing. */
  lemma {:induction false} BodyLogs(P: Program, fuel: nat, ss: seq<Stmt>, blk: nat, a: nat, w: World)
    requires a < |w.g.store|
    ensures OutcomeLogs(w, a, ExecBody(P, fuel, ss, blk, a, w))
    decreases fuel, 0, ss, 0
  {
    if ss == [] {
      assert Since(w.g, w.g) == [];
    } else {
      StmtLogs(P, fuel, ss[0], blk, a, w);
      var o := Exec(P, fuel, ss[0], blk, a, w);
      if o.Normal? {
        BodyLogs(P, fuel, ss[1..], blk, a, o.w);
        OutcomeTrans(w, o.w.g, a, o.w.defers, ExecBody(P, fuel, ss[1..], blk, a, o.w));
      }
    }
  }

  lemma {:induction false} StmtLogs(P: Program, fuel: nat, s: Stmt, blk: nat, act: nat, w: World)
    requires act < |w.g.store|
    ensures OutcomeLogs(w, act, Exec(P, fuel, s, blk, act, w))
    decreases fuel, 0, s, 2
  {
    hide Logs;
    var a := |w.g.store|;
    var g1 := NewBlock(w.g, blk);
    GrowsLogs(w.g, g1, act, w.defers);
    match s {
      case Basic(x) =>
        SimpleGrows(P, fuel, x, blk, w.g);
        var r := ExecSimple(P, fuel, x, blk, w.g);
        if r.Ok? {
          GrowsLogs(w.g, r.g, act, w.defers);
        } else {
          AbortLogs(w, act, r);
        }
      case Block(body) =>
        BodyLogs(P, fuel, body, a, act, World(g1, w.defers));
        OutcomeTrans(w, g1, act, w.defers, ExecBody(P, fuel, body, a, act, World(g1, w.defers)));
      case If(_, _, _, _) => IfLogs(P, fuel, s, blk, act, w);
      case For(_, init, _, _, _) =>
        OptGrows(P, fuel, init, a, g1);
        var r := ExecOpt(P, fuel, init, a, g1);
        if r.Ok? {
          GrowsLogs(g1, r.g, act, w.defers);
          ForLogs(P, fuel, s, a, act, World(r.g, w.defers));
          OutcomeTrans(World(g1, w.defers), r.g, act, w.defers, ExecFor(P, fuel, s, a, act, World(r.g, w.defers)));
          OutcomeTrans(w, g1, act, w.defers, ExecFor(P, fuel, s, a, act, World(r.g, w.defers)));
        } else {
          AbortLogs(World(g1, w.defers), act, r);
          OutcomeTrans(w, g1, act, w.defers, Abort(r, w.defers));
        }
      case Range(_, _, _, _, _) => RangeStmtLogs(P, fuel, s, blk, act, w);
      case Break(_) => GrowsLogs(w.g, w.g, act, w.defers);
      case Continue(_) => GrowsLogs(w.g, w.g, act, w.defers);
      case Return(es) =>
        ListGrows(P, fuel, es, blk, false, w.g);
        var r := EvalList(P, fuel, es, blk, false, w.g);
        if r.Ok? {
          GrowsLogs(w.g, r.g, act, w.defers);
        } else {
          AbortLogs(w, act, r);
        }
      case Panic(ex) =>
        EvalGrows(P, fuel, ex, blk, false, w.g);
        var r := Eval(P, fuel, ex, blk, false, w.g);
        if r.Ok? {
          GrowsLogs(w.g, r.g.(exc := Some(r.v)), act, w.defers);
        } else {
          AbortLogs(w, act, r);
        }
      case Defer(_, _) => DeferLogs(P, fuel, s, blk, act, w);
    }
  }

  lemma {:induction false} IfLogs(P: Program, fuel: nat, s: Stmt, blk: nat, act: nat, w: World)
    requires act < |w.g.store| && s.If?
    ensures OutcomeLogs(w, act, Exec(P, fuel, s, blk, act, w))
    decreases fuel, 0, s, 1
  {
    hide Logs;
    var a := |w.g.store|;
    var w1 := World(NewBlock(w.g, blk), w.defers);
    GrowsLogs(w.g, w1.g, act, w.defers);
    OptGrows(P, fuel, s.init, a, w1.g);
    var r := ExecOpt(P, fuel, s.init, a, w1.g);
    if !r.Ok? {
      AbortLogs(w1, act, r);
      OutcomeTrans(w, w1.g, act, w.defers, Abort(r, w.defers));
      return;
    }
    var w2 := World(r.g, w.defers);
    GrowsLogs(w1.g, r.g, act, w.defers);
    LogsTrans(w.g, w1.g, r.g, act, w.defers, w.defers, w.defers);
    EvalGrows(P, fuel, s.cond, a, false, r.g);
    var r2 := EvalBool(P, fuel, s.cond, a, r.g);
    if !r2.Ok? {
      AbortLogs(w2, act, r2);
      OutcomeTrans(w, r.g, act, w.defers, Abort(r2, w.defers));
      return;
    }
    GrowsLogs(r.g, r2.g, act, w.defers);
    LogsTrans(w.g, r.g, r2.g, act, w.defers, w.defers, w.defers);
    var body := if r2.v then s.thn else s.els;
    BodyLogs(P, fuel, body, a, act, World(r2.g, w.defers));
    OutcomeTrans(w, r2.g, act, w.defers, ExecBody(P, fuel, body, a, act, World(r2.g, w.defers)));
  }

  lemma {:induction false} RangeStmtLogs(P: Program, fuel: nat, s: Stmt, blk: nat, act: nat, w: World)
    requires act < |w.g.store| && s.Range?
    ensures OutcomeLogs(w, act, Exec(P, fuel, s, blk, act, w))
    decreases fuel, 0, s, 1
  {
    hide Logs;
    var a := |w.g.store|;
    var w1 := World(NewBlock(w.g, blk), w.defers);
    GrowsLogs(w.g, w1.g, act, w.defers);
    EvalGrows(P, fuel, s.x, a, false, w1.g);
    var r := Eval(P, fuel, s.x, a, false, w1.g);
    if !r.Ok? {
      AbortLogs(w1, act, r);
      OutcomeTrans(w, w1.g, act, w.defers, Abort(r, w.defers));
    } else if r.v.VList? {
      GrowsLogs(w1.g, r.g, act, w.defers);
      LogsTrans(w.g, w1.g, r.g, act, w.defers, w.defers, w.defers);
      RangeLogs(P, fuel, s, r.v.elems, 0, a, act, World(r.g, w.defers));
      OutcomeTrans(w, r.g, act, w.defers, ExecRange(P, fuel, s, r.v.elems, 0, a, act, World(r.g, w.defers)));
    }
  }

  lemma {:induction false} DeferLogs(P: Program, fuel: nat, s: Stmt, blk: nat, act: nat, w: World)
    requires act < |w.g.store| && s.Defer?
    ensures OutcomeLogs(w, act, Exec(P, fuel, s, blk, act, w))
    decreases fuel, 0, s, 1
  {
    hide Logs;
    EvalGrows(P, fuel, s.fn, blk, false, w.g);
    var r := Eval(P, fuel, s.fn, blk, false, w.g);
    if !r.Ok? {
      AbortLogs(w, act, r);
      return;
    }
    GrowsLogs(w.g, r.g, act, w.defers);
    ListGrows(P, fuel, s.args, blk, false, r.g);
    var r2 := EvalList(P, fuel, s.args, blk, false, r.g);
    if !r2.Ok? {
      AbortLogs(World(r.g, w.defers), act, r2);
      OutcomeTrans(w, r.g, act, w.defers, Abort(r2, w.defers));
    } else if P.IsFunc(r.v) {
      GrowsLogs(r.g, r2.g, act, w.defers);
      LogsTrans(w.g, r.g, r2.g, act, w.defers, w.defers, w.defers);
      var d := Deferred(r.v, r2.v, blk);
      PushLogs(r2.g, act, w.defers, d);
      LogsTrans(w.g, r2.g, r2.g.(events := r2.g.events + [Pushed(act, |w.defers|, d)]), act, w.defers, w.defers, w.defers + [d]);
    }
  }

  lemma PushLogs(g: Globals, a: nat, ds: seq<Deferred>, d: Deferred)
    ensures Logs(g, g.(events := g.events + [Pushed(a, |ds|, d)]), a, ds, ds + [d])
  {
    var e := Pushed(a, |ds|, d);
    assert Since(g, g.(events := g.events + [e])) == [e];
    assert Replay([e], a, ds) == Replay([], a, ds + [d]);
  }

  lemma StartLogs(g: Globals, a: nat, ds: seq<Deferred>, g1: Globals)
    requires ds != [] && g1.events == g.events + [RanDefer(a, |ds| - 1, ds[|ds| - 1])] && |g.store| <= |g1.store|
    ensures Logs(g, g1, a, ds, ds[..|ds| - 1])
  {
    var e := RanDefer(a, |ds| - 1, ds[|ds| - 1]);
    assert Since(g, g1) == [e];
    assert Replay([e], a, ds) == Replay([], a, ds[..|ds| - 1]);
  }

  lemma {:induction false} ForLogs(P: Program, fuel: nat, s: Stmt, a: nat, act: nat, w: World)
    requires s.For? && act < |w.g.store|
    ensures OutcomeLogs(w, act, ExecFor(P, fuel, s, a, act, w))
    decreases fuel, 0, s, 1
  {
    hide Logs;
    if fuel == 0 {
      return;
    }
    CondGrows(P, fuel, s.cnd, a, w.g);
    var r := EvalCond(P, fuel, s.cnd, a, w.g);
    if !r.Ok? {
      AbortLogs(w, act, r);
      return;
    }
    GrowsLogs(w.g, r.g, act, w.defers);
    if r.v {
      var w1 := World(r.g, w.defers);
      BodyLogs(P, fuel, s.body, a, act, w1);
      var o := ExecBody(P, fuel, s.body, a, act, w1);
      OutcomeTrans(w, r.g, act, w.defers, o);
      if o.Normal? || (o.Continues? && Matches(o.lab, s.lab)) {
        LogsLonger(w1.g, o.w.g, act, w1.defers, o.w.defers);
        PostLogs(P, fuel, s, a, act, o.w);
        OutcomeTrans(w, o.w.g, act, o.w.defers, ExecPost(P, fuel, s, a, act, o.w));
      }
    }
  }

  lemma LogsLonger(g: Globals, g2: Globals, a: nat, ds: seq<Deferred>, ds2: seq<Deferred>)
    requires Logs(g, g2, a, ds, ds2)
    ensures |g.store| <= |g2.store|
  {
  }

  lemma {:induction false} PostLogs(P: Program, fuel: nat, s: Stmt, a: nat, act: nat, w: World)
    requires s.For? && act < |w.g.store| && fuel > 0
    ensures OutcomeLogs(w, act, ExecPost(P, fuel, s, a, act, w))
    decreases fuel, 0, s, 0
  {
    hide Logs;
    OptGrows(P, fuel, s.post, a, w.g);
    var r := ExecOpt(P, fuel, s.post, a, w.g);
    if !r.Ok? {
      AbortLogs(w, act, r);
    } else {
      GrowsLogs(w.g, r.g, act, w.defers);
      ForLogs(P, fuel - 1, s, a, act, World(r.g, w.defers));
      OutcomeTrans(w, r.g, act, w.defers, ExecFor(P, fuel - 1, s, a, act, World(r.g, w.defers)));
    }
  }

  lemma {:induction false} RangeLogs(P: Program, fuel: nat, s: Stmt, elems: seq<Value>, i: nat, a: nat, act: nat, w: World)
    requires s.Range? && i <= |elems| && act < |w.g.store|
    ensures OutcomeLogs(w, act, ExecRange(P, fuel, s, elems, i, a, act, w))
    decreases fuel, 0, s, 1, |elems| - i
  {
    hide Logs;
    GrowsLogs(w.g, w.g, act, w.defers);
    if i < |elems| {
      var st1 := WriteOpt(w.g.store, a, s.key, VInt(Int, i));
      if st1.Some? {
        var st2 := WriteOpt(st1.value, a, s.val, elems[i]);
        if st2.Some? {
          var w1 := World(w.g.(store := st2.value), w.defers);
          GrowsLogs(w.g, w1.g, act, w.defers);
          BodyLogs(P, fuel, s.body, a, act, w1);
          var o := ExecBody(P, fuel, s.body, a, act, w1);
          OutcomeTrans(w, w1.g, act, w.defers, o);
          if o.Normal? || (o.Continues? && Matches(o.lab, s.lab)) {
            LogsLonger(w1.g, o.w.g, act, w1.defers, o.w.defers);
            RangeLogs(P, fuel, s, elems, i + 1, a, act, o.w);
            OutcomeTrans(w, o.w.g, act, o.w.defers, ExecRange(P, fuel, s, elems, i + 1, a, act, o.w));
          }
        }
      }
    }
  }

  // ---------------------------------------------------------------- deferred calls

  /** The deferred calls of a function start from the top of its list; when all are
      done by themselves nothing is pending. */
  lemma {:induction false} DefersRunLastFirst(P: Program, fuel: nat, a: nat, w: World)
    requires a < |w.g.store|
    ensures OutcomeLogs(w, a, RunDefers(P, fuel, a, w))
    ensures RunDefers(P, fuel, a, w).Normal? ==> RunDefers(P, fuel, a, w).w.defers == []
    decreases fuel, 1, 0
  {
    hide Logs;
    if w.defers == [] {
      GrowsLogs(w.g, w.g, a, w.defers);
    } else if fuel > 0 {
      var n := |w.defers| - 1;
      var d := w.defers[n];
      if P.IsFunc(d.fv) && !P.FuncOf(d.fv).native {
        var g1 := w.g.(events := w.g.events + [RanDefer(a, n, d)],
                       store := w.g.store + [Scope(Some(d.parent), SlotMap(d.args, 0))]);
        var w1 := World(g1, w.defers[..n]);
        StartLogs(w.g, a, w.defers, g1);
        BodyLogs(P, fuel - 1, P.FuncOf(d.fv).body, |w.g.store|, a, w1);
        var o := ExecBody(P, fuel - 1, P.FuncOf(d.fv).body, |w.g.store|, a, w1);
        OutcomeTrans(w, g1, a, w1.defers, o);
        if o.Normal? {
          LogsLonger(g1, o.w.g, a, w1.defers, o.w.defers);
          DefersRunLastFirst(P, fuel - 1, a, o.w);
          OutcomeTrans(w, o.w.g, a, o.w.defers, RunDefers(P, fuel - 1, a, o.w));
        }
      }
    }
  }

  /** How the activation ends whose body ended with `o`: all its deferred calls done,
      or dropped by a return somewhere in what it called. */
  function LastOf(P: Program, fuel: nat, fn: Func, a: nat, o: Outcome): Outcome
    decreases fuel
  {
    if !(o.Normal? || o.Returns? || o.Panics?) || o.w.defers == [] then o
    else
      var o2 := RunDefers(P, fuel, a, AtEnd(fn, a, o));
      if o2.Normal? || fuel == 0 then o2 else LastOf(P, fuel - 1, fn, a, o2)
  }

  /** The world in which the deferred calls of a function start: its results are in
      its block. */
  function AtEnd(fn: Func, a: nat, o: Outcome): (w: World)
    requires HasWorld(o)
  {
    if o.Returns? && o.rv.Some? && o.w.defers != [] then
      World(o.w.g.(store := WriteResults(o.w.g.store, a, fn, o.rv.value)), o.w.defers)
    else o.w
  }

  /** The log of an activation from the end of its body to its own end. */
  ghost predicate EndsLogged(P: Program, fuel: nat, fn: Func, a: nat, o: Outcome, r: EvalR<seq<Value>>) {
    HasGlobals(r) ==>
      var l := LastOf(P, fuel, fn, a, o);
      && HasWorld(o) && HasWorld(l)
      && Logs(o.w.g, l.w.g, a, o.w.defers, l.w.defers)
      && (l.Drops? || l.w.defers == [])
      && |l.w.g.store| <= |r.g.store| && OneMore(l.w.g.events, r.g.events)
  }

  /** `e2` is `e1`, or `e1` with one realm finalized after it. */
  ghost predicate OneMore(e1: seq<Event>, e2: seq<Event>) {
    e2 == e1 || (|e2| == |e1| + 1 && e2[|e1|].Finalized? && e2 == e1 + [e2[|e1|]])
  }

  lemma {:induction false} EndCallLogged(P: Program, fuel: nat, fn: Func, a: nat, o: Outcome, caller: Globals, top: bool)
    requires HasWorld(o) ==> a < |o.w.g.store|
    ensures EndsLogged(P, fuel, fn, a, o, EndCall(P, fuel, fn, a, o, caller, top))
    decreases fuel, 1, 4
  {
    hide Logs, RunDefers, Finish, ByDeferred;
    match o
    case Normal(w) => FinishLogged(P, fuel, fn, a, o, None, false, w, caller, top);
    case Returns(rv, inLoop, w) => FinishLogged(P, fuel, fn, a, o, rv, inLoop, w, caller, top);
    case Panics(w) =>
      GrowsLogs(w.g, w.g, a, w.defers);
      AtEndLogs(P, fuel, fn, a, o);
      if w.defers == [] {
        NoneToRun(P, fuel, a, w);
      } else {
        LeftLogged(P, fuel, fn, a, o, false, caller, top);
      }
    case Drops(w) => GrowsLogs(w.g, w.g, a, w.defers);
    case _ =>
  }

  lemma NoneToRun(P: Program, fuel: nat, a: nat, w: World)
    requires w.defers == []
    ensures RunDefers(P, fuel, a, w) == Normal(w)
  {
  }

  lemma {:induction false} FinishLogged(P: Program, fuel: nat, fn: Func, a: nat, o: Outcome, rv: Option<seq<Value>>, inLoop: bool,
                                        w: World, caller: Globals, top: bool)
    requires a < |w.g.store| && (o == Returns(rv, inLoop, w) || (o == Normal(w) && rv.None? && !inLoop))
    ensures EndsLogged(P, fuel, fn, a, o, Finish(P, fuel, fn, a, rv, inLoop, w, caller, top))
    decreases fuel, 1, 3
  {
    hide Logs, RunDefers, ByDeferred;
    GrowsLogs(w.g, w.g, a, w.defers);
    if w.defers != [] && !(rv.Some? && |rv.value| != |fn.defaults|) {
      AtEndLogs(P, fuel, fn, a, o);
      LeftLogged(P, fuel, fn, a, o, inLoop, caller, top);
      assert Finish(P, fuel, fn, a, rv, inLoop, w, caller, top) ==
             AfterDefers(P, fuel, fn, a, inLoop, AtEnd(fn, a, o), caller, top);
    }
  }

  /** The deferred calls from the end of the body on. */
  lemma {:induction false} AtEndLogs(P: Program, fuel: nat, fn: Func, a: nat, o: Outcome)
    requires (o.Normal? || o.Returns? || o.Panics?) && a < |o.w.g.store|
    ensures var o2 := RunDefers(P, fuel, a, AtEnd(fn, a, o));
            && (o2.Normal? ==> o2.w.defers == [])
            && (HasWorld(o2) ==> a < |o2.w.g.store| && Logs(o.w.g, o2.w.g, a, o.w.defers, o2.w.defers))
    decreases fuel, 1, 1
  {
    hide Logs, RunDefers;
    var w1 := AtEnd(fn, a, o);
    GrowsLogs(o.w.g, w1.g, a, o.w.defers);
    DefersRunLastFirst(P, fuel, a, w1);
    var o2 := RunDefers(P, fuel, a, w1);
    if HasWorld(o2) {
      LogsLonger(w1.g, o2.w.g, a, w1.defers, o2.w.defers);
      LogsTrans(o.w.g, w1.g, o2.w.g, a, o.w.defers, w1.defers, o2.w.defers);
    }
  }

  /** A deferred body left the function: what is still to run runs then. */
  lemma {:induction false} LeftLogged(P: Program, fuel: nat, fn: Func, a: nat, o: Outcome, inLoop: bool, caller: Globals, top: bool)
    requires (o.Normal? || o.Returns? || o.Panics?) && a < |o.w.g.store| && o.w.defers != []
    ensures var o2 := RunDefers(P, fuel, a, AtEnd(fn, a, o));
            !o2.Normal? ==> EndsLogged(P, fuel, fn, a, o, ByDeferred(P, fuel, fn, a, inLoop, o2, caller, top))
    decreases fuel, 1, 2
  {
    hide Logs, RunDefers, Finish, Unwind;
    AtEndLogs(P, fuel, fn, a, o);
    var o2 := RunDefers(P, fuel, a, AtEnd(fn, a, o));
    var r := ByDeferred(P, fuel, fn, a, inLoop, o2, caller, top);
    if !o2.Normal? && HasGlobals(r) {
      if fuel == 0 {
        GrowsLogs(o2.w.g, o2.w.g, a, o2.w.defers);
      } else {
        var o3 := if o2.Returns? then Returns(o2.rv, o2.inLoop || inLoop, o2.w) else o2;
        EndCallLogged(P, fuel - 1, fn, a, o3, caller, top);
        SameLast(P, fuel - 1, fn, a, o2, inLoop);
        var l := LastOf(P, fuel - 1, fn, a, o2);
        LogsTrans(o.w.g, o2.w.g, l.w.g, a, o.w.defers, o2.w.defers, l.w.defers);
      }
    }
  }

  /** Whether a return stands in a loop does not matter for what is still to run. */
  lemma SameLast(P: Program, fuel: nat, fn: Func, a: nat, o: Outcome, inLoop: bool)
    ensures o.Returns? ==>
              var l, l2 := LastOf(P, fuel, fn, a, Returns(o.rv, o.inLoop || inLoop, o.w)), LastOf(P, fuel, fn, a, o);
              && HasWorld(l) == HasWorld(l2) && l.Drops? == l2.Drops?
              && (HasWorld(l) ==> l.w == l2.w)
  {
  }

  // ---------------------------------------------------------------- whole calls

  /** Over a whole call, however it ends, the log of its activation replays: every
      call deferred goes on top of the list and only the top one is started. At the
      end nothing is pending, unless a return dropped the function, and then what
      was pending then. */
  lemma {:induction false} CallRunsDefersOnce(P: Program, fuel: nat, fv: Value, args: seq<Value>, top: bool, g: Globals)
    requires P.IsFunc(fv) && !P.FuncOf(fv).native
    ensures var a, r := |g.store|, CallFn(P, fuel, fv, args, top, g);
            ValueGrows(g, r) &&
            (HasGlobals(r) ==>
               var l := LastOf(P, fuel, P.FuncOf(fv), a, ExecBody(P, fuel, P.FuncOf(fv).body, a, a, World(Enter(P, fv, args, g), [])));
               && HasWorld(l)
               && Replay(Since(g, r.g), a, []) == Some(l.w.defers)
               && (l.Drops? || l.w.defers == []))
    decreases fuel, 1, 5
  {
    hide Logs;
    var a, r := |g.store|, CallFn(P, fuel, fv, args, top, g);
    if |args| == P.FuncOf(fv).numParams {
      var fn, g1 := P.FuncOf(fv), Enter(P, fv, args, g);
      var o := ExecBody(P, fuel, fn.body, a, a, World(g1, []));
      BodyLogs(P, fuel, fn.body, a, a, World(g1, []));
      if HasWorld(o) {
        LogsLonger(g1, o.w.g, a, [], o.w.defers);
      }
      EndCallLogged(P, fuel, fn, a, o, g, top);
      if HasGlobals(r) {
        var l := LastOf(P, fuel, fn, a, o);
        LogsTrans(g1, o.w.g, l.w.g, a, [], o.w.defers, l.w.defers);
        CallLogGrows(g, g1, l.w.g, r.g, a, l.w.defers);
      }
    }
  }

  lemma CallLogGrows(g: Globals, g1: Globals, g2: Globals, g3: Globals, a: nat, left: seq<Deferred>)
    requires a == |g.store| < |g1.store| && g1.events == g.events && Logs(g1, g2, a, [], left)
    requires |g2.store| <= |g3.store| && OneMore(g2.events, g3.events)
    ensures Grows(g, g3) && Replay(Since(g, g3), a, []) == Some(left)
  {
    forall i | |g.events| <= i < |g3.events|
      ensures AtLeast(g3.events[i], |g.store|, -1)
    {
      if i < |g2.events| {
        assert g3.events[i] == g2.events[i];
        assert AtLeast(g2.events[i], |g1.store|, a);
      }
    }
    var last := g3.events[|g2.events|..];
    assert Since(g, g3) == Since(g1, g2) + last;
    ReplayAppend(Since(g1, g2), last, a, []);
    ReplayElsewhere(last, a, left);
  }

  /** So over a whole call, however it ends, every call is started exactly as often as the
      activation deferred it, calls deferred by deferred bodies included; only a return
      that dropped the function leaves out what was still pending. */
  lemma {:induction false} EachDeferredRunsOnce(P: Program, fuel: nat, fv: Value, args: seq<Value>, top: bool, g: Globals, x: Deferred)
    requires P.IsFunc(fv) && !P.FuncOf(fv).native && HasGlobals(CallFn(P, fuel, fv, args, top, g))
    ensures var a, r := |g.store|, CallFn(P, fuel, fv, args, top, g);
            var l := LastOf(P, fuel, P.FuncOf(fv), a, ExecBody(P, fuel, P.FuncOf(fv).body, a, a, World(Enter(P, fv, args, g), [])));
            && |g.events| <= |r.g.events| && HasWorld(l)
            && Deferrals(Since(g, r.g), a, x) == Starts(Since(g, r.g), a, x) + (if l.Drops? then Times(l.w.defers, x) else 0)
  {
    hide CallFn, LastOf, ExecBody;
    var a, r := |g.store|, CallFn(P, fuel, fv, args, top, g);
    CallRunsDefersOnce(P, fuel, fv, args, top, g);
    EachOnce(Since(g, r.g), a, [], x);
  }
}
