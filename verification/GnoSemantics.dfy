/** A structured (big-step) meaning of Gno programs, independent of the machine's
    stacks. `fuel` bounds the nesting of calls, loop iterations and deferred
    calls; running out of it is Timeout, and a program diverges when every fuel
    times out. Stuck marks programs outside the language: a call with the wrong
    number of arguments or results, a function with results that ends without a
    return, a branch without its loop, and a native deferred call. */
module GnoSemantics {
  import opened GnoValues
  import opened GnoSyntax
  import opened GnoMachine

  /** Dropped: a return during a panic took its own frame for one the panic had
      unwound, so the function around it is returned from at once. */
  datatype EvalR<+T> = Ok(v: T, g: Globals) | Panicked(g: Globals) | Dropped(g: Globals) | Failed | Timeout | Stuck

  /** The globals and the pending deferred calls of the running function. */
  datatype World = World(g: Globals, defers: seq<Deferred>)

  datatype Outcome =
    | Normal(w: World)
    | Breaks(lab: string, w: World)
    | Continues(lab: string, w: World)
    | Returns(rv: Option<seq<Value>>, inLoop: bool, w: World)
    | Panics(w: World)
    | Drops(w: World)
    | SFailed | STimeout | SStuck

  /** A statement whose subexpression did not give a value. */
  function Abort<T>(r: EvalR<T>, ds: seq<Deferred>): Outcome
    requires !r.Ok?
  {
    match r
    case Panicked(g) => Panics(World(g, ds))
    case Dropped(g) => Drops(World(g, ds))
    case Failed => SFailed
    case Timeout => STimeout
    case Stuck => SStuck
  }

  function Recast<T, U>(r: EvalR<T>): EvalR<U>
    requires !r.Ok?
  {
    match r
    case Panicked(g) => Panicked(g)
    case Dropped(g) => Dropped(g)
    case Failed => Failed
    case Timeout => Timeout
    case Stuck => Stuck
  }

  function NewBlock(g: Globals, parent: nat): Globals {
    g.(store := g.store + [Scope(Some(parent), map[])])
  }

  predicate Matches(target: string, lab: string) {
    target == "" || target == lab
  }

  // ---------------------------------------------------------------- expressions

  /** `blk` is the innermost block; `top` says that no frame is on the stack. */
  function Eval(P: Program, fuel: nat, e: Expr, blk: nat, top: bool, g: Globals): EvalR<Value>
    decreases fuel, 0, e, 1
  {
    match e
    case Const(v) => Ok(v, g)
    case Name(p) =>
      (match Load(g.store, blk, p)
       case None => Failed
       case Some(v) => Ok(v, g))
    case Unary(op, x) =>
      var r := Eval(P, fuel, x, blk, top, g);
      (match r
       case Ok(v, g1) =>
         var u := ApplyUnary(op, v);
         if u.None? then Failed else Ok(u.value, g1)
       case _ => r)
    case Binary(op, l, r) =>
      var lr := Eval(P, fuel, l, blk, top, g);
      if !lr.Ok? then lr else
      var rr := Eval(P, fuel, r, blk, top, lr.g);
      if !rr.Ok? then rr else
      var v := ApplyBinary(op, lr.v, rr.v);
      if v.None? then Failed else Ok(v.value, rr.g)
    case And(l, r) =>
      var lr := Eval(P, fuel, l, blk, top, g);
      if !lr.Ok? then lr else if !lr.v.VBool? then Failed else if !lr.v.b then lr else
      var rr := Eval(P, fuel, r, blk, top, lr.g);
      if rr.Ok? && !rr.v.VBool? then Failed else rr
    case Or(l, r) =>
      var lr := Eval(P, fuel, l, blk, top, g);
      if !lr.Ok? then lr else if !lr.v.VBool? then Failed else if lr.v.b then lr else
      var rr := Eval(P, fuel, r, blk, top, lr.g);
      if rr.Ok? && !rr.v.VBool? then Failed else rr
    case FuncLit(fid) => Ok(VFunc(fid, blk, g.pkg), g)
    case Call(_, _) =>
      var r := EvalCall(P, fuel, e, blk, top, g);
      if !r.Ok? then Recast(r) else if |r.v| == 1 then Ok(r.v[0], r.g) else Stuck
  }

  function EvalList(P: Program, fuel: nat, es: seq<Expr>, blk: nat, top: bool, g: Globals): (r: EvalR<seq<Value>>)
    ensures r.Ok? ==> |r.v| == |es|
    decreases fuel, 0, es, 0
  {
    if es == [] then Ok([], g) else
    var r := Eval(P, fuel, es[0], blk, top, g);
    if !r.Ok? then Recast(r) else
    var rest := EvalList(P, fuel, es[1..], blk, top, r.g);
    if rest.Ok? then Ok([r.v] + rest.v, rest.g) else rest
  }

  /** Function first, then the arguments in order, then the call. */
  function EvalCall(P: Program, fuel: nat, e: Expr, blk: nat, top: bool, g: Globals): EvalR<seq<Value>>
    requires e.Call?
    decreases fuel, 0, e, 0
  {
    var r := Eval(P, fuel, e.fn, blk, top, g);
    if !r.Ok? then Recast(r) else
    var rs := EvalList(P, fuel, e.args, blk, top, r.g);
    if !rs.Ok? then rs else if fuel == 0 then Timeout else CallFn(P, fuel - 1, r.v, rs.v, top, rs.g)
  }

  // ---------------------------------------------------------------- calls

  function Enter(P: Program, fv: Value, args: seq<Value>, g: Globals): Globals
    requires P.IsFunc(fv)
  {
    var fn := P.FuncOf(fv);
    var vals := SlotMap(args, 0) + SlotMap(fn.defaults, fn.numParams);
    var rlm := P.RealmOf(fv.pkg);
    g.(pkg := fv.pkg, realm := if rlm.Some? then rlm else g.realm,
       store := g.store + [Scope(Some(fv.closure), vals)])
  }

  /** Back in the caller's package and realm, the callee's realm finalized if due. */
  function Leave(g: Globals, caller: Globals, top: bool, vs: seq<Value>): EvalR<seq<Value>> {
    Ok(vs, Finalize(g, caller.realm, top).(nres := |vs|, pkg := caller.pkg, realm := caller.realm))
  }

  function CallFn(P: Program, fuel: nat, fv: Value, args: seq<Value>, top: bool, g: Globals): EvalR<seq<Value>>
    decreases fuel, 2
  {
    if !P.IsFunc(fv) then Failed else
    var fn := P.FuncOf(fv);
    if |args| != fn.numParams then Stuck else
    var a := |g.store|;
    var g1 := Enter(P, fv, args, g);
    if fn.native then
      if |fn.defaults| != 1 then Stuck
      else Leave(g1.(exc := None), g, top, [if g1.exc.Some? then g1.exc.value else VUndef])
    else EndCall(P, fuel, fn, a, ExecBody(P, fuel, fn.body, a, a, World(g1, [])), g, top)
  }

  /** What the end of a function body means for its call. */
  function EndCall(P: Program, fuel: nat, fn: Func, a: nat, o: Outcome, caller: Globals, top: bool): EvalR<seq<Value>>
    decreases fuel, 1, 1
  {
    match o
    case Normal(w) => if fn.defaults == [] then Finish(P, fuel, fn, a, None, false, w, caller, top) else Stuck
    case Returns(rv, inLoop, w) => Finish(P, fuel, fn, a, rv, inLoop, w, caller, top)
    case Panics(w) => Unwind(P, fuel, fn, a, w, caller, top)
    case Drops(w) => Leave(w.g, caller, top, ReadResults(w.g.store, a, fn))
    case SFailed => Failed
    case STimeout => Timeout
    case _ => Stuck
  }

  /** A return: deferred calls run last-in first-out and may still change the
      results, which then are in the function block. */
  function Finish(P: Program, fuel: nat, fn: Func, a: nat, rv: Option<seq<Value>>, inLoop: bool, w: World,
                  caller: Globals, top: bool): EvalR<seq<Value>>
    decreases fuel, 1, 0
  {
    if rv.Some? && |rv.value| != |fn.defaults| then Stuck
    else if w.defers == [] then
      Leave(w.g, caller, top, if rv.Some? then rv.value else ReadResults(w.g.store, a, fn))
    else
      var g1 := if rv.Some? then w.g.(store := WriteResults(w.g.store, a, fn, rv.value)) else w.g;
      AfterDefers(P, fuel, fn, a, inLoop, World(g1, w.defers), caller, top)
  }

  /** A return once its results are in the block: deferred calls, then out. If an
      exception is pending then, a frame is popped first: that of a loop around the
      return, which does no harm, or that of the function itself. */
  function AfterDefers(P: Program, fuel: nat, fn: Func, a: nat, inLoop: bool, w: World, caller: Globals, top: bool): EvalR<seq<Value>>
    decreases fuel, 0, 1
  {
    var o := RunDefers(P, fuel, a, w);
    if !o.Normal? then ByDeferred(P, fuel, fn, a, inLoop, o, caller, top)
    else if o.w.g.exc.Some? && !inLoop then Dropped(o.w.g)
    else Leave(o.w.g, caller, top, ReadResults(o.w.g.store, a, fn))
  }

  /** A deferred body that did not end normally. It has no frame of its own, so its
      return or panic is one of the function that deferred it. */
  function ByDeferred(P: Program, fuel: nat, fn: Func, a: nat, inLoop: bool, o: Outcome, caller: Globals, top: bool): EvalR<seq<Value>>
    decreases fuel, 0, 0
  {
    match o
    case Returns(rv, deep, w) =>
      if fuel == 0 then Stuck else Finish(P, fuel - 1, fn, a, rv, deep || inLoop, w, caller, top)
    case Panics(w) => if fuel == 0 then Stuck else Unwind(P, fuel - 1, fn, a, w, caller, top)
    case Drops(w) => Leave(w.g, caller, top, ReadResults(w.g.store, a, fn))
    case SFailed => Failed
    case STimeout => Timeout
    case _ => Stuck
  }

  /** A panic: deferred calls run; if one recovers the function returns what its
      block holds, else the panic goes on in the caller, in whatever package
      and realm it was raised. */
  function Unwind(P: Program, fuel: nat, fn: Func, a: nat, w: World, caller: Globals, top: bool): EvalR<seq<Value>>
    decreases fuel, 1, 0
  {
    var o := RunDefers(P, fuel, a, w);
    if !o.Normal? then ByDeferred(P, fuel, fn, a, false, o, caller, top)
    else if o.w.g.exc.None? then Leave(o.w.g, caller, top, ReadResults(o.w.g.store, a, fn))
    else Panicked(o.w.g)
  }

  /** Runs the pending deferred calls of activation `a`, the last one first, until one
      does not end normally. */
  function RunDefers(P: Program, fuel: nat, a: nat, w: World): Outcome
    decreases fuel, 0, 0
  {
    if w.defers == [] then Normal(w)
    else if fuel == 0 then STimeout
    else
      var n := |w.defers| - 1;
      var d := w.defers[n];
      if !P.IsFunc(d.fv) then SFailed
      else if P.FuncOf(d.fv).native then SStuck
      else
        var g1 := w.g.(events := w.g.events + [RanDefer(a, n, d)],
                       store := w.g.store + [Scope(Some(d.parent), SlotMap(d.args, 0))]);
        var o := ExecBody(P, fuel - 1, P.FuncOf(d.fv).body, |w.g.store|, a, World(g1, w.defers[..n]));
        if o.Normal? then RunDefers(P, fuel - 1, a, o.w) else o
  }

  // ---------------------------------------------------------------- statements

  function ExecSimple(P: Program, fuel: nat, s: Simple, blk: nat, g: Globals): EvalR<()>
    decreases fuel, 0, s
  {
    match s
    case Assign(p, rhs) =>
      var r := Eval(P, fuel, rhs, blk, false, g);
      if !r.Ok? then Recast(r) else
      var st := Write(r.g.store, blk, p, r.v);
      if st.None? then Failed else Ok((), r.g.(store := st.value))
    case ExprStmt(x) =>
      if x.Call? then
        var r := EvalCall(P, fuel, x, blk, false, g);
        if r.Ok? then Ok((), r.g.(nres := 0)) else Recast(r)
      else
        var r := Eval(P, fuel, x, blk, false, g);
        if r.Ok? then Ok((), r.g) else Recast(r)
  }

  function ExecOpt(P: Program, fuel: nat, s: Option<Simple>, blk: nat, g: Globals): EvalR<()>
    decreases fuel, 0, s
  {
    match s
    case None => Ok((), g)
    case Some(x) => ExecSimple(P, fuel, x, blk, g)
  }

  function EvalBool(P: Program, fuel: nat, e: Expr, blk: nat, g: Globals): EvalR<bool>
    decreases fuel, 0, e, 2
  {
    var r := Eval(P, fuel, e, blk, false, g);
    if !r.Ok? then Recast(r) else if r.v.VBool? then Ok(r.v.b, r.g) else Failed
  }

  function EvalCond(P: Program, fuel: nat, e: Option<Expr>, blk: nat, g: Globals): EvalR<bool>
    decreases fuel, 0, e
  {
    match e
    case None => Ok(true, g)
    case Some(x) => EvalBool(P, fuel, x, blk, g)
  }

  function ExecBody(P: Program, fuel: nat, ss: seq<Stmt>, blk: nat, act: nat, w: World): Outcome
    decreases fuel, 0, ss, 0
  {
    if ss == [] then Normal(w) else
    var o := Exec(P, fuel, ss[0], blk, act, w);
    if o.Normal? then ExecBody(P, fuel, ss[1..], blk, act, o.w) else o
  }

  function Exec(P: Program, fuel: nat, s: Stmt, blk: nat, act: nat, w: World): Outcome
    decreases fuel, 0, s, 2
  {
    match s
    case Basic(x) =>
      var r := ExecSimple(P, fuel, x, blk, w.g);
      if r.Ok? then Normal(World(r.g, w.defers)) else Abort(r, w.defers)
    case Block(body) =>
      ExecBody(P, fuel, body, |w.g.store|, act, World(NewBlock(w.g, blk), w.defers))
    case If(init, _, _, _) =>
      var a := |w.g.store|;
      var r := ExecOpt(P, fuel, init, a, NewBlock(w.g, blk));
      if r.Ok? then ExecCond(P, fuel, s, a, act, World(r.g, w.defers)) else Abort(r, w.defers)
    case For(_, init, _, _, _) =>
      var a := |w.g.store|;
      var r := ExecOpt(P, fuel, init, a, NewBlock(w.g, blk));
      if r.Ok? then ExecFor(P, fuel, s, a, act, World(r.g, w.defers)) else Abort(r, w.defers)
    case Range(_, _, _, x, _) =>
      var a := |w.g.store|;
      var r := Eval(P, fuel, x, a, false, NewBlock(w.g, blk));
      if !r.Ok? then Abort(r, w.defers)
      else if r.v.VList? then ExecRange(P, fuel, s, r.v.elems, 0, a, act, World(r.g, w.defers))
      else SFailed
    case Break(t) => Breaks(t, w)
    case Continue(t) => Continues(t, w)
    case Return(es) =>
      var r := EvalList(P, fuel, es, blk, false, w.g);
      if r.Ok? then Returns(if es == [] then None else Some(r.v), false, World(r.g, w.defers)) else Abort(r, w.defers)
    case Panic(ex) =>
      var r := Eval(P, fuel, ex, blk, false, w.g);
      if r.Ok? then Panics(World(r.g.(exc := Some(r.v)), w.defers)) else Abort(r, w.defers)
    case Defer(fn, _) =>
      var r := Eval(P, fuel, fn, blk, false, w.g);
      if r.Ok? then ExecDefer(P, fuel, s, r.v, blk, act, World(r.g, w.defers)) else Abort(r, w.defers)
  }

  function ExecCond(P: Program, fuel: nat, s: Stmt, a: nat, act: nat, w: World): Outcome
    requires s.If?
    decreases fuel, 0, s, 1
  {
    var r := EvalBool(P, fuel, s.cond, a, w.g);
    if r.Ok? then ExecBody(P, fuel, if r.v then s.thn else s.els, a, act, World(r.g, w.defers)) else Abort(r, w.defers)
  }

  function ExecDefer(P: Program, fuel: nat, s: Stmt, fv: Value, blk: nat, act: nat, w: World): Outcome
    requires s.Defer?
    decreases fuel, 0, s, 1
  {
    var r := EvalList(P, fuel, s.args, blk, false, w.g);
    if !r.Ok? then Abort(r, w.defers)
    else if !P.IsFunc(fv) then SFailed
    else
      var d := Deferred(fv, r.v, blk);
      Normal(World(r.g.(events := r.g.events + [Pushed(act, |w.defers|, d)]), w.defers + [d]))
  }

  /** The end of a loop body after which the loop goes on. */
  predicate GoesOn(s: Stmt, o: Outcome)
    requires s.For? || s.Range?
  {
    o.Normal? || (o.Continues? && Matches(o.lab, s.lab))
  }

  /** What the end of a loop body that ends the loop means for the loop. */
  function LeaveLoop(s: Stmt, o: Outcome): Outcome
    requires s.For? || s.Range?
  {
    match o
    case Breaks(t, w) => if Matches(t, s.lab) then Normal(w) else o
    case Returns(rv, _, w) => Returns(rv, true, w)
    case _ => o
  }

  /** Condition, body, post; `a` is the block of the loop. */
  function ExecFor(P: Program, fuel: nat, s: Stmt, a: nat, act: nat, w: World): Outcome
    requires s.For?
    decreases fuel, 0, s, 1
  {
    if fuel == 0 then STimeout else
    var r := EvalCond(P, fuel, s.cnd, a, w.g);
    if !r.Ok? then Abort(r, w.defers)
    else if !r.v then Normal(World(r.g, w.defers))
    else
      var o := ExecBody(P, fuel, s.body, a, act, World(r.g, w.defers));
      if GoesOn(s, o) then ExecPost(P, fuel, s, a, act, o.w) else LeaveLoop(s, o)
  }

  function ExecPost(P: Program, fuel: nat, s: Stmt, a: nat, act: nat, w: World): Outcome
    requires s.For? && fuel > 0
    decreases fuel, 0, s, 0
  {
    var r := ExecOpt(P, fuel, s.post, a, w.g);
    if r.Ok? then ExecFor(P, fuel - 1, s, a, act, World(r.g, w.defers)) else Abort(r, w.defers)
  }

  /** The iterations from index `i` on over a list fixed at loop entry. */
  function ExecRange(P: Program, fuel: nat, s: Stmt, elems: seq<Value>, i: nat, a: nat, act: nat, w: World): Outcome
    requires s.Range? && i <= |elems|
    decreases fuel, 0, s, 1, |elems| - i
  {
    if i == |elems| then Normal(w) else
    var st1 := WriteOpt(w.g.store, a, s.key, VInt(Int, i));
    if st1.None? then SFailed else
    var st2 := WriteOpt(st1.value, a, s.val, elems[i]);
    if st2.None? then SFailed else
    var o := ExecBody(P, fuel, s.body, a, act, World(w.g.(store := st2.value), w.defers));
    if GoesOn(s, o) then ExecRange(P, fuel, s, elems, i + 1, a, act, o.w) else LeaveLoop(s, o)
  }
}
