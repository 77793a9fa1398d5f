/** The virtual machine as the mutable object it is: op and value arrays that grow
    by doubling, slices of pending expressions, statements, blocks and frames, and
    handlers that change them in place. Every method is proved to do to the stacks
    what the function of the same name does in GnoMachine. */
module GnoVm {
  import opened GnoValues
  import opened GnoStacks
  import opened GnoSyntax
  import opened GnoMachine

  /** How a handler ends: normally, at a halt, in a Go panic of the interpreter,
      in the Go panic that reports an uncaught Gno panic, or out of cycles. */
  datatype Signal = Running | Halting | Failing | Escaping(ex: Value) | Overrun

  /** A slice after its last `n` elements moved down to index `at`. */
  function Shifted<T>(s: seq<T>, at: nat, n: nat): seq<T>
    requires at + n <= |s|
  {
    s[..at] + s[|s| - n..]
  }

  lemma ShiftedIsPushed<T>(s: seq<T>, at: nat, n: nat)
    requires at + n <= |s|
    ensures ToList(Shifted(s, at, n)) == PushAll(Chop(ToList(s), at), TopN(ToList(s), n))
  {
    ChopToList(s, at);
    PopToList(s, n);
    PushAllToList(s[..at], s[|s| - n..]);
  }

  lemma {:induction false} SetDefersAt(frames: seq<Frame>, i: int, ds: seq<Deferred>)
    requires -1 <= i < |frames|
    requires i >= 0 ==> frames[i].kind.CallFrame?
    requires forall k | i < k < |frames| :: !frames[k].kind.CallFrame?
    ensures SetDefers(ToList(frames), ds) ==
            ToList(if i < 0 then frames else frames[i := frames[i].(kind := frames[i].kind.(defers := ds))])
    decreases |frames|
  {
    if frames != [] {
      var n := |frames| - 1;
      var below := frames[..n];
      if i == n {
        assert frames[i := frames[i].(kind := frames[i].kind.(defers := ds))][..n] == below;
      } else {
        SetDefersAt(below, i, ds);
        if i >= 0 {
          var fr := frames[i].(kind := frames[i].kind.(defers := ds));
          assert frames[i := fr][..n] == below[i := fr];
        }
      }
    }
  }

  lemma {:induction false} SlotMapDomain(vs: seq<Value>, from: nat)
    ensures forall k :: k in SlotMap(vs, from) <==> from <= k < from + |vs|
    decreases |vs|
  {
    if vs != [] {
      SlotMapDomain(vs[..|vs| - 1], from);
    }
  }

  lemma PushAllNone<T>(l: List<T>)
    ensures PushAll(l, []) == l
  {
  }

  lemma SameAct(m: State, m2: State)
    requires m2.frames == m.frames && m2.blocks == m.blocks
    ensures ActOf(m2) == ActOf(m)
  {
  }

  class Machine {
    const program: Program
    const maxCycles: int
    var cycles: int
    var ops: array<Op>
    var numOps: nat
    var values: array<Value>
    var numValues: nat
    var exprs: seq<Expr>
    var stmts: seq<StmtEntry>
    var blocks: seq<nat>
    var frames: seq<Frame>
    var store: seq<Scope>
    var exception: Option<Value>
    var numResults: nat
    var pkg: nat
    var realm: Option<nat>
    var log: seq<Event>
    /** The stacks as lists, tops first. */
    ghost var view: State

    ghost function Concrete(): State
      requires numOps <= ops.Length && numValues <= values.Length
      reads this, ops, values
    {
      State(ToList(ops[..numOps]), ToList(values[..numValues]), ToList(exprs), ToList(stmts),
            ToList(blocks), ToList(frames), Globals(store, exception, numResults, pkg, realm, log))
    }

    ghost predicate Valid()
      reads this, ops, values
    {
      && 0 < ops.Length && 0 < values.Length
      && numOps <= ops.Length && numValues <= values.Length
      && view == Concrete()
    }

    ghost predicate Tracks(sig: Signal, r: Res)
      reads this
    {
      match r
      case Next(m) => sig.Running? && view == m
      case Halted(m) => sig.Halting? && view == m
      case GoPanic => sig.Failing?
      case Uncaught(ex) => sig == Escaping(ex)
    }

    /** Arrays are kept or new; no handler counts cycles. */
    twostate predicate Stays()
      reads this
    {
      cycles == old(cycles) && (ops == old(ops) || fresh(ops)) && (values == old(values) || fresh(values))
    }

    constructor (program: Program, maxCycles: int, store: seq<Scope>, block: nat, pkg: nat, realm: Option<nat>)
      ensures Valid() && fresh(ops) && fresh(values)
      ensures this.program == program && this.maxCycles == maxCycles && cycles == 0
      ensures view == State(Nil, Nil, Nil, Nil, Cons(block, Nil), Nil, Globals(store, None, 0, pkg, realm, []))
    {
      this.program, this.maxCycles, this.cycles := program, maxCycles, 0;
      ops := new Op[1024];
      numOps := 0;
      values := new Value[1024];
      numValues := 0;
      exprs, stmts, blocks, frames := [], [], [block], [];
      this.store, exception, numResults := store, None, 0;
      this.pkg, this.realm, log := pkg, realm, [];
      view := State(Nil, Nil, Nil, Nil, Cons(block, Nil), Nil, Globals(store, None, 0, pkg, realm, []));
    }

    // -------------------------------------------------------------- push and pop

    /** Doubles the op array when it is full. */
    method GrowOps()
      requires Valid()
      modifies this`ops
      ensures Valid() && Stays() && numOps < ops.Length && ops[..numOps] == old(ops[..numOps])
    {
      if ops.Length == numOps {
        var newOps := new Op[ops.Length * 2];
        forall i | 0 <= i < numOps {
          newOps[i] := ops[i];
        }
        ops := newOps;
        assert ops[..numOps] == old(ops[..numOps]);
        assert values[..numValues] == old(values[..numValues]);
      }
    }

    method PushOp(op: Op)
      requires Valid()
      modifies this, ops
      ensures Valid() && Stays()
      ensures view == GnoMachine.PushOp(old(view), op)
    {
      GrowOps();
      ToListSnoc(ops[..numOps], op);
      ops[numOps] := op;
      numOps := numOps + 1;
      view := GnoMachine.PushOp(view, op);
      assert ops[..numOps] == old(ops[..numOps]) + [op];
      assert values[..numValues] == old(values[..numValues]);
    }

    /** Fetches the top op, which stays if it is sticky. */
    method PopOp() returns (op: Op)
      requires Valid() && view.ops.Cons?
      modifies this
      ensures Valid() && Stays()
      ensures op == old(view).ops.head
      ensures view == if Sticky(op) then old(view) else old(view).(ops := old(view).ops.tail)
    {
      op := ops[numOps - 1];
      if !Sticky(op) {
        ForcePopOp();
      }
    }

    method ForcePopOp()
      requires Valid() && view.ops.Cons?
      modifies this
      ensures Valid() && Stays()
      ensures view == old(view).(ops := old(view).ops.tail)
    {
      assert ops[..numOps][..numOps - 1] == ops[..numOps - 1];
      numOps := numOps - 1;
      view := view.(ops := view.ops.tail);
    }

    /** Doubles the value array when it is full. */
    method GrowValues()
      requires Valid()
      modifies this`values
      ensures Valid() && Stays() && numValues < values.Length && values[..numValues] == old(values[..numValues])
    {
      if values.Length == numValues {
        var newValues := new Value[values.Length * 2];
        forall i | 0 <= i < numValues {
          newValues[i] := values[i];
        }
        values := newValues;
        assert values[..numValues] == old(values[..numValues]);
        assert ops[..numOps] == old(ops[..numOps]);
      }
    }

    method PushValue(v: Value)
      requires Valid()
      modifies this, values
      ensures Valid() && Stays()
      ensures view == GnoMachine.PushValue(old(view), v)
    {
      GrowValues();
      ToListSnoc(values[..numValues], v);
      values[numValues] := v;
      numValues := numValues + 1;
      view := GnoMachine.PushValue(view, v);
      assert values[..numValues] == old(values[..numValues]) + [v];
      assert ops[..numOps] == old(ops[..numOps]);
    }

    method PopValue() returns (v: Value)
      requires Valid() && view.values.Cons?
      modifies this
      ensures Valid() && Stays()
      ensures v == old(view).values.head
      ensures view == old(view).(values := old(view).values.tail)
    {
      assert values[..numValues][..numValues - 1] == values[..numValues - 1];
      v := values[numValues - 1];
      numValues := numValues - 1;
      view := view.(values := view.values.tail);
    }

    method PeekValue() returns (v: Option<Value>)
      requires Valid()
      ensures v == if view.values.Cons? then Some(view.values.head) else None
    {
      v := if numValues > 0 then Some(values[numValues - 1]) else None;
    }

    /** The top `n` values, oldest first. */
    method PopValues(n: nat) returns (vs: seq<Value>)
      requires Valid() && n <= Len(view.values)
      modifies this
      ensures Valid() && Stays()
      ensures vs == TopN(old(view).values, n)
      ensures view == old(view).(values := DropN(old(view).values, n))
    {
      PopToList(values[..numValues], n);
      assert values[..numValues][..numValues - n] == values[..numValues - n];
      numValues := numValues - n;
      vs := values[numValues..numValues + n];
      view := view.(values := DropN(view.values, n));
    }

    /** Overwrites the top value in place. */
    method SetTop(v: Value)
      requires Valid() && view.values.Cons?
      modifies this, values
      ensures Valid() && Stays()
      ensures view == old(view).(values := Cons(v, old(view).values.tail))
    {
      values[numValues - 1] := v;
      view := view.(values := Cons(v, view.values.tail));
      assert values[..numValues][..numValues - 1] == old(values[..numValues])[..numValues - 1];
      assert ops[..numOps] == old(ops[..numOps]);
    }

    /** Pops the values above a depth, oldest first. */
    method ReapValues(start: nat) returns (vs: seq<Value>)
      requires Valid() && start <= Len(view.values)
      modifies this
      ensures Valid() && Stays()
      ensures vs == TopN(old(view).values, Len(old(view).values) - start)
      ensures view == old(view).(values := DropN(old(view).values, Len(old(view).values) - start))
    {
      vs := PopValues(numValues - start);
    }

    method PushExpr(x: Expr)
      requires Valid()
      modifies this
      ensures Valid() && Stays()
      ensures view == old(view).(exprs := Cons(x, old(view).exprs))
    {
      ToListSnoc(exprs, x);
      exprs := exprs + [x];
      view := view.(exprs := Cons(x, view.exprs));
    }

    method PopExpr() returns (x: Expr)
      requires Valid() && view.exprs.Cons?
      modifies this
      ensures Valid() && Stays()
      ensures x == old(view).exprs.head
      ensures view == old(view).(exprs := old(view).exprs.tail)
    {
      x := exprs[|exprs| - 1];
      exprs := exprs[..|exprs| - 1];
      view := view.(exprs := view.exprs.tail);
    }

    method PeekExpr() returns (x: Option<Expr>)
      requires Valid()
      ensures x == if view.exprs.Cons? then Some(view.exprs.head) else None
    {
      x := if exprs != [] then Some(exprs[|exprs| - 1]) else None;
    }

    /** Queues the evaluation of an expression. */
    method PushEval(x: Expr)
      requires Valid()
      modifies this, ops
      ensures Valid() && Stays()
      ensures view == GnoMachine.PushEval(old(view), x)
    {
      hide Valid;
      PushExpr(x);
      PushOp(OpEval);
    }

    /** Queues expressions last to first, so that the first is on top. */
    method PushEvals(es: seq<Expr>)
      requires Valid()
      modifies this, ops
      ensures Valid() && Stays()
      ensures view == GnoMachine.PushEvals(old(view), es)
    {
      hide Valid;
      var i := |es|;
      while i > 0
        invariant 0 <= i <= |es|
        invariant Valid() && Stays()
        invariant view == GnoMachine.PushEvals(old(view), es[i..])
      {
        i := i - 1;
        assert es[i..][1..] == es[i + 1..];
        PushEval(es[i]);
      }
      assert es[0..] == es;
    }

    method PushStmt(s: StmtEntry)
      requires Valid()
      modifies this
      ensures Valid() && Stays()
      ensures view == GnoMachine.PushStmt(old(view), s)
    {
      ToListSnoc(stmts, s);
      stmts := stmts + [s];
      view := GnoMachine.PushStmt(view, s);
    }

    method PeekStmt() returns (s: Option<StmtEntry>)
      requires Valid()
      ensures s == if view.stmts.Cons? then Some(view.stmts.head) else None
    {
      s := if stmts != [] then Some(stmts[|stmts| - 1]) else None;
    }

    /** The record driving a body is updated where it sits, on the statement stack. */
    method SetBody(b: BodyStmt)
      requires Valid() && view.stmts.Cons?
      modifies this
      ensures Valid() && Stays()
      ensures view == old(view).(stmts := Cons(SBody(b), old(view).stmts.tail))
    {
      ToListSnoc(stmts[..|stmts| - 1], SBody(b));
      stmts := stmts[..|stmts| - 1] + [SBody(b)];
      view := view.(stmts := Cons(SBody(b), view.stmts.tail));
    }

    /** Pops a plain statement; a body stays and loses its active statement. */
    method PopStmt() returns (s: Option<Stmt>)
      requires Valid()
      modifies this
      ensures Valid() && Stays()
      ensures s == TopStmt(old(view))
      ensures view == GnoMachine.PopStmt(old(view))
    {
      hide Valid;
      var top := PeekStmt();
      match top {
        case None =>
          s := None;
        case Some(SBody(b)) =>
          s := b.active;
          SetBody(b.(active := None));
        case Some(SStmt(x)) =>
          s := Some(x);
          ForcePopStmt();
      }
    }

    method ForcePopStmt()
      requires Valid() && view.stmts.Cons?
      modifies this
      ensures Valid() && Stays()
      ensures view == old(view).(stmts := old(view).stmts.tail)
    {
      stmts := stmts[..|stmts| - 1];
      view := view.(stmts := view.stmts.tail);
    }

    /** Allocates a block and makes it the last one. */
    method PushBlock(parent: Option<nat>, vals: map<nat, Value>)
      requires Valid()
      modifies this
      ensures Valid() && Stays()
      ensures view == GnoMachine.PushBlock(old(view), parent, vals)
    {
      ToListSnoc(blocks, |store|);
      blocks := blocks + [|store|];
      store := store + [Scope(parent, vals)];
      view := GnoMachine.PushBlock(view, parent, vals);
    }

    method PopBlock()
      requires Valid() && view.blocks.Cons?
      modifies this
      ensures Valid() && Stays()
      ensures view == old(view).(blocks := old(view).blocks.tail)
    {
      blocks := blocks[..|blocks| - 1];
      view := view.(blocks := view.blocks.tail);
    }

    method LastBlock() returns (b: Option<nat>)
      requires Valid()
      ensures b == if view.blocks.Cons? then Some(view.blocks.head) else None
    {
      b := if blocks != [] then Some(blocks[|blocks| - 1]) else None;
    }

    /** The block at an index of the block stack. */
    method BlockAtIndex(n: nat) returns (b: Option<nat>)
      requires Valid()
      ensures b == BlockAt(view.blocks, n)
    {
      if n < |blocks| {
        ChopToList(blocks, n + 1);
        assert blocks[..n + 1][..n] == blocks[..n];
        b := Some(blocks[n]);
      } else {
        b := None;
      }
    }

    // -------------------------------------------------------------- the world

    method SetStore(st: seq<Scope>)
      requires Valid()
      modifies this
      ensures Valid() && Stays()
      ensures view == old(view).(g := old(view).g.(store := st))
    {
      store := st;
      view := view.(g := view.g.(store := st));
    }

    method SetException(ex: Option<Value>)
      requires Valid()
      modifies this
      ensures Valid() && Stays()
      ensures view == old(view).(g := old(view).g.(exc := ex))
    {
      exception := ex;
      view := view.(g := view.g.(exc := ex));
    }

    method Append(e: Event)
      requires Valid()
      modifies this
      ensures Valid() && Stays()
      ensures view == old(view).(g := old(view).g.(events := old(view).g.events + [e]))
    {
      log := log + [e];
      view := view.(g := view.g.(events := view.g.events + [e]));
    }

    method SetPackage(p: nat, r: Option<nat>)
      requires Valid()
      modifies this
      ensures Valid() && Stays()
      ensures view == old(view).(g := old(view).g.(pkg := p, realm := r))
    {
      pkg := p;
      realm := r;
      view := view.(g := view.g.(pkg := p, realm := r));
    }

    method SetNumResults(n: nat)
      requires Valid()
      modifies this
      ensures Valid() && Stays()
      ensures view == old(view).(g := old(view).g.(nres := n))
    {
      numResults := n;
      view := view.(g := view.g.(nres := n));
    }

    /** The fields a handler may read directly. */
    ghost predicate Knows()
      reads this
    {
      && view.g == Globals(store, exception, numResults, pkg, realm, log)
      && Len(view.ops) == numOps && Len(view.values) == numValues
      && Len(view.exprs) == |exprs| && Len(view.stmts) == |stmts| && Len(view.blocks) == |blocks|
      && (view.frames.Nil? <==> frames == []) && Len(view.frames) == |frames|
    }

    lemma Known()
      requires Valid()
      ensures Knows()
    {
    }

    // -------------------------------------------------------------- frames

    method PushFrame(fr: Frame)
      requires Valid()
      modifies this
      ensures Valid() && Stays()
      ensures view == old(view).(frames := Cons(fr, old(view).frames))
    {
      ToListSnoc(frames, fr);
      frames := frames + [fr];
      view := view.(frames := Cons(fr, view.frames));
    }

    method PushFrameBasic(s: Stmt)
      requires Valid() && (s.For? || s.Range?)
      modifies this
      ensures Valid() && Stays()
      ensures view == GnoMachine.PushFrameBasic(old(view), s)
    {
      var fr := Frame(LoopFrame(s.lab, s.Range?, s), numOps, numValues, |exprs|, |stmts|, |blocks|);
      PushFrame(fr);
    }

    method PopFrame() returns (fr: Frame)
      requires Valid() && view.frames.Cons?
      modifies this
      ensures Valid() && Stays()
      ensures fr == old(view).frames.head
      ensures view == old(view).(frames := old(view).frames.tail)
      ensures |frames| == old(|frames|) - 1
    {
      fr := frames[|frames| - 1];
      frames := frames[..|frames| - 1];
      view := view.(frames := view.frames.tail);
    }

    method LastFrame() returns (fr: Option<Frame>)
      requires Valid()
      ensures fr == if view.frames.Cons? then Some(view.frames.head) else None
    {
      fr := if frames != [] then Some(frames[|frames| - 1]) else None;
    }

    method IsDeeper(fr: Frame) returns (b: bool)
      requires Valid()
      ensures b == Deeper(view, fr)
    {
      b := fr.numOps <= numOps && fr.numValues <= numValues && fr.numExprs <= |exprs|
           && fr.numStmts <= |stmts| && fr.numBlocks <= |blocks|;
    }

    /** Every stack but the values cut back to a depth. */
    method CutBack(nOps: nat, nExprs: nat, nStmts: nat, nBlocks: nat)
      requires Valid()
      requires nOps <= Len(view.ops) && nExprs <= Len(view.exprs) && nStmts <= Len(view.stmts) && nBlocks <= Len(view.blocks)
      modifies this
      ensures Valid() && Stays()
      ensures view == old(view).(ops := Chop(old(view).ops, nOps), exprs := Chop(old(view).exprs, nExprs),
                                 stmts := Chop(old(view).stmts, nStmts), blocks := Chop(old(view).blocks, nBlocks))
    {
      ChopToList(ops[..numOps], nOps);
      ChopToList(exprs, nExprs);
      ChopToList(stmts, nStmts);
      ChopToList(blocks, nBlocks);
      assert ops[..numOps][..nOps] == ops[..nOps];
      numOps := nOps;
      exprs, stmts, blocks := exprs[..nExprs], stmts[..nStmts], blocks[..nBlocks];
      view := view.(ops := Chop(view.ops, nOps), exprs := Chop(view.exprs, nExprs),
                    stmts := Chop(view.stmts, nStmts), blocks := Chop(view.blocks, nBlocks));
    }

    method CutValues(nValues: nat)
      requires Valid() && nValues <= Len(view.values)
      modifies this
      ensures Valid() && Stays()
      ensures view == old(view).(values := Chop(old(view).values, nValues))
    {
      ChopToList(values[..numValues], nValues);
      assert values[..numValues][..nValues] == values[..nValues];
      numValues := nValues;
      view := view.(values := Chop(view.values, nValues));
    }

    method PopFrameAndReset() returns (sig: Signal)
      requires Valid()
      modifies this
      ensures Valid() && Stays()
      ensures Tracks(sig, GnoMachine.PopFrameAndReset(old(view)))
    {
      hide Valid;
      var last := LastFrame();
      if last.None? {
        return Failing;
      }
      var deeper := IsDeeper(last.value);
      if !deeper {
        return Failing;
      }
      var fr := PopFrame();
      CutValues(fr.numValues);
      CutBack(fr.numOps, fr.numExprs, fr.numStmts, fr.numBlocks);
      var _ := PopStmt();
      sig := Running;
    }

    /** Back to the loop of the last frame with its body statements done. */
    method PeekFrameAndContinue() returns (sig: Signal)
      requires Valid()
      modifies this
      ensures Valid() && Stays()
      ensures Tracks(sig, GnoMachine.PeekFrameAndContinue(old(view)))
    {
      hide Valid;
      var last := LastFrame();
      if last.None? {
        return Failing;
      }
      var fr := last.value;
      var x := if fr.kind.LoopFrame? && fr.kind.isRange then 1 else 0;
      var inside := IsDeeper(fr.(numOps := fr.numOps + 1, numValues := fr.numValues + x,
                                 numStmts := fr.numStmts + 1, numBlocks := fr.numBlocks + 1));
      if !inside {
        return Failing;
      }
      CutValues(fr.numValues + x);
      CutBack(fr.numOps + 1, fr.numExprs, fr.numStmts + 1, fr.numBlocks + 1);
      var top := PeekStmt();
      match top {
        case Some(SBody(b)) =>
          SetBody(b.(next := |b.body|));
          sig := Running;
        case _ =>
          sig := Failing;
      }
    }

    /** Pops frames up to the loop a break means, and leaves it. */
    method Break(lab: string) returns (sig: Signal)
      requires Valid()
      modifies this
      ensures Valid() && Stays()
      ensures Tracks(sig, DoBreak(old(view), lab))
    {
      hide Valid;
      var fr := LastFrame();
      while fr.Some? && !Targets(fr.value, lab)
        invariant Valid() && Stays()
        invariant fr == if view.frames.Cons? then Some(view.frames.head) else None
        invariant DoBreak(old(view), lab) == DoBreak(view, lab)
        decreases view.frames
      {
        var _ := PopFrame();
        fr := LastFrame();
      }
      if fr.None? {
        return Failing;
      }
      sig := PopFrameAndReset();
    }

    method Continue(lab: string) returns (sig: Signal)
      requires Valid()
      modifies this
      ensures Valid() && Stays()
      ensures Tracks(sig, DoContinue(old(view), lab))
    {
      hide Valid;
      var fr := LastFrame();
      while fr.Some? && !Targets(fr.value, lab)
        invariant Valid() && Stays()
        invariant fr == if view.frames.Cons? then Some(view.frames.head) else None
        invariant DoContinue(old(view), lab) == DoContinue(view, lab)
        decreases view.frames
      {
        var _ := PopFrame();
        fr := LastFrame();
      }
      if fr.None? {
        return Failing;
      }
      sig := PeekFrameAndContinue();
    }

    /** The index of the last call frame, -1 when there is none. */
    method LastCallIndex() returns (i: int)
      requires Valid()
      ensures -1 <= i < |frames|
      ensures i == -1 ==> CallTail(view.frames).Nil?
      ensures i >= 0 ==> CallTail(view.frames) == ToList(frames[..i + 1]) && frames[i].kind.CallFrame?
      ensures forall k | i < k < |frames| :: !frames[k].kind.CallFrame?
    {
      i := |frames| - 1;
      assert frames[..i + 1] == frames;
      while i >= 0
        invariant -1 <= i < |frames|
        invariant CallTail(view.frames) == CallTail(ToList(frames[..i + 1]))
        invariant forall k | i < k < |frames| :: !frames[k].kind.CallFrame?
      {
        assert frames[..i + 1][..i] == frames[..i];
        if frames[i].kind.CallFrame? {
          return;
        }
        i := i - 1;
      }
    }

    method LastCallFrame() returns (fr: Option<Frame>)
      requires Valid()
      ensures fr == if CallTail(view.frames).Cons? then Some(CallTail(view.frames).head) else None
    {
      var i := LastCallIndex();
      fr := if i >= 0 then Some(frames[i]) else None;
    }

    /** Pops loop frames down to the last call frame; without one, pops nothing. */
    method PopUntilLastCallFrame() returns (fr: Option<Frame>)
      requires Valid()
      modifies this
      ensures Valid() && Stays()
      ensures fr == if CallTail(old(view).frames).Cons? then Some(CallTail(old(view).frames).head) else None
      ensures view == if fr.Some? then old(view).(frames := CallTail(old(view).frames)) else old(view)
    {
      var i := LastCallIndex();
      if i >= 0 {
        fr := Some(frames[i]);
        frames := frames[..i + 1];
        view := view.(frames := CallTail(view.frames));
      } else {
        fr := None;
      }
    }

    /** Updates the deferred calls of the last call frame in place. */
    method SetDefersOfLastCall(ds: seq<Deferred>)
      requires Valid()
      modifies this
      ensures Valid() && Stays()
      ensures view == old(view).(frames := SetDefers(old(view).frames, ds))
    {
      var i := LastCallIndex();
      SetDefersAt(frames, i, ds);
      if i >= 0 {
        frames := frames[i := frames[i].(kind := frames[i].kind.(defers := ds))];
      }
      view := view.(frames := SetDefers(view.frames, ds));
    }

    /** The realm is finalized at a return that leaves it or the machine. */
    method FinalizeRealm(last: Option<nat>, outermost: bool)
      requires Valid()
      modifies this
      ensures Valid() && Stays()
      ensures view == old(view).(g := Finalize(old(view).g, last, outermost))
    {
      hide Valid;
      Known();
      if realm.Some? {
        var finalize := false;
        if outermost {
          finalize := true;
        } else if realm != last {
          finalize := true;
        }
        if finalize {
          Append(Finalized(realm.value));
        }
      }
    }

    /** Moves the top `n` values down to index `at`, front to back; the two ranges
        may overlap. */
    method ShiftValues(at: nat, n: nat)
      requires numValues <= values.Length && at + n <= numValues
      modifies values
      ensures values[..at + n] == Shifted(old(values[..numValues]), at, n)
    {
      var start := numValues - n;
      ghost var was := values[..numValues];
      ghost var want := Shifted(was, at, n);
      var i := 0;
      while i < n
        invariant 0 <= i <= n
        invariant forall k | 0 <= k < at + i :: values[k] == want[k]
        invariant forall k | start + i <= k < numValues :: values[k] == was[k]
      {
        assert want[at + i] == was[start + i];
        values[at + i] := values[start + i];
        i := i + 1;
      }
    }

    /** Only the value stack was changed, to `vs`. */
    twostate lemma Refits(vs: seq<Value>)
      requires old(Valid())
      requires ops == old(ops) && numOps == old(numOps) && unchanged(ops)
      requires 0 < values.Length && numValues <= values.Length && values[..numValues] == vs
      requires exprs == old(exprs) && stmts == old(stmts) && blocks == old(blocks) && frames == old(frames)
      requires store == old(store) && exception == old(exception) && numResults == old(numResults)
      requires pkg == old(pkg) && realm == old(realm) && log == old(log)
      requires view == old(view).(values := ToList(vs)) && values == old(values) && cycles == old(cycles)
      ensures Valid() && Stays()
    {
      assert ops[..numOps] == old(ops[..numOps]);
    }

    lemma ValuesAre()
      requires Valid()
      ensures 0 < values.Length && Len(view.values) == numValues <= values.Length
      ensures view.values == ToList(values[..numValues])
    {
    }

    method ShiftDown(at: nat, n: nat)
      requires Valid() && at + n <= Len(view.values)
      modifies this, values
      ensures Valid() && Stays()
      ensures view == old(view).(values := PushAll(Chop(old(view).values, at), TopN(old(view).values, n)))
    {
      hide *;
      ValuesAre();
      ghost var was := values[..numValues];
      ShiftedIsPushed(was, at, n);
      ShiftValues(at, n);
      numValues := at + n;
      view := view.(values := ToList(Shifted(was, at, n)));
      Refits(Shifted(was, at, n));
    }

    /** Leaves the function of the last frame with its results on the caller's values. */
    method PopFrameAndReturn() returns (sig: Signal)
      requires Valid()
      modifies this, values
      ensures Valid() && Stays()
      ensures Tracks(sig, GnoMachine.PopFrameAndReturn(program, old(view)))
    {
      hide Valid;
      var last := LastFrame();
      if last.None? {
        return Failing;
      }
      if !(last.value.kind.CallFrame? && program.IsFunc(last.value.kind.fv)) {
        return Failing;
      }
      var n := |program.FuncOf(last.value.kind.fv).defaults|;
      var deeper := IsDeeper(last.value);
      Known();
      if !(deeper && last.value.numValues + n <= numValues) {
        return Failing;
      }
      assert Len(view.frames) == 1 + Len(view.frames.tail);
      FinalizeRealm(last.value.kind.lastRealm, |frames| == 1);
      var fr := PopFrame();
      ShiftDown(fr.numValues, n);
      CutBack(fr.numOps, fr.numExprs, fr.numStmts, fr.numBlocks);
      SetNumResults(n);
      SetPackage(fr.kind.lastPkg, fr.kind.lastRealm);
      sig := Running;
    }

    // -------------------------------------------------------------- statements

    method Queue(s: StmtEntry, op: Op)
      requires Valid()
      modifies this, ops
      ensures Valid() && Stays()
      ensures view == GnoMachine.PushStmt(GnoMachine.PushOp(old(view), op), s)
    {
      hide Valid;
      PushOp(op);
      PushStmt(s);
    }

    method QueueInitStmt(init: Option<Simple>)
      requires Valid()
      modifies this, ops
      ensures Valid() && Stays()
      ensures view == QueueInit(old(view), init)
    {
      hide Valid;
      if init.Some? {
        Queue(SStmt(Basic(init.value)), OpExec);
      }
    }

    method QueueCondExpr(cnd: Option<Expr>)
      requires Valid()
      modifies this, ops
      ensures Valid() && Stays()
      ensures view == QueueCond(old(view), cnd)
    {
      hide Valid;
      if cnd.Some? {
        PushEval(cnd.value);
      }
    }

    method ExecFor(s: Stmt) returns (sig: Signal)
      requires Valid() && (s.For? || s.Range?)
      modifies this, ops
      ensures Valid() && Stays()
      ensures Tracks(sig, ExecSwitch(program, old(view), s))
    {
      hide Valid;
      var b := LastBlock();
      if b.None? {
        return Failing;
      }
      PushFrameBasic(s);
      PushBlock(Some(b.value), map[]);
      if s.For? {
        Queue(SBody(NewLoopBody(s)), OpForLoop);
        QueueCondExpr(s.cnd);
        QueueInitStmt(s.init);
      } else {
        Queue(SBody(NewLoopBody(s)), OpRangeIter);
        PushEval(s.x);
      }
      sig := Running;
    }

    method ExecIfOrBlock(s: Stmt) returns (sig: Signal)
      requires Valid() && (s.If? || s.Block?)
      modifies this, ops
      ensures Valid() && Stays()
      ensures Tracks(sig, ExecSwitch(program, old(view), s))
    {
      hide Valid;
      var b := LastBlock();
      if b.None? {
        return Failing;
      }
      PushBlock(Some(b.value), map[]);
      PushOp(OpPopBlock);
      if s.If? {
        PushOp(OpIfCond);
        PushEval(s.cond);
        QueueInitStmt(s.init);
      } else {
        Queue(SBody(PlainBody(s.body)), OpBody);
      }
      sig := Running;
    }

    method ExecReturn(es: seq<Expr>) returns (sig: Signal)
      requires Valid()
      modifies this, ops
      ensures Valid() && Stays()
      ensures Tracks(sig, DoReturnStmt(program, old(view), es))
    {
      hide Valid;
      var fr := LastCallFrame();
      if fr.None? {
        return Failing;
      }
      if !(fr.value.kind.CallFrame? && program.IsFunc(fr.value.kind.fv)) {
        return Failing;
      }
      var hasDefers := |fr.value.kind.defers| > 0;
      var hasResults := |program.FuncOf(fr.value.kind.fv).defaults| > 0;
      if hasDefers {
        PushOp(OpReturnFromBlock);
        PushOp(OpReturnCallDefers);
        if es != [] && hasResults {
          PushOp(OpReturnToBlock);
        }
      } else if es == [] {
        PushOp(OpReturnFromBlock);
      } else {
        PushOp(OpReturn);
      }
      PushEvals(es);
      sig := Running;
    }

    /** The statement switch that OpExec, OpBody and the loop ops jump to. */
    method ExecStmt(s: Stmt) returns (sig: Signal)
      requires Valid()
      modifies this, ops
      ensures Valid() && Stays()
      ensures Tracks(sig, ExecSwitch(program, old(view), s))
    {
      hide Valid;
      sig := Running;
      match s {
        case Basic(Assign(_, rhs)) =>
          PushOp(OpAssign);
          PushEval(rhs);
        case Basic(ExprStmt(x)) =>
          var _ := PopStmt();
          PushOp(if x.Call? then OpPopResults else OpPopValue);
          PushEval(x);
        case Block(_) => sig := ExecIfOrBlock(s);
        case If(_, _, _, _) => sig := ExecIfOrBlock(s);
        case For(_, _, _, _, _) => sig := ExecFor(s);
        case Range(_, _, _, _, _) => sig := ExecFor(s);
        case Break(lab) => sig := Break(lab);
        case Continue(lab) => sig := Continue(lab);
        case Return(es) =>
          var _ := PopStmt();
          sig := ExecReturn(es);
        case Panic(ex) =>
          var _ := PopStmt();
          PushOp(OpPanic1);
          PushEval(ex);
        case Defer(fn, args) =>
          PushOp(OpDefer);
          PushEvals(args);
          PushEval(fn);
      }
    }

    /** Marks the next statement of the body active and executes it. */
    method ExecNextStmt(b: BodyStmt) returns (sig: Signal)
      requires Valid() && view.stmts.Cons? && 0 <= b.next < |b.body|
      modifies this, ops
      ensures Valid() && Stays()
      ensures Tracks(sig, ExecNext(program, old(view), b))
    {
      hide Valid, ExecSwitch;
      var s := b.body[b.next];
      SetBody(b.(next := b.next + 1, active := Some(s)));
      sig := ExecStmt(s);
    }

    // -------------------------------------------------------------- op handlers

    method DoOpExec() returns (sig: Signal)
      requires Valid()
      modifies this, ops
      ensures Valid() && Stays()
      ensures Tracks(sig, GnoMachine.DoOpExec(program, old(view)))
    {
      hide Valid, ExecSwitch;
      var top := PeekStmt();
      match top {
        case Some(SStmt(s)) => sig := ExecStmt(s);
        case _ => sig := Failing;
      }
    }

    method DoOpBody() returns (sig: Signal)
      requires Valid()
      modifies this, ops
      ensures Valid() && Stays()
      ensures Tracks(sig, GnoMachine.DoOpBody(program, old(view)))
    {
      hide Valid, ExecNext;
      var top := PeekStmt();
      if !(top.Some? && top.value.SBody?) {
        return Failing;
      }
      var b := top.value.b;
      if b.next == -2 {
        b := b.(next := 0);
      }
      if 0 <= b.next < |b.body| {
        sig := ExecNextStmt(b);
      } else {
        Known();
        if numOps == 0 {
          return Failing;
        }
        ForcePopOp();
        ForcePopStmt();
        sig := Running;
      }
    }

    method ExecBodyOrPost(b: BodyStmt) returns (sig: Signal)
      requires Valid() && view.stmts.Cons? && 0 <= b.next
      modifies this, ops
      ensures Valid() && Stays()
      ensures Tracks(sig, LoopBodyOrPost(program, old(view), b))
    {
      hide Valid, ExecNext, ExecSwitch;
      if b.next < |b.body| {
        sig := ExecNextStmt(b);
      } else if b.next == |b.body| {
        QueueCondExpr(b.cnd);
        match b.post {
          case None =>
            SetBody(b.(next := -1, active := None));
            sig := Running;
          case Some(s) =>
            SetBody(b.(next := -1, active := Some(Basic(s))));
            sig := ExecStmt(Basic(s));
        }
      } else {
        sig := Failing;
      }
    }

    method DoOpForLoop() returns (sig: Signal)
      requires Valid()
      modifies this, ops
      ensures Valid() && Stays()
      ensures Tracks(sig, GnoMachine.DoOpForLoop(program, old(view)))
    {
      hide Valid, LoopBodyOrPost, GnoMachine.PopFrameAndReset;
      var top := PeekStmt();
      if !(top.Some? && top.value.SBody?) {
        return Failing;
      }
      var b := top.value.b;
      if b.next == -2 {
        b := b.(next := -1);
      }
      if b.next == -1 {
        if b.cnd.Some? {
          var cond := PeekValue();
          if !(cond.Some? && cond.value.VBool?) {
            return Failing;
          }
          var _ := PopValue();
          if !cond.value.b {
            SetBody(b);
            sig := PopFrameAndReset();
            return;
          }
        }
        b := b.(next := 0);
      }
      if b.next < 0 {
        return Failing;
      }
      sig := ExecBodyOrPost(b);
    }

    method AssignVar(p: Option<Path>, v: Value) returns (ok: bool)
      requires Valid() && view.blocks.Cons?
      modifies this
      ensures Valid() && Stays()
      ensures var st := WriteOpt(old(view).g.store, old(view).blocks.head, p, v);
              ok == st.Some? && view == if ok then old(view).(g := old(view).g.(store := st.value)) else old(view)
    {
      hide Valid, Write;
      Known();
      var b := LastBlock();
      var st := WriteOpt(store, b.value, p, v);
      ok := st.Some?;
      if ok {
        SetStore(st.value);
      }
    }

    method ExecRangeBody(b: BodyStmt) returns (sig: Signal)
      requires Valid() && view.stmts.Cons? && 0 <= b.next
      modifies this, ops
      ensures Valid() && Stays()
      ensures Tracks(sig, RangeBody(program, old(view), b))
    {
      hide Valid, ExecNext, GnoMachine.PopFrameAndReset;
      if b.next < |b.body| {
        sig := ExecNextStmt(b);
      } else if b.next == |b.body| {
        if b.listIndex < b.listLen - 1 {
          SetBody(b.(listIndex := b.listIndex + 1, next := -1, active := None));
          sig := Running;
        } else {
          sig := PopFrameAndReset();
        }
      } else {
        sig := Failing;
      }
    }

    method DoOpRangeIter() returns (sig: Signal)
      requires Valid()
      modifies this, ops
      ensures Valid() && Stays()
      ensures Tracks(sig, GnoMachine.DoOpRangeIter(program, old(view)))
    {
      hide Valid, RangeBody, GnoMachine.PopFrameAndReset, WriteOpt;
      var top := PeekStmt();
      var xv := PeekValue();
      if !(top.Some? && top.value.SBody? && xv.Some? && xv.value.VList?) {
        return Failing;
      }
      var b, elems := top.value.b, xv.value.elems;
      if b.next == -2 {
        if |elems| == 0 {
          sig := PopFrameAndReset();
          return;
        }
        b := b.(listLen := |elems|, next := -1);
      }
      if b.next == -1 {
        var blk := LastBlock();
        if !(0 <= b.listIndex < |elems|) || blk.None? {
          return Failing;
        }
        var ok := AssignVar(b.key, VInt(Int, b.listIndex));
        if !ok {
          return Failing;
        }
        ok := AssignVar(b.val, elems[b.listIndex]);
        if !ok {
          return Failing;
        }
        b := b.(next := 0);
      }
      if b.next < 0 {
        return Failing;
      }
      sig := ExecRangeBody(b);
    }

    method DoOpIfCond() returns (sig: Signal)
      requires Valid()
      modifies this, ops
      ensures Valid() && Stays()
      ensures Tracks(sig, GnoMachine.DoOpIfCond(old(view)))
    {
      hide Valid;
      var s := PopStmt();
      var cond := PeekValue();
      if !(s.Some? && s.value.If? && cond.Some? && cond.value.VBool?) {
        return Failing;
      }
      var _ := PopValue();
      var body := if cond.value.b then s.value.thn else s.value.els;
      if body != [] {
        Queue(SBody(PlainBody(body)), OpBody);
      }
      sig := Running;
    }

    method DoOpEval() returns (sig: Signal)
      requires Valid()
      modifies this, ops, values
      ensures Valid() && Stays()
      ensures Tracks(sig, GnoMachine.DoOpEval(old(view)))
    {
      hide Valid, Load;
      sig := Running;
      var x := PeekExpr();
      match x {
        case None => sig := Failing;
        case Some(Const(v)) =>
          var _ := PopExpr();
          PushValue(v);
        case Some(Name(p)) =>
          var b := LastBlock();
          if b.None? {
            return Failing;
          }
          Known();
          var v := Load(store, b.value, p);
          if v.None? {
            return Failing;
          }
          var _ := PopExpr();
          PushValue(v.value);
        case Some(Unary(op, y)) =>
          PushOp(OpUnary(op));
          PushEval(y);
        case Some(Binary(op, l, r)) =>
          PushOp(OpBinary(op));
          PushEval(r);
          PushEval(l);
        case Some(And(l, _)) =>
          PushOp(OpBinary1);
          PushEval(l);
        case Some(Or(l, _)) =>
          PushOp(OpBinary1);
          PushEval(l);
        case Some(FuncLit(_)) =>
          PushOp(OpFuncLit);
          PushEval(Const(VType));
        case Some(Call(fn, args)) =>
          PushOp(OpPrecall);
          PushEvals(args);
          PushEval(fn);
      }
    }

    method DoOpUnary(op: UnaryOp) returns (sig: Signal)
      requires Valid()
      modifies this, values
      ensures Valid() && Stays()
      ensures Tracks(sig, GnoMachine.DoOpUnary(old(view), op))
    {
      hide Valid, ApplyUnary;
      var ux := PeekExpr();
      var xv := PeekValue();
      if ux.None? || xv.None? {
        return Failing;
      }
      var r := ApplyUnary(op, xv.value);
      if r.None? {
        return Failing;
      }
      var _ := PopExpr();
      SetTop(r.value);
      sig := Running;
    }

    method DoOpBinary(op: BinaryOp) returns (sig: Signal)
      requires Valid()
      modifies this, values
      ensures Valid() && Stays()
      ensures Tracks(sig, GnoMachine.DoOpBinary(old(view), op))
    {
      hide Valid, ApplyBinary;
      var bx := PeekExpr();
      var rv := PeekValue();
      if bx.None? || rv.None? {
        return Failing;
      }
      var _ := PopExpr();
      var _ := PopValue();
      var lv := PeekValue();
      if lv.None? {
        return Failing;
      }
      var r := ApplyBinary(op, lv.value, rv.value);
      if r.None? {
        return Failing;
      }
      SetTop(r.value);
      sig := Running;
    }

    method DoOpBinary1() returns (sig: Signal)
      requires Valid()
      modifies this, ops
      ensures Valid() && Stays()
      ensures Tracks(sig, GnoMachine.DoOpBinary1(old(view)))
    {
      hide Valid;
      var bx := PeekExpr();
      var res := PeekValue();
      if !(bx.Some? && res.Some? && res.value.VBool?) {
        return Failing;
      }
      match bx.value {
        case And(_, r) =>
          var _ := PopExpr();
          if res.value.b {
            PushOp(OpLand);
            PushEval(r);
          }
          sig := Running;
        case Or(_, r) =>
          var _ := PopExpr();
          if !res.value.b {
            PushOp(OpLor);
            PushEval(r);
          }
          sig := Running;
        case _ => sig := Failing;
      }
    }

    method DoOpLogic(and: bool) returns (sig: Signal)
      requires Valid()
      modifies this, values
      ensures Valid() && Stays()
      ensures Tracks(sig, GnoMachine.DoOpLogic(old(view), and))
    {
      hide Valid;
      var rv := PeekValue();
      if !(rv.Some? && rv.value.VBool?) {
        return Failing;
      }
      var _ := PopValue();
      var lv := PeekValue();
      if !(lv.Some? && lv.value.VBool?) {
        return Failing;
      }
      SetTop(VBool(if and then lv.value.b && rv.value.b else lv.value.b || rv.value.b));
      sig := Running;
    }

    method DoOpFuncLit() returns (sig: Signal)
      requires Valid()
      modifies this, values
      ensures Valid() && Stays()
      ensures Tracks(sig, GnoMachine.DoOpFuncLit(old(view)))
    {
      hide Valid;
      var x := PeekExpr();
      var t := PeekValue();
      var b := LastBlock();
      if !(x.Some? && x.value.FuncLit? && t.Some? && b.Some?) {
        return Failing;
      }
      Known();
      var fv := VFunc(x.value.fid, b.value, pkg);
      var _ := PopExpr();
      SetTop(fv);
      sig := Running;
    }

    method DoOpAssign() returns (sig: Signal)
      requires Valid()
      modifies this
      ensures Valid() && Stays()
      ensures Tracks(sig, GnoMachine.DoOpAssign(old(view)))
    {
      hide Valid, Write;
      var s := PopStmt();
      var v := PeekValue();
      var b := LastBlock();
      if !(s.Some? && s.value.Basic? && s.value.s.Assign? && v.Some? && b.Some?) {
        return Failing;
      }
      var ok := AssignVar(Some(s.value.s.path), v.value);
      if !ok {
        return Failing;
      }
      var _ := PopValue();
      sig := Running;
    }

    // -------------------------------------------------------------- calls

    /** Pushes a call frame and enters the callee's package and realm. */
    method PushFrameCall(fv: Value, numArgs: nat)
      requires Valid() && program.IsFunc(fv) && numArgs < Len(view.values)
      modifies this
      ensures Valid() && Stays()
      ensures var m := old(view);
              var fr := Frame(CallFrame(fv, [], m.g.pkg, m.g.realm), Len(m.ops), Len(m.values) - numArgs - 1,
                              Len(m.exprs), Len(m.stmts), Len(m.blocks));
              var rlm := program.RealmOf(fv.pkg);
              view == m.(frames := Cons(fr, m.frames),
                         g := m.g.(pkg := fv.pkg, realm := if rlm.Some? then rlm else m.g.realm))
    {
      hide Valid;
      Known();
      PushFrame(Frame(CallFrame(fv, [], pkg, realm), numOps, numValues - numArgs - 1, |exprs|, |stmts|, |blocks|));
      Known();
      var rlm := program.RealmOf(fv.pkg);
      if rlm.Some? && realm != rlm {
        SetPackage(fv.pkg, rlm);
      } else {
        SetPackage(fv.pkg, realm);
      }
    }

    method DoOpPrecall() returns (sig: Signal)
      requires Valid()
      modifies this, ops
      ensures Valid() && Stays()
      ensures Tracks(sig, GnoMachine.DoOpPrecall(program, old(view)))
    {
      hide Valid;
      var cx := PeekExpr();
      if !(cx.Some? && cx.value.Call?) {
        return Failing;
      }
      Known();
      var numArgs := |cx.value.args|;
      if numValues <= numArgs {
        return Failing;
      }
      var fv := PeekValueAt(numArgs);
      if !program.IsFunc(fv) {
        return Failing;
      }
      var _ := PopExpr();
      PushFrameCall(fv, numArgs);
      PushOp(OpCall);
      sig := Running;
    }

    method PeekValueAt(n: nat) returns (v: Value)
      requires Valid() && n < Len(view.values)
      ensures v == DropN(view.values, n).head
    {
      PopToList(values[..numValues], n);
      assert values[..numValues][..numValues - n] == values[..numValues - n];
      v := values[numValues - 1 - n];
    }

    /** The variables of a new function block: default results, then parameters. */
    method FunctionSlots(fn: Func, args: seq<Value>) returns (vals: map<nat, Value>)
      requires |args| == fn.numParams
      ensures vals == SlotMap(args, 0) + SlotMap(fn.defaults, fn.numParams)
    {
      vals := map[];
      var i := 0;
      while i < |fn.defaults|
        invariant 0 <= i <= |fn.defaults|
        invariant vals == SlotMap(fn.defaults[..i], fn.numParams)
      {
        assert fn.defaults[..i + 1][..i] == fn.defaults[..i];
        vals := vals[fn.numParams + i := fn.defaults[i]];
        i := i + 1;
      }
      assert fn.defaults[..i] == fn.defaults;
      i := 0;
      SlotMapDomain(fn.defaults, fn.numParams);
      while i < |args|
        invariant 0 <= i <= |args|
        invariant vals == SlotMap(args[..i], 0) + SlotMap(fn.defaults, fn.numParams)
      {
        assert args[..i + 1][..i] == args[..i];
        SlotMapDomain(args[..i], 0);
        vals := vals[i := args[i]];
        i := i + 1;
      }
      assert args[..i] == args;
    }

    method DoOpCall() returns (sig: Signal)
      requires Valid()
      modifies this, ops
      ensures Valid() && Stays()
      ensures Tracks(sig, GnoMachine.DoOpCall(program, old(view)))
    {
      hide Valid, SlotMap;
      var fr := LastFrame();
      if !(fr.Some? && fr.value.kind.CallFrame? && program.IsFunc(fr.value.kind.fv)) {
        return Failing;
      }
      var fv := fr.value.kind.fv;
      var fn := program.FuncOf(fv);
      Known();
      if numValues < fn.numParams {
        return Failing;
      }
      var args := PopValues(fn.numParams);
      var vals := FunctionSlots(fn, args);
      PushBlock(Some(fv.closure), vals);
      if fn.native {
        PushOp(OpReturn);
        PushOp(OpCallNativeBody);
      } else {
        if fn.defaults == [] {
          Queue(SStmt(Return([])), OpExec);
        }
        Queue(SBody(PlainBody(fn.body)), OpBody);
      }
      sig := Running;
    }

    /** `recover`. */
    method DoOpCallNativeBody() returns (sig: Signal)
      requires Valid()
      modifies this, values
      ensures Valid() && Stays()
      ensures Tracks(sig, GnoMachine.DoOpCallNativeBody(old(view)))
    {
      hide Valid;
      Known();
      if exception.None? {
        PushValue(VUndef);
      } else {
        var ex := exception.value;
        PushValue(ex);
        SetException(None);
      }
      sig := Running;
    }

    method DoOpReturn() returns (sig: Signal)
      requires Valid()
      modifies this, values
      ensures Valid() && Stays()
      ensures Tracks(sig, GnoMachine.DoOpReturn(program, old(view)))
    {
      hide Valid;
      var fr := PopUntilLastCallFrame();
      if fr.None? {
        return Failing;
      }
      sig := PopFrameAndReturn();
    }

    /** Copies the results from the function block to the value stack. */
    method PushResults(b: nat, fn: Func)
      requires Valid()
      modifies this, values
      ensures Valid() && Stays()
      ensures view == old(view).(values := PushAll(old(view).values, ReadResults(old(view).g.store, b, fn)))
    {
      hide Valid, PushAll;
      ghost var st, res := view.g.store, ReadResults(view.g.store, b, fn);
      Known();
      PushAllNone(view.values);
      var i := 0;
      while i < |fn.defaults|
        invariant 0 <= i <= |fn.defaults| && Valid() && Stays() && Knows()
        invariant view == old(view).(values := PushAll(old(view).values, res[..i]))
      {
        assert store == st;
        PushAllSnoc(old(view).values, res[..i], res[i]);
        assert res[..i + 1] == res[..i] + [res[i]];
        PushValue(ReadSlot(store, b, fn.numParams + i));
        Known();
        i := i + 1;
      }
      assert res[..i] == res;
    }

    method DoOpReturnFromBlock() returns (sig: Signal)
      requires Valid()
      modifies this, values
      ensures Valid() && Stays()
      ensures Tracks(sig, GnoMachine.DoOpReturnFromBlock(program, old(view)))
    {
      hide Valid, GnoMachine.PopFrameAndReturn, ReadResults, PushAll, BlockAt;
      var fr := PopUntilLastCallFrame();
      if !(fr.Some? && fr.value.kind.CallFrame? && program.IsFunc(fr.value.kind.fv)) {
        return Failing;
      }
      var fblock := BlockAtIndex(fr.value.numBlocks);
      if fblock.None? {
        return Failing;
      }
      PushResults(fblock.value, program.FuncOf(fr.value.kind.fv));
      sig := PopFrameAndReturn();
    }

    /** The slots of a block after the results were written over them. */
    method OverwriteSlots(vals: map<nat, Value>, from: nat, vs: seq<Value>) returns (r: map<nat, Value>)
      ensures r == vals + SlotMap(vs, from)
    {
      r := vals;
      var i := 0;
      while i < |vs|
        invariant 0 <= i <= |vs|
        invariant r == vals + SlotMap(vs[..i], from)
      {
        assert vs[..i + 1][..i] == vs[..i];
        r := r[from + i := vs[i]];
        i := i + 1;
      }
      assert vs[..i] == vs;
    }

    method DoOpReturnToBlock() returns (sig: Signal)
      requires Valid()
      modifies this
      ensures Valid() && Stays()
      ensures Tracks(sig, GnoMachine.DoOpReturnToBlock(program, old(view)))
    {
      hide Valid, SlotMap, BlockAt;
      var fr := LastCallFrame();
      if !(fr.Some? && fr.value.kind.CallFrame? && program.IsFunc(fr.value.kind.fv)) {
        return Failing;
      }
      var fn := program.FuncOf(fr.value.kind.fv);
      Known();
      if numValues < |fn.defaults| {
        return Failing;
      }
      var fblock := BlockAtIndex(fr.value.numBlocks);
      if fblock.None? {
        return Failing;
      }
      var results := PopValues(|fn.defaults|);
      Known();
      var b := fblock.value;
      if b < |store| {
        var vals := OverwriteSlots(store[b].vals, fn.numParams, results);
        SetStore(store[b := store[b].(vals := vals)]);
      }
      sig := Running;
    }

    /** Takes the last deferred call off the current function. */
    method PopDefer() returns (d: Option<Deferred>)
      requires Valid() && CallTail(view.frames).Cons? && CallTail(view.frames).head.kind.CallFrame?
      modifies this
      ensures Valid() && Stays()
      ensures var ds := CallTail(old(view).frames).head.kind.defers;
              if ds == [] then d.None? && view == old(view)
              else d == Some(ds[|ds| - 1]) && view == old(view).(frames := SetDefers(old(view).frames, ds[..|ds| - 1]))
    {
      hide Valid;
      var fr := LastCallFrame();
      var ds := fr.value.kind.defers;
      if |ds| > 0 {
        d := Some(ds[|ds| - 1]);
        SetDefersOfLastCall(ds[..|ds| - 1]);
      } else {
        d := None;
      }
    }

    method DoOpReturnCallDefers() returns (sig: Signal)
      requires Valid()
      modifies this, ops
      ensures Valid() && Stays()
      ensures Tracks(sig, GnoMachine.DoOpReturnCallDefers(program, old(view)))
    {
      hide Valid, SetDefers, BlockAt, SlotMap;
      var fr := LastCallFrame();
      if !(fr.Some? && fr.value.kind.CallFrame?) {
        return Failing;
      }
      var dfr := PopDefer();
      if dfr.None? {
        sig := DefersDone();
        return;
      }
      var d := dfr.value;
      if !program.IsFunc(d.fv) || program.FuncOf(d.fv).native {
        return Failing;
      }
      var fblock := BlockAtIndex(fr.value.numBlocks);
      if fblock.None? {
        return Failing;
      }
      Append(RanDefer(fblock.value, |fr.value.kind.defers| - 1, d));
      var vals := OverwriteSlots(map[], 0, d.args);
      assert vals == SlotMap(d.args, 0);
      PushBlock(Some(d.parent), vals);
      Queue(SBody(PlainBody(program.FuncOf(d.fv).body)), OpBody);
      sig := Running;
    }

    /** No deferred call is left; while panicking the function's frame goes too. */
    method DefersDone() returns (sig: Signal)
      requires Valid() && CallTail(view.frames).Cons? && CallTail(view.frames).head.kind.CallFrame?
      requires CallTail(view.frames).head.kind.defers == []
      modifies this
      ensures Valid() && Stays()
      ensures Tracks(sig, GnoMachine.DoOpReturnCallDefers(program, old(view)))
    {
      hide Valid;
      Known();
      if numOps == 0 {
        return Failing;
      }
      ForcePopOp();
      Known();
      if exception.Some? {
        if frames == [] {
          return Failing;
        }
        var _ := PopFrame();
      }
      sig := Running;
    }

    method DoOpDefer() returns (sig: Signal)
      requires Valid()
      modifies this
      ensures Valid() && Stays()
      ensures Tracks(sig, GnoMachine.DoOpDefer(program, old(view)))
    {
      hide Valid, SetDefers, ActOf, BlockAt, DefersOf, TopN;
      var lb := LastBlock();
      var cfr := LastCallFrame();
      var ds := PopStmt();
      if !(ds.Some? && ds.value.Defer? && cfr.Some? && lb.Some?) {
        return Failing;
      }
      var callee := PopFuncAndArgs(|ds.value.args|);
      if callee.None? || !program.IsFunc(callee.value.0) {
        return Failing;
      }
      var d := Deferred(callee.value.0, callee.value.1, lb.value);
      SameAct(old(view), view);
      PushDefer(cfr.value, d);
      sig := Running;
    }

    /** Pops `n` arguments and the function below them. */
    method PopFuncAndArgs(n: nat) returns (r: Option<(Value, seq<Value>)>)
      requires Valid()
      modifies this
      ensures Valid() && Stays()
      ensures r.None? <==> Len(old(view).values) <= n
      ensures r.None? ==> view == old(view)
      ensures r.Some? ==> r.value == (DropN(old(view).values, n).head, TopN(old(view).values, n))
      ensures r.Some? ==> view == old(view).(values := DropN(old(view).values, n).tail)
    {
      hide Valid;
      Known();
      if numValues <= n {
        return None;
      }
      var args := PopValues(n);
      var fn := PopValue();
      r := Some((fn, args));
    }

    /** Appends a call to those deferred by the function of frame `fr`. */
    method PushDefer(fr: Frame, d: Deferred)
      requires Valid() && CallTail(view.frames).Cons? && CallTail(view.frames).head == fr
      modifies this
      ensures Valid() && Stays()
      ensures var m, ds := old(view), DefersOf(old(view).frames);
              view == m.(frames := SetDefers(m.frames, ds + [d]),
                         g := m.g.(events := m.g.events + [Pushed(ActOf(m), |ds|, d)]))
    {
      hide Valid, BlockAt, SetDefers;
      var fblock := BlockAtIndex(fr.numBlocks);
      var act := if fblock.Some? then fblock.value else 0;
      var pending := if fr.kind.CallFrame? then fr.kind.defers else [];
      Append(Pushed(act, |pending|, d));
      SetDefersOfLastCall(pending + [d]);
    }

    method DoOpPanic1() returns (sig: Signal)
      requires Valid()
      modifies this, ops
      ensures Valid() && Stays()
      ensures Tracks(sig, GnoMachine.DoOpPanic1(old(view)))
    {
      hide Valid;
      var ex := PeekValue();
      if ex.None? {
        return Failing;
      }
      var _ := PopValue();
      SetException(ex);
      var _ := PopUntilLastCallFrame();
      PushOp(OpPanic2);
      PushOp(OpReturnCallDefers);
      sig := Running;
    }

    method DoOpPanic2() returns (sig: Signal)
      requires Valid()
      modifies this, ops
      ensures Valid() && Stays()
      ensures Tracks(sig, GnoMachine.DoOpPanic2(old(view)))
    {
      hide Valid;
      Known();
      if exception.None? {
        PushOp(OpReturnFromBlock);
        PushOp(OpReturnCallDefers);
      } else {
        var ex := exception.value;
        var last := PopUntilLastCallFrame();
        if last.None? {
          return Escaping(ex);
        }
        PushOp(OpPanic2);
        PushOp(OpReturnCallDefers);
      }
      sig := Running;
    }

    method PopResults() returns (sig: Signal)
      requires Valid()
      modifies this
      ensures Valid() && Stays()
      ensures Tracks(sig, DoPopResults(old(view)))
    {
      hide Valid;
      Known();
      if numValues < numResults {
        return Failing;
      }
      var _ := PopValues(numResults);
      SetNumResults(0);
      sig := Running;
    }

    // -------------------------------------------------------------- the run loop

    method DoOp(op: Op) returns (sig: Signal)
      requires Valid()
      modifies this, ops, values
      ensures Valid() && Stays()
      ensures Tracks(sig, Dispatch(program, old(view), op))
    {
      hide Valid, GnoMachine.DoOpExec, GnoMachine.DoOpPrecall, GnoMachine.DoOpCall, GnoMachine.DoOpCallNativeBody,
        GnoMachine.DoOpReturn, GnoMachine.DoOpReturnFromBlock, GnoMachine.DoOpReturnToBlock, GnoMachine.DoOpDefer,
        GnoMachine.DoOpPanic1, GnoMachine.DoOpPanic2, GnoMachine.DoOpIfCond, DoPopResults, GnoMachine.DoOpUnary,
        GnoMachine.DoOpBinary, GnoMachine.DoOpLogic, GnoMachine.DoOpBinary1, GnoMachine.DoOpEval, GnoMachine.DoOpFuncLit,
        GnoMachine.DoOpAssign, GnoMachine.DoOpBody, GnoMachine.DoOpForLoop, GnoMachine.DoOpRangeIter,
        GnoMachine.DoOpReturnCallDefers;
      match op {
        case OpHalt => sig := Halting;
        case OpExec => sig := DoOpExec();
        case OpPrecall => sig := DoOpPrecall();
        case OpCall => sig := DoOpCall();
        case OpCallNativeBody => sig := DoOpCallNativeBody();
        case OpReturn => sig := DoOpReturn();
        case OpReturnFromBlock => sig := DoOpReturnFromBlock();
        case OpReturnToBlock => sig := DoOpReturnToBlock();
        case OpDefer => sig := DoOpDefer();
        case OpPanic1 => sig := DoOpPanic1();
        case OpPanic2 => sig := DoOpPanic2();
        case OpIfCond => sig := DoOpIfCond();
        case OpPopValue =>
          var v := PeekValue();
          if v.None? {
            return Failing;
          }
          var _ := PopValue();
          sig := Running;
        case OpPopResults => sig := PopResults();
        case OpPopBlock =>
          var b := LastBlock();
          if b.None? {
            return Failing;
          }
          PopBlock();
          sig := Running;
        case OpUnary(u) => sig := DoOpUnary(u);
        case OpBinary(b) => sig := DoOpBinary(b);
        case OpLor => sig := DoOpLogic(false);
        case OpLand => sig := DoOpLogic(true);
        case OpBinary1 => sig := DoOpBinary1();
        case OpEval => sig := DoOpEval();
        case OpFuncLit => sig := DoOpFuncLit();
        case OpAssign => sig := DoOpAssign();
        case OpBody => sig := DoOpBody();
        case OpForLoop => sig := DoOpForLoop();
        case OpRangeIter => sig := DoOpRangeIter();
        case OpReturnCallDefers => sig := DoOpReturnCallDefers();
      }
    }

    /** Charges one cycle; false when the budget is overrun. */
    method IncrCPU() returns (ok: bool)
      requires Valid()
      modifies this`cycles
      ensures Valid() && cycles == old(cycles) + 1
      ensures ok <==> maxCycles == 0 || cycles <= maxCycles
    {
      cycles := cycles + 1;
      ok := !(maxCycles != 0 && cycles > maxCycles);
    }

    /** A machine still running has not come to where it stops. */
    static lemma NotYet(P: Program, m: State, limit: nat, n: nat)
      requires !GnoMachine.Run(P, m, limit).Next? && GnoMachine.Run(P, m, n).Next?
      ensures n < limit
    {
      hide Step;
      if limit <= n {
        RunAdd(P, m, limit, n - limit);
      }
    }

    /** Dispatches ops until the machine stops or the cycles run out. It comes back if it
        has a budget or the machine stops at all: after `n` dispatches it has stopped the
        way `n` steps of the machine stop, or, one cycle over the budget, it was still
        running. Every dispatch costs exactly one cycle. */
    method Run(ghost limit: nat) returns (sig: Signal, ghost n: nat)
      requires Valid() && (maxCycles != 0 || !GnoMachine.Run(program, view, limit).Next?)
      modifies this, ops, values
      ensures Valid()
      ensures !sig.Running?
      ensures sig.Overrun? ==>
                && maxCycles != 0 && cycles > maxCycles && cycles == old(cycles) + n + 1
                && GnoMachine.Run(program, old(view), n).Next?
      ensures !sig.Overrun? ==>
                && Tracks(sig, GnoMachine.Run(program, old(view), n))
                && (cycles == old(cycles) + n || (sig.Failing? && cycles == old(cycles) + n - 1))
      ensures maxCycles != 0 ==> cycles <= old(cycles) + 1 || cycles <= maxCycles + 1
    {
      hide Valid, GnoMachine.Dispatch;
      n := 0;
      sig := Running;
      while true
        invariant Valid() && (ops == old(ops) || fresh(ops)) && (values == old(values) || fresh(values))
        invariant cycles == old(cycles) + n
        invariant n == 0 || maxCycles == 0 || cycles <= maxCycles
        invariant GnoMachine.Run(program, old(view), n) == Next(view)
        decreases if maxCycles != 0 then maxCycles - cycles else limit - n
      {
        ghost var m := view;
        if maxCycles == 0 {
          NotYet(program, old(view), limit, n);
        }
        RunAdd(program, old(view), n, 1);
        n := n + 1;
        Known();
        if numOps == 0 {
          return Failing, n;
        }
        var op := PopOp();
        var ok := IncrCPU();
        if !ok {
          return Overrun, n - 1;
        }
        sig := DoOp(op);
        assert GnoMachine.Run(program, m, 1) == match Step(program, m) case Next(m1) => GnoMachine.Run(program, m1, 0) case r => r;
        if !sig.Running? {
          return sig, n;
        }
      }
    }
  }
}
