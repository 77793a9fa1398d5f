/** Machine.Eval on the mutable machine, against the structured meaning of the call. */
module GnoEval {
  import opened GnoValues
  import opened GnoStacks
  import opened GnoSyntax
  import opened GnoMachine
  import opened GnoSemantics
  import opened GnoTheorems
  import opened GnoVm

  /** What the caller of Eval sees when the call has meaning `r`: the results and
      otherwise the stacks as they were; the uncaught exception; or the
      interpreter's own panic. */
  ghost predicate Observed(sig: Signal, res: seq<Value>, before: State, after: State, r: EvalR<seq<Value>>) {
    match r
    case Ok(vs, g) => sig.Halting? && res == vs && after == before.(g := g)
    case Panicked(g) => g.exc.Some? && sig == Escaping(g.exc.value)
    case Dropped(_) => sig.Failing?
    case Failed => sig.Failing?
    case Timeout => false
    case Stuck => true
  }

  /** Evaluates a call on a machine at rest, with a cycle budget or to the end: unless the
      budget is overrun, the caller sees the meaning of the call. */
  method Eval(vm: Machine, x: Expr, ghost limit: nat) returns (sig: Signal, res: seq<Value>, ghost fuel: nat)
    requires vm.Valid() && AtRest(vm.view) && x.Call?
    requires vm.maxCycles != 0 || !GnoMachine.Run(vm.program, Boot(vm.view, x), limit).Next?
    modifies vm, vm.ops, vm.values
    ensures vm.Valid()
    ensures !sig.Running? && (sig.Overrun? ==> vm.maxCycles != 0)
    ensures !sig.Overrun? ==>
              Observed(sig, res, old(vm.view), vm.view,
                       EvalCall(vm.program, fuel, x, old(vm.view).blocks.head, true, old(vm.view).g))
    ensures vm.maxCycles != 0 ==> vm.cycles <= old(vm.cycles) + 1 || vm.cycles <= vm.maxCycles + 1
  {
    hide Step, GnoMachine.Run, EvalCall, PushAll, TopN, DropN, Len;
    ghost var m := vm.view;
    vm.Known();
    var start := vm.numValues;
    vm.PushOp(OpHalt);
    vm.PushEval(x);
    sig, fuel := vm.Run(limit);
    res := [];
    if sig.Overrun? {
      return;
    }
    RunIsMeaning(vm.program, x, m, fuel);
    ghost var r := EvalCall(vm.program, fuel, x, m.blocks.head, true, m.g);
    if r.Ok? {
      PopPushAll(m.values, r.v);
    }
    if sig.Halting? {
      vm.Known();
      if start <= vm.numValues {
        res := vm.ReapValues(start);
      }
    }
  }
}
