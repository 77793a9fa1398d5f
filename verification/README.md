# Verification of gno: virtual machine, Amino codec, concurrent list, Parallel, PrefixDB

Five components of gno, modelled in Dafny, with proofs of what they are for.

- **The virtual machine.** `GnoVm` is the machine as the mutable object it is: op and
  value arrays that grow by doubling, slices of expressions, statements, blocks and
  frames, one method for each handler, and the dispatch loop with its cycle budget. Each
  method is proved to do to the stacks what the function of the same name in `GnoMachine`
  does. `GnoSemantics` gives the same language a structured meaning that knows no stacks:
  constants, names, operators with `&&` and `||`, function literals, calls, assignment,
  blocks, if, for, range, labelled break and continue, return, defer, panic and recover.
  `GnoSimulation` proves that the machine realises that meaning, for every program and
  outcome, and `GnoTheorems` and `GnoEval` draw the whole-run consequences. Fuel bounds
  the nesting of calls, iterations and deferred calls; that it bounds nothing in the end is
  the theorem `DivergesTogether`. `GnoDefers` and `GnoUnwind` prove the defer and panic
  disciplines. `GnoAlignment` proves that in every run without exceptions the ops, records
  and frames of loops and calls stay in step, and on that `GnoRealms` that packages, realms
  and their finalization follow the calls; `GnoPanicRealms` says what a panic does to them.
  `GnoStore` and `GnoValues` have the laws of variables and of fixed-width integers,
  `GnoScopes` that the paths of static blocks agree with names, `GnoExamples` programs on
  which the machine surprises.
- **The Amino binary codec.** `AminoTypes` replaces reflection by a datatype of types:
  booleans, integers of definite width as varints or fixed, bytes, strings, structs,
  pointers to structs as fields and list elements, and lists of all of these, with the
  options write_empty, nil_elements, fixed32 and fixed64. `AminoCodec` says what is written
  and read, `AminoBinary` does it with buffers and loops, `AminoRoundTrip` proves the
  round trip, `AminoCompat` and `AminoEvolution` what a decoder makes of the messages of
  newer versions of its types, `AminoFraming` the sized messages and `AminoDuration`
  durations and times.
- **CList.** `CList` is the linked structure, `CListModel` its memory as other goroutines
  see it, with runs of interleaved pushes, removals and detaches, and walks during a run.
- **Parallel.** `AsyncParallel` is a state machine whose runs are all interleavings.
- **PrefixDB over MemDB.** `PrefixDb` has the byte order, the carry loop, the databases and
  the iterators.

## Where the code does not do what one would expect

Each is stated by a lemma with an input and one with the exact condition, or by the contract
of the operation.

- The round trip of a struct fails if and only if a list with nil_elements in it holds a
  pointer to a struct that encodes to nothing: it comes back as a nil element
  (`AminoRoundTrip.NilElementsLosePointers`, `RoundTripIff`).
- A decoder skips the fields a newer version of its type added if and only if no added
  repeated field it meets has two elements or more (`AminoCompat.TwoAddedElementsFail`,
  `ForwardCompatible`, `AminoEvolution.OldDecoderReads`).
- A sized-message prefix of ten continuation bytes is read as the empty message when the
  limit is above ten (`AminoFraming.OverlongPrefixIsRead`, `PrefixProperIff`).
- A return with deferred calls, made while an exception is pending and outside any loop,
  loses its own frame and returns from the function around it; so a panic nobody recovers
  can get lost (`GnoExamples.LostPanicRuns`, `GnoUnwind.ReturnReachesCallerIff`).
- While a panic unwinds, deferred calls run in the package and realm it was raised in
  (`GnoExamples.StrayLiteralRuns`, `GnoPanicRealms.UnwindKeepsBracketIff`).
- The body of a deferred call runs in a block nested in the block of the defer statement,
  not in the closure of the function (`GnoExamples.MisreadingRuns`,
  `GnoStore.DeferredPathsAgreeIff`), and with its results undefined
  (`GnoStore.DeferredSlotsAgreeIff`). It has no frame, so its return and its panic are those
  of the function that deferred it (`GnoSimulation.SimByDeferred`).
- The check for too many names in a static block is dead; the count wraps at 65536 and the
  block then refuses every definition (`GnoScopes.FullBlockPanics`, `DefinePanicsIff`). A
  chain of 255 blocks hides names from paths but not from types
  (`GnoScopes.DeepNamesHaveNoPath`, `PathAgreesWithName`).
- Parallel's comment says that ok is false iff a task aborted; it is also false after a
  panic (`AsyncParallel.PanicCountsAsAbort`, `ParallelIsRight`). A task that panics with nil
  announces nothing, and Parallel waits for it unless another one aborts
  (`AsyncParallel.NilPanicBlocks`, `MaximalRuns`).
- PushBack releases those who wait on an empty list before it checks the maximal length; at
  that length, which only a maximum of zero or less reaches while the list is empty, it
  panics with the list locked (`CList.LinkedList.PushBack`).
- Removing an element a second time while it is attached on both sides passes the checks and
  puts the list out of order (`CListModel.RemovedTwice`, `RemovedTwiceBreaks`,
  `CList.LinkedList.Remove`).

## Model

| member | source | states |
|---|---|---|
| `GnoValues.WrapIsTheRepresentative` | pkgs/gnolang/op_unary.go:18-66 | the result stored into a fixed-width integer is the one in-range number congruent to the exact result |
| `GnoValues.QuoRemTruncate` | pkgs/gnolang/op_binary.go:834-927 | division truncates toward zero; the remainder is smaller than the divisor and has the sign of the dividend |
| `GnoValues.OperatorsStayInRange` | pkgs/gnolang/op_binary.go:666-927 | no unary or binary operator leaves the range of its operand type |
| `GnoValues.QuotientWrapsOnlyAtTheExtreme` | pkgs/gnolang/op_binary.go:834-888 | remainders never wrap; a quotient wraps exactly for the least signed value by -1 |
| `GnoValues.AdditionLaws` | pkgs/gnolang/op_binary.go:666-778 | with wrap-around, subtraction undoes addition and addition commutes |
| `GnoValues.MultiplicationLaws` | pkgs/gnolang/op_binary.go:780-832 | wrapped multiplication commutes and is repeated addition |
| `GnoValues.DivisionLaw` | pkgs/gnolang/op_binary.go:834-927 | quotient times divisor plus remainder gives the dividend back, also where the quotient wraps |
| `GnoValues.NegationLaws` | pkgs/gnolang/op_unary.go:18-121 | negation is subtraction from zero and complement is negation less one, at every width |
| `GnoStore.WriteThenLoad` | pkgs/gnolang/values.go:2296-2323 | a depth/index path reads what was assigned through it; every other variable of every block is unchanged; paths to the same slot alias |
| `GnoStore.ResultsComeBack` | pkgs/gnolang/op_call.go:201-248 | results moved to the function block before deferred calls are the results read back from it, and nothing else in any block changes |
| `GnoStore.CallSlots` | pkgs/gnolang/op_call.go:47-158 | a new function block holds exactly the arguments followed by the default results |
| `GnoStore.BodyPathsAgreeIff` | pkgs/gnolang/op_call.go:264-333 | of a function body run in a block nested once in one block and once in another, a path from any block of the body denotes the same in both if and only if it ends within the body or its rest does from the two blocks |
| `GnoStore.DeferredPathAgreesIff` | pkgs/gnolang/op_call.go:272 | a path in a deferred body denotes what it denotes in a plain call of the same function if and only if it ends in the body or its rest denotes the same from the block of the defer statement and from the closure |
| `GnoStore.DeferredPathsAgreeIff` | pkgs/gnolang/op_call.go:335-360 | all paths do if and only if the block of the defer statement is the block the function was created in |
| `GnoStore.DeferredSlotsAgreeIff` | pkgs/gnolang/op_call.go:264-316 | exactly which variables of its own a deferred body finds different from a plain call: results with a default, which are undefined |
| `GnoSimulation.SimExpr` | pkgs/gnolang/op_eval.go:15-312 | from any stacks, evaluating any expression tree ends with its meaning on top of the values and every other stack as it was; failing, panicking and diverging evaluations fail, unwind and run on |
| `GnoSimulation.SimList` | pkgs/gnolang/op_eval.go:235-245 | expressions queued last to first are evaluated first to last, leaving their values in order |
| `GnoSimulation.SimLogic` | pkgs/gnolang/op_binary.go:13-71 | `&&` and `||` give the boolean meaning, running the right operand only when the left does not decide |
| `GnoSimulation.SimCall` | pkgs/gnolang/op_call.go:8-43 | a call, however deep it nests, leaves the caller's values followed by exactly the results, every other stack at its saved depth |
| `GnoSimulation.SimCallFn` | pkgs/gnolang/op_call.go:47-158 | once function and arguments are on the value stack, precall, call and return give the structured meaning of the call |
| `GnoSimulation.SimFinish` | pkgs/gnolang/op_call.go:170-248 | a return, with or without pending deferred calls, reaches the caller with the results the structured semantics gives |
| `GnoSimulation.SimDefers` | pkgs/gnolang/op_call.go:250-333 | the deferred calls of a function run as the structured semantics says; only blocks, globals and the pending list differ afterwards |
| `GnoSimulation.SimUnwind` | pkgs/gnolang/op_call.go:388-409 | a panic runs the deferred calls of the function, then returns from it if one recovered, else goes on in the caller's frame |
| `GnoSimulation.SimByDeferred` | pkgs/gnolang/op_call.go:250-333 | a deferred body that returns, panics or is dropped does so for the function that deferred it, whose remaining deferred calls still run |
| `GnoSimulation.SimBody` | pkgs/gnolang/op_exec.go:66-86 | a body run by OpBody ends with all six stacks as before it and the variables of the structured semantics; breaks and continues act as if executed right there |
| `GnoSimulation.SimStmt` | pkgs/gnolang/op_exec.go:430-781 | every statement, executed from any body, realises its structured meaning, whatever the outcome |
| `GnoSimulation.SimBlock` | pkgs/gnolang/op_exec.go:771-781 | a block statement runs its body in a new block and drops the block |
| `GnoSimulation.SimIf` | pkgs/gnolang/op_exec.go:518-530 | initializer, condition and the chosen branch run in one new block, which is dropped on every exit |
| `GnoSimulation.SimFor` | pkgs/gnolang/op_exec.go:87-138 | a for loop with optional initializer, condition and post, left by its condition, by break, continue, return or panic, realises its meaning |
| `GnoSimulation.SimRange` | pkgs/gnolang/op_exec.go:139-238 | a range loop over a list assigns index and element in turn; all its exits realise its meaning |
| `GnoSimulation.SimReturn` | pkgs/gnolang/op_exec.go:542-573 | a return statement evaluates its results in order and queues the way out that pending deferred calls require |
| `GnoSimulation.SimDefer` | pkgs/gnolang/op_call.go:335-386 | a defer statement evaluates function and arguments now and appends the call to those pending |
| `GnoSimulation.SimPanic` | pkgs/gnolang/op_exec.go:574-579 | a panic statement starts unwinding with its value as the pending exception |
| `GnoMachine.RunAdd` | pkgs/gnolang/machine.go:955-1282 | a run of a + b dispatches is a run of a followed by one of b |
| `GnoTheorems.MeaningIsRun` | pkgs/gnolang/machine.go:539-573 | every meaning of a call is realised by a run: halted with exactly the results added, uncaught panic, interpreter panic; running out of fuel by a run still going |
| `GnoTheorems.RunIsMeaning` | pkgs/gnolang/machine.go:955-1282 | if the machine stops within n dispatches, the structured semantics with fuel n says how |
| `GnoTheorems.DivergesTogether` | pkgs/gnolang/machine.go:955-1282 | the machine runs for ever exactly when the program has no meaning at any fuel |
| `GnoTheorems.MeaningIsUnique` | pkgs/gnolang/machine.go:539-573 | the meaning of a call does not depend on the fuel |
| `GnoTheorems.RightOperandSkipped` | pkgs/gnolang/op_binary.go:13-41 | when the left operand decides, the run and the meaning are the same whatever the right operand is |
| `GnoTheorems.CallRestoresRealm` | pkgs/gnolang/machine.go:1614-1642 | a call that returns leaves the caller's package and realm, and the number of its results |
| `GnoTheorems.EvalRestoresRealm` | pkgs/gnolang/machine.go:1640-1641 | an expression that has a value leaves package and realm as they were, calls in it included |
| `GnoDefers.DefersRunLastFirst` | pkgs/gnolang/op_call.go:250-333 | the log of pushes and starts of an activation replays as a stack while its deferred calls run: what is deferred meanwhile goes on top and only the top is started; ended by themselves they leave nothing pending |
| `GnoDefers.CallRunsDefersOnce` | pkgs/gnolang/op_call.go:250-333 | over a whole call, left by return or panic or by a return or panic of a deferred body, the log of the activation replays as a stack from empty to empty; only a dropped return leaves calls pending |
| `GnoDefers.EachOnce` | pkgs/gnolang/frame.go:63-74 | in a log that replays, every call is started as often as it was pending before or deferred, less what is still pending |
| `GnoDefers.EachDeferredRunsOnce` | pkgs/gnolang/op_call.go:250-333 | over a whole call every call is started exactly as often as it was deferred, by the body or by deferred bodies, unless a return dropped the function |
| `GnoUnwind.UnwindingEnds` | pkgs/gnolang/op_call.go:388-409 | the machine does to a panic through any number of calls what running their deferred calls from the top one down says: back in a caller, uncaught, failing, or still going |
| `GnoUnwind.UnwindingTerminates` | pkgs/gnolang/op_call.go:388-409 | where the deferred bodies the panic meets end normally in the worlds it meets them in, it ends: back in the caller of the first call whose deferred calls leave no exception, and uncaught if and only if there is none |
| `GnoUnwind.PanicOutOf` | pkgs/gnolang/op_exec.go:574-579 | a panic out of any expression, however deep it was raised, unwinds the calls the expression is evaluated in |
| `GnoUnwind.ReturnReachesCallerIff` | pkgs/gnolang/op_call.go:250-262 | a return with deferred calls that end normally is then in its own caller if and only if no exception is pending or it stands in a loop; otherwise it has returned from the function its caller is in, or panics the interpreter if there is none |
| `GnoUnwind.DropLands` | pkgs/gnolang/op_call.go:201-232 | a return that lost its own frame returns from the function around it, with the results that one holds |
| `GnoUnwind.CallNests` | pkgs/gnolang/op_call.go:8-43 | the frame of a call saves depths nested in those of its caller |
| `GnoExamples.LostPanicRuns` | pkgs/gnolang/op_call.go:250-262 | a program whose panic, which nobody recovers, is lost: the machine halts with a result and the exception still pending |
| `GnoAlignment.FuncInPlace` | pkgs/gnolang/op_exec.go:623-664 | if every branch of a program stands in a loop it means, the branches of a function body find their loops and leave no loop around it, in whatever loops it is run, as deferred bodies are |
| `GnoAlignment.StepInStep` | pkgs/gnolang/machine.go:960-1280 | every dispatch that raises no exception keeps ops, statement records and frames of loops and calls in step all the way down |
| `GnoAlignment.RunInStep` | pkgs/gnolang/machine.go:955-1282 | so does every run that raises no exception |
| `GnoAlignment.LoopsAndCallsNest` | pkgs/gnolang/machine.go:1603-1707 | in every state of such a run from rest a loop op has the frame and record of its loop on top, every branch about to run its loop, and below the running function are the stacks of its caller |
| `GnoAlignment.AlignedAtCall` | pkgs/gnolang/machine.go:1614-1642 | cut back to what the frame of the running call saved, the stacks are in step |
| `GnoAlignment.AlignedAtLoop` | pkgs/gnolang/op_exec.go:623-664 | cut back to what the frame of the loop a branch means saved, the stacks are in step, with that loop on top |
| `GnoRealms.RealmsBracketRuns` | pkgs/gnolang/machine.go:1558-1566 | in every run from rest that raises no exception the current realm is that of the innermost call into a realm package, else the starting one, the package that of the innermost call, and the realms finalized are in order those due at returns that leave a realm or the outermost call |
| `GnoRealms.RunKeepsBracket` | pkgs/gnolang/machine.go:1532-1642 | the same from any state in step and bracketed |
| `GnoRealms.StepKeepsBracket` | pkgs/gnolang/op_call.go:170-231 | a dispatch keeps the bracketing and finalizes exactly what is due: at a return of a call that had switched realm or is the outermost, the realm active in the callee |
| `GnoRealms.PrecallBrackets` | pkgs/gnolang/op_call.go:8-43 | entering a call keeps realm and package bracketed and finalizes nothing |
| `GnoRealms.ReturnBrackets` | pkgs/gnolang/op_call.go:170-232 | leaving a call keeps realm and package bracketed and finalizes the callee's realm exactly when due |
| `GnoRealms.RaisingKeepsBracket` | pkgs/gnolang/op_call.go:388-393 | a panic is raised in the package and realm of the innermost call |
| `GnoPanicRealms.BodyStays` | pkgs/gnolang/op_exec.go:430-781 | statements that neither panic nor drop a return leave package and realm as they were, calls in them included |
| `GnoPanicRealms.DefersStay` | pkgs/gnolang/op_call.go:250-333 | all deferred calls of a function run in the package and realm the first one starts in |
| `GnoPanicRealms.VisitReached` | pkgs/gnolang/op_call.go:388-409 | an unwinding panic comes to each of the calls whose callees' deferred calls left it pending, with the globals they left |
| `GnoPanicRealms.UnwindKeepsBracketIff` | pkgs/gnolang/op_call.go:250-262 | the deferred calls of every call a panic comes to run in the package and realm it was raised in; these are the call's own if and only if its active package and realm equal those at the raise |
| `GnoExamples.StrayLiteralRuns` | pkgs/gnolang/op_call.go:250-262 | a program whose recovering function creates a function of the package that panicked instead of its own |
| `GnoExamples.MisreadingRuns` | pkgs/gnolang/op_call.go:272 | a function that, deferred, reads and writes variables of the function that defers it, where called it reads and writes those of its package |
| `GnoVm.Machine.constructor` | pkgs/gnolang/machine.go:102-131 | a new machine has empty stacks, the block of its package and no cycles counted |
| `GnoVm.Machine.PushOp` | pkgs/gnolang/machine.go:1287-1299 | pushes an op, doubling the array when full; every other stack is untouched |
| `GnoVm.Machine.PopOp` | pkgs/gnolang/machine.go:1301-1313 | fetches the top op and pops it unless it is sticky |
| `GnoVm.Machine.ForcePopOp` | pkgs/gnolang/machine.go:1315-1320 | pops the top op, sticky or not |
| `GnoVm.Machine.PushValue` | pkgs/gnolang/machine.go:1417-1431 | pushes a value, doubling the array when full |
| `GnoVm.Machine.PopValue` | pkgs/gnolang/machine.go:1433-1441 | pops the top value |
| `GnoVm.Machine.PopValues` | pkgs/gnolang/machine.go:1448-1458 | pops n values and returns them oldest first |
| `GnoVm.Machine.ReapValues` | pkgs/gnolang/machine.go:1480-1486 | pops the values above a depth, oldest first |
| `GnoVm.Machine.PopStmt` | pkgs/gnolang/machine.go:1359-1372 | pops a plain statement; a body stays and gives up its active statement |
| `GnoVm.Machine.PushEvals` | pkgs/gnolang/op_eval.go:235-245 | queues expressions so that the first is evaluated first |
| `GnoVm.Machine.PushBlock` | pkgs/gnolang/machine.go:1488-1493 | allocates a block and makes it the last one |
| `GnoVm.Machine.PushFrameBasic` | pkgs/gnolang/machine.go:1512-1527 | saves the depth of every stack in a loop frame |
| `GnoVm.Machine.PushFrameCall` | pkgs/gnolang/machine.go:1532-1567 | saves depths (values below function and arguments), package and realm, and enters the callee's |
| `GnoVm.Machine.PopFrameAndReset` | pkgs/gnolang/machine.go:1603-1611 | cuts every stack back to the depths of the last frame and finishes the loop statement |
| `GnoVm.Machine.PeekFrameAndContinue` | pkgs/gnolang/machine.go:1644-1664 | cuts the stacks back to the loop op, its body record and, for range, the list, with all body statements done |
| `GnoVm.Machine.ShiftValues` | pkgs/gnolang/machine.go:1629-1638 | the in-place shift of results, front to back over ranges that may overlap, loses nothing |
| `GnoVm.Machine.PopFrameAndReturn` | pkgs/gnolang/machine.go:1614-1642 | leaves the values below the call followed by exactly the results, all other stacks at their saved depths, package and realm restored |
| `GnoVm.Machine.LastCallFrame` | pkgs/gnolang/machine.go:1677-1693 | finds the innermost call frame, if any |
| `GnoVm.Machine.PopUntilLastCallFrame` | pkgs/gnolang/machine.go:1697-1707 | drops the loop frames above the innermost call frame; without one drops nothing |
| `GnoVm.Machine.Break` | pkgs/gnolang/op_exec.go:623-641 | pops frames up to the loop the label means and leaves that loop |
| `GnoVm.Machine.Continue` | pkgs/gnolang/op_exec.go:642-664 | pops frames up to the loop the label means and goes on with it |
| `GnoVm.Machine.ExecStmt` | pkgs/gnolang/op_exec.go:430-781 | the statement switch changes the stacks as the statement function says |
| `GnoVm.Machine.ExecReturn` | pkgs/gnolang/op_exec.go:542-573 | queues the ops of a return as pending deferred calls and results require |
| `GnoVm.Machine.DoOpBody` | pkgs/gnolang/op_exec.go:66-86 | runs the next statement of the body or pops the sticky op and the body |
| `GnoVm.Machine.DoOpForLoop` | pkgs/gnolang/op_exec.go:87-138 | tests the condition, runs body statements, then post and condition again, or leaves the loop |
| `GnoVm.Machine.DoOpRangeIter` | pkgs/gnolang/op_exec.go:139-238 | assigns the next index and element, runs body statements, or leaves the loop |
| `GnoVm.Machine.DoOpIfCond` | pkgs/gnolang/op_exec.go:787-823 | pops the condition and queues the chosen branch unless it is empty |
| `GnoVm.Machine.DoOpEval` | pkgs/gnolang/op_eval.go:15-312 | evaluates a name or constant at once and queues the parts of any other expression |
| `GnoVm.Machine.DoOpUnary` | pkgs/gnolang/op_unary.go:10-121 | pops the expression and overwrites the top value with the result |
| `GnoVm.Machine.DoOpBinary` | pkgs/gnolang/op_binary.go:73-331 | pops the right operand and overwrites the left one with the result |
| `GnoVm.Machine.DoOpBinary1` | pkgs/gnolang/op_binary.go:13-41 | queues the right operand of `&&` or `||` only when the left does not decide |
| `GnoVm.Machine.DoOpLogic` | pkgs/gnolang/op_binary.go:43-71 | combines the two operands of `&&` or `||` in the left slot |
| `GnoVm.Machine.DoOpFuncLit` | pkgs/gnolang/op_expressions.go:651-669 | makes a function value closed over the last block and the current package |
| `GnoVm.Machine.DoOpAssign` | pkgs/gnolang/op_assign.go:27-46 | writes the value through the path of the target and finishes the statement |
| `GnoVm.Machine.DoOpPrecall` | pkgs/gnolang/op_call.go:8-43 | pushes the call frame of the function below the arguments |
| `GnoVm.Machine.DoOpCall` | pkgs/gnolang/op_call.go:47-158 | makes the function block, fills it in two loops and queues the body, with an implicit return when there are no results |
| `GnoVm.Machine.DoOpCallNativeBody` | pkgs/gnolang/uverse.go:956-971 | recover pushes the pending exception and clears it |
| `GnoVm.Machine.DoOpReturn` | pkgs/gnolang/op_call.go:170-197 | returns the values on top, finalizing the realm when due |
| `GnoVm.Machine.DoOpReturnFromBlock` | pkgs/gnolang/op_call.go:201-232 | returns the results held in the function block |
| `GnoVm.Machine.DoOpReturnToBlock` | pkgs/gnolang/op_call.go:237-248 | moves the results from the value stack to the function block |
| `GnoVm.Machine.PopDefer` | pkgs/gnolang/frame.go:67-74 | takes the last pending deferred call off the function's frame |
| `GnoVm.Machine.PushDefer` | pkgs/gnolang/frame.go:63-65 | puts a call on top of those the running function has pending |
| `GnoVm.Machine.DoOpReturnCallDefers` | pkgs/gnolang/op_call.go:250-333 | starts the last deferred call, or gives way, dropping a frame while panicking |
| `GnoVm.Machine.DoOpDefer` | pkgs/gnolang/op_call.go:335-386 | appends the evaluated call to the function's pending ones |
| `GnoVm.Machine.DoOpPanic1` | pkgs/gnolang/op_call.go:388-393 | sets the exception, drops loop frames and queues unwinding |
| `GnoVm.Machine.DoOpPanic2` | pkgs/gnolang/op_call.go:395-409 | returns after a recovery, unwinds the next call frame, or reports the uncaught panic when none is left |
| `GnoVm.Machine.DoOp` | pkgs/gnolang/machine.go:960-1280 | one dispatch of the run loop is one step of the machine |
| `GnoVm.Machine.IncrCPU` | pkgs/gnolang/machine.go:821-826 | every dispatch costs one cycle, and overruns exactly when a non-zero budget is exceeded |
| `GnoVm.Machine.Run` | pkgs/gnolang/machine.go:955-1282 | with a budget the loop ends after at most the cycles left plus one: stopped the way that many steps stop, or over budget while still running; without one it ends whenever the machine stops, in the same way |
| `GnoEval.Eval` | pkgs/gnolang/machine.go:539-573 | with a budget not overrun, or without one if the run ends, evaluating a call on a machine at rest shows the caller its structured meaning: the results and otherwise the same stacks, the uncaught exception, or the interpreter's panic |
| `GnoScopes.DefineKeeps` | pkgs/gnolang/nodes.go:1717-1772 | a definition keeps names distinct, arrays parallel, indices within 16 bits, names in their slots and typed values unchanged |
| `GnoScopes.DefinePanicsIff` | pkgs/gnolang/nodes.go:1717-1772 | exactly when Define2 panics; a block with 65536 names refuses every definition, because its count wrapped |
| `GnoScopes.FullBlockPanics` | pkgs/gnolang/nodes.go:1717-1772 | definition by definition a block fills up to 65536 names, and then refuses every definition |
| `GnoScopes.PathAgreesWithName` | pkgs/gnolang/nodes.go:1541-1578 | a block path is issued exactly for names found within 255 blocks; it fits its 8 and 16 bits and leads to the slot and static type of the name; the uverse is hidden by 255 blocks or more |
| `GnoScopes.DeepNamesHaveNoPath` | pkgs/gnolang/nodes.go:1541-1578 | a chain with a name in its 256th block, and one of 255 blocks over the uverse, where the name has a type and no path |
| `GnoScopes.BuiltChainsResolve` | pkgs/gnolang/nodes.go:1612-1652 | in every chain definitions can build, GetStaticTypeOfAt on an issued path equals GetStaticTypeOf of the name |
| `GnoScopes.IssuedPathsStay` | pkgs/gnolang/nodes.go:1717-1772 | whatever is defined later, an issued path denotes the slot of its name, and stays its path exactly until an inner block defines the name |
| `GnoScopes.StaticBlock.GetLocalIndex` | pkgs/gnolang/nodes.go:1655-1673 | the first index of a name; the cast to uint16 loses nothing |
| `GnoScopes.StaticBlock.Define2` | pkgs/gnolang/nodes.go:1717-1772 | adds or redefines a name, or refuses and changes nothing |
| `GnoScopes.StaticBlock.AddExternName` | pkgs/gnolang/nodes.go:1515-1522 | notes a name once |
| `GnoScopes.StaticBlock.GetPathForName` | pkgs/gnolang/nodes.go:1541-1578 | resolves a name over its ancestors and notes it in exactly the blocks, files apart, searched in vain |
| `GnoScopes.StaticBlock.GetStaticTypeOf` | pkgs/gnolang/nodes.go:1612-1631 | the type in the slot of the innermost definition, at any depth |
| `GnoScopes.StaticBlock.GetStaticTypeOfAt` | pkgs/gnolang/nodes.go:1634-1652 | the type in the slot a path leads to, or a panic |
| `GnoScopes.StaticBlock.ResolvedTypeOf` | pkgs/gnolang/nodes.go:1541-1652 | resolving a name and following the path gives the type of the name |
| `AminoPrimitives.UvarintRoundTrip` | pkgs/amino/decoder.go:128-140 | a 64-bit uvarint followed by anything is read back, to exactly its length |
| `AminoPrimitives.PutIsShortest` | pkgs/amino/decoder.go:125-137 | no accepted varint is shorter than the one written for its value |
| `AminoPrimitives.UvarintSizeIsLength` | pkgs/amino/encoder.go:112-117 | the size computed from the bit length is the number of bytes written |
| `AminoPrimitives.VarintRoundTrip` | pkgs/amino/encoder.go:36-41 | a signed varint followed by anything is read back, to exactly its length |
| `AminoPrimitives.ZigZagBijective` | pkgs/amino/encoder.go:57-59 | zigzag maps the 64-bit integers one to one onto the 64-bit naturals |
| `AminoPrimitives.FixedRoundTrip` | pkgs/amino/decoder.go:54-74 | little-endian fixed-width integers are read back |
| `AminoPrimitives.BytesRoundTrip` | pkgs/amino/decoder.go:347-366 | a length-prefixed byte slice followed by anything is read back, to exactly its length |
| `AminoPrimitives.KeyRoundTrip` | pkgs/amino/binary_decode.go:1048-1066 | field number and wire type survive the key, up to the largest field number |
| `AminoCodec.PrefixFits` | pkgs/amino/binary_decode.go:1071-1090 | counting a length prefix by its shortest form never counts more than was read |
| `AminoRoundTrip.DecodesEncoding` | pkgs/amino/binary_encode.go:45-210 | for every type and encodable value, decoding the encoding followed by any suffix gives the value, consumed to exactly its length, but for collapsed list elements |
| `AminoRoundTrip.DecodesElems` | pkgs/amino/binary_encode.go:339-465 | lists, packed, unpacked under a field number, or nested by implicit structs, are read back up to the next higher field |
| `AminoRoundTrip.DecodesFields` | pkgs/amino/binary_encode.go:488-531 | struct fields are read back in order through elision, rollback and repeated fields, and what follows is skipped or refused |
| `AminoRoundTrip.ElidedIsDefault` | pkgs/amino/binary_encode.go:555-585 | a field that writes nothing, by elision or by rollback, holds what decoding puts there |
| `AminoRoundTrip.MarshalRoundTrip` | pkgs/amino/amino.go:326-396 | Unmarshal after Marshal gives every encodable struct back, but for collapsed list elements |
| `AminoRoundTrip.CollapseIff` | pkgs/amino/binary_encode.go:398-421 | a value collapses exactly when a nil_elements list holds a pointer to a struct that encodes to nothing |
| `AminoRoundTrip.EmptyStructIff` | pkgs/amino/binary_encode.go:555-585 | exactly which structs encode to a lone zero byte |
| `AminoRoundTrip.RoundTripIff` | pkgs/amino/binary_decode.go:831-842 | a struct survives the round trip if and only if no nil_elements list in it holds a pointer to an empty struct |
| `AminoRoundTrip.MarshalInjective` | pkgs/amino/binary_encode.go:488-531 | apart from those, different structs have different encodings, nil and present-but-empty optional structs in particular |
| `AminoRoundTrip.NilElementsLosePointers` | pkgs/amino/binary_decode.go:831-842 | a struct that does not survive: its list comes back with a nil element |
| `AminoCompat.ForwardCompatible` | pkgs/amino/binary_decode.go:918-1016 | a decoder given the encoding of an extended struct yields exactly the common fields if no added repeated field has two elements or more, and fails otherwise |
| `AminoCompat.TwoAddedElementsFail` | pkgs/amino/binary_decode.go:993-1016 | a message an older decoder refuses: one added field with two elements; with one element it reads it |
| `AminoEvolution.OldDecoderReads` | pkgs/amino/binary_decode.go:895-1016 | a decoder for a struct type given what a newer version wrote, with fields added to structs at any depth, yields exactly the value without them if all can be skipped, and fails otherwise |
| `AminoEvolution.DecodesNewer` | pkgs/amino/binary_decode.go:36-310 | the same for every type, whatever follows, consuming exactly the bytes of the newer value |
| `AminoEvolution.NewerFields` | pkgs/amino/binary_decode.go:918-1016 | of the fields of a newer struct the old ones are read in order and the added ones skipped or refused |
| `AminoEvolution.SameVersion` | pkgs/amino/binary_decode.go:895-1016 | with nothing added everything is readable and the value is the one of the round trip |
| `AminoCompat.SkipsFields` | pkgs/amino/binary_decode.go:993-1016 | unknown fields are skipped exactly when none repeats a number |
| `AminoCompat.ConsumesEncoding` | pkgs/amino/binary_decode.go:1022-1043 | skipping by wire type takes exactly the bytes of the value, for every type |
| `AminoBinary.WriteMaybeBare` | pkgs/amino/binary_encode.go:589-608 | writes the body bare, or with its length, an empty one as a zero byte |
| `AminoBinary.EncodeValue` | pkgs/amino/binary_encode.go:45-210 | appends the encoding, and errs exactly on values that cannot be encoded |
| `AminoBinary.EncodeList` | pkgs/amino/binary_encode.go:339-465 | the element loop appends the packed or repeated form |
| `AminoBinary.EncodeStruct` | pkgs/amino/binary_encode.go:488-531 | the field loop appends the encoding of the fields in order |
| `AminoBinary.WriteFieldIfNotEmpty` | pkgs/amino/binary_encode.go:555-585 | writes key and value and truncates both away exactly when the value is a lone zero byte that may be left out |
| `AminoBinary.MarshalStruct` | pkgs/amino/amino.go:326-396 | Marshal of a struct, or its error |
| `AminoBinary.DecodeValue` | pkgs/amino/binary_decode.go:36-310 | reads one value off the front of the input, or errs |
| `AminoBinary.DecodeMaybeBare` | pkgs/amino/binary_decode.go:1071-1090 | strips the length prefix unless bare |
| `AminoBinary.DecodeSlice` | pkgs/amino/binary_decode.go:740-892 | the element loops read until the input ends or a higher field number comes |
| `AminoBinary.DecodeStruct` | pkgs/amino/binary_decode.go:895-1016 | reads known fields, defaults absent ones, refuses falling numbers and skips the rest |
| `AminoBinary.DecodeFields` | pkgs/amino/binary_decode.go:918-1016 | the field loop consumes its whole input or errs |
| `AminoBinary.SkipFields` | pkgs/amino/binary_decode.go:993-1016 | the skipping loop consumes unknown fields with rising numbers, or errs |
| `AminoBinary.UnmarshalStruct` | pkgs/amino/amino.go:592-679 | Unmarshal of a struct, or its error |
| `AminoFraming.SizedRoundTrip` | pkgs/amino/amino.go:217-242 | UnmarshalSized after MarshalSized gives the struct back |
| `AminoFraming.ReadsSized` | pkgs/amino/amino.go:496-557 | a sized message in front of a stream is read to exactly its own length if and only if it is within the limit |
| `AminoFraming.StreamRoundTrip` | pkgs/amino/amino.go:496-557 | any list of sized messages written one after the other is read back as the same list, taking exactly the bytes written |
| `AminoFraming.ReadWithinLimit` | pkgs/amino/amino.go:523-537 | with a limit, a message read took no more bytes than that, prefix included |
| `AminoFraming.PrefixProperIff` | pkgs/amino/amino.go:503-522 | exactly when the prefix of a message that was read is a proper varint; otherwise it is ten bytes and the message the empty one |
| `AminoFraming.OverlongPrefixIsRead` | pkgs/amino/amino.go:503-522 | ten continuation bytes are read as an empty message whenever the limit is above ten |
| `AminoFraming.MarshalSized` | pkgs/amino/amino.go:217-242 | the length as uvarint, then the encoding |
| `AminoFraming.UnmarshalSized` | pkgs/amino/amino.go:470-491 | accepts exactly inputs whose prefix announces all the bytes that follow |
| `AminoFraming.ReadPrefix` | pkgs/amino/amino.go:503-522 | reads the prefix a byte at a time; the error a long prefix sets is lost at the next byte |
| `AminoFraming.UnmarshalSizedReader` | pkgs/amino/amino.go:496-557 | reads one message off the stream and leaves the stream right behind it |
| `AminoDuration.GoAcceptsExactly` | pkgs/amino/encoder.go:328-343 | among valid pairs exactly those are accepted whose exact sum is an int64, although the code tests a wrapped sum |
| `AminoDuration.PairRoundTrip` | pkgs/amino/decoder.go:285-342 | every pair with nanoseconds below a second is read back, to exactly its length |
| `AminoDuration.DurationRoundTrip` | pkgs/amino/encoder.go:261-301 | every int64 duration, both extremes included, is encodable and read back |
| `AminoDuration.DecodedDurationIsExact` | pkgs/amino/decoder.go:267-281 | a decoded duration is the exact sum of its parts |
| `AminoDuration.TimeRoundTrip` | pkgs/amino/encoder.go:192-240 | every valid time value is read back |
| `CListModel.PushKeeps` | pkgs/clist/clist.go:314-350 | a push keeps order, links, waiting and walkers right, appends just the new element and releases no waiter twice |
| `CListModel.RemovalKeeps` | pkgs/clist/clist.go:354-399 | a removal deletes just that element and keeps order, links, waiting and walkers right |
| `CListModel.RemovalKeepsWalkersSafe` | pkgs/clist/clist.go:374-395 | walkers are safe after each of the three steps of a removal that they can observe |
| `CListModel.RemovedSettles` | pkgs/clist/clist.go:195-210 | a removed element has all its waiters released, none twice |
| `CListModel.DetachKeeps` | pkgs/clist/clist.go:134-152 | detaching a removed element on either side keeps everything right |
| `CListModel.RunsKeepOrder` | pkgs/clist/clist.go:314-399 | in every state of every run, in which a removal is three steps with detaches possible between them, walkers are safe: no lost wakeup, no wait group replaced while pending, no skip; whenever the list is unlocked it is in order; no step follows a pointer to nowhere |
| `CListModel.MovesKeep` | pkgs/clist/clist.go:314-399 | each such step keeps the invariant, in the middle of a removal too |
| `CListModel.DetachCommutes` | pkgs/clist/clist.go:134-152 | detaching a removed element commutes with the steps of a removal in progress |
| `CListModel.GoneStaysGone` | pkgs/clist/clist.go:352-354 | over a run elements are only added, and one that left the list does not come back |
| `CListModel.WalksGoForward` | pkgs/clist/clist.go:112-117 | a walk along next pointers, looking at later and later states of a run, goes forward in insertion order |
| `CListModel.WalksAreShort` | pkgs/clist/clist.go:112-117 | it has fewer hops than elements had been pushed by its last look |
| `CListModel.WalksSkipNothing` | pkgs/clist/clist.go:57-73 | it visits every element in its range that is in the list at its first look and at its last |
| `CListModel.SetLinkSettles` | pkgs/clist/clist.go:156-193 | setting a link releases waiters exactly when a target appears, once, and renews what there is to wait on only after release |
| `CListModel.CutoutRemoves` | pkgs/clist/clist.go:354-399 | what Remove does by the links of an element of the list is its removal, and releases nothing twice |
| `CListModel.RemovedTwiceBreaks` | pkgs/clist/clist.go:352-354 | removing an element that is not in the list and still attached leaves memory that is in order for no choice of the elements in it |
| `CListModel.RemovedTwiceMiscounts` | pkgs/clist/clist.go:374-395 | removing an element from between two others twice changes, the second time, nothing but the length |
| `CListModel.RemovedTwice` | pkgs/clist/clist.go:374-395 | three elements pushed and the middle one removed twice: a list of two with length one |
| `CList.Element.SetNext` | pkgs/clist/clist.go:156-175 | sets the next link with its wait group and channel, and panics exactly when it would release the same waiters again |
| `CList.Element.SetPrev` | pkgs/clist/clist.go:179-193 | sets the previous link with its wait group and channel, and panics exactly when it would release the same waiters again |
| `CList.Element.SetRemoved` | pkgs/clist/clist.go:195-210 | marks the element removed and wakes those waiting on either side |
| `CList.LinkedList.PushBack` | pkgs/clist/clist.go:314-350 | appends one element to the contents, or panics at the maximal length: then only the waiters of an empty list have been released, and the list is in order if and only if it was not empty |
| `CList.LinkedList.Remove` | pkgs/clist/clist.go:354-399 | takes just that element out of the contents; refuses one removed before if it is detached on a side or the list empty; the list stays in order if and only if one of these is the case |
| `CList.LinkedList.RemoveAt` | pkgs/clist/clist.go:374-395 | links the neighbours past the element in order, then marks it, or panics on the way |
| `CList.LinkedList.DetachNext` | pkgs/clist/clist.go:134-142 | cuts the next link of a removed element; panics on another |
| `CList.LinkedList.DetachPrev` | pkgs/clist/clist.go:144-152 | cuts the previous link of a removed element; panics on another |
| `AsyncParallel.ParallelIsRight` | pkgs/async/async.go:139-191 | under every interleaving true means that every task returned without abort or panic and its result is in the set, false that some task aborted or panicked |
| `AsyncParallel.TasksNeverBlock` | pkgs/async/async.go:154-173 | a task goroutine can always take its next step, also after an early abort and after Parallel has returned |
| `AsyncParallel.ReapedResultsAreRight` | pkgs/async/async.go:65-87 | a reaped result is that of its task, finished or not |
| `AsyncParallel.WaitIsRight` | pkgs/async/async.go:91-107 | when Wait returns every task has ended and its result is in the set |
| `AsyncParallel.WaitGoesOn` | pkgs/async/async.go:91-107 | Wait is held up exactly until the next task in order has sent its result or, if that was reaped before, closed its channel |
| `AsyncParallel.CallerGoesOn` | pkgs/async/async.go:176-184 | the caller waits only for tasks that have yet to announce themselves |
| `AsyncParallel.RunsEnd` | pkgs/async/async.go:139-191 | every run of Parallel and one Wait ends, after at most 10n + 6 steps |
| `AsyncParallel.MaximalRuns` | pkgs/async/async.go:139-191 | in a run that cannot go on every task is done or lost to a nil panic; Parallel has returned if and only if none is lost or some task aborted, and Wait if and only if none is lost, then with all results in the set |
| `AsyncParallel.PanicCountsAsAbort` | pkgs/async/async.go:134-139 | one task that panics: Parallel returns false although no task aborted |
| `AsyncParallel.NilPanicBlocks` | pkgs/async/async.go:153-167 | one task that panics with nil: Parallel waits for ever |
| `AsyncParallel.StepKeeps` | pkgs/async/async.go:139-191 | every step of every goroutine keeps channels, counter and caller in accord |
| `PrefixDb.IncrAddsOne` | pkgs/db/util.go:18-35 | incrementing bytes adds one to the big-endian number, and overflows on all-0xFF bytes only |
| `PrefixDb.BelowNext` | pkgs/db/util.go:18-35 | everything with a prefix is below the next prefix |
| `PrefixDb.ForeignIsAbove` | pkgs/db/prefix_db.go:296-305 | a key above a prefix but without it is above every key with it |
| `PrefixDb.DomainUnderPrefix` | pkgs/db/prefix_db.go:106-126 | a prefixed key is in the domain handed down exactly when its rest is in the domain asked for |
| `PrefixDb.IterationRefinesSubMap` | pkgs/db/prefix_db.go:106-126 | stopping at the first foreign key yields exactly the sub-map's keys in the domain, once each, ascending |
| `PrefixDb.ForeignKeysInRange` | pkgs/db/util.go:18-35 | with a prefix ending in 0xFF the range handed down does admit foreign keys |
| `PrefixDb.AscendingUnique` | pkgs/db/mem_db.go:250-268 | there is only one ascending list of given keys |
| `PrefixDb.CpIncr` | pkgs/db/util.go:18-35 | the carry loop increments the copy in place, or overflows |
| `PrefixDb.MemDB.GetSortedKeys` | pkgs/db/mem_db.go:250-268 | collecting, sorting and reversing gives exactly the keys in the domain, in order, whatever order the map gives them |
| `PrefixDb.MemDB.ReverseInPlace` | pkgs/db/mem_db.go:259-266 | the swap loop reverses the keys |
| `PrefixDb.MemIterator.Next` | pkgs/db/mem_db.go:217-220 | moves on by one key |
| `PrefixDb.PrefixIterator.constructor` | pkgs/db/prefix_db.go:269-286 | an iterator starts with the stripped keys up to the first foreign one |
| `PrefixDb.PrefixIterator.Next` | pkgs/db/prefix_db.go:296-305 | moves on by one stripped key, and ends for ever at a foreign one |
| `PrefixDb.PrefixIterator.Key` | pkgs/db/prefix_db.go:307-312 | the stripped key at the front |
| `PrefixDb.PrefixDB.Set` | pkgs/db/prefix_db.go:73-79 | changes the view by the one entry, and nothing outside the prefix |
| `PrefixDb.PrefixDB.Delete` | pkgs/db/prefix_db.go:90-95 | removes the one entry from the view, and nothing outside the prefix |
| `PrefixDb.PrefixDB.Get` | pkgs/db/prefix_db.go:55-62 | looks a key up in the view |
| `PrefixDb.PrefixDB.Iterator` | pkgs/db/prefix_db.go:106-126 | the iterator lists exactly the view's keys in the domain; an empty prefix without an end panics |
| `PrefixDb.PrefixDB.Keys` | pkgs/db/types.go:75-85 | the client's loop sees exactly the keys of the view in the domain, each once, in order |
| `GnoVm.Machine.PushExpr` | pkgs/gnolang/machine.go:1390-1395 | pushes an expression, nothing else changes |
| `GnoVm.Machine.PopExpr` | pkgs/gnolang/machine.go:1397-1405 | pops the top expression, nothing else changes |
| `GnoVm.Machine.PeekValue` | pkgs/gnolang/machine.go:1408-1410 | the value on top, if there is one |
| `GnoVm.Machine.PushStmt` | pkgs/gnolang/machine.go:1343-1348 | pushes a statement or body record, nothing else changes |
| `GnoVm.Machine.ForcePopStmt` | pkgs/gnolang/machine.go:1374-1383 | pops the top entry, body or not |
| `GnoVm.Machine.PopBlock` | pkgs/gnolang/machine.go:1495-1503 | pops the last block; its variables stay in the store |
| `GnoVm.Machine.PopFrame` | pkgs/gnolang/machine.go:1593-1601 | pops the last frame, nothing else changes |
| `GnoVm.Machine.PopResults` | pkgs/gnolang/machine.go:1468-1477 | drops the results of the last call from the values |
| `GnoVm.Machine.ExecFor` | pkgs/gnolang/op_exec.go:495-517 | enters a loop: block, frame, sticky op with its body record, condition and initializer queued |
| `GnoVm.Machine.DoOpExec` | pkgs/gnolang/op_exec.go:53-65 | runs the statement on top of the statement stack |
| `GnoSimulation.SimUnary` | pkgs/gnolang/op_eval.go:293-298 | an operator with one operand realises its meaning, Go panics on a wrong operand included |
| `GnoSimulation.SimBinary` | pkgs/gnolang/op_eval.go:224-234 | left operand, right operand, operator: the meaning of the expression, at every outcome of either operand |
| `GnoSimulation.SimAssign` | pkgs/gnolang/op_exec.go:435-482 | an assignment ends with the value in the variable its path means and nothing left on the stacks |
| `GnoSimulation.SimExprStmt` | pkgs/gnolang/op_exec.go:483-494 | an expression statement drops its value |
| `GnoSimulation.SimCallStmt` | pkgs/gnolang/op_exec.go:483-494 | a call used as a statement drops its results, however many there are |
| `GnoTheorems.StoppedStays` | pkgs/gnolang/machine.go:955-1282 | a machine that has stopped stays stopped in the same way |
| `GnoScopes.DefinesKeep` | pkgs/gnolang/nodes.go:1717-1772 | any sequence of definitions in any blocks of a chain keeps all blocks well formed and only extends them |
| `GnoScopes.PathOfSlot` | pkgs/gnolang/nodes.go:1541-1578 | the path to a slot is issued for its name exactly when no inner block has the name |
| `GnoScopes.StaticBlock.constructor` | pkgs/gnolang/nodes.go:1455-1476 | a new block is empty, well formed and linked to its parent's chain |
| `GnoScopes.StaticBlock.GetLocalIsConst` | pkgs/gnolang/nodes.go:1601-1608 | whether the name is among the block's constants |
| `AminoRoundTrip.IntRoundTrip` | pkgs/amino/binary_encode.go:112-175 | integers of every kind and width, varint, fixed or unsigned, are read back to exactly their length |
| `AminoBinary.EncodeElem` | pkgs/amino/binary_encode.go:397-461 | appends what follows the key of an unpacked element: a zero byte, an implicit struct or the value; errs on a nil pointer without nil_elements |
| `AminoBinary.EncodeField` | pkgs/amino/binary_encode.go:503-529 | appends one field: nothing, a repeated list or key and value |
| `AminoBinary.DecodeElem` | pkgs/amino/binary_decode.go:826-888 | reads what follows the key of an unpacked element |
| `AminoBinary.DecodeField` | pkgs/amino/binary_decode.go:985-989 | reads the value of a field, behind a pointer or not |
| `AminoBinary.DecodeRepeated` | pkgs/amino/binary_decode.go:924-945 | reads a repeated field off the struct's bytes |
| `AminoDuration.GoBounds` | pkgs/amino/encoder.go:319-324 | the bounds on seconds are the extreme durations divided, truncating |
| `CListModel.LinksAt` | pkgs/clist/clist.go:314-399 | in every good state a live element's links are its neighbours in the sequence, mutually, with head and tail at the ends |
| `CList.Element.constructor` | pkgs/clist/clist.go:320-329 | a new element waits on both sides |
| `CList.LinkedList.constructor` | pkgs/clist/clist.go:228-249 | a new list is empty and those who wait for an element wait |
| `AsyncParallel.RunsKeep` | pkgs/async/async.go:139-191 | every reachable state is good |
| `PrefixDb.LessTotal` | pkgs/db/mem_db.go:250-268 | the byte order is total |
| `PrefixDb.YieldIsAll` | pkgs/db/prefix_db.go:269-305 | a rest is yielded exactly when the prefixed key is listed, in ascending order |
| `PrefixDb.SetUnderPrefix` | pkgs/db/prefix_db.go:73-79 | setting a prefixed key sets the rest in the sub-map |
| `PrefixDb.DeleteUnderPrefix` | pkgs/db/prefix_db.go:90-95 | deleting a prefixed key deletes the rest from the sub-map |
| `PrefixDb.MemIterator.Key` | pkgs/db/mem_db.go:223-226 | the key at the cursor |
| `GnoScopes.DefineSetsEntry` | pkgs/gnolang/nodes.go:1717-1772 | a block is a map from names to value, static type and constness; a definition sets the entry of its name, unless blank, and no other |
| `GnoStore.DepthIsClimb` | pkgs/gnolang/values.go:2296-2323 | following parents through as many blocks as the depth says, the current one first, leads to the block of the path |
| `GnoStore.ResolvedHasClimb` | pkgs/gnolang/values.go:2296-2323 | every block a path resolves to is reached by such a climb |
| `GnoValues.OperatorsFailIff` | pkgs/gnolang/op_binary.go:337-927 | exactly which operands make a binary operator panic: a zero divisor, different types or unsupported ones; undefined operands only where the operator is not `==` or `!=` |
| `GnoValues.EqualityIsIdentity` | pkgs/gnolang/op_binary.go:337-487 | wherever `==` answers it is identity, undefined values included, and `!=` answers there with the opposite and nowhere else |

## Left out

Of the virtual machine:

- The preprocessor, goto, switch, select, range in `=` form, multiple assignment, operator
  assignment, bitwise operators, variadic functions, methods, native functions other than
  recover, deferred native calls, and values other than booleans, integers, lists and
  functions: they add cases, not harder claims.
- A function with results that ends without a return, a branch that finds no loop of its
  function, a deferred call of a native function, and a call with the wrong number of
  arguments or results have no structured meaning; nothing is claimed of programs that do
  this. The first two are ruled out by the predicate `GnoAlignment.Compiled`.
- The record that drives a body is modelled in the statement-stack entry that refers to it,
  and blocks as slot maps in one store, without sizes, allocation limits or object
  persistence. Realm finalization is an event in a log.
- Operands of different types are a Go panic, as in the debug build; a frame deeper than the
  stacks it describes is a Go panic, where Go would re-slice.
- Comparing two functions or two lists is a Go panic in the model, as in the debug build; the
  release build compares functions by source location and closure and slices by identity.
  A nil function or slice is not a value of the model.
- That the saved depths of the calls on the stack are nested is a hypothesis of
  `GnoUnwind` and `GnoPanicRealms`, kept by every call (`GnoUnwind.CallNests`). Programs with
  wrong numbers of values can break it.
- GnoVm.Machine.PopFrameAndReturn: results that are undefined keep no static type, because
  values carry none; the conversion to a typed nil is not modelled.
- GnoVm.Machine.Run: a run that never ends cannot be a Dafny method, which must end; such runs
  are the function GnoMachine.Run. The cycle counter is unbounded where Go has int64.
- GnoEval.Eval: for a machine with no frame on its stack, and a call expression, because other
  expressions are wrapped into a call before they get here; nothing is said where the
  structured semantics gives no meaning.

Of Amino:

- Interfaces and Any, representation types, arrays, maps, floats, pointers to other than
  structs, top-level values other than structs, fixed tags on plain int and uint, JSON and
  the generated bindings.
- Encodings of 2^63 bytes or more are excluded by hypothesis: no Go slice is that long.
- Values are in normal form: an empty list or byte slice is the nil one. Decoding is into a
  fresh zero value.
- Writers and readers that fail other than by end of input.
- AminoPrimitives and AminoDuration: the varint, byte-slice, duration and time codecs are
  functions on byte sequences; the slices that decodeSeconds and decodeNanos advance in place
  are not captured.

Of the others:

- CList: NextWait, FrontWait and the other waiting loops are left to what they wait on; their
  guarantee is that a wait group or channel is released whenever its condition holds.
  Locks are represented by the steps they make atomic.
- CList: that a panic leaves a lock held is not represented, so nothing is said of operations
  on a list after one.
- AsyncParallel: fewer than 2^32 tasks, so that the 32-bit panic counter cannot wrap to zero.
  Wait is called at most once, after Parallel has returned. A task that never ends is one
  whose run goes on.
- PrefixDb: reverse iteration under a prefix, batches, locking and the other backends.
  Sorting is the library's, given as a function; the value at the cursor is the database's Get.

Of the repository: commands, node, wallet, crypto, event and file packages.
