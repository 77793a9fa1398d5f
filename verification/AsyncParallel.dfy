/** Parallel and the Wait after it as a state machine: the goroutine that called it, one goroutine for each
    task, and their channels; every interleaving of their steps is a run. */
module AsyncParallel {

  datatype Option<+T> = None | Some(value: T)

  /** How a task ends. Values and errors are known by number. */
  datatype Outcome = Returned(val: nat, err: nat, abort: bool) | Panicked(err: nat)

  datatype TaskResult = TaskResult(val: Option<nat>, err: nat)

  function ResultOf(o: Outcome): TaskResult {
    match o
    case Returned(val, err, _) => TaskResult(Some(val), err)
    case Panicked(err) => TaskResult(None, err)
  }

  /** Where a task's goroutine is. One whose task panicked with nil is lost: `recover`
      gives it nil, which it takes for no panic. */
  datatype Pc =
    | NotStarted
    | Running
    | Lost
    | Ended(o: Outcome)
    | Counted(o: Outcome)
    | Sent(o: Outcome)
    | Closed(o: Outcome)
    | Done(o: Outcome)

  /** A channel with room for one result. */
  datatype ResultCh = ResultCh(buf: Option<TaskResult>, closed: bool)

  /** Where the caller is: inside Parallel until Finished, then possibly in Wait. */
  datatype Main =
    | Starting(next: nat)
    | Waiting
    | Checking(ok: bool)
    | Reaping(ok: bool, next: nat)
    | Finished(ok: bool)
    | Awaiting(ok: bool, next: nat)
    | Complete(ok: bool)

  /** `done` is the channel of finished tasks, with room for all; `received` counts the
      receives from it. */
  datatype State = State(
    pcs: seq<Pc>,
    chs: seq<ResultCh>,
    done: seq<bool>,
    received: nat,
    numPanics: nat,
    main: Main,
    results: seq<Option<TaskResult>>)

  function Init(n: nat): State {
    State(seq(n, _ => NotStarted), seq(n, _ => ResultCh(None, false)), [], 0, 0, Starting(0), seq(n, _ => None))
  }

  const TWO_32: int := 0x1_0000_0000

  // ---------------------------------------------------------------- steps

  datatype Step =
    | Start
    | Finish(i: nat, o: Outcome)
    | Lose(i: nat)
    | Tally(i: nat)
    | Send(i: nat)
    | Close(i: nat)
    | Announce(i: nat)
    | Receive
    | Check
    | Reap
    | CallWait
    | Await

  /** A task goroutine about to send its result, or to announce that it is done. */
  predicate WantsToSend(pc: Pc) {
    (pc.Ended? && pc.o.Returned?) || pc.Counted?
  }

  predicate Enabled(s: State, step: Step)
    requires |s.chs| == |s.pcs| == |s.results|
  {
    match step
    case Start => s.main.Starting?
    case Finish(i, _) => i < |s.pcs| && s.pcs[i].Running?
    case Lose(i) => i < |s.pcs| && s.pcs[i].Running?
    case Tally(i) => i < |s.pcs| && s.pcs[i].Ended? && s.pcs[i].o.Panicked?
    case Send(i) => i < |s.pcs| && WantsToSend(s.pcs[i]) && s.chs[i].buf.None? && !s.chs[i].closed
    case Close(i) => i < |s.pcs| && s.pcs[i].Sent? && !s.chs[i].closed
    case Announce(i) => i < |s.pcs| && s.pcs[i].Closed? && |s.done| < |s.pcs|
    case Receive => s.main.Waiting? && (s.received >= |s.pcs| || s.done != [])
    case Check => s.main.Checking?
    case Reap => s.main.Reaping?
    case CallWait => s.main.Finished?
    case Await =>
      s.main.Awaiting? && (s.main.next < |s.pcs| ==> s.chs[s.main.next].buf.Some? || s.chs[s.main.next].closed)
  }

  function Aborts(o: Outcome): bool {
    o.Returned? && o.abort
  }

  function Next(s: State, step: Step): (t: State)
    requires |s.chs| == |s.pcs| == |s.results| && Enabled(s, step)
  {
    match step
    case Start =>
      var k := s.main.next;
      if k < |s.pcs| then s.(pcs := s.pcs[k := Running], main := Starting(k + 1)) else s.(main := Waiting)
    case Finish(i, o) => s.(pcs := s.pcs[i := Ended(o)])
    case Lose(i) => s.(pcs := s.pcs[i := Lost])
    case Tally(i) => s.(pcs := s.pcs[i := Counted(s.pcs[i].o)], numPanics := s.numPanics + 1)
    case Send(i) =>
      s.(pcs := s.pcs[i := Sent(s.pcs[i].o)], chs := s.chs[i := ResultCh(Some(ResultOf(s.pcs[i].o)), false)])
    case Close(i) => s.(pcs := s.pcs[i := Closed(s.pcs[i].o)], chs := s.chs[i := s.chs[i].(closed := true)])
    case Announce(i) => s.(pcs := s.pcs[i := Done(s.pcs[i].o)], done := s.done + [Aborts(s.pcs[i].o)])
    case Receive =>
      if s.received >= |s.pcs| then s.(main := Checking(true))
      else s.(done := s.done[1..], received := s.received + 1, main := if s.done[0] then Checking(false) else Waiting)
    case Check => s.(main := Reaping(s.main.ok && s.numPanics % TWO_32 == 0, 0))
    case Reap =>
      var j := s.main.next;
      if j >= |s.pcs| then s.(main := Finished(s.main.ok)) else Take(s, j).(main := Reaping(s.main.ok, j + 1))
    case CallWait => s.(main := Awaiting(s.main.ok, 0))
    case Await =>
      var j := s.main.next;
      if j >= |s.pcs| then s.(main := Complete(s.main.ok)) else Take(s, j).(main := Awaiting(s.main.ok, j + 1))
  }

  /** The result in channel `j`, if there is one, goes to the set. */
  function Take(s: State, j: nat): State
    requires j < |s.pcs| == |s.chs| == |s.results|
  {
    match s.chs[j].buf
    case None => s
    case Some(r) => s.(results := s.results[j := Some(r)], chs := s.chs[j := s.chs[j].(buf := None)])
  }

  // ---------------------------------------------------------------- counting

  function Count(pcs: seq<Pc>, f: Pc -> bool): (n: nat)
    ensures n <= |pcs|
  {
    if pcs == [] then 0 else (if f(pcs[0]) then 1 else 0) + Count(pcs[1..], f)
  }

  lemma {:induction false} CountUpdate(pcs: seq<Pc>, i: nat, pc: Pc, f: Pc -> bool)
    requires i < |pcs|
    ensures Count(pcs[i := pc], f) == Count(pcs, f) - (if f(pcs[i]) then 1 else 0) + (if f(pc) then 1 else 0)
  {
    if i > 0 {
      assert pcs[i := pc][1..] == pcs[1..][i - 1 := pc];
      CountUpdate(pcs[1..], i - 1, pc, f);
    } else {
      assert pcs[i := pc][1..] == pcs[1..];
    }
  }

  lemma {:induction false} CountAll(pcs: seq<Pc>, f: Pc -> bool)
    ensures Count(pcs, f) == |pcs| <==> forall i | 0 <= i < |pcs| :: f(pcs[i])
    ensures Count(pcs, f) == 0 <==> forall i | 0 <= i < |pcs| :: !f(pcs[i])
  {
    if pcs != [] {
      CountAll(pcs[1..], f);
      assert forall i | 0 <= i < |pcs[1..]| :: pcs[1..][i] == pcs[i + 1];
    }
  }

  function Trues(bs: seq<bool>): nat {
    if bs == [] then 0 else (if bs[|bs| - 1] then 1 else 0) + Trues(bs[..|bs| - 1])
  }

  lemma {:induction false} TruesOfTail(bs: seq<bool>)
    requires bs != []
    ensures Trues(bs) == (if bs[0] then 1 else 0) + Trues(bs[1..])
    decreases |bs|
  {
    if |bs| > 1 {
      TruesOfTail(bs[..|bs| - 1]);
      assert bs[1..][..|bs| - 2] == bs[..|bs| - 1][1..];
    }
  }

  // ---------------------------------------------------------------- invariant

  predicate IsDone(pc: Pc) {
    pc.Done?
  }

  predicate IsAborted(pc: Pc) {
    pc.Done? && Aborts(pc.o)
  }

  predicate IsCountedPanic(pc: Pc) {
    (pc.Counted? || pc.Sent? || pc.Closed? || pc.Done?) && pc.o.Panicked?
  }

  /** The channel and the reaped result of a task go with where its goroutine is. */
  ghost predicate ChannelFits(pc: Pc, ch: ResultCh, r: Option<TaskResult>) {
    if pc.Sent? || pc.Closed? || pc.Done? then
      && ch.closed == !pc.Sent?
      && ((ch.buf == Some(ResultOf(pc.o)) && r.None?) || (ch.buf.None? && r == Some(ResultOf(pc.o))))
    else !ch.closed && ch.buf.None? && r.None? && (pc.Counted? ==> pc.o.Panicked?)
  }

  ghost predicate Shaped(s: State) {
    |s.chs| == |s.pcs| == |s.results| && s.received <= |s.pcs|
  }

  ghost predicate ChannelsFit(s: State)
    requires Shaped(s)
  {
    forall i | 0 <= i < |s.pcs| :: ChannelFits(s.pcs[i], s.chs[i], s.results[i])
  }

  ghost predicate MainFits(s: State)
    requires Shaped(s)
  {
    match s.main
    case Starting(k) => k <= |s.pcs| && s.received == 0 && forall i | k <= i < |s.pcs| :: s.pcs[i].NotStarted?
    case Waiting => true
    case Checking(ok) => ok ==> s.received == |s.pcs|
    case Reaping(ok, j) => j <= |s.pcs| && (ok ==> AllWell(s)) && (!ok ==> SomeFailed(s)) && Reaped(s, j)
    case Finished(ok) => (ok ==> AllWell(s)) && (!ok ==> SomeFailed(s)) && Reaped(s, |s.pcs|)
    case Awaiting(ok, j) => j <= |s.pcs| && (ok ==> AllWell(s)) && (!ok ==> SomeFailed(s)) && Taken(s, j)
    case Complete(ok) => (ok ==> AllWell(s)) && (!ok ==> SomeFailed(s)) && Taken(s, |s.pcs|)
  }

  ghost predicate Taken(s: State, j: nat) {
    forall i | 0 <= i < j && i < |s.results| :: s.results[i].Some?
  }

  /** The results of tasks that were done when the caller had counted all are taken in
      order. */
  ghost predicate Reaped(s: State, j: nat)
    requires Shaped(s)
  {
    AllWell(s) ==> forall i | 0 <= i < j && i < |s.pcs| :: s.results[i].Some?
  }

  ghost predicate AllWell(s: State) {
    forall i | 0 <= i < |s.pcs| :: s.pcs[i].Done? && s.pcs[i].o.Returned? && !s.pcs[i].o.abort
  }

  /** Some task aborted or panicked. */
  ghost predicate SomeFailed(s: State) {
    exists i | 0 <= i < |s.pcs| :: IsAborted(s.pcs[i]) || IsCountedPanic(s.pcs[i])
  }

  ghost predicate Inv(s: State) {
    && Shaped(s)
    && ChannelsFit(s)
    && |s.done| + s.received == Count(s.pcs, IsDone)
    && s.numPanics == Count(s.pcs, IsCountedPanic)
    && (s.main.Starting? || s.main.Waiting? || s.main == Checking(true) ==> Trues(s.done) == Count(s.pcs, IsAborted))
    && (s.main == Checking(false) ==> SomeFailed(s))
    && MainFits(s)
    && AllStarted(s) && LeftOnce(s)
  }

  /** The caller has started the tasks before the next one, in the end all. */
  ghost predicate AllStarted(s: State) {
    forall i | 0 <= i < |s.pcs| :: s.pcs[i].NotStarted? ==> s.main.Starting? && s.main.next <= i
  }

  ghost predicate SomeAborted(s: State) {
    exists i | 0 <= i < |s.pcs| :: IsAborted(s.pcs[i])
  }

  ghost predicate SomeLost(s: State) {
    exists i | 0 <= i < |s.pcs| :: s.pcs[i].Lost?
  }

  /** The caller has left the waiting loop. */
  predicate Left(main: Main) {
    !main.Starting? && !main.Waiting?
  }

  ghost predicate LeftOnce(s: State) {
    Left(s.main) ==> s.received == |s.pcs| || SomeAborted(s)
  }

  lemma InitInv(n: nat)
    ensures Inv(Init(n))
  {
    CountAll(Init(n).pcs, IsDone);
    CountAll(Init(n).pcs, IsAborted);
    CountAll(Init(n).pcs, IsCountedPanic);
  }

  // ---------------------------------------------------------------- task steps

  /** A task goroutine moves on, changing its own place and channel only. */
  lemma TaskMoves(s: State, t: State, i: nat, pc: Pc, ch: ResultCh)
    requires Inv(s) && i < |s.pcs| && !s.pcs[i].NotStarted? && !s.pcs[i].Done? && !pc.Done? && !pc.NotStarted?
    requires t == s.(pcs := s.pcs[i := pc], chs := s.chs[i := ch], numPanics := t.numPanics)
    requires ChannelFits(pc, ch, s.results[i])
    requires IsCountedPanic(s.pcs[i]) ==> IsCountedPanic(pc)
    requires t.numPanics == s.numPanics + (if IsCountedPanic(pc) && !IsCountedPanic(s.pcs[i]) then 1 else 0)
    ensures Inv(t)
  {
    CountUpdate(s.pcs, i, pc, IsDone);
    CountUpdate(s.pcs, i, pc, IsAborted);
    CountUpdate(s.pcs, i, pc, IsCountedPanic);
    StillFailed(s, t, i, pc);
    assert !s.pcs[i].Done? && !t.pcs[i].Done?;
  }

  lemma StillFailed(s: State, t: State, i: nat, pc: Pc)
    requires i < |s.pcs| && t.pcs == s.pcs[i := pc]
    requires (IsCountedPanic(s.pcs[i]) ==> IsCountedPanic(pc)) && (IsAborted(s.pcs[i]) ==> IsAborted(pc))
    ensures SomeFailed(s) ==> SomeFailed(t)
    ensures SomeAborted(s) ==> SomeAborted(t)
  {
    if SomeAborted(s) {
      var k :| 0 <= k < |s.pcs| && IsAborted(s.pcs[k]);
      assert IsAborted(t.pcs[k]);
    }
    if SomeFailed(s) {
      var k :| 0 <= k < |s.pcs| && (IsAborted(s.pcs[k]) || IsCountedPanic(s.pcs[k]));
      assert IsAborted(t.pcs[k]) || IsCountedPanic(t.pcs[k]);
    }
  }

  lemma AnnounceKeeps(s: State, i: nat)
    requires Inv(s) && Enabled(s, Announce(i))
    ensures Inv(Next(s, Announce(i)))
  {
    hide MainFits, SomeFailed, SomeAborted, ChannelsFit, Count, Trues;
    var pc := Done(s.pcs[i].o);
    var t := Next(s, Announce(i));
    AnnounceCounts(s, i);
    StillFailed(s, t, i, pc);
    AnnounceFits(s, i);
    NotFinishedYet(s, t, i);
  }

  lemma AnnounceFits(s: State, i: nat)
    requires Shaped(s) && ChannelsFit(s) && Enabled(s, Announce(i))
    ensures ChannelsFit(Next(s, Announce(i)))
  {
    assert ChannelFits(s.pcs[i], s.chs[i], s.results[i]);
  }

  lemma AnnounceCounts(s: State, i: nat)
    requires |s.chs| == |s.pcs| == |s.results| && Enabled(s, Announce(i))
    ensures var t := Next(s, Announce(i));
            && Count(t.pcs, IsDone) == Count(s.pcs, IsDone) + 1
            && Count(t.pcs, IsCountedPanic) == Count(s.pcs, IsCountedPanic)
            && Trues(t.done) - Trues(s.done) == Count(t.pcs, IsAborted) - Count(s.pcs, IsAborted)
  {
    var pc := Done(s.pcs[i].o);
    var t := Next(s, Announce(i));
    CountUpdate(s.pcs, i, pc, IsDone);
    CountUpdate(s.pcs, i, pc, IsAborted);
    CountUpdate(s.pcs, i, pc, IsCountedPanic);
    assert t.done[..|t.done| - 1] == s.done;
  }

  /** A caller that left the waiting loop without a failure has seen every task done. */
  lemma NotFinishedYet(s: State, t: State, i: nat)
    requires Inv(s) && i < |s.pcs| && !s.pcs[i].NotStarted? && !s.pcs[i].Done? && Shaped(t)
    requires forall k | 0 <= k < |s.pcs| && k != i :: k < |t.pcs| && t.pcs[k] == s.pcs[k]
    requires t.main == s.main && t.results == s.results && |t.pcs| == |s.pcs| && t.received == s.received
    requires SomeFailed(s) ==> SomeFailed(t)
    ensures MainFits(t)
  {
    CountAll(s.pcs, IsDone);
    if !t.main.Starting? && !t.main.Waiting? && !t.main.Checking? {
      assert !AllWell(s);
    }
  }

  // ---------------------------------------------------------------- the caller's steps

  lemma StartKeeps(s: State)
    requires Inv(s) && Enabled(s, Start)
    ensures Inv(Next(s, Start))
  {
    var k := s.main.next;
    if k < |s.pcs| {
      CountUpdate(s.pcs, k, Running, IsDone);
      CountUpdate(s.pcs, k, Running, IsAborted);
      CountUpdate(s.pcs, k, Running, IsCountedPanic);
    }
  }

  lemma ReceiveKeeps(s: State)
    requires Inv(s) && Enabled(s, Receive)
    ensures Inv(Next(s, Receive))
  {
    if s.received < |s.pcs| {
      TruesOfTail(s.done);
      CountAll(s.pcs, IsAborted);
      if s.done[0] {
        var i :| 0 <= i < |s.pcs| && IsAborted(s.pcs[i]);
        assert SomeFailed(Next(s, Receive));
      }
    }
  }

  lemma CheckKeeps(s: State)
    requires Inv(s) && Enabled(s, Check) && |s.pcs| < TWO_32
    ensures Inv(Next(s, Check))
  {
    CountAll(s.pcs, IsDone);
    CountAll(s.pcs, IsAborted);
    CountAll(s.pcs, IsCountedPanic);
    if s.main.ok {
      assert s.done == [];
      if s.numPanics == 0 {
        forall i | 0 <= i < |s.pcs|
          ensures s.pcs[i].Done? && s.pcs[i].o.Returned? && !s.pcs[i].o.abort
        {
          assert IsDone(s.pcs[i]) && !IsAborted(s.pcs[i]) && !IsCountedPanic(s.pcs[i]);
        }
      }
    }
  }

  lemma ReapKeeps(s: State)
    requires Inv(s) && Enabled(s, Reap)
    ensures Inv(Next(s, Reap))
  {
    var j := s.main.next;
    if j < |s.pcs| {
      assert ChannelFits(s.pcs[j], s.chs[j], s.results[j]);
    }
  }

  lemma AwaitKeeps(s: State)
    requires Inv(s) && Enabled(s, Await)
    ensures Inv(Next(s, Await))
  {
    var j := s.main.next;
    if j < |s.pcs| {
      assert ChannelFits(s.pcs[j], s.chs[j], s.results[j]);
    }
  }

  /** Every step of every goroutine keeps the invariant. */
  lemma StepKeeps(s: State, step: Step)
    requires Inv(s) && Enabled(s, step) && |s.pcs| < TWO_32
    ensures Inv(Next(s, step)) && |Next(s, step).pcs| == |s.pcs|
  {
    match step {
      case Start => StartKeeps(s);
      case Receive => ReceiveKeeps(s);
      case Check => CheckKeeps(s);
      case Reap => ReapKeeps(s);
      case CallWait =>
      case Await => AwaitKeeps(s);
      case Announce(i) => AnnounceKeeps(s, i);
      case _ =>
        hide Inv;
        OwnStep(s, step);
    }
  }

  lemma OwnStep(s: State, step: Step)
    requires Inv(s) && Enabled(s, step) && (step.Finish? || step.Lose? || step.Tally? || step.Send? || step.Close?)
    ensures Inv(Next(s, step)) && |Next(s, step).pcs| == |s.pcs|
  {
    var i, t := step.i, Next(s, step);
    assert ChannelFits(s.pcs[i], s.chs[i], s.results[i]);
    TaskMoves(s, t, i, t.pcs[i], t.chs[i]);
  }

  // ---------------------------------------------------------------- runs

  ghost predicate IsRun(states: seq<State>, steps: seq<Step>, n: nat) {
    && |states| == |steps| + 1 && states[0] == Init(n)
    && forall k | 0 <= k < |steps| ::
         Shaped(states[k]) ==> Enabled(states[k], steps[k]) && states[k + 1] == Next(states[k], steps[k])
  }

  lemma {:induction false} RunsKeep(states: seq<State>, steps: seq<Step>, n: nat, k: nat)
    requires IsRun(states, steps, n) && k < |states| && n < TWO_32
    ensures Inv(states[k]) && |states[k].pcs| == n
  {
    if k == 0 {
      InitInv(n);
    } else {
      RunsKeep(states, steps, n, k - 1);
      StepKeeps(states[k - 1], steps[k - 1]);
    }
  }

  /** Whatever the interleaving: when Parallel returns true, every task has returned
      without abort or panic and its result is in the set; when it returns false, some
      task aborted or panicked. */
  lemma {:induction false} ParallelIsRight(states: seq<State>, steps: seq<Step>, n: nat, k: nat)
    requires IsRun(states, steps, n) && k < |states| && n < TWO_32 && states[k].main.Finished?
    ensures var s := states[k];
            && |s.pcs| == |s.results| == n
            && (s.main.ok ==> forall i | 0 <= i < n ::
                  && s.pcs[i].Done? && s.pcs[i].o.Returned? && !s.pcs[i].o.abort
                  && s.results[i] == Some(ResultOf(s.pcs[i].o)))
            && (!s.main.ok ==> SomeFailed(s))
  {
    RunsKeep(states, steps, n, k);
    var s := states[k];
    if s.main.ok {
      forall i | 0 <= i < n
        ensures s.results[i] == Some(ResultOf(s.pcs[i].o))
      {
        assert ChannelFits(s.pcs[i], s.chs[i], s.results[i]);
      }
    }
  }

  /** Results that were reaped are those of their tasks, finished or not. */
  lemma {:induction false} ReapedResultsAreRight(states: seq<State>, steps: seq<Step>, n: nat, k: nat, i: nat)
    requires IsRun(states, steps, n) && k < |states| && n < TWO_32 && i < n
    ensures var s := states[k];
            && |s.pcs| == |s.results| == n
            && (s.results[i].Some? ==>
                  (s.pcs[i].Sent? || s.pcs[i].Closed? || s.pcs[i].Done?) && s.results[i] == Some(ResultOf(s.pcs[i].o)))
  {
    RunsKeep(states, steps, n, k);
    assert ChannelFits(states[k].pcs[i], states[k].chs[i], states[k].results[i]);
  }

  /** When Wait has returned every task has ended, and its result is in the set. */
  lemma {:induction false} WaitIsRight(states: seq<State>, steps: seq<Step>, n: nat, k: nat, i: nat)
    requires IsRun(states, steps, n) && k < |states| && n < TWO_32 && i < n && states[k].main.Complete?
    ensures var s := states[k];
            && |s.pcs| == |s.results| == n
            && (s.pcs[i].Sent? || s.pcs[i].Closed? || s.pcs[i].Done?)
            && s.results[i] == Some(ResultOf(s.pcs[i].o))
  {
    RunsKeep(states, steps, n, k);
    ReapedResultsAreRight(states, steps, n, k, i);
    assert Taken(states[k], n);
  }

  /** Wait is held up only by the next task in order, until it has sent its result or,
      when that was reaped before, closed its channel. */
  lemma {:induction false} WaitGoesOn(states: seq<State>, steps: seq<Step>, n: nat, k: nat)
    requires IsRun(states, steps, n) && k < |states| && n < TWO_32 && states[k].main.Awaiting?
    ensures var s := states[k];
            && Shaped(s) && s.main.next <= |s.pcs|
            && (Enabled(s, Await) <==>
                  s.main.next < |s.pcs| ==>
                    var pc := s.pcs[s.main.next];
                    pc.Closed? || pc.Done? || (pc.Sent? && s.results[s.main.next].None?))
  {
    RunsKeep(states, steps, n, k);
    var s := states[k];
    if s.main.next < n {
      assert ChannelFits(s.pcs[s.main.next], s.chs[s.main.next], s.results[s.main.next]);
    }
  }

  /** No task goroutine ever blocks: whatever the caller does, and after it has
      returned, one that has not finished can take its next step. */
  lemma {:induction false} TasksNeverBlock(states: seq<State>, steps: seq<Step>, n: nat, k: nat, i: nat)
    requires IsRun(states, steps, n) && k < |states| && n < TWO_32 && i < n
    ensures var s := states[k];
            && Shaped(s) && |s.pcs| == n
            && (s.pcs[i].Ended? && s.pcs[i].o.Panicked? ==> Enabled(s, Tally(i)))
            && (WantsToSend(s.pcs[i]) ==> Enabled(s, Send(i)))
            && (s.pcs[i].Sent? ==> Enabled(s, Close(i)))
            && (s.pcs[i].Closed? ==> Enabled(s, Announce(i)))
  {
    RunsKeep(states, steps, n, k);
    var s := states[k];
    assert ChannelFits(s.pcs[i], s.chs[i], s.results[i]);
    if s.pcs[i].Closed? {
      CountAll(s.pcs, IsDone);
      assert !IsDone(s.pcs[i]);
    }
  }

  /** Nor does the caller, once the tasks have finished: it waits only for tasks that
      have yet to announce themselves. */
  lemma {:induction false} CallerGoesOn(states: seq<State>, steps: seq<Step>, n: nat, k: nat)
    requires IsRun(states, steps, n) && k < |states| && n < TWO_32
    requires states[k].main.Waiting? && forall i | 0 <= i < |states[k].pcs| :: states[k].pcs[i].Done?
    ensures Shaped(states[k]) && Enabled(states[k], Receive)
  {
    RunsKeep(states, steps, n, k);
    CountAll(states[k].pcs, IsDone);
  }

  // ---------------------------------------------------------------- termination

  /** Steps a task goroutine has ahead of it. */
  function TaskSteps(pc: Pc): nat {
    match pc
    case NotStarted => 6
    case Running => 5
    case Lost => 0
    case Ended(_) => 4
    case Counted(_) => 3
    case Sent(_) => 2
    case Closed(_) => 1
    case Done(_) => 0
  }

  function AllTaskSteps(pcs: seq<Pc>): nat {
    if pcs == [] then 0 else TaskSteps(pcs[0]) + AllTaskSteps(pcs[1..])
  }

  lemma {:induction false} TaskStepsUpdate(pcs: seq<Pc>, i: nat, pc: Pc)
    requires i < |pcs|
    ensures AllTaskSteps(pcs[i := pc]) == AllTaskSteps(pcs) - TaskSteps(pcs[i]) + TaskSteps(pc)
  {
    if i > 0 {
      assert pcs[i := pc][1..] == pcs[1..][i - 1 := pc];
      TaskStepsUpdate(pcs[1..], i - 1, pc);
    } else {
      assert pcs[i := pc][1..] == pcs[1..];
    }
  }

  /** Steps the caller has ahead of it, at most. */
  function CallerSteps(s: State): int {
    var n := |s.pcs|;
    match s.main
    case Starting(k) => 3 * n + 6 + (if k < n then n - k else 0)
    case Waiting => 2 * n + 5 + (n - s.received)
    case Checking(_) => 2 * n + 4
    case Reaping(_, j) => n + 3 + (if j < n then n - j else 0)
    case Finished(_) => n + 2
    case Awaiting(_, j) => 1 + (if j < n then n - j else 0)
    case Complete(_) => 0
  }

  function StepsAhead(s: State): int {
    AllTaskSteps(s.pcs) + CallerSteps(s)
  }

  predicate OfCaller(step: Step) {
    step.Start? || step.Receive? || step.Check? || step.Reap? || step.CallWait? || step.Await?
  }

  lemma StepsRunOut(s: State, step: Step)
    requires Shaped(s) && MainFits(s) && Enabled(s, step)
    ensures 0 <= StepsAhead(Next(s, step)) < StepsAhead(s)
  {
    if OfCaller(step) {
      CallerStepsRunOut(s, step);
    } else {
      var t := Next(s, step);
      TaskStepsUpdate(s.pcs, step.i, t.pcs[step.i]);
      hide AllTaskSteps;
      assert CallerSteps(t) == CallerSteps(s) >= 0;
    }
  }

  lemma CallerStepsRunOut(s: State, step: Step)
    requires Shaped(s) && MainFits(s) && Enabled(s, step) && OfCaller(step)
    ensures 0 <= StepsAhead(Next(s, step)) < StepsAhead(s)
  {
    hide AllTaskSteps;
    if step.Start? && s.main.next < |s.pcs| {
      TaskStepsUpdate(s.pcs, s.main.next, Running);
    }
  }

  lemma {:induction false} InitialSteps(pcs: seq<Pc>)
    requires forall i | 0 <= i < |pcs| :: pcs[i].NotStarted?
    ensures AllTaskSteps(pcs) == 6 * |pcs|
  {
    if pcs != [] {
      InitialSteps(pcs[1..]);
    }
  }

  /** Every run ends, after at most 10n + 6 steps. */
  lemma {:induction false} RunsEnd(states: seq<State>, steps: seq<Step>, n: nat)
    requires IsRun(states, steps, n) && n < TWO_32
    ensures |steps| <= 10 * n + 6
  {
    InitialSteps(Init(n).pcs);
    StepsLeft(states, steps, n, |steps|);
  }

  lemma {:induction false} StepsLeft(states: seq<State>, steps: seq<Step>, n: nat, k: nat)
    requires IsRun(states, steps, n) && n < TWO_32 && k <= |steps|
    ensures Shaped(states[k]) && 0 <= StepsAhead(states[k]) <= StepsAhead(Init(n)) - k
  {
    RunsKeep(states, steps, n, k);
    if k > 0 {
      StepsLeft(states, steps, n, k - 1);
      RunsKeep(states, steps, n, k - 1);
      StepsRunOut(states[k - 1], steps[k - 1]);
    }
  }

  // ---------------------------------------------------------------- maximal runs

  ghost predicate Halts(s: State)
    requires Shaped(s)
  {
    forall step: Step :: !Enabled(s, step)
  }

  lemma {:induction false} HaltedTasks(s: State, i: nat)
    requires Inv(s) && Halts(s) && i < |s.pcs|
    ensures s.pcs[i].Done? || s.pcs[i].Lost?
  {
    assert ChannelFits(s.pcs[i], s.chs[i], s.results[i]);
    CountAll(s.pcs, IsDone);
    assert s.pcs[i].Closed? ==> !IsDone(s.pcs[i]);
    assert !Enabled(s, Start) && !Enabled(s, Lose(i)) && !Enabled(s, Tally(i));
    assert !Enabled(s, Send(i)) && !Enabled(s, Close(i)) && !Enabled(s, Announce(i));
  }

  lemma {:induction false} HaltedCaller(s: State)
    requires Inv(s) && Halts(s)
    ensures s.main.Waiting? || s.main.Awaiting? || s.main.Complete?
    ensures s.main.Waiting? ==> s.received < |s.pcs| && s.done == []
    ensures s.main.Awaiting? ==> s.main.next < |s.pcs| && s.pcs[s.main.next].Lost?
  {
    assert !Enabled(s, Start) && !Enabled(s, Receive) && !Enabled(s, Check) && !Enabled(s, Reap);
    assert !Enabled(s, CallWait) && !Enabled(s, Await);
    if s.main.Awaiting? {
      HaltedTasks(s, s.main.next);
      assert ChannelFits(s.pcs[s.main.next], s.chs[s.main.next], s.results[s.main.next]);
    }
  }

  /** The tasks that are done are all, if none is lost. */
  lemma {:induction false} HaltedCount(s: State)
    requires Inv(s) && Halts(s)
    ensures Count(s.pcs, IsDone) == |s.pcs| <==> !SomeLost(s)
  {
    CountAll(s.pcs, IsDone);
    forall i | 0 <= i < |s.pcs|
      ensures IsDone(s.pcs[i]) || s.pcs[i].Lost?
    {
      HaltedTasks(s, i);
    }
  }

  /** A run that cannot go on: every task is done or lost. Parallel has returned if and
      only if no task is lost or some task aborted. Wait after it has returned if and
      only if no task is lost; then the results of all are in the set. */
  lemma {:induction false} MaximalRuns(states: seq<State>, steps: seq<Step>, n: nat)
    requires IsRun(states, steps, n) && n < TWO_32
    requires Shaped(states[|steps|]) && Halts(states[|steps|])
    ensures var s := states[|steps|];
            && |s.pcs| == |s.results| == n
            && (forall i | 0 <= i < n :: s.pcs[i].Done? || s.pcs[i].Lost?)
            && (s.main.Waiting? || s.main.Awaiting? || s.main.Complete?)
            && (!s.main.Waiting? <==> !SomeLost(s) || SomeAborted(s))
            && (s.main.Complete? <==> !SomeLost(s))
            && (!SomeLost(s) ==> forall i | 0 <= i < n :: s.pcs[i].Done? && s.results[i] == Some(ResultOf(s.pcs[i].o)))
  {
    RunsKeep(states, steps, n, |steps|);
    var s := states[|steps|];
    HaltedCaller(s);
    HaltedCount(s);
    CountAll(s.pcs, IsAborted);
    forall i | 0 <= i < n
      ensures s.pcs[i].Done? || s.pcs[i].Lost?
    {
      HaltedTasks(s, i);
    }
    if s.main.Complete? {
      forall i | 0 <= i < n
        ensures s.pcs[i].Done? && s.results[i] == Some(ResultOf(s.pcs[i].o))
      {
        WaitIsRight(states, steps, n, |steps|, i);
      }
    }
  }

  // ---------------------------------------------------------------- two runs

  /** The run of one task that panics: its steps, and the state after `k` of them. */
  function PanicStep(err: nat, k: nat): Step {
    match k
    case 0 => Start
    case 1 => Start
    case 2 => Finish(0, Panicked(err))
    case 3 => Tally(0)
    case 4 => Send(0)
    case 5 => Close(0)
    case 6 => Announce(0)
    case 7 => Receive
    case 8 => Receive
    case 9 => Check
    case _ => Reap
  }

  function PanicState(err: nat, k: nat): State {
    var o, r, c := Panicked(err), Some(TaskResult(None, err)), ResultCh(None, false);
    match k
    case 0 => State([NotStarted], [c], [], 0, 0, Starting(0), [None])
    case 1 => State([Running], [c], [], 0, 0, Starting(1), [None])
    case 2 => State([Running], [c], [], 0, 0, Waiting, [None])
    case 3 => State([Ended(o)], [c], [], 0, 0, Waiting, [None])
    case 4 => State([Counted(o)], [c], [], 0, 1, Waiting, [None])
    case 5 => State([Sent(o)], [ResultCh(r, false)], [], 0, 1, Waiting, [None])
    case 6 => State([Closed(o)], [ResultCh(r, true)], [], 0, 1, Waiting, [None])
    case 7 => State([Done(o)], [ResultCh(r, true)], [false], 0, 1, Waiting, [None])
    case 8 => State([Done(o)], [ResultCh(r, true)], [], 1, 1, Waiting, [None])
    case 9 => State([Done(o)], [ResultCh(r, true)], [], 1, 1, Checking(true), [None])
    case 10 => State([Done(o)], [ResultCh(r, true)], [], 1, 1, Reaping(false, 0), [None])
    case 11 => State([Done(o)], [ResultCh(None, true)], [], 1, 1, Reaping(false, 1), [r])
    case _ => State([Done(o)], [ResultCh(None, true)], [], 1, 1, Finished(false), [r])
  }

  lemma PanicRuns(err: nat, k: nat)
    requires k < 12
    ensures Shaped(PanicState(err, k)) && Enabled(PanicState(err, k), PanicStep(err, k))
    ensures Next(PanicState(err, k), PanicStep(err, k)) == PanicState(err, k + 1)
  {
  }

  /** One task that panics: Parallel returns false although no task aborted. */
  lemma PanicCountsAsAbort(err: nat) returns (states: seq<State>, steps: seq<Step>)
    ensures IsRun(states, steps, 1)
    ensures states[|steps|].main == Finished(false) && states[|steps|].pcs == [Done(Panicked(err))]
    ensures !SomeAborted(states[|steps|])
  {
    hide Next, Enabled, PanicStep;
    assert Init(1) == PanicState(err, 0);
    states, steps := seq(13, k requires 0 <= k < 13 => PanicState(err, k)), seq(12, k requires 0 <= k < 12 => PanicStep(err, k));
    forall k | 0 <= k < 12
      ensures Shaped(states[k]) && Enabled(states[k], steps[k]) && states[k + 1] == Next(states[k], steps[k])
    {
      PanicRuns(err, k);
    }
  }

  /** One task that panics with nil: Parallel waits for ever. */
  lemma NilPanicBlocks() returns (states: seq<State>, steps: seq<Step>)
    ensures IsRun(states, steps, 1)
    ensures Shaped(states[|steps|]) && Halts(states[|steps|]) && states[|steps|].main == Waiting
  {
    var s, c := Init(1), ResultCh(None, false);
    assert s == State([NotStarted], [c], [], 0, 0, Starting(0), [None]);
    states := [s,
               State([Running], [c], [], 0, 0, Starting(1), [None]),
               State([Running], [c], [], 0, 0, Waiting, [None]),
               State([Lost], [c], [], 0, 0, Waiting, [None])];
    steps := [Start, Start, Lose(0)];
  }
}
