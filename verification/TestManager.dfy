/**
 `TestManager`: a test is complete when its main Task has ended, or something has failed, and all its
 Tasks have been cancelled and have ended.

 Cancelling a Task at once runs its coroutine and its done-callbacks inside the loop of `_abort`, and
 those may start Tasks, end Tasks and report errors in turn.  The Tasks whose coroutines are executing,
 which are the RUNNING ones, form a stack.
 */
module TestManager {
  import opened Wrappers
  import opened Sequences

  // How a Task ended.
  datatype Outcome = Returned | WasCancelled | EndTest | Error(e: int)

  datatype Exn = TaskError(e: int) | SimTimeoutError | CancelledError

  // The loop of `_abort`: the Tasks still to be cancelled, the one inside `_cancel_now` with its unanswered
  // cancellations, and the height of the stack outside it.
  datatype Loop = Loop(rest: seq<nat>, current: Option<nat>, mustCancel: nat, base: nat)

  // The main Task is number 0.
  datatype State = State(
    started: bool,
    tasks: seq<nat>,              // the insertion-ordered dict
    next: nat,
    stack: seq<nat>,              // the RUNNING Tasks, innermost last
    doneFired: bool,              // the Event `_done`
    registered: bool,             // `_on_complete` waits for it
    aborting: Option<Loop>,       // `_abort` is executing
    finishing: bool,
    timeout: bool,                // the timeout is armed
    excs: seq<Exn>,
    complete: bool,
    uncancelled: set<nat>,        // history: the Tasks that uncancelled themselves inside `_cancel_now`,
    listedRunning: bool,          //   whether `_abort` began with a RUNNING Task in its list,
    stuck: bool,                  //   whether it was left by an exception,
    scored: seq<seq<Exn>>)        //   and the errors known at each call of `_test_complete_cb`

  const Initial: State :=
    State(false, [], 1, [], false, false, None, false, false, [], false, {}, false, false, [])

  // ----- The operations -----

  function Start(s: State, timeout: bool): State {
    s.(started := true, tasks := [0], timeout := timeout)
  }

  function AddTask(s: State): State {
    s.(tasks := s.tasks + [s.next], next := s.next + 1, doneFired := false)
  }

  // `_on_complete`, which clears the current test and tells the RegressionManager
  function OnComplete(s: State): State {
    s.(complete := true, scored := s.scored + [s.excs])
  }

  // `remove_task`; setting the Event runs `_on_complete` if it is registered.
  function RemoveTask(s: State, t: nat): State {
    var s1 := s.(tasks := Without(s.tasks, t));
    if s1.tasks != [] then s1
    else
      var s2 := s1.(doneFired := true);
      if s2.registered then OnComplete(s2.(registered := false)) else s2
  }

  predicate AnyIn(ts: seq<nat>, us: seq<nat>) {
    exists t :: t in ts && t in us
  }

  // `_abort`, up to its loop
  function BeginAbort(s: State, exc: seq<Exn>): State {
    var s1 := s.(excs := s.excs + exc);
    if s1.finishing then s1
    else
      s1.(finishing := true, timeout := false, listedRunning := AnyIn(s1.tasks, s1.stack),
          aborting := Some(Loop(s1.tasks, None, 0, |s1.stack|)))
  }

  // The loop of `_abort` comes to its next Task: `_cancel_now` does nothing to one that is done, and
  // enters the coroutine of any other, on top of the `before` cancellations that it had not answered.
  function CancelNext(s: State, before: nat): (r: State)
    requires s.aborting.Some? && s.aborting.value.rest != []
    ensures r.excs == s.excs && r.complete == s.complete
  {
    var t, l := s.aborting.value.rest[0], s.aborting.value;
    if t !in s.tasks then s.(aborting := Some(l.(rest := l.rest[1..])))
    else
      s.(aborting := Some(l.(rest := l.rest[1..], current := Some(t), mustCancel := before + 1)),
         stack := s.stack + [t])
  }

  // The Task inside `_cancel_now` answers a cancellation.
  function Uncancel(s: State): (r: State)
    requires s.aborting.Some? && s.aborting.value.current.Some?
    ensures r.excs == s.excs && r.complete == s.complete
  {
    var l := s.aborting.value;
    s.(aborting := Some(l.(mustCancel := if l.mustCancel > 0 then l.mustCancel - 1 else 0)),
       uncancelled := s.uncancelled + {l.current.value})
  }

  function Leave(s: State): (r: State)
    requires s.aborting.Some?
    ensures r.excs == s.excs && r.complete == s.complete
  {
    s.(aborting := Some(s.aborting.value.(current := None)))
  }

  function Suspend(s: State): (r: State)
    requires s.stack != []
    ensures r.excs == s.excs && r.complete == s.complete
  {
    s.(stack := s.stack[..|s.stack| - 1])
  }

  // `_cancel_now` raises RuntimeError on a RUNNING Task, which ends `_abort`.
  function CancelRaises(s: State): (r: State)
    ensures r.excs == s.excs && r.complete == s.complete
  {
    s.(aborting := None, stuck := true)
  }

  // `_abort`, after its loop
  function EndAbort(s: State): State {
    var s1 := s.(aborting := None);
    if s1.doneFired then OnComplete(s1) else s1.(registered := true)
  }

  // What a done-callback passes to `_abort`, if it calls it.
  function Report(t: nat, o: Outcome, awaited: bool): Option<seq<Exn>> {
    if t == 0 then Some(if o.Error? then [TaskError(o.e)] else [])
    else if awaited then None
    else match o
      case EndTest => Some([])
      case Error(e) => Some([TaskError(e)])
      case _ => None
  }

  // A Task ends, its coroutine being on top of the stack or not executing: `_test_done_callback` or
  // `_task_done_callback`.
  function TaskDone(s: State, t: nat, o: Outcome, awaited: bool): State {
    var s1 := Removed(s, t);
    match Report(t, o, awaited)
    case Some(exc) => BeginAbort(s1, exc)
    case None => s1
  }

  // After `remove_task`.
  function Removed(s: State, t: nat): (r: State)
    ensures r.tasks == Without(s.tasks, t) && r.finishing == s.finishing && r.excs == s.excs && r.next == s.next
    ensures r.aborting == s.aborting && r.stuck == s.stuck
    ensures r.listedRunning == s.listedRunning && r.uncancelled == s.uncancelled
    ensures if s.registered && r.tasks == [] then r.complete && r.scored == s.scored + [s.excs]
            else r.complete == s.complete && r.scored == s.scored
  {
    RemoveTask(if OnTop(s, t) then Suspend(s) else s, t)
  }

  predicate OnTop(s: State, t: nat) {
    s.stack != [] && s.stack[|s.stack| - 1] == t
  }

  datatype Step =
    | DoStart(timeout: bool)
    | DoAddTask
    | DoEnter(t: nat)    // a Task is resumed,
    | DoSuspend          //   and waits
    | DoTaskDone(t: nat, o: Outcome, awaited: bool)
    | Timeout
    | Cancel
    | DoCancelNext(before: nat)
    | DoUncancel
    | DoYield            // the Task inside `_cancel_now` waits, having no unanswered cancellation
    | DoCancelReturns    // `_cancel_now` returns, the Task having ended
    | DoCancelRaises
    | DoEndAbort

  // Foreign code is executing, not `_abort` itself.
  predicate Acting(s: State) {
    s.aborting.None? || s.aborting.value.current.Some?
  }

  // A coroutine below the loop of `_abort` cannot go on before that is left.
  predicate Above(s: State) {
    s.aborting.Some? ==> |s.stack| > s.aborting.value.base
  }

  predicate IsCurrent(s: State, t: nat) {
    s.aborting.Some? && s.aborting.value.current == Some(t)
  }

  // Between two Tasks of the loop.
  predicate Turning(s: State) {
    s.aborting.Some? && s.aborting.value.current.None? && s.aborting.value.rest != []
  }

  // `create_task` refuses when no test is running, so nothing is added once the test is complete.
  // The scheduler closes a Task that waits with an unanswered cancellation, so only one that has none
  // can leave `_cancel_now` by waiting.
  predicate Enabled(s: State, p: Step) {
    match p
    case DoStart(_) => !s.started
    case DoAddTask => s.started && !s.complete && Acting(s)
    case DoEnter(t) => t in s.tasks && t !in s.stack && Acting(s)
    case DoSuspend => s.stack != [] && Acting(s) && Above(s) && !IsCurrent(s, s.stack[|s.stack| - 1])
    case DoTaskDone(t, _, _) => t in s.tasks && Acting(s) && (t in s.stack ==> OnTop(s, t) && Above(s))
    case Timeout => s.timeout
    case Cancel => s.started && Acting(s)
    case DoCancelNext(_) => Turning(s) && s.aborting.value.rest[0] !in s.stack
    case DoUncancel => s.stack != [] && IsCurrent(s, s.stack[|s.stack| - 1])
    case DoYield => s.stack != [] && IsCurrent(s, s.stack[|s.stack| - 1]) && s.aborting.value.mustCancel == 0
    case DoCancelReturns =>
      s.aborting.Some? && s.aborting.value.current.Some? && s.aborting.value.current.value !in s.tasks &&
      |s.stack| == s.aborting.value.base
    case DoCancelRaises => Turning(s) && s.aborting.value.rest[0] in s.stack
    case DoEndAbort => s.aborting.Some? && s.aborting.value.current.None? && s.aborting.value.rest == []
  }

  function Next(s: State, p: Step): State
    requires Enabled(s, p)
  {
    match p
    case DoStart(timeout) => Start(s, timeout)
    case DoAddTask => AddTask(s)
    case DoEnter(t) => s.(stack := s.stack + [t])
    case DoSuspend => Suspend(s)
    case DoTaskDone(t, o, awaited) => TaskDone(s, t, o, awaited)
    case Timeout => BeginAbort(s.(timeout := false), [SimTimeoutError])
    case Cancel => BeginAbort(s, [CancelledError])
    case DoCancelNext(before) => CancelNext(s, before)
    case DoUncancel => Uncancel(s)
    case DoYield => Leave(Suspend(s))
    case DoCancelReturns => Leave(s)
    case DoCancelRaises => CancelRaises(s)
    case DoEndAbort => EndAbort(s)
  }

  predicate Legal(s: State, ps: seq<Step>)
    decreases |ps|
  {
    ps == [] || (Enabled(s, ps[0]) && Legal(Next(s, ps[0]), ps[1..]))
  }

  function Exec(s: State, ps: seq<Step>): State
    requires Legal(s, ps)
    decreases |ps|
  {
    if ps == [] then s else Exec(Next(s, ps[0]), ps[1..])
  }

  // ----- The invariant -----

  // What is known inside the loop of `_abort`.
  ghost predicate LoopOk(s: State, l: Loop) {
    && s.finishing && !s.complete && l.base <= |s.stack|
    && (s.listedRunning <==> AnyIn(l.rest, s.stack[..l.base]))
    && match l.current
       case None => |s.stack| == l.base
       case Some(t) =>
         && t < s.next
         && (t in s.tasks ==> |s.stack| > l.base && s.stack[l.base] == t)
         && (l.mustCancel == 0 ==> t in s.uncancelled)
  }

  ghost predicate Inv(s: State) {
    && (!s.started ==> s == Initial)
    && (s.started ==> (s.doneFired <==> s.tasks == []))
    && (s.registered ==> s.finishing && s.aborting.None? && !s.complete && s.tasks != [])
    && (s.aborting.Some? ==> LoopOk(s, s.aborting.value))
    && (s.finishing && s.aborting.None? ==> s.registered || s.complete || s.stuck)
    && (s.finishing && s.aborting.None? ==> (s.stuck <==> s.listedRunning))
    && (s.stuck ==> s.finishing && s.aborting.None? && !s.registered && !s.complete)
    && Distinct(s.tasks) && (forall t :: t in s.tasks ==> t < s.next)
    && Distinct(s.stack) && (forall t :: t in s.stack ==> t in s.tasks)
    && |s.scored| == (if s.complete then 1 else 0)
    && (s.complete ==> s.finishing && s.tasks == [])
    && (s.timeout ==> !s.finishing)
  }

  lemma StepKeepsInv(s: State, p: Step)
    requires Inv(s) && Enabled(s, p)
    ensures Inv(Next(s, p))
  {
    match p
    case DoAddTask => AddKeepsInv(s);
    case DoEnter(t) => EnterKeepsInv(s, t);
    case DoSuspend => SuspendKeepsInv(s);
    case DoTaskDone(t, o, awaited) => TaskDoneKeepsInv(s, t, o, awaited);
    case Timeout => BeginKeepsInv(s.(timeout := false), [SimTimeoutError]);
    case Cancel => BeginKeepsInv(s, [CancelledError]);
    case DoCancelNext(before) => CancelNextKeepsInv(s, before);
    case DoYield => YieldKeepsInv(s);
    case _ => OtherKeepsInv(s, p);
  }

  lemma AddKeepsInv(s: State)
    requires Inv(s) && Enabled(s, DoAddTask)
    ensures Inv(AddTask(s))
  {
    assert forall i :: 0 <= i < |s.tasks| ==> s.tasks[i] in s.tasks;
    var r := AddTask(s);
    assert forall t :: t in r.tasks <==> t in s.tasks || t == s.next;
  }

  lemma EnterKeepsInv(s: State, t: nat)
    requires Inv(s) && Enabled(s, DoEnter(t))
    ensures Inv(Next(s, DoEnter(t)))
  {
    var r := Next(s, DoEnter(t));
    assert forall i :: 0 <= i < |s.stack| ==> s.stack[i] in s.stack;
    assert forall u :: u in r.stack <==> u in s.stack || u == t;
    if s.aborting.Some? {
      assert r.stack[..s.aborting.value.base] == s.stack[..s.aborting.value.base];
    }
  }

  // The Task on top is no longer RUNNING.
  lemma SuspendStack(s: State)
    requires Distinct(s.stack) && s.stack != [] && Above(s)
    ensures var r := Suspend(s);
      && Distinct(r.stack) && (forall t :: t in r.stack <==> t in s.stack && t != s.stack[|s.stack| - 1])
      && (s.aborting.Some? ==> r.stack[..s.aborting.value.base] == s.stack[..s.aborting.value.base])
  {
    var r, top := Suspend(s), s.stack[|s.stack| - 1];
    assert s.stack == r.stack + [top];
    forall t | t in r.stack ensures t != top {
      var i :| 0 <= i < |r.stack| && r.stack[i] == t;
      assert s.stack[i] == t;
    }
  }

  lemma SuspendKeepsInv(s: State)
    requires Inv(s) && Enabled(s, DoSuspend)
    ensures Inv(Suspend(s))
  {
    SuspendStack(s);
    if s.aborting.Some? {
      var l := s.aborting.value;
      assert l.current.Some? && l.current.value in s.tasks ==> |s.stack| > l.base + 1;
    }
  }

  lemma YieldKeepsInv(s: State)
    requires Inv(s) && Enabled(s, DoYield)
    ensures Inv(Next(s, DoYield))
  {
    SuspendStack(s);
    TopIsCurrent(s);
  }

  // When the Task inside `_cancel_now` is on top, nothing else is above the loop.
  lemma TopIsCurrent(s: State)
    requires Inv(s) && s.stack != [] && IsCurrent(s, s.stack[|s.stack| - 1])
    ensures Above(s) && |s.stack| == s.aborting.value.base + 1
  {
    var l := s.aborting.value;
    assert s.stack[|s.stack| - 1] in s.stack;
    assert s.stack[l.base] == s.stack[|s.stack| - 1];
  }

  lemma RemoveKeepsInv(s: State, t: nat)
    requires Inv(s) && t in s.tasks && t !in s.stack && !IsCurrent(s, t)
    ensures Inv(RemoveTask(s, t))
  {
    WithoutDistinct(s.tasks, t);
  }

  // The end of a Task, before its done-callback reports anything.
  lemma EndKeepsInv(s: State, t: nat)
    requires Inv(s) && t in s.tasks && Acting(s) && (t in s.stack ==> OnTop(s, t) && Above(s))
    ensures Inv(Removed(s, t))
  {
    WithoutDistinct(s.tasks, t);
    if OnTop(s, t) {
      assert t in s.stack;
      SuspendStack(s);
    }
    if IsCurrent(s, t) {
      assert s.stack[s.aborting.value.base] in s.stack;
    }
  }

  lemma TaskDoneKeepsInv(s: State, t: nat, o: Outcome, awaited: bool)
    requires Inv(s) && Enabled(s, DoTaskDone(t, o, awaited))
    ensures Inv(TaskDone(s, t, o, awaited))
  {
    EndKeepsInv(s, t);
    var s1 := Removed(s, t);
    BeginKeepsInv(s1, match Report(t, o, awaited) case Some(exc) => exc case None => []);
  }

  lemma BeginKeepsInv(s: State, exc: seq<Exn>)
    requires Inv(s) && s.started
    ensures Inv(BeginAbort(s, exc))
  {
    assert s.stack[..|s.stack|] == s.stack;
  }

  lemma CancelNextKeepsInv(s: State, before: nat)
    requires Inv(s) && Enabled(s, DoCancelNext(before))
    ensures Inv(CancelNext(s, before))
  {
    var l, r := s.aborting.value, CancelNext(s, before);
    var t := l.rest[0];
    assert s.stack[..l.base] == s.stack && r.stack[..l.base] == s.stack;
    assert forall u :: u in l.rest <==> u == t || u in l.rest[1..];
    assert AnyIn(l.rest, s.stack) <==> AnyIn(l.rest[1..], s.stack);
    assert forall i :: 0 <= i < |s.stack| ==> s.stack[i] in s.stack;
    assert forall u :: u in r.stack ==> u in s.stack || u == t;
  }

  lemma OtherKeepsInv(s: State, p: Step)
    requires Inv(s) && Enabled(s, p)
    requires p.DoStart? || p.DoUncancel? || p.DoCancelReturns? || p.DoCancelRaises? || p.DoEndAbort?
    ensures Inv(Next(s, p))
  {
    if p.DoCancelRaises? || p.DoEndAbort? {
      assert s.stack[..s.aborting.value.base] == s.stack;
    }
    if p.DoCancelRaises? {
      assert s.aborting.value.rest[0] in s.aborting.value.rest;
    }
  }

  lemma {:induction false} RunKeepsInv(s: State, ps: seq<Step>)
    requires Inv(s) && Legal(s, ps)
    ensures Inv(Exec(s, ps))
    decreases |ps|
  {
    if ps != [] {
      StepKeepsInv(s, ps[0]);
      RunKeepsInv(Next(s, ps[0]), ps[1..]);
    }
  }

  // ----- What `TestManager` promises -----

  // Through any nesting of aborts, cancellations and done-callbacks: the test is reported complete at
  // most once, and only with no Task left; and once it is finishing, with no `_abort` in progress
  // and no Task left, it has been exactly if none of the Tasks listed by `_abort` was RUNNING.
  lemma CompletesOnce(ps: seq<Step>)
    requires Legal(Initial, ps)
    ensures var s := Exec(Initial, ps);
      && |s.scored| <= 1 && (s.complete <==> |s.scored| == 1)
      && (s.complete ==> s.tasks == [])
      && (s.finishing && s.aborting.None? && s.tasks == [] ==> (s.complete <==> !s.listedRunning))
  {
    RunKeepsInv(Initial, ps);
  }

  // No Task outlives the test: after completion none is added, and the score stands.
  lemma {:induction false} NothingAfterCompletion(s: State, ps: seq<Step>)
    requires Inv(s) && s.complete && Legal(s, ps)
    ensures Exec(s, ps).complete && Exec(s, ps).tasks == [] && Exec(s, ps).scored == s.scored
    decreases |ps|
  {
    if ps != [] {
      StepKeepsInv(s, ps[0]);
      NothingAfterCompletion(Next(s, ps[0]), ps[1..]);
    }
  }

  // The fate of a Task that `_abort` has listed.
  ghost predicate Dealt(s: State, t: nat) {
    t < s.next &&
    (t in s.tasks ==>
       s.stuck || t in s.uncancelled ||
       (s.aborting.Some? && (t in s.aborting.value.rest || s.aborting.value.current == Some(t))))
  }

  lemma {:induction false} StaysDealt(s: State, ps: seq<Step>, t: nat)
    requires Inv(s) && Legal(s, ps) && s.finishing && Dealt(s, t)
    ensures Dealt(Exec(s, ps), t)
    ensures Exec(s, ps).finishing && Exec(s, ps).listedRunning == s.listedRunning
    decreases |ps|
  {
    if ps != [] {
      StepKeepsInv(s, ps[0]);
      StepKeepsDealt(s, ps[0], t);
      StaysDealt(Next(s, ps[0]), ps[1..], t);
    }
  }

  lemma StepKeepsDealt(s: State, p: Step, t: nat)
    requires Inv(s) && Enabled(s, p) && s.finishing && Dealt(s, t)
    ensures Dealt(Next(s, p), t) && Next(s, p).finishing && Next(s, p).listedRunning == s.listedRunning
  {
    match p
    case DoTaskDone(u, o, awaited) => EndDeals(s, u, o, awaited, t);
    case DoCancelNext(before) =>
      var rest := s.aborting.value.rest;
      assert forall u :: u in rest ==> u == rest[0] || u in rest[1..];
    case _ =>
  }

  lemma EndDeals(s: State, u: nat, o: Outcome, awaited: bool, t: nat)
    requires s.finishing && Dealt(s, t)
    ensures var r := TaskDone(s, u, o, awaited);
      Dealt(r, t) && r.finishing && r.listedRunning == s.listedRunning
  {
  }

  // An `_abort` gets stuck if and only if some Task that it lists is RUNNING when it begins.  Otherwise,
  // when its loop has ended, none of the Tasks listed is left but those that uncancelled themselves
  // inside `_cancel_now`; what else remains was added meanwhile.
  lemma AbortEndsEveryTask(s: State, p: Step, ps: seq<Step>, t: nat)
    requires Inv(s) && Enabled(s, p) && !s.finishing && Next(s, p).finishing && t in Next(s, p).tasks
    requires Legal(Next(s, p), ps)
    ensures var b := Next(s, p); var r := Exec(b, ps);
      r.aborting.None? ==>
        && (r.stuck <==> exists u :: u in b.tasks && u in b.stack)
        && (!r.stuck ==> t !in r.tasks || t in r.uncancelled)
  {
    StepKeepsInv(s, p);
    StaysDealt(Next(s, p), ps, t);
    RunKeepsInv(Next(s, p), ps);
  }

  // The loop of `_abort` takes its list from the front, one Task at a time, whatever happens inside.
  lemma TheLoopGoesOn(s: State, p: Step)
    requires Inv(s) && Enabled(s, p) && s.aborting.Some? && Next(s, p).aborting.Some?
    ensures var l, r := s.aborting.value, Next(s, p).aborting.value;
      && r.rest == (if p.DoCancelNext? then l.rest[1..] else l.rest) && r.base == l.base
      && (p.DoCancelNext? ==> r.current == if l.rest[0] in s.tasks then Some(l.rest[0]) else None)
  {
  }

  // How one `_cancel_now` ends: the Task is still there exactly if it waits with no unanswered
  // cancellation.
  lemma CancelNowLeavesATaskIff(s: State, p: Step)
    requires Inv(s) && Enabled(s, p) && s.aborting.Some? && s.aborting.value.current.Some?
    requires Next(s, p).aborting.Some? && Next(s, p).aborting.value.current.None?
    ensures var t := s.aborting.value.current.value;
      t in Next(s, p).tasks <==> OnTop(s, t) && s.aborting.value.mustCancel == 0
  {
    if p.DoYield? { assert s.stack[|s.stack| - 1] in s.stack; }
    if p.DoCancelReturns? && s.stack != [] { assert s.stack[|s.stack| - 1] in s.stack; }
  }

  // An `_abort` that comes to a RUNNING Task leaves the test unfinished for ever: nothing waits for its
  // Tasks, and no later abort does anything.
  lemma {:induction false} StuckNeverCompletes(s: State, ps: seq<Step>)
    requires Inv(s) && s.stuck && Legal(s, ps)
    ensures !Exec(s, ps).complete && Exec(s, ps).scored == [] && Exec(s, ps).stuck
    decreases |ps|
  {
    if ps != [] {
      StepKeepsInv(s, ps[0]);
      StuckNeverCompletes(Next(s, ps[0]), ps[1..]);
    }
  }

  // A RUNNING Task that kills the main one: its done-callback aborts the test, and finds the first one
  // RUNNING.
  lemma ARunningTaskIsMet()
    ensures var ps := [DoStart(false), DoAddTask, DoEnter(1), DoTaskDone(0, Returned, false), DoCancelRaises];
      Legal(Initial, ps) && Exec(Initial, ps).stuck
  {
    var s1 := Start(Initial, false);
    var s2 := AddTask(s1);
    assert s2.tasks == [0, 1];
    var s3 := Next(s2, DoEnter(1));
    assert s3.stack == [1] && s3.tasks == [0, 1];
    AbortByKill(s3);
    var rest := [DoTaskDone(0, Returned, false), DoCancelRaises];
    ConsLegal(s2, DoEnter(1), rest);
    ConsLegal(s1, DoAddTask, [DoEnter(1)] + rest);
    ConsLegal(Initial, DoStart(false), [DoAddTask] + ([DoEnter(1)] + rest));
    assert [DoStart(false)] + ([DoAddTask] + ([DoEnter(1)] + rest)) ==
           [DoStart(false), DoAddTask, DoEnter(1), DoTaskDone(0, Returned, false), DoCancelRaises];
  }

  lemma AbortByKill(s: State)
    requires s.stack == [1] && s.tasks == [0, 1] && s.aborting.None? && !s.finishing
    ensures var ps := [DoTaskDone(0, Returned, false), DoCancelRaises]; Legal(s, ps) && Exec(s, ps).stuck
  {
    assert Without([0, 1], 0) == [1] by {
      assert [0, 1][1..] == [1] && [1][1..] == [];
      assert Without([1], 0) == [1] + Without([], 0);
    }
    var s1 := TaskDone(s, 0, Returned, false);
    assert s1.aborting.value.rest == [1];
    ConsLegal(s1, DoCancelRaises, []);
    ConsLegal(s, DoTaskDone(0, Returned, false), [DoCancelRaises]);
  }

  // What ends the test: the main Task, and any other that stops it or fails without being awaited.
  lemma WhatEndsTheTest(ps: seq<Step>, t: nat, o: Outcome, awaited: bool)
    requires Legal(Initial, ps) && Enabled(Exec(Initial, ps), DoTaskDone(t, o, awaited))
    ensures var s := Exec(Initial, ps);
      EndsTheTest(s, Next(s, DoTaskDone(t, o, awaited)), t, o, awaited)
  {
    RunKeepsInv(Initial, ps);
    var s := Exec(Initial, ps);
    assert !s.started ==> s.tasks == [];
    WhatTheEndDoes(s, t, o, awaited);
  }

  ghost predicate EndsTheTest(s: State, r: State, t: nat, o: Outcome, awaited: bool) {
    && t !in r.tasks && (forall u :: u in s.tasks && u != t ==> u in r.tasks)
    && (r.finishing <==> s.finishing || t == 0 || (!awaited && (o.EndTest? || o.Error?)))
    && r.excs == s.excs + (if o.Error? && (t == 0 || !awaited) then [TaskError(o.e)] else [])
    && (r.finishing && !s.finishing ==> r.aborting == Some(Loop(r.tasks, None, 0, |r.stack|)) && !r.timeout)
  }

  lemma WhatTheEndDoes(s: State, t: nat, o: Outcome, awaited: bool)
    ensures EndsTheTest(s, TaskDone(s, t, o, awaited), t, o, awaited)
  {
    assert s.excs + [] == s.excs;
  }

  // ----- What a run has brought about -----

  // Does this step end the test, if it is not finishing yet?
  predicate EndsIt(p: Step) {
    match p
    case Timeout => true
    case Cancel => true
    case DoTaskDone(t, o, awaited) => t == 0 || (!awaited && (o.EndTest? || o.Error?))
    case _ => false
  }

  // The error that it reports.
  function Reported(p: Step): seq<Exn> {
    match p
    case Timeout => [SimTimeoutError]
    case Cancel => [CancelledError]
    case DoTaskDone(t, o, awaited) => if o.Error? && (t == 0 || !awaited) then [TaskError(o.e)] else []
    case _ => []
  }

  function AllReported(ps: seq<Step>): seq<Exn> {
    if ps == [] then [] else AllReported(ps[..|ps| - 1]) + Reported(ps[|ps| - 1])
  }

  // The test is finishing exactly if something in the run has ended it: its main Task, another that stops it
  // or fails, a timeout, or `cancel`.  The errors are those reported, in order.  The timeout is armed exactly
  // while a test that was started with one is not finishing.
  lemma {:induction false} TheRunDecides(ps: seq<Step>)
    requires Legal(Initial, ps)
    ensures var s := Exec(Initial, ps);
      && (s.finishing <==> exists i :: 0 <= i < |ps| && EndsIt(ps[i]))
      && s.excs == AllReported(ps)
      && (s.timeout <==> DoStart(true) in ps && !s.finishing)
      && (s.started <==> DoStart(true) in ps || DoStart(false) in ps)
    decreases |ps|
  {
    if ps != [] {
      var front, p := ps[..|ps| - 1], ps[|ps| - 1];
      LastStep(ps);
      TheRunDecides(front);
      var s := Exec(Initial, front);
      RunKeepsInv(Initial, front);
      StepDecides(s, p);
      assert ps == front + [p];
      assert forall q :: q in ps <==> q in front || q == p;
      assert (exists i :: 0 <= i < |ps| && EndsIt(ps[i])) <==>
             (exists i :: 0 <= i < |front| && EndsIt(front[i])) || EndsIt(p) by {
        assert forall i :: 0 <= i < |front| ==> ps[i] == front[i];
        assert ps[|front|] == p;
      }
    }
  }

  lemma StepDecides(s: State, p: Step)
    requires Inv(s) && Enabled(s, p)
    ensures var r := Next(s, p);
      && (r.finishing <==> s.finishing || EndsIt(p)) && r.excs == s.excs + Reported(p)
      && (r.timeout <==> (s.timeout || p == DoStart(true)) && !r.finishing)
      && (r.started <==> s.started || p.DoStart?)
  {
    match p
    case DoTaskDone(t, o, awaited) =>
      assert !s.started ==> s.tasks == [];
      EndDecides(s, t, o, awaited);
    case Timeout => BeginRecords(s.(timeout := false), [SimTimeoutError]);
    case Cancel => BeginRecords(s, [CancelledError]);
    case _ => OtherDecides(s, p);
  }

  lemma EndDecides(s: State, t: nat, o: Outcome, awaited: bool)
    requires Inv(s)
    ensures var r, p := TaskDone(s, t, o, awaited), DoTaskDone(t, o, awaited);
      && (r.finishing <==> s.finishing || EndsIt(p)) && r.excs == s.excs + Reported(p)
      && (r.timeout <==> s.timeout && !r.finishing) && r.started == s.started
  {
  }

  lemma OtherDecides(s: State, p: Step)
    requires Inv(s) && Enabled(s, p) && !p.DoTaskDone? && !p.Timeout? && !p.Cancel?
    ensures var r := Next(s, p);
      && r.finishing == s.finishing && r.excs == s.excs
      && (r.timeout <==> (s.timeout || p == DoStart(true)) && !r.finishing)
      && (r.started <==> s.started || p.DoStart?)
  {
    if !p.DoEndAbort? { NothingRecorded(s, p); }
  }

  lemma {:induction false} LastStepFrom(s: State, ps: seq<Step>)
    requires ps != [] && Legal(s, ps)
    ensures Legal(s, ps[..|ps| - 1]) && Enabled(Exec(s, ps[..|ps| - 1]), ps[|ps| - 1])
    ensures Exec(s, ps) == Next(Exec(s, ps[..|ps| - 1]), ps[|ps| - 1])
    decreases |ps|
  {
    if |ps| > 1 {
      LastStepFrom(Next(s, ps[0]), ps[1..]);
      assert ps[1..][..|ps| - 2] == ps[..|ps| - 1][1..];
    }
  }

  lemma LastStep(ps: seq<Step>)
    requires ps != [] && Legal(Initial, ps)
    ensures Legal(Initial, ps[..|ps| - 1]) && Enabled(Exec(Initial, ps[..|ps| - 1]), ps[|ps| - 1])
    ensures Exec(Initial, ps) == Next(Exec(Initial, ps[..|ps| - 1]), ps[|ps| - 1])
  {
    LastStepFrom(Initial, ps);
  }

  // Whatever begins the abort, it lists all Tasks that are left, and stops the timeout.
  lemma AnAbortListsEveryTask(s: State, p: Step)
    requires Inv(s) && Enabled(s, p) && !s.finishing && EndsIt(p)
    ensures var r := Next(s, p);
      && r.finishing && !r.timeout && r.excs == s.excs + Reported(p)
      && r.aborting == Some(Loop(r.tasks, None, 0, |r.stack|)) && (r.listedRunning <==> AnyIn(r.tasks, r.stack))
      && (if p.DoTaskDone? then r.tasks == Without(s.tasks, p.t) else r.tasks == s.tasks)
  {
    StepDecides(s, p);
  }

  function Additions(ps: seq<Step>): nat {
    if ps == [] then 0 else Additions(ps[..|ps| - 1]) + if ps[|ps| - 1].DoAddTask? then 1 else 0
  }

  // The Tasks of the test are those that were started and have not ended, in the order in which they were
  // added.
  lemma {:induction false} TasksAreThoseNotEnded(ps: seq<Step>, t: nat)
    requires Legal(Initial, ps)
    ensures var s := Exec(Initial, ps);
      && s.next == 1 + Additions(ps) && Ascending(s.tasks)
      && (t in s.tasks <==> s.started && t < s.next &&
                            forall i :: 0 <= i < |ps| && ps[i].DoTaskDone? ==> ps[i].t != t)
      && (forall i :: 0 <= i < |ps| && ps[i].DoTaskDone? ==> ps[i].t < s.next && s.started)
    decreases |ps|
  {
    if ps != [] {
      var front, p := ps[..|ps| - 1], ps[|ps| - 1];
      LastStep(ps);
      TasksAreThoseNotEnded(front, t);
      var s := Exec(Initial, front);
      RunKeepsInv(Initial, front);
      StepTasks(s, p, t);
      StepDecides(s, p);
      assert forall i :: 0 <= i < |front| ==> ps[i] == front[i];
      assert ps[|front|] == p;
      assert !s.started ==> s.tasks == [];
    }
  }

  lemma StepTasks(s: State, p: Step, t: nat)
    requires Inv(s) && Enabled(s, p) && Ascending(s.tasks)
    ensures var r := Next(s, p);
      && Ascending(r.tasks) && r.next == s.next + (if p.DoAddTask? then 1 else 0)
      && (t in r.tasks <==> match p
                            case DoStart(_) => t == 0
                            case DoAddTask => t in s.tasks || t == s.next
                            case DoTaskDone(u, _, _) => t in s.tasks && t != u
                            case _ => t in s.tasks)
  {
    match p
    case DoAddTask =>
      assert forall i :: 0 <= i < |s.tasks| ==> s.tasks[i] in s.tasks;
    case DoTaskDone(u, o, awaited) => WithoutAscending(s.tasks, u);
    case _ =>
  }

  // An unawaited error of a Task counts in the score, unless the test is already waiting for exactly
  // that Task: removing it completes the test before the error is recorded.
  lemma ErrorIsScoredUnlessLast(ps: seq<Step>, t: nat, e: int)
    requires Legal(Initial, ps) && Enabled(Exec(Initial, ps), DoTaskDone(t, Error(e), false))
    ensures var s := Exec(Initial, ps);
      var r := Next(s, DoTaskDone(t, Error(e), false));
      && r.excs == s.excs + [TaskError(e)]
      && (r.complete && r.scored == [s.excs] <==> s.registered && Without(s.tasks, t) == [])
      && (!(s.registered && Without(s.tasks, t) == []) ==> !r.complete)
  {
    RunKeepsInv(Initial, ps);
  }

  // Such a Task: the main one answers its cancellation and waits again, and then fails.
  lemma AnErrorIsNotScored(e: int)
    ensures var ps := [DoStart(false), Cancel, DoCancelNext(0), DoUncancel, DoYield, DoEndAbort, DoEnter(0),
                       DoTaskDone(0, Error(e), false)];
      && Legal(Initial, ps)
      && var s := Exec(Initial, ps);
      && s.excs == [CancelledError, TaskError(e)] && s.scored == [[CancelledError]]
  {
    var s1 := Start(Initial, false);
    var s2 := BeginAbort(s1, [CancelledError]);
    assert s2.excs == [CancelledError] && s2.aborting == Some(Loop([0], None, 0, 0));
    ItSurvives(s2);
    ItSurvivesAndFails(s2, e);
    var rest := [DoCancelNext(0), DoUncancel, DoYield, DoEndAbort, DoEnter(0), DoTaskDone(0, Error(e), false)];
    ConsLegal(s1, Cancel, rest);
    ConsLegal(Initial, DoStart(false), [Cancel] + rest);
    assert [DoStart(false)] + ([Cancel] + rest) ==
           [DoStart(false), Cancel, DoCancelNext(0), DoUncancel, DoYield, DoEndAbort, DoEnter(0),
            DoTaskDone(0, Error(e), false)];
  }

  lemma ItSurvivesAndFails(s: State, e: int)
    requires s.aborting == Some(Loop([0], None, 0, 0)) && s.stack == [] && s.tasks == [0] && s.finishing
    requires s.excs == [CancelledError] && s.scored == [] && !s.doneFired
    ensures var ps := [DoCancelNext(0), DoUncancel, DoYield, DoEndAbort, DoEnter(0), DoTaskDone(0, Error(e), false)];
      && Legal(s, ps)
      && Exec(s, ps).excs == [CancelledError, TaskError(e)] && Exec(s, ps).scored == [[CancelledError]]
  {
    ItSurvives(s);
    var surviving := [DoCancelNext(0), DoUncancel, DoYield];
    var failing := [DoEndAbort, DoEnter(0), DoTaskDone(0, Error(e), false)];
    ItFailsLater(Exec(s, surviving), e);
    ExecConcat(s, surviving, failing);
    assert surviving + failing ==
           [DoCancelNext(0), DoUncancel, DoYield, DoEndAbort, DoEnter(0), DoTaskDone(0, Error(e), false)];
  }

  lemma ItSurvives(s: State)
    requires s.aborting == Some(Loop([0], None, 0, 0)) && s.stack == [] && s.tasks == [0]
    ensures var ps := [DoCancelNext(0), DoUncancel, DoYield];
      && Legal(s, ps)
      && var r := Exec(s, ps);
      && r.aborting == Some(Loop([], None, 0, 0)) && r.stack == [] && r.tasks == [0]
      && r.excs == s.excs && r.scored == s.scored && r.doneFired == s.doneFired && r.finishing == s.finishing
  {
    var s1 := CancelNext(s, 0);
    assert [0][1..] == [] && s1.stack == [0] && s1.aborting == Some(Loop([], Some(0), 1, 0));
    ItWaits(s1);
    ConsLegal(s, DoCancelNext(0), [DoUncancel, DoYield]);
  }

  lemma ItWaits(s: State)
    requires s.aborting == Some(Loop([], Some(0), 1, 0)) && s.stack == [0]
    ensures Legal(s, [DoUncancel, DoYield])
    ensures Exec(s, [DoUncancel, DoYield]) == s.(aborting := Some(Loop([], None, 0, 0)), stack := [],
                                                 uncancelled := s.uncancelled + {0})
  {
    var s1 := Uncancel(s);
    assert Suspend(s1).stack == [];
    ConsLegal(s1, DoYield, []);
    ConsLegal(s, DoUncancel, [DoYield]);
  }

  lemma ItFailsLater(s: State, e: int)
    requires s.aborting == Some(Loop([], None, 0, 0)) && s.stack == [] && s.tasks == [0] && s.finishing
    requires s.excs == [CancelledError] && s.scored == [] && !s.doneFired
    ensures var ps := [DoEndAbort, DoEnter(0), DoTaskDone(0, Error(e), false)];
      && Legal(s, ps)
      && Exec(s, ps).excs == [CancelledError, TaskError(e)] && Exec(s, ps).scored == [[CancelledError]]
  {
    var last := DoTaskDone(0, Error(e), false);
    var s1 := EndAbort(s);
    var s2 := Next(s1, DoEnter(0));
    assert s2.stack == [0];
    TheLastFails(s2, e);
    ConsLegal(s2, last, []);
    ConsLegal(s1, DoEnter(0), [last]);
    ConsLegal(s, DoEndAbort, [DoEnter(0), last]);
  }

  lemma TheLastFails(s: State, e: int)
    requires s.stack == [0] && s.tasks == [0] && s.registered && s.finishing
    requires s.excs == [CancelledError] && s.scored == []
    ensures var r := TaskDone(s, 0, Error(e), false);
      r.scored == [[CancelledError]] && r.excs == [CancelledError, TaskError(e)]
  {
    assert Without([0], 0) == [];
    assert TaskDone(s, 0, Error(e), false) == BeginAbort(Removed(s, 0), [TaskError(e)]);
    BeginRecords(Removed(s, 0), [TaskError(e)]);
  }

  lemma StepKeepsRecord(s: State, p: Step, x: Exn)
    requires Inv(s) && Enabled(s, p) && !s.complete && x in s.excs
    ensures x in Next(s, p).excs
    ensures Next(s, p).complete ==> |Next(s, p).scored| == 1 && x in Next(s, p).scored[0]
  {
    match p
    case DoTaskDone(t, o, awaited) => EndRecords(s, t, o, awaited, x);
    case DoEndAbort =>
    case _ => NotTheEnd(s, p);
  }

  lemma EndRecords(s: State, t: nat, o: Outcome, awaited: bool, x: Exn)
    requires !s.complete && s.scored == [] && x in s.excs
    ensures var r := TaskDone(s, t, o, awaited);
      x in r.excs && (r.complete ==> |r.scored| == 1 && x in r.scored[0])
  {
    var s1 := Removed(s, t);
    if Report(t, o, awaited).Some? { BeginRecords(s1, Report(t, o, awaited).value); }
  }

  lemma NotTheEnd(s: State, p: Step)
    requires Enabled(s, p) && !p.DoTaskDone? && !p.DoEndAbort?
    ensures (forall x :: x in s.excs ==> x in Next(s, p).excs) && Next(s, p).complete == s.complete
  {
    match p
    case Timeout => BeginRecords(s.(timeout := false), [SimTimeoutError]);
    case Cancel => BeginRecords(s, [CancelledError]);
    case _ => NothingRecorded(s, p);
  }

  lemma BeginRecords(s: State, exc: seq<Exn>)
    ensures var r := BeginAbort(s, exc);
      r.excs == s.excs + exc && r.complete == s.complete && r.scored == s.scored
  {
  }

  lemma NothingRecorded(s: State, p: Step)
    requires Enabled(s, p)
    requires !p.DoTaskDone? && !p.DoEndAbort? && !p.Timeout? && !p.Cancel?
    ensures Next(s, p).excs == s.excs && Next(s, p).complete == s.complete
  {
    match p
    case DoStart(timeout) => assert Next(s, p) == Start(s, timeout);
    case DoAddTask => assert Next(s, p) == AddTask(s);
    case DoEnter(t) => assert Next(s, p) == s.(stack := s.stack + [t]);
    case DoSuspend => assert Next(s, p) == Suspend(s);
    case _ => NothingRecordedInside(s, p);
  }

  lemma NothingRecordedInside(s: State, p: Step)
    requires Enabled(s, p)
    requires p.DoCancelNext? || p.DoUncancel? || p.DoYield? || p.DoCancelReturns? || p.DoCancelRaises?
    ensures Next(s, p).excs == s.excs && Next(s, p).complete == s.complete
  {
    match p
    case DoCancelNext(before) => assert Next(s, p) == CancelNext(s, before);
    case DoUncancel => assert Next(s, p) == Uncancel(s);
    case DoYield => assert Next(s, p) == Leave(Suspend(s));
    case DoCancelReturns => assert Next(s, p) == Leave(s);
    case DoCancelRaises => assert Next(s, p) == CancelRaises(s);
  }

  // An error recorded before completion is in the score.
  lemma {:induction false} RecordedIsScored(s: State, ps: seq<Step>, x: Exn)
    requires Inv(s) && Legal(s, ps) && !s.complete && x in s.excs
    ensures var r := Exec(s, ps); r.complete ==> |r.scored| == 1 && x in r.scored[0]
    decreases |ps|
  {
    if ps != [] {
      StepKeepsInv(s, ps[0]);
      StepKeepsRecord(s, ps[0], x);
      var n := Next(s, ps[0]);
      if n.complete {
        NothingAfterCompletion(n, ps[1..]);
      } else {
        RecordedIsScored(n, ps[1..], x);
      }
    }
  }

  // ----- The program -----

  // What foreign code inside `_cancel_now` does.
  datatype Act = Adds | Ends(t: nat, o: Outcome, awaited: bool)

  // What the coroutine of a Task does inside `_cancel_now`: how many cancellations were unanswered before,
  // what else it does, how many it answers, whether it would rather wait than end, and how it ends.
  datatype Script =
    Script(before: nat, acts: seq<Act>, answers: nat, waits: bool, o: Outcome, awaited: bool)

  class Manager {
    var started: bool
    var tasks: seq<nat>
    var next: nat
    var running: seq<nat>
    var doneFired: bool
    var registered: bool
    var finishing: bool
    var timeout: bool
    var excs: seq<Exn>
    var complete: bool
    ghost var aborting: Option<Loop>
    ghost var uncancelled: set<nat>
    ghost var listedRunning: bool
    ghost var stuck: bool
    ghost var scored: seq<seq<Exn>>

    ghost function Snapshot(): State
      reads this
    {
      State(started, tasks, next, running, doneFired, registered, aborting, finishing, timeout, excs, complete,
        uncancelled, listedRunning, stuck, scored)
    }

    constructor ()
      ensures Snapshot() == Initial
    {
      started, tasks, next, running, doneFired, registered := false, [], 1, [], false, false;
      finishing, timeout, excs, complete := false, false, [], false;
      aborting, uncancelled, listedRunning, stuck, scored := None, {}, false, false, [];
    }

    // This run of the state machine leads from `s` to the present state.
    ghost predicate Ran(s: State, trace: seq<Step>)
      reads this
    {
      Inv(Snapshot()) && Legal(s, trace) && Snapshot() == Exec(s, trace)
    }

    lemma Extend(s: State, trace: seq<Step>, p: Step)
      requires Ran(s, trace) && Enabled(Snapshot(), p)
      ensures Legal(s, trace + [p]) && Exec(s, trace + [p]) == Next(Snapshot(), p) && Inv(Next(Snapshot(), p))
    {
      StepKeepsInv(Snapshot(), p);
      ExecAppend(s, trace, p);
    }

    method Add()
      requires Enabled(Snapshot(), DoAddTask)
      modifies this
      ensures Snapshot() == AddTask(old(Snapshot()))
    {
      tasks := tasks + [next];
      next := next + 1;
      doneFired := false;
    }

    method Complete()
      modifies this
      ensures Snapshot() == OnComplete(old(Snapshot()))
    {
      complete := true;
      scored := scored + [excs];
    }

    method Drop(t: nat)
      modifies this
      ensures Snapshot() == RemoveTask(old(Snapshot()), t)
    {
      tasks := Without(tasks, t);
      if tasks == [] {
        doneFired := true;
        if registered {
          registered := false;
          Complete();
        }
      }
    }

    method Remove(t: nat)
      modifies this
      ensures Snapshot() == Removed(old(Snapshot()), t)
    {
      if running != [] && running[|running| - 1] == t {
        running := running[..|running| - 1];
      }
      Drop(t);
    }

    // A done-callback.  When it aborts the test, `scripts` say what happens inside the loop of `_abort`.
    // False when that is left by an exception.
    method TaskEnds(t: nat, o: Outcome, awaited: bool, scripts: seq<Script>, ghost s: State, ghost trace: seq<Step>)
      returns (ok: bool, ghost longer: seq<Step>)
      requires Ran(s, trace) && Enabled(Snapshot(), DoTaskDone(t, o, awaited))
      modifies this
      ensures Ran(s, longer) && trace + [DoTaskDone(t, o, awaited)] <= longer && (ok <==> stuck == old(stuck))
      ensures old(finishing) ==> ok && finishing && aborting == old(aborting) && tasks == Without(old(tasks), t)
      ensures old(finishing) ==> running == if OnTop(old(Snapshot()), t) then old(running)[..|old(running)| - 1]
                                            else old(running)
      ensures old(aborting).None? ==> aborting.None?
      ensures !ok ==> stuck
      decreases if finishing then 0 else 1, 0
    {
      ok := true;
      Extend(s, trace, DoTaskDone(t, o, awaited));
      longer := trace + [DoTaskDone(t, o, awaited)];
      var begun := Ended(t, o, awaited);
      if begun {
        ghost var b, first := Snapshot(), longer;
        ghost var rest;
        ok, rest := Loops(scripts, b, []);
        ExecConcat(s, first, rest);
        longer := first + rest;
      }
    }

    // True when it has begun to abort.
    method Ended(t: nat, o: Outcome, awaited: bool) returns (begun: bool)
      modifies this
      ensures Snapshot() == TaskDone(old(Snapshot()), t, o, awaited) && begun == (!old(finishing) && finishing)
    {
      Remove(t);
      var report := Report(t, o, awaited);
      begun := false;
      if report.Some? {
        begun := Begin(report.value);
      }
    }

    // `_abort`, up to its loop; false when it returns at once.
    method Begin(exc: seq<Exn>) returns (begun: bool)
      modifies this
      ensures Snapshot() == BeginAbort(old(Snapshot()), exc) && begun == !old(finishing)
    {
      excs := excs + exc;
      if finishing {
        return false;
      }
      finishing, timeout := true, false;
      listedRunning := AnyIn(tasks, running);
      aborting := Some(Loop(tasks, None, 0, |running|));
      return true;
    }

    // `start`
    method StartTest(withTimeout: bool)
      requires Snapshot() == Initial
      modifies this
      ensures Snapshot() == Start(Initial, withTimeout)
    {
      started, tasks, timeout := true, [0], withTimeout;
    }

    // `_on_timeout`: what follows the abort that it begins.  False when that is left by an exception.
    method OnTimeout(scripts: seq<Script>) returns (ok: bool, ghost trace: seq<Step>)
      requires Inv(Snapshot()) && Enabled(Snapshot(), Timeout)
      modifies this
      ensures Ran(Next(old(Snapshot()), Timeout), trace) && finishing && aborting.None?
      ensures ok == !stuck && (ok <==> !listedRunning)
    {
      ghost var s := Next(Snapshot(), Timeout);
      StepKeepsInv(Snapshot(), Timeout);
      timeout := false;
      var begun := Begin([SimTimeoutError]);
      ok, trace := Loops(scripts, s, []);
    }

    // `cancel`, which aborts the test unless that has been done.
    method CancelTest(scripts: seq<Script>) returns (ok: bool, ghost trace: seq<Step>)
      requires Inv(Snapshot()) && Enabled(Snapshot(), Cancel)
      modifies this
      ensures Ran(Next(old(Snapshot()), Cancel), trace) && finishing
      ensures old(finishing) ==> trace == []
      ensures !old(finishing) ==> aborting.None?
      ensures ok <==> stuck == old(stuck)
    {
      ghost var s := Next(Snapshot(), Cancel);
      StepKeepsInv(Snapshot(), Cancel);
      ok, trace := true, [];
      var begun := Begin([CancelledError]);
      if begun {
        ok, trace := Loops(scripts, s, []);
      }
    }

    // The loop of `_abort`, and the rest of it.
    method Loops(scripts: seq<Script>, ghost s: State, ghost trace: seq<Step>)
      returns (ok: bool, ghost longer: seq<Step>)
      requires Ran(s, trace) && aborting == Some(Loop(tasks, None, 0, |running|)) && !stuck
      modifies this
      ensures Ran(s, longer) && aborting.None? && ok == !stuck && finishing
      ensures ok <==> !listedRunning
      decreases 0, 4
    {
      longer := trace;
      var list := tasks;
      var i := 0;
      while i < |list|
        invariant 0 <= i <= |list| && Ran(s, longer) && !stuck && finishing
        invariant aborting.Some? && aborting.value.rest == list[i..] && aborting.value.current.None?
      {
        assert list[i..][1..] == list[i + 1..];
        var script := if i < |scripts| then scripts[i] else Script(0, [], 0, false, WasCancelled, false);
        ok, longer := CancelTaskNow(list[i], script, s, longer);
        if !ok {
          return;
        }
        i := i + 1;
      }
      assert list[|list|..] == [];
      Extend(s, longer, DoEndAbort);
      longer := longer + [DoEndAbort];
      ok := true;
      aborting := None;
      if doneFired {
        Complete();
      } else {
        registered := true;
      }
    }

    // One turn of the loop: `task._cancel_now()`.
    method CancelTaskNow(t: nat, script: Script, ghost s: State, ghost trace: seq<Step>)
      returns (ok: bool, ghost longer: seq<Step>)
      requires Ran(s, trace) && !stuck && Turning(Snapshot()) && aborting.value.rest[0] == t
      modifies this
      ensures Ran(s, longer) && finishing && ok == !stuck && (ok <==> t !in old(running))
      ensures if ok then aborting.Some? && aborting.value.rest == old(aborting).value.rest[1..] &&
                         aborting.value.current.None?
              else aborting.None?
      decreases 0, 3
    {
      if t in running {
        Extend(s, trace, DoCancelRaises);
        longer := trace + [DoCancelRaises];
        aborting, stuck := None, true;
        return false, longer;
      }
      ok := true;
      longer := Enter(t, script.before, s, trace);
      if t in tasks {
        longer := Resume(t, script, s, longer);
      }
    }

    method Enter(t: nat, before: nat, ghost s: State, ghost trace: seq<Step>) returns (ghost longer: seq<Step>)
      requires Ran(s, trace) && Enabled(Snapshot(), DoCancelNext(before)) && aborting.value.rest[0] == t
      modifies this`aborting, this`running
      ensures Ran(s, longer) && Snapshot() == CancelNext(old(Snapshot()), before)
    {
      Extend(s, trace, DoCancelNext(before));
      longer := trace + [DoCancelNext(before)];
      EnterCoroutine(t, before);
    }

    method EnterCoroutine(t: nat, before: nat)
      requires aborting.Some? && aborting.value.rest != [] && aborting.value.rest[0] == t
      modifies this`aborting, this`running
      ensures Snapshot() == CancelNext(old(Snapshot()), before)
    {
      ghost var l := aborting.value;
      if t in tasks {
        running := running + [t];
        aborting := Some(l.(rest := l.rest[1..], current := Some(t), mustCancel := before + 1));
      } else {
        aborting := Some(l.(rest := l.rest[1..]));
      }
    }

    // The coroutine of `t` is on top of the stack, inside `_cancel_now`.
    ghost predicate Inside(t: nat, rest: seq<nat>)
      reads this
    {
      && finishing && !stuck && t in tasks && OnTop(Snapshot(), t)
      && IsCurrent(Snapshot(), t) && aborting.value.rest == rest
    }

    // The coroutine inside `_cancel_now`: it acts and answers cancellations, and then it waits, if it would
    // and none is left, or it ends.
    method Resume(t: nat, script: Script, ghost s: State, ghost trace: seq<Step>) returns (ghost longer: seq<Step>)
      requires Ran(s, trace) && aborting.Some? && Inside(t, aborting.value.rest)
      requires aborting.value.mustCancel == script.before + 1
      modifies this
      ensures Ran(s, longer) && finishing && !stuck
      ensures aborting.Some? && aborting.value.rest == old(aborting).value.rest && aborting.value.current.None?
      ensures t in tasks <==> script.waits && script.answers > script.before
      decreases 0, 2
    {
      ghost var rest := aborting.value.rest;
      longer := Foreign(t, script.acts, s, trace);
      var mustCancel := script.before + 1;
      var answered := 0;
      while answered < script.answers
        invariant Ran(s, longer) && Inside(t, rest) && aborting.value.mustCancel == mustCancel
        invariant answered <= script.answers
        invariant mustCancel == if answered > script.before then 0 else script.before + 1 - answered
      {
        longer := Answer(t, s, longer);
        mustCancel := if mustCancel > 0 then mustCancel - 1 else 0;
        answered := answered + 1;
      }
      if script.waits && mustCancel == 0 {
        longer := WaitAgain(t, s, longer);
      } else {
        longer := End(t, script, s, longer);
      }
    }

    ghost method Answer(t: nat, s: State, trace: seq<Step>) returns (longer: seq<Step>)
      requires Ran(s, trace) && aborting.Some? && Inside(t, aborting.value.rest)
      modifies this`aborting, this`uncancelled
      ensures Ran(s, longer) && Snapshot() == Uncancel(old(Snapshot()))
    {
      Extend(s, trace, DoUncancel);
      longer := trace + [DoUncancel];
      var l := aborting.value;
      aborting := Some(l.(mustCancel := if l.mustCancel > 0 then l.mustCancel - 1 else 0));
      uncancelled := uncancelled + {t};
    }

    method WaitAgain(t: nat, ghost s: State, ghost trace: seq<Step>) returns (ghost longer: seq<Step>)
      requires Ran(s, trace) && aborting.Some? && Inside(t, aborting.value.rest) && aborting.value.mustCancel == 0
      modifies this`aborting, this`running
      ensures Ran(s, longer) && aborting == Some(old(aborting).value.(current := None))
    {
      Extend(s, trace, DoYield);
      longer := trace + [DoYield];
      running := running[..|running| - 1];
      aborting := Some(aborting.value.(current := None));
    }

    method End(t: nat, script: Script, ghost s: State, ghost trace: seq<Step>) returns (ghost longer: seq<Step>)
      requires Ran(s, trace) && aborting.Some? && Inside(t, aborting.value.rest)
      modifies this
      ensures Ran(s, longer) && finishing && !stuck && t !in tasks
      ensures aborting == Some(old(aborting).value.(current := None))
      decreases 0, 1
    {
      TopIsCurrent(Snapshot());
      var ok;
      ok, longer := TaskEnds(t, script.o, script.awaited, [], s, trace);
      Extend(s, longer, DoCancelReturns);
      longer := longer + [DoCancelReturns];
      aborting := Some(aborting.value.(current := None));
    }

    // Foreign code inside `_cancel_now`: what it cannot do is skipped.
    method Foreign(t: nat, acts: seq<Act>, ghost s: State, ghost trace: seq<Step>) returns (ghost longer: seq<Step>)
      requires Ran(s, trace) && aborting.Some? && Inside(t, aborting.value.rest)
      modifies this
      ensures Ran(s, longer) && aborting == old(aborting) && Inside(t, aborting.value.rest)
      decreases 0, 1
    {
      longer := trace;
      for i := 0 to |acts|
        invariant Ran(s, longer) && aborting == old(aborting) && Inside(t, aborting.value.rest)
      {
        match acts[i]
        case Adds =>
          if started && !complete {
            Extend(s, longer, DoAddTask);
            longer := longer + [DoAddTask];
            Add();
          }
        case Ends(u, o, awaited) =>
          if u in tasks && u !in running {
            assert running[|running| - 1] in running;
            var ok;
            ok, longer := TaskEnds(u, o, awaited, [], s, longer);
          }
      }
    }
  }

  lemma ConsLegal(s: State, p: Step, ps: seq<Step>)
    requires Enabled(s, p) && Legal(Next(s, p), ps)
    ensures Legal(s, [p] + ps) && Exec(s, [p] + ps) == Exec(Next(s, p), ps)
  {
    assert ([p] + ps)[1..] == ps;
  }

  lemma ExecAppend(s: State, ps: seq<Step>, p: Step)
    requires Legal(s, ps) && Enabled(Exec(s, ps), p)
    ensures Legal(s, ps + [p]) && Exec(s, ps + [p]) == Next(Exec(s, ps), p)
  {
    assert ([p])[1..] == [];
    ExecConcat(s, ps, [p]);
  }

  lemma {:induction false} ExecConcat(s: State, ps: seq<Step>, qs: seq<Step>)
    requires Legal(s, ps) && Legal(Exec(s, ps), qs)
    ensures Legal(s, ps + qs) && Exec(s, ps + qs) == Exec(Exec(s, ps), qs)
    decreases |ps|
  {
    if ps == [] {
      assert ps + qs == qs;
    } else {
      ExecConcat(Next(s, ps[0]), ps[1..], qs);
      assert (ps + qs)[1..] == ps[1..] + qs;
    }
  }
}
