/**
 The cooperative scheduler: Tasks, Triggers and the event loop.

 A coroutine is foreign code.  It runs while its `Coro` frame is on the stack and may make any
 API call before it returns, raises or yields; the same is true of done-callbacks and of the
 `finally` blocks run by `coro.close()`.  So the runtime is a state machine whose steps are the
 API calls and the ends of those foreign activations.
 */
module Scheduler {
  import opened Wrappers
  import opened Sequences

  datatype Status = Unstarted | Scheduled | Pending | Running | Finished | Errored | Cancelled {
    predicate Done() {
      Finished? || Errored? || Cancelled?
    }
  }

  // ExitError stands for KeyboardInterrupt, SystemExit and BdbQuit.
  datatype Exn = CancelledError | RuntimeError | KeyError | TypeError | ExitError | UserError(code: int)

  datatype Outcome = Value(v: int) | Raised(e: Exn)

  // A done-callback, with its history: how often it was called, and whether it was added while
  // `_set_outcome` was already running the callbacks of its Task.
  datatype Callback = Callback(ran: nat, late: bool)

  datatype Task = Task(
    status: Status,
    exc: Option<Exn>,          // thrown into the coroutine by the next resume
    mustCancel: nat,
    outcome: Option<Outcome>,
    entry: nat,                // identity of the latest ScheduledCallback
    trigger: nat,              // Trigger last yielded
    handle: nat,               // identity of the latest TriggerCallback
    complete: nat,             // the Task's `complete` Trigger
    join: nat,                 // the Task's `_join` Trigger
    doneCallbacks: seq<Callback>,
    resumes: nat,              // history: how often `_resume` was entered,
    broken: Option<nat>)       //   and how many done-callbacks had been started when one of them raised

  datatype Kind = Event(fired: bool) | Null | Complete(task: nat) | Gpi(primed: bool)

  datatype Handle = Handle(id: nat, task: nat)

  // The insertion-ordered dict of a Trigger is `stale`, the handle of a Task whose `_register` failed
  // when `_prime` raised, and then `callbacks`.
  datatype Trigger = Trigger(kind: Kind, callbacks: seq<Handle>, stale: seq<Handle>) {
    predicate Unused() {
      callbacks == [] && stale == []
    }
  }

  datatype Entry = Entry(id: nat, task: nat, cancelled: bool)

  // Foreign code in progress, innermost last.
  datatype Frame =
    | Coro(task: nat)                    // the coroutine is executing
    | Closing(task: nat)                 // `coro.close()` is executing
    | Finishing(task: nat, started: nat) // `_set_outcome` has started that many done-callbacks
    | Adding(task: nat, late: bool)      // `_add_done_callback` on a done Task runs the callback

  datatype State = State(
    tasks: seq<Task>,
    triggers: seq<Trigger>,
    loop: seq<Entry>,
    frames: seq<Frame>,
    next: nat)        // next fresh identity

  const Initial: State := State([], [], [], [], 0)

  // ----- The operations -----

  function SetTask(s: State, t: nat, task: Task): State
    requires t < |s.tasks|
  {
    s.(tasks := s.tasks[t := task])
  }

  function Schedule(s: State, t: nat, e: Option<Exn>, left: bool): State
    requires t < |s.tasks|
  {
    var entry := Entry(s.next, t, false);
    SetTask(s, t, s.tasks[t].(status := Scheduled, exc := e, entry := s.next)).(
      loop := if left then [entry] + s.loop else s.loop + [entry],
      next := s.next + 1)
  }

  function ScheduleResume(s: State, t: nat, e: Option<Exn>): State
    requires t < |s.tasks|
  {
    Schedule(s, t, e, false)
  }

  ghost predicate HandlesOk(s: State, hs: seq<Handle>) {
    forall i :: 0 <= i < |hs| ==> hs[i].task < |s.tasks|
  }

  // The loop of `_do_callbacks`.
  function RunHandles(s: State, hs: seq<Handle>): (r: State)
    requires HandlesOk(s, hs)
    ensures |r.tasks| == |s.tasks|
    decreases |hs|
  {
    if hs == [] then s
    else
      var s1 := ScheduleResume(s, hs[0].task, None);
      assert HandlesOk(s1, hs[1..]);
      RunHandles(s1, hs[1..])
  }

  function TakeHandles(s: State, g: nat): State
    requires g < |s.triggers|
  {
    s.(triggers := s.triggers[g := s.triggers[g].(callbacks := [])])
  }

  ghost predicate HandleTasks(s: State) {
    forall g :: 0 <= g < |s.triggers| ==> HandlesOk(s, s.triggers[g].callbacks)
  }

  // `_react`
  function React(s: State, g: nat): (r: State)
    requires g < |s.triggers| && HandlesOk(s, s.triggers[g].callbacks)
    ensures |r.tasks| == |s.tasks|
  {
    RunHandles(TakeHandles(s, g), s.triggers[g].callbacks)
  }

  function SetKind(s: State, g: nat, k: Kind): State
    requires g < |s.triggers|
  {
    s.(triggers := s.triggers[g := s.triggers[g].(kind := k)])
  }

  // `_prime` of each kind of Trigger
  function Prime(s: State, g: nat): State
    requires g < |s.triggers| && HandlesOk(s, s.triggers[g].callbacks)
    requires s.triggers[g].kind.Complete? ==> s.triggers[g].kind.task < |s.tasks|
  {
    match s.triggers[g].kind
    case Event(fired) => if fired then React(s, g) else s
    case Null => React(s, g)
    case Complete(t) => if s.tasks[t].status.Done() then React(s, g) else s
    case Gpi(_) => SetKind(s, g, Gpi(true))
  }

  // The branch of `_resume` that waits: PENDING is set before `_register`.
  function Wait(s: State, t: nat, g: nat): State
    requires t < |s.tasks| && g < |s.triggers| && HandlesOk(s, s.triggers[g].callbacks)
    requires s.triggers[g].kind.Complete? ==> s.triggers[g].kind.task < |s.tasks|
  {
    var s1 := AddHandle(s, t, g);
    if s.triggers[g].Unused() then Prime(s1, g) else s1
  }

  // The same when `_prime` raises: the handle stays in the dict, and the Task is resumed with the
  // exception.
  function WaitFails(s: State, t: nat, g: nat, e: Exn): State
    requires t < |s.tasks| && g < |s.triggers|
  {
    var s1 := SetTask(s, t, s.tasks[t].(trigger := g)).(
      triggers := s.triggers[g := s.triggers[g].(stale := [Handle(s.next, t)])],
      next := s.next + 1);
    ScheduleResume(s1, t, Some(e))
  }

  function AddHandle(s: State, t: nat, g: nat): (r: State)
    requires t < |s.tasks| && g < |s.triggers| && HandlesOk(s, s.triggers[g].callbacks)
    ensures |r.triggers| == |s.triggers| && HandlesOk(r, r.triggers[g].callbacks)
  {
    SetTask(s, t, s.tasks[t].(status := Pending, trigger := g, handle := s.next)).(
      triggers := s.triggers[g := s.triggers[g].(callbacks := s.triggers[g].callbacks + [Handle(s.next, t)])],
      next := s.next + 1)
  }

  // `TriggerCallback.cancel`, that is `_deregister`.  `del` raises KeyError when the handle is gone.
  function Deregister(s: State, t: nat): (r: Result<State, Exn>)
    requires t < |s.tasks| && s.tasks[t].trigger < |s.triggers|
  {
    var g := s.tasks[t].trigger;
    var h := Handle(s.tasks[t].handle, t);
    if h !in s.triggers[g].callbacks then Err(KeyError)
    else
      var hs := Without(s.triggers[g].callbacks, h);
      var r := s.triggers[g].(callbacks := hs);
      Ok(s.(triggers := s.triggers[g := if r.Unused() && r.kind.Gpi? then r.(kind := Gpi(false)) else r]))
  }

  function Unschedule(s: State, t: nat): State
    requires t < |s.tasks|
  {
    s.(loop := MarkCancelled(s.loop, s.tasks[t].entry))
  }

  function MarkCancelled(es: seq<Entry>, id: nat): (r: seq<Entry>)
    ensures |r| == |es|
    ensures forall i :: 0 <= i < |es| ==> r[i] == if es[i].id == id then es[i].(cancelled := true) else es[i]
  {
    if es == [] then []
    else [if es[0].id == id then es[0].(cancelled := true) else es[0]] + MarkCancelled(es[1..], id)
  }

  // Entering `_resume`.
  function Enter(s: State, t: nat): State
    requires t < |s.tasks|
  {
    SetTask(s, t, s.tasks[t].(status := Running, resumes := s.tasks[t].resumes + 1)).(
      frames := s.frames + [Coro(t)])
  }

  // `_set_outcome`, up to its first done-callback; the frame on top belongs to `t`.
  function SetOutcome(s: State, t: nat, o: Outcome, status: Status): State
    requires t < |s.tasks| && |s.frames| > 0
  {
    SetTask(s, t, s.tasks[t].(status := status, outcome := Some(o))).(
      frames := s.frames[..|s.frames| - 1] + [Finishing(t, 0)])
  }

  function Start(s: State, t: nat, left: bool): State
    requires t < |s.tasks|
  {
    if s.tasks[t].status.Unstarted? then Schedule(s, t, None, left)
    else s  // raises RuntimeError
  }

  function CountCancel(s: State, t: nat): State
    requires t < |s.tasks|
  {
    SetTask(s, t, s.tasks[t].(mustCancel := s.tasks[t].mustCancel + 1))
  }

  // `cancel`: True, False, or RuntimeError
  function Cancel(s: State, t: nat): (r: Result<(State, bool), Exn>)
    requires t < |s.tasks|
    requires s.tasks[t].status.Pending? ==> s.tasks[t].trigger < |s.triggers|
  {
    match s.tasks[t].status
    case Finished | Errored | Cancelled => Ok((s, false))
    case Running => Err(RuntimeError)
    case Pending =>
      (match Deregister(s, t)
       case Err(e) => Err(e)
       case Ok(s1) => Ok((CountCancel(ScheduleResume(s1, t, Some(CancelledError)), t), true)))
    case Scheduled => Ok((CountCancel(SetTask(s, t, s.tasks[t].(exc := Some(CancelledError))), t), true))
    case Unstarted => Ok((CountCancel(ScheduleResume(s, t, Some(CancelledError)), t), true))
  }

  // `_cancel_now`: enters the coroutine at once
  function CancelNow(s: State, t: nat): (r: Result<(State, bool), Exn>)
    requires t < |s.tasks|
    requires s.tasks[t].status.Pending? ==> s.tasks[t].trigger < |s.triggers|
  {
    match s.tasks[t].status
    case Finished | Errored | Cancelled => Ok((s, false))
    case Running => Err(RuntimeError)
    case Pending =>
      (match Deregister(s, t)
       case Err(e) => Err(e)
       case Ok(s1) => Ok((ThrowNow(s1, t), true)))
    case Scheduled => Ok((ThrowNow(Unschedule(s, t), t), true))
    case Unstarted => Ok((ThrowNow(s, t), true))
  }

  function ThrowNow(s: State, t: nat): State
    requires t < |s.tasks|
  {
    var s1 := CountCancel(s, t);
    Enter(SetTask(s1, t, s1.tasks[t].(exc := Some(CancelledError))), t)
  }

  function Uncancel(s: State, t: nat): State
    requires t < |s.tasks|
  {
    if s.tasks[t].mustCancel > 0 then SetTask(s, t, s.tasks[t].(mustCancel := s.tasks[t].mustCancel - 1))
    else s
  }

  // ----- The state machine -----

  datatype Step =
    | NewTask
    | NewTrigger(kind: Kind)
    | StartSoon(task: nat)
    | StartNext(task: nat)
    | DoCancel(task: nat)
    | DoCancelNow(task: nat)
    | DoUncancel(task: nat)
    | AddDoneCallback(task: nat)
    | SetEvent(trigger: nat)
    | ClearEvent(trigger: nat)
    | FireGpi(trigger: nat)
    | Pop                    // one turn of `EventLoop.run`
    | Return(v: int)         // the coroutine on top returns,
    | Raise(e: Exn)          //   raises,
    | Yield(trigger: nat)    //   yields a Trigger,
    | YieldFails(trigger: nat, e: Exn) //   yields one that cannot be primed,
    | YieldOther             //   or yields something else
    | Closed                 // `coro.close()` returns
    | RunDoneCallback        // `_set_outcome` calls its next done-callback
    | Finish                 // `_set_outcome` has run them all and fires `complete` and `_join`
    | Added                  // the callback of `_add_done_callback` returns
    | CallbackRaises         // the done-callback that is executing raises

  predicate TopCoro(s: State) {
    |s.frames| > 0 && s.frames[|s.frames| - 1].Coro?
  }

  function TopTask(s: State): nat
    requires |s.frames| > 0
  {
    s.frames[|s.frames| - 1].task
  }

  predicate Enabled(s: State, p: Step) {
    match p
    case NewTask => true
    case NewTrigger(k) => k == Event(false) || k == Null || k == Gpi(false)
    case StartSoon(t) => t < |s.tasks|
    case StartNext(t) => t < |s.tasks|
    case DoCancel(t) => t < |s.tasks|
    case DoCancelNow(t) => t < |s.tasks|
    case DoUncancel(t) => t < |s.tasks|
    case AddDoneCallback(t) => t < |s.tasks|
    case SetEvent(g) => g < |s.triggers| && s.triggers[g].kind.Event?
    case ClearEvent(g) => g < |s.triggers| && s.triggers[g].kind.Event?
    case FireGpi(g) => g < |s.triggers| && s.triggers[g].kind == Gpi(true)
    case Pop => |s.loop| > 0
    case Return(_) => TopCoro(s)
    case Raise(_) => TopCoro(s)
    case Yield(g) => TopCoro(s) && g < |s.triggers|
    case YieldFails(g, e) =>
      TopCoro(s) && g < |s.triggers| && s.triggers[g].kind == Gpi(false) && s.triggers[g].Unused() &&
      !e.CancelledError? && !e.ExitError?
    case YieldOther => TopCoro(s)
    case Closed => |s.frames| > 0 && s.frames[|s.frames| - 1].Closing?
    case RunDoneCallback =>
      |s.frames| > 0 && s.frames[|s.frames| - 1].Finishing? && TopTask(s) < |s.tasks| &&
      s.frames[|s.frames| - 1].started < |s.tasks[TopTask(s)].doneCallbacks|
    case Finish =>
      |s.frames| > 0 && s.frames[|s.frames| - 1].Finishing? && TopTask(s) < |s.tasks| &&
      s.frames[|s.frames| - 1].started == |s.tasks[TopTask(s)].doneCallbacks|
    case Added => |s.frames| > 0 && s.frames[|s.frames| - 1].Adding?
    case CallbackRaises =>
      |s.frames| > 0 && match s.frames[|s.frames| - 1]
      case Finishing(t, started) => t < |s.tasks| && started > 0
      case Adding(_, _) => true
      case _ => false
  }

  function CreateTask(s: State): State {
    var c := |s.triggers|;
    var t := |s.tasks|;
    s.(tasks := s.tasks + [Task(Unstarted, None, 0, None, 0, 0, 0, c, c + 1, [], 0, None)],
       triggers := s.triggers + [Trigger(Complete(t), [], []), Trigger(Complete(t), [], [])])
  }

  predicate FinishingAmong(fs: seq<Frame>, t: nat) {
    exists i :: 0 <= i < |fs| && fs[i].Finishing? && fs[i].task == t
  }

  predicate FinishingIn(s: State, t: nat) {
    FinishingAmong(s.frames, t)
  }

  // `_add_done_callback`: on a done Task the callback is called first and appended afterwards.
  function AddCallback(s: State, t: nat): State
    requires t < |s.tasks|
  {
    if s.tasks[t].status.Done() then
      s.(frames := s.frames + [Adding(t, FinishingIn(s, t))])
    else
      SetTask(s, t, s.tasks[t].(doneCallbacks := s.tasks[t].doneCallbacks + [Callback(0, false)]))
  }

  function PopEntry(s: State): State
    requires |s.loop| > 0
    requires s.loop[0].task < |s.tasks|
  {
    var s1 := s.(loop := s.loop[1..]);
    if s.loop[0].cancelled then s1 else Enter(s1, s.loop[0].task)
  }

  function EndReturn(s: State, v: int): State
    requires TopCoro(s) && TopTask(s) < |s.tasks|
  {
    var t := TopTask(s);
    if s.tasks[t].mustCancel > 0 then SetOutcome(s, t, Raised(RuntimeError), Errored)
    else SetOutcome(s, t, Value(v), Finished)
  }

  function EndRaise(s: State, e: Exn): State
    requires TopCoro(s) && TopTask(s) < |s.tasks|
  {
    var t := TopTask(s);
    if e.ExitError? then SetOutcome(s, t, Raised(e), Errored)
    else if e.CancelledError? then SetOutcome(s, t, Raised(e), Cancelled)
    else if s.tasks[t].mustCancel > 0 then SetOutcome(s, t, Raised(RuntimeError), Errored)
    else SetOutcome(s, t, Raised(e), Errored)
  }

  function PopFrame(s: State): State
    requires |s.frames| > 0
  {
    s.(frames := s.frames[..|s.frames| - 1])
  }

  function EndYield(s: State, g: Option<nat>): State
    requires TopCoro(s) && TopTask(s) < |s.tasks|
    requires g.Some? ==> g.value < |s.triggers| && HandlesOk(s, s.triggers[g.value].callbacks)
    requires g.Some? && s.triggers[g.value].kind.Complete? ==> s.triggers[g.value].kind.task < |s.tasks|
  {
    var t := TopTask(s);
    if s.tasks[t].mustCancel > 0 then s.(frames := s.frames[..|s.frames| - 1] + [Closing(t)])
    else if g.None? then ScheduleResume(PopFrame(s), t, Some(TypeError))
    else Wait(PopFrame(s), t, g.value)
  }

  function EndYieldFails(s: State, g: nat, e: Exn): State
    requires TopCoro(s) && TopTask(s) < |s.tasks| && g < |s.triggers|
  {
    var t := TopTask(s);
    if s.tasks[t].mustCancel > 0 then s.(frames := s.frames[..|s.frames| - 1] + [Closing(t)])
    else WaitFails(PopFrame(s), t, g, e)
  }

  // The loop of `_set_outcome` iterates over the live list.
  function StartDoneCallback(s: State): State
    requires Enabled(s, RunDoneCallback)
  {
    var t, i := TopTask(s), s.frames[|s.frames| - 1].started;
    var cbs := s.tasks[t].doneCallbacks;
    SetTask(s, t, s.tasks[t].(doneCallbacks := cbs[i := cbs[i].(ran := cbs[i].ran + 1)])).(
      frames := s.frames[..|s.frames| - 1] + [Finishing(t, i + 1)])
  }

  function FireCompletion(s: State): State
    requires Enabled(s, Finish)
    requires s.tasks[TopTask(s)].complete < |s.triggers| && s.tasks[TopTask(s)].join < |s.triggers|
    requires HandleTasks(s)
  {
    var t := TopTask(s);
    var s1 := React(PopFrame(s), s.tasks[t].complete);
    RunHandlesFrame(TakeHandles(PopFrame(s), s.tasks[t].complete), s.triggers[s.tasks[t].complete].callbacks);
    React(s1, s.tasks[t].join)
  }

  function AppendCallback(s: State): State
    requires Enabled(s, Added) && TopTask(s) < |s.tasks|
  {
    var t, late := TopTask(s), s.frames[|s.frames| - 1].late;
    PopFrame(SetTask(s, t, s.tasks[t].(doneCallbacks := s.tasks[t].doneCallbacks + [Callback(1, late)])))
  }

  // An exception leaves `_set_outcome` with the other callbacks not called and the Triggers not fired,
  // or `_add_done_callback` with the callback not added.
  function BreakOff(s: State): State
    requires Enabled(s, CallbackRaises)
  {
    match s.frames[|s.frames| - 1]
    case Finishing(t, started) => PopFrame(SetTask(s, t, s.tasks[t].(broken := Some(started))))
    case _ => PopFrame(s)
  }

  lemma RunHandlesFrame(s: State, hs: seq<Handle>)
    requires HandlesOk(s, hs)
    ensures var r := RunHandles(s, hs);
      && r.triggers == s.triggers && r.frames == s.frames
      && |r.tasks| == |s.tasks| && r.next == s.next + |hs|
    decreases |hs|
  {
    if hs != [] {
      var s1 := ScheduleResume(s, hs[0].task, None);
      assert HandlesOk(s1, hs[1..]);
      RunHandlesFrame(s1, hs[1..]);
    }
  }

  // Every reference in the state points somewhere.
  ghost predicate Sane(s: State) {
    && HandleTasks(s)
    && (forall i :: 0 <= i < |s.loop| ==> s.loop[i].task < |s.tasks|)
    && (forall i :: 0 <= i < |s.frames| ==> s.frames[i].task < |s.tasks|)
    && (forall g :: 0 <= g < |s.triggers| && s.triggers[g].kind.Complete? ==> s.triggers[g].kind.task < |s.tasks|)
    && (forall t :: 0 <= t < |s.tasks| ==>
          && s.tasks[t].complete < |s.triggers| && s.tasks[t].join < |s.triggers|
          && (s.tasks[t].status.Pending? ==> s.tasks[t].trigger < |s.triggers|))
  }

  function OrElse(r: Result<(State, bool), Exn>, s: State): State {
    match r
    case Ok((s1, _)) => s1
    case Err(_) => s
  }

  function Next(s: State, p: Step): State
    requires Sane(s) && Enabled(s, p)
  {
    match p
    case NewTask => CreateTask(s)
    case NewTrigger(k) => s.(triggers := s.triggers + [Trigger(k, [], [])])
    case StartSoon(t) => Start(s, t, false)
    case StartNext(t) => Start(s, t, true)
    case DoCancel(t) => OrElse(Cancel(s, t), s)
    case DoCancelNow(t) => OrElse(CancelNow(s, t), s)
    case DoUncancel(t) => Uncancel(s, t)
    case AddDoneCallback(t) => AddCallback(s, t)
    case SetEvent(g) => React(SetKind(s, g, Event(true)), g)
    case ClearEvent(g) => SetKind(s, g, Event(false))
    case FireGpi(g) => React(SetKind(s, g, Gpi(false)), g)
    case Pop => PopEntry(s)
    case Return(v) => EndReturn(s, v)
    case Raise(e) => EndRaise(s, e)
    case Yield(g) => EndYield(s, Some(g))
    case YieldFails(g, e) => EndYieldFails(s, g, e)
    case YieldOther => EndYield(s, None)
    case Closed => SetOutcome(s, TopTask(s), Raised(RuntimeError), Errored)
    case RunDoneCallback => StartDoneCallback(s)
    case Finish => FireCompletion(s)
    case Added => AppendCallback(s)
    case CallbackRaises => BreakOff(s)
  }
}
