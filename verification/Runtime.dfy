/**
 The scheduler as the program runs it: methods that update the Tasks, the Triggers and the deque
 of the event loop in place, each proved against the functions of `Scheduler`.
 */
module Runtime {
  import opened Wrappers
  import opened Sequences
  import opened Scheduler
  import opened SchedulerInvariant
  import opened SchedulerSteps
  import opened SchedulerRuns

  // How `EventLoop.run` ends.
  datatype RunEnd = LoopEmpty | Escaped(task: nat) | OracleEnds

  // It ended with a KeyboardInterrupt or the like, or one of its done-callbacks raised.
  predicate Exits(t: Task) {
    (t.outcome.Some? && t.outcome.value.Raised? && t.outcome.value.e.ExitError?) || t.broken.Some?
  }

  class Runtime {
    var tasks: seq<Task>
    var triggers: seq<Trigger>
    var callbacks: seq<Entry>  // the deque of the event loop
    var frames: seq<Frame>
    var next: nat

    function State(): State
      reads this
    {
      Scheduler.State.State(tasks, triggers, callbacks, frames, next)
    }

    constructor ()
      ensures State() == Initial
    {
      tasks, triggers, callbacks, frames, next := [], [], [], [], 0;
    }

    // ----- EventLoop -----

    method Append(t: nat)
      requires t < |tasks|
      modifies this`callbacks, this`next, this`tasks
      ensures callbacks == old(callbacks) + [Entry(old(next), t, false)] && next == old(next) + 1
      ensures tasks == old(tasks)[t := old(tasks)[t].(entry := old(next))]
    {
      callbacks := callbacks + [Entry(next, t, false)];
      tasks := tasks[t := tasks[t].(entry := next)];
      next := next + 1;
    }

    method AppendLeft(t: nat)
      requires t < |tasks|
      modifies this`callbacks, this`next, this`tasks
      ensures callbacks == [Entry(old(next), t, false)] + old(callbacks) && next == old(next) + 1
      ensures tasks == old(tasks)[t := old(tasks)[t].(entry := old(next))]
    {
      callbacks := [Entry(next, t, false)] + callbacks;
      tasks := tasks[t := tasks[t].(entry := next)];
      next := next + 1;
    }

    // ----- Task -----

    method StartSoon(t: nat) returns (r: Result<(), Exn>)
      requires t < |tasks|
      modifies this
      ensures State() == Start(old(State()), t, false)
      ensures r.Ok? <==> old(tasks)[t].status.Unstarted?
    {
      if !tasks[t].status.Unstarted? {
        return Err(RuntimeError);
      }
      tasks := tasks[t := tasks[t].(status := Scheduled, exc := None)];
      Append(t);
      return Ok(());
    }

    method StartNext(t: nat) returns (r: Result<(), Exn>)
      requires t < |tasks|
      modifies this
      ensures State() == Start(old(State()), t, true)
      ensures r.Ok? <==> old(tasks)[t].status.Unstarted?
    {
      if !tasks[t].status.Unstarted? {
        return Err(RuntimeError);
      }
      tasks := tasks[t := tasks[t].(status := Scheduled, exc := None)];
      AppendLeft(t);
      return Ok(());
    }

    method Reschedule(t: nat, exc: Option<Exn>)
      requires t < |tasks|
      modifies this
      ensures State() == ScheduleResume(old(State()), t, exc)
    {
      tasks := tasks[t := tasks[t].(status := Scheduled, exc := exc)];
      Append(t);
    }

    // What the `Result` of the operation on states says: the value returned, or the exception.
    predicate Did(before: State, r: Result<bool, Exn>, expected: Result<(State, bool), Exn>)
      reads this
    {
      match expected
      case Ok((s, value)) => r == Ok(value) && State() == s
      case Err(e) => r == Err(e) && State() == before
    }

    method CancelTask(t: nat) returns (r: Result<bool, Exn>)
      requires t < |tasks| && (tasks[t].status.Pending? ==> tasks[t].trigger < |triggers|)
      modifies this
      ensures Did(old(State()), r, Cancel(old(State()), t))
    {
      var status := tasks[t].status;
      if status.Done() {
        return Ok(false);
      } else if status == Running {
        return Err(RuntimeError);
      }
      if status == Pending {
        var removed := DeregisterCallback(t);
        if removed.Err? {
          return Err(removed.error);
        }
        Reschedule(t, Some(CancelledError));
      } else if status == Scheduled {
        tasks := tasks[t := tasks[t].(exc := Some(CancelledError))];
      } else {
        Reschedule(t, Some(CancelledError));
      }
      tasks := tasks[t := tasks[t].(mustCancel := tasks[t].mustCancel + 1)];
      return Ok(true);
    }

    method CancelTaskNow(t: nat) returns (r: Result<bool, Exn>)
      requires t < |tasks| && (tasks[t].status.Pending? ==> tasks[t].trigger < |triggers|)
      modifies this
      ensures Did(old(State()), r, CancelNow(old(State()), t))
    {
      var status := tasks[t].status;
      if status == Pending {
        var removed := DeregisterCallback(t);
        if removed.Err? {
          return Err(removed.error);
        }
      } else if status == Scheduled {
        callbacks := MarkCancelled(callbacks, tasks[t].entry);
      } else if status == Running {
        return Err(RuntimeError);
      } else if status.Done() {
        return Ok(false);
      }
      tasks := tasks[t := tasks[t].(mustCancel := tasks[t].mustCancel + 1)];
      tasks := tasks[t := tasks[t].(exc := Some(CancelledError))];
      EnterCoroutine(t);
      return Ok(true);
    }

    method UncancelTask(t: nat)
      requires t < |tasks|
      modifies this
      ensures State() == Uncancel(old(State()), t)
    {
      if tasks[t].mustCancel > 0 {
        tasks := tasks[t := tasks[t].(mustCancel := tasks[t].mustCancel - 1)];
      }
    }

    // The head of `_resume`, up to `coro.send` or `coro.throw`.
    method EnterCoroutine(t: nat)
      requires t < |tasks|
      modifies this
      ensures State() == Enter(old(State()), t)
    {
      tasks := tasks[t := tasks[t].(status := Running, resumes := tasks[t].resumes + 1)];
      frames := frames + [Coro(t)];
    }

    // ----- Trigger -----

    // `_do_callbacks`: swap the dict for an empty one, then run the old one in order.
    method DoCallbacks(g: nat)
      requires g < |triggers| && HandlesOk(State(), triggers[g].callbacks)
      modifies this
      ensures State() == React(old(State()), g)
    {
      var handles := triggers[g].callbacks;
      triggers := triggers[g := triggers[g].(callbacks := [])];
      ghost var s0 := State();
      var i := 0;
      while i < |handles|
        invariant i <= |handles| && HandlesOk(State(), handles) && HandlesOk(s0, handles)
        invariant HandlesOk(State(), handles[i..])
        invariant RunHandles(State(), handles[i..]) == RunHandles(s0, handles)
      {
        ghost var before := State();
        Reschedule(handles[i].task, None);
        assert handles[i..][1..] == handles[i + 1..];
        assert RunHandles(before, handles[i..]) == RunHandles(State(), handles[i + 1..]);
        i := i + 1;
      }
    }

    method DeregisterCallback(t: nat) returns (r: Result<(), Exn>)
      requires t < |tasks| && tasks[t].trigger < |triggers|
      modifies this`triggers
      ensures match Deregister(old(State()), t)
              case Ok(s) => r.Ok? && State() == s
              case Err(e) => r == Err(e) && State() == old(State())
    {
      var g := tasks[t].trigger;
      var h := Handle(tasks[t].handle, t);
      if h !in triggers[g].callbacks {
        return Err(KeyError);
      }
      triggers := triggers[g := triggers[g].(callbacks := Without(triggers[g].callbacks, h))];
      if triggers[g].Unused() && triggers[g].kind.Gpi? {
        triggers := triggers[g := triggers[g].(kind := Gpi(false))];
      }
      return Ok(());
    }

    // The last branch of `_resume`: PENDING first, then `_register`, which may fire at once.
    method Register(t: nat, g: nat)
      requires t < |tasks| && g < |triggers| && HandlesOk(State(), triggers[g].callbacks)
      requires triggers[g].kind.Complete? ==> triggers[g].kind.task < |tasks|
      modifies this
      ensures State() == Wait(old(State()), t, g)
    {
      var doPrime := triggers[g].Unused();
      tasks := tasks[t := tasks[t].(status := Pending, trigger := g, handle := next)];
      triggers := triggers[g := triggers[g].(callbacks := triggers[g].callbacks + [Handle(next, t)])];
      next := next + 1;
      if doPrime {
        match triggers[g].kind
        case Event(fired) => if fired { DoCallbacks(g); }
        case Null => DoCallbacks(g);
        case Complete(u) => if tasks[u].status.Done() { DoCallbacks(g); }
        case Gpi(_) => triggers := triggers[g := triggers[g].(kind := Gpi(true))];
      }
    }

    method FireTrigger(g: nat, k: Kind)
      requires g < |triggers| && HandlesOk(State(), triggers[g].callbacks)
      modifies this
      ensures State() == React(SetKind(old(State()), g, k), g)
    {
      triggers := triggers[g := triggers[g].(kind := k)];
      DoCallbacks(g);
    }

    method ClearFired(g: nat)
      requires g < |triggers|
      modifies this`triggers
      ensures State() == SetKind(old(State()), g, Event(false))
    {
      triggers := triggers[g := triggers[g].(kind := Event(false))];
    }

    method NewTrigger(k: Kind)
      modifies this`triggers
      ensures triggers == old(triggers) + [Trigger(k, [], [])]
    {
      triggers := triggers + [Trigger(k, [], [])];
    }

    method NewTask()
      modifies this
      ensures State() == CreateTask(old(State()))
    {
      var t, c := |tasks|, |triggers|;
      NewTrigger(Complete(t));
      NewTrigger(Complete(t));
      tasks := tasks + [Task(Unstarted, None, 0, None, 0, 0, 0, c, c + 1, [], 0, None)];
    }

    // ----- Done-callbacks -----

    method AddDoneCallback(t: nat)
      requires t < |tasks|
      modifies this
      ensures State() == AddCallback(old(State()), t)
    {
      if tasks[t].status.Done() {
        frames := frames + [Adding(t, FinishingIn(State(), t))];
      } else {
        tasks := tasks[t := tasks[t].(doneCallbacks := tasks[t].doneCallbacks + [Callback(0, false)])];
      }
    }

    method CallbackReturned()
      requires Enabled(State(), Added) && TopTask(State()) < |tasks|
      modifies this
      ensures State() == AppendCallback(old(State()))
    {
      var f := frames[|frames| - 1];
      tasks := tasks[f.task := tasks[f.task].(doneCallbacks := tasks[f.task].doneCallbacks + [Callback(1, f.late)])];
      frames := frames[..|frames| - 1];
    }

    // The exception of a done-callback goes through `_set_outcome` or `_add_done_callback`.
    method CallbackRaised()
      requires Enabled(State(), CallbackRaises)
      modifies this
      ensures State() == BreakOff(old(State()))
    {
      var top := frames[|frames| - 1];
      if top.Finishing? {
        tasks := tasks[top.task := tasks[top.task].(broken := Some(top.started))];
      }
      frames := frames[..|frames| - 1];
    }

    method CallNext()
      requires Enabled(State(), RunDoneCallback)
      modifies this
      ensures State() == StartDoneCallback(old(State()))
    {
      var t, i := frames[|frames| - 1].task, frames[|frames| - 1].started;
      frames := frames[..|frames| - 1] + [Finishing(t, i + 1)];
      var cbs := tasks[t].doneCallbacks;
      tasks := tasks[t := tasks[t].(doneCallbacks := cbs[i := cbs[i].(ran := cbs[i].ran + 1)])];
    }

    // The tail of `_set_outcome`.
    method WakeWaiters()
      requires Sane(State()) && Enabled(State(), Finish)
      modifies this
      ensures State() == FireCompletion(old(State()))
    {
      var t := frames[|frames| - 1].task;
      frames := frames[..|frames| - 1];
      assert State() == PopFrame(old(State()));
      ghost var c := tasks[t].complete;
      RunHandlesFrame(TakeHandles(State(), c), triggers[c].callbacks);
      var j := tasks[t].join;
      DoCallbacks(tasks[t].complete);
      DoCallbacks(j);
    }

    // ----- The end of an activation -----

    method Finished(t: nat, o: Outcome, status: Status)
      requires t < |tasks| && |frames| > 0
      modifies this
      ensures State() == SetOutcome(old(State()), t, o, status)
    {
      tasks := tasks[t := tasks[t].(outcome := Some(o), status := status)];
      frames := frames[..|frames| - 1] + [Finishing(t, 0)];
    }

    method Returned(v: int)
      requires TopCoro(State()) && TopTask(State()) < |tasks|
      modifies this
      ensures State() == EndReturn(old(State()), v)
    {
      var t := frames[|frames| - 1].task;
      if tasks[t].mustCancel > 0 {
        Finished(t, Raised(RuntimeError), Errored);
      } else {
        Finished(t, Value(v), Status.Finished);
      }
    }

    method RaisedOut(e: Exn)
      requires TopCoro(State()) && TopTask(State()) < |tasks|
      modifies this
      ensures State() == EndRaise(old(State()), e)
    {
      var t := frames[|frames| - 1].task;
      if e.ExitError? {
        Finished(t, Raised(e), Errored);
      } else if e.CancelledError? {
        Finished(t, Raised(e), Cancelled);
      } else if tasks[t].mustCancel > 0 {
        Finished(t, Raised(RuntimeError), Errored);
      } else {
        Finished(t, Raised(e), Errored);
      }
    }

    method Yielded(g: Option<nat>)
      requires TopCoro(State()) && TopTask(State()) < |tasks|
      requires g.Some? ==> g.value < |triggers| && HandlesOk(State(), triggers[g.value].callbacks)
      requires g.Some? && triggers[g.value].kind.Complete? ==> triggers[g.value].kind.task < |tasks|
      modifies this
      ensures State() == EndYield(old(State()), g)
    {
      var t := frames[|frames| - 1].task;
      if tasks[t].mustCancel > 0 {
        frames := frames[..|frames| - 1] + [Closing(t)];
        return;
      }
      frames := frames[..|frames| - 1];
      assert State() == PopFrame(old(State()));
      if g.None? {
        Reschedule(t, Some(TypeError));
      } else {
        Register(t, g.value);
      }
    }

    // The Trigger it yields cannot be primed: `_register` raises after it has added the handle.
    method YieldedUnprimable(g: nat, e: Exn)
      requires TopCoro(State()) && TopTask(State()) < |tasks| && g < |triggers|
      modifies this
      ensures State() == EndYieldFails(old(State()), g, e)
    {
      var t := frames[|frames| - 1].task;
      if tasks[t].mustCancel > 0 {
        frames := frames[..|frames| - 1] + [Closing(t)];
        return;
      }
      frames := frames[..|frames| - 1];
      tasks := tasks[t := tasks[t].(trigger := g)];
      triggers := triggers[g := triggers[g].(stale := [Handle(next, t)])];
      next := next + 1;
      Reschedule(t, Some(e));
    }

    // One turn of the event loop.
    method PopLeft()
      requires callbacks != [] && callbacks[0].task < |tasks|
      modifies this
      ensures State() == PopEntry(old(State()))
    {
      var cb := callbacks[0];
      callbacks := callbacks[1..];
      if !cb.cancelled {
        EnterCoroutine(cb.task);
      }
    }

    // Any step: foreign code calls the API, hands control back, or the runtime goes on.
    method Apply(p: Step)
      requires Sane(State()) && Enabled(State(), p)
      modifies this
      ensures State() == Next(old(State()), p)
    {
      match p {
        case NewTask => NewTask();
        case NewTrigger(k) => NewTrigger(k);
        case StartSoon(t) => var r := StartSoon(t);
        case StartNext(t) => var r := StartNext(t);
        case DoCancel(t) => var r := CancelTask(t);
        case DoCancelNow(t) => var r := CancelTaskNow(t);
        case DoUncancel(t) => UncancelTask(t);
        case AddDoneCallback(t) => AddDoneCallback(t);
        case SetEvent(g) => FireTrigger(g, Event(true));
        case ClearEvent(g) => ClearFired(g);
        case FireGpi(g) => FireTrigger(g, Gpi(false));
        case Pop => PopLeft();
        case Return(v) => Returned(v);
        case Raise(e) => RaisedOut(e);
        case Yield(g) => Yielded(Some(g));
        case YieldFails(g, e) => YieldedUnprimable(g, e);
        case YieldOther => Yielded(None);
        case Closed => Finished(frames[|frames| - 1].task, Raised(RuntimeError), Errored);
        case RunDoneCallback => CallNext();
        case Finish => WakeWaiters();
        case Added => CallbackReturned();
        case CallbackRaises => CallbackRaised();
      }
    }

    method Step(p: Step, ghost start: State, ghost trace: seq<Step>) returns (ghost longer: seq<Step>)
      requires Inv(start) && Legal(start, trace) && State() == Exec(start, trace) && Enabled(State(), p)
      modifies this
      ensures longer == trace + [p] && Legal(start, longer) && State() == Exec(start, longer)
      ensures Sane(old(State())) && State() == Next(old(State()), p)
    {
      RunKeepsInv(start, trace);
      InvIsSane(State(), {});
      ExecAppend(start, trace, p);
      Apply(p);
      longer := trace + [p];
    }

    // `EventLoop.run`.  `oracle` says what the coroutines and callbacks do; a step that is not
    // possible is skipped.  The run is cut short when the oracle has nothing more to say, and when an
    // exception leaves it: a KeyboardInterrupt or the like once the Task that raised it is done, or
    // the exception of a done-callback.
    method Run(oracle: seq<Step>) returns (ghost trace: seq<Step>, end: RunEnd)
      requires Inv(State()) && frames == []
      modifies this
      ensures Legal(old(State()), trace) && State() == Exec(old(State()), trace) && Inv(State())
      ensures end.Escaped? ==> frames == [] && end.task < |tasks| && Exits(tasks[end.task])
      ensures end.Escaped? ==> tasks[end.task].status.Done()
      ensures end.LoopEmpty? ==> callbacks == [] && frames == []
      ensures end.LoopEmpty? ==> forall t :: 0 <= t < |tasks| && tasks[t].mustCancel > 0 ==>
        tasks[t].status in {Cancelled, Errored}
    {
      trace := [];
      ghost var start := State();
      var i := 0;
      while callbacks != []
        invariant i <= |oracle| && frames == []
        invariant Legal(start, trace) && State() == Exec(start, trace)
        decreases |oracle| - i, |callbacks|
      {
        var running := if callbacks[0].cancelled then None else Some(callbacks[0].task);
        trace := Step(Pop, start, trace);
        ghost var i0, popped := i, |callbacks|;
        while frames != [] && i < |oracle|
          invariant i0 <= i <= |oracle| && (i == i0 ==> |callbacks| == popped)
          invariant Legal(start, trace) && State() == Exec(start, trace)
          decreases |oracle| - i
        {
          if Enabled(State(), oracle[i]) {
            trace := Step(oracle[i], start, trace);
          }
          i := i + 1;
        }
        if frames != [] {
          RunKeepsInv(start, trace);
          return trace, OracleEnds;
        }
        if running.Some? && running.value < |tasks| && Exits(tasks[running.value]) {
          RunKeepsInv(start, trace);
          assert TaskAccounted(tasks[running.value]);
          return trace, Escaped(running.value);
        }
      }
      end := LoopEmpty;
      RunKeepsInv(start, trace);
      forall t | 0 <= t < |tasks| && tasks[t].mustCancel > 0 ensures tasks[t].status in {Cancelled, Errored} {
        assert TaskAccounted(tasks[t]);
      }
    }
  }

  lemma {:induction false} ExecAppend(s: State, ps: seq<Step>, p: Step)
    requires Inv(s) && Legal(s, ps) && Enabled(Exec(s, ps), p)
    ensures Inv(Exec(s, ps)) && Sane(Exec(s, ps))
    ensures Legal(s, ps + [p]) && Exec(s, ps + [p]) == Next(Exec(s, ps), p)
    decreases |ps|
  {
    InvIsSane(s, {});
    if ps == [] {
      assert ([p])[1..] == [];
    } else {
      StepKeepsInv(s, ps[0]);
      ExecAppend(Next(s, ps[0]), ps[1..], p);
      assert (ps + [p])[1..] == ps[1..] + [p];
    }
  }
}
