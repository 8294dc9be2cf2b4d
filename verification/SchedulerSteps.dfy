/** Every step of the scheduler keeps its invariant. */
module SchedulerSteps {
  import opened Wrappers
  import opened Scheduler
  import opened SchedulerInvariant

  // ----- The stack -----

  lemma FinishingKept(s: State, r: State)
    requires forall i :: 0 <= i < |s.frames| && s.frames[i].Finishing? ==>
      i < |r.frames| && r.frames[i].Finishing? && r.frames[i].task == s.frames[i].task
    ensures forall t :: FinishingIn(s, t) ==> FinishingIn(r, t)
  {
    forall t | FinishingIn(s, t) ensures FinishingIn(r, t) {
      var i :| 0 <= i < |s.frames| && s.frames[i].Finishing? && s.frames[i].task == t;
      assert r.frames[i].Finishing? && r.frames[i].task == t;
    }
  }

  ghost predicate OthersSame(s: State, r: State, t: nat) {
    && |r.tasks| == |s.tasks|
    && forall u :: 0 <= u < |s.tasks| && u != t ==> r.tasks[u] == s.tasks[u]
  }

  lemma PushFrame(s: State, r: State, f: Frame)
    requires Stacked(s) && r.frames == s.frames + [f] && OthersSame(s, r, f.task)
    requires f.Coro? && f.task < |s.tasks| && !s.tasks[f.task].status.Done() && s.tasks[f.task].status != Running
    requires r.tasks[f.task].status == Running
    ensures Stacked(r)
    ensures forall t :: FinishingIn(s, t) ==> FinishingIn(r, t)
  {
    FinishingKept(s, r);
    forall i | 0 <= i < |r.frames| ensures FrameOk(r, r.frames[i]) && (i < |s.frames| ==> r.frames[i].task != f.task) {
      if i < |s.frames| { assert FrameOk(s, s.frames[i]); }
    }
    forall t | 0 <= t < |r.tasks| && r.tasks[t].status == Running
      ensures Coro(t) in r.frames || Closing(t) in r.frames
    {
      if t == f.task { assert r.frames[|s.frames|] == f; }
    }
  }

  // The activation on top ends; its Task is then no longer RUNNING.
  lemma PopActivation(s: State, r: State)
    requires Stacked(s) && |s.frames| > 0 && r.frames == s.frames[..|s.frames| - 1]
    requires TopCoro(s) && OthersSame(s, r, TopTask(s)) && TopTask(s) < |s.tasks|
    requires r.tasks[TopTask(s)].status != Running
    ensures Stacked(r)
    ensures forall t :: FinishingIn(s, t) ==> FinishingIn(r, t)
  {
    FinishingKept(s, r);
    var n := |s.frames| - 1;
    assert FrameOk(s, s.frames[n]);
    forall i | 0 <= i < |r.frames| ensures FrameOk(r, r.frames[i]) {
      assert FrameOk(s, s.frames[i]);
    }
    forall t | 0 <= t < |r.tasks| && r.tasks[t].status == Running
      ensures Coro(t) in r.frames || Closing(t) in r.frames
    {
      var f :| f in {Coro(t), Closing(t)} && f in s.frames;
      var i :| 0 <= i < |s.frames| && s.frames[i] == f;
      assert i < n ==> r.frames[i] == f;
    }
  }

  // The frame on top is replaced by another one of the same Task.
  lemma ReplaceTop(s: State, r: State, f: Frame)
    requires Stacked(s) && |s.frames| > 0 && r.frames == s.frames[..|s.frames| - 1] + [f]
    requires !s.frames[|s.frames| - 1].Adding? && f.task == TopTask(s) && !f.Adding?
    requires OthersSame(s, r, f.task) && FrameOk(r, f)
    requires s.tasks[f.task].status.Done() ==> r.tasks[f.task].status.Done() && f.Finishing?
    requires r.tasks[f.task].status == Running ==> f.Closing?
    ensures Stacked(r)
    ensures forall t :: FinishingIn(s, t) ==> FinishingIn(r, t)
  {
    var n := |s.frames| - 1;
    assert FrameOk(s, s.frames[n]);
    FinishingKept(s, r);
    forall i | 0 <= i < |r.frames| ensures FrameOk(r, r.frames[i]) {
      if i < n { assert FrameOk(s, s.frames[i]); }
    }
    forall t | 0 <= t < |r.tasks| && r.tasks[t].status == Running
      ensures Coro(t) in r.frames || Closing(t) in r.frames
    {
      if t == f.task {
        assert r.frames[n] == f;
      } else {
        RunningBelow(s, t);
        assert Coro(t) in r.frames[..n] || Closing(t) in r.frames[..n];
      }
    }
  }

  lemma RunningBelow(s: State, t: nat)
    requires Stacked(s) && |s.frames| > 0 && t < |s.tasks| && s.tasks[t].status == Running && t != TopTask(s)
    ensures Coro(t) in s.frames[..|s.frames| - 1] || Closing(t) in s.frames[..|s.frames| - 1]
  {
    var f :| f in {Coro(t), Closing(t)} && f in s.frames;
    var i :| 0 <= i < |s.frames| && s.frames[i] == f;
    assert s.frames[..|s.frames| - 1][i] == f;
  }

  lemma AccountedSet(s: State, r: State, t: nat)
    requires Accounted(s) && t < |s.tasks| && OthersSame(s, r, t) && TaskAccounted(r.tasks[t])
    ensures Accounted(r)
  {
    forall u | 0 <= u < |r.tasks| ensures TaskAccounted(r.tasks[u]) {
      if u != t { assert TaskAccounted(s.tasks[u]); }
    }
  }

  // ----- Creating -----

  lemma CreateTaskPlaced(s: State)
    requires Placed(s, {})
    ensures Placed(CreateTask(s), {})
  {
    var r := CreateTask(s);
    forall g, i | 0 <= g < |r.triggers| && 0 <= i < |r.triggers[g].callbacks|
      ensures HandleOwned(r, {}, g, r.triggers[g].callbacks[i])
    {
      assert HandleOwned(s, {}, g, s.triggers[g].callbacks[i]);
    }
  }

  lemma CreateTaskMissesNone(s: State)
    requires NoneMissed(s)
    ensures NoneMissed(CreateTask(s))
  {
    var r := CreateTask(s);
    FinishingKept(s, r);
    forall g | 0 <= g < |r.triggers| && r.triggers[g].callbacks != [] ensures Unfired(r, g) {
      assert Unfired(s, g);
    }
  }

  lemma CreateTaskKeepsInv(s: State)
    requires Inv(s)
    ensures Inv(CreateTask(s))
  {
    var r := CreateTask(s);
    CreateTaskPlaced(s);
    CreateTaskMissesNone(s);
    assert Stacked(r) by {
      forall i | 0 <= i < |r.frames| ensures FrameOk(r, r.frames[i]) {
        assert FrameOk(s, s.frames[i]);
      }
    }
    assert Linked(r) by {
      forall t | 0 <= t < |r.tasks| ensures LinkOk(r, t) {
        if t < |s.tasks| { assert LinkOk(s, t); }
      }
    }
    assert Accounted(r) by {
      forall t | 0 <= t < |r.tasks| ensures TaskAccounted(r.tasks[t]) {
        if t < |s.tasks| { assert TaskAccounted(s.tasks[t]); }
      }
    }
  }

  lemma NewTriggerKeepsInv(s: State, k: Kind)
    requires Inv(s) && Enabled(s, NewTrigger(k))
    ensures Sane(s) && Inv(Next(s, NewTrigger(k)))
  {
    InvIsSane(s, {});
    var r := Next(s, NewTrigger(k));
    forall g, i | 0 <= g < |r.triggers| && 0 <= i < |r.triggers[g].callbacks|
      ensures HandleOwned(r, {}, g, r.triggers[g].callbacks[i])
    {
      assert HandleOwned(s, {}, g, s.triggers[g].callbacks[i]);
    }
    StackedUnseen(s, r);
    assert Linked(r) by {
      forall t | 0 <= t < |r.tasks| ensures LinkOk(r, t) {
        assert LinkOk(s, t);
      }
    }
    forall g | 0 <= g < |r.triggers| && r.triggers[g].callbacks != [] ensures Unfired(r, g) {
      assert Unfired(s, g);
      FinishingKept(s, r);
    }
  }

  // ----- Starting and cancelling -----

  lemma ChangeStatus(s: State, r: State, t: nat)
    requires Stacked(s) && Linked(s) && t < |s.tasks| && OthersSame(s, r, t)
    requires r.frames == s.frames
    requires s.tasks[t].status != Running && r.tasks[t].status != Running
    requires !s.tasks[t].status.Done() && !r.tasks[t].status.Done()
    requires r.tasks[t].complete == s.tasks[t].complete && r.tasks[t].join == s.tasks[t].join
    requires r.tasks[t].doneCallbacks == s.tasks[t].doneCallbacks && r.tasks[t].broken == s.tasks[t].broken
    requires |r.triggers| == |s.triggers|
    requires forall g :: 0 <= g < |s.triggers| ==>
      s.triggers[g].kind == r.triggers[g].kind || !(s.triggers[g].kind.Complete? || r.triggers[g].kind.Complete?)
    ensures Stacked(r) && Linked(r)
    ensures forall u :: FinishingIn(s, u) ==> FinishingIn(r, u)
  {
    StackedUnseen(s, r);
    LinkedUnseen(s, r);
    FinishingKept(s, r);
  }

  lemma StartKeepsInv(s: State, t: nat, left: bool)
    requires Inv(s) && t < |s.tasks|
    ensures Inv(Start(s, t, left))
  {
    if s.tasks[t].status.Unstarted? {
      var r := Start(s, t, left);
      Exempt(s, {}, t);
      ScheduleKeepsPlaced(s, {t}, t, None, left);
      assert {} + {t} == {t} && {t} - {t} == {};
      ChangeStatus(s, r, t);
      assert TaskAccounted(s.tasks[t]);
      AccountedSet(s, r, t);
      MissedUnseen(s, r, {}, {});
    }
  }

  // Everything holds, except that Task `t` is queued nowhere.
  ghost predicate InTransit(s: State, t: nat) {
    && t < |s.tasks| && s.tasks[t].status in {Unstarted, Scheduled, Pending}
    && Placed(s, {t}) && Stacked(s) && Accounted(s) && Linked(s) && NoneMissed(s)
  }

  lemma TakeUnstarted(s: State, t: nat)
    requires Inv(s) && t < |s.tasks| && s.tasks[t].status.Unstarted?
    ensures InTransit(s, t)
  {
    Exempt(s, {}, t);
    assert {} + {t} == {t};
  }

  lemma TakePending(s: State, t: nat)
    requires Inv(s) && t < |s.tasks| && s.tasks[t].status == Pending
    ensures s.tasks[t].trigger < |s.triggers| && Deregister(s, t).Ok? && InTransit(Deregister(s, t).value, t)
    ensures Deregister(s, t).value == s.(triggers := Deregister(s, t).value.triggers)
  {
    DeregisterKeepsPlaced(s, {}, t);
    assert {} + {t} == {t};
    var r := Deregister(s, t).value;
    FinishingKept(s, r);
    forall g | 0 <= g < |r.triggers|
      ensures r.triggers[g].callbacks != [] ==> Unfired(r, g)
      ensures r.triggers[g].kind == Gpi(true) ==> r.triggers[g].callbacks != []
    {
      if r.triggers[g].callbacks != [] {
        assert r.triggers[g].callbacks[0] in s.triggers[g].callbacks;
        assert Unfired(s, g);
      }
    }
    StackedUnseen(s, r);
    LinkedUnseen(s, r);
  }

  lemma TakeScheduled(s: State, t: nat)
    requires Inv(s) && t < |s.tasks| && s.tasks[t].status == Scheduled
    ensures InTransit(Unschedule(s, t), t)
  {
    UnscheduleKeepsPlaced(s, {}, t);
    assert {} + {t} == {t};
    var s1 := Unschedule(s, t);
    StackedUnseen(s, s1);
    LinkedUnseen(s, s1);
    FinishingKept(s, s1);
    MissedUnseen(s, s1, {}, {});
  }

  lemma RequeueKeepsInv(s: State, t: nat)
    requires InTransit(s, t) && !s.tasks[t].status.Scheduled?
    ensures Inv(CountCancel(ScheduleResume(s, t, Some(CancelledError)), t))
  {
    var r := CountCancel(ScheduleResume(s, t, Some(CancelledError)), t);
    ScheduleKeepsPlaced(s, {t}, t, Some(CancelledError), false);
    assert {t} - {t} == {};
    ChangeUnseen(ScheduleResume(s, t, Some(CancelledError)), {}, r);
    assert TaskAccounted(s.tasks[t]);
    ChangeStatus(s, r, t);
    AccountedSet(s, r, t);
    MissedUnseen(s, r, {}, {});
  }

  lemma HijackKeepsInv(s: State, t: nat)
    requires Inv(s) && t < |s.tasks| && s.tasks[t].status.Scheduled?
    ensures Inv(CountCancel(SetTask(s, t, s.tasks[t].(exc := Some(CancelledError))), t))
  {
    var r := CountCancel(SetTask(s, t, s.tasks[t].(exc := Some(CancelledError))), t);
    assert TaskAccounted(s.tasks[t]);
    ChangeUnseen(s, {}, r);
    ChangeStatus(s, r, t);
    AccountedSet(s, r, t);
    MissedUnseen(s, r, {}, {});
  }

  // `cancel` fails exactly on a RUNNING Task, and never with a KeyError.
  lemma CancelKeepsInv(s: State, t: nat)
    requires Inv(s) && t < |s.tasks|
    ensures Sane(s) && Inv(Next(s, DoCancel(t)))
    ensures Cancel(s, t).Err? <==> s.tasks[t].status == Running
    ensures Cancel(s, t).Err? ==> Cancel(s, t).error == RuntimeError
  {
    InvIsSane(s, {});
    match s.tasks[t].status
    case Pending =>
      TakePending(s, t);
      RequeueKeepsInv(Deregister(s, t).value, t);
    case Scheduled => HijackKeepsInv(s, t);
    case Unstarted =>
      TakeUnstarted(s, t);
      RequeueKeepsInv(s, t);
    case _ =>
  }

  // A Task in transit enters `_resume`.
  lemma EnterKeepsInv(s: State, r: State, t: nat)
    requires InTransit(s, t) && |r.tasks| == |s.tasks|
    requires r == SetTask(s, t, r.tasks[t]).(frames := s.frames + [Coro(t)])
    requires r.tasks[t] == s.tasks[t].(status := Running, resumes := s.tasks[t].resumes + 1,
      mustCancel := r.tasks[t].mustCancel, exc := r.tasks[t].exc)
    ensures Inv(r)
  {
    var s1 := SetTask(s, t, r.tasks[t]);
    ChangeInTransit(s, {t}, t, r.tasks[t]);
    Exempt(s1, {t}, t);
    assert {t} - {t} == {};
    ChangeUnseen(s1, {}, r);
    PushFrame(s, r, Coro(t));
    assert TaskAccounted(s.tasks[t]);
    AccountedSet(s, r, t);
    LinkedUnseen(s, r);
    MissedUnseen(s, r, {}, {});
  }

  lemma ThrowNowKeepsInv(s: State, t: nat)
    requires InTransit(s, t)
    ensures Inv(ThrowNow(s, t))
  {
    EnterKeepsInv(s, ThrowNow(s, t), t);
  }

  lemma CancelNowKeepsInv(s: State, t: nat)
    requires Inv(s) && t < |s.tasks|
    ensures Sane(s) && Inv(Next(s, DoCancelNow(t)))
    ensures CancelNow(s, t).Err? <==> s.tasks[t].status == Running
    ensures CancelNow(s, t).Err? ==> CancelNow(s, t).error == RuntimeError
  {
    InvIsSane(s, {});
    match s.tasks[t].status
    case Pending =>
      TakePending(s, t);
      ThrowNowKeepsInv(Deregister(s, t).value, t);
    case Scheduled =>
      TakeScheduled(s, t);
      ThrowNowKeepsInv(Unschedule(s, t), t);
    case Unstarted =>
      TakeUnstarted(s, t);
      ThrowNowKeepsInv(s, t);
    case _ =>
  }

  lemma UncancelKeepsInv(s: State, t: nat)
    requires Inv(s) && t < |s.tasks|
    ensures Inv(Uncancel(s, t))
  {
    var r := Uncancel(s, t);
    ChangeUnseen(s, {}, r);
    StackedUnseen(s, r);
    LinkedUnseen(s, r);
    FinishingKept(s, r);
    assert TaskAccounted(s.tasks[t]);
    AccountedSet(s, r, t);
    MissedUnseen(s, r, {}, {});
  }

  // ----- Firing -----

  lemma SetKindKeepsInv(s: State, g: nat, k: Kind)
    requires Inv(s) && g < |s.triggers| && !s.triggers[g].kind.Complete? && !k.Complete?
    ensures InvBut(SetKind(s, g, k), {g})
  {
    var r := SetKind(s, g, k);
    SetKindKeepsPlaced(s, {}, g, k);
    StackedUnseen(s, r);
    LinkedUnseen(s, r);
    FinishingKept(s, r);
    MissedUnseen(s, r, {}, {g});
  }

  lemma FireKeepsInv(s: State, g: nat, k: Kind)
    requires Inv(s) && g < |s.triggers| && !s.triggers[g].kind.Complete? && !k.Complete? && k != Gpi(true)
    requires k.Gpi? <==> s.triggers[g].kind.Gpi?
    ensures HandlesOk(SetKind(s, g, k), s.triggers[g].callbacks) && Inv(React(SetKind(s, g, k), g))
  {
    SetKindKeepsInv(s, g, k);
    ReactKeepsInv(SetKind(s, g, k), {g}, g);
    assert {g} - {g} == {};
  }

  lemma ClearEventKeepsInv(s: State, g: nat)
    requires Inv(s) && g < |s.triggers| && s.triggers[g].kind.Event?
    ensures Inv(SetKind(s, g, Event(false)))
  {
    SetKindKeepsInv(s, g, Event(false));
    assert Unfired(SetKind(s, g, Event(false)), g);
  }

  // ----- Running a coroutine -----

  lemma PopKeepsInv(s: State)
    requires Inv(s) && |s.loop| > 0
    ensures s.loop[0].task < |s.tasks| && Inv(PopEntry(s))
  {
    var s1 := s.(loop := s.loop[1..]);
    PopKeepsPlaced(s, {});
    StackedUnseen(s, s1);
    LinkedUnseen(s, s1);
    FinishingKept(s, s1);
    MissedUnseen(s, s1, {}, {});
    if !s.loop[0].cancelled {
      assert {} + {s.loop[0].task} == {s.loop[0].task};
      EnterKeepsInv(s1, PopEntry(s), s.loop[0].task);
    }
  }

  lemma SetOutcomeKeepsInv(s: State, o: Outcome, status: Status)
    requires Inv(s) && |s.frames| > 0 && (s.frames[|s.frames| - 1].Coro? || s.frames[|s.frames| - 1].Closing?)
    requires TopTask(s) < |s.tasks| && status.Done()
    requires TaskAccounted(s.tasks[TopTask(s)].(status := status, outcome := Some(o)))
    ensures Inv(SetOutcome(s, TopTask(s), o, status))
  {
    var t := TopTask(s);
    var r := SetOutcome(s, t, o, status);
    assert FrameOk(s, s.frames[|s.frames| - 1]);
    var s1 := SetTask(s, t, r.tasks[t]);
    Exempt(s, {}, t);
    assert {} + {t} == {t} && {t} - {t} == {};
    ChangeInTransit(s, {t}, t, r.tasks[t]);
    Exempt(s1, {t}, t);
    ChangeUnseen(s1, {}, r);
    ReplaceTop(s, r, Finishing(t, 0));
    assert r.frames[|s.frames| - 1] == Finishing(t, 0);
    assert FinishingIn(r, t);
    AccountedSet(s, r, t);
    LinkedUnseen(s, r);
    MissedUnseen(s, r, {}, {});
  }

  lemma TopOfInv(s: State)
    requires Inv(s) && |s.frames| > 0
    ensures TopTask(s) < |s.tasks| && FrameOk(s, s.frames[|s.frames| - 1]) && TaskAccounted(s.tasks[TopTask(s)])
  {
  }

  lemma AddHandleKeepsInv(s: State, g: nat)
    requires Inv(s) && TopCoro(s) && TopTask(s) < |s.tasks| && g < |s.triggers| && s.tasks[TopTask(s)].mustCancel == 0
    requires HandlesOk(s, s.triggers[g].callbacks)
    ensures HandlesOk(PopFrame(s), s.triggers[g].callbacks) && InvBut(AddHandle(PopFrame(s), TopTask(s), g), {g})
  {
    var t := TopTask(s);
    var s1 := PopFrame(s);
    TopOfInv(s);
    Exempt(s, {}, t);
    assert {} + {t} == {t} && {t} - {t} == {};
    ChangeUnseen(s, {t}, s1);
    AddHandleKeepsPlaced(s1, {t}, t, g);
    var r := AddHandle(s1, t, g);
    PopActivation(s, r);
    AccountedSet(s, r, t);
    LinkedUnseen(s, r);
    MissedUnseen(s, r, {}, {g});
  }

  // Waiting on a Trigger that already has waiters: nothing is primed.
  lemma JoinKeepsInv(s: State, g: nat)
    requires Inv(s) && TopCoro(s) && TopTask(s) < |s.tasks| && g < |s.triggers| && s.tasks[TopTask(s)].mustCancel == 0
    requires HandlesOk(PopFrame(s), s.triggers[g].callbacks) && !s.triggers[g].Unused()
    ensures Inv(AddHandle(PopFrame(s), TopTask(s), g))
  {
    AddHandleKeepsInv(s, g);
    var r := AddHandle(PopFrame(s), TopTask(s), g);
    TopOfInv(s);
    FinishingKept(s, r);
    assert StaleOk(s.triggers[g]);
    assert s.triggers[g].callbacks != [] ==> Unfired(s, g);
    assert Unfired(r, g);
    assert r.triggers[g].callbacks != [];
  }

  lemma YieldKeepsInv(s: State, g: nat)
    requires Inv(s) && Enabled(s, Yield(g))
    ensures Sane(s) && Inv(Next(s, Yield(g)))
  {
    InvIsSane(s, {});
    TopOfInv(s);
    var t := TopTask(s);
    if s.tasks[t].mustCancel > 0 {
      CloseKeepsInv(s);
    } else if !s.triggers[g].Unused() {
      assert HandlesOk(PopFrame(s), s.triggers[g].callbacks);
      JoinKeepsInv(s, g);
    } else {
      AddHandleKeepsInv(s, g);
      PrimeKeepsInv(AddHandle(PopFrame(s), t, g), g);
    }
  }

  lemma PrimeKeepsInv(s: State, g: nat)
    requires InvBut(s, {g}) && g < |s.triggers| && s.triggers[g].callbacks != [] && s.triggers[g].kind != Gpi(true)
    requires s.triggers[g].stale == []
    ensures Sane(s) && Inv(Prime(s, g))
  {
    InvIsSane(s, {g});
    ReactKeepsInv(s, {g}, g);
    assert {g} - {g} == {};
    match s.triggers[g].kind
    case Event(fired) => assert !fired ==> Unfired(s, g);
    case Null =>
    case Complete(t) => assert !s.tasks[t].status.Done() ==> Unfired(s, g);
    case Gpi(_) =>
      var r := SetKind(s, g, Gpi(true));
      SetKindKeepsPlaced(s, {}, g, Gpi(true));
      StackedUnseen(s, r);
      LinkedUnseen(s, r);
      FinishingKept(s, r);
      MissedUnseen(s, r, {g}, {g});
      assert Unfired(r, g);
  }

  lemma CloseKeepsInv(s: State)
    requires Inv(s) && TopCoro(s)
    ensures Inv(s.(frames := s.frames[..|s.frames| - 1] + [Closing(TopTask(s))]))
  {
    var r := s.(frames := s.frames[..|s.frames| - 1] + [Closing(TopTask(s))]);
    TopOfInv(s);
    ChangeUnseen(s, {}, r);
    ReplaceTop(s, r, Closing(TopTask(s)));
    LinkedUnseen(s, r);
    MissedUnseen(s, r, {}, {});
  }

  lemma RetryKeepsInv(s: State, e: Exn)
    requires Inv(s) && TopCoro(s) && TopTask(s) < |s.tasks| && s.tasks[TopTask(s)].mustCancel == 0
    ensures Inv(ScheduleResume(PopFrame(s), TopTask(s), Some(e)))
  {
    TopOfInv(s);
    var t := TopTask(s);
    var r := ScheduleResume(PopFrame(s), t, Some(e));
    Exempt(s, {}, t);
    assert {} + {t} == {t} && {t} - {t} == {};
    ChangeUnseen(s, {t}, PopFrame(s));
    ScheduleKeepsPlaced(PopFrame(s), {t}, t, Some(e), false);
    PopActivation(s, r);
    AccountedSet(s, r, t);
    LinkedUnseen(s, r);
    MissedUnseen(s, r, {}, {});
  }

  lemma YieldOtherKeepsInv(s: State)
    requires Inv(s) && TopCoro(s) && TopTask(s) < |s.tasks|
    ensures Inv(EndYield(s, None))
  {
    if s.tasks[TopTask(s)].mustCancel > 0 {
      CloseKeepsInv(s);
    } else {
      RetryKeepsInv(s, TypeError);
    }
  }

  // A `_prime` that raises leaves a stale handle behind, but no Task in a wrong place.
  lemma StaleKeepsInv(s: State, g: nat)
    requires Inv(s) && TopCoro(s) && TopTask(s) < |s.tasks| && g < |s.triggers|
    requires s.triggers[g].kind == Gpi(false) && s.triggers[g].Unused()
    ensures Inv(WithStale(s, TopTask(s), g))
  {
    TopOfInv(s);
    var t := TopTask(s);
    var r := WithStale(s, t, g);
    StalePlaced(s, t, g);
    StackedUnseen(s, r);
    LinkedUnseen(s, r);
    AccountedSet(s, r, t);
    FinishingKept(s, r);
    MissedUnseen(s, r, {}, {});
  }

  function WithStale(s: State, t: nat, g: nat): State
    requires t < |s.tasks| && g < |s.triggers|
  {
    SetTask(s, t, s.tasks[t].(trigger := g)).(
      triggers := s.triggers[g := s.triggers[g].(stale := [Handle(s.next, t)])], next := s.next + 1)
  }

  lemma StalePlaced(s: State, t: nat, g: nat)
    requires Placed(s, {}) && t < |s.tasks| && s.tasks[t].status == Running && g < |s.triggers|
    ensures Placed(WithStale(s, t, g), {})
  {
    var r := WithStale(s, t, g);
    forall h, i | 0 <= h < |r.triggers| && 0 <= i < |r.triggers[h].callbacks|
      ensures HandleOwned(r, {}, h, r.triggers[h].callbacks[i])
    {
      assert HandleOwned(s, {}, h, s.triggers[h].callbacks[i]);
    }
  }

  lemma YieldFailsKeepsInv(s: State, g: nat, e: Exn)
    requires Inv(s) && Enabled(s, YieldFails(g, e)) && TopTask(s) < |s.tasks|
    ensures Inv(EndYieldFails(s, g, e))
  {
    var t := TopTask(s);
    if s.tasks[t].mustCancel > 0 {
      CloseKeepsInv(s);
    } else {
      StaleKeepsInv(s, g);
      RetryKeepsInv(WithStale(s, t, g), e);
      FailedWaitIsRetry(s, g, e);
    }
  }

  lemma FailedWaitIsRetry(s: State, g: nat, e: Exn)
    requires TopCoro(s) && TopTask(s) < |s.tasks| && g < |s.triggers| && s.tasks[TopTask(s)].mustCancel == 0
    ensures EndYieldFails(s, g, e) == ScheduleResume(PopFrame(WithStale(s, TopTask(s), g)), TopTask(s), Some(e))
  {
  }

  // ----- Completing -----

  lemma AddCallbackKeepsInv(s: State, t: nat)
    requires Inv(s) && t < |s.tasks|
    ensures Inv(AddCallback(s, t))
  {
    var r := AddCallback(s, t);
    ChangeUnseen(s, {}, r);
    FinishingKept(s, r);
    LinkedUnseen(s, r);
    MissedUnseen(s, r, {}, {});
    assert TaskAccounted(s.tasks[t]);
    AccountedSet(s, r, t);
    forall i | 0 <= i < |r.frames| ensures FrameOk(r, r.frames[i]) {
      if i < |s.frames| { assert FrameOk(s, s.frames[i]); }
    }
    forall u | 0 <= u < |r.tasks| && r.tasks[u].status == Running
      ensures Coro(u) in r.frames || Closing(u) in r.frames
    {
      var f :| f in {Coro(u), Closing(u)} && f in s.frames;
      var i :| 0 <= i < |s.frames| && s.frames[i] == f;
      assert r.frames[i] == f;
    }
  }

  lemma RunDoneCallbackKeepsInv(s: State)
    requires Inv(s) && Enabled(s, RunDoneCallback)
    ensures Sane(s) && Inv(Next(s, RunDoneCallback))
  {
    InvIsSane(s, {});
    var r := Next(s, RunDoneCallback);
    TopOfInv(s);
    ChangeUnseen(s, {}, r);
    ReplaceTop(s, r, r.frames[|s.frames| - 1]);
    AccountedSet(s, r, TopTask(s));
    LinkedUnseen(s, r);
    MissedUnseen(s, r, {}, {});
  }

  // Leaving the frame of a Task that is done.
  lemma LeaveDone(s: State, r: State)
    requires Stacked(s) && |s.frames| > 0 && !TopCoro(s) && !s.frames[|s.frames| - 1].Closing?
    requires r.frames == s.frames[..|s.frames| - 1] && |r.tasks| == |s.tasks|
    requires forall t :: 0 <= t < |s.tasks| ==>
      r.tasks[t].status == s.tasks[t].status && |r.tasks[t].doneCallbacks| >= |s.tasks[t].doneCallbacks|
    requires forall t :: 0 <= t < |s.tasks| && (t != TopTask(s) || !s.frames[|s.frames| - 1].Finishing?) ==>
      r.tasks[t].broken == s.tasks[t].broken
    ensures Stacked(r)
  {
    var n := |s.frames| - 1;
    forall i | 0 <= i < |r.frames| ensures FrameOk(r, r.frames[i]) {
      assert FrameOk(s, s.frames[i]);
    }
    forall t | 0 <= t < |r.tasks| && r.tasks[t].status == Running
      ensures Coro(t) in r.frames || Closing(t) in r.frames
    {
      var f :| f in {Coro(t), Closing(t)} && f in s.frames;
      var i :| 0 <= i < |s.frames| && s.frames[i] == f;
      assert r.frames[i] == f;
    }
  }

  // Once the frame of `_set_outcome` is gone, both completion Triggers are still to be fired.
  lemma LeaveFinishing(s: State)
    requires Inv(s) && Enabled(s, Finish)
    ensures var t := TopTask(s); InvBut(PopFrame(s), {s.tasks[t].complete, s.tasks[t].join})
  {
    TopOfInv(s);
    var t := TopTask(s);
    var c, j := s.tasks[t].complete, s.tasks[t].join;
    var r := PopFrame(s);
    ChangeUnseen(s, {}, r);
    LeaveDone(s, r);
    LinkedUnseen(s, r);
    FinishingOthers(s, r);
    forall g | 0 <= g < |r.triggers| && g !in {c, j} && r.triggers[g].callbacks != [] ensures Unfired(r, g) {
      assert Unfired(s, g);
    }
  }

  lemma FinishKeepsInv(s: State)
    requires Inv(s) && Enabled(s, Finish)
    requires s.tasks[TopTask(s)].complete < |s.triggers| && s.tasks[TopTask(s)].join < |s.triggers| && HandleTasks(s)
    ensures Inv(FireCompletion(s))
  {
    LeaveFinishing(s);
    var t := TopTask(s);
    var c, j := s.tasks[t].complete, s.tasks[t].join;
    assert LinkOk(s, t) && StaleOk(s.triggers[c]) && StaleOk(s.triggers[j]);
    FireBoth(PopFrame(s), c, j);
  }

  lemma FireBoth(s: State, c: nat, j: nat)
    requires InvBut(s, {c, j}) && c < |s.triggers| && j < |s.triggers| && c != j
    requires s.triggers[c].kind != Gpi(true) && s.triggers[j].kind != Gpi(true)
    requires StaleOk(s.triggers[c]) && StaleOk(s.triggers[j])
    ensures HandlesOk(s, s.triggers[c].callbacks) && j < |React(s, c).triggers|
    ensures HandlesOk(React(s, c), React(s, c).triggers[j].callbacks) && Inv(React(React(s, c), j))
  {
    ReactKeepsInv(s, {c, j}, c);
    ReactEffect(s, {c, j}, c);
    var s1 := React(s, c);
    assert {c, j} - {c} == {j};
    ReactKeepsInv(s1, {j}, j);
    assert {j} - {j} == {};
  }

  lemma FinishingOthers(s: State, r: State)
    requires |s.frames| > 0 && r.frames == s.frames[..|s.frames| - 1]
    ensures forall t :: FinishingIn(s, t) && t != TopTask(s) ==> FinishingIn(r, t)
  {
    forall t | FinishingIn(s, t) && t != TopTask(s) ensures FinishingIn(r, t) {
      var i :| 0 <= i < |s.frames| && s.frames[i].Finishing? && s.frames[i].task == t;
      assert r.frames[i] == s.frames[i];
    }
  }

  // A done-callback that raises.
  lemma BreakOffKeepsInv(s: State)
    requires Inv(s) && Enabled(s, CallbackRaises)
    ensures Inv(BreakOff(s))
  {
    TopOfInv(s);
    var t := TopTask(s);
    if s.frames[|s.frames| - 1].Adding? {
      LeaveAddingKeepsInv(s);
    } else {
      var r := BreakOff(s);
      ChangeUnseen(s, {}, r);
      LeaveDone(s, r);
      LinkedUnseen(s, r);
      FinishingOthers(s, r);
      AccountedSet(s, r, t);
      MissedUnseen(s, r, {}, {});
    }
  }

  lemma AddedKeepsInv(s: State)
    requires Inv(s) && Enabled(s, Added) && TopTask(s) < |s.tasks|
    ensures Inv(AppendCallback(s))
  {
    TopOfInv(s);
    var t := TopTask(s);
    var s1 := SetTask(s, t, AppendCallback(s).tasks[t]);
    AppendedKeepsInv(s, t, s1.tasks[t].doneCallbacks);
    LeaveAddingKeepsInv(s1);
    assert PopFrame(s1) == AppendCallback(s);
  }

  lemma AppendedKeepsInv(s: State, t: nat, cbs: seq<Callback>)
    requires Inv(s) && t < |s.tasks| && |cbs| >= |s.tasks[t].doneCallbacks|
    ensures Inv(SetTask(s, t, s.tasks[t].(doneCallbacks := cbs)))
  {
    var r := SetTask(s, t, s.tasks[t].(doneCallbacks := cbs));
    ChangeUnseen(s, {}, r);
    StackedUnseen(s, r);
    LinkedUnseen(s, r);
    assert TaskAccounted(s.tasks[t]);
    AccountedSet(s, r, t);
    MissedUnseen(s, r, {}, {});
  }

  lemma LeaveAddingKeepsInv(s: State)
    requires Inv(s) && |s.frames| > 0 && s.frames[|s.frames| - 1].Adding?
    ensures Inv(PopFrame(s))
  {
    var r := PopFrame(s);
    ChangeUnseen(s, {}, r);
    LeaveDone(s, r);
    LinkedUnseen(s, r);
    FinishingKept(s, r);
    MissedUnseen(s, r, {}, {});
  }

  lemma StepKeepsInv(s: State, p: Step)
    requires Inv(s) && Enabled(s, p)
    ensures Sane(s) && Inv(Next(s, p))
  {
    if IsCall(p) {
      CallKeepsInv(s, p);
    } else {
      ProceedKeepsInv(s, p);
    }
  }

  // The steps that are calls of the API.
  predicate IsCall(p: Step) {
    p.NewTask? || p.NewTrigger? || p.StartSoon? || p.StartNext? || p.DoCancel? || p.DoCancelNow? || p.DoUncancel? ||
    p.AddDoneCallback? || p.SetEvent? || p.ClearEvent? || p.FireGpi?
  }

  lemma CallKeepsInv(s: State, p: Step)
    requires Inv(s) && Enabled(s, p) && IsCall(p)
    ensures Sane(s) && Inv(Next(s, p))
  {
    InvIsSane(s, {});
    match p
    case NewTask => CreateTaskKeepsInv(s);
    case NewTrigger(k) => NewTriggerKeepsInv(s, k);
    case StartSoon(t) => StartKeepsInv(s, t, false);
    case StartNext(t) => StartKeepsInv(s, t, true);
    case DoCancel(t) => CancelKeepsInv(s, t);
    case DoCancelNow(t) => CancelNowKeepsInv(s, t);
    case DoUncancel(t) => UncancelKeepsInv(s, t);
    case AddDoneCallback(t) => AddCallbackKeepsInv(s, t);
    case SetEvent(g) => FireKeepsInv(s, g, Event(true));
    case ClearEvent(g) => ClearEventKeepsInv(s, g);
    case FireGpi(g) => FireKeepsInv(s, g, Gpi(false));
  }

  lemma ProceedKeepsInv(s: State, p: Step)
    requires Inv(s) && Enabled(s, p) && !IsCall(p)
    ensures Sane(s) && Inv(Next(s, p))
  {
    InvIsSane(s, {});
    match p
    case Pop => PopKeepsInv(s);
    case Return(v) => EndKeepsInv(s, p);
    case Raise(e) => EndKeepsInv(s, p);
    case Yield(g) => YieldKeepsInv(s, g);
    case YieldFails(g, e) => YieldFailsKeepsInv(s, g, e);
    case YieldOther =>
      TopOfInv(s);
      YieldOtherKeepsInv(s);
    case Closed => EndKeepsInv(s, p);
    case RunDoneCallback => RunDoneCallbackKeepsInv(s);
    case Finish => FinishKeepsInv(s);
    case CallbackRaises => BreakOffKeepsInv(s);
    case Added =>
      TopOfInv(s);
      AddedKeepsInv(s);
  }

  lemma EndKeepsInv(s: State, p: Step)
    requires Inv(s) && Enabled(s, p) && (p.Return? || p.Raise? || p.Closed?)
    ensures Sane(s) && Inv(Next(s, p))
  {
    InvIsSane(s, {});
    TopOfInv(s);
    var r := Next(s, p);
    var task := r.tasks[TopTask(s)];
    SetOutcomeKeepsInv(s, task.outcome.value, task.status);
  }
}
