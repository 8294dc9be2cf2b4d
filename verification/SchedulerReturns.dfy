/** What is true of a Task when `_cancel_now` returns, and runs in which less is true than one may expect. */
module SchedulerReturns {
  import opened Wrappers
  import opened Sequences
  import opened Scheduler
  import opened SchedulerInvariant
  import opened SchedulerSteps
  import opened SchedulerRuns
  import opened SchedulerCallbacks

  // ----- The stack from step to step -----

  // At most the top frame goes or changes, and at most one comes.
  ghost predicate Shifts(s: State, r: State) {
    || (exists f :: r.frames == s.frames + [f])
    || r.frames == s.frames
    || (|s.frames| > 0 && r.frames == s.frames[..|s.frames| - 1])
    || (|s.frames| > 0 && exists f: Frame ::
          r.frames == s.frames[..|s.frames| - 1] + [f] && f.task == TopTask(s) && !f.Adding?)
  }

  lemma RestackedShifts(s: State, r: State, drop: nat, push: seq<Frame>)
    requires Restacked(s, r, drop, push) && drop <= 1 && |push| <= 1
    requires drop == 1 && push != [] ==> push[0].task == TopTask(s) && !push[0].Adding?
    ensures Shifts(s, r)
  {
    if push == [] {
      assert r.frames == s.frames[..|s.frames| - drop];
    } else {
      assert push == [push[0]];
      if drop == 0 { assert r.frames == s.frames + [push[0]]; }
    }
  }

  lemma CallShifts(s: State, p: Step)
    requires Inv(s) && Enabled(s, p) && IsCall(p)
    ensures Sane(s) && Shifts(s, Next(s, p))
  {
    InvIsSane(s, {});
    if p.SetEvent? || p.FireGpi? {
      FireStack(s, p);
      RestackedShifts(s, Next(s, p), 0, []);
    } else if p.DoCancel? || p.DoCancelNow? {
      var push := CancelStack(s, p);
      RestackedShifts(s, Next(s, p), 0, push);
    } else if p.AddDoneCallback? {
      AddShifts(s, p.task);
    } else {
      SimpleStack(s, p);
      RestackedShifts(s, Next(s, p), 0, []);
    }
  }

  lemma AddShifts(s: State, t: nat)
    requires t < |s.tasks|
    ensures Shifts(s, AddCallback(s, t))
  {
    if s.tasks[t].status.Done() {
      assert AddCallback(s, t).frames == s.frames + [Adding(t, FinishingIn(s, t))];
    }
  }

  lemma ProceedShifts(s: State, p: Step)
    requires Inv(s) && Enabled(s, p) && !IsCall(p)
    ensures Sane(s) && Shifts(s, Next(s, p))
  {
    InvIsSane(s, {});
    match p
    case Pop =>
      var push := PopStack(s);
      RestackedShifts(s, Next(s, p), 0, push);
    case Yield(g) =>
      var push := YieldStack(s, g);
      RestackedShifts(s, Next(s, p), 1, push);
    case Finish => FinishFrames(s);
    case _ =>
      TopOfInv(s);
      OwnShifts(s, p);
  }

  lemma OwnShifts(s: State, p: Step)
    requires Sane(s) && Enabled(s, p) && |s.frames| > 0 && TopTask(s) < |s.tasks|
    requires !IsCall(p) && !p.Pop? && !p.Yield? && !p.Finish?
    ensures Shifts(s, Next(s, p))
  {
    var t, n := TopTask(s), |s.frames| - 1;
    if p.YieldOther? || p.YieldFails? {
      var push := YieldOtherStack(s, p);
      RestackedShifts(s, Next(s, p), 1, push);
    } else if Ends(p) {
      assert Next(s, p).frames == s.frames[..n] + [Finishing(t, 0)];
    } else if p.RunDoneCallback? {
      assert Next(s, p).frames == s.frames[..n] + [Finishing(t, s.frames[n].started + 1)];
    } else {
      assert Next(s, p).frames == s.frames[..n];
    }
  }

  lemma StepShifts(s: State, p: Step)
    requires Inv(s) && Enabled(s, p)
    ensures Sane(s) && Shifts(s, Next(s, p))
  {
    if IsCall(p) { CallShifts(s, p); } else { ProceedShifts(s, p); }
  }

  // The n-th frame is an activation of `t`, on top of `base`.
  ghost predicate Activation(s: State, base: seq<Frame>, t: nat) {
    var n := |base|;
    |s.frames| > n && s.frames[..n] == base && s.frames[n].task == t && !s.frames[n].Adding?
  }

  lemma ActivationGoesOn(s: State, r: State, base: seq<Frame>, t: nat)
    requires Activation(s, base, t) && Shifts(s, r) && |r.frames| > |base|
    ensures Activation(r, base, t)
  {
    var n := |base|;
    assert forall i :: 0 <= i < n ==> s.frames[..n][i] == s.frames[i];
    assert r.frames[..n] == base;
  }

  ghost predicate AlwaysAbove(s: State, ps: seq<Step>, n: nat)
    requires Legal(s, ps)
    decreases |ps|
  {
    |s.frames| > n && (ps == [] || AlwaysAbove(Next(s, ps[0]), ps[1..], n))
  }

  lemma {:induction false} RunKeepsActivation(s: State, ps: seq<Step>, base: seq<Frame>, t: nat)
    requires Inv(s) && Legal(s, ps) && Activation(s, base, t) && AlwaysAbove(s, ps, |base|)
    ensures Activation(Exec(s, ps), base, t)
    decreases |ps|
  {
    if ps != [] {
      StepKeepsInv(s, ps[0]);
      StepShifts(s, ps[0]);
      ActivationGoesOn(s, Next(s, ps[0]), base, t);
      RunKeepsActivation(Next(s, ps[0]), ps[1..], base, t);
    }
  }

  // ----- When `_cancel_now` returns -----

  predicate Suspends(p: Step) {
    p.Yield? || p.YieldFails? || p.YieldOther?
  }

  // The step with which an activation of `t` leaves the stack: the Task is then done, unless its coroutine
  // has waited with no unanswered cancellation.
  lemma LeavingTheStack(s: State, p: Step, base: seq<Frame>, t: nat)
    requires Inv(s) && Enabled(s, p) && Activation(s, base, t) && Sane(s) && |Next(s, p).frames| <= |base|
    ensures t < |s.tasks| && t < |Next(s, p).tasks| && Next(s, p).frames == base
    ensures Next(s, p).tasks[t].status.Done() <==> !(Suspends(p) && s.tasks[t].mustCancel == 0)
    ensures !Next(s, p).tasks[t].status.Done() ==> Next(s, p).tasks[t].status in {Pending, Scheduled}
  {
    StepShifts(s, p);
    TopOfInv(s);
    var n := |base|;
    assert |s.frames| == n + 1 && s.frames[..n] == base;
    StepMoves(s, p, t);
    if Suspends(p) { LeavingByWaiting(s, p, t); } else { LeavingOtherwise(s, p); }
  }

  lemma LeavingByWaiting(s: State, p: Step, t: nat)
    requires Inv(s) && Sane(s) && Enabled(s, p) && Suspends(p) && t == TopTask(s) && t < |s.tasks|
    requires |Next(s, p).frames| < |s.frames|
    ensures s.tasks[t].mustCancel == 0
    ensures t < |Next(s, p).tasks| && Next(s, p).tasks[t].status in {Pending, Scheduled}
  {
    if p.Yield? && s.tasks[t].mustCancel == 0 && s.triggers[p.trigger].Unused() {
      WaitMoves(s, p.trigger, t);
    }
  }

  lemma LeavingOtherwise(s: State, p: Step)
    requires Inv(s) && Sane(s) && Enabled(s, p) && !Suspends(p) && |s.frames| > 0
    requires !s.frames[|s.frames| - 1].Adding? && |Next(s, p).frames| < |s.frames|
    ensures p.Finish? || p.CallbackRaises?
    ensures TopTask(s) < |s.tasks| && s.tasks[TopTask(s)].status.Done()
  {
    TopOfInv(s);
    if IsCall(p) { CallsPush(s, p); }
  }

  lemma CallsPush(s: State, p: Step)
    requires Inv(s) && Enabled(s, p) && IsCall(p)
    ensures Sane(s) && |Next(s, p).frames| >= |s.frames|
  {
    InvIsSane(s, {});
    if p.SetEvent? || p.FireGpi? {
      FireStack(s, p);
    } else if p.DoCancel? || p.DoCancelNow? {
      var push := CancelStack(s, p);
    }
  }

  // `_cancel_now` has been called in `s`, the run `ps` has been inside it since, and it returns with step
  // `p`.  The Task is then done, unless its coroutine waits with no unanswered cancellation, which
  // takes an `_uncancel`; without one it is CANCELLED or ERRORED.
  lemma CancelNowReturns(s: State, t: nat, ps: seq<Step>, p: Step)
    requires Inv(s) && t < |s.tasks| && !s.tasks[t].status.Done() && s.tasks[t].status != Running
    requires Sane(s) && Legal(Next(s, DoCancelNow(t)), ps)
    requires AlwaysAbove(Next(s, DoCancelNow(t)), ps, |s.frames|)
    requires var q := Exec(Next(s, DoCancelNow(t)), ps);
      Sane(q) && Enabled(q, p) && |Next(q, p).frames| <= |s.frames|
    ensures var q := Exec(Next(s, DoCancelNow(t)), ps); var r := Next(q, p);
      && t < |q.tasks| && t < |r.tasks| && r.frames == s.frames
      && (r.tasks[t].status.Done() <==> !(Suspends(p) && q.tasks[t].mustCancel == 0))
      && (DoUncancel(t) !in ps ==> r.tasks[t].status in {Cancelled, Errored})
  {
    CancelNowEnters(s, t);
    var s1 := Next(s, DoCancelNow(t));
    CancelNowActivates(s, t);
    RunKeepsActivation(s1, ps, s.frames, t);
    RunKeepsInv(s1, ps);
    var q := Exec(s1, ps);
    LeavingTheStack(q, p, s.frames, t);
    if DoUncancel(t) !in ps {
      CancellingGoesOn(s1, ps, t, s.tasks[t].resumes);
      StillCancelling(q, p, t, s.tasks[t].resumes);
    }
  }

  lemma StillCancelling(q: State, p: Step, t: nat, r: nat)
    requires Inv(q) && Sane(q) && Enabled(q, p) && t < |q.tasks| && Cancelling(q.tasks[t], r)
    requires t < |Next(q, p).tasks|
    requires Next(q, p).tasks[t].status.Done() || (Suspends(p) && q.tasks[t].mustCancel == 0)
    ensures Next(q, p).tasks[t].status in {Cancelled, Errored}
  {
    StepMoves(q, p, t);
    StepKeepsInv(q, p);
    assert TaskAccounted(Next(q, p).tasks[t]);
    if p == DoUncancel(t) { assert Next(q, p).tasks[t].status == q.tasks[t].status; }
  }

  lemma CancelNowActivates(s: State, t: nat)
    requires Inv(s) && Sane(s) && t < |s.tasks| && !s.tasks[t].status.Done() && s.tasks[t].status != Running
    ensures Activation(Next(s, DoCancelNow(t)), s.frames, t)
  {
    if s.tasks[t].status == Pending { TakePending(s, t); }
    CancelNowFrames(s, t);
    var r := Next(s, DoCancelNow(t));
    assert r.frames[..|s.frames|] == s.frames;
  }

  lemma CancelNowFrames(s: State, t: nat)
    requires Sane(s) && t < |s.tasks| && !s.tasks[t].status.Done() && s.tasks[t].status != Running
    requires s.tasks[t].status == Pending ==> Deregister(s, t).Ok?
    ensures OrElse(CancelNow(s, t), s).frames == s.frames + [Coro(t)]
  {
  }

  // However the run inside it went, once the stack is what it was and nothing has uncancelled the Task, it
  // is CANCELLED or ERRORED.
  lemma CancelNowEndsTheTask(s: State, t: nat, ps: seq<Step>)
    requires Inv(s) && t < |s.tasks| && !s.tasks[t].status.Done() && s.tasks[t].status != Running
    requires Sane(s) && Legal(Next(s, DoCancelNow(t)), ps) && DoUncancel(t) !in ps
    requires Exec(Next(s, DoCancelNow(t)), ps).frames == s.frames
    ensures t < |Exec(Next(s, DoCancelNow(t)), ps).tasks|
    ensures Exec(Next(s, DoCancelNow(t)), ps).tasks[t].status in {Cancelled, Errored}
  {
    CancelNowGivesOneMoreResume(s, t, ps);
    CancelNowEnters(s, t);
    var s1 := Next(s, DoCancelNow(t));
    RunKeepsInv(s1, ps);
    ActivationOfTask(s, t);
    ActivationOfTask(Exec(s1, ps), t);
  }

  // ----- Runs -----

  // One Task, which has been resumed if `resumes` is not 0, and a Trigger of kind `k`.
  function Single(k: Kind, status: Status, resumes: nat, next: nat): State {
    State([Task(status, None, 0, None, 0, 0, 0, 0, 1, [], resumes, None)],
          [Trigger(Complete(0), [], []), Trigger(Complete(0), [], []), Trigger(k, [], [])],
          if status.Scheduled? then [Entry(0, 0, false)] else [],
          if status.Running? then [Coro(0)] else [], next)
  }

  lemma ATaskIsMade(k: Kind)
    requires k == Event(false) || k == Gpi(false)
    ensures Legal(Initial, [NewTask, NewTrigger(k)])
    ensures Exec(Initial, [NewTask, NewTrigger(k)]) == Single(k, Unstarted, 0, 0)
  {
    var s1 := Next(Initial, NewTask);
    assert s1.tasks == Single(k, Unstarted, 0, 0).tasks;
    assert Next(s1, NewTrigger(k)).triggers == Single(k, Unstarted, 0, 0).triggers;
    Cons(s1, NewTrigger(k), []);
    Cons(Initial, NewTask, [NewTrigger(k)]);
  }

  lemma ItIsResumed(k: Kind)
    requires k == Event(false) || k == Gpi(false)
    ensures var s := Single(k, Unstarted, 0, 0);
      && Legal(s, [StartSoon(0), Pop])
      && Exec(s, [StartSoon(0), Pop]) == Single(k, Running, 1, 1)
  {
    ItIsScheduled(k);
    ItIsPopped(k);
    Cons(Single(k, Scheduled, 0, 1), Pop, []);
    Cons(Single(k, Unstarted, 0, 0), StartSoon(0), [Pop]);
  }

  lemma ItIsScheduled(k: Kind)
    requires k == Event(false) || k == Gpi(false)
    ensures var s := Single(k, Unstarted, 0, 0); Sane(s) && Next(s, StartSoon(0)) == Single(k, Scheduled, 0, 1)
  {
    var s, r := Single(k, Unstarted, 0, 0), Single(k, Scheduled, 0, 1);
    assert Start(s, 0, false).tasks == r.tasks && Start(s, 0, false).loop == r.loop;
  }

  lemma ItIsPopped(k: Kind)
    requires k == Event(false) || k == Gpi(false)
    ensures var s := Single(k, Scheduled, 0, 1); Sane(s) && Next(s, Pop) == Single(k, Running, 1, 1)
  {
    var s, r := Single(k, Scheduled, 0, 1), Single(k, Running, 1, 1);
    assert PopEntry(s).tasks == r.tasks && PopEntry(s).frames == r.frames && PopEntry(s).loop == r.loop;
  }

  lemma ATaskBegins(k: Kind)
    requires k == Event(false) || k == Gpi(false)
    ensures Legal(Initial, [NewTask, NewTrigger(k), StartSoon(0), Pop])
    ensures Exec(Initial, [NewTask, NewTrigger(k), StartSoon(0), Pop]) == Single(k, Running, 1, 1)
  {
    ATaskIsMade(k);
    ItIsResumed(k);
    Concat(Initial, [NewTask, NewTrigger(k)], [StartSoon(0), Pop]);
    assert [NewTask, NewTrigger(k)] + [StartSoon(0), Pop] == [NewTask, NewTrigger(k), StartSoon(0), Pop];
  }

  lemma Cons(s: State, p: Step, ps: seq<Step>)
    requires Sane(s) && Enabled(s, p) && Legal(Next(s, p), ps)
    ensures Legal(s, [p] + ps) && Exec(s, [p] + ps) == Exec(Next(s, p), ps)
  {
    assert ([p] + ps)[1..] == ps;
  }

  lemma HeadOfConcat(ps: seq<Step>, qs: seq<Step>)
    requires ps != []
    ensures (ps + qs)[0] == ps[0] && (ps + qs)[1..] == ps[1..] + qs
  {
  }

  lemma {:induction false} Concat(s: State, ps: seq<Step>, qs: seq<Step>)
    requires Legal(s, ps) && Legal(Exec(s, ps), qs)
    ensures Legal(s, ps + qs) && Exec(s, ps + qs) == Exec(Exec(s, ps), qs)
    decreases |ps|
  {
    if ps == [] {
      assert ps + qs == qs;
    } else {
      Concat(Next(s, ps[0]), ps[1..], qs);
      HeadOfConcat(ps, qs);
    }
  }

  // A Trigger that cannot be primed.
  lemma ATriggerIsStranded(e: Exn)
    requires !e.CancelledError? && !e.ExitError?
    ensures var ps := [NewTask, NewTrigger(Gpi(false)), StartSoon(0), Pop, YieldFails(2, e)];
      && Legal(Initial, ps)
      && var s := Exec(Initial, ps);
      && Stranded(s, 2) && |s.tasks| == 1 && s.tasks[0].status == Scheduled && s.tasks[0].exc == Some(e)
  {
    var starting := [NewTask, NewTrigger(Gpi(false)), StartSoon(0), Pop];
    var s := Single(Gpi(false), Running, 1, 1);
    ATaskBegins(Gpi(false));
    ItCannotWait(e);
    Concat(Initial, starting, [YieldFails(2, e)]);
    assert starting + [YieldFails(2, e)] == [NewTask, NewTrigger(Gpi(false)), StartSoon(0), Pop, YieldFails(2, e)];
  }

  lemma ItCannotWait(e: Exn)
    requires !e.CancelledError? && !e.ExitError?
    ensures var s := Single(Gpi(false), Running, 1, 1);
      && Legal(s, [YieldFails(2, e)])
      && var r := Exec(s, [YieldFails(2, e)]);
      && Stranded(r, 2) && |r.tasks| == 1 && r.tasks[0].status == Scheduled && r.tasks[0].exc == Some(e)
  {
    Cons(Single(Gpi(false), Running, 1, 1), YieldFails(2, e), []);
  }

  // The Task waits for the Trigger, with handle `h`.
  function Waiting(h: nat, resumes: nat): State {
    State([Task(Pending, if resumes == 1 then None else Some(CancelledError), 0, None, 0, 2, h, 0, 1, [], resumes,
                None)],
          [Trigger(Complete(0), [], []), Trigger(Complete(0), [], []), Trigger(Event(false), [Handle(h, 0)], [])],
          [], [], h + 1)
  }

  lemma ItWaits()
    ensures var s := Single(Event(false), Running, 1, 1);
      Legal(s, [Yield(2)]) && Exec(s, [Yield(2)]) == Waiting(1, 1)
  {
    var s := Single(Event(false), Running, 1, 1);
    var r := Next(s, Yield(2));
    assert r.frames == [] && r.tasks == Waiting(1, 1).tasks && r.triggers[2] == Waiting(1, 1).triggers[2];
    assert r.triggers == Waiting(1, 1).triggers;
    Cons(s, Yield(2), []);
  }

  // Inside `_cancel_now`, with so many unanswered cancellations.
  function Thrown(mustCancel: nat): State {
    State([Task(Running, Some(CancelledError), mustCancel, None, 0, 2, 1, 0, 1, [], 2, None)],
          [Trigger(Complete(0), [], []), Trigger(Complete(0), [], []), Trigger(Event(false), [], [])],
          [], [Coro(0)], 2)
  }

  lemma ItIsCancelled()
    ensures var s := Waiting(1, 1);
      && Legal(s, [DoCancelNow(0), DoUncancel(0)])
      && Exec(s, [DoCancelNow(0), DoUncancel(0)]) == Thrown(0)
  {
    ItIsThrownAt();
    assert Uncancel(Thrown(1), 0).tasks == Thrown(0).tasks;
    Cons(Thrown(1), DoUncancel(0), []);
    Cons(Waiting(1, 1), DoCancelNow(0), [DoUncancel(0)]);
  }

  lemma ItIsThrownAt()
    ensures Sane(Waiting(1, 1)) && Next(Waiting(1, 1), DoCancelNow(0)) == Thrown(1)
  {
    var s := Waiting(1, 1);
    assert Without([Handle(1, 0)], Handle(1, 0)) == [];
    assert Deregister(s, 0).value.triggers[2] == Thrown(1).triggers[2];
    assert Deregister(s, 0).value.triggers == Thrown(1).triggers;
    var r := CancelNow(s, 0).value.0;
    assert r.tasks == Thrown(1).tasks && r.frames == [Coro(0)];
  }

  lemma ItWaitsAgain()
    ensures Legal(Thrown(0), [Yield(2)]) && Exec(Thrown(0), [Yield(2)]) == Waiting(2, 2)
  {
    var r := Next(Thrown(0), Yield(2));
    assert r.frames == [] && r.tasks == Waiting(2, 2).tasks && r.triggers[2] == Waiting(2, 2).triggers[2];
    assert r.triggers == Waiting(2, 2).triggers;
    Cons(Thrown(0), Yield(2), []);
  }

  // A Task that is not done when `_cancel_now` returns.
  lemma ATaskSurvives()
    ensures var ps := [NewTask, NewTrigger(Event(false)), StartSoon(0), Pop, Yield(2)];
      Legal(Initial, ps) && Exec(Initial, ps) == Waiting(1, 1)
    ensures var ps := [DoCancelNow(0), DoUncancel(0), Yield(2)];
      Legal(Waiting(1, 1), ps) && Exec(Waiting(1, 1), ps) == Waiting(2, 2)
    ensures forall n: nat :: Waiting(n, n).frames == [] && Waiting(n, n).tasks[0].status == Pending
  {
    var starting := [NewTask, NewTrigger(Event(false)), StartSoon(0), Pop];
    ATaskBegins(Event(false));
    ItWaits();
    Concat(Initial, starting, [Yield(2)]);
    assert starting + [Yield(2)] == [NewTask, NewTrigger(Event(false)), StartSoon(0), Pop, Yield(2)];
    ItIsCancelled();
    ItWaitsAgain();
    Concat(Waiting(1, 1), [DoCancelNow(0), DoUncancel(0)], [Yield(2)]);
    assert [DoCancelNow(0), DoUncancel(0)] + [Yield(2)] == [DoCancelNow(0), DoUncancel(0), Yield(2)];
  }

  // ----- A lost completion -----

  // Task 1 waits for Task 0, which returns, and whose done-callback then raises.
  const LosingSteps: seq<Step> :=
    [NewTask, NewTask, AddDoneCallback(0), StartSoon(1), Pop, Yield(0), StartSoon(0), Pop, Return(7), RunDoneCallback,
     CallbackRaises]

  function First(i: nat): Task {
    Task(if i <= 6 then Unstarted else if i == 7 then Scheduled else if i == 8 then Running else Finished,
         None, 0, if i <= 8 then None else Some(Value(7)), if i <= 6 then 0 else 2, 0, 0, 0, 1,
         if i <= 2 then [] else if i <= 9 then [Callback(0, false)] else [Callback(1, false)],
         if i <= 7 then 0 else 1, if i <= 10 then None else Some(1))
  }

  function Second(i: nat): Task {
    Task(if i <= 3 then Unstarted else if i == 4 then Scheduled else if i == 5 then Running else Pending,
         None, 0, None, 0, 0, if i <= 5 then 0 else 1, 2, 3, [], if i <= 4 then 0 else 1, None)
  }

  // The state before the i-th of these steps.
  function Losing(i: nat): State
    requires i <= 11
  {
    if i == 0 then Initial
    else
      var fst := Trigger(Complete(0), if i <= 5 then [] else [Handle(1, 1)], []);
      var own := [fst, Trigger(Complete(0), [], [])];
      State(if i == 1 then [First(1)] else [First(i), Second(i)],
            if i == 1 then own else own + [Trigger(Complete(1), [], []), Trigger(Complete(1), [], [])],
            if i == 4 then [Entry(0, 1, false)] else if i == 7 then [Entry(2, 0, false)] else [],
            if i == 5 then [Coro(1)] else if i == 8 then [Coro(0)] else if i == 9 then [Finishing(0, 0)]
            else if i == 10 then [Finishing(0, 1)] else [],
            if i <= 3 then 0 else if i <= 5 then 1 else if i == 6 then 2 else 3)
  }

  lemma LosingIsSane(i: nat)
    requires i <= 11
    ensures Sane(Losing(i))
  {
  }

  lemma LosingMakes(i: nat)
    requires i <= 1
    ensures CreateTask(Losing(i)) == Losing(i + 1)
  {
    var r := CreateTask(Losing(i));
    assert r.tasks == Losing(i + 1).tasks && r.triggers == Losing(i + 1).triggers;
  }

  lemma LosingAdds()
    ensures AddCallback(Losing(2), 0) == Losing(3)
  {
    var r := AddCallback(Losing(2), 0);
    assert r.tasks[0].doneCallbacks == [Callback(0, false)];
    assert r.tasks == Losing(3).tasks;
  }

  lemma LosingStarts(i: nat)
    requires i in {3, 6}
    ensures Start(Losing(i), if i == 3 then 1 else 0, false) == Losing(i + 1)
  {
    var s, t := Losing(i), if i == 3 then 1 else 0;
    var r := Schedule(s, t, None, false);
    assert r.tasks[0] == First(i + 1) && r.tasks[1] == Second(i + 1);
    assert r.tasks == [First(i + 1), Second(i + 1)];
    assert r.loop == [Entry(s.next, t, false)];
  }

  lemma LosingPops(i: nat)
    requires i in {4, 7}
    ensures PopEntry(Losing(i)) == Losing(i + 1)
  {
    var r := PopEntry(Losing(i));
    assert r.tasks[0] == First(i + 1) && r.tasks[1] == Second(i + 1);
    assert r.tasks == Losing(i + 1).tasks && r.loop == [] && r.frames == Losing(i + 1).frames;
  }

  lemma LosingWaits()
    ensures HandlesOk(Losing(5), Losing(5).triggers[0].callbacks) && EndYield(Losing(5), Some(0)) == Losing(6)
  {
    var s := PopFrame(Losing(5));
    assert s.frames == [];
    LosingRegisters(s);
    assert EndYield(Losing(5), Some(0)) == Wait(s, 1, 0);
  }

  lemma LosingRegisters(s: State)
    requires s == Losing(5).(frames := [])
    ensures HandlesOk(s, s.triggers[0].callbacks) && Wait(s, 1, 0) == Losing(6)
  {
    var r := AddHandle(s, 1, 0);
    assert r.triggers[0].callbacks == [Handle(1, 1)];
    assert r.tasks[0] == First(6) && r.tasks[1] == Second(6);
    assert r.tasks == Losing(6).tasks && r.triggers == Losing(6).triggers;
  }

  lemma LosingEnds()
    ensures EndReturn(Losing(8), 7) == Losing(9)
  {
    var r := EndReturn(Losing(8), 7);
    assert r.tasks == Losing(9).tasks && r.frames == Losing(9).frames;
  }

  lemma LosingCalls()
    ensures StartDoneCallback(Losing(9)) == Losing(10)
  {
    var r := StartDoneCallback(Losing(9));
    assert r.tasks[0].doneCallbacks == [Callback(1, false)];
    assert r.tasks == Losing(10).tasks && r.frames == Losing(10).frames;
  }

  lemma LosingRaises()
    ensures BreakOff(Losing(10)) == Losing(11)
  {
    var r := BreakOff(Losing(10));
    assert r.tasks == Losing(11).tasks && r.frames == Losing(11).frames;
  }

  lemma LosingStep(i: nat)
    requires i < 11
    ensures Sane(Losing(i)) && Enabled(Losing(i), LosingSteps[i]) && Next(Losing(i), LosingSteps[i]) == Losing(i + 1)
  {
    LosingIsSane(i);
    if i <= 1 {
      LosingBegins(i);
    } else if i <= 3 {
      LosingPrepares(i);
    } else if i <= 7 {
      LosingGoesOn(i);
    } else {
      LosingFails(i);
    }
  }

  lemma LosingBegins(i: nat)
    requires i <= 1 && Sane(Losing(i))
    ensures Enabled(Losing(i), LosingSteps[i]) && Next(Losing(i), LosingSteps[i]) == Losing(i + 1)
  {
    LosingMakes(i);
  }

  lemma LosingPrepares(i: nat)
    requires 2 <= i <= 3 && Sane(Losing(i))
    ensures Enabled(Losing(i), LosingSteps[i]) && Next(Losing(i), LosingSteps[i]) == Losing(i + 1)
  {
    if i == 2 { LosingAdds(); } else { LosingStarts(i); }
  }

  lemma LosingGoesOn(i: nat)
    requires 4 <= i <= 7 && Sane(Losing(i))
    ensures Enabled(Losing(i), LosingSteps[i]) && Next(Losing(i), LosingSteps[i]) == Losing(i + 1)
  {
    if i == 5 { LosingWaits(); } else if i == 6 { LosingStarts(i); } else { LosingPops(i); }
  }

  lemma LosingFails(i: nat)
    requires 8 <= i <= 10 && Sane(Losing(i))
    ensures Enabled(Losing(i), LosingSteps[i]) && Next(Losing(i), LosingSteps[i]) == Losing(i + 1)
  {
    if i == 8 { LosingEnds(); } else if i == 9 { LosingCalls(); } else { LosingRaises(); }
  }

  lemma {:induction false} LosingRun(i: nat)
    requires i <= 11
    ensures Legal(Losing(i), LosingSteps[i..]) && Exec(Losing(i), LosingSteps[i..]) == Losing(11)
    decreases 11 - i
  {
    if i < 11 {
      LosingStep(i);
      LosingRun(i + 1);
      assert LosingSteps[i..][0] == LosingSteps[i] && LosingSteps[i..][1..] == LosingSteps[i + 1..];
    }
  }

  lemma ACompletionIsLost()
    ensures Legal(Initial, LosingSteps)
    ensures var s := Exec(Initial, LosingSteps);
      && |s.tasks| == 2 && s.frames == [] && s.loop == []
      && s.tasks[0].status == Finished && s.tasks[0].broken == Some(1)
      && s.tasks[1].status == Pending && s.tasks[1].trigger == s.tasks[0].complete
  {
    LosingRun(0);
    assert LosingSteps[0..] == LosingSteps;
    assert Losing(0) == Initial;
    LosingLeaves(Losing(11));
  }

  lemma LosingLeaves(s: State)
    requires s == Losing(11)
    ensures |s.tasks| == 2 && s.frames == [] && s.loop == []
    ensures s.tasks[0].status == Finished && s.tasks[0].broken == Some(1)
    ensures s.tasks[1].status == Pending && s.tasks[1].trigger == s.tasks[0].complete
  {
  }
}
