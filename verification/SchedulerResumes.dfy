/** What a coroutine is handed when it is resumed, and how its cancellations are counted. */
module SchedulerResumes {
  import opened Wrappers
  import opened Scheduler
  import opened SchedulerInvariant
  import opened SchedulerSteps
  import opened SchedulerRuns

  // ----- What is thrown -----

  // What a Task that is SCHEDULED after step `p` will be resumed with.
  function Awaiting(a: Task, p: Step, t: nat): Option<Exn> {
    if p == DoCancel(t) then Some(CancelledError)
    else if a.status == Scheduled then a.exc
    else match p
      case YieldOther => Some(TypeError)
      case YieldFails(_, e) => Some(e)
      case _ => None
  }

  // A coroutine is entered by the loop, with what its Task was scheduled with, or by `_cancel_now`, with
  // CancelledError.
  ghost predicate Handed(a: Task, b: Task, p: Step, t: nat) {
    && (a.status != Running && b.status == Running ==>
          if p == DoCancelNow(t) then b.exc == Some(CancelledError)
          else p == Pop && a.status == Scheduled && b.exc == a.exc)
    && (b.status == Scheduled ==> b.exc == Awaiting(a, p, t))
  }

  // A cancellation counts once, unless the Task is done or RUNNING, and `_uncancel` takes one back.
  predicate Counts(a: Task, p: Step, t: nat) {
    p in {DoCancel(t), DoCancelNow(t)} && !a.status.Done() && a.status != Running
  }

  ghost predicate Counted(a: Task, b: Task, p: Step, t: nat) {
    b.mustCancel ==
      if Counts(a, p, t) then a.mustCancel + 1
      else if p == DoUncancel(t) && a.mustCancel > 0 then a.mustCancel - 1
      else a.mustCancel
  }

  ghost predicate Resumes(a: Task, b: Task, p: Step, t: nat) {
    Handed(a, b, p, t) && Counted(a, b, p, t)
  }

  lemma CancelResumes(s: State, p: Step, t: nat)
    requires Sane(s) && Enabled(s, p) && (p.DoCancel? || p.DoCancelNow?) && t < |s.tasks|
    requires s.tasks[p.task].status == Pending ==>
      Deregister(s, p.task).Ok? && Deregister(s, p.task).value.tasks == s.tasks
    ensures t < |Next(s, p).tasks| && Resumes(s.tasks[t], Next(s, p).tasks[t], p, t)
  {
    if p.task != t { CancelLeavesOthers(s, p, t); }
  }

  lemma CallResumes(s: State, p: Step, t: nat)
    requires Sane(s) && Enabled(s, p) && t < |s.tasks|
    requires p.NewTask? || p.NewTrigger? || p.StartSoon? || p.StartNext? || p.DoUncancel? || p.ClearEvent? ||
             p.AddDoneCallback? || p.RunDoneCallback? || p.Added? || p.CallbackRaises?
    ensures t < |Next(s, p).tasks| && Resumes(s.tasks[t], Next(s, p).tasks[t], p, t)
  {
  }

  lemma PopResumes(s: State, t: nat)
    requires Sane(s) && Enabled(s, Pop) && t < |s.tasks|
    requires !s.loop[0].cancelled ==> s.tasks[s.loop[0].task].status == Scheduled
    ensures t < |PopEntry(s).tasks| && Resumes(s.tasks[t], PopEntry(s).tasks[t], Pop, t)
  {
  }

  lemma EndResumes(s: State, p: Step, t: nat)
    requires Sane(s) && Enabled(s, p) && t < |s.tasks|
    requires p.Return? || p.Raise? || p.Closed? || p.YieldOther? || p.YieldFails?
    requires FrameOk(s, s.frames[|s.frames| - 1])
    ensures t < |Next(s, p).tasks| && Resumes(s.tasks[t], Next(s, p).tasks[t], p, t)
  {
  }

  lemma ReactResumes(s: State, gs: set<nat>, g: nat, t: nat, p: Step)
    requires InvBut(s, gs) && g < |s.triggers| && t < |s.tasks|
    requires p.SetEvent? || p.FireGpi? || p.Finish?
    ensures HandlesOk(s, s.triggers[g].callbacks) && Resumes(s.tasks[t], React(s, g).tasks[t], p, t)
    ensures s.tasks[t].status != Pending ==> React(s, g).tasks[t] == s.tasks[t]
    ensures React(s, g).tasks[t].status == Pending ==> React(s, g).tasks[t] == s.tasks[t]
  {
    ReactEffect(s, gs, g);
  }

  lemma FireResumes(s: State, p: Step, t: nat)
    requires Inv(s) && Enabled(s, p) && (p.SetEvent? || p.FireGpi?) && t < |s.tasks|
    ensures Sane(s) && t < |Next(s, p).tasks| && Resumes(s.tasks[t], Next(s, p).tasks[t], p, t)
  {
    InvIsSane(s, {});
    var k := if p.SetEvent? then Event(true) else Gpi(false);
    SetKindKeepsInv(s, p.trigger, k);
    ReactResumes(SetKind(s, p.trigger, k), {p.trigger}, p.trigger, t, p);
  }

  lemma FinishResumes(s: State, t: nat)
    requires Inv(s) && Enabled(s, Finish) && t < |s.tasks|
    ensures Sane(s) && t < |Next(s, Finish).tasks| && Resumes(s.tasks[t], Next(s, Finish).tasks[t], Finish, t)
  {
    InvIsSane(s, {});
    LeaveFinishing(s);
    var u := TopTask(s);
    var c, j := s.tasks[u].complete, s.tasks[u].join;
    assert LinkOk(s, u);
    ReactResumes(PopFrame(s), {c, j}, c, t, Finish);
    ReactKeepsInv(PopFrame(s), {c, j}, c);
    ReactEffect(PopFrame(s), {c, j}, c);
    ReactResumes(React(PopFrame(s), c), {c, j} - {c}, j, t, Finish);
  }

  lemma YieldResumes(s: State, g: nat, t: nat)
    requires Inv(s) && Enabled(s, Yield(g)) && t < |s.tasks|
    ensures Sane(s) && t < |Next(s, Yield(g)).tasks| && Resumes(s.tasks[t], Next(s, Yield(g)).tasks[t], Yield(g), t)
  {
    InvIsSane(s, {});
    TopOfInv(s);
    if s.tasks[TopTask(s)].mustCancel == 0 && s.triggers[g].Unused() {
      WaitResumes(s, g, t);
    }
  }

  lemma WaitResumes(s: State, g: nat, t: nat)
    requires Inv(s) && Sane(s) && Enabled(s, Yield(g)) && TopTask(s) < |s.tasks| && t < |s.tasks|
    requires s.tasks[TopTask(s)].mustCancel == 0 && s.triggers[g].Unused() && s.tasks[TopTask(s)].status == Running
    ensures t < |EndYield(s, Some(g)).tasks|
    ensures Resumes(s.tasks[t], EndYield(s, Some(g)).tasks[t], Yield(g), t)
  {
    AddHandleKeepsInv(s, g);
    AddHandleMoves(s, g);
    var s1 := AddHandle(PopFrame(s), TopTask(s), g);
    PrimeMoves(s1, g, t);
    WaitIsPrime(s, g);
    PrimeResumes(s.tasks[t], s1.tasks[t], Prime(s1, g).tasks[t], g, t);
  }

  lemma PrimeResumes(a: Task, a1: Task, b: Task, g: nat, t: nat)
    requires a1 == a || (a.status == Running && a1 == a.(status := Pending, trigger := a1.trigger, handle := a1.handle))
    requires b == a1 || (a1 != a && b == a1.(status := Scheduled, exc := None, entry := b.entry))
    ensures Resumes(a, b, Yield(g), t)
  {
  }

  // What any step hands to any coroutine.  So a Task that `_cancel_now` enters has CancelledError thrown
  // into it, whatever it was doing.
  lemma WhatIsThrown(s: State, p: Step, t: nat)
    requires Inv(s) && Enabled(s, p) && t < |s.tasks|
    ensures Sane(s) && t < |Next(s, p).tasks| && Resumes(s.tasks[t], Next(s, p).tasks[t], p, t)
  {
    if p.SetEvent? || p.FireGpi? {
      FireResumes(s, p, t);
    } else if p.DoCancel? || p.DoCancelNow? {
      InvIsSane(s, {});
      if s.tasks[p.task].status == Pending { DeregisterMoves(s, p.task); }
      CancelResumes(s, p, t);
    } else if p.Finish? {
      FinishResumes(s, t);
    } else if p.Yield? {
      YieldResumes(s, p.trigger, t);
    } else {
      Fronts(s);
      if p.Pop? {
        PopResumes(s, t);
      } else if p.Return? || p.Raise? || p.Closed? || p.YieldOther? || p.YieldFails? {
        EndResumes(s, p, t);
      } else {
        CallResumes(s, p, t);
      }
    }
  }

  // ----- From one resume to the next -----

  // As long as it is not entered, a SCHEDULED Task stays so, and what it will be resumed with changes only to
  // CancelledError, when it is cancelled.
  lemma {:induction false} ScheduledUntilEntered(s: State, ps: seq<Step>, t: nat)
    requires Inv(s) && Legal(s, ps) && t < |s.tasks| && s.tasks[t].status == Scheduled
    ensures t < |Exec(s, ps).tasks| && s.tasks[t].resumes <= Exec(s, ps).tasks[t].resumes
    ensures Exec(s, ps).tasks[t].resumes == s.tasks[t].resumes ==>
      && Exec(s, ps).tasks[t].status == Scheduled
      && Exec(s, ps).tasks[t].exc == if DoCancel(t) in ps then Some(CancelledError) else s.tasks[t].exc
    decreases |ps|
  {
    if ps != [] {
      var s1 := Next(s, ps[0]);
      StepKeepsInv(s, ps[0]);
      StepMoves(s, ps[0], t);
      WhatIsThrown(s, ps[0], t);
      assert DoCancel(t) in ps <==> ps[0] == DoCancel(t) || DoCancel(t) in ps[1..];
      if s1.tasks[t].status == Scheduled {
        ScheduledUntilEntered(s1, ps[1..], t);
      } else {
        ResumesGrow(s1, ps[1..], t);
      }
    }
  }

  lemma {:induction false} ResumesGrow(s: State, ps: seq<Step>, t: nat)
    requires Inv(s) && Legal(s, ps) && t < |s.tasks|
    ensures t < |Exec(s, ps).tasks| && s.tasks[t].resumes <= Exec(s, ps).tasks[t].resumes
    decreases |ps|
  {
    if ps != [] {
      StepKeepsInv(s, ps[0]);
      StepMoves(s, ps[0], t);
      ResumesGrow(Next(s, ps[0]), ps[1..], t);
    }
  }

  // Its next resume, over any run in between: the coroutine gets the exception with which it was scheduled, or
  // CancelledError if it has been cancelled since.
  lemma TheNextResume(s: State, ps: seq<Step>, p: Step, t: nat)
    requires Inv(s) && Legal(s, ps) && t < |s.tasks| && s.tasks[t].status == Scheduled
    requires var q := Exec(s, ps); Sane(q) && Enabled(q, p)
    requires t < |Exec(s, ps).tasks| && Exec(s, ps).tasks[t].resumes == s.tasks[t].resumes
    requires t < |Next(Exec(s, ps), p).tasks| && Next(Exec(s, ps), p).tasks[t].status == Running
    ensures Next(Exec(s, ps), p).tasks[t].exc ==
      if p == DoCancelNow(t) || DoCancel(t) in ps then Some(CancelledError) else s.tasks[t].exc
  {
    ScheduledUntilEntered(s, ps, t);
    RunKeepsInv(s, ps);
    WhatIsThrown(Exec(s, ps), p, t);
  }

  // ----- What the calls answer -----

  // `cancel` and `_cancel_now` raise RuntimeError on a RUNNING Task, and answer whether there was anything to
  // cancel on any other.
  lemma WhatCancelAnswers(s: State, t: nat)
    requires Inv(s) && t < |s.tasks|
    ensures Sane(s)
    ensures Cancel(s, t).Err? == CancelNow(s, t).Err? == (s.tasks[t].status == Running)
    ensures Cancel(s, t).Ok? ==> (Cancel(s, t).value.1 <==> !s.tasks[t].status.Done())
    ensures CancelNow(s, t).Ok? ==> (CancelNow(s, t).value.1 <==> !s.tasks[t].status.Done())
  {
    CancelKeepsInv(s, t);
    CancelNowKeepsInv(s, t);
  }
}
