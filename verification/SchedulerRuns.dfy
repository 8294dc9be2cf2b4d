/** What the scheduler promises over whole runs. */
module SchedulerRuns {
  import opened Wrappers
  import opened Scheduler
  import opened SchedulerInvariant
  import opened SchedulerSteps

  ghost predicate Legal(s: State, ps: seq<Step>)
    decreases |ps|
  {
    ps == [] || (Sane(s) && Enabled(s, ps[0]) && Legal(Next(s, ps[0]), ps[1..]))
  }

  ghost function Exec(s: State, ps: seq<Step>): State
    requires Legal(s, ps)
    decreases |ps|
  {
    if ps == [] then s else Exec(Next(s, ps[0]), ps[1..])
  }

  lemma {:induction false} RunKeepsInv(s: State, ps: seq<Step>)
    requires Inv(s) && Legal(s, ps)
    ensures Inv(Exec(s, ps))
    decreases |ps|
  {
    if ps != [] {
      StepKeepsInv(s, ps[0]);
      RunKeepsInv(Next(s, ps[0]), ps[1..]);
    }
  }

  // ----- Where a Task is queued -----

  function LiveEntries(es: seq<Entry>, t: nat): nat {
    if es == [] then 0
    else (if es[0].task == t && !es[0].cancelled then 1 else 0) + LiveEntries(es[1..], t)
  }

  function HandlesOf(hs: seq<Handle>, t: nat): nat {
    if hs == [] then 0 else (if hs[0].task == t then 1 else 0) + HandlesOf(hs[1..], t)
  }

  function HandlesIn(gs: seq<Trigger>, t: nat): nat {
    if gs == [] then 0 else HandlesOf(gs[0].callbacks, t) + HandlesIn(gs[1..], t)
  }

  lemma {:induction false} CountLive(es: seq<Entry>, t: nat, id: nat)
    requires forall i, j :: 0 <= i < j < |es| ==> es[i].id != es[j].id
    requires forall i :: 0 <= i < |es| && es[i].task == t && !es[i].cancelled ==> es[i].id == id
    ensures LiveEntries(es, t) == if Entry(id, t, false) in es then 1 else 0
  {
    if es != [] {
      CountLive(es[1..], t, id);
      assert es == [es[0]] + es[1..];
    }
  }

  lemma {:induction false} CountHandles(hs: seq<Handle>, t: nat)
    requires DistinctHandles(hs)
    ensures HandlesOf(hs, t) == if exists i :: 0 <= i < |hs| && hs[i].task == t then 1 else 0
  {
    if hs != [] {
      CountHandles(hs[1..], t);
      forall i | 0 <= i < |hs[1..]| ensures hs[1..][i] == hs[i + 1] {
      }
      if i :| 0 <= i < |hs| && hs[i].task == t && i > 0 {
        assert hs[1..][i - 1].task == t;
      }
    }
  }

  lemma {:induction false} CountTriggers(gs: seq<Trigger>, t: nat, at: Option<nat>)
    requires forall g :: 0 <= g < |gs| ==> DistinctHandles(gs[g].callbacks)
    requires forall g, i :: 0 <= g < |gs| && 0 <= i < |gs[g].callbacks| && gs[g].callbacks[i].task == t ==>
      at == Some(g)
    requires at.Some? ==>
      at.value < |gs| && exists i :: 0 <= i < |gs[at.value].callbacks| && gs[at.value].callbacks[i].task == t
    ensures HandlesIn(gs, t) == if at.Some? then 1 else 0
  {
    if gs != [] {
      CountHandles(gs[0].callbacks, t);
      var rest := if at.None? || at.value == 0 then None else Some(at.value - 1);
      forall g, i | 0 <= g < |gs[1..]| && 0 <= i < |gs[1..][g].callbacks| && gs[1..][g].callbacks[i].task == t
        ensures rest == Some(g)
      {
        assert gs[g + 1].callbacks[i].task == t;
      }
      if rest.Some? {
        assert gs[1..][rest.value] == gs[at.value];
      }
      CountTriggers(gs[1..], t, rest);
    }
  }

  lemma EntriesOfTask(s: State, t: nat)
    requires Placed(s, {}) && t < |s.tasks|
    ensures LiveEntries(s.loop, t) == (if s.tasks[t].status == Scheduled then 1 else 0)
  {
    var task := s.tasks[t];
    CountLive(s.loop, t, task.entry);
    if Entry(task.entry, t, false) in s.loop {
      var i :| 0 <= i < |s.loop| && s.loop[i] == Entry(task.entry, t, false);
      assert task.status == Scheduled;
    }
  }

  lemma HandlesOfTask(s: State, t: nat)
    requires Placed(s, {}) && t < |s.tasks|
    ensures HandlesIn(s.triggers, t) == (if s.tasks[t].status == Pending then 1 else 0)
  {
    var task := s.tasks[t];
    forall g, i | 0 <= g < |s.triggers| && 0 <= i < |s.triggers[g].callbacks| && s.triggers[g].callbacks[i].task == t
      ensures task.status == Pending && task.trigger == g
    {
      assert HandleOwned(s, {}, g, s.triggers[g].callbacks[i]);
    }
    if task.status == Pending {
      var hs := s.triggers[task.trigger].callbacks;
      var i :| 0 <= i < |hs| && hs[i] == Handle(task.handle, t);
      assert hs[i].task == t;
    }
    CountTriggers(s.triggers, t, if task.status == Pending then Some(task.trigger) else None);
  }

  lemma ActivationOfTask(s: State, t: nat)
    requires Stacked(s) && t < |s.tasks|
    ensures s.tasks[t].status == Running <==> Coro(t) in s.frames || Closing(t) in s.frames
  {
    forall f | f in {Coro(t), Closing(t)} && f in s.frames ensures s.tasks[t].status == Running {
      var i :| 0 <= i < |s.frames| && s.frames[i] == f;
      assert FrameOk(s, s.frames[i]);
    }
  }

  // In every reachable state a Task is SCHEDULED exactly when the loop holds exactly one live entry
  // for it, PENDING exactly when exactly one Trigger holds exactly one handle for it, and is
  // queued nowhere otherwise.
  lemma EveryTaskIsInOnePlace(ps: seq<Step>, t: nat)
    requires Legal(Initial, ps) && t < |Exec(Initial, ps).tasks|
    ensures var s := Exec(Initial, ps); var status := s.tasks[t].status;
      && LiveEntries(s.loop, t) == (if status == Scheduled then 1 else 0)
      && HandlesIn(s.triggers, t) == (if status == Pending then 1 else 0)
      && (status == Running <==> Coro(t) in s.frames || Closing(t) in s.frames)
  {
    RunKeepsInv(Initial, ps);
    var s := Exec(Initial, ps);
    EntriesOfTask(s, t);
    HandlesOfTask(s, t);
    ActivationOfTask(s, t);
  }

  // ----- The life of one Task -----

  predicate Arc(a: Status, b: Status) {
    match a
    case Unstarted => b.Unstarted? || b.Scheduled? || b.Running?
    case Scheduled => b.Scheduled? || b.Running?
    case Pending => b.Pending? || b.Scheduled? || b.Running?
    case Running => !b.Unstarted?
    case _ => b == a
  }

  predicate Ends(p: Step) {
    p.Return? || p.Raise? || p.Closed?
  }

  predicate TouchesCallbacks(p: Step) {
    p.AddDoneCallback? || p.RunDoneCallback? || p.Added?
  }

  // What step `p` may do to Task `t`.
  ghost predicate Moves(a: Task, b: Task, p: Step, t: nat) {
    && Arc(a.status, b.status)
    && b.resumes == a.resumes + (if a.status != Running && b.status == Running then 1 else 0)
    && (a.status.Done() ==> b.outcome == a.outcome)
    && (a.status == Running && a.mustCancel > 0 ==> b.status.Running? || b.status.Errored? || b.status.Cancelled?)
    && (p != DoUncancel(t) ==> b.mustCancel >= a.mustCancel)
    && (!Ends(p) ==> (b.status.Done() <==> a.status.Done()))
    && (!TouchesCallbacks(p) ==> b.doneCallbacks == a.doneCallbacks)
    && (!p.CallbackRaises? ==> b.broken == a.broken) && (a.broken.Some? ==> b.broken.Some?)
    && b.complete == a.complete && b.join == a.join
  }

  lemma ReactMoves(s: State, gs: set<nat>, g: nat, t: nat, p: Step)
    requires InvBut(s, gs) && g < |s.triggers| && t < |s.tasks|
    ensures HandlesOk(s, s.triggers[g].callbacks) && Moves(s.tasks[t], React(s, g).tasks[t], p, t)
    ensures s.tasks[t].status != Pending ==> React(s, g).tasks[t] == s.tasks[t]
  {
    ReactEffect(s, gs, g);
  }

  lemma FinishMoves(s: State, t: nat)
    requires Inv(s) && Enabled(s, Finish) && t < |s.tasks|
    ensures Sane(s) && t < |Next(s, Finish).tasks| && Moves(s.tasks[t], Next(s, Finish).tasks[t], Finish, t)
    ensures s.tasks[t].status != Pending ==> Next(s, Finish).tasks[t] == s.tasks[t]
  {
    InvIsSane(s, {});
    LeaveFinishing(s);
    var u := TopTask(s);
    var c, j := s.tasks[u].complete, s.tasks[u].join;
    assert LinkOk(s, u);
    ReactMoves(PopFrame(s), {c, j}, c, t, Finish);
    ReactKeepsInv(PopFrame(s), {c, j}, c);
    ReactEffect(PopFrame(s), {c, j}, c);
    ReactMoves(React(PopFrame(s), c), {c, j} - {c}, j, t, Finish);
  }

  lemma PrimeMoves(s: State, g: nat, t: nat)
    requires InvBut(s, {g}) && g < |s.triggers| && t < |s.tasks|
    ensures Sane(s)
    ensures var a, b := s.tasks[t], Prime(s, g).tasks[t];
      b == a || (t in Owners(s.triggers[g].callbacks) && b == a.(status := Scheduled, exc := None, entry := b.entry))
  {
    InvIsSane(s, {g});
    ReactEffect(s, {g}, g);
  }

  lemma WaitMoves(s: State, g: nat, t: nat)
    requires Inv(s) && Sane(s) && Enabled(s, Yield(g)) && TopTask(s) < |s.tasks| && s.tasks[TopTask(s)].mustCancel == 0
    requires s.triggers[g].Unused() && t < |s.tasks|
    ensures var b := EndYield(s, Some(g)).tasks[t]; var a := s.tasks[t];
      if t == TopTask(s)
      then b.status in {Pending, Scheduled} && b.resumes == a.resumes && b.outcome == a.outcome &&
        b.mustCancel == a.mustCancel && b.doneCallbacks == a.doneCallbacks && b.broken == a.broken &&
        b.complete == a.complete && b.join == a.join
      else b == a
  {
    AddHandleKeepsInv(s, g);
    AddHandleMoves(s, g);
    var s1 := AddHandle(PopFrame(s), TopTask(s), g);
    PrimeMoves(s1, g, t);
    WaitIsPrime(s, g);
  }

  lemma AddHandleMoves(s: State, g: nat)
    requires Sane(s) && TopCoro(s) && g < |s.triggers| && TopTask(s) < |s.tasks| && s.triggers[g].Unused()
    ensures var s1 := AddHandle(PopFrame(s), TopTask(s), g);
      && Owners(s1.triggers[g].callbacks) == {TopTask(s)}
      && s1.tasks == s.tasks[TopTask(s) := s.tasks[TopTask(s)].(status := Pending, trigger := g, handle := s.next)]
  {
    var s1 := AddHandle(PopFrame(s), TopTask(s), g);
    assert s1.triggers[g].callbacks == [Handle(s.next, TopTask(s))];
    assert s1.triggers[g].callbacks[0].task == TopTask(s);
  }

  lemma WaitIsPrime(s: State, g: nat)
    requires Sane(s) && TopCoro(s) && g < |s.triggers| && TopTask(s) < |s.tasks|
    requires s.triggers[g].Unused() && s.tasks[TopTask(s)].mustCancel == 0
    ensures var s1 := AddHandle(PopFrame(s), TopTask(s), g); EndYield(s, Some(g)) == Prime(s1, g)
  {
  }

  lemma YieldMoves(s: State, g: nat, t: nat)
    requires Inv(s) && Enabled(s, Yield(g)) && t < |s.tasks|
    ensures Sane(s) && t < |Next(s, Yield(g)).tasks| && Moves(s.tasks[t], Next(s, Yield(g)).tasks[t], Yield(g), t)
  {
    InvIsSane(s, {});
    TopOfInv(s);
    if s.tasks[TopTask(s)].mustCancel == 0 && s.triggers[g].Unused() {
      WaitMoves(s, g, t);
    }
  }

  lemma DeregisterMoves(s: State, t: nat)
    requires Inv(s) && t < |s.tasks| && s.tasks[t].status == Pending
    ensures s.tasks[t].trigger < |s.triggers| && Deregister(s, t).Ok? && Deregister(s, t).value.tasks == s.tasks
  {
    TakePending(s, t);
  }

  lemma CancelMoves(s: State, u: nat, t: nat)
    requires Sane(s) && t < |s.tasks| && u < |s.tasks|
    requires s.tasks[u].status == Pending ==> Deregister(s, u).Ok? && Deregister(s, u).value.tasks == s.tasks
    ensures var r := OrElse(Cancel(s, u), s);
      t < |r.tasks| && Moves(s.tasks[t], r.tasks[t], DoCancel(u), t)
  {
  }

  lemma CancelNowMoves(s: State, u: nat, t: nat)
    requires Sane(s) && t < |s.tasks| && u < |s.tasks|
    requires s.tasks[u].status == Pending ==> Deregister(s, u).Ok? && Deregister(s, u).value.tasks == s.tasks
    ensures var r := OrElse(CancelNow(s, u), s);
      t < |r.tasks| && Moves(s.tasks[t], r.tasks[t], DoCancelNow(u), t)
  {
  }

  lemma SetOutcomeMoves(s: State, p: Step, o: Outcome, status: Status, t: nat)
    requires t < |s.tasks| && |s.frames| > 0 && TopTask(s) < |s.tasks| && Ends(p)
    requires s.tasks[TopTask(s)].status == Running && status.Done()
    requires s.tasks[TopTask(s)].mustCancel > 0 ==> !status.Finished?
    ensures Moves(s.tasks[t], SetOutcome(s, TopTask(s), o, status).tasks[t], p, t)
  {
  }

  lemma EndMoves(s: State, p: Step, t: nat)
    requires Inv(s) && Enabled(s, p) && t < |s.tasks| && Ends(p)
    ensures Sane(s) && t < |Next(s, p).tasks| && Moves(s.tasks[t], Next(s, p).tasks[t], p, t)
  {
    InvIsSane(s, {});
    TopOfInv(s);
    var r := Next(s, p).tasks[TopTask(s)];
    SetOutcomeMoves(s, p, r.outcome.value, r.status, t);
  }

  lemma FireMoves(s: State, p: Step, t: nat)
    requires Inv(s) && Enabled(s, p) && (p.SetEvent? || p.FireGpi?) && t < |s.tasks|
    ensures Sane(s) && t < |Next(s, p).tasks| && Moves(s.tasks[t], Next(s, p).tasks[t], p, t)
  {
    InvIsSane(s, {});
    var k := if p.SetEvent? then Event(true) else Gpi(false);
    SetKindKeepsInv(s, p.trigger, k);
    ReactMoves(SetKind(s, p.trigger, k), {p.trigger}, p.trigger, t, p);
  }

  lemma CallMoves(s: State, p: Step, t: nat)
    requires Sane(s) && Enabled(s, p) && t < |s.tasks|
    requires p.NewTask? || p.NewTrigger? || p.StartSoon? || p.StartNext? || p.DoUncancel? || p.ClearEvent?
    ensures t < |Next(s, p).tasks| && Moves(s.tasks[t], Next(s, p).tasks[t], p, t)
  {
  }

  lemma CallbackMoves(s: State, p: Step, t: nat)
    requires Sane(s) && Enabled(s, p) && t < |s.tasks| && TouchesCallbacks(p)
    ensures t < |Next(s, p).tasks| && Moves(s.tasks[t], Next(s, p).tasks[t], p, t)
  {
  }

  lemma PopMoves(s: State, t: nat)
    requires Sane(s) && Enabled(s, Pop) && t < |s.tasks|
    requires !s.loop[0].cancelled ==> s.tasks[s.loop[0].task].status == Scheduled
    ensures t < |PopEntry(s).tasks| && Moves(s.tasks[t], PopEntry(s).tasks[t], Pop, t)
  {
  }

  lemma BreakMoves(s: State, t: nat)
    requires Enabled(s, CallbackRaises) && t < |s.tasks|
    ensures t < |BreakOff(s).tasks| && Moves(s.tasks[t], BreakOff(s).tasks[t], CallbackRaises, t)
  {
  }

  lemma RetryMoves(s: State, p: Step, t: nat)
    requires Sane(s) && Enabled(s, p) && t < |s.tasks| && (p.YieldOther? || p.YieldFails?)
    requires FrameOk(s, s.frames[|s.frames| - 1])
    ensures t < |Next(s, p).tasks| && Moves(s.tasks[t], Next(s, p).tasks[t], p, t)
  {
  }

  lemma CancelStepMoves(s: State, p: Step, t: nat)
    requires Inv(s) && Enabled(s, p) && (p.DoCancel? || p.DoCancelNow?) && t < |s.tasks|
    ensures Sane(s) && t < |Next(s, p).tasks| && Moves(s.tasks[t], Next(s, p).tasks[t], p, t)
  {
    InvIsSane(s, {});
    if s.tasks[p.task].status == Pending {
      DeregisterMoves(s, p.task);
    }
    if p.DoCancel? {
      CancelMoves(s, p.task, t);
    } else {
      CancelNowMoves(s, p.task, t);
    }
  }

  lemma Fronts(s: State)
    requires Inv(s)
    ensures Sane(s)
    ensures |s.frames| > 0 ==> FrameOk(s, s.frames[|s.frames| - 1])
    ensures |s.loop| > 0 && !s.loop[0].cancelled ==> s.tasks[s.loop[0].task].status == Scheduled
  {
    InvIsSane(s, {});
  }

  lemma StepMoves(s: State, p: Step, t: nat)
    requires Inv(s) && Enabled(s, p) && t < |s.tasks|
    ensures Sane(s) && t < |Next(s, p).tasks| && Moves(s.tasks[t], Next(s, p).tasks[t], p, t)
  {
    if p.SetEvent? || p.FireGpi? {
      FireMoves(s, p, t);
    } else if p.DoCancel? || p.DoCancelNow? {
      CancelStepMoves(s, p, t);
    } else if p.Return? || p.Raise? || p.Closed? {
      EndMoves(s, p, t);
    } else if p.Finish? {
      FinishMoves(s, t);
    } else if p.Yield? {
      YieldMoves(s, p.trigger, t);
    } else {
      Fronts(s);
      if TouchesCallbacks(p) {
        CallbackMoves(s, p, t);
      } else if p.Pop? {
        PopMoves(s, t);
      } else if p.YieldOther? || p.YieldFails? {
        RetryMoves(s, p, t);
      } else if p.CallbackRaises? {
        BreakMoves(s, t);
      } else {
        CallMoves(s, p, t);
      }
    }
  }

  // Terminal states are absorbing, and the outcome is set once.
  lemma {:induction false} DoneIsForever(s: State, ps: seq<Step>, t: nat)
    requires Inv(s) && Legal(s, ps) && t < |s.tasks| && s.tasks[t].status.Done()
    ensures t < |Exec(s, ps).tasks|
    ensures var r := Exec(s, ps);
      && r.tasks[t].status == s.tasks[t].status && r.tasks[t].outcome == s.tasks[t].outcome
      && r.tasks[t].resumes == s.tasks[t].resumes
    decreases |ps|
  {
    if ps != [] {
      StepMoves(s, ps[0], t);
      StepKeepsInv(s, ps[0]);
      DoneIsForever(Next(s, ps[0]), ps[1..], t);
    }
  }

  // A Task cancelled after `r` resumes.
  ghost predicate Cancelling(task: Task, r: nat) {
    && task.mustCancel > 0
    && match task.status
       case Scheduled => task.exc == Some(CancelledError) && task.resumes == r
       case Running => task.resumes == r + 1
       case Errored => task.resumes == r + 1
       case Cancelled => task.resumes == r + 1
       case _ => false
  }

  lemma {:induction false} CancellingGoesOn(s: State, ps: seq<Step>, t: nat, r: nat)
    requires Inv(s) && Legal(s, ps) && t < |s.tasks| && Cancelling(s.tasks[t], r)
    requires DoUncancel(t) !in ps
    ensures t < |Exec(s, ps).tasks| && Cancelling(Exec(s, ps).tasks[t], r)
    decreases |ps|
  {
    if ps != [] {
      StepMoves(s, ps[0], t);
      StepKeepsInv(s, ps[0]);
      assert TaskAccounted(Next(s, ps[0]).tasks[t]);
      CancellingGoesOn(Next(s, ps[0]), ps[1..], t, r);
    }
  }

  // A Task that was waiting, queued or never started when `cancel` reached it is resumed exactly
  // once more, with CancelledError thrown; whatever its coroutine then does, it ends up CANCELLED
  // or ERRORED, and it is not waiting when the event loop returns.
  lemma CancelGivesOneMoreResume(s: State, t: nat, ps: seq<Step>)
    requires Inv(s) && t < |s.tasks| && !s.tasks[t].status.Done() && s.tasks[t].status != Running
    requires Sane(s) && Legal(Next(s, DoCancel(t)), ps) && DoUncancel(t) !in ps
    ensures Cancel(s, t).Ok? && Cancel(s, t).value.1
    ensures t < |Exec(Next(s, DoCancel(t)), ps).tasks|
    ensures var r := Exec(Next(s, DoCancel(t)), ps);
      && Cancelling(r.tasks[t], s.tasks[t].resumes)
      && (r.loop == [] && r.frames == [] ==> r.tasks[t].status in {Cancelled, Errored})
  {
    CancelKeepsInv(s, t);
    var s1 := Next(s, DoCancel(t));
    assert TaskAccounted(s.tasks[t]);
    CancellingGoesOn(s1, ps, t, s.tasks[t].resumes);
    RunKeepsInv(s1, ps);
    var r := Exec(s1, ps);
    if r.loop == [] && r.frames == [] && r.tasks[t].status == Scheduled {
      assert Entry(r.tasks[t].entry, t, false) in r.loop;
    }
  }

  // The same of `_cancel_now`, with which the one more resume begins: CancelledError is thrown at once, also
  // into a Task that was never started or that is scheduled with something else.
  lemma CancelNowGivesOneMoreResume(s: State, t: nat, ps: seq<Step>)
    requires Inv(s) && t < |s.tasks| && !s.tasks[t].status.Done() && s.tasks[t].status != Running
    requires Sane(s) && Legal(Next(s, DoCancelNow(t)), ps) && DoUncancel(t) !in ps
    ensures Thrown(s, Next(s, DoCancelNow(t)), t) && t < |Exec(Next(s, DoCancelNow(t)), ps).tasks|
    ensures var r := Exec(Next(s, DoCancelNow(t)), ps);
      && Cancelling(r.tasks[t], s.tasks[t].resumes) && r.tasks[t].status != Scheduled
  {
    CancelNowEnters(s, t);
    CancelNowThrows(s, t);
    var s1 := Next(s, DoCancelNow(t));
    CancellingGoesOn(s1, ps, t, s.tasks[t].resumes);
    NeverScheduledAgain(s1, ps, t, s.tasks[t].resumes);
  }

  // `_cancel_now` has entered the coroutine of `t`.
  ghost predicate Thrown(s: State, r: State, t: nat)
    requires t < |s.tasks|
  {
    && |r.tasks| == |s.tasks| && r.frames == s.frames + [Coro(t)]
    && r.tasks[t].status == Running && r.tasks[t].exc == Some(CancelledError)
    && r.tasks[t].mustCancel == s.tasks[t].mustCancel + 1
    && forall u :: 0 <= u < |s.tasks| && u != t ==> r.tasks[u] == s.tasks[u]
  }

  lemma CancelNowThrows(s: State, t: nat)
    requires Inv(s) && t < |s.tasks| && !s.tasks[t].status.Done() && s.tasks[t].status != Running
    ensures Sane(s) && Thrown(s, Next(s, DoCancelNow(t)), t)
  {
    InvIsSane(s, {});
    if s.tasks[t].status == Pending { TakePending(s, t); }
  }

  lemma CancelNowEnters(s: State, t: nat)
    requires Inv(s) && t < |s.tasks| && !s.tasks[t].status.Done() && s.tasks[t].status != Running
    ensures Sane(s) && Inv(Next(s, DoCancelNow(t)))
    ensures var r := Next(s, DoCancelNow(t));
      t < |r.tasks| && Cancelling(r.tasks[t], s.tasks[t].resumes) && r.tasks[t].resumes == s.tasks[t].resumes + 1
  {
    CancelNowKeepsInv(s, t);
  }

  lemma {:induction false} NeverScheduledAgain(s: State, ps: seq<Step>, t: nat, r: nat)
    requires Inv(s) && Legal(s, ps) && t < |s.tasks| && Cancelling(s.tasks[t], r) && s.tasks[t].resumes == r + 1
    requires DoUncancel(t) !in ps
    ensures t < |Exec(s, ps).tasks| && Exec(s, ps).tasks[t].status != Scheduled
    decreases |ps|
  {
    if ps != [] {
      StepMoves(s, ps[0], t);
      StepKeepsInv(s, ps[0]);
      NeverScheduledAgain(Next(s, ps[0]), ps[1..], t, r);
    }
  }

  // ----- When the event loop returns -----

  // Every Task is then unstarted, done, or waiting on something that has not happened, or that was lost;
  // a Task with an unanswered cancellation is CANCELLED or ERRORED.
  lemma WhenTheLoopReturns(ps: seq<Step>, t: nat)
    requires Legal(Initial, ps) && t < |Exec(Initial, ps).tasks|
    requires Exec(Initial, ps).loop == [] && Exec(Initial, ps).frames == []
    ensures var s := Exec(Initial, ps); var task := s.tasks[t];
      && (task.mustCancel > 0 ==> task.status in {Cancelled, Errored})
      && (task.status.Unstarted? || task.status.Done() || (task.status.Pending? && task.trigger < |s.triggers| &&
           match s.triggers[task.trigger].kind
           case Event(fired) => !fired
           case Null => false
           case Complete(u) => u < |s.tasks| && (s.tasks[u].status.Done() ==> s.tasks[u].broken.Some?)
           case Gpi(primed) => primed || s.triggers[task.trigger].stale != []))
  {
    RunKeepsInv(Initial, ps);
    var s := Exec(Initial, ps);
    assert TaskAccounted(s.tasks[t]);
    if s.tasks[t].status.Pending? {
      assert Handle(s.tasks[t].handle, t) in s.triggers[s.tasks[t].trigger].callbacks;
      assert Unfired(s, s.tasks[t].trigger);
    }
  }

  // Completion is not lost, whether a Task registered on `complete` before or after: outside
  // `_set_outcome` nobody waits for a Task that is done, unless one of its done-callbacks raised;
  lemma NobodyWaitsForADoneTask(ps: seq<Step>, t: nat, u: nat)
    requires Legal(Initial, ps) && t < |Exec(Initial, ps).tasks| && u < |Exec(Initial, ps).tasks|
    requires var s := Exec(Initial, ps); s.tasks[t].status.Done() && !FinishingIn(s, t)
    ensures var s := Exec(Initial, ps);
      s.tasks[u].status == Pending && s.tasks[u].trigger in {s.tasks[t].complete, s.tasks[t].join} ==>
        s.tasks[t].broken.Some?
  {
    RunKeepsInv(Initial, ps);
    var s := Exec(Initial, ps);
    if s.tasks[u].status == Pending && s.tasks[u].trigger in {s.tasks[t].complete, s.tasks[t].join} {
      WaitersOfTheDone(s, t, u);
    }
  }

  // then those who were waiting wait for ever, unless they are cancelled.
  lemma {:induction false} ALostCompletionIsNeverFired(s: State, ps: seq<Step>, t: nat, u: nat)
    requires Inv(s) && Legal(s, ps) && t < |s.tasks| && u < |s.tasks| && s.tasks[t].broken.Some?
    requires s.tasks[u].status == Pending && s.tasks[u].trigger in {s.tasks[t].complete, s.tasks[t].join}
    requires DoCancel(u) !in ps && DoCancelNow(u) !in ps
    ensures u < |Exec(s, ps).tasks| && Waits(Exec(s, ps).tasks[u], s.tasks[u].trigger, s.tasks[u].resumes)
    decreases |ps|
  {
    if ps != [] {
      BrokenDoesNotFire(s, ps[0], t, s.tasks[u].trigger);
      WaitingGoesOn(s, ps[0], u);
      StepKeepsInv(s, ps[0]);
      ALostCompletionIsNeverFired(Next(s, ps[0]), ps[1..], t, u);
    }
  }

  lemma BrokenDoesNotFire(s: State, p: Step, t: nat, g: nat)
    requires Inv(s) && Enabled(s, p) && t < |s.tasks| && s.tasks[t].broken.Some?
    requires g in {s.tasks[t].complete, s.tasks[t].join}
    ensures Sane(s) && !Fires(s, p, g)
    ensures var r := Next(s, p);
      t < |r.tasks| && r.tasks[t].broken.Some? && g in {r.tasks[t].complete, r.tasks[t].join}
  {
    StepMoves(s, p, t);
    BrokenIsNotFired(s, p, t, g);
  }

  lemma BrokenIsNotFired(s: State, p: Step, t: nat, g: nat)
    requires Inv(s) && Sane(s) && Enabled(s, p) && t < |s.tasks| && s.tasks[t].broken.Some?
    requires g in {s.tasks[t].complete, s.tasks[t].join}
    ensures !Fires(s, p, g)
  {
    assert LinkOk(s, t) && TaskAccounted(s.tasks[t]);
    if p.Finish? {
      assert FrameOk(s, s.frames[|s.frames| - 1]) && LinkOk(s, TopTask(s));
    }
  }

  lemma WaitersOfTheDone(s: State, t: nat, u: nat)
    requires Inv(s) && t < |s.tasks| && u < |s.tasks| && s.tasks[t].status.Done() && !FinishingIn(s, t)
    requires s.tasks[u].status == Pending && s.tasks[u].trigger in {s.tasks[t].complete, s.tasks[t].join}
    ensures s.tasks[t].broken.Some?
  {
    assert LinkOk(s, t);
    assert Handle(s.tasks[u].handle, u) in s.triggers[s.tasks[u].trigger].callbacks;
    assert Unfired(s, s.tasks[u].trigger);
  }

  lemma OwnersAreTheWaiters(s: State, g: nat, t: nat)
    requires Inv(s) && g < |s.triggers| && t < |s.tasks|
    ensures t in Owners(s.triggers[g].callbacks) <==> s.tasks[t].status == Pending && s.tasks[t].trigger == g
  {
    var hs := s.triggers[g].callbacks;
    if t in Owners(hs) {
      var i :| 0 <= i < |hs| && hs[i].task == t;
      assert HandleOwned(s, {}, g, hs[i]);
    }
    if s.tasks[t].status == Pending && s.tasks[t].trigger == g {
      var i :| 0 <= i < |hs| && hs[i] == Handle(s.tasks[t].handle, t);
      assert hs[i].task == t;
    }
  }

  // Firing wakes exactly the waiters, in the order in which they registered.
  lemma FiringWakesInOrder(s: State, g: nat, t: nat)
    requires Inv(s) && Enabled(s, SetEvent(g)) && t < |s.tasks|
    ensures Sane(s)
    ensures var hs := s.triggers[g].callbacks; var r := Next(s, SetEvent(g));
      && r.loop == s.loop + seq(|hs|, i requires 0 <= i < |hs| => Entry(s.next + i, hs[i].task, false))
      && r.triggers == s.triggers[g := Trigger(Event(true), [], [])]
      && if s.tasks[t].status == Pending && s.tasks[t].trigger == g
         then r.tasks[t].status == Scheduled && r.tasks[t].exc == None
         else r.tasks[t] == s.tasks[t]
  {
    InvIsSane(s, {});
    OwnersAreTheWaiters(s, g, t);
    SetKindKeepsInv(s, g, Event(true));
    FiredEffect(SetKind(s, g, Event(true)), g, t);
  }

  lemma FiredEffect(s: State, g: nat, t: nat)
    requires InvBut(s, {g}) && g < |s.triggers| && t < |s.tasks|
    ensures HandlesOk(s, s.triggers[g].callbacks)
    ensures var hs := s.triggers[g].callbacks; var r := React(s, g);
      && r.loop == s.loop + seq(|hs|, i requires 0 <= i < |hs| => Entry(s.next + i, hs[i].task, false))
      && r.triggers == s.triggers[g := s.triggers[g].(callbacks := [])]
      && if t in Owners(hs) then r.tasks[t].status == Scheduled && r.tasks[t].exc == None else r.tasks[t] == s.tasks[t]
  {
    ReactEffect(s, {g}, g);
  }

  // `cancel` only schedules: no coroutine and no done-callback runs, and no other Task changes.
  lemma CancelOnlySchedules(s: State, t: nat, u: nat)
    requires Inv(s) && t < |s.tasks| && u < |s.tasks|
    ensures Sane(s)
    ensures var r := Next(s, DoCancel(t));
      && r.frames == s.frames && |r.tasks| == |s.tasks|
      && (u != t ==> r.tasks[u] == s.tasks[u])
      && r.tasks[t].doneCallbacks == s.tasks[t].doneCallbacks
      && (!s.tasks[t].status.Done() && s.tasks[t].status != Running ==> r.tasks[t].status == Scheduled)
  {
    InvIsSane(s, {});
    if s.tasks[t].status == Pending {
      TakePending(s, t);
    }
  }

  // A Task started next is the first that the loop runs; one started soon runs after all others.
  lemma StartOrder(s: State, t: nat)
    requires Inv(s) && t < |s.tasks| && s.tasks[t].status.Unstarted?
    ensures Sane(s)
    ensures var r := Next(s, StartNext(t));
      |r.loop| == |s.loop| + 1 && r.loop[1..] == s.loop && !r.loop[0].cancelled && r.loop[0].task == t &&
        r.tasks[t].exc == None
    ensures var r := Next(s, StartSoon(t));
      |r.loop| == |s.loop| + 1 && r.loop[..|s.loop|] == s.loop && !r.loop[|s.loop|].cancelled &&
        r.loop[|s.loop|].task == t
  {
    InvIsSane(s, {});
  }

  // What becomes of a Task, by what its coroutine did and whether a cancellation was unanswered.  One that
  // is closed because it waited then has ignored the cancellation.
  lemma EndingDecidesOutcome(s: State, p: Step)
    requires Inv(s) && Enabled(s, p) && (p.Return? || p.Raise? || p.Closed? || p.YieldOther? || p.YieldFails?)
    ensures Sane(s) && TopTask(s) < |s.tasks| <= |Next(s, p).tasks|
    ensures var a := s.tasks[TopTask(s)]; var b := Next(s, p).tasks[TopTask(s)];
      match p
      case Return(v) =>
        if a.mustCancel == 0 then b.status == Finished && b.outcome == Some(Value(v))
        else b.status == Errored && b.outcome == Some(Raised(RuntimeError))
      case Raise(e) =>
        if e.CancelledError? then b.status == Cancelled && b.outcome == Some(Raised(CancelledError))
        else
          && b.status == Errored
          && b.outcome == Some(Raised(if a.mustCancel > 0 && !e.ExitError? then RuntimeError else e))
      case Closed => b.status == Errored && b.outcome == Some(Raised(RuntimeError))
      case _ =>
        if a.mustCancel == 0 then b.status == Scheduled && b.exc == Some(if p.YieldFails? then p.e else TypeError)
        else b.status == Running && Next(s, p).frames == s.frames[..|s.frames| - 1] + [Closing(TopTask(s))]
  {
    InvIsSane(s, {});
    TopOfInv(s);
  }

  // ----- Waiting -----

  // Does this step fire Trigger `g`?
  ghost predicate Fires(s: State, p: Step, g: nat)
    requires Sane(s) && Enabled(s, p)
  {
    match p
    case SetEvent(f) => f == g
    case FireGpi(f) => f == g
    case Finish => g == s.tasks[TopTask(s)].complete || g == s.tasks[TopTask(s)].join
    case _ => false
  }

  ghost predicate Waits(a: Task, g: nat, resumes: nat) {
    a.status == Pending && a.trigger == g && a.resumes == resumes
  }

  lemma FiringLeavesOthers(s: State, gs: set<nat>, f: nat, t: nat)
    requires InvBut(s, gs) && f < |s.triggers| && t < |s.tasks| && s.tasks[t].trigger != f
    ensures HandlesOk(s, s.triggers[f].callbacks) && React(s, f).tasks[t] == s.tasks[t]
  {
    ReactEffect(s, gs, f);
    forall i | 0 <= i < |s.triggers[f].callbacks| ensures s.triggers[f].callbacks[i].task != t {
      assert HandleOwned(s, {}, f, s.triggers[f].callbacks[i]);
    }
  }

  lemma FireLeaves(s: State, p: Step, t: nat)
    requires Inv(s) && Enabled(s, p) && (p.SetEvent? || p.FireGpi?) && t < |s.tasks| && s.tasks[t].trigger != p.trigger
    ensures Sane(s) && t < |Next(s, p).tasks| && Next(s, p).tasks[t] == s.tasks[t]
  {
    InvIsSane(s, {});
    var k := if p.SetEvent? then Event(true) else Gpi(false);
    SetKindKeepsInv(s, p.trigger, k);
    FiringLeavesOthers(SetKind(s, p.trigger, k), {p.trigger}, p.trigger, t);
  }

  lemma FinishLeaves(s: State, t: nat)
    requires Inv(s) && Enabled(s, Finish) && t < |s.tasks|
    requires s.tasks[t].trigger != s.tasks[TopTask(s)].complete && s.tasks[t].trigger != s.tasks[TopTask(s)].join
    ensures Sane(s) && t < |Next(s, Finish).tasks| && Next(s, Finish).tasks[t] == s.tasks[t]
  {
    InvIsSane(s, {});
    LeaveFinishing(s);
    var u := TopTask(s);
    var c, j := s.tasks[u].complete, s.tasks[u].join;
    assert LinkOk(s, u) && StaleOk(s.triggers[c]);
    FiringLeavesOthers(PopFrame(s), {c, j}, c, t);
    ReactKeepsInv(PopFrame(s), {c, j}, c);
    ReactEffect(PopFrame(s), {c, j}, c);
    FiringLeavesOthers(React(PopFrame(s), c), {c, j} - {c}, j, t);
  }

  lemma YieldLeaves(s: State, p: Step, t: nat)
    requires Inv(s) && Enabled(s, p) && (p.Yield? || p.YieldFails? || p.YieldOther?) && t < |s.tasks|
    requires t != TopTask(s)
    ensures Sane(s) && t < |Next(s, p).tasks| && Next(s, p).tasks[t] == s.tasks[t]
  {
    InvIsSane(s, {});
    TopOfInv(s);
    if p.Yield? && s.tasks[TopTask(s)].mustCancel == 0 && s.triggers[p.trigger].Unused() {
      WaitMoves(s, p.trigger, t);
    }
  }

  lemma CancelLeavesOthers(s: State, p: Step, t: nat)
    requires Sane(s) && Enabled(s, p) && (p.DoCancel? || p.DoCancelNow?) && t < |s.tasks| && p.task != t
    requires s.tasks[p.task].status == Pending ==>
      Deregister(s, p.task).Ok? && Deregister(s, p.task).value.tasks == s.tasks
    ensures t < |Next(s, p).tasks| && Next(s, p).tasks[t] == s.tasks[t]
  {
  }

  lemma CancelLeaves(s: State, p: Step, t: nat)
    requires Inv(s) && Enabled(s, p) && (p.DoCancel? || p.DoCancelNow?) && t < |s.tasks| && p.task != t
    ensures Sane(s) && t < |Next(s, p).tasks| && Next(s, p).tasks[t] == s.tasks[t]
  {
    InvIsSane(s, {});
    if s.tasks[p.task].status == Pending {
      DeregisterMoves(s, p.task);
    }
    CancelLeavesOthers(s, p, t);
  }

  lemma CallLeaves(s: State, p: Step, t: nat)
    requires Sane(s) && Enabled(s, p) && t < |s.tasks| && s.tasks[t].status == Pending && s.tasks[t].mustCancel == 0
    requires p.NewTask? || p.NewTrigger? || p.StartSoon? || p.StartNext? || p.DoUncancel? || p.ClearEvent? ||
             p.AddDoneCallback?
    ensures t < |Next(s, p).tasks|
    ensures Waits(Next(s, p).tasks[t], s.tasks[t].trigger, s.tasks[t].resumes)
  {
  }

  // Steps of the frame on top or of the loop, which belong to a Task that is not PENDING.
  lemma OwnLeaves(s: State, p: Step, t: nat)
    requires Sane(s) && Enabled(s, p) && t < |s.tasks| && s.tasks[t].status == Pending
    requires p.Return? || p.Raise? || p.Closed? || p.RunDoneCallback? || p.Added? || p.CallbackRaises? || p.Pop?
    requires |s.frames| > 0 ==> FrameOk(s, s.frames[|s.frames| - 1])
    requires |s.loop| > 0 && !s.loop[0].cancelled ==> s.tasks[s.loop[0].task].status == Scheduled
    ensures t < |Next(s, p).tasks| && Next(s, p).tasks[t] == s.tasks[t]
  {
  }

  // A PENDING Task waits, whatever happens, until its Trigger fires or it is cancelled.
  lemma WaitingGoesOn(s: State, p: Step, t: nat)
    requires Inv(s) && Sane(s) && Enabled(s, p) && t < |s.tasks| && s.tasks[t].status == Pending
    requires !Fires(s, p, s.tasks[t].trigger) && p != DoCancel(t) && p != DoCancelNow(t)
    ensures t < |Next(s, p).tasks|
    ensures Waits(Next(s, p).tasks[t], s.tasks[t].trigger, s.tasks[t].resumes)
  {
    Fronts(s);
    assert TaskAccounted(s.tasks[t]);
    if p.SetEvent? || p.FireGpi? {
      FireLeaves(s, p, t);
    } else if p.DoCancel? || p.DoCancelNow? {
      CancelLeaves(s, p, t);
    } else if p.Finish? {
      FinishLeaves(s, t);
    } else if p.Yield? || p.YieldFails? || p.YieldOther? {
      YieldLeaves(s, p, t);
    } else if p.Return? || p.Raise? || p.Closed? || p.RunDoneCallback? || p.Added? || p.CallbackRaises? || p.Pop? {
      OwnLeaves(s, p, t);
    } else {
      CallLeaves(s, p, t);
    }
  }

  // ----- When priming fails -----

  // A simulator Trigger that could not be primed once is not primed again: the handle that was left
  // behind makes it look as if it were.
  ghost predicate Stranded(s: State, g: nat) {
    g < |s.triggers| && s.triggers[g].kind == Gpi(false) && s.triggers[g].stale != []
  }

  lemma StrandedCancel(s: State, p: Step, g: nat)
    requires Sane(s) && Enabled(s, p) && Stranded(s, g) && (p.DoCancel? || p.DoCancelNow?)
    ensures Stranded(Next(s, p), g)
  {
  }

  lemma StrandedFire(s: State, p: Step, g: nat)
    requires Sane(s) && Enabled(s, p) && Stranded(s, g) && (p.SetEvent? || p.FireGpi? || p.Finish?)
    ensures Stranded(Next(s, p), g)
  {
    if p.Finish? {
      var u := TopTask(s);
      var c, j := s.tasks[u].complete, s.tasks[u].join;
      var s1 := PopFrame(s);
      RunHandlesFrame(TakeHandles(s1, c), s1.triggers[c].callbacks);
      var s2 := React(s1, c);
      RunHandlesFrame(TakeHandles(s2, j), s2.triggers[j].callbacks);
    } else {
      var s1 := SetKind(s, p.trigger, if p.SetEvent? then Event(true) else Gpi(false));
      RunHandlesFrame(TakeHandles(s1, p.trigger), s1.triggers[p.trigger].callbacks);
    }
  }

  lemma StrandedYield(s: State, p: Step, g: nat)
    requires Sane(s) && Enabled(s, p) && Stranded(s, g) && (p.Yield? || p.YieldFails? || p.YieldOther?)
    ensures Stranded(Next(s, p), g)
  {
    if p.Yield? && TopTask(s) < |s.tasks| && s.tasks[TopTask(s)].mustCancel == 0 && s.triggers[p.trigger].Unused() {
      var s1 := AddHandle(PopFrame(s), TopTask(s), p.trigger);
      RunHandlesFrame(TakeHandles(s1, p.trigger), s1.triggers[p.trigger].callbacks);
    }
  }

  lemma StepKeepsStranded(s: State, p: Step, g: nat)
    requires Sane(s) && Enabled(s, p) && Stranded(s, g)
    ensures Stranded(Next(s, p), g)
  {
    if p.DoCancel? || p.DoCancelNow? {
      StrandedCancel(s, p, g);
    } else if p.SetEvent? || p.FireGpi? || p.Finish? {
      StrandedFire(s, p, g);
    } else if p.Yield? || p.YieldFails? || p.YieldOther? {
      StrandedYield(s, p, g);
    }
  }

  lemma {:induction false} StrandedIsForever(s: State, ps: seq<Step>, g: nat)
    requires Legal(s, ps) && Stranded(s, g)
    ensures Stranded(Exec(s, ps), g)
    decreases |ps|
  {
    if ps != [] {
      StepKeepsStranded(s, ps[0], g);
      StrandedIsForever(Next(s, ps[0]), ps[1..], g);
    }
  }

  lemma {:induction false} StrandedWaitersWait(s: State, ps: seq<Step>, g: nat, t: nat)
    requires Inv(s) && Legal(s, ps) && Stranded(s, g) && t < |s.tasks|
    requires s.tasks[t].status == Pending && s.tasks[t].trigger == g
    requires DoCancel(t) !in ps && DoCancelNow(t) !in ps
    ensures t < |Exec(s, ps).tasks| && Waits(Exec(s, ps).tasks[t], g, s.tasks[t].resumes)
    decreases |ps|
  {
    if ps != [] {
      StrandedDoesNotFire(s, ps[0], g);
      WaitingGoesOn(s, ps[0], t);
      StepKeepsInv(s, ps[0]);
      StepKeepsStranded(s, ps[0], g);
      StrandedWaitersWait(Next(s, ps[0]), ps[1..], g, t);
    }
  }

  lemma StrandedDoesNotFire(s: State, p: Step, g: nat)
    requires Inv(s) && Sane(s) && Enabled(s, p) && Stranded(s, g)
    ensures !Fires(s, p, g)
  {
    if p.Finish? { assert LinkOk(s, TopTask(s)); }
  }

  // When `_prime` raises, the Task that yielded the Trigger gets the exception, and the Trigger is
  // stranded;
  lemma FailedPrimeStrands(s: State, g: nat, e: Exn)
    requires Inv(s) && Sane(s) && Enabled(s, YieldFails(g, e)) && s.tasks[TopTask(s)].mustCancel == 0
    ensures var r := Next(s, YieldFails(g, e));
      Stranded(r, g) && r.tasks[TopTask(s)].status == Scheduled && r.tasks[TopTask(s)].exc == Some(e)
  {
  }

  // whoever yields it afterwards is PENDING on it for ever, unless it is cancelled.
  lemma LaterWaitersAreStranded(s: State, g: nat, ps: seq<Step>)
    requires Inv(s) && Sane(s) && Stranded(s, g) && Enabled(s, Yield(g)) && s.tasks[TopTask(s)].mustCancel == 0
    requires Legal(Next(s, Yield(g)), ps) && DoCancel(TopTask(s)) !in ps && DoCancelNow(TopTask(s)) !in ps
    ensures var t := TopTask(s); var r := Exec(Next(s, Yield(g)), ps);
      Stranded(r, g) && t < |r.tasks| && Waits(r.tasks[t], g, s.tasks[t].resumes)
  {
    StepKeepsInv(s, Yield(g));
    StepKeepsStranded(s, Yield(g), g);
    StrandedWaitersWait(Next(s, Yield(g)), ps, g, TopTask(s));
    StrandedIsForever(Next(s, Yield(g)), ps, g);
  }
}
