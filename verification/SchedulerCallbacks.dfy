/** Done-callbacks: how often each of them is called. */
module SchedulerCallbacks {
  import opened Wrappers
  import opened Scheduler
  import opened SchedulerInvariant
  import opened SchedulerSteps
  import opened SchedulerRuns

  ghost predicate TaskCallbacks(s: State, t: nat)
    requires t < |s.tasks|
  {
    forall k :: 0 <= k < |s.tasks[t].doneCallbacks| ==>
      var cb := s.tasks[t].doneCallbacks[k];
      && (!s.tasks[t].status.Done() ==> cb == Callback(0, false))
      && (s.tasks[t].status.Done() && !FinishingIn(s, t) && s.tasks[t].broken.None? ==>
            cb.ran == if cb.late then 2 else 1)
      && (s.tasks[t].broken.Some? ==>
            if k < s.tasks[t].broken.value then cb.ran == (if cb.late then 2 else 1) else cb.ran <= 1)
  }

  ghost predicate FrameCallbacks(s: State, i: nat)
    requires i < |s.frames| && s.frames[i].task < |s.tasks|
  {
    match s.frames[i]
    case Finishing(t, n) =>
      forall k :: 0 <= k < |s.tasks[t].doneCallbacks| ==>
        var cb := s.tasks[t].doneCallbacks[k];
        cb.ran == (if cb.late then 1 else 0) + (if k < n then 1 else 0)
    case Adding(t, late) => if late then FinishingAmong(s.frames[..i], t) else !FinishingIn(s, t)
    case _ => true
  }

  ghost predicate Called(s: State) {
    && (forall t :: 0 <= t < |s.tasks| ==> TaskCallbacks(s, t))
    && (forall i :: 0 <= i < |s.frames| ==> s.frames[i].task < |s.tasks| && FrameCallbacks(s, i))
  }

  // `r.frames` is `s.frames` but for the top frames `drop` removes and `push` adds.
  ghost predicate Restacked(s: State, r: State, drop: nat, push: seq<Frame>) {
    drop <= |s.frames| && r.frames == s.frames[..|s.frames| - drop] + push
  }

  lemma AmongAppend(fs: seq<Frame>, f: Frame, t: nat)
    ensures FinishingAmong(fs + [f], t) <==> FinishingAmong(fs, t) || (f.Finishing? && f.task == t)
  {
    assert (fs + [f])[|fs|] == f;
    if i :| 0 <= i < |fs| && fs[i].Finishing? && fs[i].task == t {
      assert (fs + [f])[i] == fs[i];
    }
  }

  // Who is finishing, after a change on top of the stack.
  lemma FinishingAfter(s: State, r: State, drop: nat, push: seq<Frame>)
    requires Restacked(s, r, drop, push) && drop <= 1 && |push| <= 1
    ensures forall t :: FinishingIn(r, t) <==>
      FinishingAmong(s.frames[..|s.frames| - drop], t) || (|push| == 1 && push[0].Finishing? && push[0].task == t)
    ensures forall t :: FinishingIn(s, t) <==>
      FinishingAmong(s.frames[..|s.frames| - drop], t) ||
        (drop == 1 && s.frames[|s.frames| - 1].Finishing? && TopTask(s) == t)
  {
    var base := s.frames[..|s.frames| - drop];
    assert push == [] ==> r.frames == base;
    assert |push| == 1 ==> r.frames == base + [push[0]];
    assert drop == 0 ==> s.frames == base;
    assert drop == 1 ==> s.frames == base + [s.frames[|s.frames| - 1]];
    forall t ensures FinishingIn(r, t) <==>
      FinishingAmong(base, t) || (|push| == 1 && push[0].Finishing? && push[0].task == t)
    {
      if |push| == 1 { AmongAppend(base, push[0], t); }
    }
    forall t ensures FinishingIn(s, t) <==>
      FinishingAmong(base, t) || (drop == 1 && s.frames[|s.frames| - 1].Finishing? && TopTask(s) == t)
    {
      if drop == 1 { AmongAppend(base, s.frames[|s.frames| - 1], t); }
    }
  }

  // Steps that leave the callbacks alone.
  lemma CallsUnseen(s: State, r: State, drop: nat, push: seq<Frame>)
    requires Called(s) && Stacked(s) && Stacked(r) && Restacked(s, r, drop, push) && drop <= 1 && |push| <= 1
    requires drop == 1 ==>
      TopTask(s) < |s.tasks| && (s.frames[|s.frames| - 1].Coro? || s.frames[|s.frames| - 1].Closing?)
    requires push == [] || (!push[0].Finishing? && !push[0].Adding?)
    requires |r.tasks| >= |s.tasks|
    requires forall t :: 0 <= t < |s.tasks| ==>
      && r.tasks[t].doneCallbacks == s.tasks[t].doneCallbacks &&
        (r.tasks[t].status.Done() <==> s.tasks[t].status.Done()) && r.tasks[t].broken == s.tasks[t].broken
    requires forall t :: |s.tasks| <= t < |r.tasks| ==> r.tasks[t].doneCallbacks == []
    ensures Called(r)
  {
    FinishingAfter(s, r, drop, push);
    forall t | 0 <= t < |r.tasks| ensures TaskCallbacks(r, t) {
      if t < |s.tasks| { assert TaskCallbacks(s, t); }
    }
    forall i | 0 <= i < |r.frames| ensures r.frames[i].task < |r.tasks| && FrameCallbacks(r, i) {
      assert FrameOk(r, r.frames[i]);
      if i < |s.frames| - drop {
        assert FrameCallbacks(s, i);
        assert r.frames[i] == s.frames[i] && r.frames[..i] == s.frames[..i];
      }
    }
  }

  lemma EndCalls(s: State, o: Outcome, status: Status)
    requires Inv(s) && Called(s) && |s.frames| > 0 &&
      (s.frames[|s.frames| - 1].Coro? || s.frames[|s.frames| - 1].Closing?)
    requires TopTask(s) < |s.tasks| && status.Done()
    ensures Called(SetOutcome(s, TopTask(s), o, status))
  {
    var t := TopTask(s);
    var r := SetOutcome(s, t, o, status);
    var n := |s.frames| - 1;
    assert FrameOk(s, s.frames[n]);
    FinishingAfter(s, r, 1, [Finishing(t, 0)]);
    forall u | 0 <= u < |r.tasks| ensures TaskCallbacks(r, u) {
      assert TaskCallbacks(s, u);
    }
    assert TaskCallbacks(s, t);
    forall i | 0 <= i < |r.frames| ensures r.frames[i].task < |r.tasks| && FrameCallbacks(r, i) {
      if i < n {
        assert FrameOk(s, s.frames[i]);
        assert FrameCallbacks(s, i);
        assert r.frames[i] == s.frames[i] && r.frames[..i] == s.frames[..i];
        assert s.frames[i].task != t;
      }
    }
  }

  lemma RunCallsOfTask(s: State, t: nat, n: nat)
    requires t < |s.tasks| && n < |s.tasks[t].doneCallbacks| && s.tasks[t].status.Done()
    requires forall k :: 0 <= k < |s.tasks[t].doneCallbacks| ==>
      var cb := s.tasks[t].doneCallbacks[k];
      cb.ran == (if cb.late then 1 else 0) + (if k < n then 1 else 0)
    ensures var cbs := s.tasks[t].doneCallbacks; var r := cbs[n := cbs[n].(ran := cbs[n].ran + 1)];
      forall k :: 0 <= k < |r| ==> r[k].ran == (if r[k].late then 1 else 0) + (if k < n + 1 then 1 else 0)
  {
  }

  lemma RunCalls(s: State)
    requires Inv(s) && Called(s) && Enabled(s, RunDoneCallback)
    ensures Called(StartDoneCallback(s))
  {
    var t := TopTask(s);
    var r := StartDoneCallback(s);
    var n := |s.frames| - 1;
    FinishingAfter(s, r, 1, [r.frames[n]]);
    assert FrameCallbacks(s, n) && FrameOk(s, s.frames[n]);
    RunCallsOfTask(s, t, s.frames[n].started);
    assert FinishingIn(r, t);
    forall u | 0 <= u < |r.tasks| ensures TaskCallbacks(r, u) {
      assert TaskCallbacks(s, u);
    }
    forall i | 0 <= i < |r.frames| ensures r.frames[i].task < |r.tasks| && FrameCallbacks(r, i) {
      if i < n { RunCallsBelow(s, i); }
    }
  }

  // The frames below are not affected.
  lemma RunCallsBelow(s: State, i: nat)
    requires Inv(s) && Called(s) && Enabled(s, RunDoneCallback) && i < |s.frames| - 1
    ensures var r := StartDoneCallback(s); r.frames[i].task < |r.tasks| && FrameCallbacks(r, i)
  {
    var r := StartDoneCallback(s);
    var n := |s.frames| - 1;
    assert FrameCallbacks(s, i);
    assert r.frames[i] == s.frames[i] && r.frames[..i] == s.frames[..i];
    assert s.frames[i].Finishing? ==> s.frames[i].task != TopTask(s);
    FinishingAfter(s, r, 1, [r.frames[n]]);
  }

  // Once they have all been called, each was called once; those added meanwhile, twice.
  lemma LeaveCalls(s: State)
    requires Inv(s) && Called(s) && Enabled(s, Finish)
    ensures Called(PopFrame(s)) && Stacked(PopFrame(s))
  {
    var t := TopTask(s);
    var r := PopFrame(s);
    var n := |s.frames| - 1;
    LeaveFinishing(s);
    OnceOnTheStack(s);
    forall u | 0 <= u < |r.tasks| ensures TaskCallbacks(r, u) {
      LeaveTask(s, u);
    }
    forall i | 0 <= i < |r.frames| ensures r.frames[i].task < |r.tasks| && FrameCallbacks(r, i) {
      LeaveCallsBelow(s, i);
    }
  }

  lemma LeaveTask(s: State, u: nat)
    requires Called(s) && Stacked(s) && Enabled(s, Finish) && u < |s.tasks|
    requires !FinishingAmong(s.frames[..|s.frames| - 1], TopTask(s))
    ensures TaskCallbacks(PopFrame(s), u)
  {
    var n := |s.frames| - 1;
    FinishingAfter(s, PopFrame(s), 1, []);
    assert FrameCallbacks(s, n) && FrameOk(s, s.frames[n]) && TaskCallbacks(s, u);
  }

  lemma OnceOnTheStack(s: State)
    requires Stacked(s) && |s.frames| > 0 && s.frames[|s.frames| - 1].Finishing?
    ensures !FinishingAmong(s.frames[..|s.frames| - 1], TopTask(s))
  {
    forall i | 0 <= i < |s.frames| - 1 && s.frames[i].Finishing? ensures s.frames[i].task != TopTask(s) {
    }
  }

  lemma LeaveCallsBelow(s: State, i: nat)
    requires Called(s) && Enabled(s, Finish) && i < |s.frames| - 1 && Stacked(s)
    ensures var r := PopFrame(s); r.frames[i].task < |r.tasks| && FrameCallbacks(r, i)
  {
    var r := PopFrame(s);
    FinishingAfter(s, r, 1, []);
    assert FrameCallbacks(s, i);
    assert r.frames[i] == s.frames[i] && r.frames[..i] == s.frames[..i];
  }

  lemma FinishKeepsCallbacks(s: State, t: nat)
    requires Inv(s) && Enabled(s, Finish) && t < |s.tasks|
    ensures Sane(s) && t < |Next(s, Finish).tasks|
    ensures Next(s, Finish).tasks[t].doneCallbacks == s.tasks[t].doneCallbacks
    ensures Next(s, Finish).tasks[t].status.Done() <==> s.tasks[t].status.Done()
    ensures Next(s, Finish).tasks[t].broken == s.tasks[t].broken
  {
    FinishMoves(s, t);
  }

  lemma FinishCalls(s: State)
    requires Inv(s) && Called(s) && Enabled(s, Finish)
    ensures Sane(s) && Called(Next(s, Finish))
  {
    StepKeepsInv(s, Finish);
    LeaveCalls(s);
    FinishFrames(s);
    var r := Next(s, Finish);
    forall t | 0 <= t < |s.tasks|
      ensures r.tasks[t].doneCallbacks == s.tasks[t].doneCallbacks &&
        (r.tasks[t].status.Done() <==> s.tasks[t].status.Done()) && r.tasks[t].broken == s.tasks[t].broken
    {
      FinishKeepsCallbacks(s, t);
    }
    Unpopped(PopFrame(s), r);
    CallsUnseen(PopFrame(s), r, 0, []);
  }

  lemma Unpopped(s: State, r: State)
    requires r.frames == s.frames
    ensures Restacked(s, r, 0, [])
  {
  }

  lemma FinishFrames(s: State)
    requires Inv(s) && Enabled(s, Finish)
    ensures Sane(s) && Next(s, Finish).frames == PopFrame(s).frames && |Next(s, Finish).tasks| == |s.tasks|
  {
    InvIsSane(s, {});
    LeaveFinishing(s);
    var t := TopTask(s);
    var c, j := s.tasks[t].complete, s.tasks[t].join;
    assert LinkOk(s, t);
    ReactKeepsInv(PopFrame(s), {c, j}, c);
    ReactEffect(PopFrame(s), {c, j}, c);
    ReactEffect(React(PopFrame(s), c), {c, j} - {c}, j);
  }

  // A done-callback raises: those that were started have been called, and the others not any more.
  lemma BreakCalls(s: State)
    requires Inv(s) && Called(s) && Enabled(s, CallbackRaises)
    ensures Called(BreakOff(s))
  {
    var r := BreakOff(s);
    forall u | 0 <= u < |r.tasks| ensures TaskCallbacks(r, u) {
      BreakTask(s, u);
    }
    forall i | 0 <= i < |r.frames| ensures r.frames[i].task < |r.tasks| && FrameCallbacks(r, i) {
      BreakFrame(s, i);
    }
  }

  lemma BreakTask(s: State, u: nat)
    requires Inv(s) && Called(s) && Enabled(s, CallbackRaises) && u < |s.tasks|
    ensures TaskCallbacks(BreakOff(s), u)
  {
    var n := |s.frames| - 1;
    FinishingAfter(s, BreakOff(s), 1, []);
    assert FrameCallbacks(s, n) && FrameOk(s, s.frames[n]) && TaskCallbacks(s, u);
  }

  lemma BreakFrame(s: State, i: nat)
    requires Inv(s) && Called(s) && Enabled(s, CallbackRaises) && i < |s.frames| - 1
    ensures var r := BreakOff(s); r.frames[i].task < |r.tasks| && FrameCallbacks(r, i)
  {
    var r := BreakOff(s);
    FinishingAfter(s, r, 1, []);
    assert FrameCallbacks(s, i);
    assert r.frames[i] == s.frames[i] && r.frames[..i] == s.frames[..i];
  }

  lemma AddCalls(s: State, t: nat)
    requires Inv(s) && Called(s) && t < |s.tasks|
    ensures Called(AddCallback(s, t))
  {
    var r := AddCallback(s, t);
    var push := if s.tasks[t].status.Done() then [Adding(t, FinishingIn(s, t))] else [];
    FinishingAfter(s, r, 0, push);
    forall u | 0 <= u < |r.tasks| ensures TaskCallbacks(r, u) {
      assert TaskCallbacks(s, u);
    }
    forall i | 0 <= i < |r.frames| ensures r.frames[i].task < |r.tasks| && FrameCallbacks(r, i) {
      if i < |s.frames| {
        assert FrameOk(s, s.frames[i]);
        assert FrameCallbacks(s, i);
        assert r.frames[i] == s.frames[i] && r.frames[..i] == s.frames[..i];
      }
    }
  }

  lemma AddedCalls(s: State)
    requires Inv(s) && Called(s) && Enabled(s, Added) && TopTask(s) < |s.tasks|
    ensures Called(AppendCallback(s))
  {
    var t := TopTask(s);
    var r := AppendCallback(s);
    var n := |s.frames| - 1;
    FinishingAfter(s, r, 1, []);
    assert FrameCallbacks(s, n) && FrameOk(s, s.frames[n]);
    forall u | 0 <= u < |r.tasks| ensures TaskCallbacks(r, u) {
      assert TaskCallbacks(s, u);
    }
    forall i | 0 <= i < |r.frames| ensures r.frames[i].task < |r.tasks| && FrameCallbacks(r, i) {
      AddedCallsBelow(s, i);
    }
  }

  lemma AddedCallsBelow(s: State, i: nat)
    requires Inv(s) && Called(s) && Enabled(s, Added) && TopTask(s) < |s.tasks| && i < |s.frames| - 1
    ensures var r := AppendCallback(s); r.frames[i].task < |r.tasks| && FrameCallbacks(r, i)
  {
    var t := TopTask(s);
    var r := AppendCallback(s);
    var n := |s.frames| - 1;
    FinishingAfter(s, r, 1, []);
    assert FrameCallbacks(s, n) && FrameOk(s, s.frames[i]);
    assert FrameCallbacks(s, i);
    assert r.frames[i] == s.frames[i] && r.frames[..i] == s.frames[..i];
    if s.frames[i].Finishing? && s.frames[i].task == t {
      assert s.frames[..n][i] == s.frames[i];
      assert FinishingAmong(s.frames[..n], t);
    }
  }

  // Steps that leave the stack alone, and those that resume or end a wait.
  lemma SimpleStack(s: State, p: Step)
    requires Sane(s) && Enabled(s, p)
    requires p.NewTask? || p.NewTrigger? || p.StartSoon? || p.StartNext? || p.DoUncancel? || p.ClearEvent?
    ensures Restacked(s, Next(s, p), 0, [])
  {
  }

  lemma PopStack(s: State) returns (push: seq<Frame>)
    requires Sane(s) && Enabled(s, Pop)
    ensures Restacked(s, Next(s, Pop), 0, push)
    ensures push == [] || push == [Coro(s.loop[0].task)]
  {
    push := if s.loop[0].cancelled then [] else [Coro(s.loop[0].task)];
  }

  lemma YieldOtherStack(s: State, p: Step) returns (push: seq<Frame>)
    requires Sane(s) && Enabled(s, p) && (p.YieldOther? || p.YieldFails?) && TopTask(s) < |s.tasks|
    ensures Restacked(s, Next(s, p), 1, push)
    ensures push == [] || push == [Closing(TopTask(s))]
  {
    push := if s.tasks[TopTask(s)].mustCancel > 0 then [Closing(TopTask(s))] else [];
  }

  lemma FireStack(s: State, p: Step)
    requires Inv(s) && Enabled(s, p) && (p.SetEvent? || p.FireGpi?)
    ensures Sane(s) && Restacked(s, Next(s, p), 0, [])
  {
    InvIsSane(s, {});
    var k := if p.SetEvent? then Event(true) else Gpi(false);
    SetKindKeepsInv(s, p.trigger, k);
    ReactEffect(SetKind(s, p.trigger, k), {p.trigger}, p.trigger);
  }

  lemma CancelFrames(s: State, p: Step)
    requires Sane(s) && Enabled(s, p) && (p.DoCancel? || p.DoCancelNow?)
    requires s.tasks[p.task].status == Pending ==> Deregister(s, p.task).Ok?
    ensures Next(s, p).frames == s.frames || Next(s, p).frames == s.frames + [Coro(p.task)]
  {
  }

  lemma CancelKeepsFrames(s: State, p: Step)
    requires Inv(s) && Enabled(s, p) && (p.DoCancel? || p.DoCancelNow?)
    ensures Sane(s) && (Next(s, p).frames == s.frames || Next(s, p).frames == s.frames + [Coro(p.task)])
  {
    InvIsSane(s, {});
    if s.tasks[p.task].status == Pending {
      DeregisterMoves(s, p.task);
    }
    CancelFrames(s, p);
  }

  lemma Pushed(s: State, r: State, f: Frame)
    requires r.frames == s.frames + [f]
    ensures Restacked(s, r, 0, [f])
  {
  }

  lemma CancelStack(s: State, p: Step) returns (push: seq<Frame>)
    requires Inv(s) && Enabled(s, p) && (p.DoCancel? || p.DoCancelNow?)
    ensures Sane(s) && Restacked(s, Next(s, p), 0, push)
    ensures push == [] || push == [Coro(p.task)]
  {
    CancelKeepsFrames(s, p);
    var r := Next(s, p);
    push := if r.frames == s.frames then [] else [Coro(p.task)];
    if r.frames == s.frames { Unpopped(s, r); } else { Pushed(s, r, Coro(p.task)); }
  }

  lemma YieldStack(s: State, g: nat) returns (push: seq<Frame>)
    requires Inv(s) && Enabled(s, Yield(g))
    ensures Sane(s) && TopTask(s) < |s.tasks| && Restacked(s, Next(s, Yield(g)), 1, push)
    ensures push == [] || push == [Closing(TopTask(s))]
  {
    InvIsSane(s, {});
    TopOfInv(s);
    YieldFrames(s, g);
    push := if s.tasks[TopTask(s)].mustCancel > 0 then [Closing(TopTask(s))] else [];
  }

  lemma YieldFrames(s: State, g: nat)
    requires Sane(s) && Enabled(s, Yield(g)) && TopTask(s) < |s.tasks|
    ensures EndYield(s, Some(g)).frames ==
      s.frames[..|s.frames| - 1] + if s.tasks[TopTask(s)].mustCancel > 0 then [Closing(TopTask(s))] else []
  {
    var s1 := AddHandle(PopFrame(s), TopTask(s), g);
    RunHandlesFrame(TakeHandles(s1, g), s1.triggers[g].callbacks);
  }

  // What the remaining steps have in common.
  lemma CallsAfter(s: State, p: Step, drop: nat, push: seq<Frame>)
    requires Inv(s) && Called(s) && Enabled(s, p) && !Ends(p) && !TouchesCallbacks(p) && !p.CallbackRaises?
    requires Sane(s) && Restacked(s, Next(s, p), drop, push) && drop <= 1 && |push| <= 1
    requires drop == 1 ==> TopTask(s) < |s.tasks| && s.frames[|s.frames| - 1].Coro?
    requires push == [] || (!push[0].Finishing? && !push[0].Adding?)
    ensures Called(Next(s, p))
  {
    var r := Next(s, p);
    StepKeepsInv(s, p);
    TaskCount(s, p);
    forall t | 0 <= t < |s.tasks|
      ensures r.tasks[t].doneCallbacks == s.tasks[t].doneCallbacks &&
        (r.tasks[t].status.Done() <==> s.tasks[t].status.Done()) && r.tasks[t].broken == s.tasks[t].broken
    {
      StepMoves(s, p, t);
    }
    CallsUnseen(s, r, drop, push);
  }

  lemma ApiCalls(s: State, p: Step)
    requires Inv(s) && Called(s) && Enabled(s, p) && !Ends(p) && !TouchesCallbacks(p)
    requires !p.Finish? && !p.Pop? && !p.Yield? && !p.YieldFails? && !p.YieldOther? && !p.CallbackRaises?
    ensures Sane(s) && Called(Next(s, p))
  {
    InvIsSane(s, {});
    if p.SetEvent? || p.FireGpi? {
      FireStack(s, p);
      CallsAfter(s, p, 0, []);
    } else if p.DoCancel? || p.DoCancelNow? {
      var push := CancelStack(s, p);
      CallsAfter(s, p, 0, push);
    } else {
      SimpleStack(s, p);
      CallsAfter(s, p, 0, []);
    }
  }

  lemma PopCalls(s: State)
    requires Inv(s) && Called(s) && Enabled(s, Pop)
    ensures Sane(s) && Called(Next(s, Pop))
  {
    InvIsSane(s, {});
    var push := PopStack(s);
    CallsAfter(s, Pop, 0, push);
  }

  lemma YieldCalls(s: State, p: Step)
    requires Inv(s) && Called(s) && Enabled(s, p) && (p.Yield? || p.YieldFails? || p.YieldOther?)
    ensures Sane(s) && Called(Next(s, p))
  {
    InvIsSane(s, {});
    TopOfInv(s);
    var push;
    if p.Yield? {
      push := YieldStack(s, p.trigger);
    } else {
      push := YieldOtherStack(s, p);
    }
    CallsAfter(s, p, 1, push);
  }

  lemma TaskCount(s: State, p: Step)
    requires Sane(s) && Enabled(s, p)
    ensures |Next(s, p).tasks| == |s.tasks| || (p.NewTask? && Next(s, p) == CreateTask(s))
  {
    if IsCall(p) {
      CallTaskCount(s, p);
    } else {
      ProceedTaskCount(s, p);
    }
  }

  lemma CallTaskCount(s: State, p: Step)
    requires Sane(s) && Enabled(s, p) && IsCall(p)
    ensures |Next(s, p).tasks| == |s.tasks| || (p.NewTask? && Next(s, p) == CreateTask(s))
  {
  }

  lemma ProceedTaskCount(s: State, p: Step)
    requires Sane(s) && Enabled(s, p) && !IsCall(p)
    ensures |Next(s, p).tasks| == |s.tasks|
  {
  }

  lemma EndStepCalls(s: State, p: Step)
    requires Inv(s) && Called(s) && Enabled(s, p) && Ends(p)
    ensures Sane(s) && Called(Next(s, p))
  {
    InvIsSane(s, {});
    TopOfInv(s);
    var task := Next(s, p).tasks[TopTask(s)];
    EndCalls(s, task.outcome.value, task.status);
  }

  lemma TouchCalls(s: State, p: Step)
    requires Inv(s) && Called(s) && Enabled(s, p) && TouchesCallbacks(p)
    ensures Sane(s) && Called(Next(s, p))
  {
    InvIsSane(s, {});
    match p
    case AddDoneCallback(t) => AddCalls(s, t);
    case RunDoneCallback => RunCalls(s);
    case Added =>
      TopOfInv(s);
      AddedCalls(s);
  }

  lemma StepCalls(s: State, p: Step)
    requires Inv(s) && Called(s) && Enabled(s, p)
    ensures Sane(s) && Called(Next(s, p))
  {
    if Ends(p) {
      EndStepCalls(s, p);
    } else if TouchesCallbacks(p) {
      TouchCalls(s, p);
    } else if p.Finish? {
      FinishCalls(s);
    } else if p.Pop? {
      PopCalls(s);
    } else if p.Yield? || p.YieldFails? || p.YieldOther? {
      YieldCalls(s, p);
    } else if p.CallbackRaises? {
      InvIsSane(s, {});
      BreakCalls(s);
    } else {
      ApiCalls(s, p);
    }
  }

  lemma {:induction false} RunKeepsCalled(s: State, ps: seq<Step>)
    requires Inv(s) && Called(s) && Legal(s, ps)
    ensures Inv(Exec(s, ps)) && Called(Exec(s, ps))
    decreases |ps|
  {
    if ps != [] {
      StepKeepsInv(s, ps[0]);
      StepCalls(s, ps[0]);
      RunKeepsCalled(Next(s, ps[0]), ps[1..]);
    }
  }

  // Once a Task has completed, each of its done-callbacks has run exactly once if and only if it
  // was not added while the Task was running its done-callbacks; those ran twice.
  lemma EachCallbackRunsOnce(ps: seq<Step>, t: nat, k: nat)
    requires Legal(Initial, ps) && t < |Exec(Initial, ps).tasks| && k < |Exec(Initial, ps).tasks[t].doneCallbacks|
    requires var s := Exec(Initial, ps); s.tasks[t].status.Done() && !FinishingIn(s, t)
    ensures var task := Exec(Initial, ps).tasks[t];
      var cb := task.doneCallbacks[k];
      if task.broken.None? || k < task.broken.value then (cb.ran == 1 <==> !cb.late) && (cb.ran == 2 <==> cb.late)
      else cb.ran <= 1
  {
    RunKeepsCalled(Initial, ps);
    assert TaskCallbacks(Exec(Initial, ps), t);
  }

  // ----- A late done-callback -----

  // Such a callback is added in this run: a Task returns, and its first done-callback adds another.
  const LateSteps: seq<Step> :=
    [NewTask, AddDoneCallback(0), StartSoon(0), Pop, Return(7), RunDoneCallback, AddDoneCallback(0), Added,
     RunDoneCallback, Finish]

  // The state before its i-th step.
  function Late(i: nat): State
    requires i <= 10
  {
    if i == 0 then Initial
    else
      var cbs := if i == 1 then []
                 else if i <= 5 then [Callback(0, false)]
                 else if i <= 7 then [Callback(1, false)]
                 else [Callback(1, false), Callback(if i == 8 then 1 else 2, true)];
      var status := if i <= 2 then Unstarted else if i == 3 then Scheduled else if i == 4 then Running else Finished;
      var frames := if i <= 3 then [] else if i == 4 then [Coro(0)] else if i == 5 then [Finishing(0, 0)]
                    else if i == 7 then [Finishing(0, 1), Adding(0, true)]
                    else if i <= 8 then [Finishing(0, 1)] else if i == 9 then [Finishing(0, 2)] else [];
      State([Task(status, None, 0, if i <= 4 then None else Some(Value(7)), 0, 0, 0, 0, 1, cbs,
                  if i <= 3 then 0 else 1, None)],
            [Trigger(Complete(0), [], []), Trigger(Complete(0), [], [])],
            if i == 3 then [Entry(0, 0, false)] else [], frames, if i <= 2 then 0 else 1)
  }

  lemma LateStarts(i: nat)
    requires i in {0, 2}
    ensures Sane(Late(i)) && Enabled(Late(i), LateSteps[i]) && Next(Late(i), LateSteps[i]) == Late(i + 1)
  {
    var r := Next(Late(i), LateSteps[i]);
    assert r.tasks == Late(i + 1).tasks && r.loop == Late(i + 1).loop;
  }

  lemma LateAdds(i: nat)
    requires i in {1, 6}
    ensures Sane(Late(i)) && Enabled(Late(i), LateSteps[i]) && Next(Late(i), LateSteps[i]) == Late(i + 1)
  {
    var r := AddCallback(Late(i), 0);
    if i == 1 {
      assert r.tasks[0].doneCallbacks == [Callback(0, false)];
      assert r.tasks == Late(2).tasks;
    } else {
      assert Late(6).frames[0] == Finishing(0, 1);
      assert r.frames == Late(7).frames;
    }
  }

  lemma LateEnds(i: nat)
    requires i in {3, 4, 9}
    ensures Sane(Late(i)) && Enabled(Late(i), LateSteps[i]) && Next(Late(i), LateSteps[i]) == Late(i + 1)
  {
    var r := Next(Late(i), LateSteps[i]);
    assert r.tasks == Late(i + 1).tasks && r.frames == Late(i + 1).frames;
    assert r.triggers == Late(i + 1).triggers && r.loop == Late(i + 1).loop;
  }

  lemma LateCallbacks(i: nat)
    requires i in {5, 7, 8}
    ensures Sane(Late(i)) && Enabled(Late(i), LateSteps[i]) && Next(Late(i), LateSteps[i]) == Late(i + 1)
  {
    var r := Next(Late(i), LateSteps[i]);
    assert r.tasks[0].doneCallbacks == Late(i + 1).tasks[0].doneCallbacks;
    assert r.tasks == Late(i + 1).tasks && r.frames == Late(i + 1).frames;
  }

  lemma {:induction false} LateRun(i: nat)
    requires i <= 10
    ensures Legal(Late(i), LateSteps[i..]) && Exec(Late(i), LateSteps[i..]) == Late(10)
    decreases 10 - i
  {
    if i < 10 {
      if i in {0, 2} { LateStarts(i); }
      if i in {1, 6} { LateAdds(i); }
      if i in {3, 4, 9} { LateEnds(i); }
      if i in {5, 7, 8} { LateCallbacks(i); }
      LateRun(i + 1);
      assert LateSteps[i..][1..] == LateSteps[i + 1..];
    }
  }

  lemma ALateCallbackRunsTwice()
    ensures Legal(Initial, LateSteps)
    ensures var s := Exec(Initial, LateSteps);
      && |s.tasks| == 1 && s.tasks[0].status == Finished && s.frames == []
      && s.tasks[0].doneCallbacks == [Callback(1, false), Callback(2, true)]
  {
    LateRun(0);
    assert LateSteps[0..] == LateSteps;
  }
}
