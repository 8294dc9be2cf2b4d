/**
 What each step does to the loop, to the stack and to the Triggers, and so in which order Tasks are run
 and woken.
 */
module SchedulerEffects {
  import opened Wrappers
  import opened Sequences
  import opened Scheduler
  import opened SchedulerInvariant
  import opened SchedulerSteps
  import opened SchedulerRuns

  // ----- The loop -----

  function TasksOf(hs: seq<Handle>): (r: seq<nat>)
    ensures |r| == |hs| && forall i :: 0 <= i < |hs| ==> r[i] == hs[i].task
  {
    seq(|hs|, i requires 0 <= i < |hs| => hs[i].task)
  }

  // A Trigger that fires as soon as it is yielded.
  predicate FiresAtOnce(s: State, g: nat)
    requires g < |s.triggers|
  {
    s.triggers[g].Unused() &&
    match s.triggers[g].kind
    case Event(fired) => fired
    case Null => true
    case Complete(t) => t < |s.tasks| && s.tasks[t].status.Done()
    case Gpi(_) => false
  }

  predicate Waiting(s: State) {
    |s.frames| > 0 && TopTask(s) < |s.tasks| && s.tasks[TopTask(s)].mustCancel == 0
  }

  // The Tasks that a step puts at the end of the loop, in order.
  function Woken(s: State, p: Step): seq<nat>
    requires Sane(s) && Enabled(s, p)
  {
    match p
    case StartSoon(t) => if s.tasks[t].status.Unstarted? then [t] else []
    case DoCancel(t) => if s.tasks[t].status in {Pending, Unstarted} then [t] else []
    case SetEvent(g) => TasksOf(s.triggers[g].callbacks)
    case FireGpi(g) => TasksOf(s.triggers[g].callbacks)
    case Finish =>
      TasksOf(s.triggers[s.tasks[TopTask(s)].complete].callbacks) +
      TasksOf(s.triggers[s.tasks[TopTask(s)].join].callbacks)
    case Yield(g) => if Waiting(s) && FiresAtOnce(s, g) then [TopTask(s)] else []
    case YieldFails(_, _) => if Waiting(s) then [TopTask(s)] else []
    case YieldOther => if Waiting(s) then [TopTask(s)] else []
    case _ => []
  }

  ghost predicate Appends(a: seq<Entry>, b: seq<Entry>, ts: seq<nat>) {
    && |b| == |a| + |ts| && a <= b
    && forall i :: 0 <= i < |ts| ==> b[|a| + i].task == ts[i] && !b[|a| + i].cancelled
  }

  // The loop takes its first entry; `_start_next` puts one in front, `_cancel_now` marks that of its Task, and
  // whatever else is scheduled goes to the end.
  ghost predicate LoopGoes(s: State, p: Step, r: State)
    requires Sane(s) && Enabled(s, p)
  {
    match p
    case Pop => r.loop == s.loop[1..]
    case StartNext(t) =>
      if s.tasks[t].status.Unstarted?
      then r.loop != [] && r.loop[1..] == s.loop && r.loop[0].task == t && !r.loop[0].cancelled
      else r.loop == s.loop
    case DoCancelNow(t) =>
      && |r.loop| == |s.loop|
      && forall i :: 0 <= i < |s.loop| ==>
           r.loop[i] == if s.loop[i].task == t then s.loop[i].(cancelled := true) else s.loop[i]
    case _ => Appends(s.loop, r.loop, Woken(s, p))
  }

  // ----- The stack -----

  function Below(s: State): seq<Frame> {
    if s.frames == [] then [] else s.frames[..|s.frames| - 1]
  }

  // Coroutines and done-callbacks are entered on top of what is executing, and only what is on top ends.
  ghost predicate StackGoes(s: State, p: Step, r: State)
    requires Sane(s) && Enabled(s, p)
  {
    match p
    case Pop => r.frames == s.frames + if s.loop[0].cancelled then [] else [Coro(s.loop[0].task)]
    case DoCancelNow(t) =>
      r.frames == s.frames + if s.tasks[t].status.Done() || s.tasks[t].status == Running then [] else [Coro(t)]
    case AddDoneCallback(t) =>
      r.frames == s.frames + if s.tasks[t].status.Done() then [Adding(t, FinishingIn(s, t))] else []
    case Return(_) => r.frames == Below(s) + [Finishing(TopTask(s), 0)]
    case Raise(_) => r.frames == Below(s) + [Finishing(TopTask(s), 0)]
    case Closed => r.frames == Below(s) + [Finishing(TopTask(s), 0)]
    case RunDoneCallback => r.frames == Below(s) + [Finishing(TopTask(s), s.frames[|s.frames| - 1].started + 1)]
    case Yield(_) => r.frames == Below(s) + if Waiting(s) then [] else [Closing(TopTask(s))]
    case YieldFails(_, _) => r.frames == Below(s) + if Waiting(s) then [] else [Closing(TopTask(s))]
    case YieldOther => r.frames == Below(s) + if Waiting(s) then [] else [Closing(TopTask(s))]
    case Finish => r.frames == Below(s)
    case Added => r.frames == Below(s)
    case CallbackRaises => r.frames == Below(s)
    case _ => r.frames == s.frames
  }

  // ----- The Triggers -----

  // Does this step take Task `t` out of the Trigger on which it waits?
  predicate Withdraws(s: State, p: Step, t: nat) {
    t < |s.tasks| && s.tasks[t].status == Pending && p in {DoCancel(t), DoCancelNow(t)}
  }

  // A new handle goes to the end of the dict, and a cancelled one out of it; a Trigger that fires is left empty.
  // An Event remembers whether it was set or cleared last.
  ghost predicate TriggerGoes(s: State, p: Step, g: nat, a: Trigger, b: Trigger)
    requires Sane(s) && Enabled(s, p)
  {
    && (a.kind.Event? ==> b.kind == Event(p == SetEvent(g) || (a.kind.fired && p != ClearEvent(g))))
    && (if a.kind.Gpi? then b.kind.Gpi? else a.kind.Event? || b.kind == a.kind)
    && b.callbacks ==
       if Fires(s, p, g) then []
       else match p
         case DoCancel(t) =>
           if Withdraws(s, p, t) && s.tasks[t].trigger == g
           then Without(a.callbacks, Handle(s.tasks[t].handle, t)) else a.callbacks
         case DoCancelNow(t) =>
           if Withdraws(s, p, t) && s.tasks[t].trigger == g
           then Without(a.callbacks, Handle(s.tasks[t].handle, t)) else a.callbacks
         case Yield(h) =>
           if h == g && Waiting(s) && !FiresAtOnce(s, g) then a.callbacks + [Handle(s.next, TopTask(s))]
           else a.callbacks
         case _ => a.callbacks
  }

  ghost predicate TriggersGo(s: State, p: Step, r: State)
    requires Sane(s) && Enabled(s, p)
  {
    && |s.triggers| <= |r.triggers| && s.next <= r.next
    && (p.Yield? && Waiting(s) ==> s.next < r.next)
    && (forall g :: |s.triggers| <= g < |r.triggers| ==> r.triggers[g].Unused())
    && forall g :: 0 <= g < |s.triggers| ==> TriggerGoes(s, p, g, s.triggers[g], r.triggers[g])
  }

  ghost predicate Goes(s: State, p: Step, r: State)
    requires Sane(s) && Enabled(s, p)
  {
    LoopGoes(s, p, r) && StackGoes(s, p, r) && TriggersGo(s, p, r)
  }

  // ----- Each step -----

  lemma CallGoes(s: State, p: Step)
    requires Sane(s) && Enabled(s, p)
    requires p.NewTask? || p.NewTrigger? || p.StartSoon? || p.StartNext? || p.DoUncancel? || p.ClearEvent? ||
             p.AddDoneCallback?
    ensures Goes(s, p, Next(s, p))
  {
  }

  lemma FrameGoes(s: State, p: Step)
    requires Sane(s) && Enabled(s, p)
    requires p.Return? || p.Raise? || p.Closed? || p.RunDoneCallback? || p.Added? || p.CallbackRaises?
    ensures Goes(s, p, Next(s, p))
  {
    assert forall g :: 0 <= g < |s.triggers| ==> Next(s, p).triggers[g] == s.triggers[g];
  }

  lemma PopGoes(s: State)
    requires Sane(s) && Enabled(s, Pop)
    ensures Goes(s, Pop, Next(s, Pop))
  {
  }

  lemma RetryGoes(s: State, p: Step)
    requires Sane(s) && Enabled(s, p) && (p.YieldOther? || p.YieldFails?)
    ensures Goes(s, p, Next(s, p))
  {
  }

  lemma ReactGoes(s: State, gs: set<nat>, g: nat)
    requires InvBut(s, gs) && g < |s.triggers|
    ensures HandlesOk(s, s.triggers[g].callbacks)
    ensures var r := React(s, g);
      && r.frames == s.frames && r.next >= s.next && |r.triggers| == |s.triggers| && |r.tasks| == |s.tasks|
      && r.triggers == s.triggers[g := s.triggers[g].(callbacks := [])]
      && Appends(s.loop, r.loop, TasksOf(s.triggers[g].callbacks))
  {
    ReactEffect(s, gs, g);
    RunHandlesFrame(TakeHandles(s, g), s.triggers[g].callbacks);
  }

  lemma FireIs(s: State, p: Step)
    requires Inv(s) && Enabled(s, p) && (p.SetEvent? || p.FireGpi?)
    ensures Sane(s)
    ensures var r, k := Next(s, p), if p.SetEvent? then Event(true) else Gpi(false);
      && r.frames == s.frames && r.next >= s.next
      && r.triggers == s.triggers[p.trigger := Trigger(k, [], s.triggers[p.trigger].stale)]
      && Appends(s.loop, r.loop, TasksOf(s.triggers[p.trigger].callbacks))
  {
    InvIsSane(s, {});
    var k := if p.SetEvent? then Event(true) else Gpi(false);
    SetKindKeepsInv(s, p.trigger, k);
    ReactGoes(SetKind(s, p.trigger, k), {p.trigger}, p.trigger);
  }

  lemma FireGoes(s: State, p: Step)
    requires Inv(s) && Enabled(s, p) && (p.SetEvent? || p.FireGpi?)
    ensures Sane(s) && Goes(s, p, Next(s, p))
  {
    FireIs(s, p);
    FiredGoes(s, p, Next(s, p));
  }

  lemma FiredGoes(s: State, p: Step, r: State)
    requires Sane(s) && Enabled(s, p) && (p.SetEvent? || p.FireGpi?)
    requires r.frames == s.frames && r.next >= s.next
    requires var k := if p.SetEvent? then Event(true) else Gpi(false);
      r.triggers == s.triggers[p.trigger := Trigger(k, [], s.triggers[p.trigger].stale)]
    requires Appends(s.loop, r.loop, TasksOf(s.triggers[p.trigger].callbacks))
    ensures Goes(s, p, r)
  {
  }

  lemma FinishGoes(s: State)
    requires Inv(s) && Enabled(s, Finish)
    ensures Sane(s) && Goes(s, Finish, Next(s, Finish))
  {
    InvIsSane(s, {});
    LeaveFinishing(s);
    var u := TopTask(s);
    var c, j := s.tasks[u].complete, s.tasks[u].join;
    var s1 := PopFrame(s);
    assert LinkOk(s, u);
    ReactGoes(s1, {c, j}, c);
    ReactKeepsInv(s1, {c, j}, c);
    ReactGoes(React(s1, c), {c, j} - {c}, j);
    CompletionGoes(s, React(s1, c), Next(s, Finish));
  }

  lemma CompletionGoes(s: State, s2: State, r: State)
    requires Sane(s) && Enabled(s, Finish)
    requires var t := s.tasks[TopTask(s)];
      && s.triggers[t.complete].kind.Complete? && s.triggers[t.join].kind.Complete? && t.complete != t.join
      && s2.triggers == s.triggers[t.complete := s.triggers[t.complete].(callbacks := [])]
      && Appends(s.loop, s2.loop, TasksOf(s.triggers[t.complete].callbacks))
      && r.triggers == s2.triggers[t.join := s2.triggers[t.join].(callbacks := [])]
      && Appends(s2.loop, r.loop, TasksOf(s.triggers[t.join].callbacks))
    requires s.next <= s2.next <= r.next && r.frames == s2.frames == PopFrame(s).frames
    ensures Goes(s, Finish, r)
  {
  }

  lemma YieldGoes(s: State, g: nat)
    requires Inv(s) && Enabled(s, Yield(g))
    ensures Sane(s) && Goes(s, Yield(g), Next(s, Yield(g)))
  {
    TopIsSane(s);
    if Waiting(s) && s.triggers[g].Unused() {
      WaitIsPrime(s, g);
      if FiresAtOnce(s, g) {
        FiredAtOnce(s, g);
        AtOnceGoes(s, g, EndYield(s, Some(g)));
      } else {
        LaterGoes(s, g);
      }
    } else {
      RegisterGoes(s, g);
    }
  }

  lemma TopIsSane(s: State)
    requires Inv(s) && TopCoro(s)
    ensures Sane(s) && TopTask(s) < |s.tasks|
  {
    InvIsSane(s, {});
    TopOfInv(s);
  }

  lemma RegisterGoes(s: State, g: nat)
    requires Sane(s) && Enabled(s, Yield(g)) && TopTask(s) < |s.tasks| && !(Waiting(s) && s.triggers[g].Unused())
    ensures Goes(s, Yield(g), EndYield(s, Some(g)))
  {
  }

  lemma FiredAtOnce(s: State, g: nat)
    requires Inv(s) && Sane(s) && Enabled(s, Yield(g)) && TopTask(s) < |s.tasks| && Waiting(s) && FiresAtOnce(s, g)
    ensures var r := EndYield(s, Some(g));
      && s.next < r.next && r.frames == PopFrame(s).frames && |r.triggers| == |s.triggers|
      && (forall h :: 0 <= h < |s.triggers| ==>
            r.triggers[h] == if h == g then s.triggers[h].(callbacks := []) else s.triggers[h])
      && Appends(s.loop, r.loop, [TopTask(s)])
  {
    var s1 := HandleAdded(s, g);
    ReactGoes(s1, {g}, g);
    assert TasksOf([Handle(s.next, TopTask(s))]) == [TopTask(s)];
  }

  lemma HandleAdded(s: State, g: nat) returns (s1: State)
    requires Inv(s) && Sane(s) && Enabled(s, Yield(g)) && TopTask(s) < |s.tasks| && Waiting(s) && FiresAtOnce(s, g)
    ensures InvBut(s1, {g}) && g < |s1.triggers| && HandlesOk(s1, s1.triggers[g].callbacks)
    ensures EndYield(s, Some(g)) == React(s1, g)
    ensures s1.triggers == s.triggers[g := s.triggers[g].(callbacks := [Handle(s.next, TopTask(s))])]
    ensures s1.loop == s.loop && s1.frames == PopFrame(s).frames && s1.next == s.next + 1
  {
    s1 := AddHandle(PopFrame(s), TopTask(s), g);
    AddHandleKeepsInv(s, g);
    WaitIsPrime(s, g);
    assert s.triggers[g].callbacks + [Handle(s.next, TopTask(s))] == [Handle(s.next, TopTask(s))];
  }

  lemma AtOnceGoes(s: State, g: nat, r: State)
    requires Sane(s) && Enabled(s, Yield(g)) && Waiting(s) && FiresAtOnce(s, g)
    requires s.next < r.next && r.frames == PopFrame(s).frames && |r.triggers| == |s.triggers|
    requires forall h :: 0 <= h < |s.triggers| ==>
               r.triggers[h] == if h == g then s.triggers[h].(callbacks := []) else s.triggers[h]
    requires Appends(s.loop, r.loop, [TopTask(s)])
    ensures Goes(s, Yield(g), r)
  {
  }

  lemma LaterGoes(s: State, g: nat)
    requires Inv(s) && Sane(s) && Enabled(s, Yield(g)) && Waiting(s) && s.triggers[g].Unused() && !FiresAtOnce(s, g)
    ensures Goes(s, Yield(g), EndYield(s, Some(g)))
  {
    TopOfInv(s);
    var s1 := AddHandle(PopFrame(s), TopTask(s), g);
    assert s1.triggers[g].callbacks == s.triggers[g].callbacks + [Handle(s.next, TopTask(s))];
  }

  // ----- Cancellations -----

  lemma EntriesOf(s: State, t: nat)
    requires Placed(s, {}) && t < |s.tasks|
    ensures s.tasks[t].status != Scheduled ==>
      forall i :: 0 <= i < |s.loop| && s.loop[i].task == t ==> s.loop[i].cancelled
    ensures s.tasks[t].status == Scheduled ==>
      forall i :: 0 <= i < |s.loop| ==>
        MarkCancelled(s.loop, s.tasks[t].entry)[i] ==
        if s.loop[i].task == t then s.loop[i].(cancelled := true) else s.loop[i]
  {
    if s.tasks[t].status == Scheduled {
      var k :| 0 <= k < |s.loop| && s.loop[k] == Entry(s.tasks[t].entry, t, false);
    }
  }

  lemma DeregisterIs(s: State, t: nat)
    requires t < |s.tasks| && s.tasks[t].trigger < |s.triggers| && Deregister(s, t).Ok?
    ensures var r, g := Deregister(s, t).value, s.tasks[t].trigger;
      && r.loop == s.loop && r.frames == s.frames && r.next == s.next && r.tasks == s.tasks
      && |r.triggers| == |s.triggers|
      && (forall h :: 0 <= h < |s.triggers| && h != g ==> r.triggers[h] == s.triggers[h])
      && r.triggers[g].callbacks == Without(s.triggers[g].callbacks, Handle(s.tasks[t].handle, t))
      && (r.triggers[g].kind == s.triggers[g].kind || (s.triggers[g].kind.Gpi? && r.triggers[g].kind.Gpi?))
  {
  }

  lemma WithdrawnGoes(s: State, p: Step, s1: State)
    requires Sane(s) && Enabled(s, p) && (p.DoCancel? || p.DoCancelNow?) && s.tasks[p.task].status == Pending
    requires Deregister(s, p.task).Ok? && s1.triggers == Deregister(s, p.task).value.triggers && s.next <= s1.next
    ensures TriggersGo(s, p, s1)
  {
    DeregisterIs(s, p.task);
  }

  lemma UntouchedGoes(s: State, p: Step, s1: State)
    requires Sane(s) && Enabled(s, p) && (p.DoCancel? || p.DoCancelNow?) && s.tasks[p.task].status != Pending
    requires s1.triggers == s.triggers && s.next <= s1.next
    ensures TriggersGo(s, p, s1)
  {
  }

  lemma CancelGoes(s: State, t: nat)
    requires Inv(s) && t < |s.tasks|
    ensures Sane(s) && Goes(s, DoCancel(t), Next(s, DoCancel(t)))
  {
    InvIsSane(s, {});
    if s.tasks[t].status == Pending {
      TakePending(s, t);
      DeregisterIs(s, t);
      WithdrawnGoes(s, DoCancel(t), Next(s, DoCancel(t)));
    } else {
      UntouchedGoes(s, DoCancel(t), Next(s, DoCancel(t)));
    }
    CancelledGoes(s, t);
  }

  lemma CancelledGoes(s: State, t: nat)
    requires Sane(s) && t < |s.tasks|
    requires s.tasks[t].status == Pending ==>
      && Deregister(s, t).Ok? && Deregister(s, t).value.loop == s.loop && Deregister(s, t).value.frames == s.frames
      && |Deregister(s, t).value.tasks| == |s.tasks|
    ensures LoopGoes(s, DoCancel(t), Next(s, DoCancel(t))) && StackGoes(s, DoCancel(t), Next(s, DoCancel(t)))
  {
  }

  lemma ThrowNowIs(s: State, t: nat)
    requires t < |s.tasks|
    ensures var r := ThrowNow(s, t);
      r.loop == s.loop && r.triggers == s.triggers && r.next == s.next && r.frames == s.frames + [Coro(t)]
  {
  }

  lemma CancelNowGoes(s: State, t: nat)
    requires Inv(s) && t < |s.tasks|
    ensures Sane(s) && Goes(s, DoCancelNow(t), Next(s, DoCancelNow(t)))
  {
    InvIsSane(s, {});
    EntriesOf(s, t);
    var r := Next(s, DoCancelNow(t));
    match s.tasks[t].status
    case Pending =>
      TakePending(s, t);
      DeregisterIs(s, t);
      ThrowNowIs(Deregister(s, t).value, t);
      WithdrawnGoes(s, DoCancelNow(t), r);
    case Scheduled =>
      ThrowNowIs(Unschedule(s, t), t);
      UntouchedGoes(s, DoCancelNow(t), r);
    case Unstarted =>
      ThrowNowIs(s, t);
      UntouchedGoes(s, DoCancelNow(t), r);
    case _ => UntouchedGoes(s, DoCancelNow(t), r);
  }

  // What any step does to the loop, the stack and the Triggers.
  lemma StepGoes(s: State, p: Step)
    requires Inv(s) && Enabled(s, p)
    ensures Sane(s) && Goes(s, p, Next(s, p))
  {
    InvIsSane(s, {});
    if p.SetEvent? || p.FireGpi? {
      FireGoes(s, p);
    } else if p.Finish? {
      FinishGoes(s);
    } else if p.Yield? {
      YieldGoes(s, p.trigger);
    } else if p.DoCancel? {
      CancelGoes(s, p.task);
    } else if p.DoCancelNow? {
      CancelNowGoes(s, p.task);
    } else if p.Pop? {
      PopGoes(s);
    } else if p.YieldOther? || p.YieldFails? {
      RetryGoes(s, p);
    } else if p.Return? || p.Raise? || p.Closed? || p.RunDoneCallback? || p.Added? || p.CallbackRaises? {
      FrameGoes(s, p);
    } else {
      CallGoes(s, p);
    }
  }

  // A new Task has not been started, has nothing to answer, and comes with two Triggers of its own.
  lemma ANewTaskIsFresh(s: State)
    requires Sane(s)
    ensures var r, t, c := Next(s, NewTask), |s.tasks|, |s.triggers|;
      && |r.tasks| == t + 1 && r.tasks[..t] == s.tasks && |r.triggers| == c + 2 && r.triggers[..c] == s.triggers
      && var task := r.tasks[t];
      && task.status == Unstarted && task.exc == None && task.mustCancel == 0 && task.outcome == None
      && task.doneCallbacks == [] && task.resumes == 0 && task.broken == None
      && {task.complete, task.join} == {c, c + 1}
      && r.triggers[c] == r.triggers[c + 1] == Trigger(Complete(t), [], [])
  {
  }

  // `del` in `_deregister` raises KeyError exactly when the handle is not in the dict.
  lemma DeregisterFailsIff(s: State, t: nat)
    requires t < |s.tasks| && s.tasks[t].trigger < |s.triggers|
    ensures Deregister(s, t) == Err(KeyError) <==>
      Handle(s.tasks[t].handle, t) !in s.triggers[s.tasks[t].trigger].callbacks
    ensures Deregister(s, t).Err? ==> Deregister(s, t).error == KeyError
  {
  }

  // ----- In which order Tasks are run -----

  function Pops(ps: seq<Step>): nat {
    if ps == [] then 0 else (if ps[0].Pop? then 1 else 0) + Pops(ps[1..])
  }

  // The i-th entry of the loop is this one.
  predicate At(s: State, i: int, id: nat, task: nat) {
    0 <= i < |s.loop| && s.loop[i].id == id && s.loop[i].task == task
  }

  lemma EntryMoves(s: State, p: Step, i: nat, id: nat, task: nat)
    requires Inv(s) && Sane(s) && Enabled(s, p) && !p.StartNext? && At(s, i, id, task) && (p.Pop? ==> i > 0)
    ensures At(Next(s, p), if p.Pop? then i - 1 else i, id, task)
  {
    StepGoes(s, p);
    assert LoopGoes(s, p, Next(s, p));
  }

  // The loop is fair: as long as nothing jumps the queue with `_start_next`, an entry with i others before it
  // is reached after exactly i turns, whatever happens meanwhile.
  lemma {:induction false} TheLoopIsFair(s: State, ps: seq<Step>, i: nat, id: nat, task: nat)
    requires Inv(s) && Legal(s, ps) && At(s, i, id, task) && Pops(ps) <= i
    requires forall p :: p in ps ==> !p.StartNext?
    ensures At(Exec(s, ps), i - Pops(ps), id, task)
    decreases |ps|
  {
    if ps != [] {
      StepKeepsInv(s, ps[0]);
      EntryMoves(s, ps[0], i, id, task);
      TheLoopIsFair(Next(s, ps[0]), ps[1..], i - if ps[0].Pop? then 1 else 0, id, task);
    }
  }

  // ----- In which order Tasks are woken -----

  // Handles are numbered in the order in which they are made.
  ghost predicate Registered(hs: seq<Handle>, next: nat) {
    && (forall i :: 0 <= i < |hs| ==> hs[i].id < next)
    && (forall i, j :: 0 <= i < j < |hs| ==> hs[i].id < hs[j].id)
  }

  ghost predicate AllRegistered(s: State) {
    forall g :: 0 <= g < |s.triggers| ==> Registered(s.triggers[g].callbacks, s.next)
  }

  lemma {:induction false} WithoutRegistered(hs: seq<Handle>, h: Handle, next: nat)
    requires Registered(hs, next)
    ensures Registered(Without(hs, h), next)
  {
    if hs != [] {
      WithoutRegistered(hs[1..], h, next);
      var rest := Without(hs[1..], h);
      forall i | 0 <= i < |rest| ensures hs[0].id < rest[i].id {
        assert rest[i] in rest;
        var j :| 0 <= j < |hs[1..]| && hs[1..][j] == rest[i];
        assert hs[j + 1] == rest[i];
      }
    }
  }

  lemma StepKeepsRegistered(s: State, p: Step)
    requires Inv(s) && Sane(s) && Enabled(s, p) && AllRegistered(s)
    ensures AllRegistered(Next(s, p))
  {
    StepGoes(s, p);
    var r := Next(s, p);
    forall g | 0 <= g < |r.triggers| ensures Registered(r.triggers[g].callbacks, r.next) {
      if g < |s.triggers| {
        TriggerKeepsRegistered(s, p, g, r);
      }
    }
  }

  lemma TriggerKeepsRegistered(s: State, p: Step, g: nat, r: State)
    requires Sane(s) && Enabled(s, p) && g < |s.triggers| <= |r.triggers| && s.next <= r.next
    requires p.Yield? && Waiting(s) ==> s.next < r.next
    requires Registered(s.triggers[g].callbacks, s.next) && TriggerGoes(s, p, g, s.triggers[g], r.triggers[g])
    ensures Registered(r.triggers[g].callbacks, r.next)
  {
    if (p.DoCancel? || p.DoCancelNow?) && Withdraws(s, p, p.task) {
      WithoutRegistered(s.triggers[g].callbacks, Handle(s.tasks[p.task].handle, p.task), s.next);
    }
  }

  // After every run each dict is in the order of registration; so when its Trigger fires, its Tasks are
  // scheduled in the order in which they began to wait.
  lemma {:induction false} DictsKeepOrder(s: State, ps: seq<Step>)
    requires Inv(s) && Legal(s, ps) && AllRegistered(s)
    ensures AllRegistered(Exec(s, ps))
    decreases |ps|
  {
    if ps != [] {
      StepKeepsInv(s, ps[0]);
      StepKeepsRegistered(s, ps[0]);
      DictsKeepOrder(Next(s, ps[0]), ps[1..]);
    }
  }

  lemma WokenInOrderOfRegistration(ps: seq<Step>, g: nat)
    requires Legal(Initial, ps) && Sane(Exec(Initial, ps)) && Enabled(Exec(Initial, ps), SetEvent(g))
    ensures var s := Exec(Initial, ps); var hs := s.triggers[g].callbacks;
      Registered(hs, s.next) && Appends(s.loop, Next(s, SetEvent(g)).loop, TasksOf(hs))
  {
    RunKeepsInv(Initial, ps);
    DictsKeepOrder(Initial, ps);
    FireGoes(Exec(Initial, ps), SetEvent(g));
  }
}
