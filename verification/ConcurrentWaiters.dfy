/**
 `wait`, `select` and `gather`: one waiter Task per awaitable, and a parent that returns, or fails,
 only when they have all finished.

 Of a Task this uses what `SchedulerRuns` proves: it completes once and then calls its done-callback
 once, and `cancel` only schedules.  Waiters may complete in any order and with any outcome.
 */
module ConcurrentWaiters {
  import opened Wrappers
  import opened Sequences

  datatype Mode = FirstCompleted | FirstException | AllCompleted

  datatype Outcome = Value(v: int) | Failed(e: int) | WasCancelled

  // The suspended coroutine of the parent: at `await complete`, at `await NullTrigger` in the loop
  // that waits for cancelled waiters, or done.
  datatype Parent =
    | Waiting
    | Looping
    | Returned(index: Option<nat>)
    | Raised             // re-raised its CancelledError
    | Closed             // closed by the scheduler, because it waited with a cancellation unanswered
    | Broken             // left by the RuntimeError of `cancel` on a RUNNING waiter

  datatype State = State(
    mode: Mode,
    outcomes: seq<Option<Outcome>>,  // of the waiters; None while they run
    remaining: seq<nat>,             // the insertion-ordered dict
    first: Option<nat>,              // `first_completed`
    cancelled: bool,
    completed: nat,                  // how often `complete.set` was called
    parent: Parent,
    throwing: bool,                  // CancelledError is thrown into the parent when it resumes
    mustCancel: nat,                 // of the parent
    since: nat,                      // history: `cancel` calls on the parent since its last resume
    cancels: seq<nat>,               // history: `cancel` calls on each waiter,
    order: seq<nat>,                 //   and the order in which they completed
    running: set<nat>,               // the waiters that are RUNNING
    spared: seq<nat>)                // history: the waiters that `cancel_remaining` did not get to

  function Range(n: nat): (r: seq<nat>)
    ensures |r| == n && forall i :: 0 <= i < n ==> r[i] == i
  {
    seq(n, i => i)
  }

  // ----- Starting -----

  // The loop over `reversed(waiters)`: each is put in front of the event loop.
  method StartWaiters(n: nat, loop: seq<nat>) returns (r: seq<nat>)
    ensures r == Range(n) + loop
  {
    r := loop;
    var i := n;
    while i > 0
      invariant 0 <= i <= n && r == Range(n)[i..] + loop
    {
      i := i - 1;
      assert Range(n)[i..] == [i] + Range(n)[i + 1..];
      r := [i] + r;
    }
  }

  // ----- The operations -----

  // `cancel_remaining`.  `cancel` raises RuntimeError on the first RUNNING waiter, which ends the loop.
  function CancelRemaining(s: State): State {
    if s.cancelled then s
    else
      var reached := Before(s.remaining, s.running);
      s.(cancelled := true, cancels := CountEach(s.cancels, reached), spared := s.remaining[|reached|..])
  }

  predicate CancelRaises(s: State) {
    !s.cancelled && exists t :: t in s.remaining && t in s.running
  }

  // Does this completion meet the condition of the mode?
  predicate Triggers(mode: Mode, o: Outcome) {
    mode.FirstCompleted? || (mode.FirstException? && !o.Value?)
  }

  // The done-callback of waiter `t`; None is the KeyError of `del remaining[task]`.
  function DoneCallback(s: State, t: nat, o: Outcome): Option<State> {
    if t !in s.remaining then None
    else
      var rest := Without(s.remaining, t);
      var s1 := s.(remaining := rest, completed := s.completed + if rest == [] then 1 else 0);
      Some(if s.first.None? && Triggers(s.mode, o) then CancelRemaining(s1.(first := Some(t))) else s1)
  }

  function ChildDone(s: State, t: nat, o: Outcome): State
    requires t < |s.outcomes|
  {
    var s1 := s.(outcomes := s.outcomes[t := Some(o)], order := s.order + [t], running := s.running - {t});
    match DoneCallback(s1, t, o)
    case Some(s2) => s2
    case None => s1
  }

  function CancelParent(s: State): State {
    s.(mustCancel := s.mustCancel + 1, throwing := true, since := s.since + 1)
  }

  function Uncancel(s: State): State {
    s.(mustCancel := if s.mustCancel > 0 then s.mustCancel - 1 else 0)
  }

  // The head of the loop `while remaining`, and the `raise` after it.
  function LoopHead(s: State): State {
    if s.remaining == [] then s.(parent := Raised)
    else if s.mustCancel > 0 then s.(parent := Closed)
    else s.(parent := Looping)
  }

  function ResumeParent(s: State): State {
    var s1 := s.(throwing := false, since := 0);
    match s.parent
    case Waiting =>
      if s.throwing then
        if CancelRaises(s1) then CancelRemaining(s1).(parent := Broken)
        else LoopHead(Uncancel(CancelRemaining(s1)))
      else s1.(parent := Returned(s.first))
    case Looping => LoopHead(if s.throwing then Uncancel(s1) else s1)
    case _ => s
  }

  // The parent reaches `await complete`; if it has ignored a cancellation before, it is closed there.
  function Start(mode: Mode, n: nat, mustCancel: nat): State {
    var s := State(
      mode, seq(n, _ => None), Range(n), None, false, 0, Waiting, false, mustCancel, 0, seq(n, _ => 0), [], {}, []);
    if mustCancel > 0 then CancelRemaining(s).(parent := Closed) else s
  }

  // A waiter is resumed or waits, completes, or the parent is cancelled or resumed.
  datatype Step = Turn(t: nat, running: bool) | Complete(t: nat, o: Outcome) | Cancel | Resume

  predicate Enabled(s: State, p: Step) {
    match p
    case Turn(t, _) => t < |s.outcomes| && s.outcomes[t].None?
    case Complete(t, _) => t < |s.outcomes| && s.outcomes[t].None?
    case Cancel => s.parent.Waiting? || s.parent.Looping?
    case Resume => (s.parent.Waiting? && (s.throwing || s.completed > 0)) || s.parent.Looping?
  }

  function Next(s: State, p: Step): State
    requires Enabled(s, p)
  {
    match p
    case Turn(t, running) => s.(running := if running then s.running + {t} else s.running - {t})
    case Complete(t, o) => ChildDone(s, t, o)
    case Cancel => CancelParent(s)
    case Resume => ResumeParent(s)
  }

  predicate Legal(s: State, ps: seq<Step>)
    decreases |ps|
  {
    ps == [] || (Enabled(s, ps[0]) && Legal(Next(s, ps[0]), ps[1..]))
  }

  function Exec(s: State, ps: seq<Step>): State
    requires Legal(s, ps)
    decreases |ps|
  {
    if ps == [] then s else Exec(Next(s, ps[0]), ps[1..])
  }

  // ----- The invariant -----

  // The running waiters among the first `n`, in order.
  function Running(outcomes: seq<Option<Outcome>>, n: nat): (r: seq<nat>)
    requires n <= |outcomes|
    ensures forall t :: t in r ==> t < n && outcomes[t].None?
    ensures forall t :: 0 <= t < n && outcomes[t].None? ==> t in r
  {
    if n == 0 then []
    else if outcomes[n - 1].Some? then Running(outcomes, n - 1)
    else Running(outcomes, n - 1) + [n - 1]
  }

  // The first completion, in order of completion, that meets the condition of the mode.
  function FirstTrigger(mode: Mode, outcomes: seq<Option<Outcome>>, order: seq<nat>): (r: Option<nat>)
    requires forall i :: 0 <= i < |order| ==> order[i] < |outcomes| && outcomes[order[i]].Some?
    ensures r.Some? ==> r.value in order && Triggers(mode, outcomes[r.value].value)
    ensures r.None? ==> forall i :: 0 <= i < |order| ==> !Triggers(mode, outcomes[order[i]].value)
  {
    if order == [] then None
    else if Triggers(mode, outcomes[order[0]].value) then Some(order[0])
    else FirstTrigger(mode, outcomes, order[1..])
  }

  ghost predicate OrderOk(s: State) {
    && (forall i :: 0 <= i < |s.order| ==> s.order[i] < |s.outcomes| && s.outcomes[s.order[i]].Some?)
    && (forall t :: 0 <= t < |s.outcomes| && s.outcomes[t].Some? ==> t in s.order)
  }

  // The dict, the first completion and the event are what the outcomes say.
  ghost predicate Tracked(s: State) {
    && |s.outcomes| > 0
    && s.remaining == Running(s.outcomes, |s.outcomes|)
    && OrderOk(s) && s.first == FirstTrigger(s.mode, s.outcomes, s.order)
    && s.completed == (if s.remaining == [] then 1 else 0)
  }

  ghost predicate CancelledOnce(s: State, t: nat)
    requires t < |s.cancels|
  {
    if s.cancelled then s.cancels[t] <= 1 && (t in s.remaining ==> s.cancels[t] == (if t in s.spared then 0 else 1))
    else s.cancels[t] == 0
  }

  // Each waiter is cancelled at most once, and once if it outlives the decision to cancel and is not spared.
  ghost predicate CancelsOk(s: State) {
    |s.cancels| == |s.outcomes| && forall t :: 0 <= t < |s.cancels| ==> CancelledOnce(s, t)
  }

  ghost predicate ParentOk(s: State) {
    && (s.first.Some? ==> s.cancelled)
    && (s.parent.Waiting? || s.parent.Returned? ==> (s.cancelled <==> s.first.Some?))
    && (s.parent.Waiting? || s.parent.Looping? ==> s.mustCancel == s.since && (s.throwing <==> s.since > 0))
    && (!s.parent.Waiting? && !s.parent.Returned? ==> s.cancelled)
    && (s.parent.Returned? ==> s.remaining == [] && s.parent.index == s.first)
    && (s.parent.Raised? ==> s.remaining == [])
  }

  ghost predicate Inv(s: State) {
    Tracked(s) && CancelsOk(s) && ParentOk(s)
  }

  lemma RunningStep(outcomes: seq<Option<Outcome>>, n: nat)
    requires 0 < n <= |outcomes|
    ensures Running(outcomes, n) ==
      if outcomes[n - 1].Some? then Running(outcomes, n - 1) else Running(outcomes, n - 1) + [n - 1]
  {
  }

  lemma {:induction false} RunningWithout(outcomes: seq<Option<Outcome>>, n: nat, t: nat, o: Outcome)
    requires n <= |outcomes| && t < |outcomes|
    ensures Running(outcomes[t := Some(o)], n) == Without(Running(outcomes, n), t)
  {
    if n > 0 {
      RunningWithout(outcomes, n - 1, t, o);
      RunningStep(outcomes, n);
      RunningStep(outcomes[t := Some(o)], n);
      if outcomes[n - 1].None? {
        WithoutAppend<nat>(Running(outcomes, n - 1), n - 1, t);
      }
    }
  }

  lemma {:induction false} RunningDistinct(outcomes: seq<Option<Outcome>>, n: nat)
    requires n <= |outcomes|
    ensures forall i, j :: 0 <= i < j < |Running(outcomes, n)| ==> Running(outcomes, n)[i] < Running(outcomes, n)[j]
  {
    if n > 0 {
      RunningDistinct(outcomes, n - 1);
      var front := Running(outcomes, n - 1);
      assert forall i :: 0 <= i < |front| ==> front[i] in front;
    }
  }

  lemma {:induction false} FirstTriggerAppend(mode: Mode, outcomes: seq<Option<Outcome>>, order: seq<nat>, t: nat)
    requires forall i :: 0 <= i < |order| ==> order[i] < |outcomes| && outcomes[order[i]].Some?
    requires t < |outcomes| && outcomes[t].Some?
    ensures FirstTrigger(mode, outcomes, order + [t]) ==
      if FirstTrigger(mode, outcomes, order).Some? then FirstTrigger(mode, outcomes, order)
      else if Triggers(mode, outcomes[t].value) then Some(t) else None
  {
    if order == [] {
      assert ([t])[1..] == [];
    } else {
      FirstTriggerAppend(mode, outcomes, order[1..], t);
      assert (order + [t])[1..] == order[1..] + [t];
    }
  }

  lemma {:induction false} FirstTriggerSame(mode: Mode, a: seq<Option<Outcome>>, b: seq<Option<Outcome>>,
    order: seq<nat>)
    requires |a| == |b| && forall i :: 0 <= i < |order| ==>
      order[i] < |a| && a[order[i]].Some? && b[order[i]] == a[order[i]]
    ensures FirstTrigger(mode, a, order) == FirstTrigger(mode, b, order)
  {
    if order != [] {
      FirstTriggerSame(mode, a, b, order[1..]);
    }
  }

  lemma CancelRemainingOk(s: State)
    requires CancelsOk(s) && s.remaining == Running(s.outcomes, |s.outcomes|)
    ensures CancelsOk(CancelRemaining(s))
  {
    RunningDistinct(s.outcomes, |s.outcomes|);
    forall i | 0 <= i < |s.remaining| ensures s.remaining[i] < |s.cancels| {
      assert s.remaining[i] in s.remaining;
    }
    var reached := Before(s.remaining, s.running);
    BeforeSplits(s.remaining, s.running);
    assert forall i :: 0 <= i < |reached| ==> reached[i] == s.remaining[i];
    CountEachCounts(s.cancels, reached);
    var r := CancelRemaining(s);
    forall t | 0 <= t < |r.cancels| ensures CancelledOnce(r, t) {
      assert CancelledOnce(s, t);
    }
  }

  // The state in which the done-callback of waiter `t` decides whether to cancel the others.
  function Delivered(s: State, t: nat, o: Outcome): State
    requires t < |s.outcomes|
  {
    var rest := Without(s.remaining, t);
    s.(outcomes := s.outcomes[t := Some(o)], order := s.order + [t], running := s.running - {t},
       remaining := rest, completed := s.completed + (if rest == [] then 1 else 0),
       first := if s.first.None? && Triggers(s.mode, o) then Some(t) else s.first)
  }

  lemma DeliveredOrder(s: State, t: nat, o: Outcome)
    requires OrderOk(s) && t < |s.outcomes| && s.outcomes[t].None?
    ensures OrderOk(Delivered(s, t, o))
  {
    var r := Delivered(s, t, o);
    assert r.order[|s.order|] == t;
    forall u | u in s.order ensures u in r.order {
      var i :| 0 <= i < |s.order| && s.order[i] == u;
      assert r.order[i] == u;
    }
  }

  lemma DeliveredIsTracked(s: State, t: nat, o: Outcome)
    requires Tracked(s) && t < |s.outcomes| && s.outcomes[t].None?
    ensures t in s.remaining && Tracked(Delivered(s, t, o))
  {
    var r := Delivered(s, t, o);
    DeliveredOrder(s, t, o);
    RunningWithout(s.outcomes, |s.outcomes|, t, o);
    FirstTriggerSame(s.mode, s.outcomes, r.outcomes, s.order);
    FirstTriggerAppend(s.mode, r.outcomes, s.order, t);
  }

  lemma ChildDoneIs(s: State, t: nat, o: Outcome)
    requires t < |s.outcomes| && t in s.remaining
    ensures DoneCallback(s, t, o).Some?
    ensures ChildDone(s, t, o) ==
      if s.first.None? && Triggers(s.mode, o) then CancelRemaining(Delivered(s, t, o)) else Delivered(s, t, o)
  {
  }

  lemma DeliveredCancels(s: State, t: nat, o: Outcome)
    requires CancelsOk(s) && t < |s.outcomes|
    ensures CancelsOk(Delivered(s, t, o))
  {
    var r := Delivered(s, t, o);
    forall u | 0 <= u < |r.cancels| ensures CancelledOnce(r, u) {
      assert CancelledOnce(s, u);
    }
  }

  // The callback of a completing waiter finds it in the dict: no KeyError.
  lemma ChildDoneKeepsInv(s: State, t: nat, o: Outcome)
    requires Inv(s) && Enabled(s, Complete(t, o))
    ensures DoneCallback(s, t, o).Some? && Inv(ChildDone(s, t, o))
  {
    DeliveredIsTracked(s, t, o);
    ChildDoneIs(s, t, o);
    DeliveredCancels(s, t, o);
    CancelRemainingOk(Delivered(s, t, o));
  }

  lemma ResumeKeepsInv(s: State)
    requires Inv(s) && Enabled(s, Resume)
    ensures Inv(ResumeParent(s))
  {
    var s1 := s.(throwing := false, since := 0);
    assert CancelsOk(s1) by {
      forall t | 0 <= t < |s1.cancels| ensures CancelledOnce(s1, t) {
        assert CancelledOnce(s, t);
      }
    }
    CancelRemainingOk(s1);
    SameCancels(if s.parent.Waiting? && s.throwing then CancelRemaining(s1) else s1, ResumeParent(s));
  }

  lemma SameCancels(s: State, r: State)
    requires CancelsOk(s)
    requires r.cancels == s.cancels && r.cancelled == s.cancelled && r.remaining == s.remaining &&
      r.outcomes == s.outcomes && r.spared == s.spared
    ensures CancelsOk(r)
  {
    forall t | 0 <= t < |r.cancels| ensures CancelledOnce(r, t) {
      assert CancelledOnce(s, t);
    }
  }

  lemma CancelKeepsInv(s: State)
    requires Inv(s) && Enabled(s, Cancel)
    ensures Inv(CancelParent(s))
  {
    SameCancels(s, CancelParent(s));
  }

  lemma StartInv(mode: Mode, n: nat, mustCancel: nat)
    requires n > 0
    ensures Inv(Start(mode, n, mustCancel))
  {
    var s := Start(mode, n, 0).(mustCancel := mustCancel);
    RunningAll(s.outcomes, n);
    assert forall t :: 0 <= t < n ==> CancelledOnce(s, t);
    CancelRemainingOk(s);
    SameCancels(if mustCancel > 0 then CancelRemaining(s) else s, Start(mode, n, mustCancel));
  }

  lemma {:induction false} RunningAll(outcomes: seq<Option<Outcome>>, n: nat)
    requires n <= |outcomes| && forall i :: 0 <= i < |outcomes| ==> outcomes[i].None?
    ensures Running(outcomes, n) == Range(n)
  {
    if n > 0 {
      RunningAll(outcomes, n - 1);
    }
  }

  lemma StepKeepsInv(s: State, p: Step)
    requires Inv(s) && Enabled(s, p)
    ensures Inv(Next(s, p))
  {
    match p
    case Turn(_, _) => SameCancels(s, Next(s, p));
    case Complete(t, o) => ChildDoneKeepsInv(s, t, o);
    case Cancel => CancelKeepsInv(s);
    case Resume => ResumeKeepsInv(s);
  }

  lemma StepKeepsSize(s: State, p: Step)
    requires Enabled(s, p)
    ensures |Next(s, p).outcomes| == |s.outcomes| && Next(s, p).mode == s.mode
  {
  }

  lemma {:induction false} RunKeepsInv(s: State, ps: seq<Step>)
    requires Inv(s) && Legal(s, ps)
    ensures Inv(Exec(s, ps)) && |Exec(s, ps).outcomes| == |s.outcomes| && Exec(s, ps).mode == s.mode
    decreases |ps|
  {
    if ps != [] {
      StepKeepsInv(s, ps[0]);
      StepKeepsSize(s, ps[0]);
      RunKeepsInv(Next(s, ps[0]), ps[1..]);
    }
  }

  // ----- What `wait` promises -----

  // When it returns, or re-raises a cancellation, every waiter is done; no waiter was cancelled twice,
  // and `complete` was set once.
  lemma AllWaitersAreDone(mode: Mode, n: nat, mustCancel: nat, ps: seq<Step>, t: nat)
    requires n > 0 && Legal(Start(mode, n, mustCancel), ps) && t < n
    ensures var s := Exec(Start(mode, n, mustCancel), ps);
      && |s.outcomes| == |s.cancels| == n && s.cancels[t] <= 1
      && (s.parent.Returned? || s.parent.Raised? ==> s.outcomes[t].Some? && s.completed == 1)
      && (s.parent.Closed? || s.parent.Broken? ==> s.outcomes[t].Some? || s.cancels[t] == 1 || t in s.spared)
  {
    StartInv(mode, n, mustCancel);
    RunKeepsInv(Start(mode, n, mustCancel), ps);
    var s := Exec(Start(mode, n, mustCancel), ps);
    assert CancelledOnce(s, t);
    assert s.outcomes[t].None? ==> t in s.remaining;
  }

  // The index it returns: the first waiter to complete, the first to fail or be cancelled, or None.
  lemma IndexIsTheFirst(mode: Mode, n: nat, ps: seq<Step>)
    requires n > 0 && Legal(Start(mode, n, 0), ps) && Exec(Start(mode, n, 0), ps).parent.Returned?
    ensures var s := Exec(Start(mode, n, 0), ps);
      && |s.outcomes| == n && s.order != []
      && (forall i :: 0 <= i < |s.order| ==> s.order[i] < n && s.outcomes[s.order[i]].Some?)
      && match mode
         case FirstCompleted => s.parent.index == Some(s.order[0])
         case FirstException =>
           (match s.parent.index
            case None => forall t :: 0 <= t < n ==> s.outcomes[t].Some? && s.outcomes[t].value.Value?
            case Some(i) => exists k :: 0 <= k < |s.order| && s.order[k] == i && !s.outcomes[i].value.Value? &&
                              forall j :: 0 <= j < k ==> s.outcomes[s.order[j]].value.Value?)
         case AllCompleted => s.parent.index == None
  {
    StartInv(mode, n, 0);
    RunKeepsInv(Start(mode, n, 0), ps);
    var s := Exec(Start(mode, n, 0), ps);
    assert forall t :: 0 <= t < n && s.outcomes[t].None? ==> t in s.remaining;
    assert s.outcomes[0].Some?;
    if s.first.Some? {
      FirstTriggerSplits(s.mode, s.outcomes, s.order);
    }
  }

  lemma {:induction false} FirstTriggerSplits(mode: Mode, outcomes: seq<Option<Outcome>>, order: seq<nat>)
    requires forall i :: 0 <= i < |order| ==> order[i] < |outcomes| && outcomes[order[i]].Some?
    requires FirstTrigger(mode, outcomes, order).Some?
    ensures exists k :: 0 <= k < |order| && FirstTrigger(mode, outcomes, order) == Some(order[k]) &&
                        forall j :: 0 <= j < k ==> !Triggers(mode, outcomes[order[j]].value)
  {
    if Triggers(mode, outcomes[order[0]].value) {
      assert FirstTrigger(mode, outcomes, order) == Some(order[0]);
    } else {
      FirstTriggerSplits(mode, outcomes, order[1..]);
      var k :| 0 <= k < |order[1..]| && FirstTrigger(mode, outcomes, order[1..]) == Some(order[1..][k]) &&
        forall j :: 0 <= j < k ==> !Triggers(mode, outcomes[order[1..][j]].value);
      forall j | 0 <= j < k + 1 ensures !Triggers(mode, outcomes[order[j]].value) {
        if j > 0 { assert order[1..][j - 1] == order[j]; }
      }
      assert FirstTrigger(mode, outcomes, order) == Some(order[k + 1]);
    }
  }

  // When the decision to cancel is made, exactly the waiters before the first RUNNING one, in the order
  // of the dict, are cancelled; `cancel_remaining` raises if there is one.
  lemma TheFirstRunningWaiterStopsTheLoop(s: State)
    requires Inv(s) && !s.cancelled
    ensures var r := CancelRemaining(s);
      && |r.spared| <= |s.remaining| && r.spared == s.remaining[|s.remaining| - |r.spared|..]
      && (r.spared != [] <==> CancelRaises(s)) && (r.spared != [] ==> r.spared[0] in s.running)
      && (forall i :: 0 <= i < |s.remaining| - |r.spared| ==> s.remaining[i] !in s.running)
    ensures var r := CancelRemaining(s);
      |r.cancels| == |s.cancels| &&
      forall t :: 0 <= t < |s.cancels| ==> r.cancels[t] == if t in s.remaining && t !in r.spared then 1 else 0
  {
    NothingSpared(s.remaining, s.running);
    CancelledAreNotSpared(s);
  }

  // Such a run: the second of three waiters is RUNNING when it ends the first (with `kill`).
  lemma TwoWaitersAreSpared(v: int)
    ensures var ps := [Turn(1, true), Complete(0, Value(v))];
      && Legal(Start(FirstCompleted, 3, 0), ps)
      && var s := Exec(Start(FirstCompleted, 3, 0), ps);
      && s.remaining == [1, 2] && s.cancelled && s.cancels == [0, 0, 0] && s.spared == [1, 2]
  {
    var s0 := Start(FirstCompleted, 3, 0);
    assert s0.remaining == [0, 1, 2] && s0.cancels == [0, 0, 0];
    var s1 := Next(s0, Turn(1, true));
    var s2 := ChildDone(s1, 0, Value(v));
    assert Without([0, 1, 2], 0) == [1, 2] by {
      assert [0, 1, 2] == [0] + [1, 2] && 0 !in [1, 2];
      WithoutHead(0, [1, 2], 0);
      WithoutAbsent([1, 2], 0);
    }
    ChildDoneIs(s1, 0, Value(v));
    var ps := [Turn(1, true), Complete(0, Value(v))];
    assert ps[1..][1..] == [] && ps[1..][0] == Complete(0, Value(v));
    assert Legal(s2, []) && Exec(s2, []) == s2;
    assert Legal(s1, ps[1..]) && Exec(s1, ps[1..]) == s2;
  }

  lemma CancelledAreNotSpared(s: State)
    requires Inv(s) && !s.cancelled
    ensures var r := CancelRemaining(s);
      |r.cancels| == |s.cancels| &&
      forall t :: 0 <= t < |s.cancels| ==> r.cancels[t] == if t in s.remaining && t !in r.spared then 1 else 0
  {
    RunningDistinct(s.outcomes, |s.outcomes|);
    BeforeSplits(s.remaining, s.running);
    var reached := Before(s.remaining, s.running);
    forall i | 0 <= i < |reached| ensures reached[i] < |s.cancels| {
      assert reached[i] == s.remaining[i] && s.remaining[i] in s.remaining;
    }
    CountEachCounts(s.cancels, reached);
    forall t | 0 <= t < |s.cancels| ensures s.cancels[t] == 0 { assert CancelledOnce(s, t); }
  }

  // Once the condition of the mode is met, every waiter that still runs has been cancelled; and as long
  // as it is not and the parent is not cancelled, none has.
  lemma LosersAreCancelled(mode: Mode, n: nat, mustCancel: nat, ps: seq<Step>, t: nat)
    requires n > 0 && Legal(Start(mode, n, mustCancel), ps) && t < n
    ensures var s := Exec(Start(mode, n, mustCancel), ps);
      && |s.outcomes| == |s.cancels| == n
      && (s.first.Some? && s.outcomes[t].None? ==> s.cancels[t] == (if t in s.spared then 0 else 1))
      && (s.first.None? && (s.parent.Waiting? || s.parent.Returned?) ==> s.cancels[t] == 0)
  {
    StartInv(mode, n, mustCancel);
    RunKeepsInv(Start(mode, n, mustCancel), ps);
    assert CancelledOnce(Exec(Start(mode, n, mustCancel), ps), t);
  }

  // What the next resume of the parent does.  It returns exactly if no cancellation is thrown into it, with
  // the first completion that met the condition of the mode; and having been cancelled, it re-raises that
  // as soon as every waiter is done.
  lemma HowTheParentGoesOn(mode: Mode, n: nat, mustCancel: nat, ps: seq<Step>)
    requires n > 0 && Legal(Start(mode, n, mustCancel), ps)
    requires Enabled(Exec(Start(mode, n, mustCancel), ps), Resume)
    ensures var s := Exec(Start(mode, n, mustCancel), ps); GoesOn(s, Next(s, Resume))
  {
    StartInv(mode, n, mustCancel);
    RunKeepsInv(Start(mode, n, mustCancel), ps);
    var s := Exec(Start(mode, n, mustCancel), ps);
    AllDoneIff(s);
    ResumeGoesOn(s);
  }

  ghost predicate AllDone(s: State) {
    forall t :: 0 <= t < |s.outcomes| ==> s.outcomes[t].Some?
  }

  ghost predicate GoesOn(s: State, r: State) {
    && (r.parent.Returned? <==> s.parent.Waiting? && !s.throwing)
    && (r.parent.Returned? ==> r.parent.index == s.first && AllDone(s))
    && (r.parent.Raised? <==> (s.parent.Looping? || s.throwing) && AllDone(s))
    && (r.parent.Looping? ==> r.mustCancel == 0 && !r.throwing) && !r.parent.Waiting?
  }

  lemma AllDoneIff(s: State)
    requires Inv(s)
    ensures s.remaining == [] <==> AllDone(s)
  {
    assert forall t :: 0 <= t < |s.outcomes| && s.outcomes[t].None? ==> t in s.remaining;
    if s.remaining != [] { assert s.remaining[0] in s.remaining; }
  }

  lemma ResumeGoesOn(s: State)
    requires ParentOk(s) && Enabled(s, Resume) && s.completed == (if s.remaining == [] then 1 else 0)
    requires s.remaining == [] <==> AllDone(s)
    ensures GoesOn(s, ResumeParent(s))
  {
  }

  // A parent that ignored a cancellation before it waits is closed at once, and all its waiters are
  // cancelled; any other waits, and none is.
  lemma ClosedAtOnceIff(mode: Mode, n: nat, mustCancel: nat, t: nat)
    requires n > 0 && t < n
    ensures var s := Start(mode, n, mustCancel);
      && (mustCancel > 0 ==> s.parent.Closed?) && (mustCancel == 0 ==> s.parent.Waiting?)
      && |s.cancels| == n && s.cancels[t] == (if mustCancel > 0 then 1 else 0) && s.mode == mode
  {
    StartInv(mode, n, mustCancel);
    assert CancelledOnce(Start(mode, n, mustCancel), t);
    StartSparesNobody(mode, n, mustCancel);
  }

  lemma StartSparesNobody(mode: Mode, n: nat, mustCancel: nat)
    ensures Start(mode, n, mustCancel).spared == [] && Start(mode, n, mustCancel).remaining == Range(n)
  {
    NothingSpared(Range(n), {});
  }

  // A cancellation is not swallowed: once the parent has been cancelled in its wait, it never returns.
  lemma {:induction false} CancellationIsNotSwallowed(s: State, ps: seq<Step>)
    requires Inv(s) && Legal(s, ps) && !s.parent.Returned? && (s.parent.Waiting? ==> s.throwing)
    ensures !Exec(s, ps).parent.Returned?
    decreases |ps|
  {
    if ps != [] {
      StepKeepsInv(s, ps[0]);
      if ps[0].Complete? { ChildDoneIs(s, ps[0].t, ps[0].o); }
      CancellationIsNotSwallowed(Next(s, ps[0]), ps[1..]);
    }
  }

  // A resume leaves waiters behind exactly when two or more cancellations reached the parent since
  // its last one: only one of them is thrown and answered.
  lemma WaitersAreLeftBehindIff(mode: Mode, n: nat, mustCancel: nat, ps: seq<Step>)
    requires n > 0 && Legal(Start(mode, n, mustCancel), ps)
    requires Enabled(Exec(Start(mode, n, mustCancel), ps), Resume)
    ensures var s := Exec(Start(mode, n, mustCancel), ps);
      && (Next(s, Resume).parent.Closed? <==>
            && s.since >= 2 && (exists t :: 0 <= t < |s.outcomes| && s.outcomes[t].None?)
            && !(s.parent.Waiting? && CancelRaises(s)))
      && (Next(s, Resume).parent.Broken? <==> s.parent.Waiting? && s.throwing && CancelRaises(s))
  {
    StartInv(mode, n, mustCancel);
    RunKeepsInv(Start(mode, n, mustCancel), ps);
    var s := Exec(Start(mode, n, mustCancel), ps);
    if s.remaining != [] {
      assert s.remaining[0] in s.remaining;
    }
  }

  // Such a run: one waiter, and a parent that is cancelled twice before it is resumed.
  lemma AWaiterIsLeftBehind(mode: Mode)
    ensures var ps := [Cancel, Cancel, Resume];
      && Legal(Start(mode, 1, 0), ps)
      && var s := Exec(Start(mode, 1, 0), ps);
      && s.parent == Closed && s.outcomes == [None]
  {
    var s0 := Start(mode, 1, 0);
    assert Range(1) == [0] && s0.remaining == [0];
    var s1 := CancelParent(s0);
    var s2 := CancelParent(s1);
    var s3 := ResumeParent(s2);
    assert s3.parent == Closed && s3.outcomes == [None];
    var ps := [Cancel, Cancel, Resume];
    assert ps[1..][1..][1..] == [] && ps[1..][1..][0] == Resume && ps[1..][0] == Cancel;
    assert Legal(s3, []) && Exec(s3, []) == s3;
    assert Legal(s2, ps[1..][1..]) && Exec(s2, ps[1..][1..]) == s3;
    assert Legal(s1, ps[1..]) && Exec(s1, ps[1..]) == s3;
  }

  // ----- `select` and `gather` -----

  // `select`: the index and the result of the waiter that completed first.
  datatype Selected = First(index: nat, o: Outcome) | AssertionFails | Unready

  function Select(s: State): Selected {
    if !s.parent.Returned? then Unready
    else if s.parent.index.None? then AssertionFails
    else
      var i := s.parent.index.value;
      if i < |s.outcomes| && s.outcomes[i].Some? then First(i, s.outcomes[i].value) else Unready
  }

  lemma SelectGivesTheFirst(n: nat, ps: seq<Step>)
    requires n > 0 && Legal(Start(FirstCompleted, n, 0), ps) && Exec(Start(FirstCompleted, n, 0), ps).parent.Returned?
    ensures var s := Exec(Start(FirstCompleted, n, 0), ps);
      && s.order != [] && s.order[0] < |s.outcomes|
      && Select(s).First? && Select(s).index == s.order[0] && s.outcomes[s.order[0]] == Some(Select(s).o)
  {
    IndexIsTheFirst(FirstCompleted, n, ps);
  }

  // `gather`: all the values in the order of the arguments, or the first failure.
  datatype Gathered = Values(vs: seq<int>) | Reraised(o: Outcome) | NotReady

  function Gather(s: State): Gathered {
    if !s.parent.Returned? then NotReady
    else if s.parent.index.Some? then
      if s.parent.index.value < |s.outcomes| && s.outcomes[s.parent.index.value].Some?
      then Reraised(s.outcomes[s.parent.index.value].value) else NotReady
    else if forall i :: 0 <= i < |s.outcomes| ==> s.outcomes[i].Some? && s.outcomes[i].value.Value?
    then Values(seq(|s.outcomes|,
      i requires 0 <= i < |s.outcomes| && s.outcomes[i].Some? && s.outcomes[i].value.Value? =>
        s.outcomes[i].value.v))
    else NotReady
  }

  lemma GatherGivesAllOrTheFirstFailure(n: nat, ps: seq<Step>)
    requires n > 0 && Legal(Start(FirstException, n, 0), ps) && Exec(Start(FirstException, n, 0), ps).parent.Returned?
    ensures var s := Exec(Start(FirstException, n, 0), ps); var g := Gather(s);
      && |s.outcomes| == n
      && (g.Values? <==> forall i :: 0 <= i < n ==> s.outcomes[i].Some? && s.outcomes[i].value.Value?)
      && (g.Values? ==> |g.vs| == n && forall i :: 0 <= i < n ==> s.outcomes[i] == Some(Value(g.vs[i])))
      && (g.Reraised? ==> FirstFailure(s, g.o)) && !g.NotReady?
  {
    IndexIsTheFirst(FirstException, n, ps);
  }

  // Of the waiters in the order in which they completed, all that were before the one with outcome `o` have
  // succeeded, and that one has not.
  ghost predicate FirstFailure(s: State, o: Outcome) {
    && !o.Value?
    && exists k ::
         && 0 <= k < |s.order| && s.order[k] < |s.outcomes| && s.outcomes[s.order[k]] == Some(o)
         && forall j :: 0 <= j < k ==>
              s.order[j] < |s.outcomes| && s.outcomes[s.order[j]].Some? && s.outcomes[s.order[j]].value.Value?
  }

  // ----- The program -----

  class Wait {
    const mode: Mode
    var remaining: seq<nat>
    var firstCompleted: Option<nat>
    var cancelledFlag: bool
    var complete: nat
    var parent: Parent
    var throwing: bool
    var mustCancel: nat
    var outcomes: seq<Option<Outcome>>
    var cancels: seq<nat>
    var running: set<nat>
    ghost var since: nat
    ghost var order: seq<nat>
    ghost var spared: seq<nat>

    ghost function Snapshot(): State
      reads this
    {
      State(mode, outcomes, remaining, firstCompleted, cancelledFlag, complete, parent, throwing, mustCancel, since,
        cancels, order, running, spared)
    }

    constructor (mode: Mode, n: nat, mustCancel: nat)
      ensures Snapshot() == Start(mode, n, mustCancel)
    {
      this.mode := mode;
      outcomes, remaining, cancels := seq(n, _ => None), Range(n), seq(n, _ => 0);
      firstCompleted, cancelledFlag, complete := None, false, 0;
      parent, throwing, this.mustCancel, since, order := Waiting, false, mustCancel, 0, [];
      running, spared := {}, [];
      new;
      if mustCancel > 0 {
        var ok := CancelAll();
        parent := Closed;
      }
    }

    // `cancel_remaining`.  False when it raises.
    method CancelAll() returns (ok: bool)
      modifies this`cancelledFlag, this`cancels, this`spared
      ensures Snapshot() == CancelRemaining(old(Snapshot())) && ok == !CancelRaises(old(Snapshot()))
    {
      if cancelledFlag {
        return true;
      }
      cancelledFlag := true;
      var n := CancelUntilRunning();
      spared := remaining[n..];
      NothingSpared(remaining, running);
      return n == |remaining|;
    }

    // Its loop: `remaining` does not change while it is iterated over.
    method CancelUntilRunning() returns (n: nat)
      modifies this`cancels
      ensures n == |Before(remaining, running)| && cancels == CountEach(old(cancels), Before(remaining, running))
    {
      ghost var reached := Before(remaining, running);
      n := 0;
      while n < |remaining| && remaining[n] !in running
        invariant n <= |reached|
        invariant CountEach(cancels, reached[n..]) == CountEach(old(cancels), reached)
      {
        assert reached[n..][1..] == reached[n + 1..];
        if remaining[n] < |cancels| {
          cancels := cancels[remaining[n] := cancels[remaining[n]] + 1];
        }
        n := n + 1;
      }
      assert reached[n..] == [];
    }

    // What the three done-callbacks begin with.
    method Remove(t: nat, o: Outcome)
      requires t < |outcomes| && t in remaining
      modifies this`outcomes, this`order, this`remaining, this`complete, this`running
      ensures outcomes == old(outcomes)[t := Some(o)] && order == old(order) + [t]
      ensures remaining == Without(old(remaining), t)
      ensures complete == old(complete) + (if remaining == [] then 1 else 0) && running == old(running) - {t}
    {
      running := running - {t};
      outcomes := outcomes[t := Some(o)];
      order := order + [t];
      remaining := Without(remaining, t);
      if remaining == [] {
        complete := complete + 1;
      }
    }

    method Decide(t: nat) returns (ok: bool)
      modifies this`firstCompleted, this`cancelledFlag, this`cancels, this`spared
      ensures Snapshot() == CancelRemaining(old(Snapshot()).(first := Some(t)))
      ensures ok <==> old(cancelledFlag) || spared == []
    {
      firstCompleted := Some(t);
      ok := CancelAll();
    }

    // False when it raises.
    method TaskDone(t: nat, o: Outcome) returns (ok: bool)
      requires t < |outcomes| && t in remaining
      modifies this
      ensures Snapshot() == ChildDone(old(Snapshot()), t, o)
      ensures ok <==> old(cancelledFlag) || !cancelledFlag || spared == []
    {
      ok := true;
      ChildDoneIs(Snapshot(), t, o);
      Remove(t, o);
      if mode.FirstCompleted? {
        if firstCompleted.None? {
          ok := Decide(t);
        }
      } else if mode.FirstException? {
        if firstCompleted.None? && !o.Value? {
          ok := Decide(t);
        }
      }
    }

    method UncancelParent()
      modifies this`mustCancel
      ensures Snapshot() == Uncancel(old(Snapshot()))
    {
      if mustCancel > 0 {
        mustCancel := mustCancel - 1;
      }
    }

    // The parent's coroutine from one `await` to the next.
    method ResumeCoroutine()
      requires Enabled(Snapshot(), Resume)
      modifies this
      ensures Snapshot() == ResumeParent(old(Snapshot()))
    {
      var thrown := throwing;
      throwing, since := false, 0;
      if parent.Waiting? {
        if !thrown {
          parent := Returned(firstCompleted);
          return;
        }
        var ok := CancelAll();
        if !ok {
          parent := Broken;
          return;
        }
        UncancelParent();
      } else if thrown {
        UncancelParent();
      }
      if remaining == [] {
        parent := Raised;
      } else if mustCancel > 0 {
        parent := Closed;
      } else {
        parent := Looping;
      }
    }
  }
}
