/**
 `TaskManager`: an `async with` block that ends when all the Tasks it started have.

 Of a Task this uses what `SchedulerRuns` proves: it completes once and then calls its done-callback
 once, and `cancel` only schedules.  The block itself is foreign code.
 */
module TaskManager {
  import opened Wrappers
  import opened Sequences

  datatype Outcome = Value | Errored(e: int) | WasCancelled

  datatype Child = Child(continueOnError: bool, outcome: Option<Outcome>)

  // How the context manager was left.
  datatype Exit =
    | Normal               // `__aexit__` returns True
    | Group(errors: set<int>)
    | Reraised             // a CancelledError from outside goes on
    | CancelFailed         // RuntimeError of `_cancel`, a child being RUNNING
    | Special              // KeyboardInterrupt, SystemExit, BdbQuit, GeneratorExit go on at once
    | Closed               // closed by the scheduler at an `await`, a cancellation being unanswered
    | Interrupted          // cancelled at the `await NullTrigger()` after an ignored cancellation,
    | Unreachable          // or not: RuntimeError("Reached unreachable code")

  // Where the coroutine of the parent is.
  datatype Parent =
    | Outside
    | Block
    | Waiting    // at the first `await` of `__aexit__`
    | Draining   // in one of its loops that wait for cancelled children
    | Token      // at the `await NullTrigger()` after an ignored cancellation
    | Exited(how: Exit)

  datatype State = State(
    contextContinue: bool,
    children: seq<Child>,
    remaining: seq<nat>,     // the insertion-ordered dict
    noneRemaining: bool,     // the Event
    exceptions: set<int>,
    cancelled: bool,
    finishing: bool,
    parent: Parent,
    blockError: Option<int>, // the error with which the block ended
    throwing: bool,
    mustCancel: nat,
    since: nat,              // history: `cancel` calls on the parent since it last waited
    cancels: seq<nat>,       // history: `cancel` calls on each child
    running: bool,           // the parent is RUNNING in its block
    busy: set<nat>,          // the children that are RUNNING
    raised: bool,            // history: whether `_cancel` raised,
    spared: seq<nat>)        //   and the children that it did not get to

  function Init(contextContinue: bool, mustCancel: nat): State {
    State(contextContinue, [], [], true, {}, false, false, Outside, None, false, mustCancel, 0, [], false,
          {}, false, [])
  }

  // ----- The operations -----

  // `start_soon`; None is RuntimeError.
  function StartSoon(s: State, continueOnError: bool, byParent: bool): Option<State> {
    if s.cancelled || s.finishing || s.parent.Outside? || !byParent then None
    else Some(s.(children := s.children + [Child(continueOnError, None)],
                 remaining := s.remaining + [|s.children|], noneRemaining := false, cancels := s.cancels + [0]))
  }

  function CancelParent(s: State): State {
    s.(mustCancel := s.mustCancel + 1, throwing := true, since := s.since + 1)
  }

  // `_cancel`.  Cancelling a RUNNING parent raises RuntimeError before any child is cancelled, and so does
  // cancelling the first RUNNING child.
  function CancelChildren(s: State): (r: State)
    ensures r.cancelled && r.remaining == s.remaining && r.noneRemaining == s.noneRemaining
    ensures r.blockError == s.blockError && r.finishing == s.finishing
  {
    if s.cancelled then s
    else if !s.finishing && s.running then s.(cancelled := true, raised := true, spared := s.remaining)
    else if s.finishing then CancelReached(s)
    else CancelReached(CancelParent(s))
  }

  function CancelReached(s: State): (r: State)
    ensures r.raised <==> AnyBusy(s)
  {
    NothingSpared(s.remaining, s.busy);
    var reached := Before(s.remaining, s.busy);
    s.(cancelled := true, cancels := CountEach(s.cancels, reached),
       raised := |reached| < |s.remaining|, spared := s.remaining[|reached|..])
  }

  predicate CancelFails(s: State) {
    !s.cancelled && ((!s.finishing && s.running) || AnyBusy(s))
  }

  predicate AnyBusy(s: State) {
    exists t :: t in s.remaining && t in s.busy
  }

  // `__aexit__` is left by the exception of `_cancel`.
  function Failed(s: State): State {
    CancelChildren(s).(parent := Exited(CancelFailed))
  }

  // `_done_callback`; None is the KeyError of `pop`.
  function DoneCallback(s: State, t: nat, o: Outcome): Option<State> {
    if t !in s.remaining || t >= |s.children| then None
    else
      var rest := Without(s.remaining, t);
      var s1 := s.(remaining := rest, noneRemaining := s.noneRemaining || rest == []);
      if !o.Errored? then Some(s1)
      else
        var s2 := s1.(exceptions := s1.exceptions + {o.e});
        Some(if s.children[t].continueOnError then s2 else CancelChildren(s2))
  }

  function ChildDone(s: State, t: nat, o: Outcome): State
    requires t < |s.children|
  {
    var s1 := s.(children := s.children[t := s.children[t].(outcome := Some(o))], busy := s.busy - {t});
    match DoneCallback(s1, t, o)
    case Some(s2) => s2
    case None => s1
  }

  function Uncancel(s: State): (r: State)
    ensures r.cancelled == s.cancelled
  {
    s.(mustCancel := if s.mustCancel > 0 then s.mustCancel - 1 else 0)
  }

  // The parent waits.  If a cancellation is still unanswered, the scheduler closes it instead.
  function AwaitNoneRemaining(s: State): (r: State)
    ensures r.cancelled <==> s.cancelled || s.mustCancel > 0
  {
    if s.mustCancel > 0 then
      if CancelFails(s) then Failed(s) else CancelChildren(s).(parent := Exited(Closed))
    else s.(parent := Waiting, throwing := false, since := 0)
  }

  // The head of either drain loop, and the re-raise after it.
  function DrainHead(s: State): (r: State)
    ensures r.cancelled == s.cancelled
  {
    if s.noneRemaining then s.(parent := Exited(Reraised))
    else if s.mustCancel > 0 then s.(parent := Exited(Closed))
    else s.(parent := Draining, throwing := false, since := 0)
  }

  datatype BlockExit = Completed | Cancellation | Error(e: int) | SpecialError

  // `__aexit__`, up to its first `await`.
  function BlockEnds(s0: State, how: BlockExit): State {
    var s := s0.(finishing := true);
    if how.SpecialError? then
      if CancelFails(s) then Failed(s) else CancelChildren(s).(parent := Exited(Special))
    else if s.cancelled then CancelledEnds(s, how)
    else UncancelledEnds(s, how)
  }

  // The parent was cancelled from outside: the children are cancelled before it waits for them.
  function CancelAndDrain(s: State): State {
    if CancelFails(s) then Failed(s) else DrainHead(Uncancel(CancelChildren(s)))
  }

  // A child has failed while the block was executing.
  function CancelledEnds(s: State, how: BlockExit): State {
    if how.Cancellation? then AwaitNoneRemaining(Uncancel(s))
    else if s.mustCancel > 0 then s.(parent := Exited(Closed))
    else s.(parent := Token, throwing := false, since := 0)
  }

  function UncancelledEnds(s: State, how: BlockExit): State {
    match how
    case Cancellation => CancelAndDrain(s)
    case Error(e) =>
      var s1 := s.(blockError := Some(e));
      if s.contextContinue then AwaitNoneRemaining(s1)
      else if CancelFails(s1) then Failed(s1)
      else AwaitNoneRemaining(CancelChildren(s1))
    case _ => AwaitNoneRemaining(s)
  }

  function ErrorSet(e: Option<int>): set<int> {
    if e.Some? then {e.value} else {}
  }

  // The end of `__aexit__`.
  function Conclude(s: State): State {
    var errors := s.exceptions + ErrorSet(s.blockError);
    s.(exceptions := errors, parent := Exited(if errors != {} then Group(errors) else Normal))
  }

  function ResumeParent(s: State): State {
    match s.parent
    case Waiting =>
      if s.throwing then CancelAndDrain(s) else Conclude(s)
    case Draining => DrainHead(if s.throwing then Uncancel(s) else s)
    case Token => s.(parent := Exited(if s.throwing then Interrupted else Unreachable))
    case _ => s
  }

  datatype Step =
    | EnterBlock
    | Start(continueOnError: bool, byParent: bool)
    | Complete(t: nat, o: Outcome)
    | CancelTheParent          // by other code
    | Turn(running: bool)      // the block is resumed, or waits
    | TurnChild(t: nat, running: bool) // a child is, or does
    | Answer                   // the block answers a cancellation of its own (`_uncancel`)
    | LeaveBlock(how: BlockExit)
    | Resume

  predicate Suspended(p: Parent) {
    p.Block? || p.Waiting? || p.Draining? || p.Token?
  }

  predicate Enabled(s: State, p: Step) {
    match p
    case EnterBlock => s.parent.Outside? && !s.finishing
    case Start(_, _) => true
    case Complete(t, _) => t < |s.children| && s.children[t].outcome.None?
    case CancelTheParent => Suspended(s.parent) && !(s.parent.Block? && s.running)
    case Turn(_) => s.parent.Block?
    case TurnChild(t, _) => t < |s.children| && s.children[t].outcome.None?
    case Answer => s.parent.Block?
    case LeaveBlock(_) => s.parent.Block?
    case Resume => ((s.parent.Waiting? || s.parent.Draining?) && (s.throwing || s.noneRemaining)) || s.parent.Token?
  }

  function Next(s: State, p: Step): State
    requires Enabled(s, p)
  {
    match p
    case EnterBlock => s.(parent := Block)
    case Start(c, byParent) => (match StartSoon(s, c, byParent) case Some(s1) => s1 case None => s)
    case Complete(t, o) => ChildDone(s, t, o)
    case CancelTheParent => CancelParent(s)
    case Turn(running) => s.(running := running)
    case TurnChild(t, running) => s.(busy := if running then s.busy + {t} else s.busy - {t})
    case Answer => Uncancel(s)
    case LeaveBlock(how) => BlockEnds(s, how)
    case Resume => ResumeParent(s)
  }

  predicate Legal(s: State, ps: seq<Step>)
    decreases |ps|
  {
    ps == [] || (Enabled(s, ps[0]) && Legal(Next(s, ps[0]), ps[1..]))
  }

  function Exec(s: State, ps: seq<Step>): State
    requires Legal(s, ps)
    decreases |ps|
  {
    if ps == [] then s else Exec(Next(s, ps[0]), ps[1..])
  }

  // ----- The invariant -----

  function Errors(children: seq<Child>): (r: set<int>) {
    set t | 0 <= t < |children| && children[t].outcome.Some? && children[t].outcome.value.Errored? ::
      children[t].outcome.value.e
  }

  // The dict, the event and the errors are what the outcomes of the children say.
  ghost predicate Tracked(s: State) {
    && (forall t :: t in s.remaining <==> 0 <= t < |s.children| && s.children[t].outcome.None?)
    && Ascending(s.remaining)
    && (s.noneRemaining <==> s.remaining == [])
    && s.exceptions == Errors(s.children) +
      (if s.parent.Exited? && (s.parent.how.Group? || s.parent.how.Normal?) then ErrorSet(s.blockError) else {})
  }

  ghost predicate CancelledOnce(s: State, t: nat)
    requires t < |s.cancels|
  {
    if s.cancelled then s.cancels[t] <= 1 && (t in s.remaining ==> s.cancels[t] == (if t in s.spared then 0 else 1))
    else s.cancels[t] == 0
  }

  ghost predicate CancelsOk(s: State) {
    && |s.cancels| == |s.children| && (s.raised ==> s.cancelled)
    && forall t :: 0 <= t < |s.cancels| ==> CancelledOnce(s, t)
  }

  ghost predicate ParentOk(s: State) {
    && (s.finishing <==> !s.parent.Outside? && !s.parent.Block?)
    && (s.parent.Outside? ==> s.children == [] && !s.throwing)
    && (s.parent.Waiting? || s.parent.Draining? || s.parent.Token? ==>
          s.mustCancel == s.since && (s.throwing <==> s.since > 0))
    && (s.parent.Draining? || s.parent.Token? ==> s.cancelled)
    && match s.parent
       case Exited(Normal) => s.remaining == [] && s.exceptions == {}
       case Exited(Group(errors)) => s.remaining == [] && errors == s.exceptions != {}
       case Exited(Reraised) => s.remaining == []
       case Exited(_) => s.cancelled
       case _ => true
  }

  ghost predicate Inv(s: State) {
    Tracked(s) && CancelsOk(s) && ParentOk(s)
  }

  // ----- Every step keeps it -----

  lemma CancelChildrenOk(s: State)
    requires CancelsOk(s) && Ascending(s.remaining) && forall t :: t in s.remaining ==> t < |s.children|
    ensures CancelsOk(CancelChildren(s))
  {
    ReachedCounts(s);
    BeforeSplits(s.remaining, s.busy);
    var r := CancelChildren(s);
    forall t | 0 <= t < |r.cancels| ensures CancelledOnce(r, t) {
      assert CancelledOnce(s, t);
    }
  }

  lemma ReachedCounts(s: State)
    requires Ascending(s.remaining) && |s.cancels| == |s.children| && forall t :: t in s.remaining ==> t < |s.children|
    ensures var r, reached := CancelReached(s), Before(s.remaining, s.busy);
      |r.cancels| == |s.cancels| &&
      forall t :: 0 <= t < |s.cancels| ==> r.cancels[t] == s.cancels[t] + (if t in reached then 1 else 0)
  {
    var reached := Before(s.remaining, s.busy);
    BeforeSplits(s.remaining, s.busy);
    forall i | 0 <= i < |reached| ensures reached[i] < |s.cancels| {
      assert reached[i] == s.remaining[i] && s.remaining[i] in s.remaining;
    }
    CountEachCounts(s.cancels, reached);
  }

  lemma SameCancels(s: State, r: State)
    requires CancelsOk(s) && r.cancels == s.cancels && r.cancelled == s.cancelled && r.raised == s.raised
    requires r.spared == s.spared
    requires |r.children| == |s.children|
    requires forall t :: t in r.remaining ==> t in s.remaining
    ensures CancelsOk(r)
  {
    forall t | 0 <= t < |r.cancels| ensures CancelledOnce(r, t) {
      assert CancelledOnce(s, t);
    }
  }

  lemma StartKeepsInv(s: State, continueOnError: bool, byParent: bool)
    requires Inv(s)
    ensures Inv(Next(s, Start(continueOnError, byParent)))
  {
    var r := Next(s, Start(continueOnError, byParent));
    if r != s {
      var c := Child(continueOnError, None);
      assert r.children == s.children + [c] && r.remaining == s.remaining + [|s.children|];
      assert forall i :: 0 <= i < |s.remaining| ==> s.remaining[i] in s.remaining;
      assert r.remaining[|s.remaining|] == |s.children|;
      assert forall t :: t in r.remaining <==> t in s.remaining || t == |s.children|;
      assert Errors(r.children) == Errors(s.children) by {
        assert forall t :: 0 <= t < |s.children| ==> r.children[t] == s.children[t];
      }
      forall t | 0 <= t < |r.cancels| ensures CancelledOnce(r, t) {
        if t < |s.cancels| { assert CancelledOnce(s, t); }
      }
    }
  }

  // The state in which the done-callback decides whether to cancel the others.
  function Delivered(s: State, t: nat, o: Outcome): State
    requires t < |s.children|
  {
    var rest := Without(s.remaining, t);
    s.(children := s.children[t := s.children[t].(outcome := Some(o))], busy := s.busy - {t},
       remaining := rest, noneRemaining := s.noneRemaining || rest == [],
       exceptions := s.exceptions + if o.Errored? then {o.e} else {})
  }

  lemma ErrorsGrow(children: seq<Child>, t: nat, o: Outcome)
    requires t < |children| && children[t].outcome.None?
    ensures Errors(children[t := children[t].(outcome := Some(o))]) ==
      Errors(children) + if o.Errored? then {o.e} else {}
  {
    var r := children[t := children[t].(outcome := Some(o))];
    forall e | e in Errors(children) ensures e in Errors(r) {
      var u :| 0 <= u < |children| && children[u].outcome.Some? && children[u].outcome.value.Errored? &&
        children[u].outcome.value.e == e;
      assert r[u] == children[u];
    }
    if o.Errored? {
      assert r[t].outcome.value.e == o.e;
    }
  }

  lemma DeliveredIsTracked(s: State, t: nat, o: Outcome)
    requires Tracked(s) && ParentOk(s) && Enabled(s, Complete(t, o))
    ensures t in s.remaining && Tracked(Delivered(s, t, o)) && ParentOk(Delivered(s, t, o))
  {
    WithoutAscending(s.remaining, t);
    ErrorsGrow(s.children, t, o);
  }

  lemma ChildDoneIs(s: State, t: nat, o: Outcome)
    requires t < |s.children| && t in s.remaining
    ensures ChildDone(s, t, o) ==
      if o.Errored? && !s.children[t].continueOnError then CancelChildren(Delivered(s, t, o)) else Delivered(s, t, o)
  {
    assert s.exceptions + {} == s.exceptions;
  }

  // The callback of a completing child finds it in the dict: no KeyError.
  lemma ChildDoneKeepsInv(s: State, t: nat, o: Outcome)
    requires Inv(s) && Enabled(s, Complete(t, o))
    ensures DoneCallback(s, t, o).Some? && Inv(ChildDone(s, t, o))
  {
    DeliveredIsTracked(s, t, o);
    ChildDoneIs(s, t, o);
    SameCancels(s, Delivered(s, t, o));
    CancelChildrenOk(Delivered(s, t, o));
  }

  lemma DrainHeadKeepsInv(s: State)
    requires Tracked(s) && CancelsOk(s) && s.cancelled && s.finishing && !s.parent.Exited?
    ensures Inv(DrainHead(s))
  {
    SameCancels(s, DrainHead(s));
  }

  lemma AwaitKeepsInv(s: State)
    requires Tracked(s) && CancelsOk(s) && s.finishing && !s.parent.Exited?
    ensures Inv(AwaitNoneRemaining(s))
  {
    if s.mustCancel == 0 {
      SameCancels(s, AwaitNoneRemaining(s));
    } else if CancelFails(s) {
      FailedKeepsInv(s);
    } else {
      CancelledExitKeepsInv(s, Closed);
    }
  }

  lemma CancelledExitKeepsInv(s: State, how: Exit)
    requires Tracked(s) && CancelsOk(s) && s.finishing && !s.parent.Exited?
    requires how.Closed? || how.Special? || how.CancelFailed?
    ensures Inv(CancelChildren(s).(parent := Exited(how)))
  {
    CancelChildrenOk(s);
    SameCancels(CancelChildren(s), CancelChildren(s).(parent := Exited(how)));
  }

  lemma FailedKeepsInv(s: State)
    requires Tracked(s) && CancelsOk(s) && s.finishing && !s.parent.Exited?
    ensures Inv(Failed(s))
  {
    CancelledExitKeepsInv(s, CancelFailed);
  }

  lemma CancelAndDrainKeepsInv(s: State)
    requires Tracked(s) && CancelsOk(s) && s.finishing && !s.parent.Exited?
    ensures Inv(CancelAndDrain(s))
  {
    CancelChildrenOk(s);
    FailedKeepsInv(s);
    SameCancels(CancelChildren(s), Uncancel(CancelChildren(s)));
    DrainHeadKeepsInv(Uncancel(CancelChildren(s)));
  }

  lemma BlockEndsKeepsInv(s0: State, how: BlockExit)
    requires Inv(s0) && s0.parent.Block?
    ensures Inv(BlockEnds(s0, how))
  {
    var s := s0.(finishing := true);
    SameCancels(s0, s);
    if how.SpecialError? {
      CancelledExitKeepsInv(s, if CancelFails(s) then CancelFailed else Special);
    } else if s.cancelled {
      CancelledEndsKeepsInv(s, how);
    } else {
      UncancelledEndsKeepsInv(s, how);
    }
  }

  lemma CancelledEndsKeepsInv(s: State, how: BlockExit)
    requires Tracked(s) && CancelsOk(s) && s.finishing && !s.parent.Exited? && s.cancelled
    ensures Inv(CancelledEnds(s, how))
  {
    SameCancels(s, Uncancel(s));
    if how.Cancellation? { AwaitKeepsInv(Uncancel(s)); } else { SameCancels(s, CancelledEnds(s, how)); }
  }

  lemma UncancelledEndsKeepsInv(s: State, how: BlockExit)
    requires Tracked(s) && CancelsOk(s) && s.finishing && !s.parent.Exited? && !s.cancelled
    ensures Inv(UncancelledEnds(s, how))
  {
    CancelChildrenOk(s);
    match how
    case Cancellation => CancelAndDrainKeepsInv(s);
    case Error(e) =>
      var s1 := s.(blockError := Some(e));
      SameCancels(s, s1);
      CancelChildrenOk(s1);
      FailedKeepsInv(s1);
      AwaitKeepsInv(if s.contextContinue then s1 else CancelChildren(s1));
    case _ => AwaitKeepsInv(s);
  }

  lemma ResumeKeepsInv(s: State)
    requires Inv(s) && Enabled(s, Resume)
    ensures Inv(ResumeParent(s))
  {
    match s.parent
    case Waiting =>
      if s.throwing {
        CancelAndDrainKeepsInv(s);
      } else {
        SameCancels(s, Conclude(s));
      }
    case Draining =>
      SameCancels(s, Uncancel(s));
      DrainHeadKeepsInv(if s.throwing then Uncancel(s) else s);
    case _ => SameCancels(s, ResumeParent(s));
  }

  lemma StepKeepsInv(s: State, p: Step)
    requires Inv(s) && Enabled(s, p)
    ensures Inv(Next(s, p))
  {
    match p
    case Start(c, byParent) => StartKeepsInv(s, c, byParent);
    case Complete(t, o) => ChildDoneKeepsInv(s, t, o);
    case LeaveBlock(how) => BlockEndsKeepsInv(s, how);
    case Resume => ResumeKeepsInv(s);
    case _ => SameCancels(s, Next(s, p));
  }

  lemma {:induction false} RunKeepsInv(s: State, ps: seq<Step>)
    requires Inv(s) && Legal(s, ps)
    ensures Inv(Exec(s, ps))
    decreases |ps|
  {
    if ps != [] {
      StepKeepsInv(s, ps[0]);
      RunKeepsInv(Next(s, ps[0]), ps[1..]);
    }
  }

  // ----- What `TaskManager` promises -----

  ghost predicate Reached(contextContinue: bool, m: nat, ps: seq<Step>, s: State) {
    Legal(Init(contextContinue, m), ps) && s == Exec(Init(contextContinue, m), ps)
  }

  lemma ReachedInv(contextContinue: bool, m: nat, ps: seq<Step>, s: State)
    requires Reached(contextContinue, m, ps, s)
    ensures Inv(s)
  {
    RunKeepsInv(Init(contextContinue, m), ps);
  }

  // The event is set exactly when no child runs; a child is added exactly by the parent, between entering the
  // block and its end, and while none has failed; and no child is cancelled twice.
  lemma EventMeansNoneRemaining(contextContinue: bool, m: nat, ps: seq<Step>, s: State, t: nat)
    requires Reached(contextContinue, m, ps, s)
    ensures s.noneRemaining <==> forall c :: c in s.children ==> c.outcome.Some?
    ensures forall c, byParent ::
              StartSoon(s, c, byParent).Some? <==> byParent && s.parent.Block? && !s.cancelled
    ensures |s.cancels| == |s.children| && (t < |s.cancels| ==> s.cancels[t] <= 1)
  {
    ReachedInv(contextContinue, m, ps, s);
    if s.remaining != [] {
      assert s.remaining[0] in s.remaining;
      assert s.children[s.remaining[0]] in s.children;
    }
    if t < |s.cancels| { assert CancelledOnce(s, t); }
  }

  // When the block is left normally, with a group, or by an outside cancellation, all children are
  // done; when it is left otherwise, those that are not have been cancelled, but for those that
  // `_cancel` did not get to.
  lemma ChildrenAreDoneAtExit(contextContinue: bool, m: nat, ps: seq<Step>, s: State, t: nat)
    requires Reached(contextContinue, m, ps, s) && s.parent.Exited? && t < |s.children|
    ensures s.parent.how.Normal? || s.parent.how.Group? || s.parent.how.Reraised? ==> s.children[t].outcome.Some?
    ensures t < |s.cancels| && (s.children[t].outcome.None? ==> s.cancels[t] == (if t in s.spared then 0 else 1))
  {
    ReachedInv(contextContinue, m, ps, s);
    assert CancelledOnce(s, t);
    assert s.children[t].outcome.None? ==> t in s.remaining;
  }

  // ----- How the block is left -----

  // The parent has been cancelled by somebody else: while the block executed, or while it waited.
  predicate FromOutside(s: State, p: Step) {
    match p
    case LeaveBlock(how) => how.Cancellation? && !s.cancelled
    case Resume => s.parent.Draining? || (s.parent.Waiting? && s.throwing)
    case _ => false
  }

  predicate Ended(s: State) {
    s.parent == Exited(Normal) || (s.parent.Exited? && s.parent.how.Group?)
  }

  ghost predicate AllDone(s: State) {
    forall t :: 0 <= t < |s.children| ==> s.children[t].outcome.Some?
  }

  // A cancellation from outside is never swallowed.  The manager concludes, normally or with a group, only
  // when it is resumed without one; otherwise the CancelledError goes on as soon as all children are done, and
  // at once if it comes after the block has ignored another.
  lemma CancellationGoesOn(contextContinue: bool, m: nat, ps: seq<Step>, s: State, p: Step)
    requires Reached(contextContinue, m, ps, s) && Enabled(s, p) && (p.LeaveBlock? || p.Resume?)
    ensures var r := Next(s, p);
      && (Ended(r) <==> p.Resume? && s.parent.Waiting? && !s.throwing)
      && (r.parent == Exited(Reraised) <==> FromOutside(s, p) && AllDone(s))
      && (FromOutside(s, p) ==> r.parent.Draining? || r.parent == Exited(Reraised) ||
                                r.parent == Exited(Closed) || r.parent == Exited(CancelFailed))
      && (r.parent == Exited(Interrupted) <==> s.parent.Token? && s.since > 0)
  {
    ReachedInv(contextContinue, m, ps, s);
    AllDoneIff(s);
    if p.Resume? {
      ResumeLeaves(s);
    } else {
      LeaveLeaves(s, p.how);
    }
  }

  lemma AllDoneIff(s: State)
    requires Tracked(s)
    ensures AllDone(s) <==> s.remaining == []
  {
    assert forall t :: 0 <= t < |s.children| && s.children[t].outcome.None? ==> t in s.remaining;
    if s.remaining != [] { assert s.remaining[0] in s.remaining; }
  }

  lemma ResumeLeaves(s: State)
    requires Inv(s) && Enabled(s, Resume)
    ensures var r := ResumeParent(s);
      && (Ended(r) <==> s.parent.Waiting? && !s.throwing)
      && (r.parent == Exited(Reraised) <==> FromOutside(s, Resume) && s.remaining == [])
      && (FromOutside(s, Resume) ==> r.parent.Draining? || r.parent == Exited(Reraised) ||
                                     r.parent == Exited(Closed) || r.parent == Exited(CancelFailed))
      && (r.parent == Exited(Interrupted) <==> s.parent.Token? && s.since > 0)
  {
  }

  ghost predicate LeavesAs(s: State, how: BlockExit, r: State) {
    && !Ended(r) && r.parent != Exited(Interrupted)
    && (r.parent == Exited(Reraised) <==> FromOutside(s, LeaveBlock(how)) && s.remaining == [])
    && (FromOutside(s, LeaveBlock(how)) ==> r.parent.Draining? || r.parent == Exited(Reraised) ||
                                            r.parent == Exited(Closed) || r.parent == Exited(CancelFailed))
  }

  lemma LeaveLeaves(s: State, how: BlockExit)
    requires Inv(s) && s.parent.Block?
    ensures LeavesAs(s, how, BlockEnds(s, how))
  {
    var s1 := s.(finishing := true);
    if !how.SpecialError? && !s.cancelled {
      UncancelledLeaves(s1, how);
    }
  }

  lemma UncancelledLeaves(s: State, how: BlockExit)
    requires !s.cancelled && !how.SpecialError? && s.finishing && (s.noneRemaining <==> s.remaining == [])
    ensures LeavesAs(s, how, UncancelledEnds(s, how))
  {
    match how
    case Cancellation =>
      NothingSpared(s.remaining, s.busy);
      DrainsAs(s);
    case Error(e) =>
      var s1 := s.(blockError := Some(e));
      AwaitsAs(s1);
      if !CancelFails(s1) { AwaitsAs(CancelChildren(s1)); }
    case _ => AwaitsAs(s);
  }

  lemma AwaitsAs(s: State)
    ensures var r := AwaitNoneRemaining(s);
      r.parent == (if s.mustCancel == 0 then Waiting else Exited(if CancelFails(s) then CancelFailed else Closed))
    ensures AwaitNoneRemaining(s).blockError == s.blockError && AwaitNoneRemaining(s).finishing == s.finishing
  {
  }

  lemma DrainsAs(s: State)
    requires s.noneRemaining <==> s.remaining == []
    ensures var r := CancelAndDrain(s);
      && (r.parent == Exited(CancelFailed) <==> CancelFails(s))
      && (r.parent == Exited(Reraised) <==> !CancelFails(s) && s.remaining == [])
      && (r.parent.Draining? || r.parent == Exited(Reraised) || r.parent == Exited(Closed) ||
          r.parent == Exited(CancelFailed))
    ensures CancelAndDrain(s).blockError == s.blockError && CancelAndDrain(s).finishing == s.finishing
  {
    if !CancelFails(s) { DrainHeadAs(Uncancel(CancelChildren(s))); }
  }

  lemma DrainHeadAs(s: State)
    ensures var r := DrainHead(s);
      && (r.parent == Exited(Reraised) <==> s.noneRemaining)
      && (r.parent.Draining? || r.parent == Exited(Reraised) || r.parent == Exited(Closed))
      && r.blockError == s.blockError && r.finishing == s.finishing
  {
  }

  // So once the parent has been cancelled where it waits, no run brings it to a regular end.
  lemma {:induction false} CancellationIsNotSwallowed(s: State, ps: seq<Step>)
    requires Inv(s) && Legal(s, ps) && !Ended(s)
    requires s.parent.Exited? || s.parent.Draining? || (s.parent.Waiting? && s.throwing)
    ensures !Ended(Exec(s, ps))
    decreases |ps|
  {
    if ps != [] {
      StepKeepsInv(s, ps[0]);
      StaysCancelled(s, ps[0]);
      CancellationIsNotSwallowed(Next(s, ps[0]), ps[1..]);
    }
  }

  lemma StaysCancelled(s: State, p: Step)
    requires Inv(s) && Enabled(s, p) && !Ended(s)
    requires s.parent.Exited? || s.parent.Draining? || (s.parent.Waiting? && s.throwing)
    ensures var r := Next(s, p);
      !Ended(r) && (r.parent.Exited? || r.parent.Draining? || (r.parent.Waiting? && r.throwing))
  {
    match p
    case Resume => ResumeLeaves(s);
    case Complete(t, o) =>
      DeliveredIsTracked(s, t, o);
      ChildDoneIs(s, t, o);
    case _ =>
  }

  // The other ways in which the end of the block is left or waits.
  lemma HowTheBlockEnds(contextContinue: bool, m: nat, ps: seq<Step>, s: State, how: BlockExit)
    requires Reached(contextContinue, m, ps, s) && s.parent.Block?
    ensures BlockEndsAs(s, how, BlockEnds(s, how))
  {
    ReachedInv(contextContinue, m, ps, s);
    if how.SpecialError? {
    } else if s.cancelled {
      CancelledEndsAs(s.(finishing := true), how);
    } else {
      UncancelledEndsAs(s.(finishing := true), how);
    }
  }

  ghost predicate BlockEndsAs(s: State, how: BlockExit, r: State) {
    var fails := CancelFails(s.(finishing := true));
    && r.finishing
    && (r.parent == Exited(Special) <==> how.SpecialError? && !fails)
    && (r.parent == Exited(CancelFailed) <==>
          fails && (how.SpecialError? || how.Cancellation? || (how.Error? && !s.contextContinue) || s.mustCancel > 0))
    && (r.parent.Token? <==> s.cancelled && !how.SpecialError? && !how.Cancellation? && s.mustCancel == 0)
    && (r.parent.Waiting? <==>
          if s.cancelled then how.Cancellation? && s.mustCancel <= 1
          else s.mustCancel == 0 && (how.Completed? || (how.Error? && (s.contextContinue || !fails))))
    && r.blockError == (if how.Error? && !s.cancelled then Some(how.e) else s.blockError)
  }

  lemma CancelledEndsAs(s: State, how: BlockExit)
    requires s.finishing && s.cancelled && !how.SpecialError?
    ensures BlockEndsAs(s, how, CancelledEnds(s, how))
  {
  }

  lemma UncancelledEndsAs(s: State, how: BlockExit)
    requires s.finishing && !s.cancelled && !how.SpecialError?
    requires s.noneRemaining <==> s.remaining == []
    ensures BlockEndsAs(s, how, UncancelledEnds(s, how))
  {
    assert s.(finishing := true) == s;
    match how
    case Cancellation => DrainsAs(s);
    case Error(e) => FailedBlockEndsAs(s, e);
    case _ => AwaitsAs(s);
  }

  lemma FailedBlockEndsAs(s: State, e: int)
    requires s.finishing && !s.cancelled
    ensures BlockEndsAs(s, Error(e), UncancelledEnds(s, Error(e)))
  {
    assert s.(finishing := true) == s;
    var s1 := s.(blockError := Some(e));
    AwaitsAs(s1);
    if !CancelFails(s1) { AwaitsAs(CancelChildren(s1)); }
  }

  // Of the two regular exits it is a group exactly when a child failed or the block ended with an
  // error, and the group holds exactly those errors.
  lemma GroupHoldsAllErrors(contextContinue: bool, m: nat, ps: seq<Step>, s: State)
    requires Reached(contextContinue, m, ps, s) && s.parent.Exited? && (s.parent.how.Normal? || s.parent.how.Group?)
    ensures var errors := Errors(s.children) + ErrorSet(s.blockError);
      s.parent.how == if errors == {} then Normal else Group(errors)
  {
    ReachedInv(contextContinue, m, ps, s);
  }

  // Who cancels the children: a child that fails and may not be ignored.  While the block executes, its
  // parent is cancelled before them.  That raises if and only if the parent, or one of them, is RUNNING;
  lemma FailingChildrenCancelTheOthers(contextContinue: bool, m: nat, ps: seq<Step>, s: State, t: nat, o: Outcome)
    requires Reached(contextContinue, m, ps, s) && Enabled(s, Complete(t, o))
    ensures var r := Next(s, Complete(t, o));
      var begins := !s.cancelled && o.Errored? && !s.children[t].continueOnError;
      && (r.cancelled <==> s.cancelled || begins)
      && r.mustCancel == s.mustCancel + (if begins && !s.finishing && !s.running then 1 else 0)
      && (r.raised <==> s.raised || (begins && ((!s.finishing && s.running) || AnyBusy(r))))
  {
    ReachedInv(contextContinue, m, ps, s);
    DeliveredIsTracked(s, t, o);
    ChildDoneIs(s, t, o);
    NothingSpared(Delivered(s, t, o).remaining, Delivered(s, t, o).busy);
  }

  // and a block that fails and may not be ignored, is cancelled, or dies, or that the scheduler closes
  // at its first `await` because a cancellation is unanswered.
  lemma FailingBlocksCancelTheChildren(s: State, how: BlockExit)
    requires s.parent.Block?
    ensures BlockEnds(s, how).cancelled <==>
      s.cancelled || how.Cancellation? || how.SpecialError? || (how.Error? && !s.contextContinue) || s.mustCancel > 0
  {
    var s1 := s.(finishing := true);
    if !how.SpecialError? {
      if s1.cancelled { EndsCancelled(s1, how); } else { EndsUncancelled(s1, how); }
    }
  }

  lemma EndsCancelled(s: State, how: BlockExit)
    requires s.cancelled
    ensures CancelledEnds(s, how).cancelled
  {
  }

  lemma EndsUncancelled(s: State, how: BlockExit)
    requires s.finishing && !s.cancelled && !how.SpecialError?
    ensures UncancelledEnds(s, how).cancelled <==>
      how.Cancellation? || (how.Error? && !s.contextContinue) || s.mustCancel > 0
  {
    match how
    case Cancellation => assert CancelAndDrain(s).cancelled;
    case Error(e) =>
    case _ =>
  }

  // A child that fails while its parent is RUNNING (as one does that another child ends at once): the
  // others are not cancelled then, nor later.
  lemma TheOthersAreSpared()
    ensures var ps := [EnterBlock, Start(false, true), Start(false, true), Turn(true), Complete(0, Errored(7))];
      && Legal(Init(false, 0), ps)
      && var s := Exec(Init(false, 0), ps);
      && s.cancelled && s.raised && s.remaining == [1] && s.cancels == [0, 0] && s.spared == [1]
  {
    var s1 := Next(Init(false, 0), EnterBlock);
    var s2 := Next(s1, Start(false, true));
    assert s2.children == [Child(false, None)] && s2.remaining == [0] && s2.cancels == [0];
    var s3 := Next(s2, Start(false, true));
    assert s3.children == [Child(false, None), Child(false, None)] && s3.remaining == [0, 1] && s3.cancels == [0, 0];
    AFailureUnderItsParent(s3);
    var rest := [Turn(true), Complete(0, Errored(7))];
    ConsLegal(s2, Start(false, true), rest);
    ConsLegal(s1, Start(false, true), [Start(false, true)] + rest);
    ConsLegal(Init(false, 0), EnterBlock, [Start(false, true)] + ([Start(false, true)] + rest));
  }

  lemma AFailureUnderItsParent(s: State)
    requires s.parent == Block && !s.cancelled && !s.finishing
    requires s.children == [Child(false, None), Child(false, None)] && s.remaining == [0, 1] && s.cancels == [0, 0]
    ensures var ps := [Turn(true), Complete(0, Errored(7))];
      && Legal(s, ps)
      && var r := Exec(s, ps);
      && r.cancelled && r.raised && r.remaining == [1] && r.cancels == [0, 0] && r.spared == [1]
  {
    var s1 := Next(s, Turn(true));
    assert [0, 1][1..] == [1] && Without([0, 1], 0) == Without([1], 0);
    assert Without([1], 0) == [1];
    ChildDoneIs(s1, 0, Errored(7));
    ConsLegal(s1, Complete(0, Errored(7)), []);
    ConsLegal(s, Turn(true), [Complete(0, Errored(7))]);
  }

  // When `_cancel` comes to the children, exactly those before the first RUNNING one, in the order of the
  // dict, are cancelled; it raises if there is one.
  lemma TheFirstRunningChildStopsTheLoop(s: State)
    requires Inv(s) && !s.cancelled && (s.finishing || !s.running)
    ensures var r := CancelChildren(s);
      && |r.spared| <= |s.remaining| && r.spared == s.remaining[|s.remaining| - |r.spared|..]
      && (r.raised <==> AnyBusy(s)) && (r.raised <==> r.spared != []) && (r.raised ==> r.spared[0] in s.busy)
      && (forall i :: 0 <= i < |s.remaining| - |r.spared| ==> s.remaining[i] !in s.busy)
    ensures var r := CancelChildren(s);
      |r.cancels| == |s.cancels| &&
      forall t :: 0 <= t < |s.cancels| ==> r.cancels[t] == if t in s.remaining && t !in r.spared then 1 else 0
  {
    NothingSpared(s.remaining, s.busy);
    CancelledAreNotSpared(s);
  }

  lemma CancelledAreNotSpared(s: State)
    requires Inv(s) && !s.cancelled && (s.finishing || !s.running)
    ensures var r := CancelChildren(s);
      |r.cancels| == |s.cancels| &&
      forall t :: 0 <= t < |s.cancels| ==> r.cancels[t] == if t in s.remaining && t !in r.spared then 1 else 0
  {
    BeforeSplits(s.remaining, s.busy);
    ReachedCounts(s);
    forall t | 0 <= t < |s.cancels| ensures s.cancels[t] == 0 { assert CancelledOnce(s, t); }
  }

  // The second of four children fails, ended by the third, which is RUNNING: the first one is cancelled, the
  // third and the fourth never are.
  lemma HalfOfThemAreCancelled(s: State, e: int)
    requires s.parent == Block && !s.cancelled && !s.finishing && !s.running && s.busy == {}
    requires s.children == [Child(false, None), Child(false, None), Child(false, None), Child(false, None)]
    requires s.remaining == [0, 1, 2, 3] && s.cancels == [0, 0, 0, 0]
    ensures var ps := [TurnChild(2, true), Complete(1, Errored(e))];
      && Legal(s, ps)
      && var r := Exec(s, ps);
      && r.raised && r.remaining == [0, 2, 3] && r.cancels == [1, 0, 0, 0] && r.spared == [2, 3]
  {
    var s1 := Next(s, TurnChild(2, true));
    TheSecondFails(s1, e);
    ConsLegal(s1, Complete(1, Errored(e)), []);
    ConsLegal(s, TurnChild(2, true), [Complete(1, Errored(e))]);
  }

  lemma TheSecondFails(s: State, e: int)
    requires s.parent == Block && !s.cancelled && !s.finishing && !s.running && s.busy == {2}
    requires s.children == [Child(false, None), Child(false, None), Child(false, None), Child(false, None)]
    requires s.remaining == [0, 1, 2, 3] && s.cancels == [0, 0, 0, 0]
    ensures var r := ChildDone(s, 1, Errored(e));
      r.raised && r.remaining == [0, 2, 3] && r.cancels == [1, 0, 0, 0] && r.spared == [2, 3]
  {
    ChildDoneIs(s, 1, Errored(e));
    TheSecondIsDelivered(s, e);
    CancelUpToTwo(Delivered(s, 1, Errored(e)));
  }

  lemma TheSecondIsDelivered(s: State, e: int)
    requires |s.children| == 4 && s.busy == {2} && s.remaining == [0, 1, 2, 3]
    ensures var d := Delivered(s, 1, Errored(e));
      && d.remaining == [0, 2, 3] && d.busy == {2} && d.cancels == s.cancels && d.cancelled == s.cancelled
      && d.finishing == s.finishing && d.running == s.running
  {
    assert [0, 1, 2, 3] == [0] + [1] + [2, 3];
    WithoutMiddle<nat>([0], 1, [2, 3]);
  }

  lemma CancelUpToTwo(s: State)
    requires !s.cancelled && !s.finishing && !s.running && s.busy == {2} && s.remaining == [0, 2, 3]
    requires s.cancels == [0, 0, 0, 0]
    ensures var r := CancelChildren(s);
      r.raised && r.remaining == [0, 2, 3] && r.cancels == [1, 0, 0, 0] && r.spared == [2, 3]
  {
    assert [0, 2, 3][1..] == [2, 3];
    assert Before([2, 3], {2}) == [] && Before([0, 2, 3], {2}) == [0];
    assert [0][1..] == [] && CountEach([0, 0, 0, 0], [0]) == CountEach([1, 0, 0, 0], []);
  }

  // Once the parent waits, a resume makes the scheduler close it, with children still running,
  // exactly when two or more cancellations have reached it since.
  lemma ClosedIffCancelledTwice(contextContinue: bool, m: nat, ps: seq<Step>, s: State)
    requires Reached(contextContinue, m, ps, s) && (s.parent.Waiting? || s.parent.Draining?) && Enabled(s, Resume)
    ensures Next(s, Resume).parent == Exited(Closed) <==>
      && s.since >= 2 && (exists c :: c in s.children && c.outcome.None?)
      && !(s.parent.Waiting? && CancelFails(s))
    ensures Next(s, Resume).parent == Exited(CancelFailed) <==> s.parent.Waiting? && s.throwing && CancelFails(s)
  {
    ReachedInv(contextContinue, m, ps, s);
    if s.remaining != [] {
      assert s.remaining[0] in s.remaining;
      assert s.children[s.remaining[0]] in s.children;
    }
  }

  // Such a run.
  lemma AParentIsClosed()
    ensures var ps := [EnterBlock, Start(false, true), LeaveBlock(Completed), CancelTheParent, CancelTheParent, Resume];
      && Legal(Init(false, 0), ps)
      && var s := Exec(Init(false, 0), ps);
      && s.parent == Exited(Closed) && s.children == [Child(false, None)]
  {
    var waiting := [EnterBlock, Start(false, true), LeaveBlock(Completed)];
    var closing := [CancelTheParent, CancelTheParent, Resume];
    AParentWaits();
    TwoCancelsClose(Exec(Init(false, 0), waiting));
    ExecConcat(Init(false, 0), waiting, closing);
    assert waiting + closing ==
           [EnterBlock, Start(false, true), LeaveBlock(Completed), CancelTheParent, CancelTheParent, Resume];
  }

  lemma AParentWaits()
    ensures var ps := [EnterBlock, Start(false, true), LeaveBlock(Completed)];
      && Legal(Init(false, 0), ps)
      && var s := Exec(Init(false, 0), ps);
      && s.parent == Waiting && s.children == [Child(false, None)] && !s.noneRemaining && s.mustCancel == 0
      && s.busy == {} && s.finishing
  {
    var s1 := Next(Init(false, 0), EnterBlock);
    var s2 := Next(s1, Start(false, true));
    assert s2.children == [Child(false, None)] && s2.remaining == [0];
    ConsLegal(s2, LeaveBlock(Completed), []);
    ConsLegal(s1, Start(false, true), [LeaveBlock(Completed)]);
    ConsLegal(Init(false, 0), EnterBlock, [Start(false, true), LeaveBlock(Completed)]);
  }

  lemma TwoCancelsClose(s: State)
    requires s.parent == Waiting && !s.noneRemaining && s.mustCancel == 0 && s.busy == {} && s.finishing
    ensures var ps := [CancelTheParent, CancelTheParent, Resume];
      && Legal(s, ps) && Exec(s, ps).parent == Exited(Closed) && Exec(s, ps).children == s.children
  {
    var s1 := CancelParent(s);
    var s2 := CancelParent(s1);
    ConsLegal(s2, Resume, []);
    ConsLegal(s1, CancelTheParent, [Resume]);
    ConsLegal(s, CancelTheParent, [CancelTheParent, Resume]);
  }

  // The same where the block ends: what is left of `mustCancel` after the one that it answers.
  lemma ClosedAtTheEndOfTheBlockIff(contextContinue: bool, m: nat, ps: seq<Step>, s: State, how: BlockExit)
    requires Reached(contextContinue, m, ps, s) && s.parent.Block? && !how.SpecialError?
    ensures BlockEnds(s, how).parent == Exited(Closed) <==>
      && !CancelFails(s.(finishing := true))
      && if how.Cancellation? then s.mustCancel >= 2 && (s.cancelled || !s.noneRemaining)
         else s.mustCancel >= 1
  {
    ReachedInv(contextContinue, m, ps, s);
  }

  // "This will never run": it does, exactly when the block swallows the cancellation that a failed
  // child caused and everything has been uncancelled by the time the block ends (as an inner
  // `wait` or TaskManager does before it re-raises).
  lemma UnreachableCodeIsReachedIff(contextContinue: bool, m: nat, ps: seq<Step>, s: State, how: BlockExit)
    requires Reached(contextContinue, m, ps, s) && s.parent.Block? && !how.SpecialError?
    ensures (BlockEnds(s, how).parent.Token? && Next(BlockEnds(s, how), Resume).parent == Exited(Unreachable))
      <==> s.cancelled && !how.Cancellation? && s.mustCancel == 0
  {
    ReachedInv(contextContinue, m, ps, s);
  }

  // And there is a run that gets there.
  lemma UnreachableCodeIsReached()
    ensures exists ps, s :: Reached(false, 0, ps, s) && s.parent == Exited(Unreachable)
  {
    var s0 := Init(false, 0);
    var failing := [EnterBlock, Start(false, true), Complete(0, Errored(7))];
    var swallowing := [Answer, LeaveBlock(Completed), Resume];
    AChildFails();
    SwallowingReaches(Exec(s0, failing));
    ExecConcat(s0, failing, swallowing);
    assert Reached(false, 0, failing + swallowing, Exec(s0, failing + swallowing));
  }

  lemma AChildFails()
    ensures var ps := [EnterBlock, Start(false, true), Complete(0, Errored(7))];
      Legal(Init(false, 0), ps) && var s := Exec(Init(false, 0), ps);
      s.parent.Block? && s.cancelled && s.mustCancel == 1
  {
    var s0 := Init(false, 0);
    var s1 := Next(s0, EnterBlock);
    var s2 := Next(s1, Start(false, true));
    assert s2.children == [Child(false, None)] && s2.remaining == [0];
    ConsLegal(s2, Complete(0, Errored(7)), []);
    ConsLegal(s1, Start(false, true), [Complete(0, Errored(7))]);
    ConsLegal(s0, EnterBlock, [Start(false, true), Complete(0, Errored(7))]);
  }

  lemma SwallowingReaches(s: State)
    requires s.parent.Block? && s.cancelled && s.mustCancel == 1
    ensures var ps := [Answer, LeaveBlock(Completed), Resume];
      Legal(s, ps) && Exec(s, ps).parent == Exited(Unreachable)
  {
    var s1 := Next(s, Answer);
    var s2 := Next(s1, LeaveBlock(Completed));
    ConsLegal(s2, Resume, []);
    ConsLegal(s1, LeaveBlock(Completed), [Resume]);
    ConsLegal(s, Answer, [LeaveBlock(Completed), Resume]);
  }

  lemma ConsLegal(s: State, p: Step, ps: seq<Step>)
    requires Enabled(s, p) && Legal(Next(s, p), ps)
    ensures Legal(s, [p] + ps) && Exec(s, [p] + ps) == Exec(Next(s, p), ps)
  {
    assert ([p] + ps)[1..] == ps;
  }

  lemma HeadOfConcat(ps: seq<Step>, qs: seq<Step>)
    requires ps != []
    ensures (ps + qs)[0] == ps[0] && (ps + qs)[1..] == ps[1..] + qs
  {
  }

  lemma {:induction false} ExecConcat(s: State, ps: seq<Step>, qs: seq<Step>)
    requires Legal(s, ps) && Legal(Exec(s, ps), qs)
    ensures Legal(s, ps + qs) && Exec(s, ps + qs) == Exec(Exec(s, ps), qs)
    decreases |ps|
  {
    if ps == [] {
      assert ps + qs == qs;
    } else {
      ExecConcat(Next(s, ps[0]), ps[1..], qs);
      HeadOfConcat(ps, qs);
    }
  }

  // ----- The program -----

  class Manager {
    const contextContinueOnError: bool
    var children: seq<Child>
    var remainingTasks: seq<nat>
    var noneRemaining: bool
    var exceptions: set<int>
    var cancelled: bool
    var finishing: bool
    var parent: Parent
    var blockError: Option<int>
    var throwing: bool
    var mustCancel: nat
    var cancels: seq<nat>
    var running: bool
    var busy: set<nat>
    ghost var since: nat
    ghost var raised: bool
    ghost var spared: seq<nat>

    ghost function Snapshot(): State
      reads this
    {
      State(contextContinueOnError, children, remainingTasks, noneRemaining, exceptions, cancelled, finishing,
            parent, blockError, throwing, mustCancel, since, cancels, running, busy,
            raised, spared)
    }

    constructor (contextContinueOnError: bool, mustCancel: nat)
      ensures Snapshot() == Init(contextContinueOnError, mustCancel)
    {
      this.contextContinueOnError := contextContinueOnError;
      children, remainingTasks, noneRemaining, exceptions := [], [], true, {};
      cancelled, finishing, parent, blockError := false, false, Outside, None;
      throwing, this.mustCancel, cancels, since := false, mustCancel, [], 0;
      running, busy, raised, spared := false, {}, false, [];
    }

    method StartChild(continueOnError: bool, byParent: bool) returns (ok: bool)
      modifies this
      ensures match StartSoon(old(Snapshot()), continueOnError, byParent)
              case Some(s) => ok && Snapshot() == s
              case None => !ok && Snapshot() == old(Snapshot())
    {
      if cancelled || finishing || parent.Outside? || !byParent {
        return false;
      }
      var t := |children|;
      children := children + [Child(continueOnError, None)];
      cancels := cancels + [0];
      remainingTasks := remainingTasks + [t];
      noneRemaining := false;
      return true;
    }

    // `_cancel`; false when it raises.
    method CancelAll() returns (ok: bool)
      modifies this
      ensures Snapshot() == CancelChildren(old(Snapshot())) && ok == !CancelFails(old(Snapshot()))
    {
      if cancelled {
        return true;
      }
      cancelled := true;
      if !finishing {
        if running {
          raised, spared := true, remainingTasks;
          return false;
        }
        CancelTheParent();
      }
      ok := CancelTheChildren();
    }

    method CancelTheParent()
      modifies this`mustCancel, this`throwing, this`since
      ensures Snapshot() == CancelParent(old(Snapshot()))
    {
      mustCancel := mustCancel + 1;
      throwing := true;
      since := since + 1;
    }

    method CancelTheChildren() returns (ok: bool)
      requires cancelled
      modifies this`cancels, this`spared, this`raised
      ensures Snapshot() == CancelReached(old(Snapshot())) && ok == !raised
    {
      var n := CancelUntilRunning();
      ok := n == |remainingTasks|;
      spared, raised := remainingTasks[n..], !ok;
    }

    // Its loop over the children.
    method CancelUntilRunning() returns (n: nat)
      modifies this`cancels
      ensures n == |Before(remainingTasks, busy)|
      ensures cancels == CountEach(old(cancels), Before(remainingTasks, busy))
    {
      ghost var reached := Before(remainingTasks, busy);
      n := 0;
      while n < |remainingTasks| && remainingTasks[n] !in busy
        invariant n <= |reached|
        invariant CountEach(cancels, reached[n..]) == CountEach(old(cancels), reached)
      {
        assert reached[n..][1..] == reached[n + 1..];
        var t := remainingTasks[n];
        if t < |cancels| {
          cancels := cancels[t := cancels[t] + 1];
        }
        n := n + 1;
      }
      assert reached[n..] == [];
    }

    // `_done_callback`
    method ChildFinished(t: nat, o: Outcome) returns (ok: bool)
      requires t < |children| && t in remainingTasks
      modifies this
      ensures Snapshot() == ChildDone(old(Snapshot()), t, o)
      ensures ok <==> old(cancelled) || !cancelled || !raised
    {
      ok := true;
      ChildDoneIs(Snapshot(), t, o);
      var continueOnError := children[t].continueOnError;
      Deliver(t, o);
      if o.Errored? && !continueOnError {
        ok := CancelAll();
      }
    }

    // What it does before it decides whether to cancel the others.
    method Deliver(t: nat, o: Outcome)
      requires t < |children|
      modifies this`children, this`remainingTasks, this`noneRemaining, this`exceptions, this`busy
      ensures Snapshot() == Delivered(old(Snapshot()), t, o)
    {
      busy := busy - {t};
      children := children[t := children[t].(outcome := Some(o))];
      remainingTasks := Without(remainingTasks, t);
      if remainingTasks == [] {
        noneRemaining := true;
      }
      exceptions := exceptions + if o.Errored? then {o.e} else {};
    }

    method UncancelParent()
      modifies this`mustCancel
      ensures Snapshot() == Uncancel(old(Snapshot()))
    {
      if mustCancel > 0 {
        mustCancel := mustCancel - 1;
      }
    }

    method AwaitEvent()
      modifies this
      ensures Snapshot() == AwaitNoneRemaining(old(Snapshot()))
    {
      if mustCancel > 0 {
        var ok := CancelAll();
        parent := Exited(if ok then Closed else CancelFailed);
      } else {
        parent, throwing, since := Waiting, false, 0;
      }
    }

    method Drain()
      modifies this
      ensures Snapshot() == DrainHead(old(Snapshot()))
    {
      if noneRemaining {
        parent := Exited(Reraised);
      } else if mustCancel > 0 {
        parent := Exited(Closed);
      } else {
        parent, throwing, since := Draining, false, 0;
      }
    }

    // `__aexit__`
    method AExit(how: BlockExit)
      modifies this
      ensures Snapshot() == BlockEnds(old(Snapshot()), how)
    {
      finishing := true;
      if how.SpecialError? {
        var ok := CancelAll();
        parent := Exited(if ok then Special else CancelFailed);
        return;
      }
      if cancelled {
        AnswerOrIgnore(how);
      } else {
        WaitForChildren(how);
      }
    }

    method AnswerOrIgnore(how: BlockExit)
      modifies this
      ensures Snapshot() == CancelledEnds(old(Snapshot()), how)
    {
      if how.Cancellation? {
        UncancelParent();
        AwaitEvent();
      } else if mustCancel > 0 {
        parent := Exited(Closed);
      } else {
        parent, throwing, since := Token, false, 0;
      }
    }

    method CancelAndWait()
      modifies this
      ensures Snapshot() == CancelAndDrain(old(Snapshot()))
    {
      var ok := CancelAll();
      if !ok {
        parent := Exited(CancelFailed);
        return;
      }
      UncancelParent();
      Drain();
    }

    method WaitForChildren(how: BlockExit)
      requires !how.SpecialError?
      modifies this
      ensures Snapshot() == UncancelledEnds(old(Snapshot()), how)
    {
      if how.Cancellation? {
        CancelAndWait();
        return;
      }
      if how.Error? {
        blockError := Some(how.e);
        if !contextContinueOnError {
          var ok := CancelAll();
          if !ok {
            parent := Exited(CancelFailed);
            return;
          }
        }
      }
      AwaitEvent();
    }

    // The rest of `__aexit__`, from one `await` to the next.
    method AExitResumes()
      requires Enabled(Snapshot(), Resume)
      modifies this
      ensures Snapshot() == ResumeParent(old(Snapshot()))
    {
      if parent.Waiting? {
        if throwing {
          CancelAndWait();
          return;
        }
        exceptions := exceptions + ErrorSet(blockError);
        parent := Exited(if exceptions != {} then Group(exceptions) else Normal);
      } else if parent.Draining? {
        if throwing {
          UncancelParent();
        }
        Drain();
      } else {
        parent := Exited(if throwing then Interrupted else Unreachable);
      }
    }
  }
}
