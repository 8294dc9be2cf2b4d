/**
 The start and the end of a simulation: the callbacks of either, the drains that run them, and the
 finalization protocol of the FLI.

 User callbacks are foreign code: while one executes it may register and remove others, and ask the
 simulation to finish.  The simulator does not enter a callback while another is executing.
 */
module Shutdown {
  import opened Wrappers
  import opened Sequences

  // The callbacks of one kind, with their history: every registration gets the next number.
  datatype Callbacks = Callbacks(
    queue: seq<nat>,       // the intrusive deque
    registered: nat,
    removed: set<nat>,
    ran: seq<nat>,
    underlying: bool)      // the simulator's own callback is registered

  datatype Kind = StartOfSim | EndOfSim

  // A drain of the start-of-sim callbacks, of the end-of-sim callbacks when the simulator quits, or
  // of the end-of-sim callbacks because the simulation was asked to finish.
  datatype Drain = Startup | Quit | Finish

  datatype Pc =
    | Idle                // the simulator is in control
    | User                // an ordinary user callback executes
    | Draining(d: Drain)  // a drain loop, between two callbacks
    | Drained(d: Drain)   // a drain loop, inside a callback

  datatype State = State(
    start: Callbacks,
    end: Callbacks,
    finalizers: seq<nat>,
    pc: Pc,
    error: bool,           // accumulated by the drain
    finalizing: bool,
    users: nat,            // history: user callbacks entered
    finalized: seq<seq<nat>>)  // history: the finalize callbacks run by each `gpi_finalize`

  const NoCallbacks: Callbacks := Callbacks([], 0, {}, [], false)

  const Initial: State := State(NoCallbacks, NoCallbacks, [], Idle, false, false, 0, [])

  // ----- The operations -----

  function Add(c: Callbacks): Callbacks {
    c.(queue := c.queue + [c.registered], registered := c.registered + 1, underlying := true)
  }

  // `InternalCbHdl::remove` on a callback that has not run.
  function RemoveFrom(c: Callbacks, id: nat): Callbacks {
    c.(queue := Without(c.queue, id), removed := c.removed + {id})
  }

  function PopFront(c: Callbacks): Callbacks
    requires c.queue != []
  {
    c.(queue := c.queue[1..], ran := c.ran + [c.queue[0]])
  }

  function Of(s: State, k: Kind): Callbacks {
    if k.StartOfSim? then s.start else s.end
  }

  function With(s: State, k: Kind, c: Callbacks): State {
    if k.StartOfSim? then s.(start := c) else s.(end := c)
  }

  function KindOf(d: Drain): Kind {
    if d.Startup? then StartOfSim else EndOfSim
  }

  // `gpi_finalize`: the finalize callbacks, last registered first
  function GpiFinalize(s: State): State {
    s.(finalized := s.finalized + [Reverse(s.finalizers)])
  }

  // `handle_fli_callback` on entry
  function Enter(s: State, d: Option<Drain>): State {
    if s.finalizing then s
    else if d.None? then s.(pc := User, users := s.users + 1)
    else s.(pc := Draining(d.value), error := false)
  }

  // `handle_fli_callback` after the callback has run
  function Leave(s: State, error: bool, isShutdown: bool): State {
    var s1 := s.(finalizing := s.finalizing || error, error := false);
    if !s1.finalizing then s1.(pc := Idle)
    else if isShutdown then GpiFinalize(s1).(pc := Idle)
    else s1.(pc := Draining(Finish))
  }

  // The drain loop finds its deque empty.
  function DrainEnds(s: State): State
    requires s.pc.Draining?
  {
    var k := KindOf(s.pc.d);
    var s1 := With(s, k, Of(s, k).(underlying := false));
    match s.pc.d
    case Startup => Leave(s1, s.error, false)
    case Quit => Leave(s1, s.error, true)
    case Finish => GpiFinalize(s1).(pc := Idle, error := false)
  }

  datatype Step =
    | Callback                 // the simulator fires an ordinary callback,
    | FireStartup              //   the one that starts the simulation,
    | FireQuit                 //   or the one that ends it
    | Register(kind: Kind)     // foreign code registers,
    | Unregister(kind: Kind, id: nat) // removes,
    | RegisterFinalizer(id: nat)
    | GpiFinish                //   or asks to finish
    | Return(error: bool)      // foreign code returns
    | RunNext                  // a drain loop runs its next callback
    | EndDrain                 //   or ends

  predicate InUser(s: State) {
    s.pc.User? || s.pc.Drained?
  }

  predicate Enabled(s: State, p: Step) {
    match p
    case Callback => s.pc.Idle?
    case FireStartup => s.pc.Idle?
    case FireQuit => s.pc.Idle?
    case Register(_) => InUser(s)
    case Unregister(k, id) => InUser(s) && id in Of(s, k).queue
    case RegisterFinalizer(_) => InUser(s)
    case GpiFinish => InUser(s)
    case Return(_) => InUser(s)
    case RunNext => s.pc.Draining? && Of(s, KindOf(s.pc.d)).queue != []
    case EndDrain => s.pc.Draining? && Of(s, KindOf(s.pc.d)).queue == []
  }

  function Next(s: State, p: Step): State
    requires Enabled(s, p)
  {
    match p
    case Callback => Enter(s, None)
    case FireStartup => Enter(s, Some(Startup))
    case FireQuit => Enter(s, Some(Quit))
    case Register(k) => With(s, k, Add(Of(s, k)))
    case Unregister(k, id) => With(s, k, RemoveFrom(Of(s, k), id))
    case RegisterFinalizer(id) => s.(finalizers := s.finalizers + [id])
    case GpiFinish => s.(finalizing := true)
    case Return(error) =>
      if s.pc.User? then Leave(s, error, false) else s.(pc := Draining(s.pc.d), error := s.error || error)
    case RunNext =>
      var k := KindOf(s.pc.d);
      With(s, k, PopFront(Of(s, k))).(pc := Drained(s.pc.d), users := s.users + 1)
    case EndDrain => DrainEnds(s)
  }

  predicate Legal(s: State, ps: seq<Step>)
    decreases |ps|
  {
    ps == [] || (Enabled(s, ps[0]) && Legal(Next(s, ps[0]), ps[1..]))
  }

  function Exec(s: State, ps: seq<Step>): State
    requires Legal(s, ps)
    decreases |ps|
  {
    if ps == [] then s else Exec(Next(s, ps[0]), ps[1..])
  }

  // ----- The invariant -----

  // The numbers below `n` that are not in `removed`, in order.
  function Kept(n: nat, removed: set<nat>): seq<nat> {
    if n == 0 then []
    else if n - 1 in removed then Kept(n - 1, removed)
    else Kept(n - 1, removed) + [n - 1]
  }

  // Callbacks run in order of registration: those that ran, and then those in the deque, are the
  // registered ones that were not removed.
  ghost predicate InOrder(c: Callbacks) {
    && Kept(c.registered, c.removed) == c.ran + c.queue
    && forall i :: i in c.removed ==> i < c.registered
  }

  ghost predicate Inv(s: State) {
    && InOrder(s.start) && InOrder(s.end)
    && |s.finalized| <= 1
    && (|s.finalized| == 1 <==> s.finalizing && s.pc.Idle?)
    && (|s.finalized| == 1 ==> s.end.queue == [] && s.finalized[0] == Reverse(s.finalizers))
    && (s.pc == Draining(Finish) || s.pc == Drained(Finish) ==> s.finalizing)
    && (s.error ==> s.pc.Draining? || s.pc.Drained?)
    && (s.start.queue != [] ==> s.start.underlying) && (s.end.queue != [] ==> s.end.underlying)
  }

  lemma {:induction false} KeptMembers(n: nat, removed: set<nat>)
    ensures forall x: nat :: x in Kept(n, removed) <==> x < n && x !in removed
    ensures forall i, j :: 0 <= i < j < |Kept(n, removed)| ==> Kept(n, removed)[i] < Kept(n, removed)[j]
  {
    if n > 0 {
      KeptMembers(n - 1, removed);
      var front := Kept(n - 1, removed);
      forall i | 0 <= i < |front| ensures front[i] < n - 1 {
        assert front[i] in front;
      }
      assert forall x: nat :: x in Kept(n, removed) <==> x in front || (x == n - 1 && x !in removed);
    }
  }

  lemma {:induction false} KeptWithout(n: nat, removed: set<nat>, id: nat)
    ensures Kept(n, removed + {id}) == Without(Kept(n, removed), id)
  {
    if n > 0 {
      KeptWithout(n - 1, removed, id);
      var front := Kept(n - 1, removed);
      if n - 1 !in removed {
        WithoutAppend<nat>(front, n - 1, id);
        assert Kept(n, removed) == front + [n - 1];
      }
    }
  }

  lemma AddKeepsOrder(c: Callbacks)
    requires InOrder(c)
    ensures InOrder(Add(c))
  {
    assert c.ran + (c.queue + [c.registered]) == c.ran + c.queue + [c.registered];
  }

  lemma RemoveKeepsOrder(c: Callbacks, id: nat)
    requires InOrder(c) && id in c.queue
    ensures InOrder(RemoveFrom(c, id))
  {
    KeptMembers(c.registered, c.removed);
    var all := c.ran + c.queue;
    assert id in all;
    forall i | 0 <= i < |c.ran| ensures c.ran[i] != id {
      var j :| 0 <= j < |c.queue| && c.queue[j] == id;
      assert all[i] < all[|c.ran| + j];
    }
    KeptWithout(c.registered, c.removed, id);
    WithoutConcat(c.ran, c.queue, id);
    WithoutAbsent(c.ran, id);
  }

  lemma PopKeepsOrder(c: Callbacks)
    requires InOrder(c) && c.queue != []
    ensures InOrder(PopFront(c))
  {
    assert c.ran + [c.queue[0]] + c.queue[1..] == c.ran + c.queue;
  }

  lemma StepKeepsInv(s: State, p: Step)
    requires Inv(s) && Enabled(s, p)
    ensures Inv(Next(s, p))
  {
    match p
    case Register(k) => AddKeepsOrder(Of(s, k));
    case Unregister(k, id) => RemoveKeepsOrder(Of(s, k), id);
    case RunNext => PopKeepsOrder(Of(s, KindOf(s.pc.d)));
    case EndDrain => EndDrainKeepsInv(s);
    case Return(error) => ReturnKeepsInv(s, error);
    case _ =>
  }

  lemma ReturnKeepsInv(s: State, error: bool)
    requires Inv(s) && Enabled(s, Return(error))
    ensures Inv(Next(s, Return(error)))
  {
  }

  lemma EndDrainKeepsInv(s: State)
    requires Inv(s) && Enabled(s, EndDrain)
    ensures Inv(DrainEnds(s))
  {
    match s.pc.d
    case Startup => assert InOrder(DrainEnds(s).start);
    case Quit => assert InOrder(DrainEnds(s).end);
    case Finish => assert InOrder(DrainEnds(s).end);
  }

  lemma {:induction false} RunKeepsInv(s: State, ps: seq<Step>)
    requires Inv(s) && Legal(s, ps)
    ensures Inv(Exec(s, ps))
    decreases |ps|
  {
    if ps != [] {
      StepKeepsInv(s, ps[0]);
      RunKeepsInv(Next(s, ps[0]), ps[1..]);
    }
  }

  // ----- What is promised -----

  // Over any run, each callback runs at most once, in order of registration, and never after it was
  // removed.
  lemma CallbacksRunOnceInOrder(ps: seq<Step>, k: Kind)
    requires Legal(Initial, ps)
    ensures var c := Of(Exec(Initial, ps), k);
      && (forall i, j :: 0 <= i < j < |c.ran| ==> c.ran[i] < c.ran[j])
      && (forall i :: 0 <= i < |c.ran| ==> c.ran[i] < c.registered && c.ran[i] !in c.removed)
  {
    RunKeepsInv(Initial, ps);
    var c := Of(Exec(Initial, ps), k);
    KeptMembers(c.registered, c.removed);
    var all := c.ran + c.queue;
    assert forall i :: 0 <= i < |c.ran| ==> c.ran[i] == all[i] && all[i] in all;
  }

  // When a drain ends, every callback that was ever registered has run or was removed, and the next one to
  // be registered will have the simulator call back again.
  lemma DrainsAreComplete(ps: seq<Step>, id: nat)
    requires Legal(Initial, ps) && Enabled(Exec(Initial, ps), EndDrain)
    ensures var s := Exec(Initial, ps);
      var c := Of(s, KindOf(s.pc.d));
      && (id < c.registered ==> (id in c.ran <==> id !in c.removed))
      && Of(Next(s, EndDrain), KindOf(s.pc.d)) == c.(underlying := false)
  {
    RunKeepsInv(Initial, ps);
    var s := Exec(Initial, ps);
    var c := Of(s, KindOf(s.pc.d));
    KeptMembers(c.registered, c.removed);
    assert c.ran + c.queue == c.ran;
  }

  // A callback that waits to be run is never forgotten: the simulator's own callback is registered.
  lemma WaitingCallbacksHaveACaller(ps: seq<Step>, k: Kind)
    requires Legal(Initial, ps)
    ensures var c := Of(Exec(Initial, ps), k); c.queue != [] ==> c.underlying
  {
    RunKeepsInv(Initial, ps);
  }

  // ----- What a run has brought about -----

  function Registrations(ps: seq<Step>, k: Kind): nat {
    if ps == [] then 0 else Registrations(ps[..|ps| - 1], k) + if ps[|ps| - 1] == Register(k) then 1 else 0
  }

  function Finalizers(ps: seq<Step>): seq<nat> {
    if ps == [] then []
    else Finalizers(ps[..|ps| - 1]) + if ps[|ps| - 1].RegisterFinalizer? then [ps[|ps| - 1].id] else []
  }

  // What was registered and removed, of either kind, and the finalizers, are what the run says.
  lemma {:induction false} HistoryIsTheRun(ps: seq<Step>, k: Kind, id: nat)
    requires Legal(Initial, ps)
    ensures var s := Exec(Initial, ps);
      && Of(s, k).registered == Registrations(ps, k)
      && (id in Of(s, k).removed <==> Unregister(k, id) in ps)
      && s.finalizers == Finalizers(ps)
    decreases |ps|
  {
    if ps != [] {
      var front, p := ps[..|ps| - 1], ps[|ps| - 1];
      LastStep(Initial, ps);
      HistoryIsTheRun(front, k, id);
      StepHistory(Exec(Initial, front), p, k);
      assert forall q :: q in ps <==> q in front || q == p;
    }
  }

  lemma StepHistory(s: State, p: Step, k: Kind)
    requires Enabled(s, p)
    ensures var r := Next(s, p);
      && Of(r, k).registered == Of(s, k).registered + (if p == Register(k) then 1 else 0)
      && Of(r, k).removed == Of(s, k).removed + (if p.Unregister? && p.kind == k then {p.id} else {})
      && r.finalizers == s.finalizers + (if p.RegisterFinalizer? then [p.id] else [])
  {
  }

  lemma {:induction false} LastStep(s: State, ps: seq<Step>)
    requires ps != [] && Legal(s, ps)
    ensures Legal(s, ps[..|ps| - 1]) && Enabled(Exec(s, ps[..|ps| - 1]), ps[|ps| - 1])
    ensures Exec(s, ps) == Next(Exec(s, ps[..|ps| - 1]), ps[|ps| - 1])
    decreases |ps|
  {
    if |ps| > 1 {
      LastStep(Next(s, ps[0]), ps[1..]);
      assert ps[1..][..|ps| - 2] == ps[..|ps| - 1][1..];
    }
  }

  // A startup drain runs the start-of-sim callbacks and the two others the end-of-sim ones; nothing else runs any,
  // and a drain ends when its own deque is empty.
  lemma DrainsRunTheirOwn(s: State, p: Step)
    requires Enabled(s, p)
    ensures var r := Next(s, p);
      && r.start.ran == s.start.ran + (if p.RunNext? && s.pc == Draining(Startup) then s.start.queue[..1] else [])
      && r.end.ran == s.end.ran +
                      (if p.RunNext? && s.pc in {Draining(Quit), Draining(Finish)} then s.end.queue[..1] else [])
      && (p.EndDrain? ==> if s.pc == Draining(Startup) then s.start.queue == [] else s.end.queue == [])
  {
    assert s.start.ran + [] == s.start.ran && s.end.ran + [] == s.end.ran;
  }

  // Where control goes with each step; a user callback is entered exactly when it comes to one.
  lemma ControlGoes(s: State, p: Step)
    requires Inv(s) && Enabled(s, p)
    ensures Next(s, p).users == s.users + (if InUser(Next(s, p)) && !InUser(s) then 1 else 0)
    ensures var r := Next(s, p);
      match p
      case Callback => r.pc == if s.finalizing then Idle else User
      case FireStartup => r.pc == if s.finalizing then Idle else Draining(Startup)
      case FireQuit => r.pc == if s.finalizing then Idle else Draining(Quit)
      case RunNext => r.pc == Drained(s.pc.d)
      case Return(_) => if s.pc.User? then r.pc == (if r.finalizing then Draining(Finish) else Idle)
                        else r.pc == Draining(s.pc.d)
      case EndDrain => r.pc == if s.pc.d.Startup? && r.finalizing then Draining(Finish) else Idle
      case _ => r.pc == s.pc
  {
    if p.EndDrain? { EndDrainKeepsInv(s); }
  }

  // An error of a callback whose drain reports it, in a run that goes on to the end of that drain.
  predicate Reports(s: State, ps: seq<Step>) {
    match s.pc
    case User => true
    case Drained(d) => !d.Finish? && EndDrain in ps
    case _ => false
  }

  // Something in the run asks the simulation to finish: a call of `gpi_finish`, an error of an ordinary
  // callback, or one of a callback of a startup or quit drain that has ended.
  predicate AsksToFinish(s: State, ps: seq<Step>)
    requires Legal(s, ps)
    decreases |ps|
  {
    ps != [] &&
    (ps[0] == GpiFinish || (ps[0] == Return(true) && Reports(s, ps[1..])) || AsksToFinish(Next(s, ps[0]), ps[1..]))
  }

  // The simulation is finishing exactly if something has asked it to.
  lemma FinishesIff(ps: seq<Step>)
    requires Legal(Initial, ps)
    ensures Exec(Initial, ps).finalizing <==> AsksToFinish(Initial, ps)
  {
    FinishesIffFrom(Initial, ps);
  }

  lemma {:induction false} FinishesIffFrom(s: State, ps: seq<Step>)
    requires Inv(s) && Legal(s, ps)
    ensures Exec(s, ps).finalizing <==>
      s.finalizing || AsksToFinish(s, ps) || (s.error && !s.pc.d.Finish? && EndDrain in ps)
    decreases |ps|
  {
    if ps != [] {
      var p, rest := ps[0], ps[1..];
      StepKeepsInv(s, p);
      FinishesIffFrom(Next(s, p), rest);
      StepAsks(s, p);
      ControlGoes(s, p);
      assert EndDrain in ps <==> p == EndDrain || EndDrain in rest;
    }
  }

  lemma StepAsks(s: State, p: Step)
    requires Inv(s) && Enabled(s, p)
    ensures var r := Next(s, p);
      && (r.finalizing <==> s.finalizing || p == GpiFinish || (p == Return(true) && s.pc.User?)
                            || (p == EndDrain && s.error && !s.pc.d.Finish?))
      && (r.error <==> (s.error && p != EndDrain) || (p == Return(true) && s.pc.Drained?))
  {
  }

  // ----- What a drain does when its callbacks only run -----

  function Undisturbed(n: nat): seq<Step> {
    if n == 0 then [EndDrain] else [RunNext, Return(false)] + Undisturbed(n - 1)
  }

  // It runs the whole deque, from the front, and then gives control back: to the simulator, or to the drain
  // of the end-of-sim callbacks if the simulation was asked to finish meanwhile.
  lemma {:induction false} DrainRunsTheDeque(s: State)
    requires Inv(s) && s.pc.Draining?
    ensures var c := Of(s, KindOf(s.pc.d)); var ps := Undisturbed(|c.queue|);
      && Legal(s, ps)
      && var r := Exec(s, ps);
      && Of(r, KindOf(s.pc.d)) == c.(queue := [], ran := c.ran + c.queue, underlying := false)
      && r.users == s.users + |c.queue|
      && (r.finalizing <==> s.finalizing || (s.error && !s.pc.d.Finish?))
      && r.pc == (if s.pc.d.Startup? && r.finalizing then Draining(Finish) else Idle)
    decreases |Of(s, KindOf(s.pc.d)).queue|
  {
    var c := Of(s, KindOf(s.pc.d));
    StepsKeep(s);
    if c.queue == [] {
      assert Undisturbed(0)[1..] == [];
      assert c.ran + [] == c.ran;
    } else {
      var s1 := Next(s, RunNext);
      var s2 := Next(s1, Return(false));
      DrainRunsTheDeque(s2);
      var rest := Undisturbed(|c.queue| - 1);
      assert Undisturbed(|c.queue|)[1..] == [Return(false)] + rest && ([Return(false)] + rest)[1..] == rest;
      assert Legal(s1, [Return(false)] + rest) && Exec(s1, [Return(false)] + rest) == Exec(s2, rest);
      assert c.ran + [c.queue[0]] + c.queue[1..] == c.ran + c.queue;
    }
  }

  // One callback of a drain, or its end.
  lemma StepsKeep(s: State)
    requires Inv(s) && s.pc.Draining?
    ensures var c := Of(s, KindOf(s.pc.d));
      if c.queue == [] then
        && Of(Next(s, EndDrain), KindOf(s.pc.d)) == c.(underlying := false)
        && Next(s, EndDrain).users == s.users
        && (Next(s, EndDrain).finalizing <==> s.finalizing || (s.error && !s.pc.d.Finish?))
        && var r := Next(s, EndDrain);
        r.pc == (if s.pc.d.Startup? && r.finalizing then Draining(Finish) else Idle)
      else
        var r := Next(Next(s, RunNext), Return(false));
        && Inv(r) && r.pc == s.pc && Of(r, KindOf(s.pc.d)) == PopFront(c)
        && r.users == s.users + 1 && r.finalizing == s.finalizing && r.error == s.error
  {
    if Of(s, KindOf(s.pc.d)).queue == [] {
      ControlGoes(s, EndDrain);
      StepAsks(s, EndDrain);
    } else {
      StepKeepsInv(s, RunNext);
      StepKeepsInv(Next(s, RunNext), Return(false));
    }
  }

  // `gpi_finalize` runs at most once, with no end-of-sim callback left over, and it runs all the
  // finalize callbacks, last registered first.
  lemma FinalizesOnce(ps: seq<Step>)
    requires Legal(Initial, ps)
    ensures var s := Exec(Initial, ps);
      && |s.finalized| <= 1
      && (s.finalizing && s.pc.Idle? <==> |s.finalized| == 1)
      && (|s.finalized| == 1 ==> s.end.queue == [] && s.finalized[0] == Reverse(s.finalizers))
  {
    RunKeepsInv(Initial, ps);
  }

  // After that no user callback is entered, whatever the simulator fires.
  lemma {:induction false} NothingRunsAfterFinalize(s: State, ps: seq<Step>)
    requires Inv(s) && |s.finalized| == 1 && Legal(s, ps)
    ensures Exec(s, ps) == s
    decreases |ps|
  {
    if ps != [] {
      assert Next(s, ps[0]) == s;
      NothingRunsAfterFinalize(s, ps[1..]);
    }
  }

  // ----- The program -----

  // What a user callback does while it executes: some registrations and removals.
  datatype Act = Adds | Removes(id: nat)

  datatype Script = Script(acts: seq<Act>, error: bool)

  class GpiCallbacks {
    var queue: seq<nat>
    var underlying: bool
    var registered: nat
    ghost var removed: set<nat>
    ghost var ran: seq<nat>

    ghost function Snapshot(): Callbacks
      reads this
    {
      Callbacks(queue, registered, removed, ran, underlying)
    }

    constructor ()
      ensures Snapshot() == NoCallbacks
    {
      queue, underlying, registered, removed, ran := [], false, 0, {}, [];
    }

    method Register() returns (id: nat)
      modifies this
      ensures Snapshot() == Add(old(Snapshot())) && id == old(registered)
    {
      if !underlying {
        underlying := true;
      }
      id := registered;
      registered := registered + 1;
      queue := queue + [id];
    }

    method Unregister(id: nat)
      requires id in queue
      modifies this
      ensures Snapshot() == RemoveFrom(old(Snapshot()), id)
    {
      queue := Without(queue, id);
      removed := removed + {id};
    }

    // What one callback does.
    method RunCallback(acts: seq<Act>)
      requires InOrder(Snapshot())
      modifies this
      ensures InOrder(Snapshot()) && ran == old(ran)
    {
      for i := 0 to |acts|
        invariant InOrder(Snapshot()) && ran == old(ran)
      {
        match acts[i] {
          case Adds =>
            AddKeepsOrder(Snapshot());
            var id := Register();
          case Removes(id) =>
            if id in queue {
              RemoveKeepsOrder(Snapshot(), id);
              Unregister(id);
            }
        }
      }
    }

    // The loop of `run_startup_callbacks` and `run_end_of_sim_callbacks`.  The i-th callback that
    // runs does what the i-th script says, as far as it can, and fails if it says so; later ones do
    // nothing.
    method Drain(scripts: seq<Script>) returns (error: bool)
      requires InOrder(Snapshot())
      modifies this
      ensures InOrder(Snapshot()) && queue == [] && !underlying
      ensures ran == Kept(registered, removed) && old(ran) <= ran
      ensures error <==> exists i :: 0 <= i < |scripts| && i < |ran| - |old(ran)| && scripts[i].error
    {
      error := false;
      var n := 0;
      while queue != []
        invariant n <= |scripts| && InOrder(Snapshot()) && old(ran) <= ran
        invariant n == if |ran| - |old(ran)| <= |scripts| then |ran| - |old(ran)| else |scripts|
        invariant error <==> exists i :: 0 <= i < n && scripts[i].error
        decreases |scripts| - n, |queue|
      {
        PopKeepsOrder(Snapshot());
        ran := ran + [queue[0]];
        queue := queue[1..];
        if n < |scripts| {
          RunCallback(scripts[n].acts);
          error := error || scripts[n].error;
          n := n + 1;
        }
      }
      underlying := false;
      assert ran + [] == ran;
    }
  }
}
