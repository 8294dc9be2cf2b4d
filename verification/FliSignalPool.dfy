/**
 The recycled handles of the FLI's value-change callbacks.  Their processes are made sensitive to a
 signal, and insensitive again when the callback is removed or has fired, so nothing is left to fire.
 User callbacks are foreign code: inside one anything may be registered or removed, also itself.
 */
module FliSignalPool {
  import opened Wrappers
  import opened Sequences

  datatype Handle = Handle(sensitive: bool, user: nat)

  // One registration of a user callback: its handle, whether the user removed it, whether it is over,
  // and how often the user was called.
  datatype Registration = Registration(handle: nat, removed: bool, over: bool, calls: nat)

  datatype Pool = Pool(
    free: seq<nat>,
    handles: seq<Handle>,
    regs: seq<Registration>,
    running: Option<nat>,  // the registration whose user callback is executing
    peak: nat)             // history: the most handles ever outstanding

  const Empty: Pool := Pool([], [], [], None, 0)

  function Outstanding(p: Pool): int {
    |p.handles| - |p.free|
  }

  // ----- The operations -----

  // `acquire`: the last one released, or a new one
  function Acquire(p: Pool): (Pool, nat) {
    if p.free != [] then (p.(free := p.free[..|p.free| - 1]), p.free[|p.free| - 1])
    else (p.(handles := p.handles + [Handle(false, 0)]), |p.handles|)
  }

  // `acquire`, `arm` and `set_cb_info`
  function Register(p: Pool): Pool
    requires forall i :: 0 <= i < |p.free| ==> p.free[i] < |p.handles|
  {
    var (q, h) := Acquire(p);
    q.(handles := q.handles[h := Handle(true, |p.regs|)],
       regs := p.regs + [Registration(h, false, false, 0)],
       peak := if Outstanding(q) > p.peak then Outstanding(q) else p.peak)
  }

  // Desensitize the process and release the handle.
  function Recycle(p: Pool, h: nat): Pool
    requires h < |p.handles|
  {
    p.(free := p.free + [h], handles := p.handles[h := p.handles[h].(sensitive := false)])
  }

  // `remove`
  function Remove(p: Pool, r: nat): Pool
    requires r < |p.regs| && p.regs[r].handle < |p.handles|
  {
    Recycle(p, p.regs[r].handle).(regs := p.regs[r := p.regs[r].(removed := true, over := true)])
  }

  // The head of `run` when the edge is the right one; a wrong one changes nothing.
  function Edge(p: Pool, h: nat): Pool
    requires h < |p.handles| && p.handles[h].user < |p.regs|
  {
    var r := p.handles[h].user;
    p.(regs := p.regs[r := p.regs[r].(calls := p.regs[r].calls + 1)], running := Some(r))
  }

  // The rest of `run`, after the user callback has returned.
  function EdgeEnds(p: Pool): Pool
    requires p.running.Some? && p.running.value < |p.regs| && p.regs[p.running.value].handle < |p.handles|
  {
    var r := p.running.value;
    Recycle(p, p.regs[r].handle).(regs := p.regs[r := p.regs[r].(over := true)], running := None)
  }

  // ----- Runs -----

  datatype Step = DoRegister | DoRemove(reg: nat) | BeginEdge(handle: nat) | EndEdge

  // Users remove only what is not over, though possibly from its own callback; the simulator does not
  // fire a callback inside another one.
  predicate Enabled(p: Pool, step: Step) {
    match step
    case DoRegister => true
    case DoRemove(r) => r < |p.regs| && !p.regs[r].over
    case BeginEdge(h) => h < |p.handles| && p.handles[h].sensitive && p.running.None?
    case EndEdge => p.running.Some?
  }

  // Every reference in the pool points somewhere.
  ghost predicate Bounded(p: Pool) {
    && (forall i :: 0 <= i < |p.free| ==> p.free[i] < |p.handles|)
    && (forall r :: 0 <= r < |p.regs| ==> p.regs[r].handle < |p.handles|)
    && (forall h :: 0 <= h < |p.handles| && p.handles[h].sensitive ==> p.handles[h].user < |p.regs|)
    && (p.running.Some? ==> p.running.value < |p.regs|)
  }

  ghost function Next(p: Pool, step: Step): (q: Pool)
    requires Bounded(p) && Enabled(p, step)
    ensures Bounded(q) && |q.regs| >= |p.regs|
  {
    match step
    case DoRegister => Register(p)
    case DoRemove(r) => Remove(p, r)
    case BeginEdge(h) => Edge(p, h)
    case EndEdge => EdgeEnds(p)
  }

  ghost predicate Legal(p: Pool, steps: seq<Step>)
    requires Bounded(p)
    decreases |steps|
  {
    steps == [] || (Enabled(p, steps[0]) && Legal(Next(p, steps[0]), steps[1..]))
  }

  ghost function Exec(p: Pool, steps: seq<Step>): (q: Pool)
    requires Bounded(p) && Legal(p, steps)
    ensures Bounded(q) && |q.regs| >= |p.regs|
    decreases |steps|
  {
    if steps == [] then p else Exec(Next(p, steps[0]), steps[1..])
  }

  // ----- The invariant -----

  // The running registration was removed by its own callback.
  predicate RemovedInside(p: Pool)
    requires p.running.Some? ==> p.running.value < |p.regs|
  {
    p.running.Some? && p.regs[p.running.value].removed
  }

  // A handle is on the free list exactly when its process is not sensitive; otherwise it serves a
  // registration that is not over and points back to it.
  ghost predicate HandleOk(p: Pool, h: nat)
    requires h < |p.handles|
  {
    var x := p.handles[h];
    && (h in p.free <==> !x.sensitive)
    && (x.sensitive ==> x.user < |p.regs| && p.regs[x.user].handle == h && !p.regs[x.user].over)
  }

  // A registration that is not over has its handle to itself, and is called only at its end.
  ghost predicate RegOk(p: Pool, r: nat)
    requires r < |p.regs|
  {
    var x := p.regs[r];
    && x.handle < |p.handles|
    && x.calls <= 1 && (x.removed ==> x.over)
    && (!x.over ==> KeepsHandle(p, r) && x.calls == (if p.running == Some(r) then 1 else 0))
    && (x.over && !x.removed ==> x.calls == 1)
  }

  ghost predicate KeepsHandle(p: Pool, r: nat)
    requires r < |p.regs|
  {
    var h := p.regs[r].handle;
    h < |p.handles| && h !in p.free && p.handles[h] == Handle(true, r)
  }

  // No handle is free twice, and every registration that is not over has its handle to itself.
  ghost predicate Exact(p: Pool) {
    Distinct(p.free) && forall r :: 0 <= r < |p.regs| && !p.regs[r].over ==> KeepsHandle(p, r)
  }

  ghost predicate Inv(p: Pool) {
    && Distinct(p.free) && (forall i :: 0 <= i < |p.free| ==> p.free[i] < |p.handles|)
    && (forall h :: 0 <= h < |p.handles| ==> HandleOk(p, h))
    && (forall r :: 0 <= r < |p.regs| ==> RegOk(p, r))
    && (p.running.Some? ==>
          p.running.value < |p.regs| && p.regs[p.running.value].calls == 1 &&
          (p.regs[p.running.value].over ==> RemovedInside(p)))
    && |p.handles| == p.peak
  }

  lemma InvIsBounded(p: Pool)
    requires Inv(p)
    ensures Bounded(p) && Exact(p)
  {
    forall r | 0 <= r < |p.regs| ensures p.regs[r].handle < |p.handles| && (!p.regs[r].over ==> KeepsHandle(p, r)) {
      assert RegOk(p, r);
    }
    forall h | 0 <= h < |p.handles| && p.handles[h].sensitive ensures p.handles[h].user < |p.regs| {
      assert HandleOk(p, h);
    }
  }

  lemma AppendMembers(s: seq<nat>, h: nat)
    ensures forall x :: x in s + [h] <==> x in s || x == h
    ensures Distinct(s) && h !in s ==> Distinct(s + [h])
    ensures h in s ==> !Distinct(s + [h])
  {
    assert (s + [h])[|s|] == h;
    forall x | x in s ensures x in s + [h] {
      var i :| 0 <= i < |s| && s[i] == x;
      assert (s + [h])[i] == x;
    }
    if h in s {
      var i :| 0 <= i < |s| && s[i] == h;
      assert (s + [h])[i] == (s + [h])[|s|];
    }
  }

  lemma RegisterKeepsInv(p: Pool)
    requires Inv(p)
    ensures Inv(Register(p))
  {
    var (q, h) := Acquire(p);
    var n := Register(p);
    if p.free != [] {
      assert p.free == q.free + [h];
      AppendMembers(q.free, h);
      assert h !in q.free;
    }
    forall x | 0 <= x < |n.handles| ensures HandleOk(n, x) {
      if x != h { assert HandleOk(p, x); }
    }
    forall r | 0 <= r < |n.regs| ensures RegOk(n, r) {
      if r < |p.regs| { assert RegOk(p, r); }
    }
  }

  lemma RecycleKeepsHandles(p: Pool, n: Pool, r: nat)
    requires Inv(p) && r < |p.regs| && !p.regs[r].over
    requires n.free == p.free + [p.regs[r].handle] && p.regs[r].handle < |p.handles|
    requires n.handles == Recycle(p, p.regs[r].handle).handles
    requires |n.regs| == |p.regs| && n.regs == p.regs[r := n.regs[r]]
    ensures Distinct(n.free) && forall x :: 0 <= x < |n.handles| ==> HandleOk(n, x)
  {
    assert RegOk(p, r);
    AppendMembers(p.free, p.regs[r].handle);
    forall x | 0 <= x < |n.handles| ensures HandleOk(n, x) {
      assert HandleOk(p, x);
    }
  }

  lemma RemoveKeepsInv(p: Pool, r: nat)
    requires Inv(p) && Enabled(p, DoRemove(r))
    ensures p.regs[r].handle < |p.handles| && Inv(Remove(p, r))
  {
    assert RegOk(p, r);
    var n := Remove(p, r);
    RecycleKeepsHandles(p, n, r);
    AppendMembers(p.free, p.regs[r].handle);
    forall s | 0 <= s < |n.regs| ensures RegOk(n, s) {
      assert RegOk(p, s);
    }
  }

  lemma EdgeKeepsInv(p: Pool, h: nat)
    requires Inv(p) && Enabled(p, BeginEdge(h))
    ensures p.handles[h].user < |p.regs| && Inv(Edge(p, h))
  {
    assert HandleOk(p, h);
    var n := Edge(p, h);
    assert RegOk(p, p.handles[h].user);
    forall x | 0 <= x < |n.handles| ensures HandleOk(n, x) {
      assert HandleOk(p, x);
    }
    forall r | 0 <= r < |n.regs| ensures RegOk(n, r) {
      assert RegOk(p, r);
    }
  }

  // After a callback the pool is exact if and only if the callback did not remove itself, whatever
  // else it registered and removed.
  lemma EndIsExactIff(p: Pool)
    requires Inv(p) && p.running.Some?
    ensures Bounded(p)
    ensures Inv(EdgeEnds(p)) <==> !RemovedInside(p)
    ensures Exact(EdgeEnds(p)) <==> !RemovedInside(p)
  {
    InvIsBounded(p);
    var r := p.running.value;
    assert RegOk(p, r);
    var n := EdgeEnds(p);
    AppendMembers(p.free, p.regs[r].handle);
    if RemovedInside(p) {
      EndAfterRemoval(p);
    } else {
      RecycleKeepsHandles(p, n, r);
      forall s | 0 <= s < |n.regs| ensures RegOk(n, s) {
        assert RegOk(p, s);
      }
      InvIsBounded(n);
    }
  }

  // What goes wrong otherwise: either the handle is free twice, or it was registered anew inside the
  // callback, and that registration has lost it.
  lemma EndAfterRemoval(p: Pool)
    requires Inv(p) && Bounded(p) && RemovedInside(p)
    ensures var h := p.regs[p.running.value].handle;
      var n := EdgeEnds(p);
      if h in p.free then !Distinct(n.free)
      else p.handles[h].user < |n.regs| && Lost(n, p.handles[h].user) && !n.regs[p.handles[h].user].over
    ensures !Exact(EdgeEnds(p)) && !Inv(EdgeEnds(p))
  {
    var h := p.regs[p.running.value].handle;
    assert HandleOk(p, h) && RegOk(p, p.running.value);
    AppendMembers(p.free, h);
    var n := EdgeEnds(p);
    if h !in p.free {
      var u := p.handles[h].user;
      assert RegOk(p, u);
      assert !KeepsHandle(n, u);
      forall x | 0 <= x < |n.handles| && n.handles[x].sensitive ensures n.handles[x].user != u {
        assert HandleOk(p, x);
      }
      assert !RegOk(n, u);
    }
  }

  // No process that may fire serves this registration.
  ghost predicate Lost(p: Pool, u: nat) {
    p.running != Some(u) && forall h :: 0 <= h < |p.handles| && p.handles[h].sensitive ==> p.handles[h].user != u
  }

  // A lost registration is never called, whatever happens.
  lemma {:induction false} LostIsNeverCalled(p: Pool, steps: seq<Step>, u: nat)
    requires Bounded(p) && Legal(p, steps) && u < |p.regs| && Lost(p, u)
    ensures Lost(Exec(p, steps), u) && Exec(p, steps).regs[u].calls == p.regs[u].calls
    decreases |steps|
  {
    if steps != [] {
      LostIsNeverCalled(Next(p, steps[0]), steps[1..], u);
    }
  }

  // And when a handle is handed out that still serves a registration, that one is lost.
  lemma TakenOverIsLost(p: Pool, u: nat)
    requires Bounded(p) && p.free != [] && u < |p.regs| && p.running != Some(u)
    requires forall h :: 0 <= h < |p.handles| && p.handles[h].sensitive && p.handles[h].user == u ==>
      h == p.free[|p.free| - 1]
    ensures Lost(Register(p), u)
  {
  }

  // ----- Over runs -----

  ghost predicate Breaks(p: Pool, step: Step)
    requires Bounded(p)
  {
    step.EndEdge? && RemovedInside(p)
  }

  lemma StepKeepsInv(p: Pool, step: Step)
    requires Inv(p) && Bounded(p) && Enabled(p, step)
    ensures Inv(Next(p, step)) <==> !Breaks(p, step)
  {
    match step
    case DoRegister => RegisterKeepsInv(p);
    case DoRemove(r) => RemoveKeepsInv(p, r);
    case BeginEdge(h) => EdgeKeepsInv(p, h);
    case EndEdge => EndIsExactIff(p);
  }

  // No callback that ends has removed itself.
  ghost predicate Clean(p: Pool, steps: seq<Step>)
    requires Bounded(p) && Legal(p, steps)
    decreases |steps|
  {
    steps == [] || (!Breaks(p, steps[0]) && Clean(Next(p, steps[0]), steps[1..]))
  }

  ghost predicate AlwaysInv(p: Pool, steps: seq<Step>)
    requires Bounded(p) && Legal(p, steps)
    decreases |steps|
  {
    Inv(p) && (steps == [] || AlwaysInv(Next(p, steps[0]), steps[1..]))
  }

  // Over any run the pool stays exact at every step if and only if no callback removes itself.
  lemma {:induction false} ExactIffNeverRemovedInside(p: Pool, steps: seq<Step>)
    requires Inv(p) && Bounded(p) && Legal(p, steps)
    ensures AlwaysInv(p, steps) <==> Clean(p, steps)
    decreases |steps|
  {
    if steps != [] {
      StepKeepsInv(p, steps[0]);
      if Inv(Next(p, steps[0])) {
        ExactIffNeverRemovedInside(Next(p, steps[0]), steps[1..]);
      }
    }
  }

  lemma {:induction false} AlwaysInvAtEnd(p: Pool, steps: seq<Step>)
    requires Bounded(p) && Legal(p, steps) && AlwaysInv(p, steps)
    ensures Inv(Exec(p, steps))
    decreases |steps|
  {
    if steps != [] {
      AlwaysInvAtEnd(Next(p, steps[0]), steps[1..]);
    }
  }

  // Over such runs: as many handles exist as were ever outstanding at once; the free ones are distinct
  // and are those whose process is not sensitive; every registration that is not over has its handle
  // to itself.
  lemma PoolIsExact(steps: seq<Step>, h: nat)
    requires Legal(Empty, steps) && Clean(Empty, steps) && h < |Exec(Empty, steps).handles|
    ensures var p := Exec(Empty, steps);
      && Distinct(p.free) && |p.handles| == p.peak
      && (h in p.free <==> !p.handles[h].sensitive)
      && (h !in p.free ==> p.handles[h].user < |p.regs| && p.regs[p.handles[h].user].handle == h)
      && Exact(p)
  {
    ExactIffNeverRemovedInside(Empty, steps);
    AlwaysInvAtEnd(Empty, steps);
    var p := Exec(Empty, steps);
    InvIsBounded(p);
    assert HandleOk(p, h);
  }

  // A user is called at most once, never once it was removed, and when its registration is over it was
  // called unless it was removed.
  lemma {:induction false} RemovedIsNeverCalled(p: Pool, steps: seq<Step>, r: nat)
    requires Inv(p) && Bounded(p) && Legal(p, steps) && Clean(p, steps) && r < |p.regs|
    ensures var q := Exec(p, steps);
      && q.regs[r].calls <= 1
      && (p.regs[r].removed ==> q.regs[r] == p.regs[r])
      && (q.regs[r].over && !q.regs[r].removed ==> q.regs[r].calls == 1)
    decreases |steps|
  {
    assert RegOk(p, r);
    if steps != [] {
      StepKeepsInv(p, steps[0]);
      RemovedStays(p, steps[0], r);
      RemovedIsNeverCalled(Next(p, steps[0]), steps[1..], r);
    }
  }

  lemma RemovedStays(p: Pool, step: Step, r: nat)
    requires Inv(p) && Bounded(p) && Enabled(p, step) && !Breaks(p, step) && r < |p.regs|
    ensures p.regs[r].removed ==> Next(p, step).regs[r] == p.regs[r]
  {
    assert RegOk(p, r);
    if step.BeginEdge? { assert HandleOk(p, step.handle); }
  }

  // A run that is not clean: the callback removes itself and registers another one, which is given
  // the same handle, and loses it when the first one returns.
  lemma ARegistrationIsLost(later: seq<Step>)
    ensures var steps := [DoRegister, BeginEdge(0), DoRemove(0), DoRegister, EndEdge];
      && Legal(Empty, steps)
      && var p := Exec(Empty, steps);
      && |p.regs| == 2 && p.regs[1] == Registration(0, false, false, 0)
      && (Legal(p, later) ==> Exec(p, later).regs[1].calls == 0)
  {
    var p := Inside();
    ACallbackBegins();
    var rest := [DoRemove(0), DoRegister, EndEdge];
    ItRemovesItself(p);
    Cons(Register(Empty), BeginEdge(0), rest);
    Cons(Empty, DoRegister, [BeginEdge(0)] + rest);
    assert [DoRegister] + ([BeginEdge(0)] + rest) == [DoRegister, BeginEdge(0), DoRemove(0), DoRegister, EndEdge];
    var q := Exec(p, rest);
    if Legal(q, later) { LostIsNeverCalled(q, later, 1); }
  }

  // Its state when the callback begins.
  function Inside(): Pool {
    Pool([], [Handle(true, 0)], [Registration(0, false, false, 1)], Some(0), 1)
  }

  lemma ACallbackBegins()
    ensures Bounded(Register(Empty)) && Enabled(Register(Empty), BeginEdge(0)) && Edge(Register(Empty), 0) == Inside()
  {
    assert Register(Empty) == Pool([], [Handle(true, 0)], [Registration(0, false, false, 0)], None, 1);
    assert Edge(Register(Empty), 0).regs == Inside().regs;
  }

  lemma ItRemovesItself(p: Pool)
    requires p == Inside()
    ensures Bounded(p)
    ensures var steps := [DoRemove(0), DoRegister, EndEdge];
      && Legal(p, steps)
      && var q := Exec(p, steps);
      && |q.regs| == 2 && q.regs[1] == Registration(0, false, false, 0) && Lost(q, 1)
  {
    ItIsGivenTheSameHandle(p);
    var p1 := Remove(p, 0);
    var p2 := Register(p1);
    Cons(p2, EndEdge, []);
    Cons(p1, DoRegister, [EndEdge]);
    Cons(p, DoRemove(0), [DoRegister, EndEdge]);
  }

  lemma ItIsGivenTheSameHandle(p: Pool)
    requires p == Inside()
    ensures Bounded(p) && Bounded(Remove(p, 0)) && Bounded(Register(Remove(p, 0)))
    ensures var q := Register(Remove(p, 0));
      q.running == Some(0) && |q.regs| == 2 && q.regs[0].handle == 0 && q.handles == [Handle(true, 1)]
    ensures var q := EdgeEnds(Register(Remove(p, 0)));
      |q.regs| == 2 && q.regs[1] == Registration(0, false, false, 0) && Lost(q, 1)
  {
    var p1 := Remove(p, 0);
    assert p1.free == [0] && p1.handles == [Handle(false, 0)];
    var p2 := Register(p1);
    assert p2.free == [] && p2.handles == [Handle(true, 1)] && p2.regs[1] == Registration(0, false, false, 0);
    var q := EdgeEnds(p2);
    assert q.handles == [Handle(false, 1)] && q.regs[1] == p2.regs[1];
  }

  lemma Cons(p: Pool, step: Step, steps: seq<Step>)
    requires Bounded(p) && Enabled(p, step) && Legal(Next(p, step), steps)
    ensures Legal(p, [step] + steps) && Exec(p, [step] + steps) == Exec(Next(p, step), steps)
  {
    assert ([step] + steps)[1..] == steps;
  }

  lemma {:induction false} ExecAppend(p: Pool, steps: seq<Step>, step: Step)
    requires Bounded(p) && Legal(p, steps) && Enabled(Exec(p, steps), step)
    ensures Legal(p, steps + [step]) && Exec(p, steps + [step]) == Next(Exec(p, steps), step)
    decreases |steps|
  {
    if steps == [] {
      Cons(p, step, []);
      assert [] + [step] == [step] + [];
    } else {
      ExecAppend(Next(p, steps[0]), steps[1..], step);
      Cons(p, steps[0], steps[1..] + [step]);
      assert steps + [step] == [steps[0]] + (steps[1..] + [step]);
    }
  }

  // ----- The program -----

  // What a user callback does.
  datatype Act = Registers | Removes(reg: nat)

  class FliSignalCallbacks {
    var freeList: seq<nat>
    var handles: seq<Handle>
    var regs: seq<Registration>
    var running: Option<nat>
    ghost var peak: nat

    ghost function Snapshot(): Pool
      reads this
    {
      Pool(freeList, handles, regs, running, peak)
    }

    constructor ()
      ensures Snapshot() == Empty
    {
      freeList, handles, regs, running, peak := [], [], [], None, 0;
    }

    method RegisterValueChange()
      requires Bounded(Snapshot())
      modifies this
      ensures Snapshot() == Register(old(Snapshot()))
    {
      var h;
      if freeList != [] {
        h := freeList[|freeList| - 1];
        freeList := freeList[..|freeList| - 1];
      } else {
        h := |handles|;
        handles := handles + [Handle(false, 0)];
      }
      handles := handles[h := Handle(true, |regs|)];
      regs := regs + [Registration(h, false, false, 0)];
      if |handles| - |freeList| > peak {
        peak := |handles| - |freeList|;
      }
    }

    method RemoveCallback(r: nat)
      requires Bounded(Snapshot()) && Enabled(Snapshot(), DoRemove(r))
      modifies this
      ensures Snapshot() == Remove(old(Snapshot()), r)
    {
      var h := regs[r].handle;
      handles := handles[h := handles[h].(sensitive := false)];
      freeList := freeList + [h];
      regs := regs[r := regs[r].(removed := true, over := true)];
    }

    // `run`, with the user callback in it.
    method Run(h: nat, pass: bool, acts: seq<Act>) returns (ghost trace: seq<Step>)
      requires Inv(Snapshot()) && Bounded(Snapshot()) && Enabled(Snapshot(), BeginEdge(h))
      modifies this
      ensures Bounded(Snapshot()) && Legal(old(Snapshot()), trace) && Snapshot() == Exec(old(Snapshot()), trace)
      ensures !pass ==> Snapshot() == old(Snapshot())
      ensures pass ==> old(handles)[h].user < |regs| && regs[old(handles)[h].user].over
      ensures pass ==> (Exact(Snapshot()) <==> !regs[old(handles)[h].user].removed)
    {
      trace := [];
      if !pass {
        return;
      }
      ghost var before := Snapshot();
      var r;
      r, trace := Enter(h);
      for i := 0 to |acts|
        invariant Inv(Snapshot()) && Bounded(Snapshot()) && running == Some(r) && r < |regs|
        invariant Legal(before, trace) && Snapshot() == Exec(before, trace)
      {
        trace := Acts(acts[i], before, trace);
      }
      EndIsExactIff(Snapshot());
      ExecAppend(before, trace, EndEdge);
      trace := trace + [EndEdge];
      Leave(r);
    }

    method Enter(h: nat) returns (r: nat, ghost trace: seq<Step>)
      requires Inv(Snapshot()) && Bounded(Snapshot()) && Enabled(Snapshot(), BeginEdge(h))
      modifies this
      ensures r == old(handles)[h].user < |regs| && Snapshot() == Edge(old(Snapshot()), h)
      ensures Inv(Snapshot()) && Bounded(Snapshot())
      ensures Legal(old(Snapshot()), trace) && Snapshot() == Exec(old(Snapshot()), trace)
    {
      EdgeKeepsInv(Snapshot(), h);
      InvIsBounded(Edge(Snapshot(), h));
      Cons(Snapshot(), BeginEdge(h), []);
      r := handles[h].user;
      regs := regs[r := regs[r].(calls := regs[r].calls + 1)];
      running := Some(r);
      trace := [BeginEdge(h)] + [];
    }

    method Leave(r: nat)
      requires Bounded(Snapshot()) && running == Some(r)
      modifies this
      ensures Snapshot() == EdgeEnds(old(Snapshot()))
    {
      var h := regs[r].handle;
      handles := handles[h := handles[h].(sensitive := false)];
      freeList := freeList + [h];
      regs := regs[r := regs[r].(over := true)];
      running := None;
    }

    method Acts(act: Act, ghost before: Pool, ghost trace: seq<Step>) returns (ghost longer: seq<Step>)
      requires Inv(Snapshot()) && Bounded(Snapshot()) && running.Some?
      requires Bounded(before) && Legal(before, trace) && Snapshot() == Exec(before, trace)
      modifies this
      ensures Inv(Snapshot()) && Bounded(Snapshot()) && running == old(running) && |regs| >= |old(regs)|
      ensures Legal(before, longer) && Snapshot() == Exec(before, longer)
    {
      longer := trace;
      match act
      case Registers =>
        RegisterKeepsInv(Snapshot());
        ExecAppend(before, trace, DoRegister);
        RegisterValueChange();
        InvIsBounded(Snapshot());
        longer := trace + [DoRegister];
      case Removes(r) =>
        if r < |regs| && !regs[r].over {
          RemoveKeepsInv(Snapshot(), r);
          ExecAppend(before, trace, DoRemove(r));
          RemoveCallback(r);
          InvIsBounded(Snapshot());
          longer := trace + [DoRemove(r)];
        }
    }
  }
}
