/**
 The recycled callback handles of the FLI.  A simulator process cannot be destroyed, so a handle goes
 back to a free list instead; a wakeup cannot be cancelled, so a removed one is left to fire.

 This is the pool of timed and of simulation-phase handles; `FliSignalPool` is that of value-change
 handles.  User callbacks are foreign code: between the start and the end of a firing anything may be
 registered or removed.
 */
module FliPool {
  import opened Wrappers
  import opened Sequences

  // `wakeups` are the wakeups the simulator still owes this process, each tagged with the
  // registration that scheduled it.
  datatype Handle = Handle(removed: bool, user: nat, wakeups: seq<nat>)

  // One registration of a user callback: its handle, whether the user removed it before it was
  // called, whether it is over, and how often the user was called.
  datatype Registration = Registration(handle: nat, removed: bool, over: bool, calls: nat)

  datatype Pool = Pool(
    free: seq<nat>,
    handles: seq<Handle>,
    regs: seq<Registration>,
    firing: Option<nat>,  // the handle whose user callback is executing
    peak: nat)            // history: the most handles ever outstanding

  const Empty: Pool := Pool([], [], [], None, 0)

  function Outstanding(p: Pool): int {
    |p.handles| - |p.free|
  }

  // `acquire`: the last one released, or a new one
  function Acquire(p: Pool): (r: (Pool, nat))
    ensures |r.0.handles| >= |p.handles|
  {
    if p.free != [] then (p.(free := p.free[..|p.free| - 1]), p.free[|p.free| - 1])
    else (p.(handles := p.handles + [Handle(false, 0, [])]), |p.handles|)
  }

  // `acquire`, `arm` and `set_cb_info`
  function Register(p: Pool): Pool
    requires forall i :: 0 <= i < |p.free| ==> p.free[i] < |p.handles|
  {
    var (q, h) := Acquire(p);
    var r := |p.regs|;
    q.(handles := q.handles[h := Handle(false, r, q.handles[h].wakeups + [r])],
       regs := p.regs + [Registration(h, false, false, 0)],
       peak := if Outstanding(q) > p.peak then Outstanding(q) else p.peak)
  }

  // `remove`: leave a mark and let the wakeup come
  function Remove(p: Pool, r: nat): Pool
    requires r < |p.regs| && p.regs[r].handle < |p.handles|
  {
    var h := p.regs[r].handle;
    p.(handles := p.handles[h := p.handles[h].(removed := true)],
       regs := p.regs[r := p.regs[r].(removed := p.regs[r].calls == 0)])
  }

  function Release(p: Pool, h: nat): Pool
    requires h < |p.handles| && p.handles[h].user < |p.regs|
  {
    var r := p.handles[h].user;
    p.(free := p.free + [h], regs := p.regs[r := p.regs[r].(over := true)], firing := None)
  }

  // The head of `run`, for the oldest wakeup of a handle: the user is called, or the handle
  // released at once.
  function Fire(p: Pool, h: nat): Pool
    requires h < |p.handles| && p.handles[h].wakeups != [] && p.handles[h].user < |p.regs|
  {
    var q := p.(handles := p.handles[h := p.handles[h].(wakeups := p.handles[h].wakeups[1..])]);
    if p.handles[h].removed then Release(q, h)
    else
      var r := p.handles[h].user;
      q.(regs := q.regs[r := q.regs[r].(calls := q.regs[r].calls + 1)], firing := Some(h))
  }

  datatype Step = DoRegister | DoRemove(reg: nat) | DoFire(handle: nat) | FireEnds

  // A registration is removed only while it is not over, though possibly from its own callback; the
  // simulator does not fire a callback inside another one.
  ghost predicate Enabled(p: Pool, step: Step) {
    match step
    case DoRegister => true
    case DoRemove(r) => r < |p.regs| && !p.regs[r].over
    case DoFire(h) => h < |p.handles| && p.handles[h].wakeups != [] && p.firing.None?
    case FireEnds => p.firing.Some?
  }

  // Every reference in the pool points somewhere.
  ghost predicate Bounded(p: Pool) {
    && (forall i :: 0 <= i < |p.free| ==> p.free[i] < |p.handles|)
    && (forall r :: 0 <= r < |p.regs| ==> p.regs[r].handle < |p.handles|)
    && (forall h :: 0 <= h < |p.handles| && (p.handles[h].wakeups != [] || p.firing == Some(h)) ==>
          p.handles[h].user < |p.regs|)
    && (p.firing.Some? ==> p.firing.value < |p.handles|)
  }

  ghost function Next(p: Pool, step: Step): Pool
    requires Bounded(p) && Enabled(p, step)
  {
    match step
    case DoRegister => Register(p)
    case DoRemove(r) => Remove(p, r)
    case DoFire(h) => Fire(p, h)
    case FireEnds => Release(p, p.firing.value)
  }

  // A free handle owes nothing; an outstanding one serves the registration that points to it, and
  // owes exactly the wakeup of that registration, unless it is the one that is firing.
  ghost predicate HandleOk(p: Pool, h: nat)
    requires h < |p.handles|
  {
    var x := p.handles[h];
    if h in p.free then x.wakeups == [] && p.firing != Some(h)
    else
      && x.user < |p.regs| && p.regs[x.user].handle == h && !p.regs[x.user].over
      && x.wakeups == (if p.firing == Some(h) then [] else [x.user])
      && p.regs[x.user].calls == (if p.firing == Some(h) then 1 else 0)
      && (p.firing != Some(h) ==> (x.removed <==> p.regs[x.user].removed))
  }

  ghost predicate RegOk(p: Pool, r: nat)
    requires r < |p.regs|
  {
    var x := p.regs[r];
    && x.handle < |p.handles|
    && x.calls <= 1 && (x.removed ==> x.calls == 0)
    && (!x.over ==> x.handle !in p.free && p.handles[x.handle].user == r)
    && (x.over ==> (x.calls == 0 <==> x.removed))
  }

  ghost predicate Inv(p: Pool) {
    && Distinct(p.free) && (forall i :: 0 <= i < |p.free| ==> p.free[i] < |p.handles|)
    && (forall h :: 0 <= h < |p.handles| ==> HandleOk(p, h))
    && (forall r :: 0 <= r < |p.regs| ==> RegOk(p, r))
    && (p.firing.Some? ==> p.firing.value < |p.handles| && p.firing.value !in p.free)
    && |p.handles| == p.peak
  }

  lemma RegisterKeepsInv(p: Pool)
    requires Inv(p)
    ensures Inv(Register(p))
  {
    var (q, h) := Acquire(p);
    var n := Register(p);
    if p.free != [] {
      assert h in p.free && HandleOk(p, h);
      assert h !in q.free;
      assert forall x :: x in p.free && x != h ==> x in q.free;
    }
    forall x | 0 <= x < |n.handles| ensures HandleOk(n, x) {
      if x != h { assert HandleOk(p, x); }
    }
    forall r | 0 <= r < |n.regs| ensures RegOk(n, r) {
      if r < |p.regs| { assert RegOk(p, r); }
    }
  }

  lemma RemoveKeepsInv(p: Pool, r: nat)
    requires Inv(p) && Enabled(p, DoRemove(r))
    ensures RegOk(p, r) && Inv(Remove(p, r))
  {
    assert RegOk(p, r);
    var n := Remove(p, r);
    forall x | 0 <= x < |n.handles| ensures HandleOk(n, x) {
      assert HandleOk(p, x);
    }
    forall s | 0 <= s < |n.regs| ensures RegOk(n, s) {
      assert RegOk(p, s);
    }
  }

  lemma ReleaseKeepsInv(p: Pool)
    requires Inv(p) && p.firing.Some?
    ensures HandleOk(p, p.firing.value) && Inv(Release(p, p.firing.value))
  {
    var h := p.firing.value;
    assert HandleOk(p, h);
    var n := Release(p, h);
    assert forall x :: x in n.free <==> x in p.free || x == h by {
      assert n.free[|p.free|] == h;
      assert forall i :: 0 <= i < |p.free| ==> n.free[i] == p.free[i];
    }
    forall x | 0 <= x < |n.handles| ensures HandleOk(n, x) {
      assert HandleOk(p, x);
    }
    forall r | 0 <= r < |n.regs| ensures RegOk(n, r) {
      assert RegOk(p, r);
    }
  }

  lemma FireKeepsInv(p: Pool, h: nat)
    requires Inv(p) && Enabled(p, DoFire(h))
    ensures HandleOk(p, h) && h !in p.free && Inv(Fire(p, h))
  {
    assert HandleOk(p, h);
    var n := Fire(p, h);
    if p.handles[h].removed {
      assert forall x :: x in n.free <==> x in p.free || x == h by {
        assert n.free[|p.free|] == h;
        assert forall i :: 0 <= i < |p.free| ==> n.free[i] == p.free[i];
      }
    }
    forall x | 0 <= x < |n.handles| ensures HandleOk(n, x) {
      assert HandleOk(p, x);
    }
    forall r | 0 <= r < |n.regs| ensures RegOk(n, r) {
      assert RegOk(p, r);
    }
  }

  lemma InvIsBounded(p: Pool)
    requires Inv(p)
    ensures Bounded(p)
  {
    forall h | 0 <= h < |p.handles| && (p.handles[h].wakeups != [] || p.firing == Some(h))
      ensures p.handles[h].user < |p.regs|
    {
      assert HandleOk(p, h);
    }
    forall r | 0 <= r < |p.regs| ensures p.regs[r].handle < |p.handles| {
      assert RegOk(p, r);
    }
  }

  lemma StepKeepsInv(p: Pool, step: Step)
    requires Inv(p) && Enabled(p, step)
    ensures Bounded(p) && Inv(Next(p, step))
  {
    InvIsBounded(p);
    match step
    case DoRegister => RegisterKeepsInv(p);
    case DoRemove(r) => RemoveKeepsInv(p, r);
    case DoFire(h) => FireKeepsInv(p, h);
    case FireEnds => ReleaseKeepsInv(p);
  }

  ghost predicate Legal(p: Pool, steps: seq<Step>)
    decreases |steps|
  {
    steps == [] || (Bounded(p) && Enabled(p, steps[0]) && Legal(Next(p, steps[0]), steps[1..]))
  }

  ghost function Exec(p: Pool, steps: seq<Step>): Pool
    requires Legal(p, steps)
    decreases |steps|
  {
    if steps == [] then p else Exec(Next(p, steps[0]), steps[1..])
  }

  lemma {:induction false} RunKeepsInv(p: Pool, steps: seq<Step>)
    requires Inv(p) && Legal(p, steps)
    ensures Inv(Exec(p, steps))
    decreases |steps|
  {
    if steps != [] {
      StepKeepsInv(p, steps[0]);
      RunKeepsInv(Next(p, steps[0]), steps[1..]);
    }
  }

  // Whatever is enabled can go on: being bounded excludes no run.
  lemma {:induction false} RunsGoOn(p: Pool, steps: seq<Step>, step: Step)
    requires Inv(p) && Legal(p, steps) && Enabled(Exec(p, steps), step)
    ensures Legal(p, steps + [step])
    decreases |steps|
  {
    if steps == [] {
      InvIsBounded(p);
      assert [step][1..] == [];
      assert steps + [step] == [step];
    } else {
      StepKeepsInv(p, steps[0]);
      RunsGoOn(Next(p, steps[0]), steps[1..], step);
      assert (steps + [step])[0] == steps[0] && (steps + [step])[1..] == steps[1..] + [step];
    }
  }

  // What each step does to each registration: it is called by the one wakeup of its handle unless it was
  // removed before, it counts as removed only if it was not called yet, and it is over when its callback has
  // returned, or when the wakeup comes and it was removed.
  lemma StepTreats(p: Pool, step: Step, r: nat)
    requires Inv(p) && Enabled(p, step) && r < |p.regs|
    ensures Bounded(p) && |Next(p, step).regs| == |p.regs| + (if step.DoRegister? then 1 else 0)
    ensures var a, b := p.regs[r], Next(p, step).regs[r];
      && b.handle == a.handle
      && b.calls == a.calls + (if step == DoFire(a.handle) && !a.over && !a.removed then 1 else 0)
      && (b.removed <==> a.removed || (step == DoRemove(r) && a.calls == 0))
      && (b.over <==> a.over || (step == DoFire(a.handle) && a.removed) ||
                      (step == FireEnds && p.firing == Some(a.handle)))
    ensures Next(p, step).firing ==
      match step
      case DoFire(h) => if p.handles[h].removed then None else Some(h)
      case FireEnds => None
      case _ => p.firing
  {
    InvIsBounded(p);
    assert RegOk(p, r);
    match step
    case DoFire(h) => FireTreats(p, h, r);
    case FireEnds => assert HandleOk(p, p.firing.value);
    case _ =>
  }

  lemma FireTreats(p: Pool, h: nat, r: nat)
    requires Inv(p) && Enabled(p, DoFire(h)) && r < |p.regs|
    ensures p.handles[h].user < |p.regs|
    ensures var a, b := p.regs[r], Fire(p, h).regs[r];
      && b.handle == a.handle
      && b.calls == a.calls + (if h == a.handle && !a.over && !a.removed then 1 else 0)
      && b.removed == a.removed
      && (b.over <==> a.over || (h == a.handle && a.removed))
  {
    assert HandleOk(p, h) && RegOk(p, r);
  }

  // A new registration gets a handle of its own, that has not been removed; if one was just released, that one.
  lemma NewRegistrations(p: Pool)
    requires Inv(p)
    ensures Bounded(p)
    ensures var q, r := Register(p), |p.regs|;
      && |q.regs| == r + 1 && q.regs[r] == Registration(q.regs[r].handle, false, false, 0)
      && q.regs[r].handle < |q.handles| && !q.handles[q.regs[r].handle].removed
      && (q.regs[r].handle in p.free || q.regs[r].handle == |p.handles|) && q.regs[r].handle !in q.free
      && forall s :: 0 <= s < r && !p.regs[s].over ==> q.regs[s] == p.regs[s] && p.regs[s].handle != q.regs[r].handle
    ensures p.firing.Some? ==>
      var released := Release(p, p.firing.value);
      FreeOk(released) && Register(released).regs[|p.regs|].handle == p.firing.value
  {
    InvIsBounded(p);
    RegisterKeepsInv(p);
    var q, r := Register(p), |p.regs|;
    assert RegOk(q, r);
    forall s | 0 <= s < r && !p.regs[s].over ensures q.regs[s] == p.regs[s] && p.regs[s].handle != q.regs[r].handle {
      assert RegOk(q, s);
    }
    if p.firing.Some? {
      ReleaseKeepsInv(p);
    }
  }

  ghost predicate FreeOk(p: Pool) {
    forall i :: 0 <= i < |p.free| ==> p.free[i] < |p.handles|
  }

  // Over any run: the free handles are different from each other; the handles that were ever
  // created are as many as were ever outstanding at once; a free handle owes no wakeup, and an
  // outstanding one that is not firing owes exactly one, scheduled by the registration it serves.
  lemma PoolIsExact(steps: seq<Step>, h: nat)
    requires Legal(Empty, steps) && h < |Exec(Empty, steps).handles|
    ensures var p := Exec(Empty, steps);
      && Distinct(p.free) && |p.handles| == p.peak
      && (h in p.free ==> p.handles[h].wakeups == [])
      && (h !in p.free && p.firing != Some(h) ==>
            p.handles[h].wakeups == [p.handles[h].user] && p.handles[h].user < |p.regs| &&
              p.regs[p.handles[h].user].handle == h)
  {
    RunKeepsInv(Empty, steps);
    assert HandleOk(Exec(Empty, steps), h);
  }

  // A wakeup calls the user of the registration that scheduled it, or nobody: it never fires a
  // later registration, and never one that was removed.
  lemma WakeupsAreNeverStale(steps: seq<Step>, h: nat)
    requires Legal(Empty, steps) && Enabled(Exec(Empty, steps), DoFire(h))
    ensures Bounded(Exec(Empty, steps))
    ensures var p := Exec(Empty, steps);
      var r := p.handles[h].wakeups[0];
      && r < |p.regs| && !p.regs[r].over && p.regs[r].calls == 0
      && Next(p, DoFire(h)).regs ==
           p.regs[r := if p.regs[r].removed then p.regs[r].(over := true) else p.regs[r].(calls := 1)]
  {
    RunKeepsInv(Empty, steps);
    var p := Exec(Empty, steps);
    InvIsBounded(p);
    FireKeepsInv(p, h);
    assert RegOk(p, p.handles[h].user);
  }

  lemma RemovedStays(p: Pool, step: Step, r: nat)
    requires Inv(p) && Enabled(p, step) && r < |p.regs|
    ensures Bounded(p) && r < |Next(p, step).regs| && (p.regs[r].removed ==> Next(p, step).regs[r].removed)
  {
    InvIsBounded(p);
    assert RegOk(p, r);
    match step
    case DoFire(h) => FireKeepsInv(p, h);
    case FireEnds => ReleaseKeepsInv(p);
    case _ =>
  }

  // A user callback is called at most once; one that was removed before, never; and when its
  // registration is over it was called unless it was removed.
  lemma {:induction false} RemovedIsNeverCalled(p: Pool, steps: seq<Step>, r: nat)
    requires Inv(p) && Legal(p, steps) && r < |p.regs|
    ensures var q := Exec(p, steps);
      && r < |q.regs| && q.regs[r].calls <= 1
      && (p.regs[r].removed ==> q.regs[r].removed && q.regs[r].calls == 0)
      && (q.regs[r].over ==> (q.regs[r].calls == 1 <==> !q.regs[r].removed))
    decreases |steps|
  {
    assert RegOk(p, r);
    if steps != [] {
      StepKeepsInv(p, steps[0]);
      RemovedStays(p, steps[0], r);
      RemovedIsNeverCalled(Next(p, steps[0]), steps[1..], r);
    }
  }

  // ----- The program -----

  // A handle object, and what it was told last.
  class FliTimedCbHdl {
    var removed: bool
    var time: nat
    var user: nat
    ghost var wakeups: seq<nat>

    constructor ()
      ensures wakeups == []
    {
      removed, time, user, wakeups := false, 0, 0, [];
    }

    method Arm(ghost reg: nat)
      modifies this
      ensures !removed && wakeups == old(wakeups) + [reg] && time == old(time) && user == old(user)
    {
      removed := false;
      wakeups := wakeups + [reg];
    }

    method Remove()
      modifies this
      ensures removed && wakeups == old(wakeups) && time == old(time) && user == old(user)
    {
      removed := true;
    }
  }

  class FliProcessCbHdlCache {
    var freeList: seq<FliTimedCbHdl>
    ghost var created: seq<FliTimedCbHdl>

    ghost predicate Valid()
      reads this
    {
      && (forall i, j :: 0 <= i < j < |freeList| ==> freeList[i] != freeList[j])
      && (forall i, j :: 0 <= i < j < |created| ==> created[i] != created[j])
      && forall h :: h in freeList ==> h in created
    }

    constructor ()
      ensures Valid() && freeList == [] && created == []
    {
      freeList, created := [], [];
    }

    // The last handle released, or a new one when there is none.
    method Acquire() returns (h: FliTimedCbHdl)
      requires Valid()
      modifies this
      ensures Valid() && h in created && h !in freeList
      ensures if old(freeList) != [] then freeList + [h] == old(freeList) && created == old(created)
              else freeList == [] && fresh(h) && created == old(created) + [h] && h.wakeups == []
    {
      if freeList != [] {
        h := freeList[|freeList| - 1];
        freeList := freeList[..|freeList| - 1];
        assert freeList + [h] == old(freeList);
      } else {
        h := new FliTimedCbHdl();
        created := created + [h];
      }
    }

    method Release(h: FliTimedCbHdl)
      requires Valid() && h in created && h !in freeList
      modifies this`freeList
      ensures Valid() && freeList == old(freeList) + [h]
    {
      freeList := freeList + [h];
    }

    // `register_timed_callback`
    method RegisterTimed(time: nat, user: nat) returns (h: FliTimedCbHdl)
      requires Valid() && forall x :: x in freeList ==> x.wakeups == []
      modifies this, created
      ensures Valid() && h !in freeList && !h.removed && h.time == time && h.user == user && h.wakeups == [user]
      ensures |created| == |old(created)| + if old(freeList) == [] then 1 else 0
      ensures forall x :: x in old(created) && x != h ==> x.wakeups == old(x.wakeups) && x.user == old(x.user)
    {
      h := Acquire();
      h.time := time;
      h.Arm(user);
      h.user := user;
    }

    // `FliTimedCbHdl::run`, on a wakeup: whether the user is called.
    method Run(h: FliTimedCbHdl) returns (called: Option<nat>)
      requires Valid() && h in created && h !in freeList && h.wakeups != []
      modifies this`freeList, h
      ensures Valid() && freeList == old(freeList) + [h] && h.wakeups == old(h.wakeups)[1..]
      ensures called == if old(h.removed) then None else Some(old(h.user))
    {
      h.wakeups := h.wakeups[1..];
      called := if !h.removed then Some(h.user) else None;
      Release(h);
    }
  }
}
