/** The invariant of the scheduler, and that every step keeps it. */
module SchedulerInvariant {
  import opened Wrappers
  import opened Sequences
  import opened Scheduler

  // ----- The invariant -----

  // Loop entries have identities, all of them used before.
  ghost predicate EntryIds(s: State) {
    && (forall i :: 0 <= i < |s.loop| ==> s.loop[i].id < s.next && s.loop[i].task < |s.tasks|)
    && (forall i, j :: 0 <= i < j < |s.loop| ==> s.loop[i].id != s.loop[j].id)
  }

  // A live loop entry belongs to a SCHEDULED Task that is not in `ex`, and is its latest entry.
  ghost predicate EntriesOwned(s: State, ex: set<nat>) {
    forall i :: 0 <= i < |s.loop| && !s.loop[i].cancelled ==>
      var e := s.loop[i];
      e.task < |s.tasks| && e.task !in ex && s.tasks[e.task].status == Scheduled && s.tasks[e.task].entry == e.id
  }

  ghost predicate ScheduledPlaced(s: State, ex: set<nat>) {
    forall t :: 0 <= t < |s.tasks| && t !in ex && s.tasks[t].status == Scheduled ==>
      Entry(s.tasks[t].entry, t, false) in s.loop
  }

  ghost predicate HandleOwned(s: State, ex: set<nat>, g: nat, h: Handle) {
    && h.task < |s.tasks| && h.task !in ex && h.id < s.next
    && s.tasks[h.task].status == Pending && s.tasks[h.task].trigger == g && s.tasks[h.task].handle == h.id
  }

  // A handle in a Trigger's dict belongs to a PENDING Task waiting on that Trigger.
  ghost predicate HandlesOwned(s: State, ex: set<nat>) {
    forall g, i :: 0 <= g < |s.triggers| && 0 <= i < |s.triggers[g].callbacks| ==>
      HandleOwned(s, ex, g, s.triggers[g].callbacks[i])
  }

  ghost predicate DistinctHandles(hs: seq<Handle>) {
    forall i, j :: 0 <= i < j < |hs| ==> hs[i].task != hs[j].task
  }

  ghost predicate HandlesDistinct(s: State) {
    forall g :: 0 <= g < |s.triggers| ==> DistinctHandles(s.triggers[g].callbacks)
  }

  ghost predicate PendingPlaced(s: State, ex: set<nat>) {
    forall t :: 0 <= t < |s.tasks| && t !in ex && s.tasks[t].status == Pending ==>
      s.tasks[t].trigger < |s.triggers| && Handle(s.tasks[t].handle, t) in s.triggers[s.tasks[t].trigger].callbacks
  }

  // Where Tasks are queued.  Tasks in `ex` are in transit: they are queued nowhere.
  ghost predicate Placed(s: State, ex: set<nat>) {
    && EntryIds(s) && EntriesOwned(s, ex) && ScheduledPlaced(s, ex)
    && HandlesOwned(s, ex) && HandlesDistinct(s) && PendingPlaced(s, ex)
  }

  ghost predicate FrameOk(s: State, f: Frame) {
    && f.task < |s.tasks|
    && match f
       case Coro(t) => s.tasks[t].status == Running
       case Closing(t) => s.tasks[t].status == Running
       case Finishing(t, n) => s.tasks[t].status.Done() && n <= |s.tasks[t].doneCallbacks| && s.tasks[t].broken.None?
       case Adding(t, _) => s.tasks[t].status.Done()
  }

  // The RUNNING Tasks are those whose coroutine is on the stack; nobody is there twice.
  ghost predicate Stacked(s: State) {
    && (forall i :: 0 <= i < |s.frames| ==> FrameOk(s, s.frames[i]))
    && (forall i, j :: 0 <= i < j < |s.frames| && !s.frames[i].Adding? && !s.frames[j].Adding? ==>
          s.frames[i].task != s.frames[j].task)
    && (forall t :: 0 <= t < |s.tasks| && s.tasks[t].status == Running ==>
          Coro(t) in s.frames || Closing(t) in s.frames)
  }

  ghost predicate TaskAccounted(t: Task) {
    && (t.status.Unstarted? ==> t.mustCancel == 0 && t.resumes == 0)
    && (t.status.Pending? ==> t.mustCancel == 0)
    && (t.status.Scheduled? && t.mustCancel > 0 ==> t.exc == Some(CancelledError))
    && (t.status.Finished? ==> t.mustCancel == 0)
    && (t.outcome.Some? <==> t.status.Done()) && (t.broken.Some? ==> t.status.Done())
    && (t.status.Finished? ==> t.outcome.value.Value?)
    && (t.status.Cancelled? ==> t.outcome == Some(Raised(CancelledError)))
    && (t.status.Errored? ==> t.outcome.value.Raised? && t.outcome.value.e != CancelledError)
  }

  ghost predicate Accounted(s: State) {
    forall t :: 0 <= t < |s.tasks| ==> TaskAccounted(s.tasks[t])
  }

  ghost predicate LinkOk(s: State, t: nat)
    requires t < |s.tasks|
  {
    var c, j := s.tasks[t].complete, s.tasks[t].join;
    && c < |s.triggers| && s.triggers[c].kind == Complete(t)
    && j < |s.triggers| && s.triggers[j].kind == Complete(t) && c != j
  }

  // `complete` and `_join` of a Task are the only Triggers about it.
  ghost predicate Linked(s: State) {
    && (forall t :: 0 <= t < |s.tasks| ==> LinkOk(s, t))
    && (forall g :: 0 <= g < |s.triggers| && s.triggers[g].kind.Complete? ==>
          var t := s.triggers[g].kind.task;
          t < |s.tasks| && (g == s.tasks[t].complete || g == s.tasks[t].join))
  }

  // What a Trigger with waiters may look like: something will still fire it, or has failed to.
  ghost predicate Unfired(s: State, g: nat)
    requires g < |s.triggers|
  {
    match s.triggers[g].kind
    case Event(fired) => !fired
    case Null => false
    case Complete(t) => t < |s.tasks| && (s.tasks[t].status.Done() ==> FinishingIn(s, t) || s.tasks[t].broken.Some?)
    case Gpi(primed) => primed || s.triggers[g].stale != []
  }

  // A Trigger that was left with a stale handle is never primed again.
  ghost predicate StaleOk(g: Trigger) {
    g.stale != [] ==> g.kind == Gpi(false)
  }

  ghost predicate NoneMissed(s: State) {
    forall g :: 0 <= g < |s.triggers| ==>
      && (s.triggers[g].callbacks != [] ==> Unfired(s, g))
      && (s.triggers[g].kind == Gpi(true) ==> s.triggers[g].callbacks != [])
      && StaleOk(s.triggers[g])
  }

  ghost predicate Inv(s: State) {
    Placed(s, {}) && Stacked(s) && Accounted(s) && Linked(s) && NoneMissed(s)
  }

  // ----- Moving a Task between the queues -----

  // Adding a SCHEDULED entry for a Task in transit.
  lemma ScheduleKeepsPlaced(s: State, ex: set<nat>, t: nat, e: Option<Exn>, left: bool)
    requires Placed(s, ex) && t in ex && t < |s.tasks|
    ensures Placed(Schedule(s, t, e, left), ex - {t})
  {
    var r := Schedule(s, t, e, left);
    var entry := Entry(s.next, t, false);
    assert entry in r.loop by {
      if left { assert r.loop[0] == entry; } else { assert r.loop[|s.loop|] == entry; }
    }
    forall u | 0 <= u < |r.tasks| && u !in ex - {t} && r.tasks[u].status == Scheduled
      ensures Entry(r.tasks[u].entry, u, false) in r.loop
    {
      if u != t { assert Entry(s.tasks[u].entry, u, false) in s.loop; }
    }
    forall g, i | 0 <= g < |r.triggers| && 0 <= i < |r.triggers[g].callbacks|
      ensures HandleOwned(r, ex - {t}, g, r.triggers[g].callbacks[i])
    {
      assert HandleOwned(s, ex, g, s.triggers[g].callbacks[i]);
    }
  }

  // A Task that is neither SCHEDULED nor PENDING is in transit or not, as one likes.
  lemma Exempt(s: State, ex: set<nat>, t: nat)
    requires Placed(s, ex) && t < |s.tasks| && s.tasks[t].status !in {Scheduled, Pending}
    ensures Placed(s, ex + {t}) && Placed(s, ex - {t})
  {
    forall g, i | 0 <= g < |s.triggers| && 0 <= i < |s.triggers[g].callbacks|
      ensures HandleOwned(s, ex + {t}, g, s.triggers[g].callbacks[i]) &&
        HandleOwned(s, ex - {t}, g, s.triggers[g].callbacks[i])
    {
      assert HandleOwned(s, ex, g, s.triggers[g].callbacks[i]);
    }
  }

  // While a Task is in transit its record may change freely.
  lemma ChangeInTransit(s: State, ex: set<nat>, t: nat, task: Task)
    requires Placed(s, ex) && t in ex && t < |s.tasks|
    ensures Placed(SetTask(s, t, task), ex)
  {
    var r := SetTask(s, t, task);
    forall g, i | 0 <= g < |r.triggers| && 0 <= i < |r.triggers[g].callbacks|
      ensures HandleOwned(r, ex, g, r.triggers[g].callbacks[i])
    {
      assert HandleOwned(s, ex, g, s.triggers[g].callbacks[i]);
    }
  }

  // Changes that the queues do not see.
  lemma ChangeUnseen(s: State, ex: set<nat>, r: State)
    requires Placed(s, ex)
    requires r.loop == s.loop && r.triggers == s.triggers && r.next == s.next && |r.tasks| == |s.tasks|
    requires forall t :: 0 <= t < |s.tasks| ==>
      && r.tasks[t].status == s.tasks[t].status && r.tasks[t].entry == s.tasks[t].entry
      && r.tasks[t].trigger == s.tasks[t].trigger && r.tasks[t].handle == s.tasks[t].handle
    ensures Placed(r, ex)
  {
    forall g, i | 0 <= g < |r.triggers| && 0 <= i < |r.triggers[g].callbacks|
      ensures HandleOwned(r, ex, g, r.triggers[g].callbacks[i])
    {
      assert HandleOwned(s, ex, g, s.triggers[g].callbacks[i]);
    }
  }

  lemma SetKindKeepsPlaced(s: State, ex: set<nat>, g: nat, k: Kind)
    requires Placed(s, ex) && g < |s.triggers|
    ensures Placed(SetKind(s, g, k), ex)
  {
    var r := SetKind(s, g, k);
    forall h, i | 0 <= h < |r.triggers| && 0 <= i < |r.triggers[h].callbacks|
      ensures HandleOwned(r, ex, h, r.triggers[h].callbacks[i])
    {
      assert r.triggers[h].callbacks == s.triggers[h].callbacks;
      assert HandleOwned(s, ex, h, s.triggers[h].callbacks[i]);
    }
  }

  function Owners(hs: seq<Handle>): (r: set<nat>)
    ensures forall t :: t in r <==> exists i :: 0 <= i < |hs| && hs[i].task == t
  {
    set i | 0 <= i < |hs| :: hs[i].task
  }

  lemma TakeKeepsPlaced(s: State, ex: set<nat>, g: nat)
    requires Placed(s, ex) && g < |s.triggers|
    ensures Placed(TakeHandles(s, g), ex + Owners(s.triggers[g].callbacks))
  {
    var hs := s.triggers[g].callbacks;
    var r := TakeHandles(s, g);
    var ex' := ex + Owners(hs);
    assert forall k :: 0 <= k < |hs| ==> HandleOwned(s, ex, g, hs[k]);
    assert forall t :: t in Owners(hs) ==> s.tasks[t].status == Pending && s.tasks[t].trigger == g;
    forall h, i | 0 <= h < |r.triggers| && 0 <= i < |r.triggers[h].callbacks|
      ensures HandleOwned(r, ex', h, r.triggers[h].callbacks[i])
    {
      assert HandleOwned(s, ex, h, s.triggers[h].callbacks[i]);
    }
    forall t | 0 <= t < |r.tasks| && t !in ex' && r.tasks[t].status == Pending
      ensures r.tasks[t].trigger < |r.triggers| &&
        Handle(r.tasks[t].handle, t) in r.triggers[r.tasks[t].trigger].callbacks
    {
      assert Handle(s.tasks[t].handle, t) in s.triggers[s.tasks[t].trigger].callbacks;
      assert forall h :: h in hs ==> h.task in Owners(hs);
    }
  }

  lemma {:induction false} RunKeepsPlaced(s: State, ex: set<nat>, hs: seq<Handle>)
    requires HandlesOk(s, hs) && DistinctHandles(hs) && Owners(hs) <= ex && Placed(s, ex)
    ensures Placed(RunHandles(s, hs), ex - Owners(hs))
    decreases |hs|
  {
    if hs == [] {
      assert ex - Owners(hs) == ex;
    } else {
      var s1 := ScheduleResume(s, hs[0].task, None);
      assert hs[0].task in Owners(hs);
      ScheduleKeepsPlaced(s, ex, hs[0].task, None, false);
      assert HandlesOk(s1, hs[1..]);
      forall t | t in Owners(hs[1..]) ensures t in ex - {hs[0].task} {
        var i :| 0 <= i < |hs[1..]| && hs[1..][i].task == t;
        assert hs[i + 1].task == t;
      }
      RunKeepsPlaced(s1, ex - {hs[0].task}, hs[1..]);
      forall t | t in Owners(hs) && t != hs[0].task ensures t in Owners(hs[1..]) {
        var i :| 0 <= i < |hs| && hs[i].task == t;
        assert hs[1..][i - 1].task == t;
      }
      assert ex - {hs[0].task} - Owners(hs[1..]) == ex - Owners(hs);
    }
  }

  // What firing does to the Tasks: the owners are rescheduled, in order of registration.
  lemma {:induction false} RunEffect(s: State, hs: seq<Handle>)
    requires HandlesOk(s, hs) && DistinctHandles(hs)
    ensures var r := RunHandles(s, hs);
      && |r.tasks| == |s.tasks|
      && r.loop == s.loop + seq(|hs|, i requires 0 <= i < |hs| => Entry(s.next + i, hs[i].task, false))
      && (forall t :: 0 <= t < |s.tasks| ==>
            r.tasks[t] == if t in Owners(hs)
                          then s.tasks[t].(status := Scheduled, exc := None, entry := r.tasks[t].entry)
                          else s.tasks[t])
    decreases |hs|
  {
    if hs != [] {
      var s1 := ScheduleResume(s, hs[0].task, None);
      assert HandlesOk(s1, hs[1..]);
      RunEffect(s1, hs[1..]);
      OwnersHead(hs);
    }
  }

  lemma OwnersHead(hs: seq<Handle>)
    requires hs != [] && DistinctHandles(hs)
    ensures hs[0].task !in Owners(hs[1..]) && Owners(hs) == {hs[0].task} + Owners(hs[1..])
  {
    forall t | t in Owners(hs) && t != hs[0].task ensures t in Owners(hs[1..]) {
      var i :| 0 <= i < |hs| && hs[i].task == t;
      assert hs[1..][i - 1].task == t;
    }
    forall i | 0 <= i < |hs[1..]| ensures hs[1..][i].task != hs[0].task && hs[1..][i].task in Owners(hs) {
      assert hs[1..][i] == hs[i + 1];
    }
  }

  lemma ReactKeepsPlaced(s: State, ex: set<nat>, g: nat)
    requires Placed(s, ex) && g < |s.triggers| && HandlesOk(s, s.triggers[g].callbacks)
    ensures Placed(React(s, g), ex)
  {
    var hs := s.triggers[g].callbacks;
    TakeKeepsPlaced(s, ex, g);
    assert HandlesOk(TakeHandles(s, g), hs);
    RunKeepsPlaced(TakeHandles(s, g), ex + Owners(hs), hs);
    forall t | t in Owners(hs) ensures t !in ex {
      var i :| 0 <= i < |hs| && hs[i].task == t;
      assert HandleOwned(s, ex, g, hs[i]);
    }
    assert ex + Owners(hs) - Owners(hs) == ex;
  }

  lemma {:induction false} WithoutKeepsDistinct(hs: seq<Handle>, h: Handle)
    requires DistinctHandles(hs)
    ensures DistinctHandles(Without(hs, h))
  {
    if hs != [] {
      WithoutKeepsDistinct(hs[1..], h);
      var r := Without(hs[1..], h);
      forall i | 0 <= i < |r| ensures r[i].task != hs[0].task {
        assert r[i] in hs[1..];
      }
    }
  }

  lemma DeregisterKeepsPlaced(s: State, ex: set<nat>, t: nat)
    requires Placed(s, ex) && t < |s.tasks| && t !in ex && s.tasks[t].status == Pending
    ensures s.tasks[t].trigger < |s.triggers| && Deregister(s, t).Ok? && Placed(Deregister(s, t).value, ex + {t})
  {
    var g := s.tasks[t].trigger;
    var h := Handle(s.tasks[t].handle, t);
    var hs := s.triggers[g].callbacks;
    assert h in hs;
    var r := Deregister(s, t).value;
    WithoutKeepsDistinct(hs, h);
    assert forall k :: 0 <= k < |r.triggers| && k != g ==> r.triggers[k] == s.triggers[k];
    forall k, i | 0 <= k < |r.triggers| && 0 <= i < |r.triggers[k].callbacks|
      ensures HandleOwned(r, ex + {t}, k, r.triggers[k].callbacks[i])
    {
      var x := r.triggers[k].callbacks[i];
      assert x in s.triggers[k].callbacks;
      var j :| 0 <= j < |s.triggers[k].callbacks| && s.triggers[k].callbacks[j] == x;
      assert HandleOwned(s, ex, k, x);
    }
  }

  lemma UnscheduleKeepsPlaced(s: State, ex: set<nat>, t: nat)
    requires Placed(s, ex) && t < |s.tasks| && t !in ex && s.tasks[t].status == Scheduled
    ensures Placed(Unschedule(s, t), ex + {t})
  {
    var r := Unschedule(s, t);
    var mine := Entry(s.tasks[t].entry, t, false);
    assert mine in s.loop;
    forall u | 0 <= u < |r.tasks| && u !in ex + {t} && r.tasks[u].status == Scheduled
      ensures Entry(r.tasks[u].entry, u, false) in r.loop
    {
      var k :| 0 <= k < |s.loop| && s.loop[k] == Entry(s.tasks[u].entry, u, false);
      var j :| 0 <= j < |s.loop| && s.loop[j] == mine;
      assert r.loop[k] == s.loop[k];
    }
    forall g, i | 0 <= g < |r.triggers| && 0 <= i < |r.triggers[g].callbacks|
      ensures HandleOwned(r, ex + {t}, g, r.triggers[g].callbacks[i])
    {
      assert HandleOwned(s, ex, g, s.triggers[g].callbacks[i]);
    }
  }

  lemma AddHandleKeepsPlaced(s: State, ex: set<nat>, t: nat, g: nat)
    requires Placed(s, ex) && t in ex && t < |s.tasks| && g < |s.triggers| && HandlesOk(s, s.triggers[g].callbacks)
    ensures Placed(AddHandle(s, t, g), ex - {t})
  {
    var r := AddHandle(s, t, g);
    var hs := s.triggers[g].callbacks;
    assert r.triggers[g].callbacks == hs + [Handle(s.next, t)];
    forall k, i | 0 <= k < |r.triggers| && 0 <= i < |r.triggers[k].callbacks|
      ensures HandleOwned(r, ex - {t}, k, r.triggers[k].callbacks[i])
    {
      if i < |s.triggers[k].callbacks| {
        assert HandleOwned(s, ex, k, s.triggers[k].callbacks[i]);
      }
    }
    assert DistinctHandles(r.triggers[g].callbacks) by {
      forall i | 0 <= i < |hs| ensures hs[i].task != t {
        assert HandleOwned(s, ex, g, hs[i]);
      }
      assert DistinctHandles(hs);
    }
    forall u | 0 <= u < |r.tasks| && u !in ex - {t} && r.tasks[u].status == Pending
      ensures r.tasks[u].trigger < |r.triggers| &&
        Handle(r.tasks[u].handle, u) in r.triggers[r.tasks[u].trigger].callbacks
    {
      if u == t {
        assert r.triggers[g].callbacks[|hs|] == Handle(s.next, t);
      } else {
        assert Handle(s.tasks[u].handle, u) in s.triggers[s.tasks[u].trigger].callbacks;
      }
    }
  }

  lemma PopKeepsPlaced(s: State, ex: set<nat>)
    requires Placed(s, ex) && |s.loop| > 0
    ensures var e, r := s.loop[0], s.(loop := s.loop[1..]);
      if e.cancelled then Placed(r, ex)
      else e.task < |s.tasks| && s.tasks[e.task].status == Scheduled && Placed(r, ex + {e.task})
  {
    var e, r := s.loop[0], s.(loop := s.loop[1..]);
    var ex' := if e.cancelled then ex else ex + {e.task};
    forall t | 0 <= t < |r.tasks| && t !in ex' && r.tasks[t].status == Scheduled
      ensures Entry(r.tasks[t].entry, t, false) in r.loop
    {
      var k :| 0 <= k < |s.loop| && s.loop[k] == Entry(s.tasks[t].entry, t, false);
      assert k > 0 && r.loop[k - 1] == s.loop[k];
    }
    forall g, i | 0 <= g < |r.triggers| && 0 <= i < |r.triggers[g].callbacks|
      ensures HandleOwned(r, ex', g, r.triggers[g].callbacks[i])
    {
      assert HandleOwned(s, ex, g, s.triggers[g].callbacks[i]);
    }
  }

  // ----- Firing a Trigger -----

  ghost predicate NoneMissedBut(s: State, gs: set<nat>) {
    forall g :: 0 <= g < |s.triggers| && g !in gs ==>
      && (s.triggers[g].callbacks != [] ==> Unfired(s, g))
      && (s.triggers[g].kind == Gpi(true) ==> s.triggers[g].callbacks != [])
      && StaleOk(s.triggers[g])
  }

  ghost predicate InvBut(s: State, gs: set<nat>) {
    Placed(s, {}) && Stacked(s) && Accounted(s) && Linked(s) && NoneMissedBut(s, gs)
  }

  lemma InvIsSane(s: State, gs: set<nat>)
    requires InvBut(s, gs)
    ensures Sane(s)
  {
    forall g | 0 <= g < |s.triggers| ensures HandlesOk(s, s.triggers[g].callbacks) {
      forall i | 0 <= i < |s.triggers[g].callbacks| ensures s.triggers[g].callbacks[i].task < |s.tasks| {
        assert HandleOwned(s, {}, g, s.triggers[g].callbacks[i]);
      }
    }
    forall t | 0 <= t < |s.tasks|
      ensures s.tasks[t].complete < |s.triggers| && s.tasks[t].join < |s.triggers|
    {
      assert LinkOk(s, t);
    }
    forall i | 0 <= i < |s.frames| ensures s.frames[i].task < |s.tasks| {
      assert FrameOk(s, s.frames[i]);
    }
  }

  lemma ReactEffect(s: State, gs: set<nat>, g: nat)
    requires InvBut(s, gs) && g < |s.triggers|
    ensures HandlesOk(s, s.triggers[g].callbacks)
    ensures var r, hs := React(s, g), s.triggers[g].callbacks;
      && r.triggers == s.triggers[g := s.triggers[g].(callbacks := [])]
      && r.frames == s.frames
      && |r.tasks| == |s.tasks|
      && r.loop == s.loop + seq(|hs|, i requires 0 <= i < |hs| => Entry(s.next + i, hs[i].task, false))
      && (forall t :: t in Owners(hs) ==> t < |s.tasks| && s.tasks[t].status == Pending)
      && (forall t :: 0 <= t < |s.tasks| ==>
            r.tasks[t] == if t in Owners(hs)
                          then s.tasks[t].(status := Scheduled, exc := None, entry := r.tasks[t].entry)
                          else s.tasks[t])
  {
    InvIsSane(s, gs);
    var hs := s.triggers[g].callbacks;
    var s1 := TakeHandles(s, g);
    assert HandlesOk(s1, hs);
    RunHandlesFrame(s1, hs);
    RunEffect(s1, hs);
    assert forall i :: 0 <= i < |hs| ==> HandleOwned(s, {}, g, hs[i]);
  }

  lemma StackedUnseen(s: State, r: State)
    requires Stacked(s) && r.frames == s.frames && |r.tasks| == |s.tasks|
    requires forall t :: 0 <= t < |s.tasks| ==>
      && (r.tasks[t].status == Running <==> s.tasks[t].status == Running)
      && (r.tasks[t].status.Done() <==> s.tasks[t].status.Done())
      && |r.tasks[t].doneCallbacks| >= |s.tasks[t].doneCallbacks| && r.tasks[t].broken == s.tasks[t].broken
    ensures Stacked(r)
  {
    forall i | 0 <= i < |r.frames| ensures FrameOk(r, r.frames[i]) {
      assert FrameOk(s, s.frames[i]);
    }
  }

  lemma LinkedUnseen(s: State, r: State)
    requires Linked(s) && |r.tasks| == |s.tasks| && |r.triggers| == |s.triggers|
    requires forall g :: 0 <= g < |s.triggers| ==>
      s.triggers[g].kind == r.triggers[g].kind || !(s.triggers[g].kind.Complete? || r.triggers[g].kind.Complete?)
    requires forall t :: 0 <= t < |s.tasks| ==>
      r.tasks[t].complete == s.tasks[t].complete && r.tasks[t].join == s.tasks[t].join
    ensures Linked(r)
  {
    forall t | 0 <= t < |r.tasks| ensures LinkOk(r, t) {
      assert LinkOk(s, t);
    }
  }

  // A Trigger keeps its waiters' prospects when its Task's frame stays and it is itself unchanged or emptied.
  lemma MissedUnseen(s: State, r: State, gs: set<nat>, gs': set<nat>)
    requires NoneMissedBut(s, gs) && |r.triggers| == |s.triggers| && |r.tasks| == |s.tasks|
    requires forall t :: 0 <= t < |s.tasks| && FinishingIn(s, t) ==> FinishingIn(r, t) || r.tasks[t].broken.Some?
    requires forall t :: 0 <= t < |s.tasks| && s.tasks[t].broken.Some? ==> r.tasks[t].broken.Some?
    requires forall t :: 0 <= t < |s.tasks| && r.tasks[t].status.Done() ==>
      s.tasks[t].status.Done() || FinishingIn(r, t)
    requires forall g :: 0 <= g < |s.triggers| && g !in gs' ==>
      || (g !in gs && r.triggers[g] == s.triggers[g])
      || (r.triggers[g].callbacks == [] && r.triggers[g].kind != Gpi(true) && StaleOk(r.triggers[g]))
    ensures NoneMissedBut(r, gs')
  {
    forall g | 0 <= g < |r.triggers| && g !in gs'
      ensures r.triggers[g].callbacks != [] ==> Unfired(r, g)
      ensures r.triggers[g].kind == Gpi(true) ==> r.triggers[g].callbacks != []
      ensures StaleOk(r.triggers[g])
    {
      if r.triggers[g].callbacks != [] {
        assert Unfired(s, g);
      }
    }
  }

  lemma ReactKeepsInv(s: State, gs: set<nat>, g: nat)
    requires InvBut(s, gs) && g < |s.triggers| && s.triggers[g].kind != Gpi(true) && StaleOk(s.triggers[g])
    ensures HandlesOk(s, s.triggers[g].callbacks) && InvBut(React(s, g), gs - {g})
  {
    ReactEffect(s, gs, g);
    ReactKeepsPlaced(s, {}, g);
    var r := React(s, g);
    StackedUnseen(s, r);
    LinkedUnseen(s, r);
    assert Accounted(r) by {
      forall t | 0 <= t < |r.tasks| ensures TaskAccounted(r.tasks[t]) {
        assert TaskAccounted(s.tasks[t]);
      }
    }
    MissedUnseen(s, r, gs, gs - {g});
  }
}
