/**
  The queue of coconext: its two locks are handed over from the releasing side to the first waiter
  that is still alive.

  A blocked `put`, `get` or `peek` is a `Call` that waits in the deque of its lock, or that holds the
  lock and is about to be resumed.  Any Task may die at any time, also one that holds a lock, and any
  Task may be cancelled inside a blocked call and live on, which leaves the call where it was.
  */
module CoconextQueue {
  import opened Wrappers
  import opened Sequences

  // The queue never looks at its items.
  type Item = int

  datatype Request = Put(item: Item) | Get | Peek

  // `id` numbers the calls of one side in order of arrival.
  datatype Call = Call(id: nat, task: nat, req: Request)

  datatype Lock = Lock(holder: Option<Call>, waiters: seq<Call>)

  // The calls made on one side, the ones served, the ones that came to nothing because their Task died
  // waiting or because they raised, and the ones that a Task has left that lives on.
  datatype History = History(calls: seq<Call>, served: seq<Call>, abandoned: set<nat>, left: set<nat>)

  datatype State = State(
    maxsize: int,
    items: seq<Item>,
    w: Lock,
    r: Lock,
    done: set<nat>,      // Tasks that are done
    wh: History,
    rh: History,
    results: seq<Item>,  // what the served read calls returned
    raised: nat,         // QueueFull and QueueEmpty raised inside `put`, `get` and `peek`
    stream: seq<Item>,   // history: every item put, in order,
    got: seq<Item>,      //   every item got, in order,
    mixed: bool,         //   whether `put_nowait` or `get_nowait` was called from outside,
    rude: bool)          //   and whether such a call took what had been granted

  function Init(maxsize: int): State {
    State(maxsize, [], Lock(None, []), Lock(None, []), {}, History([], [], {}, {}), History([], [], {}, {}), [], 0,
          [], [], false, false)
  }

  predicate Full(s: State) {
    s.maxsize > 0 && |s.items| >= s.maxsize
  }

  predicate Empty(s: State) {
    |s.items| == 0
  }

  // ----- The operations -----

  // The loop of `_wakeup_next`.
  function Grant(ws: seq<Call>, done: set<nat>): Lock {
    if ws == [] then Lock(None, [])
    else if ws[0].task in done then Grant(ws[1..], done)
    else Lock(Some(ws[0]), ws[1..])
  }

  // `_wakeup_next`
  function Wake(l: Lock, available: bool, done: set<nat>): Lock {
    if l.holder.Some? || !available then l else Grant(l.waiters, done)
  }

  function WakeReader(s: State): State {
    s.(r := Wake(s.r, !Empty(s), s.done))
  }

  function WakeWriter(s: State): State {
    s.(w := Wake(s.w, !Full(s), s.done))
  }

  function ReleaseWrite(s: State): State {
    WakeWriter(s.(w := s.w.(holder := None)))
  }

  function ReleaseRead(s: State): State {
    WakeReader(s.(r := s.r.(holder := None)))
  }

  // `put_nowait`, when there is room
  function PutNowait(s: State, x: Item): State {
    WakeReader(s.(items := s.items + [x], stream := s.stream + [x]))
  }

  // `get_nowait`, when there is an item
  function GetNowait(s: State): State
    requires !Empty(s)
  {
    WakeWriter(s.(items := s.items[1..], got := s.got + [s.items[0]]))
  }

  // The body of `put` once the write lock is held: `put_nowait` and `release`.
  function PutLocked(s: State): (r: State)
    requires s.w.holder.Some? && s.w.holder.value.req.Put?
    ensures r.done == s.done && r.rh == s.rh && r.maxsize == s.maxsize && (s.r.holder.Some? ==> r.r == s.r)
  {
    var c := s.w.holder.value;
    if Full(s) then ReleaseWrite(s.(raised := s.raised + 1, wh := s.wh.(abandoned := s.wh.abandoned + {c.id})))
    else ReleaseWrite(PutNowait(s, c.req.item)).(wh := s.wh.(served := s.wh.served + [c]))
  }

  // The body of `get` or `peek` once the read lock is held.
  function ReadLocked(s: State): (r: State)
    requires s.r.holder.Some?
    ensures r.done == s.done && r.wh == s.wh && r.maxsize == s.maxsize && (s.w.holder.Some? ==> r.w == s.w)
  {
    var c := s.r.holder.value;
    if Empty(s) then ReleaseRead(s.(raised := s.raised + 1, rh := s.rh.(abandoned := s.rh.abandoned + {c.id})))
    else
      var s1 := if c.req.Get? then GetNowait(s) else s;
      ReleaseRead(s1).(rh := s.rh.(served := s.rh.served + [c]), results := s.results + [s.items[0]])
  }

  // `acquire` returns at once when the lock was granted to the same Task, which must have left the call it
  // was granted to: the new call takes that one's place.
  predicate Returns(l: Lock, h: History, t: nat) {
    l.holder.Some? && l.holder.value.task == t && l.holder.value.id < |h.calls|
  }

  function TakeUp(l: Lock, h: History, req: Request): (Lock, History)
    requires l.holder.Some? && l.holder.value.id < |h.calls|
  {
    var c := l.holder.value.(req := req);
    (l.(holder := Some(c)), h.(calls := h.calls[c.id := c], left := h.left - {c.id}))
  }

  function CallPut(s: State, t: nat, x: Item): (r: State)
    ensures r.done == s.done && r.rh == s.rh && r.maxsize == s.maxsize && (s.r.holder.Some? ==> r.r == s.r)
  {
    if Returns(s.w, s.wh, t) then
      var (w, wh) := TakeUp(s.w, s.wh, Put(x));
      PutLocked(s.(w := w, wh := wh))
    else QueuePut(s, t, x)
  }

  function QueuePut(s: State, t: nat, x: Item): (r: State)
    ensures r.done == s.done && r.rh == s.rh && r.maxsize == s.maxsize && (s.r.holder.Some? ==> r.r == s.r)
  {
    var c := Call(|s.wh.calls|, t, Put(x));
    var s1 := s.(wh := s.wh.(calls := s.wh.calls + [c]));
    if Full(s) || s.w.holder.Some? then s1.(w := s.w.(waiters := s.w.waiters + [c]))
    else PutLocked(s1.(w := s.w.(holder := Some(c))))
  }

  function CallRead(s: State, t: nat, peek: bool): (r: State)
    ensures r.done == s.done && r.wh == s.wh && r.maxsize == s.maxsize && (s.w.holder.Some? ==> r.w == s.w)
  {
    if Returns(s.r, s.rh, t) then
      var (r, rh) := TakeUp(s.r, s.rh, if peek then Peek else Get);
      ReadLocked(s.(r := r, rh := rh))
    else QueueRead(s, t, peek)
  }

  function QueueRead(s: State, t: nat, peek: bool): (r: State)
    ensures r.done == s.done && r.wh == s.wh && r.maxsize == s.maxsize && (s.w.holder.Some? ==> r.w == s.w)
  {
    var c := Call(|s.rh.calls|, t, if peek then Peek else Get);
    var s1 := s.(rh := s.rh.(calls := s.rh.calls + [c]));
    if Empty(s) || s.r.holder.Some? then s1.(r := s.r.(waiters := s.r.waiters + [c]))
    else ReadLocked(s1.(r := s.r.(holder := Some(c))))
  }

  function WaitingIds(ws: seq<Call>, t: nat): set<nat> {
    set i | 0 <= i < |ws| && ws[i].task == t :: ws[i].id
  }

  // A Task is cancelled in the call in which it is blocked, and lives on.
  function Leave(s: State, t: nat): State {
    s.(wh := s.wh.(left := s.wh.left + WaitingIds(Current(s.w) + s.w.waiters, t)),
       rh := s.rh.(left := s.rh.left + WaitingIds(Current(s.r) + s.r.waiters, t)))
  }

  // `put_nowait` and `get_nowait` from outside; nothing happens when they raise.
  predicate TakesTheGrantedSlot(s: State) {
    s.w.holder.Some? && !Full(s) && s.maxsize > 0 && |s.items| + 1 == s.maxsize
  }

  function OutsidePut(s: State, x: Item): State {
    if Full(s) then s.(mixed := true)
    else PutNowait(s, x).(mixed := true, rude := s.rude || TakesTheGrantedSlot(s))
  }

  predicate TakesTheGrantedItem(s: State) {
    s.r.holder.Some? && |s.items| == 1
  }

  function OutsideGet(s: State): State {
    if Empty(s) then s.(mixed := true)
    else GetNowait(s).(mixed := true, rude := s.rude || TakesTheGrantedItem(s))
  }

  // A Task becomes done; if it was waiting, its call is abandoned.
  function Die(s: State, t: nat): State {
    s.(done := s.done + {t},
    wh := s.wh.(abandoned := s.wh.abandoned + WaitingIds(s.w.waiters, t)),
    rh := s.rh.(abandoned := s.rh.abandoned + WaitingIds(s.r.waiters, t)))
  }

  // ----- Runs -----

  datatype Step =
    | DoPut(task: nat, item: Item)
    | DoRead(task: nat, peek: bool)
    | ResumePut
    | ResumeRead
    | DoDie(task: nat)
    | DoLeave(task: nat)
    | DoPutNowait(item: Item)
    | DoGetNowait

  ghost predicate HeldByTheDead(l: Lock, done: set<nat>) {
    l.holder.Some? && l.holder.value.task in done
  }

  // Nobody is about to be resumed with this lock.
  ghost predicate Unattended(l: Lock, h: History, done: set<nat>) {
    l.holder.Some? && (l.holder.value.task in done || l.holder.value.id in h.left)
  }

  // A Task makes no call while it is blocked in one.
  ghost predicate BlockedIn(l: Lock, h: History, t: nat) {
    exists c :: c in Current(l) + l.waiters && c.task == t && c.id !in h.left
  }

  ghost predicate Free(s: State, t: nat) {
    t !in s.done && !BlockedIn(s.w, s.wh, t) && !BlockedIn(s.r, s.rh, t)
  }

  ghost predicate Enabled(s: State, p: Step) {
    match p
    case DoPut(t, _) => Free(s, t)
    case DoRead(t, _) => Free(s, t)
    case ResumePut => s.w.holder.Some? && s.w.holder.value.req.Put? && !Unattended(s.w, s.wh, s.done)
    case ResumeRead => s.r.holder.Some? && !Unattended(s.r, s.rh, s.done)
    case DoDie(_) => true
    case DoLeave(_) => true
    case DoPutNowait(_) => true
    case DoGetNowait => true
  }

  ghost function Next(s: State, p: Step): State
    requires Enabled(s, p)
  {
    match p
    case DoPut(t, x) => CallPut(s, t, x)
    case DoRead(t, peek) => CallRead(s, t, peek)
    case ResumePut => PutLocked(s)
    case ResumeRead => ReadLocked(s)
    case DoDie(t) => Die(s, t)
    case DoLeave(t) => Leave(s, t)
    case DoPutNowait(x) => OutsidePut(s, x)
    case DoGetNowait => OutsideGet(s)
  }

  ghost predicate Legal(s: State, ps: seq<Step>)
    decreases |ps|
  {
    ps == [] || (Enabled(s, ps[0]) && Legal(Next(s, ps[0]), ps[1..]))
  }

  ghost function Exec(s: State, ps: seq<Step>): State
    requires Legal(s, ps)
    decreases |ps|
  {
    if ps == [] then s else Exec(Next(s, ps[0]), ps[1..])
  }

  // ----- The invariant -----

  function Live(ws: seq<Call>, done: set<nat>): (r: seq<Call>)
    ensures forall c :: c in r <==> c in ws && c.task !in done
  {
    if ws == [] then []
    else if ws[0].task in done then Live(ws[1..], done)
    else [ws[0]] + Live(ws[1..], done)
  }

  // The calls that were not abandoned, in order of arrival.
  function Survivors(cs: seq<Call>, abandoned: set<nat>): (r: seq<Call>)
    ensures forall c :: c in r ==> c in cs
  {
    if cs == [] then []
    else if cs[0].id in abandoned then Survivors(cs[1..], abandoned)
    else [cs[0]] + Survivors(cs[1..], abandoned)
  }

  function Current(l: Lock): seq<Call> {
    if l.holder.Some? then [l.holder.value] else []
  }

  function Items(cs: seq<Call>): (r: seq<Item>)
    requires forall i :: 0 <= i < |cs| ==> cs[i].req.Put?
    ensures |r| == |cs| && forall i :: 0 <= i < |cs| ==> r[i] == cs[i].req.item
  {
    seq(|cs|, i requires 0 <= i < |cs| => cs[i].req.item)
  }

  function Gets(cs: seq<Call>): nat {
    if cs == [] then 0 else Gets(cs[..|cs| - 1]) + (if cs[|cs| - 1].req.Get? then 1 else 0)
  }

  ghost predicate Numbered(cs: seq<Call>) {
    forall i :: 0 <= i < |cs| ==> cs[i].id == i
  }

  // Different calls, all of them among the first `n`.
  ghost predicate Known(cs: seq<Call>, n: nat) {
    && (forall i :: 0 <= i < |cs| ==> cs[i].id < n)
    && (forall i, j :: 0 <= i < j < |cs| ==> cs[i].id != cs[j].id)
  }

  // Calls are served in order of arrival: the surviving calls are those served, then the one that
  // holds the lock, then the live ones that wait.
  ghost predicate InOrder(l: Lock, h: History, done: set<nat>) {
    && Numbered(h.calls)
    && Known(h.served + Current(l) + l.waiters, |h.calls|)
    && (forall i :: i in h.abandoned ==> i < |h.calls|)
    && Survivors(h.calls, h.abandoned) == h.served + Current(l) + Live(l.waiters, done)
  }

  // No lost wakeup: a lock that is free and available has no live waiter.
  ghost predicate NoneLost(l: Lock, available: bool, done: set<nat>) {
    l.holder.None? && available ==> Live(l.waiters, done) == []
  }

  ghost predicate PutCalls(h: History) {
    forall i :: 0 <= i < |h.calls| ==> h.calls[i].req.Put?
  }

  ghost predicate ReadCalls(h: History) {
    forall i :: 0 <= i < |h.calls| ==> !h.calls[i].req.Put?
  }

  // Items come out in the order in which they went in.
  ghost predicate Fifo(s: State)
    requires forall i :: 0 <= i < |s.wh.served| ==> s.wh.served[i].req.Put?
  {
    var written := Items(s.wh.served);
    && Gets(s.rh.served) <= |written| && s.items == written[Gets(s.rh.served)..]
    && |s.results| == |s.rh.served|
    && (forall j :: 0 <= j < |s.results| ==>
                      Gets(s.rh.served[..j]) < |written| && s.results[j] == written[Gets(s.rh.served[..j])])
  }

  ghost predicate Inv(s: State) {
    && InOrder(s.w, s.wh, s.done) && InOrder(s.r, s.rh, s.done)
    && PutCalls(s.wh) && ReadCalls(s.rh)
    && NoneLost(s.w, !Full(s), s.done) && NoneLost(s.r, !Empty(s), s.done)
    && (s.maxsize > 0 ==> |s.items| <= s.maxsize)
    && s.stream == s.got + s.items
    && (!s.rude ==> Granted(s) && s.raised == 0) && (s.rude ==> s.mixed)
    && (forall i :: 0 <= i < |s.wh.served| ==> s.wh.served[i].req.Put?)
    && (!s.mixed ==> Fifo(s))
  }

  // A Task that was granted a lock finds room or data.
  ghost predicate Granted(s: State) {
    (s.w.holder.Some? ==> !Full(s)) && (s.r.holder.Some? ==> !Empty(s))
  }

  // ----- One lock -----

  // The holder is the first live waiter; the dead ones before it are dropped.
  lemma {:induction false} GrantKeeps(ws: seq<Call>, done: set<nat>) returns (dropped: seq<Call>)
    ensures var l := Grant(ws, done);
      && ws == dropped + (Current(l) + l.waiters)
      && (forall c :: c in dropped ==> c.task in done)
      && (l.holder.None? ==> l.waiters == [])
      && (l.holder.Some? ==> l.holder.value.task !in done)
      && Live(ws, done) == Current(l) + Live(l.waiters, done)
  {
    dropped := [];
    var l := Grant(ws, done);
    var granted := Current(l) + l.waiters;
    if ws == [] {
    } else if ws[0].task in done {
      var rest := GrantKeeps(ws[1..], done);
      dropped := [ws[0]] + rest;
      Assoc([ws[0]], rest, granted);
      assert ws == [ws[0]] + ws[1..];
    } else {
      assert l == Lock(Some(ws[0]), ws[1..]);
      assert granted == ws && [] + granted == granted;
    }
  }

  lemma KnownDrop(a: seq<Call>, dropped: seq<Call>, b: seq<Call>, n: nat)
    requires Known(a + (dropped + b), n)
    ensures Known(a + b, n)
  {
    var all, r, k := a + (dropped + b), a + b, |dropped|;
    forall i | 0 <= i < |r| ensures r[i] == all[if i < |a| then i else i + k] {
    }
  }

  lemma KnownInsert(a: seq<Call>, b: seq<Call>, c: Call, n: nat)
    requires Known(a + b, n) && c.id == n
    ensures Known(a + [c] + b, n + 1)
  {
    var r := a + [c] + b;
    forall i | 0 <= i < |r| && i != |a| ensures r[i] == (a + b)[if i < |a| then i else i - 1] {
    }
  }

  lemma GrantInOrder(l: Lock, h: History, done: set<nat>)
    requires InOrder(l, h, done) && l.holder.None?
    ensures InOrder(Grant(l.waiters, done), h, done)
  {
    var l1 := Grant(l.waiters, done);
    var dropped := GrantKeeps(l.waiters, done);
    var front := h.served;
    assert front + Current(l) == front;
    KnownDrop(front, dropped, Current(l1) + l1.waiters, |h.calls|);
    Assoc(front, Current(l1), l1.waiters);
    Assoc(front, Current(l1), Live(l1.waiters, done));
  }

  lemma WakeKeeps(l: Lock, h: History, done: set<nat>, available: bool)
    requires InOrder(l, h, done)
    ensures InOrder(Wake(l, available, done), h, done) && NoneLost(Wake(l, available, done), available, done)
    ensures l.holder.Some? ==> Wake(l, available, done) == l
    ensures Wake(l, available, done).holder.Some? ==> l.holder.Some? || available
  {
    if l.holder.None? && available {
      GrantInOrder(l, h, done);
      var dropped := GrantKeeps(l.waiters, done);
    }
  }

  // The holder's call has been served.
  lemma ServeKeeps(l: Lock, h: History, done: set<nat>)
    requires InOrder(l, h, done) && l.holder.Some?
    ensures InOrder(l.(holder := None), h.(served := h.served + [l.holder.value]), done)
  {
    var h1 := h.(served := h.served + [l.holder.value]);
    var l1 := l.(holder := None);
    assert h1.served + Current(l1) + l1.waiters == h.served + Current(l) + l.waiters;
    assert h1.served + Current(l1) + Live(l1.waiters, done) == h.served + Current(l) + Live(l.waiters, done);
  }

  lemma {:induction false} SurvivorsAppend(cs: seq<Call>, c: Call, abandoned: set<nat>)
    ensures Survivors(cs + [c], abandoned) == Survivors(cs, abandoned) + if c.id in abandoned then [] else [c]
  {
    if cs != [] {
      SurvivorsAppend(cs[1..], c, abandoned);
      assert (cs + [c])[1..] == cs[1..] + [c];
    }
  }

  lemma {:induction false} LiveAppend(ws: seq<Call>, c: Call, done: set<nat>)
    ensures Live(ws + [c], done) == Live(ws, done) + if c.task in done then [] else [c]
  {
    if ws != [] {
      LiveAppend(ws[1..], c, done);
      assert (ws + [c])[1..] == ws[1..] + [c];
    }
  }

  // A new call waits,
  lemma WaitKeeps(l: Lock, h: History, done: set<nat>, c: Call)
    requires InOrder(l, h, done) && c.id == |h.calls| && c.task !in done
    ensures InOrder(l.(waiters := l.waiters + [c]), h.(calls := h.calls + [c]), done)
  {
    SurvivorsAppend(h.calls, c, h.abandoned);
    LiveAppend(l.waiters, c, done);
    var all := h.served + Current(l) + l.waiters;
    assert all + [] == all;
    KnownInsert(all, [], c, |h.calls|);
    assert h.served + Current(l) + (l.waiters + [c]) == all + [c] + [];
    assert h.served + Current(l) + (Live(l.waiters, done) + [c]) == h.served + Current(l) + Live(l.waiters, done) + [c];
  }

  // or takes a lock that nobody waits for.
  lemma TakeKeeps(l: Lock, h: History, done: set<nat>, c: Call)
    requires InOrder(l, h, done) && c.id == |h.calls| && c.task !in done
    requires l.holder.None? && Live(l.waiters, done) == []
    ensures InOrder(l.(holder := Some(c)), h.(calls := h.calls + [c]), done)
  {
    SurvivorsAppend(h.calls, c, h.abandoned);
    assert h.served + Current(l) + l.waiters == h.served + l.waiters;
    KnownInsert(h.served, l.waiters, c, |h.calls|);
    var l1 := l.(holder := Some(c));
    assert h.served + Current(l1) + l1.waiters == h.served + [c] + l.waiters;
    assert h.served + Current(l1) + Live(l1.waiters, done) == h.served + Current(l) + Live(l.waiters, done) + [c];
  }

  // The calls of a Task that dies waiting drop out of both sides of the equation.
  lemma {:induction false} LiveDie(ws: seq<Call>, done: set<nat>, t: nat, gone: set<nat>)
    requires forall i :: 0 <= i < |ws| ==> (ws[i].id in gone <==> ws[i].task == t)
    ensures Live(ws, done + {t}) == Survivors(Live(ws, done), gone)
  {
    if ws != [] {
      LiveDie(ws[1..], done, t, gone);
    }
  }

  lemma {:induction false} SurvivorsUnion(cs: seq<Call>, a: set<nat>, b: set<nat>)
    ensures Survivors(cs, a + b) == Survivors(Survivors(cs, a), b)
  {
    if cs != [] {
      SurvivorsUnion(cs[1..], a, b);
    }
  }

  lemma {:induction false} SurvivorsConcat(a: seq<Call>, b: seq<Call>, gone: set<nat>)
    ensures Survivors(a + b, gone) == Survivors(a, gone) + Survivors(b, gone)
  {
    if a == [] {
      assert a + b == b;
    } else {
      SurvivorsConcat(a[1..], b, gone);
      assert (a + b)[0] == a[0] && (a + b)[1..] == a[1..] + b;
      if a[0].id !in gone {
        Assoc([a[0]], Survivors(a[1..], gone), Survivors(b, gone));
      }
    }
  }

  lemma {:induction false} SurvivorsAll(cs: seq<Call>, gone: set<nat>)
    requires forall i :: 0 <= i < |cs| ==> cs[i].id !in gone
    ensures Survivors(cs, gone) == cs
  {
    if cs != [] {
      SurvivorsAll(cs[1..], gone);
    }
  }

  lemma DieKeeps(l: Lock, h: History, done: set<nat>, t: nat)
    requires InOrder(l, h, done)
    ensures InOrder(l, h.(abandoned := h.abandoned + WaitingIds(l.waiters, t)), done + {t})
    ensures forall c :: c in Live(l.waiters, done + {t}) ==> c in Live(l.waiters, done)
  {
    var gone := WaitingIds(l.waiters, t);
    var front := h.served + Current(l);
    var all := front + l.waiters;
    forall i | 0 <= i < |l.waiters| ensures l.waiters[i].id in gone <==> l.waiters[i].task == t {
      assert all[|front| + i] == l.waiters[i];
      if l.waiters[i].id in gone {
        var j :| 0 <= j < |l.waiters| && l.waiters[j].task == t && l.waiters[j].id == l.waiters[i].id;
        assert all[|front| + j] == l.waiters[j];
      }
    }
    forall i | 0 <= i < |front| ensures front[i].id !in gone {
      assert all[i] == front[i];
      forall j | 0 <= j < |l.waiters| ensures l.waiters[j].id != front[i].id {
        assert all[|front| + j] == l.waiters[j];
      }
    }
    forall i | i in gone ensures i < |h.calls| {
      var j :| 0 <= j < |l.waiters| && l.waiters[j].task == t && l.waiters[j].id == i;
      assert all[|front| + j] == l.waiters[j];
    }
    LiveDie(l.waiters, done, t, gone);
    SurvivorsUnion(h.calls, h.abandoned, gone);
    SurvivorsConcat(front, Live(l.waiters, done), gone);
    SurvivorsAll(front, gone);
  }

  // ----- The queue -----

  lemma {:induction false} InCalls(s: State)
    requires Inv(s)
    ensures forall c :: c in s.wh.served + Current(s.w) + Live(s.w.waiters, s.done) ==> c.req.Put?
    ensures forall c :: c in s.rh.served + Current(s.r) + Live(s.r.waiters, s.done) ==> !c.req.Put?
  {
    assert forall c :: c in Survivors(s.wh.calls, s.wh.abandoned) ==> c in s.wh.calls;
    assert forall c :: c in Survivors(s.rh.calls, s.rh.abandoned) ==> c in s.rh.calls;
  }

  // The call that holds a lock has not been abandoned.
  lemma HolderSurvives(l: Lock, h: History, done: set<nat>)
    requires InOrder(l, h, done) && l.holder.Some?
    ensures l.holder.value in h.calls && l.holder.value.id !in h.abandoned
    ensures l.holder.value.id < |h.calls| && h.calls[l.holder.value.id] == l.holder.value
  {
    var cs := h.served + Current(l) + Live(l.waiters, done);
    assert cs[|h.served|] == l.holder.value;
    assert l.holder.value in Survivors(h.calls, h.abandoned);
    SurvivorsAreNot(h.calls, h.abandoned);
  }

  lemma {:induction false} SurvivorsAreNot(cs: seq<Call>, abandoned: set<nat>)
    ensures forall c :: c in Survivors(cs, abandoned) ==> c.id !in abandoned
  {
    if cs != [] {
      SurvivorsAreNot(cs[1..], abandoned);
    }
  }

  // The holder's call has raised.
  lemma RaiseKeeps(l: Lock, h: History, done: set<nat>)
    requires InOrder(l, h, done) && l.holder.Some?
    ensures InOrder(l.(holder := None), h.(abandoned := h.abandoned + {l.holder.value.id}), done)
  {
    var c, rest := l.holder.value, Live(l.waiters, done);
    var all := h.served + Current(l) + l.waiters;
    assert all[|h.served|] == c;
    forall i | 0 <= i < |h.served| ensures h.served[i].id != c.id {
      assert all[i] == h.served[i];
    }
    forall d | d in rest ensures d.id != c.id {
      var j :| 0 <= j < |l.waiters| && l.waiters[j] == d;
      assert all[|h.served| + 1 + j] == d;
    }
    HolderSurvives(l, h, done);
    SurvivorsUnion(h.calls, h.abandoned, {c.id});
    SurvivorsConcat(h.served + [c], rest, {c.id});
    SurvivorsConcat(h.served, [c], {c.id});
    SurvivorsAll(h.served, {c.id});
    SurvivorsAll(rest, {c.id});
    assert Survivors([c], {c.id}) == [];
    assert h.served + [] == h.served;
    Assoc(h.served, [c], l.waiters);
    KnownDrop(h.served, [c], l.waiters, |h.calls|);
  }

  // ----- A call that takes up the one before it -----

  lemma SurvivorsAt(cs: seq<Call>, k: nat, abandoned: set<nat>)
    requires k < |cs| && cs[k].id !in abandoned
    ensures Survivors(cs, abandoned) == Survivors(cs[..k], abandoned) + [cs[k]] + Survivors(cs[k + 1..], abandoned)
  {
    var c := cs[k];
    assert cs == cs[..k] + [c] + cs[k + 1..];
    SurvivorsConcat(cs[..k] + [c], cs[k + 1..], abandoned);
    SurvivorsConcat(cs[..k], [c], abandoned);
    assert Survivors([c], abandoned) == [c] + Survivors([c][1..], abandoned) && [c][1..] == [];
  }

  lemma SameSplit(a: seq<Call>, b: seq<Call>, c: Call, a1: seq<Call>, b1: seq<Call>)
    requires a + [c] + b == a1 + [c] + b1 && c !in a && c !in a1
    ensures a == a1 && b == b1
  {
    var all := a + [c] + b;
    assert all[|a|] == c && all[|a1|] == c;
    forall i | 0 <= i < |a| ensures all[i] != c {
      assert all[i] == a[i];
    }
    forall i | 0 <= i < |a1| ensures all[i] != c {
      assert all[i] == a1[i];
    }
    assert a == all[..|a|] && a1 == all[..|a1|];
    assert b == all[|a| + 1..] && b1 == all[|a1| + 1..];
  }

  lemma TakeUpKeeps(l: Lock, h: History, done: set<nat>, req: Request)
    requires InOrder(l, h, done) && l.holder.Some? && l.holder.value.id < |h.calls|
    ensures InOrder(TakeUp(l, h, req).0, TakeUp(l, h, req).1, done)
  {
    HolderSurvives(l, h, done);
    var c, k, rest := l.holder.value, l.holder.value.id, Live(l.waiters, done);
    var d := c.(req := req);
    var cs := h.calls[k := d];
    var before, after := Survivors(h.calls[..k], h.abandoned), Survivors(h.calls[k + 1..], h.abandoned);
    SurvivorsAt(h.calls, k, h.abandoned);
    SurvivorsAt(cs, k, h.abandoned);
    assert cs[..k] == h.calls[..k] && cs[k + 1..] == h.calls[k + 1..];
    var all := h.served + Current(l) + l.waiters;
    assert all[|h.served|] == c;
    assert c !in h.served by {
      forall i | 0 <= i < |h.served| ensures h.served[i] != c {
        assert all[i] == h.served[i];
      }
    }
    SameSplit(before, after, c, h.served, rest);
    TakeUpKnown(h.served, c, d, l.waiters, |h.calls|);
  }

  lemma TakeUpKnown(a: seq<Call>, c: Call, d: Call, b: seq<Call>, n: nat)
    requires Known(a + [c] + b, n) && d.id == c.id
    ensures Known(a + [d] + b, n)
  {
    var all, r := a + [c] + b, a + [d] + b;
    forall i | 0 <= i < |r| ensures r[i].id == all[i].id {
    }
  }

  // ----- What each operation keeps -----

  lemma PutServedKeepsInv(s: State)
    requires Inv(s) && s.w.holder.Some? && s.w.holder.value.req.Put? && !Full(s)
    ensures Inv(PutLocked(s))
  {
    var c := s.w.holder.value;
    var s1 := PutNowait(s, c.req.item);
    WakeKeeps(s.r, s.rh, s.done, true);
    ServeKeeps(s.w, s.wh, s.done);
    var w0 := s.w.(holder := None);
    WakeKeeps(w0, s.wh.(served := s.wh.served + [c]), s.done, !Full(s1));
    var r := PutLocked(s);
    Assoc(s.got, s.items, [c.req.item]);
    assert Items(r.wh.served) == Items(s.wh.served) + [c.req.item];
  }

  lemma PutRaisesKeepsInv(s: State)
    requires Inv(s) && s.w.holder.Some? && s.w.holder.value.req.Put? && Full(s)
    ensures Inv(PutLocked(s))
  {
    RaiseKeeps(s.w, s.wh, s.done);
  }

  lemma PutLockedKeepsInv(s: State)
    requires Inv(s) && s.w.holder.Some? && s.w.holder.value.req.Put?
    ensures Inv(PutLocked(s))
  {
    if Full(s) {
      PutRaisesKeepsInv(s);
    } else {
      PutServedKeepsInv(s);
    }
  }

  lemma MoveFirst(a: seq<Item>, b: seq<Item>)
    requires b != []
    ensures a + b == a + [b[0]] + b[1..]
  {
  }

  lemma GetsAppend(cs: seq<Call>, c: Call)
    ensures Gets(cs + [c]) == Gets(cs) + (if c.req.Get? then 1 else 0)
  {
    assert (cs + [c])[..|cs|] == cs;
  }

  lemma ReadFifo(s: State, r: State)
    requires Inv(s) && s.r.holder.Some? && !s.mixed && !Empty(s)
    requires r.wh == s.wh && r.rh.served == s.rh.served + [s.r.holder.value] && r.results == s.results + [s.items[0]]
    requires r.items == if s.r.holder.value.req.Get? then s.items[1..] else s.items
    ensures Fifo(r)
  {
    var c := s.r.holder.value;
    GetsAppend(s.rh.served, c);
    forall j | 0 <= j < |r.results|
      ensures Gets(r.rh.served[..j]) < |Items(r.wh.served)| &&
        r.results[j] == Items(r.wh.served)[Gets(r.rh.served[..j])]
    {
      assert r.rh.served[..j] == s.rh.served[..j];
      if j == |s.results| { assert s.rh.served[..j] == s.rh.served; }
    }
  }

  lemma ReadServedKeepsInv(s: State)
    requires Inv(s) && s.r.holder.Some? && !Empty(s)
    ensures Inv(ReadLocked(s))
  {
    var c := s.r.holder.value;
    var s1 := if c.req.Get? then GetNowait(s) else s;
    WakeKeeps(s.w, s.wh, s.done, !Full(s1));
    ServeKeeps(s.r, s.rh, s.done);
    WakeKeeps(s.r.(holder := None), s.rh.(served := s.rh.served + [c]), s.done, !Empty(s1));
    var r := ReadLocked(s);
    MoveFirst(s.got, s.items);
    if !s.mixed {
      ReadFifo(s, r);
    }
  }

  lemma ReadRaisesKeepsInv(s: State)
    requires Inv(s) && s.r.holder.Some? && Empty(s)
    ensures Inv(ReadLocked(s))
  {
    RaiseKeeps(s.r, s.rh, s.done);
  }

  lemma ReadLockedKeepsInv(s: State)
    requires Inv(s) && s.r.holder.Some?
    ensures Inv(ReadLocked(s))
  {
    if Empty(s) {
      ReadRaisesKeepsInv(s);
    } else {
      ReadServedKeepsInv(s);
    }
  }

  lemma QueuePutKeepsInv(s: State, t: nat, x: Item)
    requires Inv(s) && t !in s.done
    ensures Inv(QueuePut(s, t, x))
  {
    var c := Call(|s.wh.calls|, t, Put(x));
    if Full(s) || s.w.holder.Some? {
      WaitKeeps(s.w, s.wh, s.done, c);
    } else {
      TakeKeeps(s.w, s.wh, s.done, c);
      PutLockedKeepsInv(s.(wh := s.wh.(calls := s.wh.calls + [c]), w := s.w.(holder := Some(c))));
    }
  }

  lemma CallPutKeepsInv(s: State, t: nat, x: Item)
    requires Inv(s) && t !in s.done
    ensures Inv(CallPut(s, t, x))
  {
    if Returns(s.w, s.wh, t) {
      var (w, wh) := TakeUp(s.w, s.wh, Put(x));
      TakeUpKeeps(s.w, s.wh, s.done, Put(x));
      PutLockedKeepsInv(s.(w := w, wh := wh));
    } else {
      QueuePutKeepsInv(s, t, x);
    }
  }

  lemma QueueReadKeepsInv(s: State, t: nat, peek: bool)
    requires Inv(s) && t !in s.done
    ensures Inv(QueueRead(s, t, peek))
  {
    var c := Call(|s.rh.calls|, t, if peek then Peek else Get);
    if Empty(s) || s.r.holder.Some? {
      WaitKeeps(s.r, s.rh, s.done, c);
    } else {
      TakeKeeps(s.r, s.rh, s.done, c);
      ReadLockedKeepsInv(s.(rh := s.rh.(calls := s.rh.calls + [c]), r := s.r.(holder := Some(c))));
    }
  }

  lemma CallReadKeepsInv(s: State, t: nat, peek: bool)
    requires Inv(s) && t !in s.done
    ensures Inv(CallRead(s, t, peek))
  {
    if Returns(s.r, s.rh, t) {
      var req := if peek then Peek else Get;
      var (r, rh) := TakeUp(s.r, s.rh, req);
      TakeUpKeeps(s.r, s.rh, s.done, req);
      ReadLockedKeepsInv(s.(r := r, rh := rh));
    } else {
      QueueReadKeepsInv(s, t, peek);
    }
  }

  lemma {:induction false} LiveStaysEmpty(ws: seq<Call>, done: set<nat>, t: nat)
    requires Live(ws, done) == []
    ensures Live(ws, done + {t}) == []
  {
    if ws != [] {
      LiveStaysEmpty(ws[1..], done, t);
    }
  }

  lemma DieKeepsInv(s: State, t: nat)
    requires Inv(s)
    ensures Inv(Die(s, t))
  {
    DieKeeps(s.w, s.wh, s.done, t);
    DieKeeps(s.r, s.rh, s.done, t);
    if Live(s.w.waiters, s.done) == [] { LiveStaysEmpty(s.w.waiters, s.done, t); }
    if Live(s.r.waiters, s.done) == [] { LiveStaysEmpty(s.r.waiters, s.done, t); }
  }

  lemma OutsidePutKeepsInv(s: State, x: Item)
    requires Inv(s)
    ensures Inv(OutsidePut(s, x))
  {
    if !Full(s) {
      WakeKeeps(s.r, s.rh, s.done, true);
      Assoc(s.got, s.items, [x]);
    }
  }

  lemma OutsideGetKeepsInv(s: State)
    requires Inv(s)
    ensures Inv(OutsideGet(s))
  {
    if !Empty(s) {
      WakeKeeps(s.w, s.wh, s.done, true);
      MoveFirst(s.got, s.items);
    }
  }

  lemma StepKeepsInv(s: State, p: Step)
    requires Inv(s) && Enabled(s, p)
    ensures Inv(Next(s, p))
  {
    match p
    case DoPut(t, x) => CallPutKeepsInv(s, t, x);
    case DoRead(t, peek) => CallReadKeepsInv(s, t, peek);
    case ResumePut => PutLockedKeepsInv(s);
    case ResumeRead => ReadLockedKeepsInv(s);
    case DoDie(t) => DieKeepsInv(s, t);
    case DoLeave(_) =>
    case DoPutNowait(x) => OutsidePutKeepsInv(s, x);
    case DoGetNowait => OutsideGetKeepsInv(s);
  }

  lemma {:induction false} RunKeepsInv(s: State, ps: seq<Step>)
    requires Inv(s) && Legal(s, ps)
    ensures Inv(Exec(s, ps))
    decreases |ps|
  {
    if ps != [] {
      StepKeepsInv(s, ps[0]);
      RunKeepsInv(Next(s, ps[0]), ps[1..]);
    }
  }

  // ----- What the queue promises -----

  // In every reachable state: a lock that is free and available has no live waiter, and the size is
  // bounded.  As long as no call of `*_nowait` took what was granted, a Task that was handed a lock finds
  // room or data, and no inner `*_nowait` has raised.
  lemma NoWakeupIsLost(maxsize: int, ps: seq<Step>)
    requires Legal(Init(maxsize), ps)
    ensures var s := Exec(Init(maxsize), ps);
            && (s.w.holder.None? && !Full(s) ==> forall c :: c in s.w.waiters ==> c.task in s.done)
            && (s.r.holder.None? && !Empty(s) ==> forall c :: c in s.r.waiters ==> c.task in s.done)
            && (!s.rude ==> Granted(s) && s.raised == 0) && (s.rude ==> s.mixed)
            && (maxsize > 0 ==> |s.items| <= maxsize)
  {
    RunKeepsInv(Init(maxsize), ps);
    KeepsMaxsize(Init(maxsize), ps);
    var s := Exec(Init(maxsize), ps);
    assert forall c :: c in s.w.waiters && c.task !in s.done ==> c in Live(s.w.waiters, s.done);
    assert forall c :: c in s.r.waiters && c.task !in s.done ==> c in Live(s.r.waiters, s.done);
  }

  lemma {:induction false} KeepsMaxsize(s: State, ps: seq<Step>)
    requires Legal(s, ps)
    ensures Exec(s, ps).maxsize == s.maxsize
    decreases |ps|
  {
    if ps != [] {
      KeepsMaxsize(Next(s, ps[0]), ps[1..]);
    }
  }

  lemma AnsweredInOrder(s: State, j: nat)
    requires Inv(s) && !s.mixed && j < |s.results|
    ensures var written := Survivors(s.wh.calls, s.wh.abandoned);
            var answered := Survivors(s.rh.calls, s.rh.abandoned);
            && |s.results| <= |answered|
            && Gets(answered[..j]) < |written| && written[Gets(answered[..j])].req == Put(s.results[j])
  {
    var written := Survivors(s.wh.calls, s.wh.abandoned);
    var answered := Survivors(s.rh.calls, s.rh.abandoned);
    ServedFirst(s);
    assert answered[..j] == s.rh.served[..j];
    var m := Gets(s.rh.served[..j]);
    assert written[m] == s.wh.served[m];
  }

  // Read calls are served in the order in which they were made, and the j-th of them returns the
  // item of the m-th `put` that was made, where m counts the `get`s before it.  (Calls whose Task
  // died waiting do not count.)  This is the order of the calls alone: a `*_nowait` in between overtakes.
  lemma FirstPutFirstGot(maxsize: int, ps: seq<Step>, j: nat)
    requires Legal(Init(maxsize), ps) && j < |Exec(Init(maxsize), ps).results|
    requires forall i :: 0 <= i < |ps| ==> !ps[i].DoPutNowait? && !ps[i].DoGetNowait?
    ensures var s := Exec(Init(maxsize), ps);
            var written := Survivors(s.wh.calls, s.wh.abandoned);
            var answered := Survivors(s.rh.calls, s.rh.abandoned);
            && |s.results| <= |answered|
            && Gets(answered[..j]) < |written| && written[Gets(answered[..j])].req == Put(s.results[j])
  {
    RunKeepsInv(Init(maxsize), ps);
    MixedIff(Init(maxsize), ps);
    AnsweredInOrder(Exec(Init(maxsize), ps), j);
  }

  lemma {:induction false} MixedIff(s: State, ps: seq<Step>)
    requires Legal(s, ps)
    ensures Exec(s, ps).mixed <==> s.mixed || exists i :: 0 <= i < |ps| && (ps[i].DoPutNowait? || ps[i].DoGetNowait?)
    decreases |ps|
  {
    if ps != [] {
      var rest := ps[1..];
      MixedIff(Next(s, ps[0]), rest);
      assert forall i :: 0 < i < |ps| ==> ps[i] == rest[i - 1];
      assert forall i :: 0 <= i < |rest| ==> rest[i] == ps[i + 1];
    }
  }

  // Nothing is lost or made up, in any mixture of calls: the items that were put are those that were
  // got, in order, and then the contents.  Without `*_nowait` from outside, the items put are those of
  // the served `put`s in the order in which the calls were made.
  lemma NothingIsLost(maxsize: int, ps: seq<Step>)
    requires Legal(Init(maxsize), ps)
    ensures var s := Exec(Init(maxsize), ps);
            && s.stream == s.got + s.items
            && s.wh.served <= Survivors(s.wh.calls, s.wh.abandoned)
            && (forall i :: 0 <= i < |s.wh.served| ==> s.wh.served[i].req.Put?)
            && (!s.mixed ==> Gets(s.rh.served) <= |s.wh.served| &&
                             s.items == Items(s.wh.served)[Gets(s.rh.served)..])
  {
    RunKeepsInv(Init(maxsize), ps);
    ServedFirst(Exec(Init(maxsize), ps));
  }

  lemma ServedFirst(s: State)
    requires Inv(s)
    ensures s.wh.served <= Survivors(s.wh.calls, s.wh.abandoned)
    ensures s.rh.served <= Survivors(s.rh.calls, s.rh.abandoned)
  {
    Assoc(s.wh.served, Current(s.w), Live(s.w.waiters, s.done));
    Assoc(s.rh.served, Current(s.r), Live(s.r.waiters, s.done));
  }

  // With nobody about to be resumed, a live reader waits only on an empty queue and a live writer
  // only on a full one; so never both.
  lemma NeverBothStuck(maxsize: int, ps: seq<Step>, c: Call, d: Call)
    requires Legal(Init(maxsize), ps)
    requires var s := Exec(Init(maxsize), ps);
             && s.w.holder.None? && s.r.holder.None?
             && c in s.r.waiters && c.task !in s.done
    ensures var s := Exec(Init(maxsize), ps);
            Empty(s) && (d in s.w.waiters ==> d.task in s.done)
  {
    NoWakeupIsLost(maxsize, ps);
    KeepsMaxsize(Init(maxsize), ps);
  }

  // ----- `*_nowait` beside the locks -----

  lemma {:induction false} RudeStays(s: State, ps: seq<Step>)
    requires Legal(s, ps)
    ensures s.rude ==> Exec(s, ps).rude
    decreases |ps|
  {
    if ps != [] {
      RudeStays(Next(s, ps[0]), ps[1..]);
    }
  }

  ghost predicate AlwaysGranted(s: State, ps: seq<Step>)
    requires Legal(s, ps)
    decreases |ps|
  {
    Granted(s) && (ps != [] ==> AlwaysGranted(Next(s, ps[0]), ps[1..]))
  }

  // No call of `*_nowait` from outside takes the last slot, or the last item, that was granted.
  ghost predicate Considerate(s: State, ps: seq<Step>)
    requires Legal(s, ps)
    decreases |ps|
  {
    ps != [] ==>
      && !(ps[0].DoPutNowait? && TakesTheGrantedSlot(s)) && !(ps[0].DoGetNowait? && TakesTheGrantedItem(s))
      && Considerate(Next(s, ps[0]), ps[1..])
  }

  // Whoever was granted a lock finds room or data at every moment of a run exactly when no call of
  // `*_nowait` took it away; then no inner `*_nowait` raises.
  lemma {:induction false} GrantedIffConsiderate(s: State, ps: seq<Step>)
    requires Inv(s) && !s.rude && Legal(s, ps)
    ensures AlwaysGranted(s, ps) <==> Considerate(s, ps)
    ensures Considerate(s, ps) ==> !Exec(s, ps).rude && Exec(s, ps).raised == 0
    decreases |ps|
  {
    if ps == [] {
    } else {
      var s1 := Next(s, ps[0]);
      StepKeepsInv(s, ps[0]);
      RudeIff(s, ps[0]);
      if s1.rude {
        assert !Granted(s1);
      } else {
        GrantedIffConsiderate(s1, ps[1..]);
      }
    }
  }

  lemma RudeIff(s: State, p: Step)
    requires Enabled(s, p) && !s.rude
    ensures Next(s, p).rude <==>
            (p.DoPutNowait? && TakesTheGrantedSlot(s)) || (p.DoGetNowait? && TakesTheGrantedItem(s))
    ensures Next(s, p).rude ==> !Granted(Next(s, p))
  {
  }

  // The call that then resumes first raises: exactly when its slot was the last one,
  lemma NowaitTakesTheGrantedSlot(s: State, x: Item)
    requires Inv(s) && s.w.holder.Some? && !Full(s)
    ensures s.w.holder.value.req.Put? && OutsidePut(s, x).w == s.w
    ensures PutLocked(OutsidePut(s, x)).raised > s.raised <==> s.maxsize > 0 && |s.items| + 1 == s.maxsize
  {
    InCalls(s);
    assert s.w.holder.value in s.wh.served + Current(s.w) + Live(s.w.waiters, s.done);
  }

  // or its item.
  lemma NowaitTakesTheGrantedItem(s: State)
    requires Inv(s) && s.r.holder.Some? && !Empty(s)
    ensures OutsideGet(s).r == s.r
    ensures ReadLocked(OutsideGet(s)).raised > s.raised <==> |s.items| == 1
  {
  }

  // Both are reached: a full queue, a `put` that waits, a get that grants it the slot, and a `put_nowait`;
  lemma AGrantedSlotIsTaken(x: Item, y: Item, z: Item)
    ensures var ps := [DoPut(1, x), DoPut(2, y), DoRead(3, false), DoPutNowait(z)];
      && Legal(Init(1), ps)
      && var s := Exec(Init(1), ps);
      && s.w.holder == Some(Call(1, 2, Put(y))) && s.items == [z] && PutLocked(s).raised == 1
  {
    var s1 := CallPut(Init(1), 1, x);
    var s2 := CallPut(s1, 2, y);
    APutterWaits(x, y);
    var s3 := CallRead(s2, 3, false);
    assert s3.items == [] && s3.w == Lock(Some(Call(1, 2, Put(y))), []) && s3.r == Lock(None, []);
    Run4(Init(1), DoPut(1, x), DoPut(2, y), DoRead(3, false), DoPutNowait(z));
  }

  lemma APutterWaits(x: Item, y: Item)
    ensures Enabled(Init(1), DoPut(1, x)) && Enabled(CallPut(Init(1), 1, x), DoPut(2, y))
    ensures var s := CallPut(CallPut(Init(1), 1, x), 2, y);
            && s.w == Lock(None, [Call(1, 2, Put(y))]) && s.r == Lock(None, []) && s.items == [x] && s.maxsize == 1
            && s.done == {} && s.raised == 0 && Enabled(s, DoRead(3, false))
  {
    var s1 := CallPut(Init(1), 1, x);
    assert s1.items == [x] && s1.w == Lock(None, []) && s1.r == Lock(None, []);
    var s2 := CallPut(s1, 2, y);
    assert Current(s2.w) + s2.w.waiters == [Call(1, 2, Put(y))];
  }

  // and a `get` that waits, a put that grants it the item, and a `get_nowait`.
  lemma AGrantedItemIsTaken(x: Item)
    ensures var ps := [DoRead(1, false), DoPut(2, x), DoGetNowait];
      && Legal(Init(0), ps)
      && var s := Exec(Init(0), ps);
      && s.r.holder == Some(Call(0, 1, Get)) && Empty(s) && s.got == [x] && ReadLocked(s).raised == 1
  {
    AGetterIsGranted(x);
    var s2 := Granting(x);
    OneStep(s2, DoGetNowait);
    Run3(Init(0), DoRead(1, false), DoPut(2, x), DoGetNowait);
  }

  // ----- Calls that are not awaited any more -----

  predicate Puts(ps: seq<Step>, t: nat) {
    exists i :: 0 <= i < |ps| && ps[i].DoPut? && ps[i].task == t
  }

  predicate Reads(ps: seq<Step>, t: nat) {
    exists i :: 0 <= i < |ps| && ps[i].DoRead? && ps[i].task == t
  }

  // A Task that was granted a lock and then died never releases it: whatever happens, nobody on that
  // side is served ever after.  One that was cancelled and lives on keeps the lock until it makes
  // another call of that side.
  lemma {:induction false} UnattendedWritersWait(s: State, ps: seq<Step>)
    requires Legal(s, ps) && Unattended(s.w, s.wh, s.done)
    requires s.w.holder.value.task in s.done || !Puts(ps, s.w.holder.value.task)
    ensures Exec(s, ps).w.holder == s.w.holder && Exec(s, ps).wh.served == s.wh.served
    ensures s.w.waiters <= Exec(s, ps).w.waiters
    decreases |ps|
  {
    if ps != [] {
      var t := s.w.holder.value.task;
      assert ps[0].DoPut? && ps[0].task == t ==> Puts(ps, t);
      UnattendedWriter(s, ps[0]);
      assert Puts(ps[1..], t) ==> Puts(ps, t) by {
        if Puts(ps[1..], t) {
          var i :| 0 <= i < |ps[1..]| && ps[1..][i].DoPut? && ps[1..][i].task == t;
          assert ps[i + 1] == ps[1..][i];
        }
      }
      UnattendedWritersWait(Next(s, ps[0]), ps[1..]);
    }
  }

  lemma UnattendedWriter(s: State, p: Step)
    requires Enabled(s, p) && Unattended(s.w, s.wh, s.done)
    requires p.DoPut? ==> p.task != s.w.holder.value.task
    ensures var s1 := Next(s, p);
            && Unattended(s1.w, s1.wh, s1.done) && s.done <= s1.done
            && s1.w.holder == s.w.holder && s1.wh.served == s.wh.served && s.w.waiters <= s1.w.waiters
  {
    if p.DoPut? {
      assert Next(s, p) == QueuePut(s, p.task, p.item);
    } else {
      HeldWriterStays(s, p);
    }
  }

  lemma HeldWriterStays(s: State, p: Step)
    requires Enabled(s, p) && s.w.holder.Some? && !p.DoPut? && !p.ResumePut?
    ensures var s1 := Next(s, p);
            s1.w == s.w && s1.wh.served == s.wh.served && s.wh.left <= s1.wh.left && s.done <= s1.done
  {
  }

  lemma {:induction false} UnattendedReadersWait(s: State, ps: seq<Step>)
    requires Legal(s, ps) && Unattended(s.r, s.rh, s.done)
    requires s.r.holder.value.task in s.done || !Reads(ps, s.r.holder.value.task)
    ensures Exec(s, ps).r.holder == s.r.holder && Exec(s, ps).rh.served == s.rh.served
    ensures s.r.waiters <= Exec(s, ps).r.waiters
    decreases |ps|
  {
    if ps != [] {
      var t := s.r.holder.value.task;
      assert ps[0].DoRead? && ps[0].task == t ==> Reads(ps, t);
      UnattendedReader(s, ps[0]);
      assert Reads(ps[1..], t) ==> Reads(ps, t) by {
        if Reads(ps[1..], t) {
          var i :| 0 <= i < |ps[1..]| && ps[1..][i].DoRead? && ps[1..][i].task == t;
          assert ps[i + 1] == ps[1..][i];
        }
      }
      UnattendedReadersWait(Next(s, ps[0]), ps[1..]);
    }
  }

  lemma UnattendedReader(s: State, p: Step)
    requires Enabled(s, p) && Unattended(s.r, s.rh, s.done)
    requires p.DoRead? ==> p.task != s.r.holder.value.task
    ensures var s1 := Next(s, p);
            && Unattended(s1.r, s1.rh, s1.done) && s.done <= s1.done
            && s1.r.holder == s.r.holder && s1.rh.served == s.rh.served && s.r.waiters <= s1.r.waiters
  {
    if p.DoRead? {
      assert Next(s, p) == QueueRead(s, p.task, p.peek);
    } else {
      HeldReaderStays(s, p);
    }
  }

  lemma HeldReaderStays(s: State, p: Step)
    requires Enabled(s, p) && s.r.holder.Some? && !p.DoRead? && !p.ResumeRead?
    ensures var s1 := Next(s, p);
            s1.r == s.r && s1.rh.served == s.rh.served && s.rh.left <= s1.rh.left && s.done <= s1.done
  {
  }

  // A side whose lock is held serves another call, without another call by the Task that it was
  // granted to, exactly when that Task is alive and still awaits the call;
  lemma WritersGoOnIff(s: State)
    requires Inv(s) && s.w.holder.Some?
    ensures (exists ps :: Legal(s, ps) && !Puts(ps, s.w.holder.value.task) &&
                          |Exec(s, ps).wh.served| > |s.wh.served|)
            <==> !Unattended(s.w, s.wh, s.done)
  {
    var t := s.w.holder.value.task;
    if !Unattended(s.w, s.wh, s.done) {
      var ps := MakeRoom(s) + [ResumePut];
      RoomIsMade(s);
      var s1 := Exec(s, MakeRoom(s));
      HolderPuts(s1);
      OneStep(s1, ResumePut);
      RunAppend(s, MakeRoom(s), ResumePut);
      assert Legal(s, ps) && !Puts(ps, t) && |Exec(s, ps).wh.served| > |s.wh.served|;
    } else {
      forall ps | Legal(s, ps) && !Puts(ps, t) ensures Exec(s, ps).wh.served == s.wh.served {
        UnattendedWritersWait(s, ps);
      }
    }
  }

  lemma ReadersGoOnIff(s: State)
    requires Inv(s) && s.r.holder.Some?
    ensures (exists ps :: Legal(s, ps) && !Reads(ps, s.r.holder.value.task) &&
                          |Exec(s, ps).rh.served| > |s.rh.served|)
            <==> !Unattended(s.r, s.rh, s.done)
  {
    var t := s.r.holder.value.task;
    if !Unattended(s.r, s.rh, s.done) {
      var ps := MakeItem(s) + [ResumeRead];
      ItemIsMade(s);
      var s1 := Exec(s, MakeItem(s));
      OneStep(s1, ResumeRead);
      RunAppend(s, MakeItem(s), ResumeRead);
      assert Legal(s, ps) && !Reads(ps, t) && |Exec(s, ps).rh.served| > |s.rh.served|;
    } else {
      forall ps | Legal(s, ps) && !Reads(ps, t) ensures Exec(s, ps).rh.served == s.rh.served {
        UnattendedReadersWait(s, ps);
      }
    }
  }

  // and in some run at all exactly when that Task is alive: `acquire` lets it back in.
  lemma BlockedIffHeldByTheDead(s: State)
    requires Inv(s)
    ensures s.w.holder.Some? ==>
      ((exists ps :: Legal(s, ps) && |Exec(s, ps).wh.served| > |s.wh.served|) <==> !HeldByTheDead(s.w, s.done))
    ensures s.r.holder.Some? ==>
      ((exists ps :: Legal(s, ps) && |Exec(s, ps).rh.served| > |s.rh.served|) <==> !HeldByTheDead(s.r, s.done))
  {
    if HeldByTheDead(s.w, s.done) {
      forall ps | Legal(s, ps) ensures Exec(s, ps).wh.served == s.wh.served {
        UnattendedWritersWait(s, ps);
      }
    } else if s.w.holder.Some? {
      AWriterComesBack(s);
    }
    if HeldByTheDead(s.r, s.done) {
      forall ps | Legal(s, ps) ensures Exec(s, ps).rh.served == s.rh.served {
        UnattendedReadersWait(s, ps);
      }
    } else if s.r.holder.Some? {
      AReaderComesBack(s);
    }
  }

  lemma AWriterComesBack(s: State)
    requires Inv(s) && s.w.holder.Some? && !HeldByTheDead(s.w, s.done)
    ensures exists ps :: Legal(s, ps) && |Exec(s, ps).wh.served| > |s.wh.served|
  {
    var t := s.w.holder.value.task;
    var ps := MakeRoom(s) + [DoLeave(t)];
    RoomIsMade(s);
    var s1 := Exec(s, MakeRoom(s));
    var s2 := Leave(s1, t);
    OneStep(s1, DoLeave(t));
    RunAppend(s, MakeRoom(s), DoLeave(t));
    LeftIsFree(s1, t);
    HolderSurvives(s1.w, s1.wh, s1.done);
    AReturningWriterIsServed(s2, t, 0);
    RunAppend(s, ps, DoPut(t, 0));
    assert |Exec(s, ps + [DoPut(t, 0)]).wh.served| > |s.wh.served|;
  }

  lemma AReaderComesBack(s: State)
    requires Inv(s) && s.r.holder.Some? && !HeldByTheDead(s.r, s.done)
    ensures exists ps :: Legal(s, ps) && |Exec(s, ps).rh.served| > |s.rh.served|
  {
    var t := s.r.holder.value.task;
    var ps := MakeItem(s) + [DoLeave(t)];
    ItemIsMade(s);
    var s1 := Exec(s, MakeItem(s));
    var s2 := Leave(s1, t);
    OneStep(s1, DoLeave(t));
    RunAppend(s, MakeItem(s), DoLeave(t));
    LeftIsFree(s1, t);
    HolderSurvives(s1.r, s1.rh, s1.done);
    AReturningReaderIsServed(s2, t);
    RunAppend(s, ps, DoRead(t, false));
    assert |Exec(s, ps + [DoRead(t, false)]).rh.served| > |s.rh.served|;
  }

  lemma AReturningWriterIsServed(s: State, t: nat, x: Item)
    requires Returns(s.w, s.wh, t) && !Full(s)
    ensures |CallPut(s, t, x).wh.served| == |s.wh.served| + 1
  {
  }

  lemma AReturningReaderIsServed(s: State, t: nat)
    requires Returns(s.r, s.rh, t) && !Empty(s)
    ensures |CallRead(s, t, false).rh.served| == |s.rh.served| + 1
  {
  }

  lemma LeftIsFree(s: State, t: nat)
    requires t !in s.done
    ensures Free(Leave(s, t), t)
  {
    var r := Leave(s, t);
    forall c | c in Current(s.w) + s.w.waiters && c.task == t ensures c.id in r.wh.left {
    }
    forall c | c in Current(s.r) + s.r.waiters && c.task == t ensures c.id in r.rh.left {
    }
  }

  // Somebody outside makes room, or an item, when there is none.
  function MakeRoom(s: State): seq<Step> {
    if Full(s) then [DoGetNowait] else []
  }

  function MakeItem(s: State): seq<Step> {
    if Empty(s) then [DoPutNowait(0)] else []
  }

  lemma RoomIsMade(s: State)
    requires Inv(s) && s.w.holder.Some?
    ensures Legal(s, MakeRoom(s))
    ensures var s1 := Exec(s, MakeRoom(s));
            Inv(s1) && s1.w == s.w && s1.wh == s.wh && s1.done == s.done && !Full(s1)
  {
    if Full(s) {
      OneStep(s, DoGetNowait);
      OutsideGetKeepsInv(s);
    }
  }

  lemma ItemIsMade(s: State)
    requires Inv(s) && s.r.holder.Some?
    ensures Legal(s, MakeItem(s))
    ensures var s1 := Exec(s, MakeItem(s));
            Inv(s1) && s1.r == s.r && s1.rh == s.rh && s1.done == s.done && !Empty(s1)
  {
    if Empty(s) {
      OneStep(s, DoPutNowait(0));
      OutsidePutKeepsInv(s, 0);
    }
  }

  lemma HolderPuts(s: State)
    requires Inv(s) && s.w.holder.Some?
    ensures s.w.holder.value.req.Put?
  {
    HolderSurvives(s.w, s.wh, s.done);
  }

  lemma {:induction false} RunAppend(s: State, ps: seq<Step>, p: Step)
    requires Legal(s, ps) && Enabled(Exec(s, ps), p)
    ensures Legal(s, ps + [p]) && Exec(s, ps + [p]) == Next(Exec(s, ps), p)
    decreases |ps|
  {
    if ps == [] {
      OneStep(s, p);
      assert ps + [p] == [p];
    } else {
      RunAppend(Next(s, ps[0]), ps[1..], p);
      assert (ps + [p])[1..] == ps[1..] + [p];
    }
  }

  lemma OneStep(s: State, p: Step)
    requires Enabled(s, p)
    ensures Legal(s, [p]) && Exec(s, [p]) == Next(s, p)
  {
    assert Legal(Next(s, p), []);
    assert [p][1..] == [];
  }

  // A getter waits, and a put grants it the lock.
  ghost function Granting(x: Item): State {
    CallPut(CallRead(Init(0), 1, false), 2, x)
  }

  lemma AGetterIsGranted(x: Item)
    ensures Enabled(Init(0), DoRead(1, false)) && Enabled(CallRead(Init(0), 1, false), DoPut(2, x))
    ensures var s := Granting(x);
            && s.r == Lock(Some(Call(0, 1, Get)), []) && s.w == Lock(None, []) && s.items == [x] && s.got == []
            && s.done == {} && s.rh.left == {} && s.wh.left == {} && |s.rh.calls| == 1 && s.raised == 0
            && s.maxsize == 0
  {
    var s1 := CallRead(Init(0), 1, false);
    assert s1.r == Lock(None, [Call(0, 1, Get)]) && s1.w == Lock(None, []);
    assert Current(s1.r) + s1.r.waiters == [Call(0, 1, Get)];
    assert Current(s1.w) + s1.w.waiters == [];
  }

  // The getter dies before it resumes.  The item stays, and the next reader waits in vain.
  lemma AHolderDies(x: Item)
    ensures var ps := [DoRead(1, false), DoPut(2, x), DoDie(1), DoRead(3, false)];
      && Legal(Init(0), ps)
      && var s := Exec(Init(0), ps);
      && HeldByTheDead(s.r, s.done) && s.items == [x] && s.r.waiters == [Call(1, 3, Get)] && 3 !in s.done
  {
    AGetterIsGranted(x);
    var s3 := Die(Granting(x), 1);
    assert Current(s3.r) + s3.r.waiters == [Call(0, 1, Get)];
    Run4(Init(0), DoRead(1, false), DoPut(2, x), DoDie(1), DoRead(3, false));
  }

  // Or it is cancelled before it resumes and lives on, and the next reader waits beside the item
  // until the Task that left makes another `get`.
  lemma ATaskLivesOn(x: Item)
    ensures var ps := [DoRead(1, false), DoPut(2, x), DoLeave(1), DoRead(3, false)];
      && Legal(Init(0), ps)
      && var s := Exec(Init(0), ps);
      && s.done == {} && Unattended(s.r, s.rh, s.done) && s.items == [x] && s.r.waiters == [Call(1, 3, Get)]
      && CallRead(s, 1, false).r.holder == None && CallRead(s, 1, false).got == [x]
  {
    AGetterIsGranted(x);
    var s2 := Granting(x);
    var s3 := Leave(s2, 1);
    assert s2.r.holder.value in Current(s2.r) + s2.r.waiters;
    assert 0 in WaitingIds(Current(s2.r) + s2.r.waiters, 1) by {
      assert (Current(s2.r) + s2.r.waiters)[0] == Call(0, 1, Get);
    }
    assert Current(s3.r) + s3.r.waiters == [Call(0, 1, Get)];
    Run4(Init(0), DoRead(1, false), DoPut(2, x), DoLeave(1), DoRead(3, false));
  }

  lemma Run3(s: State, a: Step, b: Step, c: Step)
    requires Enabled(s, a) && Enabled(Next(s, a), b) && Enabled(Next(Next(s, a), b), c)
    ensures Legal(s, [a, b, c]) && Exec(s, [a, b, c]) == Next(Next(Next(s, a), b), c)
  {
    var s1, s2 := Next(s, a), Next(Next(s, a), b);
    OneStep(s2, c);
    assert [b, c][1..] == [c] && [a, b, c][1..] == [b, c];
    assert Legal(s1, [b, c]) && Exec(s1, [b, c]) == Next(s2, c);
  }

  lemma Run4(s: State, a: Step, b: Step, c: Step, d: Step)
    requires Enabled(s, a) && Enabled(Next(s, a), b) && Enabled(Next(Next(s, a), b), c)
    requires Enabled(Next(Next(Next(s, a), b), c), d)
    ensures Legal(s, [a, b, c, d]) && Exec(s, [a, b, c, d]) == Next(Next(Next(Next(s, a), b), c), d)
  {
    Run3(Next(s, a), b, c, d);
    assert [a, b, c, d][1..] == [b, c, d];
  }

  // ----- The program -----

  class QueueLock {
    var currentAcquirer: Option<Call>
    var acquirers: seq<Call>

    constructor ()
      ensures Snapshot() == Lock(None, [])
    {
      currentAcquirer, acquirers := None, [];
    }

    function Snapshot(): Lock
      reads this
    {
      Lock(currentAcquirer, acquirers)
    }

    method WakeupNext(available: bool, done: set<nat>)
      modifies this
      ensures Snapshot() == Wake(old(Snapshot()), available, done)
    {
      if currentAcquirer.Some? || !available {
        return;
      }
      while acquirers != []
        invariant currentAcquirer.None? && Grant(acquirers, done) == Grant(old(acquirers), done)
        decreases |acquirers|
      {
        var c := acquirers[0];
        acquirers := acquirers[1..];
        if c.task !in done {
          currentAcquirer := Some(c);
          return;
        }
      }
    }

    // Returns whether the lock was held; the source raises RuntimeError otherwise.
    method Release(available: bool, done: set<nat>) returns (ok: bool)
      modifies this
      ensures ok == old(currentAcquirer).Some?
      ensures Snapshot() == if ok then Wake(Lock(None, old(acquirers)), available, done) else old(Snapshot())
    {
      if currentAcquirer.None? {
        return false;
      }
      currentAcquirer := None;
      WakeupNext(available, done);
      return true;
    }
  }

  class Queue {
    const maxsize: int
    var items: seq<Item>
    const writeLock: QueueLock
    const readLock: QueueLock
    var done: set<nat>  // what `task.done()` answers
    ghost var wh: History
    ghost var rh: History
    ghost var results: seq<Item>
    ghost var raised: nat
    ghost var stream: seq<Item>
    ghost var got: seq<Item>
    ghost var mixed: bool
    ghost var rude: bool

    ghost predicate Valid() {
      writeLock != readLock
    }

    ghost function Snapshot(): State
      reads this, writeLock, readLock
    {
      State(maxsize, items, writeLock.Snapshot(), readLock.Snapshot(), done, wh, rh, results, raised,
            stream, got, mixed, rude)
    }

    constructor (maxsize: int)
      ensures Valid() && Snapshot() == Init(maxsize) && fresh(writeLock) && fresh(readLock)
    {
      this.maxsize := maxsize;
      items, done := [], {};
      writeLock := new QueueLock();
      readLock := new QueueLock();
      wh, rh, results, raised := History([], [], {}, {}), History([], [], {}, {}), [], 0;
      stream, got, mixed, rude := [], [], false, false;
    }

    predicate IsFull()
      reads this
    {
      maxsize > 0 && |items| >= maxsize
    }

    method TryPut(x: Item) returns (ok: bool)
      requires Valid()
      modifies this`items, this`stream, readLock
      ensures ok == !Full(old(Snapshot()))
      ensures Snapshot() == if ok then PutNowait(old(Snapshot()), x) else old(Snapshot())
    {
      if IsFull() {
        return false;
      }
      items, stream := items + [x], stream + [x];
      readLock.WakeupNext(items != [], done);
      return true;
    }

    method TryGet() returns (r: Option<Item>)
      requires Valid()
      modifies this`items, this`got, writeLock
      ensures r == if Empty(old(Snapshot())) then None else Some(old(items)[0])
      ensures Snapshot() == if r.Some? then GetNowait(old(Snapshot())) else old(Snapshot())
    {
      if items == [] {
        return None;
      }
      var item := items[0];
      items, got := items[1..], got + [item];
      writeLock.WakeupNext(!IsFull(), done);
      return Some(item);
    }

    // What a `put` does once it holds the write lock: at once, or when it is resumed.
    method FinishPut() returns (ok: bool)
      requires Valid() && writeLock.currentAcquirer.Some? && writeLock.currentAcquirer.value.req.Put?
      modifies this, writeLock, readLock
      ensures Snapshot() == PutLocked(old(Snapshot())) && ok == !Full(old(Snapshot()))
    {
      ghost var c := writeLock.currentAcquirer.value;
      ok := TryPut(writeLock.currentAcquirer.value.req.item);
      var released := writeLock.Release(!IsFull(), done);
      if ok {
        wh := wh.(served := wh.served + [c]);
      } else {
        raised, wh := raised + 1, wh.(abandoned := wh.abandoned + {c.id});
      }
    }

    method FinishRead() returns (r: Option<Item>)
      requires Valid() && readLock.currentAcquirer.Some?
      modifies this, writeLock, readLock
      ensures Snapshot() == ReadLocked(old(Snapshot())) && (r.None? <==> Empty(old(Snapshot())))
      ensures r.Some? ==> r.value == old(items)[0]
    {
      var c := readLock.currentAcquirer.value;
      if c.req.Get? {
        r := TryGet();
      } else {
        r := if items == [] then None else Some(items[0]);
      }
      var released := readLock.Release(items != [], done);
      if r.Some? {
        rh := rh.(served := rh.served + [c]);
        results := results + [r.value];
      } else {
        raised, rh := raised + 1, rh.(abandoned := rh.abandoned + {c.id});
      }
    }

    // `put` up to its return, or to its wait.
    method BeginPut(t: nat, x: Item, id: nat) returns (blocked: bool)
      requires Valid() && id == |wh.calls|
      requires writeLock.currentAcquirer.Some? ==> writeLock.currentAcquirer.value.id < |wh.calls|
      modifies this, writeLock, readLock
      ensures Snapshot() == CallPut(old(Snapshot()), t, x)
      ensures blocked == ((Full(old(Snapshot())) || old(writeLock.currentAcquirer).Some?)
                          && !Returns(old(writeLock.Snapshot()), old(wh), t))
    {
      if !IsFull() && writeLock.currentAcquirer.None? {
        var c := Call(id, t, Put(x));
        wh := wh.(calls := wh.calls + [c]);
        writeLock.currentAcquirer := Some(c);
      } else if writeLock.currentAcquirer.Some? && writeLock.currentAcquirer.value.task == t {
        // `acquire` returns at once.
        var c := writeLock.currentAcquirer.value.(req := Put(x));
        wh := wh.(calls := wh.calls[c.id := c], left := wh.left - {c.id});
        writeLock.currentAcquirer := Some(c);
      } else {
        var c := Call(id, t, Put(x));
        wh := wh.(calls := wh.calls + [c]);
        writeLock.acquirers := writeLock.acquirers + [c];
        return true;
      }
      var ok := FinishPut();
      return false;
    }

    // `get` or `peek` up to its return, or to its wait.
    method BeginRead(t: nat, peek: bool, id: nat) returns (r: Option<Item>)
      requires Valid() && id == |rh.calls|
      requires readLock.currentAcquirer.Some? ==> readLock.currentAcquirer.value.id < |rh.calls|
      modifies this, writeLock, readLock
      ensures Snapshot() == CallRead(old(Snapshot()), t, peek)
      ensures r == if Empty(old(Snapshot())) ||
                      (old(readLock.currentAcquirer).Some? && !Returns(old(readLock.Snapshot()), old(rh), t))
                   then None else Some(old(items)[0])
    {
      var req := if peek then Peek else Get;
      if items != [] && readLock.currentAcquirer.None? {
        var c := Call(id, t, req);
        rh := rh.(calls := rh.calls + [c]);
        readLock.currentAcquirer := Some(c);
      } else if readLock.currentAcquirer.Some? && readLock.currentAcquirer.value.task == t {
        var c := readLock.currentAcquirer.value.(req := req);
        rh := rh.(calls := rh.calls[c.id := c], left := rh.left - {c.id});
        readLock.currentAcquirer := Some(c);
      } else {
        var c := Call(id, t, req);
        rh := rh.(calls := rh.calls + [c]);
        readLock.acquirers := readLock.acquirers + [c];
        return None;
      }
      r := FinishRead();
    }
  }
}
