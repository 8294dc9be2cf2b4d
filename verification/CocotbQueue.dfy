/**
 The queue of cocotb: a blocked Task is woken by an event and then tries again.

 A Task inside `put` or `get` is parked in a deque, or woken and not yet resumed.  Either way it may
 die, or be cancelled and live on, and its entry stays in the deque.  An entry whose Task lives on
 elsewhere is woken like any other, so its wakeup is lost; and so is the one of a woken Task that dies
 or leaves.  The wakeups lost are counted.
 */
module CocotbQueue {
  import opened Wrappers

  // The queue never looks at its items.
  type Item = int

  // A Task parked in `put` with the item it wants to put, or in `get` with nothing; `left` once it has
  // been cancelled there and lives on.  `turn` numbers the waits in the order in which they began.
  datatype Waiter = Waiter(task: nat, item: Option<Item>, left: bool, turn: nat)

  datatype State = State(
    maxsize: int,
    items: seq<Item>,
    getters: seq<Waiter>,
    putters: seq<Waiter>,
    wokenGetters: seq<Waiter>,  // event set, not resumed yet
    wokenPutters: seq<Waiter>,
    done: set<nat>,
    put: seq<Item>,             // history: the items put, in order,
    got: seq<Item>,             //   and the items got;
    lostGetters: nat,           //   the wakeups that nobody will come for
    lostPutters: nat,
    turns: nat)                 //   and how often a Task has parked

  function Init(maxsize: int): State {
    State(maxsize, [], [], [], [], [], {}, [], [], 0, 0, 0)
  }

  predicate Full(s: State) {
    s.maxsize > 0 && |s.items| >= s.maxsize
  }

  predicate Empty(s: State) {
    |s.items| == 0
  }

  // ----- The operations -----

  // `_wakeup_next`: who is woken, if anybody, and who stays parked.
  function WakeupNext(ws: seq<Waiter>, done: set<nat>): (seq<Waiter>, seq<Waiter>) {
    if ws == [] then ([], [])
    else if ws[0].task in done then WakeupNext(ws[1..], done)
    else ([ws[0]], ws[1..])
  }

  // Those among the woken that will come.
  function Coming(woken: seq<Waiter>): seq<Waiter> {
    if woken != [] && woken[0].left then [] else woken
  }

  function Missed(woken: seq<Waiter>): nat {
    if woken != [] && woken[0].left then 1 else 0
  }

  // `put_nowait`; None is QueueFull
  function PutNowait(s: State, x: Item): Option<State> {
    if Full(s) then None
    else
      var (woken, parked) := WakeupNext(s.getters, s.done);
      Some(s.(items := s.items + [x], put := s.put + [x], getters := parked,
        wokenGetters := s.wokenGetters + Coming(woken), lostGetters := s.lostGetters + Missed(woken)))
  }

  // `get_nowait`; None is QueueEmpty
  function GetNowait(s: State): Option<State> {
    if Empty(s) then None
    else
      var (woken, parked) := WakeupNext(s.putters, s.done);
      Some(s.(items := s.items[1..], got := s.got + [s.items[0]], putters := parked,
        wokenPutters := s.wokenPutters + Coming(woken), lostPutters := s.lostPutters + Missed(woken)))
  }

  // One turn of the loop in `put`: put now, or park.
  function TryPut(s: State, t: nat, x: Item): State {
    match PutNowait(s, x)
    case Some(s1) => s1
    case None => s.(putters := s.putters + [Waiter(t, Some(x), false, s.turns)], turns := s.turns + 1)
  }

  function TryGet(s: State, t: nat): State {
    match GetNowait(s)
    case Some(s1) => s1
    case None => s.(getters := s.getters + [Waiter(t, None, false, s.turns)], turns := s.turns + 1)
  }

  function Drop(ws: seq<Waiter>, i: nat): seq<Waiter>
    requires i < |ws|
  {
    ws[..i] + ws[i + 1..]
  }

  function MarkLeft(ws: seq<Waiter>, t: nat): seq<Waiter> {
    seq(|ws|, i requires 0 <= i < |ws| => if ws[i].task == t then ws[i].(left := true) else ws[i])
  }

  // ----- Runs -----

  datatype Step =
    | DoPut(task: nat, item: Item)
    | DoGet(task: nat)
    | DoPutNowait(item: Item)
    | DoGetNowait
    | ResumePut(i: nat)  // any of the woken Tasks may be resumed next
    | ResumeGet(i: nat)
    | Die(task: nat)
    | Leave(task: nat)   // a parked Task is cancelled and lives on
    | LoseGetter(i: nat) // a woken Task dies
    | LosePutter(i: nat)
    | LeaveGetter(i: nat) // a woken Task is cancelled and lives on
    | LeavePutter(i: nat)

  ghost predicate Woken(ws: seq<Waiter>, t: nat) {
    exists i :: 0 <= i < |ws| && ws[i].task == t
  }

  // A Task is blocked in one call at a time.
  ghost predicate Once(ws: seq<Waiter>, i: nat)
    requires i < |ws|
  {
    forall j :: 0 <= j < |ws| && j != i ==> ws[j].task != ws[i].task
  }

  ghost predicate Enabled(s: State, p: Step) {
    match p
    case DoPut(t, _) => t !in s.done
    case DoGet(t) => t !in s.done
    case DoPutNowait(_) => true
    case DoGetNowait => true
    case ResumePut(i) => i < |s.wokenPutters| && s.wokenPutters[i].item.Some?
    case ResumeGet(i) => i < |s.wokenGetters|
    case Die(t) => !Woken(s.wokenGetters, t) && !Woken(s.wokenPutters, t)
    case Leave(_) => true
    case LoseGetter(i) =>
      i < |s.wokenGetters| && Once(s.wokenGetters, i) && !Woken(s.wokenPutters, s.wokenGetters[i].task)
    case LosePutter(i) =>
      i < |s.wokenPutters| && Once(s.wokenPutters, i) && !Woken(s.wokenGetters, s.wokenPutters[i].task)
    case LeaveGetter(i) => i < |s.wokenGetters|
    case LeavePutter(i) => i < |s.wokenPutters|
  }

  ghost function Next(s: State, p: Step): State
    requires Enabled(s, p)
  {
    match p
    case DoPut(t, x) => TryPut(s, t, x)
    case DoGet(t) => TryGet(s, t)
    case DoPutNowait(x) => if Full(s) then s else PutNowait(s, x).value
    case DoGetNowait => if Empty(s) then s else GetNowait(s).value
    case ResumePut(i) =>
      TryPut(s.(wokenPutters := Drop(s.wokenPutters, i)), s.wokenPutters[i].task, s.wokenPutters[i].item.value)
    case ResumeGet(i) => TryGet(s.(wokenGetters := Drop(s.wokenGetters, i)), s.wokenGetters[i].task)
    case Die(t) => s.(done := s.done + {t})
    case Leave(t) => s.(getters := MarkLeft(s.getters, t), putters := MarkLeft(s.putters, t))
    case LoseGetter(i) =>
      s.(done := s.done + {s.wokenGetters[i].task}, wokenGetters := Drop(s.wokenGetters, i),
         lostGetters := s.lostGetters + 1)
    case LosePutter(i) =>
      s.(done := s.done + {s.wokenPutters[i].task}, wokenPutters := Drop(s.wokenPutters, i),
         lostPutters := s.lostPutters + 1)
    case LeaveGetter(i) => s.(wokenGetters := Drop(s.wokenGetters, i), lostGetters := s.lostGetters + 1)
    case LeavePutter(i) => s.(wokenPutters := Drop(s.wokenPutters, i), lostPutters := s.lostPutters + 1)
  }

  ghost predicate Legal(s: State, ps: seq<Step>)
    decreases |ps|
  {
    ps == [] || (Enabled(s, ps[0]) && Legal(Next(s, ps[0]), ps[1..]))
  }

  ghost function Exec(s: State, ps: seq<Step>): State
    requires Legal(s, ps)
    decreases |ps|
  {
    if ps == [] then s else Exec(Next(s, ps[0]), ps[1..])
  }

  // ----- The invariant -----

  ghost predicate SomeLive(ws: seq<Waiter>, done: set<nat>) {
    exists i :: 0 <= i < |ws| && ws[i].task !in done
  }

  // Some Task is alive and still waits.
  ghost predicate SomeWaits(ws: seq<Waiter>, done: set<nat>) {
    exists i :: 0 <= i < |ws| && ws[i].task !in done && !ws[i].left
  }

  ghost predicate AllLive(ws: seq<Waiter>, done: set<nat>) {
    forall i :: 0 <= i < |ws| ==> ws[i].task !in done
  }

  ghost predicate Inv(s: State) {
    // While a live getter waits, every item has a woken getter coming for it, or a wakeup that was lost;
    && (SomeWaits(s.getters, s.done) ==> |s.items| <= |s.wokenGetters| + s.lostGetters)
    // and while a live putter waits, so has every free slot.
    && (SomeWaits(s.putters, s.done) ==>
          s.maxsize > 0 && s.maxsize - |s.items| <= |s.wokenPutters| + s.lostPutters)
    && (s.maxsize > 0 ==> |s.items| <= s.maxsize)
    && s.put == s.got + s.items
    && AllLive(s.wokenGetters, s.done) && AllLive(s.wokenPutters, s.done)
    && (forall w :: w in s.putters || w in s.wokenPutters ==> w.item.Some?)
    && InTurn(s.getters, s.turns) && InTurn(s.putters, s.turns)
  }

  // The waits of a deque, in the order in which they began.
  ghost predicate InTurn(ws: seq<Waiter>, turns: nat) {
    && (forall i :: 0 <= i < |ws| ==> ws[i].turn < turns)
    && (forall i, j :: 0 <= i < j < |ws| ==> ws[i].turn < ws[j].turn)
  }

  // The first waiter that is alive is woken; the dead ones before it are dropped.
  lemma {:induction false} WakeupNextPicks(ws: seq<Waiter>, done: set<nat>)
    ensures var (woken, parked) := WakeupNext(ws, done);
      && |woken| == (if SomeLive(ws, done) then 1 else 0) && AllLive(woken, done)
      && (forall w :: w in woken || w in parked ==> w in ws)
      && |woken| + |parked| <= |ws| && woken + parked == ws[|ws| - |woken| - |parked|..]
      && (forall i :: 0 <= i < |ws| - |woken| - |parked| ==> ws[i].task in done)
  {
    if ws != [] && ws[0].task in done {
      WakeupNextPicks(ws[1..], done);
      if i :| 0 <= i < |ws| && ws[i].task !in done {
        assert ws[1..][i - 1].task !in done;
      }
    }
  }

  // So if somebody waits on, somebody waited before, and one was picked.
  lemma WakeupNextWaits(ws: seq<Waiter>, done: set<nat>)
    ensures var (woken, parked) := WakeupNext(ws, done);
      && |woken| <= 1 && AllLive(woken, done) && (forall w :: w in woken || w in parked ==> w in ws)
      && (SomeWaits(parked, done) ==> SomeWaits(ws, done) && |woken| == 1)
    ensures forall turns :: InTurn(ws, turns) ==> InTurn(WakeupNext(ws, done).1, turns)
  {
    WakeupNextPicks(ws, done);
    var (woken, parked) := WakeupNext(ws, done);
    forall i | 0 <= i < |parked| ensures parked[i] == ws[|ws| - |parked| + i] {
      assert ws[|ws| - |woken| - |parked|..][|woken| + i] == (woken + parked)[|woken| + i];
    }
    if j :| 0 <= j < |parked| && parked[j].task !in done && !parked[j].left {
      var i := |ws| - |parked| + j;
      assert ws[|ws| - |woken| - |parked|..][|woken| + j] == (woken + parked)[|woken| + j] == parked[j];
      assert ws[i] == parked[j];
    }
  }

  lemma PutKeepsInv(s: State, x: Item)
    requires Inv(s) && !Full(s)
    ensures Inv(PutNowait(s, x).value)
  {
    WakeupNextWaits(s.getters, s.done);
    assert s.got + (s.items + [x]) == s.put + [x];
  }

  lemma GetKeepsInv(s: State)
    requires Inv(s) && !Empty(s)
    ensures Inv(GetNowait(s).value)
  {
    WakeupNextWaits(s.putters, s.done);
    assert s.got + [s.items[0]] + s.items[1..] == s.got + s.items;
  }

  // Giving up a wakeup is made good by the retry.
  lemma ResumePutKeepsInv(s: State, i: nat)
    requires Inv(s) && i < |s.wokenPutters|
    ensures Inv(Next(s, ResumePut(i)))
  {
    var w := s.wokenPutters[i];
    var s1 := s.(wokenPutters := Drop(s.wokenPutters, i));
    WakeupNextWaits(s.getters, s.done);
    assert s.got + (s.items + [w.item.value]) == s.put + [w.item.value];
    assert AllLive(s1.wokenPutters, s.done);
  }

  lemma ResumeGetKeepsInv(s: State, i: nat)
    requires Inv(s) && i < |s.wokenGetters|
    ensures Inv(Next(s, ResumeGet(i)))
  {
    var s1 := s.(wokenGetters := Drop(s.wokenGetters, i));
    WakeupNextWaits(s.putters, s.done);
    if !Empty(s) {
      assert s.got + [s.items[0]] + s.items[1..] == s.got + s.items;
    }
    assert AllLive(s1.wokenGetters, s.done);
  }

  lemma StepKeepsInv(s: State, p: Step)
    requires Inv(s) && Enabled(s, p)
    ensures Inv(Next(s, p))
  {
    match p
    case DoPut(t, x) => if !Full(s) { PutKeepsInv(s, x); }
    case DoGet(t) => if !Empty(s) { GetKeepsInv(s); }
    case DoPutNowait(x) => if !Full(s) { PutKeepsInv(s, x); }
    case DoGetNowait => if !Empty(s) { GetKeepsInv(s); }
    case ResumePut(i) => ResumePutKeepsInv(s, i);
    case ResumeGet(i) => ResumeGetKeepsInv(s, i);
    case Die(t) =>
    case Leave(t) => LeaveKeepsInv(s, t);
    case LoseGetter(i) => LoseKeepsLive(s.wokenGetters, s.done, i);
    case LosePutter(i) => LoseKeepsLive(s.wokenPutters, s.done, i);
    case LeaveGetter(_) =>
    case LeavePutter(_) =>
  }

  lemma LeaveKeepsInv(s: State, t: nat)
    requires Inv(s)
    ensures Inv(Next(s, Leave(t)))
  {
    var gs, ps := MarkLeft(s.getters, t), MarkLeft(s.putters, t);
    if i :| 0 <= i < |gs| && gs[i].task !in s.done && !gs[i].left {
      assert s.getters[i] == gs[i];
    }
    if i :| 0 <= i < |ps| && ps[i].task !in s.done && !ps[i].left {
      assert s.putters[i] == ps[i];
    }
    forall i | 0 <= i < |ps| ensures ps[i].item.Some? {
      assert s.putters[i] in s.putters;
    }
  }

  lemma LoseKeepsLive(ws: seq<Waiter>, done: set<nat>, i: nat)
    requires AllLive(ws, done) && i < |ws| && Once(ws, i)
    ensures AllLive(Drop(ws, i), done + {ws[i].task})
  {
  }

  lemma {:induction false} RunKeepsInv(s: State, ps: seq<Step>)
    requires Inv(s) && Legal(s, ps)
    ensures Inv(Exec(s, ps)) && Exec(s, ps).maxsize == s.maxsize
    decreases |ps|
  {
    if ps != [] {
      StepKeepsInv(s, ps[0]);
      RunKeepsInv(Next(s, ps[0]), ps[1..]);
    }
  }

  // ----- What the queue promises -----

  // Under any mix of blocking and non-blocking calls, deaths and cancellations: as long as a live getter
  // waits there are at most as many items as woken getters still to be resumed, and one more for each
  // wakeup that was lost; and dually for putters.
  lemma NoWakeupIsLost(maxsize: int, ps: seq<Step>)
    requires Legal(Init(maxsize), ps)
    ensures var s := Exec(Init(maxsize), ps);
      && (SomeWaits(s.getters, s.done) ==> |s.items| <= |s.wokenGetters| + s.lostGetters)
      && (SomeWaits(s.putters, s.done) ==>
            maxsize > 0 && maxsize - |s.items| <= |s.wokenPutters| + s.lostPutters)
      && (s.wokenGetters == [] && s.wokenPutters == [] && (maxsize > 0 ==> s.lostGetters + s.lostPutters < maxsize) ==>
        !(SomeWaits(s.getters, s.done) && SomeWaits(s.putters, s.done)))
  {
    RunKeepsInv(Init(maxsize), ps);
  }

  // Whoever parked first is woken first: the getter that a put wakes has waited longer than any other that is
  // alive, and dually for putters.
  lemma FirstParkedFirstWoken(maxsize: int, ps: seq<Step>)
    requires Legal(Init(maxsize), ps)
    ensures var s := Exec(Init(maxsize), ps);
      LongestWaits(s.getters, s.done, WakeupNext(s.getters, s.done)) &&
      LongestWaits(s.putters, s.done, WakeupNext(s.putters, s.done))
  {
    RunKeepsInv(Init(maxsize), ps);
    var s := Exec(Init(maxsize), ps);
    WokenHasWaitedLongest(s.getters, s.done, s.turns);
    WokenHasWaitedLongest(s.putters, s.done, s.turns);
  }

  ghost predicate LongestWaits(ws: seq<Waiter>, done: set<nat>, r: (seq<Waiter>, seq<Waiter>)) {
    && (r.0 == [] <==> !SomeLive(ws, done)) && |r.0| <= 1
    && (r.0 != [] ==>
          && r.0[0] in ws && r.0[0].task !in done
          && (forall v :: v in ws && v.task !in done ==> v == r.0[0] || r.0[0].turn < v.turn)
          && (forall v :: v in ws && v.task !in done && v != r.0[0] ==> v in r.1))
  }

  lemma WokenHasWaitedLongest(ws: seq<Waiter>, done: set<nat>, turns: nat)
    requires InTurn(ws, turns)
    ensures LongestWaits(ws, done, WakeupNext(ws, done))
  {
    WakeupNextPicks(ws, done);
    var (woken, parked) := WakeupNext(ws, done);
    var k := |ws| - |woken| - |parked|;
    if woken != [] {
      assert ws[k..][0] == (woken + parked)[0] == woken[0];
      forall v | v in ws && v.task !in done ensures v == woken[0] || (woken[0].turn < v.turn && v in parked) {
        var i :| 0 <= i < |ws| && ws[i] == v;
        assert i >= k;
        assert ws[k..][i - k] == (woken + parked)[i - k];
      }
    }
  }

  // Capacity, and first in, first out.
  lemma NothingIsLost(maxsize: int, ps: seq<Step>)
    requires Legal(Init(maxsize), ps)
    ensures var s := Exec(Init(maxsize), ps);
      && (maxsize > 0 ==> |s.items| <= maxsize)
      && s.put == s.got + s.items
  {
    RunKeepsInv(Init(maxsize), ps);
  }

  // ----- Nobody is forgotten -----

  // Task `t` waits inside `get`: it is parked, or it has been woken and not resumed.
  ghost predicate InsideGet(s: State, t: nat) {
    (exists w :: w in s.getters && w.task == t && !w.left) || (exists w :: w in s.wokenGetters && w.task == t)
  }

  ghost predicate InsidePut(s: State, t: nat, x: Item) {
    || (exists w :: w in s.putters && w.task == t && !w.left && w.item == Some(x))
    || (exists w :: w in s.wokenPutters && w.task == t && w.item == Some(x))
  }

  // The steps with which a wait of Task `t` may end.
  ghost predicate EndsGet(s: State, p: Step, t: nat) {
    match p
    case Die(u) => u == t
    case Leave(u) => u == t
    case ResumeGet(i) => i < |s.wokenGetters| && s.wokenGetters[i].task == t
    case LoseGetter(i) => i < |s.wokenGetters| && s.wokenGetters[i].task == t
    case LeaveGetter(i) => i < |s.wokenGetters| && s.wokenGetters[i].task == t
    case LosePutter(i) => i < |s.wokenPutters| && s.wokenPutters[i].task == t
    case _ => false
  }

  ghost predicate EndsPut(s: State, p: Step, t: nat) {
    match p
    case Die(u) => u == t
    case Leave(u) => u == t
    case ResumePut(i) => i < |s.wokenPutters| && s.wokenPutters[i].task == t
    case LosePutter(i) => i < |s.wokenPutters| && s.wokenPutters[i].task == t
    case LeavePutter(i) => i < |s.wokenPutters| && s.wokenPutters[i].task == t
    case LoseGetter(i) => i < |s.wokenGetters| && s.wokenGetters[i].task == t
    case _ => false
  }

  // A turn of `get` takes the oldest item, or the Task waits; and then nothing but its own next turn, death or
  // cancellation ends that.
  lemma GetIsServedOrWaits(s: State, p: Step, t: nat)
    requires Enabled(s, p)
    requires p == DoGet(t) || (p.ResumeGet? && s.wokenGetters[p.i].task == t)
    ensures if Empty(s) then InsideGet(Next(s, p), t) && Next(s, p).got == s.got
            else Next(s, p).got == s.got + [s.items[0]] && Next(s, p).items == s.items[1..]
  {
    var r := Next(s, p);
    if Empty(s) { assert r.getters[|s.getters|] in r.getters; }
  }

  lemma PutIsServedOrWaits(s: State, p: Step, t: nat, x: Item)
    requires Enabled(s, p)
    requires p == DoPut(t, x) ||
             (p.ResumePut? && s.wokenPutters[p.i].task == t && s.wokenPutters[p.i].item == Some(x))
    ensures if Full(s) then InsidePut(Next(s, p), t, x) && Next(s, p).put == s.put
            else Next(s, p).put == s.put + [x] && Next(s, p).items == s.items + [x]
  {
    var r := Next(s, p);
    if Full(s) { assert r.putters[|s.putters|] in r.putters; }
  }

  lemma WakeupKeeps(ws: seq<Waiter>, done: set<nat>, w: Waiter)
    requires w in ws && w.task !in done && !w.left
    ensures w in Coming(WakeupNext(ws, done).0) || w in WakeupNext(ws, done).1
  {
    WakeupNextPicks(ws, done);
    var (woken, parked) := WakeupNext(ws, done);
    var i :| 0 <= i < |ws| && ws[i] == w;
    var k := |ws| - |woken| - |parked|;
    assert ws[k..][i - k] == (woken + parked)[i - k];
  }

  lemma DropKeeps(ws: seq<Waiter>, i: nat, w: Waiter)
    requires i < |ws| && w in ws && w != ws[i]
    ensures w in Drop(ws, i)
  {
    var j :| 0 <= j < |ws| && ws[j] == w;
    assert Drop(ws, i)[if j < i then j else j - 1] == w;
  }

  lemma MarkKeeps(ws: seq<Waiter>, t: nat, w: Waiter)
    requires w in ws && w.task != t
    ensures w in MarkLeft(ws, t)
  {
    var i :| 0 <= i < |ws| && ws[i] == w;
    assert MarkLeft(ws, t)[i] == w;
  }

  lemma StepKeepsGetter(s: State, p: Step, t: nat)
    requires Enabled(s, p) && t !in s.done && InsideGet(s, t) && !EndsGet(s, p, t)
    ensures InsideGet(Next(s, p), t) && t !in Next(s, p).done
  {
    var r := Next(s, p);
    if w :| w in s.getters && w.task == t && !w.left {
      WakeupKeeps(s.getters, s.done, w);
      if p.Leave? { MarkKeeps(s.getters, p.task, w); }
      assert w in r.getters || w in r.wokenGetters;
    } else {
      var w :| w in s.wokenGetters && w.task == t;
      if p.ResumeGet? || p.LoseGetter? || p.LeaveGetter? { DropKeeps(s.wokenGetters, p.i, w); }
      assert w in r.wokenGetters;
    }
  }

  lemma StepKeepsPutter(s: State, p: Step, t: nat, x: Item)
    requires Enabled(s, p) && t !in s.done && InsidePut(s, t, x) && !EndsPut(s, p, t)
    ensures InsidePut(Next(s, p), t, x) && t !in Next(s, p).done
  {
    var r := Next(s, p);
    if w :| w in s.putters && w.task == t && !w.left && w.item == Some(x) {
      WakeupKeeps(s.putters, s.done, w);
      if p.Leave? { MarkKeeps(s.putters, p.task, w); }
      assert w in r.putters || w in r.wokenPutters;
    } else {
      var w :| w in s.wokenPutters && w.task == t && w.item == Some(x);
      if p.ResumePut? || p.LosePutter? || p.LeavePutter? { DropKeeps(s.wokenPutters, p.i, w); }
      assert w in r.wokenPutters;
    }
  }

  ghost predicate NeverEndsGet(s: State, ps: seq<Step>, t: nat)
    requires Legal(s, ps)
    decreases |ps|
  {
    ps != [] ==> !EndsGet(s, ps[0], t) && NeverEndsGet(Next(s, ps[0]), ps[1..], t)
  }

  ghost predicate NeverEndsPut(s: State, ps: seq<Step>, t: nat)
    requires Legal(s, ps)
    decreases |ps|
  {
    ps != [] ==> !EndsPut(s, ps[0], t) && NeverEndsPut(Next(s, ps[0]), ps[1..], t)
  }

  lemma {:induction false} NobodyIsForgotten(s: State, ps: seq<Step>, t: nat, x: Item)
    requires Legal(s, ps) && t !in s.done
    ensures InsideGet(s, t) && NeverEndsGet(s, ps, t) ==> InsideGet(Exec(s, ps), t)
    ensures InsidePut(s, t, x) && NeverEndsPut(s, ps, t) ==> InsidePut(Exec(s, ps), t, x)
    decreases |ps|
  {
    if ps != [] {
      if InsideGet(s, t) && !EndsGet(s, ps[0], t) {
        StepKeepsGetter(s, ps[0], t);
        NobodyIsForgotten(Next(s, ps[0]), ps[1..], t, x);
      }
      if InsidePut(s, t, x) && !EndsPut(s, ps[0], t) {
        StepKeepsPutter(s, ps[0], t, x);
        NobodyIsForgotten(Next(s, ps[0]), ps[1..], t, x);
      }
    }
  }

  // What a death or a cancellation does: the Task is done, or it waits in no deque any more; and a woken one is
  // taken out, with its wakeup counted as lost.
  lemma WaitsEnd(s: State, p: Step)
    requires Enabled(s, p)
    ensures Next(s, p).done == s.done + match p
                                        case Die(t) => {t}
                                        case LoseGetter(i) => {s.wokenGetters[i].task}
                                        case LosePutter(i) => {s.wokenPutters[i].task}
                                        case _ => {}
    ensures p.Leave? ==> forall w :: w in Next(s, p).getters || w in Next(s, p).putters ==> w.task == p.task ==> w.left
    ensures p.LoseGetter? || p.LeaveGetter? ==>
      |Next(s, p).wokenGetters| == |s.wokenGetters| - 1 && Next(s, p).lostGetters == s.lostGetters + 1
    ensures p.LosePutter? || p.LeavePutter? ==>
      |Next(s, p).wokenPutters| == |s.wokenPutters| - 1 && Next(s, p).lostPutters == s.lostPutters + 1
  {
  }

  // ----- What it does not promise -----

  // Getters are not served in the order in which they asked: Task 1 asks first, is woken, and
  // parks again because Task 3 took the item.
  lemma WokenGetterIsOvertaken(x: Item)
    ensures var ps := [DoGet(1), DoPut(2, x), DoGet(3), ResumeGet(0)];
      && Legal(Init(0), ps)
      && Exec(Init(0), ps).got == [x] && Exec(Init(0), ps).getters == [Waiter(1, None, false, 1)]
  {
    var s1 := Next(Init(0), DoGet(1));
    var s2 := Next(s1, DoPut(2, x));
    assert s2.wokenGetters == [Waiter(1, None, false, 0)] && s2.items == [x];
    var s3 := Next(s2, DoGet(3));
    assert s3.items == [] && s3.wokenGetters == [Waiter(1, None, false, 0)];
    assert Drop(s3.wokenGetters, 0) == [];
    Run4(Init(0), DoGet(1), DoPut(2, x), DoGet(3), ResumeGet(0));
  }

  lemma Run4(s: State, a: Step, b: Step, c: Step, d: Step)
    requires Enabled(s, a) && Enabled(Next(s, a), b) && Enabled(Next(Next(s, a), b), c)
    requires Enabled(Next(Next(Next(s, a), b), c), d)
    ensures Legal(s, [a, b, c, d]) && Exec(s, [a, b, c, d]) == Next(Next(Next(Next(s, a), b), c), d)
  {
    var s1, s2, s3 := Next(s, a), Next(Next(s, a), b), Next(Next(Next(s, a), b), c);
    assert [d][1..] == [] && [c, d][1..] == [d] && [b, c, d][1..] == [c, d] && [a, b, c, d][1..] == [b, c, d];
    assert Legal(Next(s3, d), []) && Legal(s3, [d]) && Exec(s3, [d]) == Next(s3, d);
    assert Legal(s2, [c, d]) && Exec(s2, [c, d]) == Next(s3, d);
    assert Legal(s1, [b, c, d]) && Exec(s1, [b, c, d]) == Next(s3, d);
  }

  // Once there are as many items as woken getters, each of these is served, whoever is resumed,
  // parks, puts or dies meanwhile, as long as no new get takes an item at once.
  lemma {:induction false} WokenGettersAreServed(s: State, ps: seq<Step>)
    requires Legal(s, ps) && |s.items| >= |s.wokenGetters|
    requires forall i :: 0 <= i < |ps| ==> !ps[i].DoGet? && !ps[i].DoGetNowait?
    ensures |Exec(s, ps).items| >= |Exec(s, ps).wokenGetters|
    ensures forall i: nat :: Enabled(Exec(s, ps), ResumeGet(i)) ==>
      var r := Next(Exec(s, ps), ResumeGet(i));
      r.got == Exec(s, ps).got + [Exec(s, ps).items[0]] && r.getters == Exec(s, ps).getters
    decreases |ps|
  {
    if ps != [] {
      WakeupNextPicks(s.getters, s.done);
      WokenGettersAreServed(Next(s, ps[0]), ps[1..]);
    }
  }

  // A get that takes an item at once leaves them one short exactly when there were just as many.
  lemma OvertakingIff(s: State, t: nat)
    requires !Empty(s) && |s.items| >= |s.wokenGetters|
    ensures var r := TryGet(s, t);
      |r.items| < |r.wokenGetters| <==> |s.items| == |s.wokenGetters|
  {
    WakeupNextPicks(s.putters, s.done);
  }

  // When all woken getters are resumed, one after the other, those parked again are exactly the ones
  // too many.
  function ResumeAll(s: State): State
    decreases |s.wokenGetters|
  {
    if s.wokenGetters == [] then s
    else
      var s1 := s.(wokenGetters := Drop(s.wokenGetters, 0));
      var s2 := TryGet(s1, s.wokenGetters[0].task);
      ResumeAll(s2)
  }

  lemma {:induction false} ShortGettersParkAgain(s: State)
    ensures |ResumeAll(s).getters| ==
      |s.getters| + if |s.wokenGetters| > |s.items| then |s.wokenGetters| - |s.items| else 0
    ensures ResumeAll(s).wokenGetters == []
    decreases |s.wokenGetters|
  {
    if s.wokenGetters != [] {
      ShortGettersParkAgain(TryGet(s.(wokenGetters := Drop(s.wokenGetters, 0)), s.wokenGetters[0].task));
    }
  }

  // The same for woken putters, free slots, and puts that find one at once.
  lemma {:induction false} WokenPuttersAreServed(s: State, ps: seq<Step>)
    requires Legal(s, ps) && s.maxsize > 0 && s.maxsize - |s.items| >= |s.wokenPutters|
    requires forall i :: 0 <= i < |ps| ==> !ps[i].DoPut? && !ps[i].DoPutNowait?
    ensures s.maxsize - |Exec(s, ps).items| >= |Exec(s, ps).wokenPutters|
    ensures Exec(s, ps).maxsize == s.maxsize
    ensures forall i: nat :: Enabled(Exec(s, ps), ResumePut(i)) ==>
      var r := Next(Exec(s, ps), ResumePut(i));
      r.put == Exec(s, ps).put + [Exec(s, ps).wokenPutters[i].item.value] && r.putters == Exec(s, ps).putters
    decreases |ps|
  {
    if ps != [] {
      WakeupNextPicks(s.putters, s.done);
      WokenPuttersAreServed(Next(s, ps[0]), ps[1..]);
    }
  }

  lemma OvertakingAPutIff(s: State, t: nat, x: Item)
    requires s.maxsize > 0 && !Full(s) && s.maxsize - |s.items| >= |s.wokenPutters|
    ensures var r := TryPut(s, t, x);
      s.maxsize - |r.items| < |r.wokenPutters| <==> s.maxsize - |s.items| == |s.wokenPutters|
  {
    WakeupNextPicks(s.getters, s.done);
  }

  // The wakeup of a getter that dies or leaves before it is resumed is lost exactly when the items were
  // just enough for the woken getters: then another live getter waits on while there are more items than
  // getters coming for them;
  lemma AbandonedWakeupIsLost(s: State, p: Step, ps: seq<Step>)
    requires Inv(s) && s.lostGetters == 0 && (p.LoseGetter? || p.LeaveGetter?) && Enabled(s, p)
    requires SomeWaits(s.getters, Next(s, p).done) && Legal(Next(s, p), ps)
    requires forall k :: 0 <= k < |ps| ==> !ps[k].DoGet? && !ps[k].DoGetNowait?
    ensures var r := Next(s, p);
      |r.items| > |r.wokenGetters| <==> |s.items| == |s.wokenGetters|
    ensures |s.items| == |s.wokenGetters| ==>
      var r := Exec(Next(s, p), ps);
      |r.items| > |r.wokenGetters|
  {
    var j :| 0 <= j < |s.getters| && s.getters[j].task !in Next(s, p).done && !s.getters[j].left;
    assert s.getters[j].task !in s.done;
    if |s.items| == |s.wokenGetters| {
      LostForGood(Next(s, p), ps);
    }
  }

  // the wakeup of a put is lost in the same way exactly when the first entry of a live Task is one that
  // the Task has left;
  lemma LeftGetterSwallowsTheWakeup(s: State, x: Item, ps: seq<Step>)
    requires Inv(s) && s.lostGetters == 0 && !Full(s) && SomeWaits(s.getters, s.done)
    requires Legal(PutNowait(s, x).value, ps)
    requires forall k :: 0 <= k < |ps| ==> !ps[k].DoGet? && !ps[k].DoGetNowait?
    ensures var r := PutNowait(s, x).value;
      |r.items| > |r.wokenGetters| <==> |s.items| == |s.wokenGetters| && FirstLiveHasLeft(s.getters, s.done)
    ensures |s.items| == |s.wokenGetters| && FirstLiveHasLeft(s.getters, s.done) ==>
      var r := Exec(PutNowait(s, x).value, ps);
      |r.items| > |r.wokenGetters|
  {
    WakeupNextPicks(s.getters, s.done);
    FirstLiveIsPicked(s.getters, s.done);
    if |s.items| == |s.wokenGetters| && FirstLiveHasLeft(s.getters, s.done) {
      LostForGood(PutNowait(s, x).value, ps);
    }
  }

  ghost predicate FirstLiveHasLeft(ws: seq<Waiter>, done: set<nat>) {
    exists i :: 0 <= i < |ws| && ws[i].task !in done && ws[i].left && forall j :: 0 <= j < i ==> ws[j].task in done
  }

  lemma {:induction false} FirstLiveIsPicked(ws: seq<Waiter>, done: set<nat>)
    ensures FirstLiveHasLeft(ws, done) <==> Missed(WakeupNext(ws, done).0) == 1
  {
    if ws != [] && ws[0].task in done {
      var rest := ws[1..];
      FirstLiveIsPicked(rest, done);
      if i :| 0 <= i < |ws| && ws[i].task !in done && ws[i].left && forall j :: 0 <= j < i ==> ws[j].task in done {
        assert rest[i - 1] == ws[i] && forall j :: 0 <= j < i - 1 ==> rest[j] == ws[j + 1];
        assert FirstLiveHasLeft(rest, done);
      }
      if i :| 0 <= i < |rest| && rest[i].task !in done && rest[i].left &&
              forall j :: 0 <= j < i ==> rest[j].task in done {
        assert ws[i + 1] == rest[i] && forall j :: 0 < j < i + 1 ==> ws[j] == rest[j - 1];
        assert FirstLiveHasLeft(ws, done);
      }
    } else if ws != [] {
      assert ws[0].left ==> FirstLiveHasLeft(ws, done);
    }
  }

  // and no put, resumption, death or cancellation ever makes up for it, only a new get that takes an item
  // at once.
  lemma {:induction false} LostForGood(s: State, ps: seq<Step>)
    requires Legal(s, ps) && |s.items| > |s.wokenGetters|
    requires forall i :: 0 <= i < |ps| ==> !ps[i].DoGet? && !ps[i].DoGetNowait?
    ensures |Exec(s, ps).items| > |Exec(s, ps).wokenGetters|
    decreases |ps|
  {
    if ps != [] {
      WakeupNextPicks(s.getters, s.done);
      LostForGood(Next(s, ps[0]), ps[1..]);
    }
  }

  // Both are reached: of two getters the first is woken and dies, or leaves and is then woken; the second
  // waits on beside the item.
  lemma AWokenGetterDies(x: Item)
    ensures var ps := [DoGet(1), DoGet(2), DoPut(3, x), LoseGetter(0)];
      && Legal(Init(0), ps)
      && var s := Exec(Init(0), ps);
      && s.items == [x] && s.wokenGetters == [] && s.getters == [Waiter(2, None, false, 1)] && 2 !in s.done
  {
    var s2 := Next(Next(Init(0), DoGet(1)), DoGet(2));
    assert s2.getters == [Waiter(1, None, false, 0), Waiter(2, None, false, 1)];
    var s3 := Next(s2, DoPut(3, x));
    assert s3.wokenGetters == [Waiter(1, None, false, 0)] && s3.getters == [Waiter(2, None, false, 1)];
    assert Drop(s3.wokenGetters, 0) == [];
    Run4(Init(0), DoGet(1), DoGet(2), DoPut(3, x), LoseGetter(0));
  }

  lemma AGetterLives(x: Item)
    ensures var ps := [DoGet(1), DoGet(2), Leave(1), DoPut(3, x)];
      && Legal(Init(0), ps)
      && var s := Exec(Init(0), ps);
      && s.items == [x] && s.wokenGetters == [] && s.getters == [Waiter(2, None, false, 1)] && s.done == {}
  {
    var s2 := Next(Next(Init(0), DoGet(1)), DoGet(2));
    assert s2.getters == [Waiter(1, None, false, 0), Waiter(2, None, false, 1)];
    var s3 := Next(s2, Leave(1));
    assert s3.getters == [Waiter(1, None, true, 0), Waiter(2, None, false, 1)];
    Run4(Init(0), DoGet(1), DoGet(2), Leave(1), DoPut(3, x));
  }

  // ----- The program -----

  class Queue {
    const maxsize: int
    var items: seq<Item>
    var getters: seq<Waiter>
    var putters: seq<Waiter>
    var wokenGetters: seq<Waiter>
    var wokenPutters: seq<Waiter>
    var done: set<nat>  // what `task.done()` answers
    ghost var put: seq<Item>
    ghost var got: seq<Item>
    ghost var lostGetters: nat
    ghost var lostPutters: nat
    var turns: nat

    ghost function Snapshot(): State
      reads this
    {
      State(maxsize, items, getters, putters, wokenGetters, wokenPutters, done, put, got,
        lostGetters, lostPutters, turns)
    }

    constructor (maxsize: int)
      ensures Snapshot() == Init(maxsize)
    {
      this.maxsize := maxsize;
      items, getters, putters, wokenGetters, wokenPutters, done := [], [], [], [], [], {};
      put, got, lostGetters, lostPutters, turns := [], [], 0, 0, 0;
    }

    predicate IsFull()
      reads this
    {
      maxsize > 0 && |items| >= maxsize
    }

    // The loop of `_wakeup_next`, which stops at the first waiter that is alive.
    method Wake(waiters: seq<Waiter>) returns (woken: seq<Waiter>, parked: seq<Waiter>)
      ensures (woken, parked) == WakeupNext(waiters, done)
    {
      parked := waiters;
      while parked != []
        invariant WakeupNext(parked, done) == WakeupNext(waiters, done)
      {
        var w := parked[0];
        parked := parked[1..];
        if w.task !in done {
          return [w], parked;
        }
      }
      woken := [];
    }

    method PutNow(x: Item) returns (ok: bool)
      modifies this
      ensures ok == !Full(old(Snapshot()))
      ensures Snapshot() == if ok then PutNowait(old(Snapshot()), x).value else old(Snapshot())
    {
      if IsFull() {
        return false;
      }
      items := items + [x];
      put := put + [x];
      var woken;
      woken, getters := Wake(getters);
      wokenGetters, lostGetters := wokenGetters + Coming(woken), lostGetters + Missed(woken);
      return true;
    }

    method GetNow() returns (r: Option<Item>)
      modifies this
      ensures r == if Empty(old(Snapshot())) then None else Some(old(items)[0])
      ensures Snapshot() == if r.Some? then GetNowait(old(Snapshot())).value else old(Snapshot())
    {
      if items == [] {
        return None;
      }
      var item := items[0];
      items := items[1..];
      got := got + [item];
      var woken;
      woken, putters := Wake(putters);
      wokenPutters, lostPutters := wokenPutters + Coming(woken), lostPutters + Missed(woken);
      return Some(item);
    }

    // `put` up to its next `await`: on entry, and again when the event has been set.
    method TurnOfPut(t: nat, x: Item) returns (parked: bool)
      modifies this
      ensures Snapshot() == TryPut(old(Snapshot()), t, x) && parked == Full(old(Snapshot()))
    {
      if IsFull() {
        putters := putters + [Waiter(t, Some(x), false, turns)];
        turns := turns + 1;
        return true;
      }
      var ok := PutNow(x);
      return false;
    }

    method TurnOfGet(t: nat) returns (r: Option<Item>)
      modifies this
      ensures Snapshot() == TryGet(old(Snapshot()), t)
      ensures r == if Empty(old(Snapshot())) then None else Some(old(items)[0])
    {
      if items == [] {
        getters := getters + [Waiter(t, None, false, turns)];
        turns := turns + 1;
        return None;
      }
      r := GetNow();
    }
  }
}
