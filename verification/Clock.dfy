/**
 The clock: the waveform that its two drivers emit, and waiting for a number of its cycles.

 Time is counted in simulator steps from the start of the clock.  A Timer fires before the events of
 its time step, and edges are seen strictly after its beginning.
 */
module Clock {
  import opened Wrappers

  datatype Wave = Wave(period: nat, high: nat, startHigh: bool)

  datatype Event = Event(time: nat, value: bool)

  ghost predicate Valid(w: Wave) {
    w.period >= 2 && 1 <= w.high < w.period
  }

  // ----- The waveform -----

  // The value that the k-th event sets, and the time at which it does.
  function ValueAt(w: Wave, k: nat): bool {
    (k % 2 == 0) == w.startHigh
  }

  function FirstLength(w: Wave): int {
    if w.startHigh then w.high else w.period - w.high
  }

  function TimeAt(w: Wave, k: nat): int {
    k / 2 * w.period + if k % 2 == 0 then 0 else FirstLength(w)
  }

  function EventAt(w: Wave, k: nat): Event
    requires w.high <= w.period
  {
    TimeNatural(w, k);
    Event(TimeAt(w, k), ValueAt(w, k))
  }

  lemma TimeNatural(w: Wave, k: nat)
    requires w.high <= w.period
    ensures TimeAt(w, k) >= 0
  {
    Product(k / 2, w.period);
  }

  lemma Product(a: nat, b: nat)
    ensures a * b >= 0
  {
  }

  function Events(w: Wave, n: nat): (r: seq<Event>)
    requires w.high <= w.period
    ensures |r| == n && forall k :: 0 <= k < n ==> r[k] == EventAt(w, k)
  {
    seq(n, k requires 0 <= k < n => EventAt(w, k))
  }

  // The clock starts at once with its first level, and goes from one event to the next: as long as the value is
  // held.
  lemma NextTime(w: Wave, k: nat)
    requires Valid(w)
    ensures TimeAt(w, 0) == 0 && ValueAt(w, 0) == w.startHigh && ValueAt(w, k + 1) == !ValueAt(w, k)
    ensures TimeAt(w, k + 1) == TimeAt(w, k) + (if ValueAt(w, k) then w.high else w.period - w.high)
    ensures TimeAt(w, k + 1) > TimeAt(w, k)
    ensures TimeAt(w, k + 2) == TimeAt(w, k) + w.period
  {
    Distribute(k / 2, w.period);
    assert (k + 2) / 2 == k / 2 + 1;
    if k % 2 == 0 {
      assert (k + 1) / 2 == k / 2;
    } else {
      assert (k + 1) / 2 == k / 2 + 1;
    }
  }

  lemma Distribute(a: int, b: int)
    ensures (a + 1) * b == a * b + b
  {
  }

  // ----- The drivers -----

  // The Python driver's loop, up to its n-th write.
  method Drive(w: Wave, n: nat) returns (events: seq<Event>)
    requires Valid(w)
    ensures events == Events(w, n)
  {
    events := [];
    var now := 0;
    if n == 0 {
      return;
    }
    if w.startHigh {
      events := events + [Event(now, true)];
      now := now + w.high;
      NextTime(w, 0);
    }
    while |events| < n
      invariant |events| <= n && now == TimeAt(w, |events|)
      invariant events == Events(w, |events|)
      invariant ValueAt(w, |events|) == false || |events| == n
      decreases n - |events|
    {
      NextTime(w, |events|);
      TimeNatural(w, |events|);
      events := events + [Event(now, false)];
      now := now + (w.period - w.high);
      if |events| == n {
        return;
      }
      NextTime(w, |events|);
      TimeNatural(w, |events|);
      events := events + [Event(now, true)];
      now := now + w.high;
    }
  }

  datatype Errno = Success | EBUSY | EINVAL | EAGAIN

  // The driver in C++; `toggleIn` is the delay of the registered toggle callback.
  class GpiClock {
    var period: nat
    var tHigh: nat
    var clkVal: bool
    var toggleIn: Option<nat>
    var signal: bool

    constructor ()
      ensures toggleIn == None
    {
      period, tHigh, clkVal, toggleIn, signal := 0, 0, false, None, false;
    }

    // `registers` says whether the simulator accepts the timed callback.
    method Start(periodSteps: nat, highSteps: nat, startHigh: bool, registers: bool) returns (r: Errno)
      modifies this
      ensures r == if old(toggleIn).Some? then EBUSY
        else if !Valid(Wave(periodSteps, highSteps, startHigh)) then EINVAL
        else if registers then Success else EAGAIN
      ensures r in {Success, EAGAIN} ==> period == periodSteps && tHigh == highSteps && clkVal == signal == startHigh
      ensures r.Success? ==> toggleIn == Some(if clkVal then tHigh else period - tHigh)
      ensures !r.Success? ==> toggleIn == old(toggleIn)
      ensures r in {EBUSY, EINVAL} ==> signal == old(signal)
    {
      if toggleIn.Some? {
        return EBUSY;
      }
      if periodSteps < 2 || highSteps < 1 || highSteps >= periodSteps {
        return EINVAL;
      }
      period, tHigh := periodSteps, highSteps;
      clkVal := startHigh;
      r := Toggle(true, registers);
    }

    // When the next toggle cannot be registered the clock stops, after this one.
    method Toggle(initialSet: bool, registers: bool) returns (r: Errno)
      requires tHigh < period
      modifies this
      ensures period == old(period) && tHigh == old(tHigh)
      ensures clkVal == signal == if initialSet then old(clkVal) else !old(clkVal)
      ensures toggleIn == if registers then Some(if clkVal then tHigh else period - tHigh) else None
      ensures r == if registers then Success else EAGAIN
    {
      if !initialSet {
        clkVal := !clkVal;
      }
      signal := clkVal;
      var toNextEdge := if clkVal then tHigh else period - tHigh;
      toggleIn := if registers then Some(toNextEdge) else None;
      return if registers then Success else EAGAIN;
    }

    // False when the clock was not running.
    method Stop() returns (stopped: bool)
      modifies this`toggleIn
      ensures toggleIn == None && stopped == old(toggleIn).Some?
    {
      stopped := toggleIn.Some?;
      toggleIn := None;
    }

    // The simulator runs the clock until its n-th write.
    method Emit(w: Wave, n: nat) returns (events: seq<Event>)
      requires Valid(w) && toggleIn == None && n >= 1
      modifies this
      ensures events == Events(w, n)
    {
      var started := Start(w.period, w.high, w.startHigh, true);
      var now := 0;
      events := [Event(0, signal)];
      NextTime(w, 0);
      while |events| < n
        invariant 1 <= |events| <= n && events == Events(w, |events|)
        invariant now == TimeAt(w, |events| - 1) && clkVal == ValueAt(w, |events| - 1)
        invariant period == w.period && tHigh == w.high
        invariant toggleIn == Some(if clkVal then tHigh else period - tHigh)
        decreases n - |events|
      {
        NextTime(w, |events| - 1);
        TimeNatural(w, |events|);
        now := now + toggleIn.value;
        var again := Toggle(false, true);
        events := events + [Event(now, signal)];
      }
    }
  }

  // Both drivers emit the same events, for every valid clock and for ever.
  method DriversAgree(w: Wave, n: nat) returns (python: seq<Event>, gpi: seq<Event>)
    requires Valid(w) && n >= 1
    ensures python == gpi == Events(w, n)
  {
    python := Drive(w, n);
    var clock := new GpiClock();
    gpi := clock.Emit(w, n);
  }

  // ----- Waiting -----

  datatype Edge = Rising | Falling | ValueChange

  predicate Matches(w: Wave, edge: Edge, k: nat) {
    match edge
    case Rising => ValueAt(w, k)
    case Falling => !ValueAt(w, k)
    case ValueChange => true
  }

  // A waiter's position is the number of events that have happened.  `await edge` resumes it after
  // the next matching one.
  function Await(w: Wave, edge: Edge, at: nat): (r: nat)
    ensures r > at && Matches(w, edge, r - 1)
    ensures forall k :: at <= k < r - 1 ==> !Matches(w, edge, k)
  {
    if Matches(w, edge, at) then at + 1 else at + 2
  }

  // n plain waits.
  function AwaitTimes(w: Wave, edge: Edge, at: nat, n: nat): nat
    decreases n
  {
    if n == 0 then at else AwaitTimes(w, edge, Await(w, edge, at), n - 1)
  }

  // `await Timer`: the events before `time` happen, those at `time` do not yet.
  function AwaitTime(w: Wave, at: nat, time: int): (r: nat)
    requires w.period >= 2 && 1 <= w.high < w.period
    decreases time - TimeAt(w, at)
  {
    NextTime(w, at);
    if TimeAt(w, at) < time then AwaitTime(w, at + 1, time) else at
  }

  lemma {:induction false} TimeShift(w: Wave, k: nat, m: nat)
    requires Valid(w)
    ensures TimeAt(w, k + 2 * m) == TimeAt(w, k) + m * w.period
  {
    if m > 0 {
      TimeShift(w, k, m - 1);
      NextTime(w, k + 2 * (m - 1));
      Distribute(m - 1, w.period);
    }
  }

  lemma {:induction false} TimeGrows(w: Wave, j: nat, k: nat)
    requires Valid(w) && j < k
    ensures TimeAt(w, j) < TimeAt(w, k)
    decreases k
  {
    NextTime(w, k - 1);
    if j < k - 1 {
      TimeGrows(w, j, k - 1);
    }
  }

  // A Timer for the time of an event stops just before that event.
  lemma {:induction false} TimerStopsBefore(w: Wave, at: nat, k: nat)
    requires Valid(w) && at <= k
    ensures AwaitTime(w, at, TimeAt(w, k)) == k
    decreases k - at
  {
    if at < k {
      TimeGrows(w, at, k);
      NextTime(w, at);
      TimerStopsBefore(w, at + 1, k);
    }
  }

  // From one matching event, n further waits end 2n or n events later.
  lemma {:induction false} AwaitTimesFrom(w: Wave, edge: Edge, j: nat, n: nat)
    requires Matches(w, edge, j)
    ensures AwaitTimes(w, edge, j + 1, n) == j + 1 + (if edge.ValueChange? then n else 2 * n)
    ensures Matches(w, edge, if edge.ValueChange? then j + n else j + 2 * n)
    decreases n
  {
    if n > 0 {
      var next := Await(w, edge, j + 1);
      assert next == if edge.ValueChange? then j + 2 else j + 3;
      AwaitTimesFrom(w, edge, next - 1, n - 1);
    }
  }

  // Sleeping `n` whole periods after a matching edge and waiting once more ends where `n` plain
  // waits end.
  lemma SleepingPeriodsIsExact(w: Wave, edge: Edge, j: nat, n: nat)
    requires Valid(w) && !edge.ValueChange? && Matches(w, edge, j) && n >= 1
    ensures AwaitTimes(w, edge, AwaitTime(w, j + 1, TimeAt(w, j) + w.period * n), 1) == AwaitTimes(w, edge, j + 1, n)
  {
    TimeShift(w, j, n);
    Commute(w.period, n);
    assert TimeAt(w, j) + w.period * n == TimeAt(w, j + 2 * n);
    TimerStopsBefore(w, j + 1, j + 2 * n);
    AwaitTimesFrom(w, edge, j, n);
    OneWait(w, edge, j + 2 * n);
  }

  lemma Commute(a: int, b: int)
    ensures a * b == b * a
  {
  }

  lemma OneWait(w: Wave, edge: Edge, at: nat)
    ensures AwaitTimes(w, edge, at, 1) == Await(w, edge, at)
  {
    assert AwaitTimes(w, edge, Await(w, edge, at), 0) == Await(w, edge, at);
  }

  // The same for every edge: an even number of changes is skipped, half as many periods.
  lemma SleepingChangesIsExact(w: Wave, j: nat, n: nat)
    requires Valid(w) && n >= 2
    ensures var skipped := n / 2 * 2;
      AwaitTimes(w, ValueChange, AwaitTime(w, j + 1, TimeAt(w, j) + w.period * skipped / 2), n - skipped + 1)
      == AwaitTimes(w, ValueChange, j + 1, n)
  {
    var m := n / 2;
    Halve(w.period, m);
    TimeShift(w, j, m);
    TimerStopsBefore(w, j + 1, j + 2 * m);
    AwaitTimesFrom(w, ValueChange, j, n);
    assert Await(w, ValueChange, j + 2 * m) == j + 2 * m + 1;
    AwaitTimesFrom(w, ValueChange, j + 2 * m, n - 2 * m);
  }

  // The Timer of `Clock.cycles`: where it ends, and how many waits are left.
  method Skip(w: Wave, edge: Edge, start: nat, numCycles: nat) returns (at: nat, todo: nat)
    requires Valid(w) && numCycles >= 2 && start >= 1 && Matches(w, edge, start - 1)
    ensures AwaitTimes(w, edge, at, todo) == AwaitTimes(w, edge, start, numCycles)
  {
    if edge.ValueChange? {
      SleepingChangesIsExact(w, start - 1, numCycles);
      var skipped := numCycles / 2 * 2;
      at := AwaitTime(w, start, TimeAt(w, start - 1) + w.period * skipped / 2);
      todo := numCycles - skipped + 1;
    } else {
      SleepingPeriodsIsExact(w, edge, start - 1, numCycles);
      at := AwaitTime(w, start, TimeAt(w, start - 1) + w.period * numCycles);
      todo := 1;
    }
  }

  // `Clock.cycles`: synchronize, skip whole periods with one Timer when it is worth it, and wait for
  // the rest.  It ends on the same event as n plain waits; a negative number is refused.
  method Cycles(w: Wave, numCycles: int, edge: Edge, start: nat) returns (r: Option<nat>)
    requires Valid(w)
    ensures numCycles < 0 <==> r.None?
    ensures numCycles >= 0 ==> r == Some(AwaitTimes(w, edge, start, numCycles))
  {
    if numCycles == 0 {
      return Some(start);
    } else if numCycles < 0 {
      return None;
    }
    var at := Await(w, edge, start);
    var todo := numCycles - 1;
    ghost var final := AwaitTimes(w, edge, at, todo);
    if todo >= 2 {
      at, todo := Skip(w, edge, at, todo);
    }
    for i := 0 to todo
      invariant AwaitTimes(w, edge, at, todo - i) == final
    {
      at := Await(w, edge, at);
    }
    return Some(at);
  }

  lemma Halve(period: nat, m: nat)
    ensures period * (m * 2) / 2 == m * period
  {
    assert period * (m * 2) == 2 * (m * period);
  }
}
