/**
 Writes to signals: deposits made outside the ReadWrite phase are kept, the last one per handle, and
 applied when ReadWrite fires.
 */
module DeferredWrites {
  datatype Write = Write(handle: nat, value: int)

  type Signals = map<nat, int>

  // `pending` is the insertion-ordered dict `_write_calls`; `primed` is `_apply_writes_cb is not None`.
  datatype State = State(
    signals: Signals,
    pending: seq<Write>,
    primed: bool,
    inReadWrite: bool,
    program: seq<Write>)  // history: every write, in program order

  function Init(signals: Signals): State {
    State(signals, [], false, false, [])
  }

  // ----- The operations -----

  // Writing in order.
  function Replay(m: Signals, ws: seq<Write>): Signals
    decreases |ws|
  {
    if ws == [] then m else Replay(m[ws[0].handle := ws[0].value], ws[1..])
  }

  // `dict.pop(handle, None)`
  function Pop(ws: seq<Write>, h: nat): (r: seq<Write>)
    ensures forall w :: w in r <==> w in ws && w.handle != h
  {
    if ws == [] then []
    else if ws[0].handle == h then Pop(ws[1..], h)
    else [ws[0]] + Pop(ws[1..], h)
  }

  // `_schedule_write`
  function ScheduleWrite(s: State, w: Write, deposit: bool): State {
    var s1 := s.(program := s.program + [w]);
    if s.inReadWrite || !deposit then s1.(signals := s.signals[w.handle := w.value])
    else s1.(pending := Pop(s.pending, w.handle) + [w], primed := true)
  }

  // ReadWrite fires, and `_apply_scheduled_writes` runs first.
  function FireReadWrite(s: State): State {
    s.(inReadWrite := true, signals := Replay(s.signals, s.pending), pending := [], primed := false)
  }

  // Any other simulator trigger fires.
  function FireOther(s: State): State {
    s.(inReadWrite := false)
  }

  // ----- Runs -----

  datatype Step = Deposit(w: Write) | Immediate(w: Write) | ReadWrite | Other

  function Next(s: State, p: Step): State {
    match p
    case Deposit(w) => ScheduleWrite(s, w, true)
    case Immediate(w) => ScheduleWrite(s, w, false)
    case ReadWrite => FireReadWrite(s)
    case Other => FireOther(s)
  }

  function Exec(s: State, ps: seq<Step>): State
    decreases |ps|
  {
    if ps == [] then s else Exec(Next(s, ps[0]), ps[1..])
  }

  // ----- The invariant -----

  ghost predicate DistinctHandles(ws: seq<Write>) {
    forall i, j :: 0 <= i < j < |ws| ==> ws[i].handle != ws[j].handle
  }

  ghost predicate Valid(s: State) {
    && DistinctHandles(s.pending)
    && (s.primed <==> s.pending != [])
    && (s.inReadWrite ==> s.pending == [])
  }

  // The signals, once the pending writes are applied, are what program order says.
  ghost predicate Faithful(s: State, initial: Signals) {
    Replay(s.signals, s.pending) == Replay(initial, s.program)
  }

  lemma {:induction false} ReplayAppend(m: Signals, ws: seq<Write>, w: Write)
    ensures Replay(m, ws + [w]) == Replay(m, ws)[w.handle := w.value]
    decreases |ws|
  {
    if ws == [] {
      assert ([w])[1..] == [];
    } else {
      ReplayAppend(m[ws[0].handle := ws[0].value], ws[1..], w);
      assert (ws + [w])[1..] == ws[1..] + [w];
    }
  }

  // Writes to `h` make no difference if `h` is written afterwards.
  lemma {:induction false} ReplayPop(m: Signals, n: Signals, ws: seq<Write>, h: nat, v: int)
    requires m[h := v] == n[h := v]
    ensures Replay(m, ws)[h := v] == Replay(n, Pop(ws, h))[h := v]
    decreases |ws|
  {
    if ws != [] {
      var m1 := m[ws[0].handle := ws[0].value];
      var n1 := if ws[0].handle == h then n else n[ws[0].handle := ws[0].value];
      assert m1[h := v] == n1[h := v] by {
        if ws[0].handle == h {
          assert m1[h := v] == m[h := v];
        } else {
          assert m1[h := v] == m[h := v][ws[0].handle := ws[0].value];
          assert n1[h := v] == n[h := v][ws[0].handle := ws[0].value];
        }
      }
      ReplayPop(m1, n1, ws[1..], h, v);
      if ws[0].handle != h {
        assert Pop(ws, h)[1..] == Pop(ws[1..], h);
      }
    }
  }

  lemma {:induction false} PopKeepsDistinct(ws: seq<Write>, h: nat)
    requires DistinctHandles(ws)
    ensures DistinctHandles(Pop(ws, h))
  {
    if ws != [] {
      PopKeepsDistinct(ws[1..], h);
      assert forall w :: w in ws[1..] ==> w.handle != ws[0].handle;
    }
  }

  lemma StepKeepsValid(s: State, p: Step)
    requires Valid(s)
    ensures Valid(Next(s, p))
  {
    if p.Deposit? && !s.inReadWrite {
      PopKeepsDistinct(s.pending, p.w.handle);
      assert forall w :: w in Pop(s.pending, p.w.handle) ==> w.handle != p.w.handle;
    }
  }

  lemma StepKeepsFaithful(s: State, p: Step, initial: Signals)
    requires Valid(s) && Faithful(s, initial) && (p.Immediate? ==> s.inReadWrite)
    ensures Faithful(Next(s, p), initial)
  {
    match p
    case Deposit(w) =>
      ReplayAppend(initial, s.program, w);
      if !s.inReadWrite {
        ReplayAppend(s.signals, Pop(s.pending, w.handle), w);
        ReplayPop(s.signals, s.signals, s.pending, w.handle, w.value);
      }
    case Immediate(w) => ReplayAppend(initial, s.program, w);
    case ReadWrite =>
    case Other =>
  }

  // ----- What is promised -----

  lemma {:induction false} RunKeepsValid(s: State, ps: seq<Step>)
    requires Valid(s)
    ensures Valid(Exec(s, ps))
    decreases |ps|
  {
    if ps != [] {
      StepKeepsValid(s, ps[0]);
      RunKeepsValid(Next(s, ps[0]), ps[1..]);
    }
  }

  // A step is orderly unless it writes at once while a deposit of another value to its signal is pending.
  ghost predicate StepOrderly(s: State, p: Step) {
    p.Immediate? && !s.inReadWrite ==>
      forall i :: 0 <= i < |s.pending| && s.pending[i].handle == p.w.handle ==> s.pending[i].value == p.w.value
  }

  ghost predicate Orderly(s: State, ps: seq<Step>)
    decreases |ps|
  {
    ps == [] || (StepOrderly(s, ps[0]) && Orderly(Next(s, ps[0]), ps[1..]))
  }

  ghost predicate AlwaysFaithful(s: State, ps: seq<Step>, initial: Signals)
    decreases |ps|
  {
    Faithful(s, initial) && (ps == [] || AlwaysFaithful(Next(s, ps[0]), ps[1..], initial))
  }

  lemma StepFaithfulIff(s: State, p: Step, initial: Signals)
    requires Valid(s) && Faithful(s, initial)
    ensures Faithful(Next(s, p), initial) <==> StepOrderly(s, p)
  {
    if p.Immediate? && !s.inReadWrite {
      ImmediateKeepsOrderIff(s, p.w, initial);
    } else {
      StepKeepsFaithful(s, p, initial);
    }
  }

  // Over any run the signals follow program order throughout if and only if every step is orderly.
  lemma {:induction false} FaithfulIffOrderly(s: State, ps: seq<Step>, initial: Signals)
    requires Valid(s) && Faithful(s, initial)
    ensures AlwaysFaithful(s, ps, initial) <==> Orderly(s, ps)
    ensures Orderly(s, ps) ==> Faithful(Exec(s, ps), initial)
    decreases |ps|
  {
    if ps != [] {
      StepKeepsValid(s, ps[0]);
      StepFaithfulIff(s, ps[0], initial);
      if StepOrderly(s, ps[0]) {
        FaithfulIffOrderly(Next(s, ps[0]), ps[1..], initial);
      }
    }
  }

  // Over any run: at most one pending write per handle, ReadWrite is primed exactly when some write
  // is pending, and none is pending in the ReadWrite phase.
  lemma PendingIsPrimed(initial: Signals, ps: seq<Step>)
    ensures var s := Exec(Init(initial), ps);
      DistinctHandles(s.pending) && (s.primed <==> s.pending != []) && (s.inReadWrite ==> s.pending == [])
  {
    RunKeepsValid(Init(initial), ps);
  }

  // Is the simulator in the ReadWrite phase after these steps?
  predicate InPhase(ps: seq<Step>) {
    ps != [] && (ps[|ps| - 1].ReadWrite? || (!ps[|ps| - 1].Other? && InPhase(ps[..|ps| - 1])))
  }

  // The deposits made since ReadWrite last fired, outside of its phase.
  function Deferred(ps: seq<Step>): seq<Write> {
    if ps == [] || ps[|ps| - 1].ReadWrite? then []
    else
      var front, p := ps[..|ps| - 1], ps[|ps| - 1];
      Deferred(front) + if p.Deposit? && !InPhase(front) then [p.w] else []
  }

  // The writes that no later one to the same handle follows, in order.
  function Latest(ws: seq<Write>): seq<Write> {
    if ws == [] then []
    else if Touches(ws[1..], ws[0].handle) then Latest(ws[1..])
    else [ws[0]] + Latest(ws[1..])
  }

  predicate Touches(ws: seq<Write>, h: nat) {
    exists i :: 0 <= i < |ws| && ws[i].handle == h
  }

  // The pending writes are the last deposit for each handle since ReadWrite last fired, oldest first.
  lemma {:induction false} PendingIsOldestFirst(initial: Signals, ps: seq<Step>)
    ensures var s := Exec(Init(initial), ps); s.pending == Latest(Deferred(ps)) && (s.inReadWrite <==> InPhase(ps))
    decreases |ps|
  {
    if ps != [] {
      var front, p := ps[..|ps| - 1], ps[|ps| - 1];
      PendingIsOldestFirst(initial, front);
      LastStep(Init(initial), ps);
      if p.Deposit? { LatestAppend(Deferred(front), p.w); }
      assert Deferred(front) + [] == Deferred(front);
    }
  }

  lemma {:induction false} LastStep(s: State, ps: seq<Step>)
    requires ps != []
    ensures Exec(s, ps) == Next(Exec(s, ps[..|ps| - 1]), ps[|ps| - 1])
    decreases |ps|
  {
    if |ps| > 1 {
      LastStep(Next(s, ps[0]), ps[1..]);
      assert ps[1..][..|ps| - 2] == ps[..|ps| - 1][1..];
    }
  }

  lemma {:induction false} LatestAppend(ws: seq<Write>, w: Write)
    ensures Latest(ws + [w]) == Pop(Latest(ws), w.handle) + [w]
  {
    if ws == [] {
      assert ([w])[1..] == [];
    } else {
      var x, rest := ws[0], ws[1..];
      LatestAppend(rest, w);
      TouchesAppend(rest, w, x.handle);
      assert (ws + [w])[0] == x && (ws + [w])[1..] == rest + [w];
      if !Touches(rest, x.handle) {
        assert ([x] + Latest(rest))[1..] == Latest(rest);
        if x.handle != w.handle {
          assert [x] + (Pop(Latest(rest), w.handle) + [w]) == [x] + Pop(Latest(rest), w.handle) + [w];
        }
      }
    }
  }

  lemma TouchesAppend(ws: seq<Write>, w: Write, h: nat)
    ensures Touches(ws + [w], h) <==> Touches(ws, h) || w.handle == h
  {
    if i :| 0 <= i < |ws| && ws[i].handle == h {
      assert (ws + [w])[i].handle == h;
    }
    assert (ws + [w])[|ws|] == w;
  }

  // For any interleaving of deposits, orderly immediate writes and firings: whenever ReadWrite has fired,
  // the signals are what replaying every write in program order gives, although only the last deposit
  // per handle was kept.
  lemma CoalescingPreservesMeaning(initial: Signals, ps: seq<Step>)
    requires Orderly(Init(initial), ps)
    ensures var s := FireReadWrite(Exec(Init(initial), ps));
      s.signals == Replay(initial, s.program) == Replay(initial, Writes(ps))
  {
    FaithfulIffOrderly(Init(initial), ps, initial);
    ProgramIsWrites(Init(initial), ps);
    assert [] + Writes(ps) == Writes(ps);
  }

  // Deposits alone are always orderly,
  lemma {:induction false} DepositsAreOrderly(s: State, ps: seq<Step>)
    requires forall i :: 0 <= i < |ps| ==> !ps[i].Immediate?
    ensures Orderly(s, ps)
    decreases |ps|
  {
    if ps != [] {
      DepositsAreOrderly(Next(s, ps[0]), ps[1..]);
    }
  }

  // so a program that only deposits can be coalesced whenever it was written.
  lemma DepositsCoalesce(initial: Signals, ps: seq<Step>)
    requires forall i :: 0 <= i < |ps| ==> !ps[i].Immediate?
    ensures FireReadWrite(Exec(Init(initial), ps)).signals == Replay(initial, Writes(ps))
  {
    DepositsAreOrderly(Init(initial), ps);
    CoalescingPreservesMeaning(initial, ps);
  }

  function Writes(ps: seq<Step>): seq<Write>
    decreases |ps|
  {
    if ps == [] then []
    else (if ps[0].Deposit? || ps[0].Immediate? then [ps[0].w] else []) + Writes(ps[1..])
  }

  lemma {:induction false} ProgramIsWrites(s: State, ps: seq<Step>)
    ensures Exec(s, ps).program == s.program + Writes(ps)
    decreases |ps|
  {
    if ps != [] {
      ProgramIsWrites(Next(s, ps[0]), ps[1..]);
      var first := if ps[0].Deposit? || ps[0].Immediate? then [ps[0].w] else [];
      assert Next(s, ps[0]).program == s.program + first;
      assert s.program + first + Writes(ps[1..]) == s.program + (first + Writes(ps[1..]));
    }
  }

  // A deposit, and then an immediate write of another value to the same signal: the deposit wins.
  lemma AnImmediateWriteIsUndone(h: nat, v: int, w: int)
    requires v != w
    ensures var ps := [Deposit(Write(h, v)), Immediate(Write(h, w)), ReadWrite];
      && Exec(Init(map[]), ps).signals == map[h := v]
      && Replay(map[], Writes(ps)) == map[h := w]
  {
    var a, b := Write(h, v), Write(h, w);
    var s1 := Next(Init(map[]), Deposit(a));
    assert s1.pending == [a];
    var s2 := Next(s1, Immediate(b));
    var s3 := Next(s2, ReadWrite);
    assert Replay(s2.signals, [a]) == s2.signals[h := v] by { assert [a][1..] == []; }
    var ps := [Deposit(a), Immediate(b), ReadWrite];
    assert ps[1..][1..][1..] == [] && ps[1..][1..][0] == ReadWrite && ps[1..][0] == Immediate(b);
    assert Exec(s2, ps[1..][1..]) == s3 && Exec(s1, ps[1..]) == s3;
    TwoWrites(a, b);
  }

  lemma TwoWrites(a: Write, b: Write)
    requires a.handle == b.handle
    ensures Replay(map[], Writes([Deposit(a), Immediate(b), ReadWrite])) == map[b.handle := b.value]
  {
    var ps := [Deposit(a), Immediate(b), ReadWrite];
    assert ps[1..] == [Immediate(b), ReadWrite] && [Immediate(b), ReadWrite][1..] == [ReadWrite];
    assert [ReadWrite][1..] == [] && Writes([ReadWrite]) == [];
    assert Writes(ps[1..]) == [b] && Writes(ps) == [a, b];
    assert [a, b][1..] == [b] && [b][1..] == [];
    assert Replay(map[][a.handle := a.value], [b]) == map[b.handle := b.value];
  }

  // An immediate write outside the ReadWrite phase respects program order exactly when no deposit of
  // another value to the same handle is pending: a pending one would overwrite it later.
  lemma ImmediateKeepsOrderIff(s: State, w: Write, initial: Signals)
    requires Valid(s) && Faithful(s, initial) && !s.inReadWrite
    ensures Faithful(Next(s, Immediate(w)), initial) <==>
      forall i :: 0 <= i < |s.pending| && s.pending[i].handle == w.handle ==> s.pending[i].value == w.value
  {
    var r := Next(s, Immediate(w));
    ReplayAppend(initial, s.program, w);
    assert Replay(initial, r.program) == Replay(s.signals, s.pending)[w.handle := w.value];
    if i :| 0 <= i < |s.pending| && s.pending[i].handle == w.handle {
      ReplayAt(s.signals, s.pending, i);
      ReplayAt(r.signals, s.pending, i);
      ReplayOver(s.signals, s.pending, w.handle, w.value);
    } else {
      ReplayOther(s.signals, s.pending, w.handle, w.value);
    }
  }

  lemma {:induction false} ReplayOther(m: Signals, ws: seq<Write>, h: nat, v: int)
    requires forall i :: 0 <= i < |ws| ==> ws[i].handle != h
    ensures Replay(m[h := v], ws) == Replay(m, ws)[h := v]
    decreases |ws|
  {
    if ws != [] {
      assert m[h := v][ws[0].handle := ws[0].value] == m[ws[0].handle := ws[0].value][h := v];
      ReplayOther(m[ws[0].handle := ws[0].value], ws[1..], h, v);
    }
  }

  lemma {:induction false} ReplayAt(m: Signals, ws: seq<Write>, i: nat)
    requires i < |ws| && DistinctHandles(ws)
    ensures ws[i].handle in Replay(m, ws) && Replay(m, ws)[ws[i].handle] == ws[i].value
    decreases |ws|
  {
    if i == 0 {
      ReplayKeeps(m[ws[0].handle := ws[0].value], ws[1..], ws[0].handle);
    } else {
      ReplayAt(m[ws[0].handle := ws[0].value], ws[1..], i - 1);
    }
  }

  lemma {:induction false} ReplayKeeps(m: Signals, ws: seq<Write>, h: nat)
    requires h in m && forall i :: 0 <= i < |ws| ==> ws[i].handle != h
    ensures h in Replay(m, ws) && Replay(m, ws)[h] == m[h]
    decreases |ws|
  {
    if ws != [] {
      ReplayKeeps(m[ws[0].handle := ws[0].value], ws[1..], h);
    }
  }

  // Up to the value at `h`, an earlier write to `h` changes nothing.
  lemma {:induction false} ReplayOver(m: Signals, ws: seq<Write>, h: nat, v: int)
    ensures Replay(m[h := v], ws)[h := v] == Replay(m, ws)[h := v]
    decreases |ws|
  {
    ReplayPop(m[h := v], m, ws, h, v);
    ReplayPop(m, m, ws, h, v);
  }

  // ----- The program -----

  class WriteScheduler {
    var signals: Signals
    var writeCalls: seq<Write>
    var applyWritesCb: bool
    var inReadWrite: bool
    const trustInertial: bool
    ghost var program: seq<Write>

    ghost function Snapshot(): State
      reads this
    {
      State(signals, writeCalls, applyWritesCb, inReadWrite, program)
    }

    constructor (signals: Signals, trustInertial: bool)
      ensures Snapshot() == Init(signals) && this.trustInertial == trustInertial
    {
      this.signals := signals;
      writeCalls, applyWritesCb, inReadWrite, program := [], false, false, [];
      this.trustInertial := trustInertial;
    }

    method WriteNow(w: Write)
      modifies this`signals
      ensures signals == old(signals)[w.handle := w.value]
    {
      signals := signals[w.handle := w.value];
    }

    method Schedule(w: Write, deposit: bool)
      requires Valid(Snapshot())
      modifies this
      ensures !trustInertial ==> Snapshot() == ScheduleWrite(old(Snapshot()), w, deposit)
      ensures trustInertial ==> Snapshot() == old(Snapshot()).(signals := old(signals)[w.handle := w.value],
        program := old(program) + [w])
    {
      program := program + [w];
      if trustInertial || inReadWrite {
        WriteNow(w);
      } else if deposit {
        writeCalls := Pop(writeCalls, w.handle);
        writeCalls := writeCalls + [w];
        if !applyWritesCb {
          applyWritesCb := true;
        }
      } else {
        WriteNow(w);
      }
    }

    method ApplyScheduledWrites()
      modifies this
      ensures Snapshot() == old(Snapshot()).(signals := Replay(old(signals), old(writeCalls)), pending := [],
        primed := false)
    {
      var i := 0;
      while i < |writeCalls|
        invariant i <= |writeCalls| && writeCalls == old(writeCalls)
        invariant Replay(signals, writeCalls[i..]) == Replay(old(signals), writeCalls)
        invariant Snapshot() == old(Snapshot()).(signals := signals)
      {
        assert writeCalls[i..][1..] == writeCalls[i + 1..];
        WriteNow(writeCalls[i]);
        i := i + 1;
      }
      writeCalls := [];
      applyWritesCb := false;
    }

    method ReadWriteFires()
      modifies this
      ensures Snapshot() == FireReadWrite(old(Snapshot()))
    {
      inReadWrite := true;
      ApplyScheduledWrites();
    }
  }

  // A scheduler that trusts the simulator writes at once; whenever ReadWrite has fired, both kinds
  // have left the same signals.
  lemma TrustingWritesAgree(initial: Signals, ps: seq<Step>)
    requires Orderly(Init(initial), ps)
    ensures FireReadWrite(Exec(Init(initial), ps)).signals == TrustingExec(initial, ps)
  {
    CoalescingPreservesMeaning(initial, ps);
    TrustingReplays(initial, ps);
  }

  function TrustingExec(m: Signals, ps: seq<Step>): Signals
    decreases |ps|
  {
    if ps == [] then m
    else TrustingExec(if ps[0].Deposit? || ps[0].Immediate? then m[ps[0].w.handle := ps[0].w.value] else m, ps[1..])
  }

  lemma {:induction false} TrustingReplays(m: Signals, ps: seq<Step>)
    ensures TrustingExec(m, ps) == Replay(m, Writes(ps))
    decreases |ps|
  {
    if ps != [] {
      if ps[0].Deposit? || ps[0].Immediate? {
        TrustingReplays(m[ps[0].w.handle := ps[0].w.value], ps[1..]);
        assert Writes(ps) == [ps[0].w] + Writes(ps[1..]);
      } else {
        TrustingReplays(m, ps[1..]);
        assert Writes(ps) == Writes(ps[1..]);
      }
    }
  }
}
