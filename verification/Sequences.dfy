/** Insertion-ordered dicts and deques as sequences, shared by the other modules. */
module Sequences {

  function Without<T(==)>(s: seq<T>, x: T): (r: seq<T>)
    ensures forall y :: y in r ==> y in s && y != x
    ensures forall y :: y in s && y != x ==> y in r
    ensures |r| <= |s|
  {
    if s == [] then []
    else if s[0] == x then Without(s[1..], x)
    else [s[0]] + Without(s[1..], x)
  }

  lemma {:induction false} WithoutAbsent<T>(s: seq<T>, x: T)
    requires x !in s
    ensures Without(s, x) == s
  {
    if s != [] {
      WithoutAbsent(s[1..], x);
    }
  }

  lemma Assoc<T>(a: seq<T>, b: seq<T>, c: seq<T>)
    ensures a + b + c == a + (b + c)
  {
  }

  lemma WithoutHead<T>(y: T, s: seq<T>, x: T)
    ensures Without([y] + s, x) == if y == x then Without(s, x) else [y] + Without(s, x)
  {
    assert ([y] + s)[1..] == s;
  }

  lemma {:induction false} WithoutConcat<T>(a: seq<T>, b: seq<T>, x: T)
    ensures Without(a + b, x) == Without(a, x) + Without(b, x)
  {
    if a == [] {
      assert a + b == b;
    } else {
      var y, rest := a[0], a[1..];
      WithoutConcat(rest, b, x);
      assert a == [y] + rest;
      Assoc([y], rest, b);
      WithoutHead(y, rest, x);
      WithoutHead(y, rest + b, x);
      Assoc([y], Without(rest, x), Without(b, x));
    }
  }

  lemma WithoutAppend<T>(a: seq<T>, y: T, x: T)
    ensures Without(a + [y], x) == if y == x then Without(a, x) else Without(a, x) + [y]
  {
    WithoutConcat(a, [y], x);
    assert Without([y], x) == if y == x then [] else [y];
  }

  lemma WithoutMiddle<T>(a: seq<T>, x: T, b: seq<T>)
    requires x !in a && x !in b
    ensures Without(a + [x] + b, x) == a + b
  {
    WithoutConcat(a + [x], b, x);
    WithoutAppend(a, x, x);
    WithoutAbsent(a, x);
    WithoutAbsent(b, x);
  }

  // In a sequence whose other entries differ from the k-th, it takes out just that one.
  lemma WithoutAt<T>(s: seq<T>, k: nat)
    requires k < |s| && forall i :: 0 <= i < |s| && i != k ==> s[i] != s[k]
    ensures Without(s, s[k]) == s[..k] + s[k + 1..]
  {
    var a, b := s[..k], s[k + 1..];
    assert s[k] !in a;
    assert s[k] !in b by {
      forall i | 0 <= i < |b| ensures b[i] == s[k + 1 + i] {
      }
    }
    WithoutMiddle(a, s[k], b);
    assert s == a + [s[k]] + b;
  }

  function Reverse<T>(s: seq<T>): (r: seq<T>)
    ensures |r| == |s| && forall i :: 0 <= i < |s| ==> r[i] == s[|s| - 1 - i]
  {
    if s == [] then [] else Reverse(s[1..]) + [s[0]]
  }

  ghost predicate Distinct(s: seq<nat>) {
    forall i, j :: 0 <= i < j < |s| ==> s[i] != s[j]
  }

  lemma {:induction false} WithoutDistinct(s: seq<nat>, x: nat)
    requires Distinct(s)
    ensures Distinct(Without(s, x))
  {
    if s != [] {
      WithoutDistinct(s[1..], x);
      var r := Without(s[1..], x);
      assert forall i :: 0 <= i < |r| ==> r[i] in s[1..];
      assert s[0] !in s[1..];
    }
  }

  ghost predicate Ascending(ts: seq<nat>) {
    forall i, j :: 0 <= i < j < |ts| ==> ts[i] < ts[j]
  }

  lemma {:induction false} WithoutAscending(ts: seq<nat>, x: nat)
    requires Ascending(ts)
    ensures Ascending(Without(ts, x))
  {
    if ts != [] {
      WithoutAscending(ts[1..], x);
      var r := Without(ts[1..], x);
      assert forall i :: 0 <= i < |r| ==> r[i] in ts[1..];
      assert forall y :: y in ts[1..] ==> ts[0] < y;
    }
  }

  // What comes before the first entry in `stops`.
  function Before(ts: seq<nat>, stops: set<nat>): (r: seq<nat>)
    ensures r <= ts && forall i :: 0 <= i < |r| ==> r[i] !in stops
    ensures |r| < |ts| ==> ts[|r|] in stops
  {
    if ts == [] || ts[0] in stops then [] else [ts[0]] + Before(ts[1..], stops)
  }

  // In an ascending sequence that splits it.
  lemma BeforeSplits(ts: seq<nat>, stops: set<nat>)
    requires Ascending(ts)
    ensures var n := |Before(ts, stops)|;
      && Ascending(Before(ts, stops))
      && forall t :: t in ts ==> (t in Before(ts, stops) <==> t !in ts[n..])
    ensures Before(ts, stops) == ts <==> forall t :: t in ts ==> t !in stops
  {
    var r, n := Before(ts, stops), |Before(ts, stops)|;
    assert ts == r + ts[n..];
    forall i, j | 0 <= i < n && 0 <= j < |ts[n..]| ensures r[i] != ts[n..][j] {
      assert ts[i] < ts[n + j];
    }
  }

  lemma NothingSpared(ts: seq<nat>, stops: set<nat>)
    ensures |Before(ts, stops)| == |ts| <==> !exists t :: t in ts && t in stops
  {
    var r := Before(ts, stops);
    if |r| == |ts| {
      assert r == ts;
    } else {
      assert ts[|r|] in ts;
    }
  }

  // One more for each entry of `ts`.
  function CountEach(counts: seq<nat>, ts: seq<nat>): (r: seq<nat>)
    ensures |r| == |counts|
    decreases |ts|
  {
    if ts == [] then counts
    else if ts[0] < |counts| then CountEach(counts[ts[0] := counts[ts[0]] + 1], ts[1..])
    else CountEach(counts, ts[1..])
  }

  lemma {:induction false} CountEachCounts(counts: seq<nat>, ts: seq<nat>)
    requires Ascending(ts) && forall i :: 0 <= i < |ts| ==> ts[i] < |counts|
    ensures forall t :: 0 <= t < |counts| ==> CountEach(counts, ts)[t] == counts[t] + (if t in ts then 1 else 0)
    decreases |ts|
  {
    if ts != [] {
      CountEachCounts(counts[ts[0] := counts[ts[0]] + 1], ts[1..]);
      assert forall t :: t in ts <==> t == ts[0] || t in ts[1..];
      assert ts[0] !in ts[1..];
    }
  }
}
