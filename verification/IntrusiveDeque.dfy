/**
 The intrusive deque: a circular doubly linked list through an anchor.  Nodes are linked into it
 without being owned by it, and leave it without naming it.

 Every operation is proved for a `world` of deques that share one heap: all rings stay well formed
 and pairwise disjoint, and only the intended contents change.
 */
module IntrusiveDeque {
  import opened Sequences

  class Node {
    var prev: Node
    var next: Node

    constructor ()
      ensures Detached()
    {
      prev := this;
      next := this;
    }

    predicate Detached()
      reads this
    {
      prev == this && next == this
    }

    // The pointer surgery of `deque_remove`, on its own.
    method Unlink()
      requires prev != this
      modifies this, prev, next
      ensures Detached()
      ensures forall m :: (m == old(prev) || m == old(next)) && m != this ==>
        && m.next == (if m == old(prev) then old(next) else old(m.next))
        && m.prev == (if m == old(next) then old(prev) else old(m.prev))
    {
      prev.next := next;
      next.prev := prev;
      prev := this;
      next := this;
    }

    // Takes this node out of whichever deque holds it.  A node that no deque holds, but that was left
    // with its old links by a bare `clear`, does no harm exactly when its neighbours in the rings
    // are still each other's neighbours.
    method DequeRemove(ghost world: set<Deque>)
      requires WellFormed(world) && this !in Anchors(world)
      modifies this, prev, next, world
      ensures prev == this && (old(prev) == this ==> next == old(next)) && (old(prev) != this ==> next == this)
      ensures WellFormed(world) <==> old(this in Members(world) || Harmless(this, world))
      ensures forall d :: d in world ==> d.entries == Without(old(d.entries), this)
    {
      if prev == this {
        NotAMember(world, this);
      }
      if this !in Members(world) {
        forall d | d in world ensures d.entries == Without(d.entries, this) {
          WithoutAbsent(d.entries, this);
        }
      }
      if prev == this {
        return;
      }
      ghost var member := this in Members(world);
      ghost var d: Deque? := null;
      ghost var k := 0;
      if member {
        d :| d in world && this in d.entries;
        k := d.Find(this);
        d.Neighbours(k);
      }
      Unlink();
      if member {
        d.entries := d.entries[..k] + d.entries[k + 1..];
        EntryRemoved(world, d, k);
        OnlyThere(world, d, k);
      } else {
        StaleLinks(this, world);
      }
    }

    // It was in one deque only, and once.
    twostate lemma OnlyThere(new world: set<Deque>, new d: Deque, k: nat)
      requires old(allocated(world)) && old(WellFormed(world)) && d in world
      requires k < |old(d.entries)| && old(d.entries)[k] == this
      requires d.entries == old(d.entries)[..k] + old(d.entries)[k + 1..]
      requires forall e :: e in world && e != d ==> e.entries == old(e.entries)
      ensures forall e :: e in world ==> e.entries == Without(old(e.entries), this)
    {
      WithoutAt(old(d.entries), k);
      forall e | e in world && e != d ensures e.entries == Without(old(e.entries), this) {
        assert old(Apart(d, e)) && this in old(d.Nodes());
        WithoutAbsent(e.entries, this);
      }
    }

    twostate lemma EntryRemoved(new world: set<Deque>, new d: Deque, k: nat)
      requires old(allocated(world)) && old(WellFormed(world)) && d in world
      requires k < |old(d.entries)| && old(d.entries)[k] == this
      requires d.entries == old(d.entries)[..k] + old(d.entries)[k + 1..]
      requires forall e :: e in world && e != d ==> e.entries == old(e.entries)
      requires forall e, m :: e in world && m in old(e.Nodes()) && m != this ==>
        && m.next == (if m == old(prev) then old(next) else old(m.next))
        && m.prev == (if m == old(next) then old(prev) else old(m.prev))
      ensures WellFormed(world)
    {
      assert old(d.Linked(k)) && old(d.Linked(k + 1));
      d.RemovedAt(k);
      OthersKept(world, {d}, old(d.Nodes()));
    }

    method RemoveEntry(ghost world: set<Deque>, ghost d: Deque, ghost k: nat)
      requires WellFormed(world) && d in world && k < |d.entries| && d.entries[k] == this
      modifies this, prev, next, d
      ensures WellFormed(world) && Detached()
      ensures d.entries == old(d.entries)[..k] + old(d.entries)[k + 1..]
    {
      ghost var pool := d.Nodes();
      d.Neighbours(k);
      Unlink();
      d.entries := d.entries[..k] + d.entries[k + 1..];
      d.RemovedAt(k);
      OthersKept(world, {d}, pool);
    }
  }

  // The links of a node that no deque holds.
  ghost predicate Harmless(n: Node, world: set<Deque>)
    reads n, n.prev, n.next, world
  {
    n.prev == n ||
    ((n.prev in Rings(world) ==> n.prev.next == n.next) && (n.next in Rings(world) ==> n.next.prev == n.prev))
  }

  ghost function Rings(world: set<Deque>): set<Node>
    reads world
  {
    Members(world) + Anchors(world)
  }

  twostate lemma StaleLinks(n: Node, new world: set<Deque>)
    requires old(allocated(world)) && old(WellFormed(world)) && old(n !in Rings(world)) && old(n.prev) != n
    requires forall d :: d in world ==> d.entries == old(d.entries)
    requires forall m :: m in old(Rings(world)) ==>
      && m.next == (if m == old(n.prev) then old(n.next) else old(m.next))
      && m.prev == (if m == old(n.next) then old(n.prev) else old(m.prev))
    ensures WellFormed(world) <==> old(Harmless(n, world))
  {
    if old(Harmless(n, world)) {
      forall d, m | d in world && m in old(d.Nodes()) ensures Same(m) {
        assert m in old(Rings(world));
      }
      OthersKept(world, {}, {});
    } else if WellFormed(world) {
      forall m | m in old(Rings(world)) ensures Same(m) {
        var d :| d in world && m in old(d.Nodes());
        RingIsFixed(d, m);
      }
    }
  }

  // The links of a ring's nodes are determined by its entries.
  twostate lemma RingIsFixed(new d: Deque, m: Node)
    requires old(allocated(d)) && old(d.Valid()) && d.Valid() && m in old(d.Nodes()) && d.entries == old(d.entries)
    ensures Same(m)
  {
    var n := |d.entries|;
    if m == d.anchor {
      assert d.Linked(0) && d.Linked(n) && old(d.Linked(0)) && old(d.Linked(n));
    } else {
      var i :| 0 <= i < n && d.entries[i] == m;
      assert d.Linked(i) && d.Linked(i + 1) && old(d.Linked(i)) && old(d.Linked(i + 1));
    }
  }

  lemma InsertAtEnds<T>(s: seq<T>, t: seq<T>)
    ensures s + t == s[..|s|] + t + s[|s|..] && t + s == s[..0] + t + s[0..]
  {
  }

  lemma NotAMember(world: set<Deque>, n: Node)
    requires WellFormed(world) && n.prev == n
    ensures n !in Members(world)
  {
    forall d | d in world ensures n !in d.entries {
      forall k | 0 <= k < |d.entries| ensures d.entries[k] != n {
        d.Neighbours(k);
      }
    }
  }

  class Deque {
    const anchor: Node
    ghost var entries: seq<Node>

    // The ring: position -1 and position |entries| are the anchor.
    ghost function At(i: int): Node
      reads this
    {
      if 0 <= i < |entries| then entries[i] else anchor
    }

    ghost function Entries(): set<Node>
      reads this
    {
      set n | n in entries
    }

    ghost function Nodes(): set<Node>
      reads this
    {
      {anchor} + Entries()
    }

    ghost predicate Linked(i: int)
      reads this, Nodes()
    {
      At(i - 1).next == At(i) && At(i).prev == At(i - 1)
    }

    ghost predicate Valid()
      reads this, Nodes()
    {
      && (forall i :: 0 <= i <= |entries| ==> Linked(i))
      && (forall i, j :: 0 <= i < j < |entries| ==> entries[i] != entries[j])
      && anchor !in entries
    }

    lemma Neighbours(k: nat)
      requires Valid() && k < |entries|
      ensures entries[k].prev == At(k - 1) && entries[k].next == At(k + 1)
      ensures entries[k].prev != entries[k] && entries[k].next != entries[k]
    {
      assert Linked(k) && Linked(k + 1);
    }

    ghost function Find(n: Node): (k: nat)
      requires n in entries
      reads this
      ensures k < |entries| && entries[k] == n
    {
      var k: nat :| k < |entries| && entries[k] == n;
      k
    }

    // The surgery that takes out entry `k`.
    twostate lemma RemovedAt(k: nat)
      requires old(Valid()) && k < |old(entries)| && entries == old(entries)[..k] + old(entries)[k + 1..]
      requires forall m :: m in old(Nodes()) && m != old(entries)[k] ==>
        && m.next == (if m == old(At(k - 1)) then old(At(k + 1)) else old(m.next))
        && m.prev == (if m == old(At(k + 1)) then old(At(k - 1)) else old(m.prev))
      ensures Valid()
    {
      forall i | 0 <= i <= |entries| ensures Linked(i) {
        if i <= k { assert old(Linked(i)); }
        if i >= k { assert old(Linked(i + 1)); }
        assert At(i - 1) in old(Nodes()) && At(i) in old(Nodes());
      }
    }

    // The surgery that puts a chain of nodes before position `k`.
    twostate lemma InsertedAt(k: nat, new seg: seq<Node>)
      requires old(Valid()) && k <= |old(entries)| && seg != []
      requires entries == old(entries)[..k] + seg + old(entries)[k..]
      requires forall i, j :: 0 <= i < j < |seg| ==> seg[i] != seg[j]
      requires forall i :: 0 <= i < |seg| ==> seg[i] !in old(Nodes())
      requires seg[0].prev == old(At(k - 1)) && seg[|seg| - 1].next == old(At(k))
      requires forall i {:trigger seg[i].prev} :: 0 < i < |seg| ==> seg[i].prev == seg[i - 1]
      requires forall i {:trigger seg[i].next} :: 0 <= i < |seg| - 1 ==> seg[i].next == seg[i + 1]
      requires old(At(k - 1)).next == seg[0] && NextKept(old(Nodes()), old(At(k - 1)))
      requires old(At(k)).prev == seg[|seg| - 1] && PrevKept(old(Nodes()), old(At(k)))
      ensures Valid()
    {
      forall i | 0 <= i <= |entries| ensures Linked(i) {
        if i < k {
          assert old(Linked(i));
          assert At(i - 1) == old(At(i - 1)) && At(i) == old(At(i));
          assert At(i - 1) != old(At(k - 1)) && At(i) != old(At(k));
          assert At(i - 1) in old(Nodes()) && At(i) in old(Nodes());
        } else if i > k + |seg| {
          assert old(Linked(i - |seg|));
          assert At(i - 1) == old(At(i - 1 - |seg|)) && At(i) == old(At(i - |seg|));
          assert At(i - 1) != old(At(k - 1)) && At(i) != old(At(k));
          assert At(i - 1) in old(Nodes()) && At(i) in old(Nodes());
        } else {
          assert At(i - 1) == (if i == k then old(At(k - 1)) else seg[i - 1 - k]);
          assert At(i) == (if i == k + |seg| then old(At(k)) else seg[i - k]);
          assert old(At(k - 1)) in old(Nodes()) && old(At(k)) in old(Nodes());
        }
      }
    }

    constructor ()
      ensures Valid() && entries == [] && fresh(anchor)
    {
      anchor := new Node();
      entries := [];
    }

    predicate Empty()
      reads this, anchor
    {
      anchor.next == anchor
    }

    lemma EmptyRing()
      requires entries == [] && anchor.Detached()
      ensures Valid()
    {
      assert Linked(0);
    }

    lemma EmptyIsEmpty()
      requires Valid()
      ensures Empty() <==> entries == []
    {
      assert Linked(0);
    }

    method PushBack(node: Node, ghost world: set<Deque>)
      requires WellFormed(world) && this in world
      requires node !in Members(world) && node !in Anchors(world)
      modifies this, node, anchor, anchor.prev
      ensures WellFormed(world) && entries == old(entries) + [node]
    {
      ghost var pool := Nodes() + {node};
      ghost var n := |entries|;
      assert Linked(n);
      node.prev := anchor.prev;
      node.next := anchor;
      anchor.prev.next := node;
      anchor.prev := node;
      entries := entries + [node];
      assert entries == old(entries)[..n] + [node] + old(entries)[n..];
      InsertedAt(n, [node]);
      OthersKept(world, {this}, pool);
    }

    method PushFront(node: Node, ghost world: set<Deque>)
      requires WellFormed(world) && this in world
      requires node !in Members(world) && node !in Anchors(world)
      modifies this, node, anchor, anchor.next
      ensures WellFormed(world) && entries == [node] + old(entries)
    {
      ghost var pool := Nodes() + {node};
      assert Linked(0);
      node.prev := anchor;
      node.next := anchor.next;
      anchor.next.prev := node;
      anchor.next := node;
      entries := [node] + entries;
      assert entries == old(entries)[..0] + [node] + old(entries)[0..];
      InsertedAt(0, [node]);
      OthersKept(world, {this}, pool);
    }

    method Front() returns (r: Node?)
      requires Valid()
      ensures r == if entries == [] then null else entries[0]
    {
      EmptyIsEmpty();
      assert Linked(0);
      r := if Empty() then null else anchor.next;
    }

    method Back() returns (r: Node?)
      requires Valid()
      ensures r == if entries == [] then null else entries[|entries| - 1]
    {
      EmptyIsEmpty();
      assert Linked(|entries|);
      r := if Empty() then null else anchor.prev;
    }

    method PopBack(ghost world: set<Deque>) returns (r: Node?)
      requires WellFormed(world) && this in world
      modifies anchor.prev, anchor.prev.prev, anchor.prev.next, this
      ensures WellFormed(world)
      ensures if old(entries) == [] then r == null && entries == []
              else
                && r == old(entries)[|old(entries)| - 1] && r.Detached()
                && entries == old(entries)[..|old(entries)| - 1]
    {
      EmptyIsEmpty();
      assert Linked(|entries|);
      if Empty() {
        return null;
      }
      var node := anchor.prev;
      node.RemoveEntry(world, this, |entries| - 1);
      return node;
    }

    method PopFront(ghost world: set<Deque>) returns (r: Node?)
      requires WellFormed(world) && this in world
      modifies anchor.next, anchor.next.prev, anchor.next.next, this
      ensures WellFormed(world)
      ensures if old(entries) == [] then r == null && entries == []
              else r == old(entries)[0] && r.Detached() && entries == old(entries)[1..]
    {
      EmptyIsEmpty();
      assert Linked(0);
      if Empty() {
        return null;
      }
      var node := anchor.next;
      node.RemoveEntry(world, this, 0);
      return node;
    }

    // `clear` relinks the anchor only: the old entries keep their stale links.
    method Clear(ghost world: set<Deque>)
      requires WellFormed(world) && this in world
      modifies this, anchor
      ensures WellFormed(world) && entries == [] && Empty()
    {
      ghost var pool := Nodes();
      Reset();
      entries := [];
      assert Linked(0);
      OthersKept(world, {this}, pool);
    }

    // The surgery that moves all entries of `other` before position `k`.
    twostate lemma Spliced(k: nat, new other: Deque)
      requires old(allocated(other)) && old(Valid()) && old(Apart(this, other))
      requires old(other.entries) != [] && old(other.Chained()) && k <= |old(entries)|
      requires forall i, j :: 0 <= i < j < |old(other.entries)| ==> old(other.entries)[i] != old(other.entries)[j]
      requires entries == old(entries)[..k] + old(other.entries) + old(entries)[k..]
      requires old(At(k - 1)).next == old(other.anchor.next) && NextKept(old(Nodes()), old(At(k - 1)))
      requires old(At(k)).prev == old(other.anchor.prev) && PrevKept(old(Nodes()), old(At(k)))
      requires old(other.anchor.next).prev == old(At(k - 1)) && PrevKept(old(other.Entries()), old(other.anchor.next))
      requires old(other.anchor.prev).next == old(At(k)) && NextKept(old(other.Entries()), old(other.anchor.prev))
      ensures Valid()
    {
      var seg := old(other.entries);
      forall i | 0 <= i < |seg| ensures seg[i] in old(other.Entries()) && seg[i] !in old(Nodes()) {
        assert seg[i] in old(other.Nodes());
      }
      InsertedAt(k, seg);
    }

    // The four assignments of either `extend`: the chain from `first` to `last` goes between two nodes.
    static method Stitch(before: Node, after: Node, first: Node, last: Node)
      requires first != before && first != after && last != before && last != after
      modifies before, after, first, last
      ensures first.prev == before && last.next == after && before.next == first && after.prev == last
      ensures before != after ==> before.prev == old(before.prev) && after.next == old(after.next)
      ensures first != last ==> first.next == old(first.next) && last.prev == old(last.prev)
    {
      first.prev := before;
      last.next := after;
      before.next := first;
      after.prev := last;
    }

    // The two assignments of `clear`.
    method Reset()
      modifies anchor
      ensures anchor.Detached()
    {
      anchor.next := anchor;
      anchor.prev := anchor;
    }

    // `extend_back` on two rings that are not empty.
    method SpliceBack(other: Deque)
      requires Valid() && other.Valid() && Apart(this, other) && other.entries != []
      modifies this, other, anchor, anchor.prev, other.anchor, other.anchor.next, other.anchor.prev
      ensures Valid() && other.Valid() && entries == old(entries) + old(other.entries) && other.entries == []
    {
      ghost var n := |entries|;
      assert Linked(n) && Linked(0);
      other.Chain();
      var first := other.anchor.next;
      var last := other.anchor.prev;
      assert first in other.Nodes() && last in other.Nodes() && anchor.prev in Nodes() && anchor.next in Nodes();
      Stitch(anchor.prev, anchor, first, last);
      other.Reset();
      entries, other.entries := entries + other.entries, [];
      InsertAtEnds(old(entries), old(other.entries));
      Spliced(n, other);
      other.EmptyRing();
    }

    // `extend_front` on two rings that are not empty.
    method SpliceFront(other: Deque)
      requires Valid() && other.Valid() && Apart(this, other) && other.entries != []
      modifies this, other, anchor, anchor.next, other.anchor, other.anchor.next, other.anchor.prev
      ensures Valid() && other.Valid() && entries == old(other.entries) + old(entries) && other.entries == []
    {
      assert Linked(0) && Linked(|entries|);
      other.Chain();
      var first := other.anchor.next;
      var last := other.anchor.prev;
      assert first in other.Nodes() && last in other.Nodes() && anchor.prev in Nodes() && anchor.next in Nodes();
      Stitch(anchor, anchor.next, first, last);
      other.Reset();
      entries, other.entries := other.entries + entries, [];
      InsertAtEnds(old(entries), old(other.entries));
      Spliced(0, other);
      other.EmptyRing();
    }

    method ExtendBack(other: Deque, ghost world: set<Deque>)
      requires WellFormed(world) && this in world && other in world && other != this
      modifies this, other, anchor, anchor.prev, other.anchor, other.anchor.next, other.anchor.prev
      ensures WellFormed(world) && entries == old(entries) + old(other.entries) && other.entries == []
    {
      other.EmptyIsEmpty();
      if other.Empty() {
        return;
      }
      ghost var pool := Nodes() + other.Nodes();
      assert Apart(this, other) && Linked(|entries|) && other.Linked(0) && other.Linked(|other.entries|);
      SpliceBack(other);
      OthersKept(world, {this, other}, pool);
    }

    method ExtendFront(other: Deque, ghost world: set<Deque>)
      requires WellFormed(world) && this in world && other in world && other != this
      modifies this, other, anchor, anchor.next, other.anchor, other.anchor.next, other.anchor.prev
      ensures WellFormed(world) && entries == old(other.entries) + old(entries) && other.entries == []
    {
      other.EmptyIsEmpty();
      if other.Empty() {
        return;
      }
      ghost var pool := Nodes() + other.Nodes();
      assert Apart(this, other) && Linked(0) && other.Linked(0) && other.Linked(|other.entries|);
      SpliceFront(other);
      OthersKept(world, {this, other}, pool);
    }

    // Move assignment.
    method MoveFrom(other: Deque, ghost world: set<Deque>)
      requires WellFormed(world) && this in world && other in world
      modifies this, other, anchor, other.anchor, other.anchor.next, other.anchor.prev
      ensures WellFormed(world) && entries == old(other.entries) && (other != this ==> other.entries == [])
    {
      if this != other {
        assert Apart(this, other);
        Clear(world);
        assert Linked(0);
        ExtendBack(other, world);
      }
    }

    // The links along the entries.
    ghost predicate Chained()
      reads this, Nodes()
      requires entries != []
    {
      && anchor.next == entries[0] && anchor.prev == entries[|entries| - 1]
      && (forall i {:trigger entries[i].prev} :: 0 < i < |entries| ==> entries[i].prev == entries[i - 1])
      && (forall i {:trigger entries[i].next} :: 0 <= i < |entries| - 1 ==> entries[i].next == entries[i + 1])
    }

    lemma Chain()
      requires Valid() && entries != []
      ensures Chained()
    {
      assert Linked(0) && Linked(|entries|);
      forall i | 0 < i < |entries| ensures entries[i].prev == entries[i - 1] {
        assert Linked(i);
      }
      forall i | 0 <= i < |entries| - 1 ensures entries[i].next == entries[i + 1] {
        assert Linked(i + 1);
      }
    }

    // Iteration from `begin()` to `end()`.
    method Forward() returns (r: seq<Node>)
      requires Valid()
      ensures r == entries
    {
      r := [];
      var current := anchor.next;
      assert Linked(0);
      while current != anchor
        invariant |r| <= |entries| && r == entries[..|r|] && current == At(|r|)
        decreases |entries| - |r|
      {
        r := r + [current];
        assert Linked(|r|);
        current := current.next;
      }
    }

    // Iteration from `rbegin()` to `rend()`.
    method Backward() returns (r: seq<Node>)
      requires Valid()
      ensures r == Reverse(entries)
    {
      r := [];
      var current := anchor.prev;
      assert Linked(|entries|);
      while current != anchor
        invariant |r| <= |entries| && current == At(|entries| - 1 - |r|)
        invariant forall i :: 0 <= i < |r| ==> r[i] == entries[|entries| - 1 - i]
        decreases |entries| - |r|
      {
        r := r + [current];
        assert Linked(|entries| - |r|);
        current := current.prev;
      }
    }
  }

  ghost function Anchors(world: set<Deque>): set<Node> {
    set d | d in world :: d.anchor
  }

  ghost function Members(world: set<Deque>): set<Node>
    reads world
  {
    set d, n | d in world && n in d.entries :: n
  }

  ghost predicate Apart(d: Deque, e: Deque)
    reads d, e
  {
    d.Nodes() !! e.Nodes()
  }

  ghost predicate WellFormed(world: set<Deque>)
    reads world, set d, n | d in world && n in d.Nodes() :: n
  {
    && (forall d :: d in world ==> d.Valid())
    && (forall d, e :: d in world && e in world && d != e ==> Apart(d, e))
  }

  twostate predicate NextKept(ns: set<Node>, except: Node)
    reads ns
  {
    forall m :: m in ns && m != except ==> m.next == old(m.next)
  }

  twostate predicate PrevKept(ns: set<Node>, except: Node)
    reads ns
  {
    forall m :: m in ns && m != except ==> m.prev == old(m.prev)
  }

  twostate predicate Same(n: Node)
    reads n
  {
    n.prev == old(n.prev) && n.next == old(n.next)
  }

  // Deques other than `ds` are what they were, if the surgery stayed within `pool`, which is
  // apart from them.
  twostate lemma OthersKept(new world: set<Deque>, new ds: set<Deque>, new pool: set<Node>)
    requires old(allocated(world)) && old(WellFormed(world)) && ds <= world
    requires forall d :: d in ds ==> d.Valid() && d.Nodes() <= pool
    requires forall d, e :: d in ds && e in ds && d != e ==> Apart(d, e)
    requires forall e :: e in world && e !in ds ==> e.entries == old(e.entries) && old(e.Nodes()) !! pool
    requires forall e, n :: e in world && e !in ds && n in old(e.Nodes()) ==> Same(n)
    ensures WellFormed(world)
  {
    forall e | e in world && e !in ds ensures e.Valid() {
      forall i | 0 <= i <= |e.entries| ensures e.Linked(i) {
        assert old(e.Linked(i));
        assert e.At(i) in old(e.Nodes()) && e.At(i - 1) in old(e.Nodes());
        assert Same(e.At(i)) && Same(e.At(i - 1));
      }
    }
    forall e, f | e in world && f in world && e != f ensures Apart(e, f) {
      assert old(Apart(e, f));
    }
  }

  // Why old nodes must not be touched after a bare `clear`: removing one then empties the ring
  // under an entry that was pushed since.
  method StaleRemoval(d: Deque, a: Node, b: Node)
    requires d.Valid() && d.entries == [a] && b.Detached() && b != a && b != d.anchor
    modifies d, d.anchor, a, b
    ensures d.entries == [b] && d.Empty() && !d.Valid()
  {
    assert d.Linked(0) && d.Linked(1);
    d.Clear({d});
    assert d.Linked(0);
    d.PushBack(b, {d});
    a.Unlink();
    if d.Valid() {
      d.EmptyIsEmpty();
    }
  }
}
