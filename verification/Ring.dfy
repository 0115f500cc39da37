/**
 The intrusive ring of pth_ring.c: doubly linked nodes, a hook on the first
 one and a node count. A ring stands for the sequence read from its hook.
 */
module Ring {
  import opened Basics

  /** A node with what it is part of: the ring runs through the things it holds. */
  class RingNode<T> {
    const item: T
    var rnNext: RingNode?<T>
    var rnPrev: RingNode?<T>

    constructor(item: T)
      ensures this.item == item
    {
      this.item := item;
      rnNext, rnPrev := null, null;
    }
  }

  ghost function Next<T>(s: seq<T>, i: nat): T
    requires i < |s|
  {
    if i + 1 < |s| then s[i + 1] else s[0]
  }

  ghost function Prev<T>(s: seq<T>, i: nat): T
    requires i < |s|
  {
    if i > 0 then s[i - 1] else s[|s| - 1]
  }

  ghost predicate NodeOk<T>(s: seq<RingNode<T>>, i: nat)
    requires i < |s|
    reads s
  {
    s[i].rnNext == Next(s, i) && s[i].rnPrev == Prev(s, i)
  }

  ghost predicate Linked<T>(s: seq<RingNode<T>>)
    reads s
  {
    forall i | 0 <= i < |s| :: NodeOk(s, i)
  }

  class Ring<T> {
    var rHook: RingNode?<T>
    var rNodes: int
    ghost var nodes: seq<RingNode<T>>

    /** The pointers and the count describe exactly the sequence s. */
    ghost predicate Represents(s: seq<RingNode<T>>)
      reads this, s
    {
      && Distinct(s)
      && Linked(s)
      && rNodes == |s|
      && rHook == (if s == [] then null else s[0])
    }

    ghost predicate Valid()
      reads this, nodes
    {
      Represents(nodes)
    }

    constructor()
      ensures Valid() && nodes == []
    {
      rHook, rNodes, nodes := null, 0, [];
    }

    /**
     Behind all others, if the node is not on the ring already; otherwise no
     sequence of nodes fits the links and the count any more.
     */
    method Append(rn: RingNode<T>)
      requires Valid()
      modifies this, nodes, rn
      ensures rn !in old(nodes) ==> Valid() && nodes == old(nodes) + [rn]
      ensures rn in old(nodes) ==> forall s: seq<RingNode<T>> :: !Represents(s)
      ensures rn in old(nodes) ==> nodes == old(nodes) && rHook == old(rHook) && rNodes == old(rNodes) + 1
      ensures rn == old(rHook) ==> Alone()
    {
      if rHook == null {
        rHook := rn;
        rn.rnNext, rn.rnPrev := rn, rn;
        rNodes := rNodes + 1;
        nodes := [rn];
        assert NodeOk(nodes, 0);
      } else {
        LinkLast(rn);
        rNodes := rNodes + 1;
        if rn in nodes {
          forall s: seq<RingNode<T>> | Represents(s) ensures false {
            StaysInside(s, nodes);
          }
        } else {
          nodes := nodes + [rn];
        }
      }
    }

    /** The link writes of an append to a ring that is not empty. */
    method LinkLast(rn: RingNode<T>)
      requires Valid() && rHook != null
      modifies nodes, rn
      ensures rn !in nodes ==> Linked(nodes + [rn])
      ensures rn in nodes ==> forall x | x in nodes :: x.rnNext in nodes
      ensures rn == rHook ==> Alone()
    {
      assert NodeOk(nodes, 0) && NodeOk(nodes, |nodes| - 1);
      WriteLinks(rHook, rHook.rnPrev, rn);
      if rn in nodes {
        forall i | 0 <= i < |nodes| ensures nodes[i].rnNext in nodes {
          assert old(NodeOk(nodes, i));
        }
      } else {
        forall i | 0 <= i <= |nodes| ensures NodeOk(nodes + [rn], i) {
          assert i < |nodes| ==> old(NodeOk(nodes, i));
        }
      }
    }

    /** The hook's node points only to itself. */
    predicate Alone()
      reads this, rHook
    {
      rHook != null && rHook.rnNext == rHook && rHook.rnPrev == rHook
    }

    /** Links that never leave a set of nodes cannot run through more nodes than it has. */
    lemma StaysInside(s: seq<RingNode<T>>, inside: seq<RingNode<T>>)
      requires Represents(s) && rHook in inside && forall x | x in inside :: x.rnNext in inside
      ensures |s| <= |inside|
    {
      var i := 0;
      while i < |s|
        invariant i <= |s| && (i < |s| ==> s[i] in inside) && forall j | 0 <= j < i :: s[j] in inside
      {
        assert NodeOk(s, i);
        i := i + 1;
      }
      NoMoreThan(s, inside);
    }

    method InsertAfter(rn1: RingNode<T>, rn2: RingNode<T>, ghost k: nat)
      requires Valid() && k < |nodes| && rn1 == nodes[k] && rn2 !in nodes
      modifies this, nodes, rn2
      ensures Valid()
      ensures nodes == InsertAt(old(nodes), k + 1, rn2)
    {
      Attach(rn1, rn2, k);
    }

    /** Before the first node means behind the last one: the hook stays where it is. */
    method InsertBefore(rn1: RingNode<T>, rn2: RingNode<T>, ghost k: nat)
      requires Valid() && k < |nodes| && rn1 == nodes[k] && rn2 !in nodes
      modifies this, nodes, rn2
      ensures Valid()
      ensures nodes == InsertAt(old(nodes), if k == 0 then |old(nodes)| else k, rn2)
    {
      assert NodeOk(nodes, k);
      Attach(rn1.rnPrev, rn2, if k == 0 then |nodes| - 1 else k - 1);
    }

    /** Takes one node out; of a node that points only to itself nothing is left. */
    method Delete(rn: RingNode<T>, ghost k: nat)
      requires if Valid() then k < |nodes| && rn == nodes[k] else rn == rHook && Alone()
      modifies this, nodes
      ensures old(Valid()) ==> Valid() && nodes == RemoveAt(old(nodes), k)
      ensures old(Alone()) && rn == old(rHook) ==> rHook == null && rNodes == old(rNodes) - 1
      ensures !old(Valid()) ==> nodes == old(nodes)
    {
      if rHook == rn && rn.rnPrev == rn && rn.rnNext == rn {
        rHook := null;
        rNodes := rNodes - 1;
        if old(Valid()) {
          assert old(NodeOk(nodes, k));
          nodes := RemoveAt(nodes, k);
        }
      } else {
        assert NodeOk(nodes, k);
        assert NodeOk(nodes, if k > 0 then k - 1 else |nodes| - 1);
        assert NodeOk(nodes, if k + 1 < |nodes| then k + 1 else 0);
        if rHook == rn {
          rHook := rn.rnNext;
        }
        Bypass(rn);
        rNodes := rNodes - 1;
        nodes := RemoveAt(nodes, k);
        forall i | 0 <= i < |nodes| ensures NodeOk(nodes, i) {
          assert old(NodeOk(nodes, if i < k then i else i + 1));
        }
      }
    }

    method Pop() returns (rn: RingNode?<T>)
      requires Valid() || rHook == null || Alone()
      modifies this, nodes
      ensures rn == old(rHook)
      ensures old(Valid()) ==> Valid() && nodes == if old(nodes) == [] then [] else RemoveAt(old(nodes), 0)
      ensures old(rHook) == null ==> rHook == null && rNodes == old(rNodes)
      ensures old(Alone()) ==> rHook == null && rNodes == old(rNodes) - 1
      ensures !old(Valid()) ==> nodes == old(nodes)
    {
      rn := rHook;
      if rn != null {
        Delete(rn, 0);
      }
    }

    method Dequeue() returns (rn: RingNode?<T>)
      requires Valid()
      modifies this, nodes
      ensures Valid()
      ensures rn == if old(nodes) == [] then null else old(nodes)[|old(nodes)| - 1]
      ensures nodes == if old(nodes) == [] then [] else RemoveAt(old(nodes), |old(nodes)| - 1)
    {
      rn := null;
      if rHook != null {
        assert NodeOk(nodes, 0);
        rn := rHook.rnPrev;
        Delete(rn, |nodes| - 1);
      }
    }

    method Contains(rns: RingNode<T>) returns (found: bool)
      requires Valid()
      ensures found <==> rns in nodes
    {
      var rn := rHook;
      if rn != null {
        ghost var k := 0;
        while true
          invariant k < |nodes| && rn == nodes[k] && rns !in nodes[..k]
          decreases |nodes| - k
        {
          if rn == rns {
            return true;
          }
          assert NodeOk(nodes, k);
          rn := rn.rnNext;
          if rn == rHook {
            break;
          }
          k := k + 1;
        }
        assert nodes[..k + 1] == nodes;
      }
      return false;
    }

    /**
     The hook is moved before it is tested, so the new node only ever links to
     itself: the outcome is a ring exactly when there was nothing to lose.
     */
    method Prepend(rn: RingNode<T>)
      requires Valid() && rn !in nodes
      modifies this, rn
      ensures rHook == rn && rn.rnNext == rn && rn.rnPrev == rn && rNodes == old(rNodes) + 1
      ensures Represents([rn]) <==> old(nodes) == []
      ensures forall s: seq<RingNode<T>> :: Represents(s) ==> s == [rn]
      ensures nodes == [rn]
    {
      rHook := rn;
      if rHook != null {
        rn.rnNext := rHook;
        rn.rnPrev := rHook.rnPrev;
        rn.rnNext.rnPrev := rn;
        rn.rnPrev.rnNext := rn;
      }
      rNodes := rNodes + 1;
      nodes := [rn];
      assert NodeOk([rn], 0);
      forall s: seq<RingNode<T>> | Represents(s) ensures s == [rn] {
        assert NodeOk(s, 0);
      }
    }

    /** Link t behind c, the node at place k. */
    method Attach(c: RingNode<T>, t: RingNode<T>, ghost k: nat)
      requires Valid() && k < |nodes| && c == nodes[k] && t !in nodes
      modifies this, nodes, t
      ensures Valid() && nodes == InsertAt(old(nodes), k + 1, t)
    {
      assert NodeOk(nodes, k) && NodeOk(nodes, if k + 1 < |nodes| then k + 1 else 0);
      Splice(c, t);
      rNodes := rNodes + 1;
      nodes := InsertAt(nodes, k + 1, t);
      forall i | 0 <= i < |nodes| ensures NodeOk(nodes, i) {
        if i <= k {
          assert old(NodeOk(nodes, i));
        } else if i > k + 1 {
          assert old(NodeOk(nodes, i - 1));
        }
      }
    }
  }

  /** A node goes between the last and the first; when it is one of them, it ends up behind itself. */
  method WriteLinks<T>(first: RingNode<T>, last: RingNode<T>, rn: RingNode<T>)
    requires first.rnPrev == last && last.rnNext == first
    modifies first`rnPrev, last`rnNext, rn
    ensures first.rnPrev == rn
    ensures rn != first && rn != last ==> rn.rnNext == first && rn.rnPrev == last && last.rnNext == rn
    ensures rn == first || rn == last ==> rn.rnNext == rn && (last.rnNext == rn || last.rnNext == first)
    ensures rn == first ==> rn.rnPrev == rn
  {
    rn.rnNext := first;
    rn.rnPrev := first.rnPrev;
    rn.rnNext.rnPrev := rn;
    rn.rnPrev.rnNext := rn;
  }

  method Splice<T>(c: RingNode<T>, t: RingNode<T>)
    requires c.rnNext != null && t != c && t != c.rnNext
    modifies c`rnNext, t, c.rnNext`rnPrev
    ensures t.rnPrev == c && t.rnNext == old(c.rnNext)
    ensures c.rnNext == t && t.rnNext.rnPrev == t
  {
    t.rnPrev := c;
    t.rnNext := c.rnNext;
    t.rnPrev.rnNext := t;
    t.rnNext.rnPrev := t;
  }

  method Bypass<T>(t: RingNode<T>)
    requires t.rnNext != null && t.rnPrev != null && t.rnNext != t && t.rnPrev != t
    modifies t.rnPrev`rnNext, t.rnNext`rnPrev
    ensures t.rnPrev.rnNext == t.rnNext && t.rnNext.rnPrev == t.rnPrev
  {
    t.rnPrev.rnNext := t.rnNext;
    t.rnNext.rnPrev := t.rnPrev;
  }

  /** Linked nodes from the same start are the same nodes as far as both go. */
  lemma {:induction false} SameWay<T>(a: seq<RingNode<T>>, b: seq<RingNode<T>>, k: nat)
    requires k < |a| && k < |b| && a[0] == b[0] && Linked(b)
    requires forall i | 0 <= i < k :: a[i].rnNext == a[i + 1]
    ensures forall i | 0 <= i <= k :: a[i] == b[i]
    decreases k
  {
    if k > 0 {
      SameWay(a, b, k - 1);
      assert NodeOk(b, k - 1);
    }
  }

  lemma SameStart<T>(a: seq<RingNode<T>>, b: seq<RingNode<T>>)
    requires Linked(a) && Linked(b) && Distinct(a) && Distinct(b) && a != [] && b != [] && a[0] == b[0]
    ensures a == b
  {
    var k := if |a| < |b| then |a| - 1 else |b| - 1;
    forall i | 0 <= i < k ensures a[i].rnNext == a[i + 1] {
      assert NodeOk(a, i);
    }
    SameWay(a, b, k);
    assert NodeOk(a, k) && NodeOk(b, k);
  }

  /** Whoever comes into nodes that link only among themselves never leaves them. */
  lemma {:induction false} NeverLeaves<T>(s: seq<RingNode<T>>, k: nat, t: seq<RingNode<T>>)
    requires k < |s| && Linked(s) && s[k] in t && forall x | x in t :: x.rnNext in t
    ensures s[0] in t
    decreases |s| - k
  {
    assert NodeOk(s, k);
    if k + 1 < |s| {
      NeverLeaves(s, k + 1, t);
    }
  }

  /** The same ring, read from its last node. */
  lemma FromLast<T>(s: seq<RingNode<T>>, rn: RingNode<T>)
    requires Linked(s + [rn]) && Distinct(s + [rn])
    ensures Linked([rn] + s) && Distinct([rn] + s)
  {
    var r := [rn] + s;
    forall i | 0 <= i < |r| ensures NodeOk(r, i) {
      assert NodeOk(s + [rn], if i == 0 then |s| else i - 1);
    }
    forall i, j | 0 <= i < j < |r| ensures r[i] != r[j] {
      assert r[j] == (s + [rn])[j - 1] && r[i] == (s + [rn])[if i == 0 then |s| else i - 1];
    }
  }

  /**
   Appending a node to a second ring while it is on a first one. What the first
   then describes, if anything, is the second ring read from that node.
   */
  method AppendWhileOn<T>(first: Ring<T>, second: Ring<T>, rn: RingNode<T>)
    requires first.Valid() && second.Valid() && first != second && rn in first.nodes
    requires forall x | x in first.nodes :: x !in second.nodes
    modifies second, second.nodes, rn
    ensures second.Valid() && second.nodes == old(second.nodes) + [rn] && first.nodes == old(first.nodes)
    ensures forall s: seq<RingNode<T>> :: first.Represents(s) <==>
      s == [rn] + old(second.nodes) && first.rHook == rn && |first.nodes| == |s|
  {
    ghost var k :| 0 <= k < |first.nodes| && first.nodes[k] == rn;
    ghost var others := second.nodes;
    second.Append(rn);
    FromLast(others, rn);
    forall i | 0 <= i < k ensures first.nodes[i].rnNext == first.nodes[i + 1] {
      assert old(NodeOk(first.nodes, i)) && first.nodes[i] in first.nodes && first.nodes[i] != rn;
    }
    forall s: seq<RingNode<T>> | first.Represents(s) ensures s == [rn] + others && k == 0 {
      WhatIsLeft(first.nodes, k, others, s);
    }
  }

  lemma WhatIsLeft<T>(f: seq<RingNode<T>>, k: nat, others: seq<RingNode<T>>, s: seq<RingNode<T>>)
    requires k < |f| == |s| && Distinct(f) && f[0] == s[0] && Linked(s) && Distinct(s)
    requires forall i | 0 <= i < k :: f[i].rnNext == f[i + 1]
    requires Linked(others + [f[k]]) && Distinct(others + [f[k]]) && forall x | x in f :: x !in others
    ensures k == 0 && s == [f[k]] + others
  {
    var all := others + [f[k]];
    SameWay(f, s, k);
    forall x | x in all ensures x.rnNext in all {
      var i :| 0 <= i < |all| && all[i] == x;
      assert NodeOk(all, i);
    }
    assert all[|others|] == s[k];
    NeverLeaves(s, k, all);
    FromLast(others, f[k]);
    SameStart([f[k]] + others, s);
  }

  /** As many different nodes as there are cannot be more. */
  lemma {:induction false} NoMoreThan<T>(s: seq<T>, t: seq<T>)
    requires Distinct(s) && forall x | x in s :: x in t
    ensures |s| <= |t|
    decreases |s|
  {
    if s != [] {
      var last := s[|s| - 1];
      assert last in s && last in t;
      var k :| 0 <= k < |t| && t[k] == last;
      forall x | x in s[..|s| - 1] ensures x in RemoveAt(t, k) {
        assert x in s && x in t;
        var j :| 0 <= j < |t| && t[j] == x;
        assert RemoveAt(t, k)[if j < k then j else j - 1] == x;
      }
      NoMoreThan(s[..|s| - 1], RemoveAt(t, k));
    }
  }
}
