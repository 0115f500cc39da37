/**
 The delta-encoded priority ring of pth_pqueue.c. The head holds an absolute
 priority; every other node holds how far it lies below its predecessor.
 */
module PriorityRing {
  import opened Basics
  import opened PriorityList

  class QNode {
    var qNext: QNode?
    var qPrev: QNode?
    var qPrio: int

    constructor()
    {
      qNext, qPrev, qPrio := null, null, 0;
    }
  }

  type Queue = seq<Entry<QNode>>

  ghost function Nodes(q: Queue): set<QNode> {
    set i | 0 <= i < |q| :: q[i].item
  }

  ghost function Next(q: Queue, i: nat): QNode
    requires i < |q|
  {
    if i + 1 < |q| then q[i + 1].item else q[0].item
  }

  ghost function Prev(q: Queue, i: nat): QNode
    requires i < |q|
  {
    if i > 0 then q[i - 1].item else q[|q| - 1].item
  }

  ghost function Delta(q: Queue, i: nat): int
    requires i < |q|
  {
    if i == 0 then q[0].prio else q[i - 1].prio - q[i].prio
  }

  /** The node at place i points to its neighbours and holds its encoded priority. */
  ghost predicate NodeOk(q: Queue, i: nat)
    requires i < |q|
    reads Nodes(q)
  {
    && q[i].item.qNext == Next(q, i)
    && q[i].item.qPrev == Prev(q, i)
    && q[i].item.qPrio == Delta(q, i)
  }

  /** The nodes form one closed doubly linked ring, in list order, that encodes the list. */
  ghost predicate IsRing(q: Queue)
    reads Nodes(q)
  {
    NoDuplicates(q) && forall i | 0 <= i < |q| :: NodeOk(q, i)
  }

  /** What a place not at the head loses and keeps when another place goes. */
  lemma NeighboursRemoved(q: Queue, k: nat, i: nat)
    requires 0 < k < |q| && i < |q| - 1
    ensures var r := RemoveAt(q, k); var j: nat := if i < k then i else i + 1;
      && r[i] == q[j]
      && Next(r, i) == (if i == k - 1 then Next(q, k) else Next(q, j))
      && Prev(r, i) == (if i == k || (i == 0 && k == |q| - 1) then Prev(q, k) else Prev(q, j))
      && Delta(r, i) == (if i == k then Delta(q, k) + Delta(q, k + 1) else Delta(q, j))
  {
  }

  lemma NodesRemoved(q: Queue, k: nat)
    requires NoDuplicates(q) && k < |q|
    ensures Nodes(RemoveAt(q, k)) == Nodes(q) - {q[k].item}
  {
    var r := RemoveAt(q, k);
    forall n | n in Nodes(q) && n != q[k].item ensures n in Nodes(r) {
      var i :| 0 <= i < |q| && q[i].item == n;
      assert r[if i < k then i else i - 1].item == n;
    }
  }

  class PQueue {
    var qHead: QNode?
    var qNum: int
    // The list the ring stands for.
    ghost var q: Queue

    ghost predicate Valid()
      reads this, Nodes(q)
    {
      && IsRing(q) && Sorted(q)
      && qNum == |q|
      && qHead == (if q == [] then null else q[0].item)
    }

    constructor()
      ensures Valid() && q == []
    {
      qHead, qNum, q := null, 0, [];
    }

    method Insert(prio: int, t: QNode)
      requires Valid() && t !in Nodes(q)
      modifies this, Nodes(q), t
      ensures Valid()
      ensures q == PriorityList.Insert(old(q), prio, t)
    {
      InsertKeepsSorted(q, prio, t);
      if qHead == null || qNum == 0 {
        LinkFirst(prio, t);
      } else {
        assert NodeOk(q, 0);
        if qHead.qPrio < prio {
          LinkHead(prio, t);
        } else {
          var c, p, k := FindSpot(prio);
          LinkAfter(k, c, p - prio, prio, t);
        }
      }
    }

    method FindSpot(prio: int) returns (c: QNode, p: int, ghost k: nat)
      requires Valid() && qHead != null && qHead.qPrio >= prio
      ensures k < |q| && c == q[k].item && p == q[k].prio
      ensures InsertPos(q, prio) == k + 1
    {
      c := qHead;
      p := c.qPrio;
      k := 0;
      assert NodeOk(q, 0);
      while p - c.qNext.qPrio >= prio && c.qNext != qHead
        invariant k < |q| && c == q[k].item && p == q[k].prio
        invariant forall i | 0 <= i <= k :: q[i].prio >= prio
        invariant NodeOk(q, k)
        invariant k + 1 < |q| ==> NodeOk(q, k + 1)
        decreases |q| - k
      {
        c := c.qNext;
        p := p - c.qPrio;
        k := k + 1;
        assert NodeOk(q, k);
      }
      InsertPosUnique(q, prio, k + 1);
    }

    method LinkFirst(prio: int, t: QNode)
      requires q == [] && qNum == 0
      modifies this, t
      ensures q == InsertAt(old(q), 0, Entry(t, prio)) && qHead == t && qNum == 1
      ensures IsRing(q)
    {
      t.qPrev, t.qNext, t.qPrio := t, t, prio;
      qHead := t;
      qNum := qNum + 1;
      q := InsertAt(q, 0, Entry(t, prio));
      assert NodeOk(q, 0);
    }

    method LinkHead(prio: int, t: QNode)
      requires IsRing(q) && q != [] && t !in Nodes(q) && qHead == q[0].item
      modifies this, Nodes(q), t
      ensures q == InsertAt(old(q), 0, Entry(t, prio)) && qHead == t && qNum == old(qNum) + 1
      ensures IsRing(q)
    {
      assert NodeOk(q, 0) && NodeOk(q, |q| - 1);
      Splice(qHead.qPrev, t);
      t.qPrio := prio;
      t.qNext.qPrio := prio - t.qNext.qPrio;
      qHead := t;
      qNum := qNum + 1;
      q := InsertAt(q, 0, Entry(t, prio));
      forall i | 0 <= i < |q| ensures NodeOk(q, i) {
        if i > 0 {
          assert old(NodeOk(q, i - 1));
        }
      }
    }

    method LinkAfter(ghost k: nat, c: QNode, delta: int, ghost prio: int, t: QNode)
      requires IsRing(q) && t !in Nodes(q)
      requires k < |q| && c == q[k].item && delta == q[k].prio - prio
      requires qHead == q[0].item
      modifies this`q, this`qNum, Nodes(q), t
      ensures q == InsertAt(old(q), k + 1, Entry(t, prio)) && qNum == old(qNum) + 1
      ensures IsRing(q)
    {
      ghost var d: nat := if k + 1 < |q| then k + 1 else 0;
      assert NodeOk(q, k) && NodeOk(q, d);
      Splice(c, t);
      t.qPrio := delta;
      if t.qNext != qHead {
        t.qNext.qPrio := t.qNext.qPrio - t.qPrio;
      }
      qNum := qNum + 1;
      q := InsertAt(q, k + 1, Entry(t, prio));
      forall i | 0 <= i < |q| ensures NodeOk(q, i) {
        if i <= k {
          assert old(NodeOk(q, i));
        } else if i > k + 1 {
          assert old(NodeOk(q, i - 1));
        }
      }
    }

    /** Appends behind the tail without looking at any priority when prio is 0. */
    method QInsert(prio: int, t: QNode)
      requires Valid() && t !in Nodes(q)
      modifies this, Nodes(q), t
      ensures Valid()
      ensures q == QuickInsert(old(q), prio, t)
    {
      QuickInsertKeepsSorted(q, prio, t);
      if qHead == null || qNum == 0 {
        LinkFirst(prio, t);
      } else if prio == 0 {
        ghost var k := |q| - 1;
        assert NodeOk(q, 0);
        LinkAfter(k, qHead.qPrev, 0, q[k].prio, t);
      } else {
        Insert(prio, t);
      }
    }

    method DelMax() returns (t: QNode?)
      requires Valid()
      modifies this, Nodes(q)
      ensures Valid()
      ensures old(q) == [] ==> t == null && q == []
      ensures old(q) != [] ==> t == old(q)[0].item && q == RemoveAt(old(q), 0) && t.qPrio == 0
    {
      if qHead == null {
        t := null;
      } else {
        t := qHead;
        UnlinkHead(t);
      }
    }

    method Delete(t: QNode, ghost k: nat)
      requires Valid()
      requires q != [] ==> k < |q| && t == q[k].item
      modifies this, Nodes(q)
      ensures Valid()
      ensures q == if old(q) == [] then [] else RemoveAt(old(q), k)
      ensures old(q) != [] ==> t.qPrio == 0
    {
      if qHead == null {
        return;
      } else if qHead == t {
        UnlinkHead(t);
      } else {
        Unlink(t, k);
      }
    }

    /** Moves a thread of the queue to its top. */
    method Favorite(t: QNode, ghost k: nat) returns (done: bool)
      requires Valid()
      requires q != [] ==> k < |q| && t == q[k].item
      modifies this, Nodes(q)
      ensures Valid()
      ensures done == (old(q) != [])
      ensures q == if |old(q)| < 2 then old(q) else Favored(old(q), k)
    {
      if qHead == null || qNum == 0 {
        return false;
      }
      if qNum == 1 {
        return true;
      }
      FavoredIsInsert(q, k);
      NodesRemoved(q, k);
      Delete(t, k);
      assert NodeOk(q, 0);
      Insert(qHead.qPrio + 1, t);
      return true;
    }

    method Increase()
      requires Valid()
      modifies this`q, Nodes(q)
      ensures Valid()
      ensures q == Raise(old(q))
    {
      if qHead == null {
        return;
      }
      assert NodeOk(q, 0);
      qHead.qPrio := qHead.qPrio + 1;
      q := Raise(q);
      forall i | 0 <= i < |q| ensures NodeOk(q, i) {
        assert old(NodeOk(q, i));
      }
    }

    method Tail() returns (t: QNode?)
      requires Valid()
      ensures t == if q == [] then null else q[|q| - 1].item
    {
      if qHead == null {
        return null;
      }
      assert NodeOk(q, 0);
      return qHead.qPrev;
    }

    method WalkNext(t: QNode, ghost k: nat) returns (n: QNode?)
      requires Valid() && k < |q| && t == q[k].item
      ensures Valid() && n == if k + 1 < |q| then q[k + 1].item else null
    {
      assert NodeOk(q, k);
      n := t.qNext;
      if n == qHead {
        n := null;
      }
    }

    method WalkPrev(t: QNode, ghost k: nat) returns (n: QNode?)
      requires Valid() && k < |q| && t == q[k].item
      ensures n == if k > 0 then q[k - 1].item else null
    {
      assert NodeOk(q, k);
      n := null;
      if t != qHead {
        n := t.qPrev;
      }
    }

    method Contains(t: QNode) returns (found: bool)
      requires Valid()
      ensures found <==> t in Nodes(q)
    {
      found := false;
      var tc := qHead;
      ghost var k := 0;
      while tc != null
        invariant k <= |q| && tc == if k < |q| then q[k].item else null
        invariant Valid()
        invariant forall i | 0 <= i < k :: q[i].item != t
        decreases |q| - k
      {
        if tc == t {
          return true;
        }
        tc := WalkNext(tc, k);
        k := k + 1;
      }
    }

    method UnlinkHead(t: QNode)
      requires Valid() && q != [] && t == qHead
      modifies this, Nodes(q)
      ensures Valid() && q == RemoveAt(old(q), 0) && t.qPrio == 0
    {
      assert NodeOk(q, 0);
      if t.qNext == t {
        t.qNext, t.qPrev, t.qPrio := null, null, 0;
        qHead := null;
        qNum := 0;
        assert |q| == 1;
        q := RemoveAt(q, 0);
      } else {
        assert NodeOk(q, 1) && NodeOk(q, |q| - 1);
        Bypass(t);
        t.qNext.qPrio := t.qPrio - t.qNext.qPrio;
        t.qPrio := 0;
        qHead := t.qNext;
        qNum := qNum - 1;
        q := RemoveAt(q, 0);
        forall i | 0 <= i < |q| ensures NodeOk(q, i) {
          assert old(NodeOk(q, i + 1));
        }
      }
    }

    method Unlink(t: QNode, ghost k: nat)
      requires Valid() && k < |q| && t == q[k].item && t != qHead
      modifies this, Nodes(q)
      ensures Valid() && q == RemoveAt(old(q), k) && t.qPrio == 0
    {
      ghost var d: nat := if k + 1 < |q| then k + 1 else 0;
      assert NodeOk(q, k) && NodeOk(q, k - 1) && NodeOk(q, d);
      Bypass(t);
      if t.qNext != qHead {
        t.qNext.qPrio := t.qNext.qPrio + t.qPrio;
      }
      t.qPrio := 0;
      qNum := qNum - 1;
      q := RemoveAt(q, k);
      forall i | 0 <= i < |q| ensures NodeOk(q, i) {
        NeighboursRemoved(old(q), k, i);
        assert old(NodeOk(q, if i < k then i else i + 1));
      }
    }
  }

  /** Link t between c and its successor; priorities are untouched. */
  method Splice(c: QNode, t: QNode)
    requires c.qNext != null && t != c && t != c.qNext
    modifies c`qNext, t`qNext, t`qPrev, c.qNext`qPrev
    ensures t.qPrev == c && t.qNext == old(c.qNext)
    ensures c.qNext == t && t.qNext.qPrev == t
  {
    t.qPrev := c;
    t.qNext := c.qNext;
    t.qPrev.qNext := t;
    t.qNext.qPrev := t;
  }

  /** Link the neighbours of t to each other. */
  method Bypass(t: QNode)
    requires t.qNext != null && t.qPrev != null && t.qNext != t && t.qPrev != t
    modifies t.qPrev`qNext, t.qNext`qPrev
    ensures t.qPrev.qNext == t.qNext && t.qNext.qPrev == t.qPrev
  {
    t.qPrev.qNext := t.qNext;
    t.qNext.qPrev := t.qPrev;
  }
}
