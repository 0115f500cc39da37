/**
 The scheduler's queues as pqueue.h has them: one list for each priority, a
 bitmap of the lists that are not empty, a total, and a back pointer in each
 node. They stand for the one sorted list that SchedQueue works on.
 */
module RunQueue {
  import opened Basics
  import opened PriorityList
  import opened SchedQueue

  // ---- lists by priority, and the one list they stand for ----

  ghost function Level(q: seq<Tid>, p: int): Queue {
    seq(|q|, i requires 0 <= i < |q| => Entry(q[i], p))
  }

  /** Highest priority first. */
  ghost function Flat(qs: seq<seq<Tid>>): Queue {
    if qs == [] then [] else Level(qs[|qs| - 1], |qs| - 1) + Flat(qs[..|qs| - 1])
  }

  /** The part above priority p. */
  ghost function High(qs: seq<seq<Tid>>, p: nat): Queue
    requires p < |qs|
  {
    if |qs| == p + 1 then [] else Level(qs[|qs| - 1], |qs| - 1) + High(qs[..|qs| - 1], p)
  }

  lemma {:induction false} Split(qs: seq<seq<Tid>>, p: nat)
    requires p < |qs|
    ensures Flat(qs) == High(qs, p) + Level(qs[p], p) + Flat(qs[..p])
    decreases |qs|
  {
    if |qs| > p + 1 {
      var front := qs[..|qs| - 1];
      Split(front, p);
      assert front[p] == qs[p] && front[..p] == qs[..p];
    }
  }

  lemma {:induction false} HighAbove(qs: seq<seq<Tid>>, p: nat)
    requires p < |qs|
    ensures forall i | 0 <= i < |High(qs, p)| :: High(qs, p)[i].prio > p
    decreases |qs|
  {
    if |qs| > p + 1 {
      HighAbove(qs[..|qs| - 1], p);
    }
  }

  lemma {:induction false} FlatBelow(qs: seq<seq<Tid>>)
    ensures forall i | 0 <= i < |Flat(qs)| :: Flat(qs)[i].prio < |qs|
    decreases |qs|
  {
    if qs != [] {
      FlatBelow(qs[..|qs| - 1]);
    }
  }

  lemma {:induction false} HighSame(qs: seq<seq<Tid>>, p: nat, x: seq<Tid>)
    requires p < |qs|
    ensures High(qs[p := x], p) == High(qs, p)
    decreases |qs|
  {
    if |qs| > p + 1 {
      var front := qs[..|qs| - 1];
      HighSame(front, p, x);
      assert qs[p := x][..|qs| - 1] == front[p := x];
    }
  }

  /** Changing one list changes only the middle. */
  lemma Replaced(qs: seq<seq<Tid>>, p: nat, x: seq<Tid>)
    requires p < |qs|
    ensures Flat(qs[p := x]) == High(qs, p) + Level(x, p) + Flat(qs[..p])
  {
    Split(qs[p := x], p);
    HighSame(qs, p, x);
    assert qs[p := x][..p] == qs[..p];
  }

  ghost predicate Parts(high: Queue, mid: Queue, low: Queue, p: int) {
    && (forall i | 0 <= i < |high| :: high[i].prio > p)
    && (forall i | 0 <= i < |mid| :: mid[i].prio == p)
    && (forall i | 0 <= i < |low| :: low[i].prio < p)
  }

  lemma PartsOf(qs: seq<seq<Tid>>, p: nat)
    requires p < |qs|
    ensures Parts(High(qs, p), Level(qs[p], p), Flat(qs[..p]), p)
  {
    HighAbove(qs, p);
    FlatBelow(qs[..p]);
  }

  /** Where the list of a priority begins and ends. */
  lemma Borders(high: Queue, mid: Queue, low: Queue, p: int)
    requires Parts(high, mid, low, p)
    ensures InsertPos(high + mid + low, p + 1) == |high|
    ensures InsertPos(high + mid + low, p) == |high| + |mid|
  {
    InsertPosUnique(high + mid + low, p + 1, |high|);
    InsertPosUnique(high + mid + low, p, |high| + |mid|);
  }

  // ---- what each operation on one list means for the whole ----

  lemma LevelInsert(q: seq<Tid>, p: nat, k: nat, t: Tid)
    requires k <= |q|
    ensures Level(InsertAt(q, k, t), p) == InsertAt(Level(q, p), k, Entry(t, p))
  {
  }

  lemma AppendIs(qs: seq<seq<Tid>>, p: nat, t: Tid)
    requires p < |qs|
    ensures Flat(qs[p := qs[p] + [t]]) == Append(Flat(qs), p, t)
  {
    var high, mid, low := High(qs, p), Level(qs[p], p), Flat(qs[..p]);
    Split(qs, p);
    PartsOf(qs, p);
    Borders(high, mid, low, p);
    Replaced(qs, p, qs[p] + [t]);
    LevelInsert(qs[p], p, |qs[p]|, t);
    assert InsertAt(qs[p], |qs[p]|, t) == qs[p] + [t];
    InsertInMiddle(high, mid, low, |mid|, Entry(t, p));
  }

  /** Second place, or first when there is none. */
  function Second(q: seq<Tid>, t: Tid): (r: seq<Tid>)
    ensures |r| == |q| + 1
  {
    InsertAt(q, if q == [] then 0 else 1, t)
  }

  lemma SecondIs(qs: seq<seq<Tid>>, p: nat, t: Tid)
    requires p < |qs|
    ensures Flat(qs[p := Second(qs[p], t)]) == PrependSecond(Flat(qs), p, t)
  {
    var high, mid, low := High(qs, p), Level(qs[p], p), Flat(qs[..p]);
    Split(qs, p);
    PartsOf(qs, p);
    Borders(high, mid, low, p);
    Replaced(qs, p, Second(qs[p], t));
    var k := if qs[p] == [] then 0 else 1;
    LevelInsert(qs[p], p, k, t);
    InsertInMiddle(high, mid, low, k, Entry(t, p));
  }

  lemma InsertInMiddle(high: Queue, mid: Queue, low: Queue, k: nat, e: Entry<Tid>)
    requires k <= |mid|
    ensures InsertAt(high + mid + low, |high| + k, e) == high + InsertAt(mid, k, e) + low
  {
  }

  lemma RemoveInMiddle(high: Queue, mid: Queue, low: Queue, k: nat)
    requires k < |mid|
    ensures RemoveAt(high + mid + low, |high| + k) == high + RemoveAt(mid, k) + low
  {
  }

  /** The place of a thread in the whole list. */
  lemma PlaceOf(qs: seq<seq<Tid>>, p: nat, i: nat)
    requires p < |qs| && i < |qs[p]| && NoDuplicates(Flat(qs))
    ensures |High(qs, p)| + i < |Flat(qs)| && Flat(qs)[|High(qs, p)| + i] == Entry(qs[p][i], p)
    ensures qs[p][i] in Items(Flat(qs)) && IndexOf(Flat(qs), qs[p][i]) == |High(qs, p)| + i
  {
    Split(qs, p);
    var k := |High(qs, p)| + i;
    assert Flat(qs)[k] == Entry(qs[p][i], p);
    assert Flat(qs)[k].item in Items(Flat(qs));
    assert Flat(qs)[IndexOf(Flat(qs), qs[p][i])].item == qs[p][i];
  }

  lemma DeleteIs(qs: seq<seq<Tid>>, p: nat, i: nat)
    requires p < |qs| && i < |qs[p]| && NoDuplicates(Flat(qs))
    ensures qs[p][i] in Items(Flat(qs)) && Flat(qs[p := RemoveAt(qs[p], i)]) == Delete(Flat(qs), qs[p][i])
  {
    PlaceOf(qs, p, i);
    Split(qs, p);
    Replaced(qs, p, RemoveAt(qs[p], i));
    assert Level(RemoveAt(qs[p], i), p) == RemoveAt(Level(qs[p], p), i);
    RemoveInMiddle(High(qs, p), Level(qs[p], p), Flat(qs[..p]), i);
  }

  /** Taken out and put back as the second. */
  function Preferred(q: seq<Tid>, i: nat): (r: seq<Tid>)
    requires i < |q|
    ensures |r| == |q|
  {
    Second(RemoveAt(q, i), q[i])
  }

  lemma NearIs(qs: seq<seq<Tid>>, p: nat, i: nat)
    requires p < |qs| && i < |qs[p]| && NoDuplicates(Flat(qs))
    ensures qs[p][i] in Items(Flat(qs)) && Flat(qs)[IndexOf(Flat(qs), qs[p][i])].prio == p
    ensures Near(Flat(qs), qs[p][i]) <==> i <= 1
  {
    PlaceOf(qs, p, i);
    FirstPlace(qs, p);
  }

  lemma FavorIs(qs: seq<seq<Tid>>, p: nat, i: nat)
    requires p < |qs| && 1 < i < |qs[p]| && NoDuplicates(Flat(qs))
    ensures qs[p][i] in Items(Flat(qs)) && Flat(qs[p := Preferred(qs[p], i)]) == Favor(Flat(qs), qs[p][i])
  {
    NearIs(qs, p, i);
    DeleteIs(qs, p, i);
    FavorFar(Flat(qs), qs[p][i], p, Flat(qs[p := RemoveAt(qs[p], i)]));
    AgainSecond(qs, p, i);
  }

  lemma FavorFar(q: Queue, t: Tid, p: int, less: Queue)
    requires t in Items(q) && !Near(q, t) && q[IndexOf(q, t)].prio == p && less == Delete(q, t)
    ensures Favor(q, t) == PrependSecond(less, p, t)
  {
  }

  lemma AgainSecond(qs: seq<seq<Tid>>, p: nat, i: nat)
    requires p < |qs| && i < |qs[p]|
    ensures Flat(qs[p := Preferred(qs[p], i)]) == PrependSecond(Flat(qs[p := RemoveAt(qs[p], i)]), p, qs[p][i])
  {
    var less := qs[p := RemoveAt(qs[p], i)];
    SecondIs(less, p, qs[p][i]);
    assert less[p := Second(less[p], qs[p][i])] == qs[p := Preferred(qs[p], i)];
  }

  lemma FirstPlace(qs: seq<seq<Tid>>, p: nat)
    requires p < |qs|
    ensures InsertPos(Flat(qs), p + 1) == |High(qs, p)|
  {
    Split(qs, p);
    PartsOf(qs, p);
    Borders(High(qs, p), Level(qs[p], p), Flat(qs[..p]), p);
  }

  lemma OthersInside(q: seq<Tid>, i: nat)
    requires i < |q|
    ensures forall t | t in q && t != q[i] :: t in RemoveAt(q, i)
  {
    forall t | t in q && t != q[i] ensures t in RemoveAt(q, i) {
      var k :| 0 <= k < |q| && q[k] == t;
      assert RemoveAt(q, i)[if k < i then k else k - 1] == t;
    }
  }

  lemma {:induction false} NothingAbove(qs: seq<seq<Tid>>, p: nat)
    requires p < |qs| && forall k | p < k < |qs| :: qs[k] == []
    ensures High(qs, p) == []
    decreases |qs|
  {
    if |qs| > p + 1 {
      NothingAbove(qs[..|qs| - 1], p);
    }
  }

  lemma {:induction false} AllEmpty(qs: seq<seq<Tid>>)
    requires forall k | 0 <= k < |qs| :: qs[k] == []
    ensures Flat(qs) == []
  {
    if qs != [] {
      AllEmpty(qs[..|qs| - 1]);
    }
  }

  /** The head of the highest list that is not empty is the head of the whole. */
  lemma FirstIs(qs: seq<seq<Tid>>, p: nat)
    requires p < |qs| && qs[p] != [] && forall k | p < k < |qs| :: qs[k] == []
    ensures Flat(qs) != [] && Flat(qs)[0] == Entry(qs[p][0], p)
  {
    Split(qs, p);
    NothingAbove(qs, p);
  }

  /** What follows the last thread of a priority is the part below. */
  lemma BelowLast(qs: seq<seq<Tid>>, p: nat)
    requires p < |qs| && qs[p] != []
    ensures var k := |High(qs, p)| + |qs[p]|; k <= |Flat(qs)| && Flat(qs)[k..] == Flat(qs[..p])
  {
    Split(qs, p);
  }

  /** Every node is on the list that its back pointer and its priority name. */
  ghost predicate Pointed(qs: seq<seq<Tid>>, node: map<Tid, nat>) {
    && GoodQueue(Flat(qs))
    && (forall t :: t in node <==> t in Items(Flat(qs)))
    && (forall t | t in node :: node[t] < |qs| && t in qs[node[t]])
  }

  lemma AddKeeps(qs: seq<seq<Tid>>, node: map<Tid, nat>, p: nat, t: Tid, x: seq<Tid>)
    requires Pointed(qs, node) && t !in node && p < |qs| && t in x && forall u | u in qs[p] :: u in x
    requires GoodQueue(Flat(qs[p := x])) && Items(Flat(qs[p := x])) == Items(Flat(qs)) + {t}
    ensures Pointed(qs[p := x], node[t := p])
  {
  }

  lemma SecondInside(q: seq<Tid>, t: Tid)
    ensures t in Second(q, t) && forall u | u in q :: u in Second(q, t)
  {
    var k := if q == [] then 0 else 1;
    assert Second(q, t)[k] == t;
    forall u | u in q ensures u in Second(q, t) {
      var i :| 0 <= i < |q| && q[i] == u;
      assert Second(q, t)[if i < k then i else i + 1] == u;
    }
  }

  /** What comes after the thread at place i of the list of priority p. */
  lemma NextIs(qs: seq<seq<Tid>>, p: nat, i: nat)
    requires p < |qs| && i < |qs[p]| && NoDuplicates(Flat(qs))
    ensures qs[p][i] in Items(Flat(qs))
    ensures var k := IndexOf(Flat(qs), qs[p][i]) + 1;
      && (i + 1 < |qs[p]| ==> k < |Flat(qs)| && Flat(qs)[k].item == qs[p][i + 1])
      && (i + 1 == |qs[p]| ==> Flat(qs)[k..] == Flat(qs[..p]))
  {
    PlaceOf(qs, p, i);
    if i + 1 < |qs[p]| {
      PlaceOf(qs, p, i + 1);
    } else {
      BelowLast(qs, p);
    }
  }

  lemma DeleteKeeps(qs: seq<seq<Tid>>, node: map<Tid, nat>, p: nat, i: nat)
    requires Pointed(qs, node) && p < |qs| && i < |qs[p]|
    ensures Pointed(qs[p := RemoveAt(qs[p], i)], node - {qs[p][i]})
    ensures |Flat(qs[p := RemoveAt(qs[p], i)])| == |Flat(qs)| - 1
  {
    DeleteIs(qs, p, i);
    OthersInside(qs[p], i);
  }

  lemma FavorKeeps(qs: seq<seq<Tid>>, node: map<Tid, nat>, p: nat, i: nat)
    requires Pointed(qs, node) && p < |qs| && 1 < i < |qs[p]|
    ensures Pointed(qs[p := Preferred(qs[p], i)], node)
    ensures |Flat(qs[p := Preferred(qs[p], i)])| == |Flat(qs)|
  {
    FavorIs(qs, p, i);
    OthersInside(qs[p], i);
    SecondInside(RemoveAt(qs[p], i), qs[p][i]);
  }

  // ---- the structure itself ----

  class PriorityQueue {
    const queue: array<seq<Tid>>
    const bitmap: array<bool>
    var total: nat
    /** The nodes whose back pointer is this queue, with their priorities. */
    var node: map<Tid, nat>

    ghost function Contents(): Queue
      reads queue
    {
      Flat(queue[..])
    }

    ghost predicate Marked()
      reads queue, bitmap
    {
      bitmap.Length == queue.Length && forall p | 0 <= p < queue.Length :: bitmap[p] <==> queue[p] != []
    }

    ghost predicate Valid()
      reads this, queue, bitmap
    {
      Marked() && Pointed(queue[..], node) && total == |Contents()|
    }

    constructor (levels: nat)
      ensures Valid() && Contents() == [] && queue.Length == levels
      ensures fresh(queue) && fresh(bitmap)
    {
      queue := new seq<Tid>[levels](_ => []);
      bitmap := new bool[levels](_ => false);
      total, node := 0, map[];
      new;
      AllEmpty(queue[..]);
    }

    method AppendNode(t: Tid, prio: nat)
      requires Valid() && prio < queue.Length
      modifies this, queue, bitmap
      ensures Valid()
      ensures Contents() == if t in old(node) then old(Contents()) else Append(old(Contents()), prio, t)
    {
      if t in node {
        return;
      }
      ghost var was := queue[..];
      AppendIs(was, prio, t);
      AddKeeps(was, node, prio, t, was[prio] + [t]);
      total := total + 1;
      bitmap[prio] := true;
      queue[prio] := queue[prio] + [t];
      node := node[t := prio];
      assert queue[..] == was[prio := was[prio] + [t]];
    }

    method PrependSecondNode(t: Tid, prio: nat)
      requires Valid() && prio < queue.Length
      modifies this, queue, bitmap
      ensures Valid()
      ensures Contents() == if t in old(node) then old(Contents()) else PrependSecond(old(Contents()), prio, t)
    {
      if t in node {
        return;
      }
      ghost var was := queue[..];
      SecondIs(was, prio, t);
      SecondInside(was[prio], t);
      AddKeeps(was, node, prio, t, Second(was[prio], t));
      total := total + 1;
      bitmap[prio] := true;
      queue[prio] := Second(queue[prio], t);
      node := node[t := prio];
      assert queue[..] == was[prio := Second(was[prio], t)];
    }

    method DeleteNode(t: Tid)
      requires Valid()
      modifies this, queue, bitmap
      ensures Valid()
      ensures t in old(Items(Contents())) ==> Contents() == Delete(old(Contents()), t)
      ensures t !in old(Items(Contents())) ==> Contents() == old(Contents())
    {
      if t !in node {
        return;
      }
      ghost var was := queue[..];
      var prio := node[t];
      var i := Position(queue[prio], t);
      DeleteIs(was, prio, i);
      DeleteKeeps(was, node, prio, i);
      total := total - 1;
      queue[prio] := RemoveAt(queue[prio], i);
      node := node - {t};
      if queue[prio] == [] {
        bitmap[prio] := false;
      }
      assert queue[..] == was[prio := RemoveAt(was[prio], i)];
    }

    method MoveToSecond(prio: nat, i: nat)
      requires Valid() && prio < queue.Length && 1 < i < |queue[prio]|
      modifies queue
      ensures Valid() && old(queue[prio][i] in Items(Contents()))
      ensures Contents() == Favor(old(Contents()), old(queue[prio][i]))
    {
      ghost var was := queue[..];
      FavorIs(was, prio, i);
      FavorKeeps(was, node, prio, i);
      queue[prio] := Preferred(queue[prio], i);
      assert queue[..] == was[prio := Preferred(was[prio], i)];
    }

    method FavorNode(t: Tid)
      requires Valid()
      modifies queue
      ensures Valid()
      ensures t in old(Items(Contents())) ==> Contents() == Favor(old(Contents()), t)
      ensures t !in old(Items(Contents())) ==> Contents() == old(Contents())
    {
      if t !in node {
        return;
      }
      var prio := node[t];
      var i := Position(queue[prio], t);
      NearIs(queue[..], prio, i);
      if i > 1 {
        MoveToSecond(prio, i);
      }
    }

    /** The highest priority below the bound that has threads, or -1. */
    method HighestBelow(bound: nat) returns (prio: int)
      requires bound <= queue.Length
      ensures -1 <= prio < bound
      ensures prio >= 0 ==> queue[prio] != []
      ensures forall k | prio < k < bound :: queue[k] == []
    {
      prio := bound - 1;
      while prio >= 0 && queue[prio] == []
        invariant -1 <= prio < bound
        invariant forall k | prio < k < bound :: queue[k] == []
      {
        prio := prio - 1;
      }
    }

    method FirstNode() returns (r: Option<Tid>)
      requires Valid()
      ensures r == if Contents() == [] then None else Some(Contents()[0].item)
    {
      if total == 0 {
        return None;
      }
      var prio := bitmap.Length - 1;
      while prio >= 0 && !bitmap[prio]
        invariant -1 <= prio < queue.Length
        invariant forall k | prio < k < queue.Length :: queue[k] == []
      {
        prio := prio - 1;
      }
      if prio < 0 {
        AllEmpty(queue[..]);
        assert false;
      }
      FirstIs(queue[..], prio);
      return Some(queue[prio][0]);
    }

    /** Walking from FirstNode with NextNode visits the whole list in its order. */
    method NextNode(t: Tid) returns (r: Option<Tid>)
      requires Valid()
      ensures t !in Items(Contents()) ==> r == None
      ensures t in Items(Contents()) ==>
        var k := IndexOf(Contents(), t) + 1; r == if k == |Contents()| then None else Some(Contents()[k].item)
    {
      if t !in node {
        return None;
      }
      var p := node[t];
      var i := Position(queue[p], t);
      NextIs(queue[..], p, i);
      if i + 1 < |queue[p]| {
        return Some(queue[p][i + 1]);
      }
      var below := HighestBelow(p);
      if below < 0 {
        AllEmpty(queue[..][..p]);
        return None;
      }
      FirstIs(queue[..][..p], below);
      return Some(queue[below][0]);
    }
  }

  function Position(q: seq<Tid>, t: Tid): (i: nat)
    requires t in q
    ensures i < |q| && q[i] == t
  {
    if q[0] == t then 0 else 1 + Position(q[1..], t)
  }
}
