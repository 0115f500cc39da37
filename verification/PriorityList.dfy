/**
 The abstract value of a thread priority queue: a list of threads with their
 absolute priorities, highest first, oldest first among equals.
 */
module PriorityList {
  import opened Basics

  datatype Entry<T> = Entry(item: T, prio: int)

  ghost predicate Sorted<T>(q: seq<Entry<T>>) {
    forall i, j | 0 <= i < j < |q| :: q[i].prio >= q[j].prio
  }

  ghost predicate NoDuplicates<T>(q: seq<Entry<T>>) {
    forall i, j | 0 <= i < j < |q| :: q[i].item != q[j].item
  }

  /** Where a thread of priority p belongs: behind every entry of at least that priority. */
  function InsertPos<T>(q: seq<Entry<T>>, p: int): (k: nat)
    ensures k <= |q|
    ensures forall i | 0 <= i < k :: q[i].prio >= p
    ensures k < |q| ==> q[k].prio < p
  {
    if q == [] || q[0].prio < p then 0 else 1 + InsertPos(q[1..], p)
  }

  function Insert<T>(q: seq<Entry<T>>, p: int, t: T): (r: seq<Entry<T>>)
    ensures |r| == |q| + 1
  {
    InsertAt(q, InsertPos(q, p), Entry(t, p))
  }

  function Raise<T>(q: seq<Entry<T>>): (r: seq<Entry<T>>)
    ensures |r| == |q|
    ensures forall i | 0 <= i < |q| :: r[i] == Entry(q[i].item, q[i].prio + 1)
  {
    seq(|q|, i requires 0 <= i < |q| => Entry(q[i].item, q[i].prio + 1))
  }

  /** In a sorted list exactly one place keeps the list sorted and first-come first-served. */
  lemma {:induction false} InsertPosUnique<T>(q: seq<Entry<T>>, p: int, k: nat)
    requires k <= |q|
    requires forall i | 0 <= i < k :: q[i].prio >= p
    requires k < |q| ==> q[k].prio < p
    ensures InsertPos(q, p) == k
  {
    if k != 0 && q != [] {
      InsertPosUnique(q[1..], p, k - 1);
    }
  }

  lemma InsertAtKeepsSorted<T>(q: seq<Entry<T>>, k: nat, e: Entry<T>)
    requires Sorted(q) && k <= |q|
    requires k > 0 ==> q[k - 1].prio >= e.prio
    requires k < |q| ==> e.prio >= q[k].prio
    ensures Sorted(InsertAt(q, k, e))
  {
    var r := InsertAt(q, k, e);
    forall i, j | 0 <= i < j < |r| ensures r[i].prio >= r[j].prio {
      if i < k {
        assert r[i].prio >= q[k - 1].prio;
      }
      if k < j {
        assert r[j] == q[j - 1] && q[j - 1].prio <= q[k].prio;
      }
    }
  }

  lemma InsertKeepsSorted<T>(q: seq<Entry<T>>, p: int, t: T)
    requires Sorted(q)
    ensures Sorted(Insert(q, p, t))
  {
    InsertAtKeepsSorted(q, InsertPos(q, p), Entry(t, p));
  }

  /** What the quick insertion makes of the list: with priority 0 it joins the tail's priority. */
  function QuickInsert<T>(q: seq<Entry<T>>, p: int, t: T): (r: seq<Entry<T>>) {
    if q == [] then InsertAt(q, 0, Entry(t, p))
    else if p == 0 then InsertAt(q, |q|, Entry(t, q[|q| - 1].prio))
    else Insert(q, p, t)
  }

  lemma QuickInsertKeepsSorted<T>(q: seq<Entry<T>>, p: int, t: T)
    requires Sorted(q)
    ensures Sorted(QuickInsert(q, p, t))
  {
    InsertKeepsSorted(q, p, t);
  }

  /** The shortcut is right exactly when the tail already has the priority asked for. */
  lemma QuickInsertAgrees<T>(q: seq<Entry<T>>, t: T)
    requires Sorted(q)
    ensures QuickInsert(q, 0, t) == Insert(q, 0, t) <==> q == [] || q[|q| - 1].prio == 0
  {
    if q != [] {
      var r := QuickInsert(q, 0, t);
      if q[|q| - 1].prio == 0 {
        InsertPosUnique(q, 0, |q|);
      } else {
        var k := InsertPos(q, 0);
        assert Insert(q, 0, t)[k].prio == 0;
        assert r[k].prio != 0;
      }
    }
  }

  /** The thread at place k on top, one above the best of the others. */
  function Favored<T>(q: seq<Entry<T>>, k: nat): (r: seq<Entry<T>>)
    requires 2 <= |q| && k < |q|
    ensures |r| == |q|
    ensures r[0].item == q[k].item && r[1..] == RemoveAt(q, k)
    ensures r[0].prio == r[1].prio + 1
    ensures Sorted(q) ==> forall i | 1 <= i < |r| :: r[i].prio < r[0].prio
  {
    var rest := RemoveAt(q, k);
    [Entry(q[k].item, rest[0].prio + 1)] + rest
  }

  lemma FavoredIsInsert<T>(q: seq<Entry<T>>, k: nat)
    requires 2 <= |q| && k < |q|
    ensures Insert(RemoveAt(q, k), RemoveAt(q, k)[0].prio + 1, q[k].item) == Favored(q, k)
  {
    var rest := RemoveAt(q, k);
    InsertPosUnique(rest, rest[0].prio + 1, 0);
  }

  /** Ageing every thread by one does not disturb the order of later insertions. */
  lemma {:induction false} RaiseCommutes<T>(q: seq<Entry<T>>, p: int, t: T)
    ensures Raise(Insert(q, p, t)) == Insert(Raise(q), p + 1, t)
  {
    InsertPosUnique(Raise(q), p + 1, InsertPos(q, p));
  }
}
