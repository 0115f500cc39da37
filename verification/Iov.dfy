/** Advancing through a vector of buffers after a partial write, and counting what it holds. */
module Iov {

  /** A buffer by its first address and its length. */
  datatype Entry = Entry(base: nat, len: nat)

  /** The addresses of all bytes, in order. */
  ghost function Flat(v: seq<Entry>): seq<nat> {
    if v == [] then [] else seq(v[0].len, i requires 0 <= i => v[0].base + i) + Flat(v[1..])
  }

  /** The vector without its first k bytes. */
  function Advanced(v: seq<Entry>, k: nat): (r: seq<Entry>)
    ensures |r| <= |v|
  {
    if k == 0 || v == [] then v
    else if v[0].len > k then [Entry(v[0].base + k, v[0].len - k)] + v[1..]
    else Advanced(v[1..], k - v[0].len)
  }

  /** Exactly the first k bytes go, or all of them. */
  lemma {:induction false} AdvanceDropsBytes(v: seq<Entry>, k: nat)
    ensures Flat(Advanced(v, k)) == if k <= |Flat(v)| then Flat(v)[k..] else []
    decreases |v|
  {
    if k != 0 && v != [] {
      var head := seq(v[0].len, i requires 0 <= i => v[0].base + i);
      if v[0].len > k {
        var e := Entry(v[0].base + k, v[0].len - k);
        assert ([e] + v[1..])[1..] == v[1..];
        assert seq(e.len, i requires 0 <= i => e.base + i) == head[k..];
      } else {
        AdvanceDropsBytes(v[1..], k - v[0].len);
      }
    }
  }

  /** Advancing in two steps is advancing once by the sum. */
  lemma {:induction false} AdvanceComposes(v: seq<Entry>, a: nat, b: nat)
    ensures Advanced(Advanced(v, a), b) == Advanced(v, a + b)
    decreases |v|
  {
    if a != 0 && v != [] {
      if v[0].len > a {
        var e := Entry(v[0].base + a, v[0].len - a);
        assert ([e] + v[1..])[1..] == v[1..];
      } else {
        AdvanceComposes(v[1..], a - v[0].len, b);
      }
    }
  }

  method Bytes(iov: array<Entry>, cnt: nat) returns (bytes: nat)
    requires cnt <= iov.Length
    ensures bytes == |Flat(iov[..cnt])|
  {
    bytes := 0;
    for i := 0 to cnt
      invariant bytes == |Flat(iov[..i])|
    {
      FlatLast(iov[..i], iov[i]);
      assert iov[..i + 1] == iov[..i] + [iov[i]];
      if iov[i].len <= 0 {
        continue;
      }
      bytes := bytes + iov[i].len;
    }
  }

  lemma {:induction false} FlatLast(v: seq<Entry>, e: Entry)
    ensures |Flat(v + [e])| == |Flat(v)| + e.len
    decreases |v|
  {
    if v == [] {
      assert v + [e] == [e];
      assert Flat([e]) == seq(e.len, i requires 0 <= i => e.base + i) + Flat([]);
    } else {
      assert (v + [e])[1..] == v[1..] + [e];
      FlatLast(v[1..], e);
    }
  }

  /** Where the virtual pointer points: nowhere yet, at the caller's vector, or into the private copy. */
  datatype Pointer = Unset | Real | Copy(at: nat)

  class Cursor {
    var liov: Pointer
    var liovcnt: nat
    /** The array for copies, one for all writers of the process. */
    const siov: array<Entry>

    constructor (shared: array<Entry>)
      ensures liov == Unset && liovcnt == 0 && siov == shared
    {
      liov, liovcnt, siov := Unset, 0, shared;
    }

    ghost predicate Valid(riov: array<Entry>, riovcnt: nat)
      reads this
    {
      && riov != siov && riovcnt <= riov.Length && riovcnt <= siov.Length
      && match liov
         case Unset => liovcnt == 0
         case Real => liovcnt == riovcnt
         case Copy(at) => at + liovcnt <= siov.Length
    }

    /** What is still to be written. */
    ghost function Value(riov: array<Entry>, riovcnt: nat): seq<Entry>
      requires Valid(riov, riovcnt)
      reads this, riov, siov
    {
      if liov.Copy? then siov[liov.at..liov.at + liovcnt] else riov[..riovcnt]
    }

    method CopyVector(riov: array<Entry>, riovcnt: nat)
      requires riov != siov && riovcnt <= riov.Length && riovcnt <= siov.Length
      modifies this`liov, siov
      ensures liov == Copy(0) && siov[..] == riov[..riovcnt] + old(siov[riovcnt..])
    {
      liov := Copy(0);
      for i := 0 to riovcnt
        invariant liov == Copy(0) && siov[..] == riov[..i] + old(siov[i..])
      {
        siov[i] := riov[i];
      }
    }

    /** pth_writev_iov_advance: the caller's vector never changes. */
    method Advance(riov: array<Entry>, riovcnt: nat, k: nat)
      requires Valid(riov, riovcnt)
      modifies this, siov
      ensures Valid(riov, riovcnt) && riov[..] == old(riov[..])
      ensures Value(riov, riovcnt) == Advanced(old(Value(riov, riovcnt)), k)
    {
      if liov == Unset && liovcnt == 0 {
        liov, liovcnt := Real, riovcnt;
      }
      if k > 0 {
        if liov == Real {
          CopyVector(riov, riovcnt);
        }
        Drop(riov, riovcnt, k);
      }
    }

    method Drop(riov: array<Entry>, riovcnt: nat, k: nat)
      requires Valid(riov, riovcnt) && liov.Copy?
      modifies this, siov
      ensures Valid(riov, riovcnt) && liov.Copy?
      ensures Value(riov, riovcnt) == Advanced(old(Value(riov, riovcnt)), k)
    {
      var left: nat := k;
      while liovcnt > 0 && left > 0
        invariant Valid(riov, riovcnt) && liov.Copy?
        invariant Advanced(Value(riov, riovcnt), left) == Advanced(old(Value(riov, riovcnt)), k)
        decreases liovcnt
      {
        if siov[liov.at].len > left {
          Trim(left, riov, riovcnt);
          break;
        }
        left := left - siov[liov.at].len;
        Skip(riov, riovcnt);
      }
    }

    /** A part of the first buffer is gone. */
    method Trim(k: nat, ghost riov: array<Entry>, ghost riovcnt: nat)
      requires Valid(riov, riovcnt) && liov.Copy? && liovcnt > 0 && siov[liov.at].len > k > 0
      modifies siov
      ensures Value(riov, riovcnt) == Advanced(old(Value(riov, riovcnt)), k)
    {
      var e := siov[liov.at];
      siov[liov.at] := Entry(e.base + k, e.len - k);
      assert Value(riov, riovcnt)[1..] == old(Value(riov, riovcnt))[1..];
    }

    /** The first buffer is gone. */
    method Skip(ghost riov: array<Entry>, ghost riovcnt: nat)
      requires Valid(riov, riovcnt) && liov.Copy? && liovcnt > 0
      modifies this
      ensures Valid(riov, riovcnt) && liov.Copy? && liovcnt == old(liovcnt) - 1
      ensures old(Value(riov, riovcnt)) == [old(siov[liov.at])] + Value(riov, riovcnt)
    {
      liovcnt := liovcnt - 1;
      liov := Copy(liov.at + 1);
    }
  }

  /**
   A writer that makes its copy while another one waits for its descriptor in
   the middle of a vector: what the other has left to write stays what it was
   exactly when the vectors agree where they overlap.
   */
  method CopyBeside(c: Cursor, riov: array<Entry>, riovcnt: nat,
                    ghost d: Cursor, ghost diov: array<Entry>, ghost diovcnt: nat)
    requires c != d && c.siov == d.siov && riov != c.siov && riovcnt <= riov.Length && riovcnt <= c.siov.Length
    requires d.Valid(diov, diovcnt) && d.liov.Copy?
    modifies c`liov, c.siov
    ensures d.Valid(diov, diovcnt)
    ensures d.Value(diov, diovcnt) == old(d.Value(diov, diovcnt)) <==>
      forall j | d.liov.at <= j < d.liov.at + d.liovcnt && j < riovcnt :: riov[j] == old(c.siov[j])
  {
    ghost var was := c.siov[..];
    c.CopyVector(riov, riovcnt);
    OverlapIff(was, c.siov[..], riov[..riovcnt], d.liov.at, d.liovcnt);
  }

  lemma OverlapIff(was: seq<Entry>, now: seq<Entry>, v: seq<Entry>, at: nat, cnt: nat)
    requires |v| <= |was| && now == v + was[|v|..] && at + cnt <= |was|
    ensures now[at..at + cnt] == was[at..at + cnt] <==> forall j | at <= j < at + cnt && j < |v| :: v[j] == was[j]
  {
    forall j | at <= j < at + cnt ensures now[j] == now[at..at + cnt][j - at] && was[j] == was[at..at + cnt][j - at] {
    }
  }

  /** Two writers, each in the middle of its only buffer: the first goes on with the rest of the second's. */
  method SecondWriterTakesOver(shared: array<Entry>, first: array<Entry>, second: array<Entry>, k: nat, j: nat)
    returns (a: Cursor)
    requires shared != first && shared != second && shared.Length == first.Length == second.Length == 1
    requires 0 < k < first[0].len && 0 < j < second[0].len
    modifies shared
    ensures a.Valid(first, 1) && a.Value(first, 1) == Advanced(second[..], j)
  {
    a := new Cursor(shared);
    a.Advance(first, 1, k);
    OnlyEntry(first[..1], k);
    var b := new Cursor(shared);
    b.Advance(second, 1, j);
    OnlyEntry(second[..1], j);
  }

  lemma OnlyEntry(v: seq<Entry>, k: nat)
    requires |v| == 1 && 0 < k < v[0].len
    ensures Advanced(v, k) == [Entry(v[0].base + k, v[0].len - k)] && Advanced(v, k) != v
  {
  }
}
