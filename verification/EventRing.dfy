/**
 Event rings of pth_event.c: concatenation, isolation, walking and freeing,
 and the way pth_select_ev borrows and gives back a caller's ring.
 */
module EventRing {
  import opened Basics


  class Event {
    var evNext: Event?
    var evPrev: Event?
    var evOccurred: bool

    constructor()
      ensures IsRing([this]) && !evOccurred
    {
      evNext, evPrev, evOccurred := this, this, false;
    }
  }

  ghost function Elems(s: seq<Event>): set<Event> {
    set e | e in s
  }

  ghost predicate Joined(s: seq<Event>, i: nat)
    requires i + 1 < |s|
    reads Elems(s)
  {
    s[i].evNext == s[i + 1] && s[i + 1].evPrev == s[i]
  }

  /** Consecutive events point at each other; the two ends are open. */
  ghost predicate IsChain(s: seq<Event>)
    reads Elems(s)
  {
    Distinct(s) && forall i | 0 <= i < |s| - 1 :: Joined(s, i)
  }

  ghost function Last(s: seq<Event>): Event
    requires s != []
  {
    s[|s| - 1]
  }

  /** A closed chain, written down starting from its first event. */
  ghost predicate IsRing(s: seq<Event>)
    reads Elems(s)
  {
    s != [] && IsChain(s) && Last(s).evNext == s[0] && s[0].evPrev == Last(s)
  }

  lemma ChainSplit(s: seq<Event>, k: nat)
    requires IsChain(s) && k <= |s|
    ensures IsChain(s[..k]) && IsChain(s[k..])
  {
    forall i | 0 <= i < k - 1 ensures Joined(s[..k], i) {
      assert Joined(s, i);
    }
    forall i | 0 <= i < |s| - k - 1 ensures Joined(s[k..], i) {
      assert Joined(s, i + k);
    }
  }

  lemma ChainJoin(a: seq<Event>, b: seq<Event>)
    requires IsChain(a) && IsChain(b) && Distinct(a + b) && a != [] && b != []
    requires Last(a).evNext == b[0] && b[0].evPrev == Last(a)
    ensures IsChain(a + b)
  {
    var s := a + b;
    forall i | 0 <= i < |s| - 1 ensures Joined(s, i) {
      if i < |a| - 1 {
        assert Joined(a, i);
      } else if |a| <= i {
        assert Joined(b, i - |a|);
      }
    }
  }

  /** A ring may be written down starting from any of its events. */
  lemma Rotate(s: seq<Event>, k: nat)
    requires IsRing(s) && k < |s|
    ensures IsRing(s[k..] + s[..k])
  {
    if k == 0 {
      assert s[0..] + s[..0] == s;
    } else {
      ChainSplit(s, k);
      assert Joined(s, k - 1);
      ChainJoin(s[k..], s[..k]);
    }
  }

  /** Neither the forward link of x nor the backward link of y holds chain s together. */
  ghost predicate Spares(s: seq<Event>, x: Event, y: Event) {
    && (forall i | 0 <= i < |s| - 1 :: s[i] != x)
    && (forall i | 0 < i < |s| :: s[i] != y)
  }

  /** Make y follow x; chains a and b stay as they are. */
  method Link(x: Event, y: Event, ghost a: seq<Event>, ghost b: seq<Event>)
    requires IsChain(a) && IsChain(b) && Spares(a, x, y) && Spares(b, x, y)
    modifies x`evNext, y`evPrev
    ensures x.evNext == y && y.evPrev == x
    ensures IsChain(a) && IsChain(b)
  {
    x.evNext := y;
    y.evPrev := x;
    forall i | 0 <= i < |a| - 1 ensures Joined(a, i) {
      assert old(Joined(a, i));
    }
    forall i | 0 <= i < |b| - 1 ensures Joined(b, i) {
      assert old(Joined(b, i));
    }
  }

  lemma EndsSpare(a: seq<Event>, b: seq<Event>)
    requires Distinct(a + b) && a != []
    ensures Distinct(a) && Distinct(b)
    ensures var y := if b == [] then a[0] else b[0]; Spares(a, Last(a), y) && Spares(b, Last(a), y)
  {
    var s := a + b;
    assert forall i | 0 <= i < |a| :: s[i] == a[i];
    assert forall i | 0 <= i < |b| :: s[|a| + i] == b[i];
  }

  ghost function Flat(rings: seq<seq<Event>>): (f: seq<Event>)
    ensures rings != [] ==> forall x | x in rings[0] :: x in f
    ensures rings != [] ==> forall x | x in Flat(rings[1..]) :: x in f
  {
    if rings == [] then [] else rings[0] + Flat(rings[1..])
  }

  /** Each argument event is the first of its own ring. */
  ghost predicate ArgumentRings(args: seq<Event>, rings: seq<seq<Event>>)
    reads Elems(Flat(rings))
  {
    if rings == [] then args == []
    else
      assert forall x | x in rings[0] + Flat(rings[1..]) :: x in Flat(rings);
      args != [] && IsRing(rings[0]) && rings[0][0] == args[0] && ArgumentRings(args[1..], rings[1..])
  }

  /** The order in which pth_event_concat strings the rings together. */
  ghost function Concatenated(first: seq<Event>, rings: seq<seq<Event>>): seq<Event>
    requires first != []
  {
    first[..1] + Flat(rings) + first[1..]
  }

  lemma PartsDistinct(a: seq<Event>, b: seq<Event>, c: seq<Event>)
    requires Distinct(a + b + c)
    ensures Distinct(a + b)
    ensures forall x | x in a + b :: x !in c
  {
    var s := a + b + c;
    assert forall i | 0 <= i < |a + b| :: s[i] == (a + b)[i];
    assert forall i | 0 <= i < |c| :: s[|a + b| + i] == c[i];
  }

  /** Attach one more ring to the open chain that ends in evc; its own last event ends it now. */
  method Attach(evc: Event, evn: Event, ghost chain: seq<Event>, ghost args: seq<Event>,
                ghost rings: seq<seq<Event>>, ghost tail: seq<Event>)
    returns (evt: Event)
    requires IsChain(chain) && chain != [] && evc == Last(chain) && IsChain(tail)
    requires rings != [] && ArgumentRings(args, rings) && evn == args[0]
    requires Distinct(chain + Flat(rings) + tail)
    modifies evc`evNext, evn`evPrev
    ensures IsChain(chain + rings[0]) && evt == Last(chain + rings[0]) && IsChain(tail)
    ensures ArgumentRings(args[1..], rings[1..])
  {
    ghost var more := Flat(rings[1..]) + tail;
    assert chain + Flat(rings) + tail == chain + rings[0] + more;
    PartsDistinct(chain, rings[0], more);
    EndsSpare(chain, rings[0]);
    evt := evn.evPrev;
    assert {evc, evn} <= Elems(chain + rings[0]);
    assert {evc, evn} !! Elems(tail) && {evc, evn} !! Elems(Flat(rings[1..]));
    Link(evc, evn, chain, rings[0]);
    ChainJoin(chain, rings[0]);
  }

  lemma AttachFacts(chain: seq<Event>, rings: seq<seq<Event>>, tail: seq<Event>, whole: seq<Event>)
    requires whole == chain + Flat(rings) + tail && Distinct(whole)
    requires chain != [] && rings != [] && rings[0] != []
    ensures chain + rings[0] + Flat(rings[1..]) + tail == whole
    ensures Last(chain) in Elems(whole) && rings[0][0] in Elems(whole)
    ensures rings[0][0] != chain[0] && (tail != [] ==> Last(tail) != Last(chain))
  {
    assert whole[0] == chain[0] && whole[|chain| - 1] == Last(chain) && whole[|chain|] == rings[0][0];
    assert tail != [] ==> whole[|whole| - 1] == Last(tail);
  }

  method AttachAll(evf: Event, args: seq<Event>, ghost rings: seq<seq<Event>>,
                   ghost tail: seq<Event>, ghost whole: seq<Event>)
    returns (evc: Event, ghost chain: seq<Event>)
    requires ArgumentRings(args, rings) && IsChain(tail)
    requires whole == [evf] + Flat(rings) + tail && Distinct(whole)
    requires tail != [] ==> Last(tail).evNext == evf && evf.evPrev == Last(tail)
    modifies Elems(whole)`evNext, Elems(whole)`evPrev
    ensures whole == chain + tail && chain != [] && chain[0] == evf
    ensures IsChain(chain) && evc == Last(chain) && IsChain(tail)
    ensures tail != [] ==> Last(tail).evNext == evf && evf.evPrev == Last(tail)
  {
    ghost var rest := rings;
    chain := [evf];
    evc := evf;
    var i := 0;
    while i < |args|
      invariant 0 <= i <= |args|
      invariant chain != [] && chain[0] == evf && chain + Flat(rest) + tail == whole
      invariant IsChain(chain) && evc == Last(chain) && IsChain(tail)
      invariant tail != [] ==> Last(tail).evNext == evf && evf.evPrev == Last(tail)
      invariant ArgumentRings(args[i..], rest)
    {
      AttachFacts(chain, rest, tail, whole);
      evc := Attach(evc, args[i], chain, args[i..], rest, tail);
      assert args[i..][1..] == args[i + 1..];
      chain, rest := chain + rest[0], rest[1..];
      i := i + 1;
    }
  }

  method Concat(evf: Event, args: seq<Event>, ghost first: seq<Event>, ghost rings: seq<seq<Event>>)
    returns (ring: Event)
    requires IsRing(first) && first[0] == evf
    requires ArgumentRings(args, rings)
    requires Distinct(Concatenated(first, rings))
    modifies Elems(Concatenated(first, rings))`evNext, Elems(Concatenated(first, rings))`evPrev
    ensures ring == evf
    ensures IsRing(Concatenated(first, rings))
  {
    ghost var tail := first[1..];
    ghost var whole := Concatenated(first, rings);
    ChainSplit(first, 1);
    assert first == [evf] + tail;
    assert tail != [] ==> Joined(first, 0) && Last(tail) == Last(first);
    var evl := evf.evNext;
    var evc, chain := AttachAll(evf, args, rings, tail, whole);
    Close(evc, evl, chain, tail);
    return evf;
  }

  method Close(evc: Event, evl: Event, ghost chain: seq<Event>, ghost tail: seq<Event>)
    requires IsChain(chain) && chain != [] && IsChain(tail) && Distinct(chain + tail)
    requires evc == Last(chain) && evl == if tail == [] then chain[0] else tail[0]
    requires tail != [] ==> Last(tail).evNext == chain[0] && chain[0].evPrev == Last(tail)
    modifies evc`evNext, evl`evPrev
    ensures IsRing(chain + tail)
  {
    ghost var whole := chain + tail;
    EndsSpare(chain, tail);
    assert whole[|chain| - 1] == evc && whole[0] == chain[0];
    assert tail != [] ==> whole[|chain|] == evl && Last(whole) == Last(tail);
    Link(evc, evl, chain, tail);
    if tail != [] {
      ChainJoin(chain, tail);
    } else {
      assert whole == chain;
    }
  }

  method Isolate(ev: Event, ghost s: seq<Event>) returns (ring: Event?)
    requires IsRing(s) && s[0] == ev
    modifies Elems(s)`evNext, Elems(s)`evPrev
    ensures IsRing([ev])
    ensures ring == if |s| == 1 then null else s[1]
    ensures |s| > 1 ==> IsRing(s[1..])
  {
    ghost var tail := s[1..];
    assert |s| > 1 ==> Joined(s, 0) && Last(tail) == Last(s);
    ring := null;
    if !(ev.evNext == ev && ev.evPrev == ev) {
      ChainSplit(s, 1);
      ring := ev.evNext;
      Link(ev.evPrev, ev.evNext, tail, []);
      ev.evPrev := ev;
      ev.evNext := ev;
      assert ev !in Elems(tail);
    }
  }

  /** Nearest event in the walking direction for which the walk may stop. */
  method WalkNext(ev: Event, untilOccurred: bool, ghost s: seq<Event>) returns (r: Event, ghost k: nat)
    requires IsRing(s) && s[0] == ev
    requires untilOccurred ==> exists e | e in s :: e.evOccurred
    ensures 1 <= k <= |s| && r == if k < |s| then s[k] else ev
    ensures untilOccurred ==> r.evOccurred
    ensures forall i | 1 <= i < k :: untilOccurred && !s[i].evOccurred
  {
    assert |s| > 1 ==> Joined(s, 0);
    r, k := ev.evNext, 1;
    while untilOccurred && !r.evOccurred
      invariant 1 <= k <= |s| && r == if k < |s| then s[k] else ev
      invariant forall i | 1 <= i < k :: untilOccurred && !s[i].evOccurred
      decreases |s| - k
    {
      assert k + 1 < |s| ==> Joined(s, k);
      r, k := r.evNext, k + 1;
    }
  }

  method WalkPrev(ev: Event, untilOccurred: bool, ghost s: seq<Event>) returns (r: Event, ghost k: nat)
    requires IsRing(s) && s[0] == ev
    requires untilOccurred ==> exists e | e in s :: e.evOccurred
    ensures k < |s| && r == s[k]
    ensures untilOccurred ==> r.evOccurred
    ensures forall i | k < i < |s| :: untilOccurred && !s[i].evOccurred
  {
    r, k := ev.evPrev, |s| - 1;
    while untilOccurred && !r.evOccurred
      invariant k < |s| && r == s[k]
      invariant forall i | k < i < |s| :: untilOccurred && !s[i].evOccurred
      decreases k
    {
      assert k > 0 ==> Joined(s, k - 1);
      r, k := r.evPrev, k - 1;
    }
  }

  /** Frees a whole ring: every event is released once, in ring order, and read only before that. */
  method FreeAll(ev: Event, ghost s: seq<Event>) returns (freed: seq<Event>)
    requires IsRing(s) && s[0] == ev
    ensures freed == s
  {
    freed := [];
    var evc := ev;
    ghost var k := 0;
    while true
      invariant k < |s| && evc == s[k] && freed == s[..k]
      decreases |s| - k
    {
      assert k + 1 < |s| ==> Joined(s, k);
      var evn := evc.evNext;
      freed := freed + [evc];
      evc := evn;
      k := k + 1;
      if evc == ev {
        break;
      }
    }
  }

  /** Entering pth_wait: no event of the ring counts as occurred any more. */
  method MarkPending(ring: Event, ghost s: seq<Event>)
    requires IsRing(s) && s[0] == ring
    modifies Elems(s)`evOccurred
    ensures IsRing(s)
    ensures forall e | e in s :: !e.evOccurred
  {
    var ev := ring;
    ghost var k := 0;
    while true
      invariant k < |s| && ev == s[k] && IsRing(s)
      invariant forall i | 0 <= i < k :: !s[i].evOccurred
      decreases |s| - k
    {
      ev.evOccurred := false;
      assert IsRing(s) by {
        forall i | 0 <= i < |s| - 1 ensures Joined(s, i) { assert old(Joined(s, i)); }
      }
      assert k + 1 < |s| ==> Joined(s, k);
      ev := ev.evNext;
      k := k + 1;
      if ev == ring {
        break;
      }
    }
  }

  /** Concatenation of a single further ring, as all of its users inside the library have it. */
  method ConcatOne(evf: Event, evn: Event, ghost first: seq<Event>, ghost ring: seq<Event>)
    requires IsRing(first) && first[0] == evf && IsRing(ring) && ring[0] == evn
    requires Distinct([evf] + ring + first[1..])
    modifies Elems([evf] + ring + first[1..])`evNext, Elems([evf] + ring + first[1..])`evPrev
    ensures IsRing([evf] + ring + first[1..])
  {
    assert Flat([ring]) == ring + Flat([ring][1..]);
    assert Concatenated(first, [ring]) == [evf] + ring + first[1..];
    assert ArgumentRings([evn][1..], [ring][1..]);
    var _ := Concat(evf, [evn], first, [ring]);
  }

  /** How pth_select_ev rings up its own events with the caller's: select, extra ring, timeout. */
  ghost function SelectRing(ev: Event, timeout: Event?, extra: seq<Event>): seq<Event> {
    [ev] + extra + (if timeout == null then [] else [timeout])
  }

  method RingUp(ev: Event, timeout: Event?, evExtra: Event?, ghost extra: seq<Event>)
    requires IsRing([ev]) && (timeout != null ==> IsRing([timeout]))
    requires if evExtra == null then extra == [] else IsRing(extra) && extra[0] == evExtra
    requires Distinct(SelectRing(ev, timeout, extra))
    modifies Elems(SelectRing(ev, timeout, extra))`evNext, Elems(SelectRing(ev, timeout, extra))`evPrev
    ensures IsRing(SelectRing(ev, timeout, extra))
  {
    ghost var whole := SelectRing(ev, timeout, extra);
    ghost var own := SelectRing(ev, timeout, []);
    assert whole[0] == ev && (timeout != null ==> Last(whole) == timeout);
    assert forall i | 0 <= i < |extra| :: whole[1 + i] == extra[i];
    if timeout != null {
      assert own == [ev] + [timeout] + [ev][1..];
      ConcatOne(ev, timeout, [ev], [timeout]);
      assert Elems(own) !! Elems(extra);
    }
    if evExtra != null {
      assert whole == [ev] + extra + own[1..];
      ConcatOne(ev, evExtra, own, extra);
    } else {
      assert own == whole;
    }
  }

  /** The two isolations after the wait: every ring is again what it was before. */
  method GiveBack(ev: Event, timeout: Event?, ghost extra: seq<Event>)
    requires IsRing(SelectRing(ev, timeout, extra))
    modifies Elems(SelectRing(ev, timeout, extra))`evNext, Elems(SelectRing(ev, timeout, extra))`evPrev
    ensures IsRing([ev]) && (timeout != null ==> IsRing([timeout]))
    ensures extra != [] ==> IsRing(extra)
  {
    ghost var whole := SelectRing(ev, timeout, extra);
    ghost var rest := whole[1..];
    var _ := Isolate(ev, whole);
    if timeout != null {
      assert rest == extra + [timeout];
      assert ev !in Elems(extra + [timeout]);
      GiveBackTimeout(timeout, extra);
    } else {
      assert rest == extra;
    }
  }

  method GiveBackTimeout(timeout: Event, ghost extra: seq<Event>)
    requires IsRing(extra + [timeout])
    modifies Elems(extra + [timeout])`evNext, Elems(extra + [timeout])`evPrev
    ensures IsRing([timeout]) && (extra != [] ==> IsRing(extra))
  {
    ghost var rest := extra + [timeout];
    assert rest[|extra|..] + rest[..|extra|] == [timeout] + extra;
    Rotate(rest, |extra|);
    var _ := Isolate(timeout, [timeout] + extra);
    assert ([timeout] + extra)[1..] == extra;
  }

  /** A ring fixes every link of its events. */
  lemma RingLinks(s: seq<Event>, i: nat)
    requires IsRing(s) && i < |s|
    ensures s[i].evNext == (if i + 1 < |s| then s[i + 1] else s[0])
    ensures s[i].evPrev == (if i > 0 then s[i - 1] else Last(s))
  {
    assert i + 1 < |s| ==> Joined(s, i);
    assert i > 0 ==> Joined(s, i - 1);
  }

  /** From ringing up to giving back: the caller's ring comes back link by link. */
  method SelectEv(ev: Event, timeout: Event?, evExtra: Event?, ghost extra: seq<Event>)
    requires IsRing([ev]) && (timeout != null ==> IsRing([timeout]))
    requires if evExtra == null then extra == [] else IsRing(extra) && extra[0] == evExtra
    requires Distinct(SelectRing(ev, timeout, extra))
    modifies Elems(SelectRing(ev, timeout, extra))
    ensures forall e | e in extra :: e.evNext == old(e.evNext) && e.evPrev == old(e.evPrev)
    ensures IsRing([ev]) && (timeout != null ==> IsRing([timeout]))
  {
    forall i | 0 <= i < |extra|
      ensures extra[i].evNext == (if i + 1 < |extra| then extra[i + 1] else extra[0])
      ensures extra[i].evPrev == (if i > 0 then extra[i - 1] else Last(extra))
    {
      RingLinks(extra, i);
    }
    RingUp(ev, timeout, evExtra, extra);
    MarkPending(ev, SelectRing(ev, timeout, extra));
    GiveBack(ev, timeout, extra);
    forall e | e in extra ensures e.evNext == old(e.evNext) && e.evPrev == old(e.evPrev) {
      var i :| 0 <= i < |extra| && extra[i] == e;
      RingLinks(extra, i);
    }
  }

  ghost function Occurrences(s: seq<Event>): nat
    reads Elems(s)
  {
    if s == [] then 0 else Occurrences(s[1..]) + if s[0].evOccurred then 1 else 0
  }

  lemma {:induction false} OccurrencesBound(s: seq<Event>)
    ensures Occurrences(s) <= |s|
    ensures Occurrences(s) == |s| <==> forall e | e in s :: e.evOccurred
  {
    if s != [] {
      OccurrencesBound(s[1..]);
      assert forall e :: e in s <==> e == s[0] || e in s[1..];
    }
  }

  /**
   Leaving pth_wait: the documentation promises the number of occurred events;
   the loop counts the whole ring, so the two agree only when all have occurred.
   */
  method CountAfterWait(ring: Event, ghost s: seq<Event>) returns (n: nat)
    requires IsRing(s) && s[0] == ring
    ensures n == |s|
    ensures n == Occurrences(s) <==> forall e | e in s :: e.evOccurred
  {
    n := 0;
    var ev := ring;
    while true
      invariant n < |s| && ev == s[n] && IsRing(s)
      decreases |s| - n
    {
      RingLinks(s, n);
      n := n + 1;
      ev := ev.evNext;
      if ev == ring {
        break;
      }
    }
    OccurrencesBound(s);
  }
}
