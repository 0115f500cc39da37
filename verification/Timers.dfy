/**
 The event manager in M:1 mode: the scan over the event rings of all waiting
 threads, cancellation requests, the choice of the next timer and the time to
 sleep, the result of select, late descriptor events, and which threads become
 ready.
 */
module Timers {

  /**
   What an event waits for: a deadline, a free mutex, a descriptor that select
   answers for, or something else that the scan finds occurred or not.
   */
  datatype Kind = Timer(deadline: int) | Mutex(free: bool) | Descriptor(ready: bool) | Other(fires: bool)

  class Ev {
    const kind: Kind
    var flags: bool
    var occurred: bool

    predicate Due(now: int) {
      match kind
      case Timer(deadline) => deadline < now
      case Mutex(free) => free
      case Descriptor(_) => false
      case Other(fires) => fires
    }

    /** A descriptor that select reported. */
    predicate Late(io: bool) {
      io && kind.Descriptor? && kind.ready
    }
  }

  datatype Timeout = Poll | After(delay: int) | Forever

  ghost function Elems(ring: seq<Ev>): set<Ev> {
    set i | 0 <= i < |ring| :: ring[i]
  }

  ghost function All(rings: seq<seq<Ev>>): set<Ev> {
    set i, j | 0 <= i < |rings| && 0 <= j < |rings[i]| :: rings[i][j]
  }

  /** A timer still to come. */
  ghost predicate Pending(e: Ev, before: set<Ev>) {
    e.kind.Timer? && e !in before
  }

  /** The first event of a ring that a cancellation request may interrupt. */
  function Stop(ring: seq<Ev>): (k: nat)
    ensures k <= |ring| && forall j | 0 <= j < k :: ring[j].kind.Mutex?
    ensures k < |ring| ==> !ring[k].kind.Mutex?
  {
    if ring == [] || !ring[0].kind.Mutex? then 0 else 1 + Stop(ring[1..])
  }

  /** The events of a thread that the first pass looks at. */
  function Seen(ring: seq<Ev>, cancel: bool): seq<Ev> {
    if cancel then ring[..Stop(ring)] else ring
  }

  predicate Interrupted(ring: seq<Ev>, cancel: bool) {
    cancel && Stop(ring) < |ring|
  }

  ghost function SeenOf(rings: seq<seq<Ev>>, cancel: seq<bool>): seq<seq<Ev>>
    requires |cancel| == |rings|
  {
    seq(|rings|, i requires 0 <= i < |rings| => Seen(rings[i], cancel[i]))
  }

  /** An event found to have occurred that had not, before this or earlier in the walk. */
  ghost predicate Found(seen: seq<Ev>, before: set<Ev>, done: set<Ev>, now: int) {
    exists e | e in Elems(seen) :: e.Due(now) && e !in before && e !in done
  }

  /** The first pass wakes the thread: cancelled, or an event found to have occurred just now. */
  ghost predicate Wakes(rings: seq<seq<Ev>>, cancel: seq<bool>, before: set<Ev>, now: int, i: int)
    requires |cancel| == |rings| && 0 <= i < |rings|
  {
    Interrupted(rings[i], cancel[i]) || Found(Seen(rings[i], cancel[i]), before, All(SeenOf(rings, cancel)[..i]), now)
  }

  ghost predicate Still(rings: seq<seq<Ev>>, woken: set<nat>, e: Ev) {
    exists i | 0 <= i < |rings| && i !in woken :: e in Elems(rings[i])
  }

  class Manager {
    var nextEv: Ev?
    var nextValue: int

    /**
     Of the events done so far: those due are marked, the earliest timer still
     to come is remembered, and it alone carries the flag.
     */
    ghost predicate Tracks(all: set<Ev>, done: set<Ev>, before: set<Ev>, now: int)
      reads this, all
    {
      && done <= all
      && (forall e | e in all :: e.flags <==> e == nextEv)
      && (forall e | e in all :: e.occurred <==> e in before || (e in done && e.Due(now)))
      && (nextEv != null ==>
            && nextEv in done && Pending(nextEv, before)
            && nextEv.kind.deadline >= now && nextValue == nextEv.kind.deadline)
      && (forall e | e in done && Pending(e, before) && e.kind.deadline >= now ::
            nextEv != null && nextEv.kind.Timer? && nextEv.kind.deadline <= e.kind.deadline)
    }

    /** One event of a ring. */
    method Check(e: Ev, now: int, ghost all: set<Ev>, ghost done: set<Ev>, ghost before: set<Ev>) returns (hit: bool)
      requires e in all && Tracks(all, done, before, now)
      modifies this, all
      ensures Tracks(all, done + {e}, before, now)
      ensures hit <==> !old(e.occurred) && e.Due(now)
    {
      hit := false;
      if !e.occurred {
        if e.kind.Timer? && e.kind.deadline >= now {
          if !e.flags {
            if nextEv == null || e.kind.deadline < nextValue {
              if nextEv != null {
                nextEv.flags := false;
              }
              nextEv := e;
              e.flags := true;
              nextValue := e.kind.deadline;
            }
          }
        } else {
          hit := e.Due(now);
        }
        if hit {
          e.occurred := true;
        }
      }
    }

    /** The events of one thread's ring, up to where a cancellation request ends the walk. */
    method ScanRing(ring: seq<Ev>, cancel: bool, now: int,
                    ghost all: set<Ev>, ghost done: set<Ev>, ghost before: set<Ev>)
      returns (any: bool)
      requires Elems(ring) <= all && Tracks(all, done, before, now)
      modifies this, all
      ensures Tracks(all, done + Elems(Seen(ring, cancel)), before, now)
      ensures any <==> Interrupted(ring, cancel) || Found(Seen(ring, cancel), before, done, now)
    {
      any := false;
      ghost var seen: set<Ev> := {};
      assert done + {} == done;
      var i := 0;
      while i < |ring| && !(cancel && !ring[i].kind.Mutex?)
        invariant i <= |ring| && (cancel ==> i <= Stop(ring))
        invariant Tracks(all, done + seen, before, now)
        invariant seen == Elems(ring[..i])
        invariant any <==> Found(ring[..i], before, done, now)
      {
        var hit := Check(ring[i], now, all, done + seen, before);
        ElemsSplits(ring, i);
        assert done + seen + {ring[i]} == done + (seen + {ring[i]});
        seen := seen + {ring[i]};
        any := any || hit;
        i := i + 1;
      }
      assert ring[..i] == Seen(ring, cancel);
      if i < |ring| {
        any := true;
      }
    }

    /** One waiting thread. */
    method ScanThread(rings: seq<seq<Ev>>, cancel: seq<bool>, i: nat, now: int, ghost before: set<Ev>)
      returns (any: bool)
      requires i < |rings| == |cancel| && Tracks(All(rings), All(SeenOf(rings, cancel)[..i]), before, now)
      modifies this, All(rings)
      ensures Tracks(All(rings), All(SeenOf(rings, cancel)[..i + 1]), before, now)
      ensures any <==> Wakes(rings, cancel, before, now, i)
    {
      ghost var seen := SeenOf(rings, cancel);
      AllSplits(seen, i);
      AllSplits(rings, i);
      any := ScanRing(rings[i], cancel[i], now, All(rings), All(seen[..i]), before);
    }

    /** The first pass: every waiting thread; those cancelled or with an occurred event become ready. */
    method ScanAll(rings: seq<seq<Ev>>, cancel: seq<bool>, now: int, ghost before: set<Ev>) returns (woken: set<nat>)
      requires |cancel| == |rings|
      requires forall e | e in All(rings) :: !e.flags && (e.occurred <==> e in before)
      modifies this, All(rings)
      ensures Tracks(All(rings), All(SeenOf(rings, cancel)), before, now)
      ensures forall i :: i in woken <==> 0 <= i < |rings| && Wakes(rings, cancel, before, now, i)
    {
      nextEv := null;
      woken := {};
      ghost var seen := SeenOf(rings, cancel);
      for i := 0 to |rings|
        invariant Tracks(All(rings), All(seen[..i]), before, now)
        invariant forall k :: k in woken <==> 0 <= k < i && Wakes(rings, cancel, before, now, k)
      {
        var any := ScanThread(rings, cancel, i, now, before);
        if any {
          woken := woken + {i};
        }
      }
      assert seen[..|rings|] == seen;
    }

    /** How long select may sleep; a poll gives up the timer that was chosen. */
    method ChooseTimeout(now: int, poll: bool) returns (timeout: Timeout)
      modifies nextEv
      ensures timeout == if poll then Poll else if nextEv != null then After(nextValue - now) else Forever
      ensures nextEv != null ==> nextEv.flags == (old(nextEv.flags) && !poll) && nextEv.occurred == old(nextEv.occurred)
    {
      if poll {
        timeout := Poll;
        if nextEv != null {
          nextEv.flags := false;
        }
      } else if nextEv != null {
        timeout := After(nextValue - now);
      } else {
        timeout := Forever;
      }
    }

    /** When select timed out the chosen timer has occurred; either way its flag goes. */
    method Expire(poll: bool, rc: int)
      modifies nextEv
      ensures nextEv != null && !poll ==> !nextEv.flags && nextEv.occurred == (old(nextEv.occurred) || rc == 0)
      ensures nextEv != null && poll ==> nextEv.flags == old(nextEv.flags) && nextEv.occurred == old(nextEv.occurred)
    {
      if !poll && nextEv != null {
        if rc == 0 {
          nextEv.flags := false;
          nextEv.occurred := true;
        } else {
          nextEv.flags := false;
        }
      }
    }

    /**
     The whole event manager: who is woken at once, how long select sleeps,
     what has occurred after it, and who is ready.
     */
    method Manage(rings: seq<seq<Ev>>, cancel: seq<bool>, now: int, dopoll: bool, rc: int, pipe: bool)
      returns (timeout: Timeout, woken: set<nat>, ready: set<nat>)
      requires |cancel| == |rings| && forall e | e in All(rings) :: !e.flags
      modifies this, All(rings)
      ensures forall e | e in All(rings) :: !e.flags
      ensures var before := set e | e in All(rings) && old(e.occurred);
        && (forall i :: i in woken <==> 0 <= i < |rings| && Wakes(rings, cancel, before, now, i))
        && (timeout == Poll <==> dopoll || woken != {})
        && (timeout != Poll ==> Earliest(rings, before, now, timeout))
        && (timeout.After? && rc == 0 ==>
              exists c | c in All(rings) && Pending(c, before) && c.kind.deadline == now + timeout.delay ::
                forall e | e in All(rings) :: e.occurred <==> e in before || e == c)
        && (!(timeout.After? && rc == 0) ==> forall e | e in All(rings) :: e.occurred <==>
              || e in before || (e in All(SeenOf(rings, cancel)) && e.Due(now))
              || (e.Late(Reported(rc, pipe, timeout == Poll)) && Still(rings, woken, e)))
      ensures forall i :: i in ready <==>
        0 <= i < |rings| && (cancel[i] || exists e | e in Elems(rings[i]) :: e.occurred)
    {
      ghost var before := set e | e in All(rings) && e.occurred;
      timeout, woken := Sleep(rings, cancel, now, dopoll, rc, before);
      ready := CollectReady(rings, cancel, woken, Reported(rc, pipe, timeout == Poll));
    }

    /** The first pass, the choice of the time to sleep, and the timer that has run out after it. */
    method Sleep(rings: seq<seq<Ev>>, cancel: seq<bool>, now: int, dopoll: bool, rc: int, ghost before: set<Ev>)
      returns (timeout: Timeout, woken: set<nat>)
      requires |cancel| == |rings|
      requires forall e | e in All(rings) :: !e.flags && (e.occurred <==> e in before)
      modifies this, All(rings)
      ensures forall e | e in All(rings) :: !e.flags
      ensures forall i :: i in woken <==> 0 <= i < |rings| && Wakes(rings, cancel, before, now, i)
      ensures forall i | i in woken :: cancel[i] || exists e | e in Elems(rings[i]) :: e.occurred
      ensures timeout == Poll <==> dopoll || woken != {}
      ensures timeout != Poll ==> Earliest(rings, before, now, timeout)
      ensures timeout.After? && rc == 0 ==>
        exists c | c in All(rings) && Pending(c, before) && c.kind.deadline == now + timeout.delay ::
          forall e | e in All(rings) :: e.occurred <==> e in before || e == c
      ensures !(timeout.After? && rc == 0) ==>
        forall e | e in All(rings) :: e.occurred <==> e in before || (e in All(SeenOf(rings, cancel)) && e.Due(now))
    {
      woken := ScanAll(rings, cancel, now, before);
      WokenHave(rings, cancel, before, now, woken);
      if woken == {} {
        NothingDue(rings, cancel, before, now);
        NextIsEarliest(rings, before, now);
      }
      var poll := dopoll || woken != {};
      timeout := ChooseTimeout(now, poll);
      Expire(poll, rc);
    }

    lemma WokenHave(rings: seq<seq<Ev>>, cancel: seq<bool>, before: set<Ev>, now: int, woken: set<nat>)
      requires |cancel| == |rings| && Tracks(All(rings), All(SeenOf(rings, cancel)), before, now)
      requires forall i | i in woken :: i < |rings| && Wakes(rings, cancel, before, now, i)
      ensures forall i | i in woken :: cancel[i] || exists e | e in Elems(rings[i]) :: e.occurred
    {
      forall i | i in woken && !cancel[i] ensures exists e | e in Elems(rings[i]) :: e.occurred {
        AllSplits(rings, i);
        AllSplits(SeenOf(rings, cancel), i);
        assert Wakes(rings, cancel, before, now, i);
      }
    }

    lemma NothingDue(rings: seq<seq<Ev>>, cancel: seq<bool>, before: set<Ev>, now: int)
      requires |cancel| == |rings| && forall i | 0 <= i < |rings| :: !Wakes(rings, cancel, before, now, i)
      ensures SeenOf(rings, cancel) == rings
      ensures forall e | e in All(rings) :: e in before || !e.Due(now)
    {
      forall i | 0 <= i < |rings| ensures !Interrupted(rings[i], cancel[i]) {
        assert !Wakes(rings, cancel, before, now, i);
      }
      NoneInterrupted(rings, cancel);
      for i := 0 to |rings|
        invariant forall e | e in All(rings[..i]) :: e in before || !e.Due(now)
      {
        AllSplits(rings, i);
        assert !Wakes(rings, cancel, before, now, i);
        assert SeenOf(rings, cancel)[i] == rings[i];
      }
      assert rings[..|rings|] == rings;
    }

    lemma NextIsEarliest(rings: seq<seq<Ev>>, before: set<Ev>, now: int)
      requires Tracks(All(rings), All(rings), before, now)
      requires forall e | e in All(rings) :: e in before || !e.Due(now)
      ensures Earliest(rings, before, now, if nextEv == null then Forever else After(nextValue - now))
    {
    }
  }

  /** Whether descriptors are left after the byte in the signal pipe has been discounted. */
  predicate Reported(rc: int, pipe: bool, poll: bool) {
    (if !poll && rc > 0 && pipe then rc - 1 else rc) > 0
  }

  /** The time to sleep is up to the earliest timer still to come, or unlimited if there is none. */
  ghost predicate Earliest(rings: seq<seq<Ev>>, before: set<Ev>, now: int, timeout: Timeout) {
    match timeout
    case Poll => false
    case Forever => forall e | e in All(rings) :: !Pending(e, before)
    case After(delay) =>
      && delay >= 0
      && (exists e | e in All(rings) :: Pending(e, before) && e.kind.deadline == now + delay)
      && (forall e | e in All(rings) && Pending(e, before) :: e.kind.deadline >= now + delay)
  }

  /**
   The second pass: the threads still waiting get their late descriptor events,
   and become ready if an event has occurred or they are cancelled.
   */
  method CollectReady(rings: seq<seq<Ev>>, cancel: seq<bool>, woken: set<nat>, io: bool) returns (ready: set<nat>)
    requires |cancel| == |rings|
    requires forall i | i in woken :: i < |rings| && (cancel[i] || exists e | e in Elems(rings[i]) :: e.occurred)
    modifies All(rings)
    ensures forall e | e in All(rings) :: e.flags == old(e.flags)
    ensures forall e | e in All(rings) :: e.occurred <==> old(e.occurred) || (e.Late(io) && Still(rings, woken, e))
    ensures forall i :: i in ready <==> 0 <= i < |rings| && (cancel[i] || exists e | e in Elems(rings[i]) :: e.occurred)
  {
    ready := woken;
    ghost var had := set e | e in All(rings) && e.occurred;
    ghost var done: set<Ev> := {};
    for i := 0 to |rings|
      invariant Marked(All(rings), had, done, io)
      invariant forall e | e in All(rings) :: e.flags == old(e.flags)
      invariant forall e :: e in done <==> Still(rings[..i], woken, e)
      invariant forall k :: k in ready <==> k in woken || (0 <= k < i && (cancel[k] || Answered(rings[k], had, io)))
    {
      AllSplits(rings, i);
      StillSplits(rings, woken, i);
      if i !in woken {
        var any := LateRing(rings[i], io, All(rings), had, done);
        done := done + Elems(rings[i]);
        if any || cancel[i] {
          ready := ready + {i};
        }
      }
    }
    assert rings[..|rings|] == rings;
    ReadyIff(rings, cancel, woken, ready, had, done, io);
  }

  ghost predicate Marked(all: set<Ev>, had: set<Ev>, done: set<Ev>, io: bool)
    reads all
  {
    forall e | e in all :: e.occurred <==> e in had || (e.Late(io) && e in done)
  }

  ghost predicate Answered(ring: seq<Ev>, had: set<Ev>, io: bool) {
    exists e | e in Elems(ring) :: e in had || e.Late(io)
  }

  method LateRing(ring: seq<Ev>, io: bool, ghost all: set<Ev>, ghost had: set<Ev>, ghost done: set<Ev>)
    returns (any: bool)
    requires Elems(ring) <= all && Marked(all, had, done, io)
    modifies all
    ensures forall e | e in all :: e.flags == old(e.flags)
    ensures Marked(all, had, done + Elems(ring), io)
    ensures any <==> Answered(ring, had, io)
  {
    any := false;
    for i := 0 to |ring|
      invariant forall e | e in all :: e.flags == old(e.flags)
      invariant Marked(all, had, done + Elems(ring[..i]), io)
      invariant any <==> Answered(ring[..i], had, io)
    {
      ElemsSplits(ring, i);
      assert ring[i] in Elems(ring);
      if !ring[i].occurred && ring[i].Late(io) {
        ring[i].occurred := true;
      }
      any := any || ring[i].occurred;
    }
    assert ring[..|ring|] == ring;
  }

  lemma StillSplits(rings: seq<seq<Ev>>, woken: set<nat>, i: nat)
    requires i < |rings|
    ensures forall e ::
      Still(rings[..i + 1], woken, e) <==> Still(rings[..i], woken, e) || (i !in woken && e in Elems(rings[i]))
  {
  }

  lemma ReadyIff(rings: seq<seq<Ev>>, cancel: seq<bool>, woken: set<nat>, ready: set<nat>,
                 had: set<Ev>, done: set<Ev>, io: bool)
    requires |cancel| == |rings| && Marked(All(rings), had, done, io)
    requires forall e :: e in done <==> Still(rings, woken, e)
    requires forall i | i in woken :: i < |rings| && (cancel[i] || exists e | e in Elems(rings[i]) :: e in had)
    requires forall k :: k in ready <==> k in woken || (0 <= k < |rings| && (cancel[k] || Answered(rings[k], had, io)))
    ensures forall i :: i in ready <==> 0 <= i < |rings| && (cancel[i] || exists e | e in Elems(rings[i]) :: e.occurred)
  {
  }

  lemma NoneInterrupted(rings: seq<seq<Ev>>, cancel: seq<bool>)
    requires |cancel| == |rings| && forall i | 0 <= i < |rings| :: !Interrupted(rings[i], cancel[i])
    ensures SeenOf(rings, cancel) == rings
  {
    forall i | 0 <= i < |rings| ensures SeenOf(rings, cancel)[i] == rings[i] {
      assert !Interrupted(rings[i], cancel[i]);
      assert rings[i][..|rings[i]|] == rings[i];
    }
  }

  lemma ElemsSplits(ring: seq<Ev>, i: nat)
    requires i < |ring|
    ensures Elems(ring[..i + 1]) == Elems(ring[..i]) + {ring[i]}
  {
    assert ring[..i + 1] == ring[..i] + [ring[i]];
  }

  lemma AllSplits(rings: seq<seq<Ev>>, i: nat)
    requires i < |rings|
    ensures All(rings[..i + 1]) == All(rings[..i]) + Elems(rings[i])
    ensures Elems(rings[i]) <= All(rings)
  {
    forall e | e in All(rings[..i]) + Elems(rings[i]) ensures e in All(rings[..i + 1]) {
      if e in All(rings[..i]) {
        var k, j :| 0 <= k < i && 0 <= j < |rings[k]| && rings[k][j] == e;
        assert rings[..i + 1][k][j] == e;
      } else {
        var j :| 0 <= j < |rings[i]| && rings[i][j] == e;
        assert rings[..i + 1][i][j] == e;
      }
    }
  }
}
