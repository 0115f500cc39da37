/**
 Private mutexes: who owns which, how often, and where the ownership is
 recorded, for any number of threads and mutexes over every run.
 */
module Mutex {
  import opened Basics
  type Mid = nat

  datatype Mx = Mx(locked: bool, owner: Option<Tid>, count: int, recursive: bool, waitcount: int)

  /** The two places where a thread records what it owns: one slot and a ring. */
  datatype Own = Own(first: Option<Mid>, ring: seq<Mid>)

  /** A thread inside pth_mutex_acquire; on a bounded native it waits in select. */
  datatype Wait = Wait(m: Mid, bounded: bool)

  datatype State = State(mx: map<Mid, Mx>, own: map<Tid, Own>, wait: map<Tid, Wait>)

  datatype Op =
    | Acquire(t: Tid, m: Mid, tryonly: bool, bounded: bool)
    | Wake(t: Tid, interrupted: bool)
    | Release(t: Tid, m: Mid)

  datatype Code = OK | EBUSY | EDEADLK | EPERM | EINTR | BLOCKED

  // ---- records ----

  function Records(o: Own, m: Mid): nat {
    (if o.first == Some(m) then 1 else 0) + multiset(o.ring)[m]
  }

  function Record(o: Own, m: Mid): (r: Own)
    ensures forall k :: Records(r, k) == Records(o, k) + if k == m then 1 else 0
  {
    if o.first.None? then o.(first := Some(m)) else o.(ring := o.ring + [m])
  }

  function Without(ring: seq<Mid>, m: Mid): (r: seq<Mid>)
    ensures m in ring ==> multiset(r) == multiset(ring) - multiset{m}
    ensures m !in ring ==> r == ring
  {
    if ring == [] then []
    else
      assert ring == [ring[0]] + ring[1..];
      if ring[0] == m then ring[1..] else [ring[0]] + Without(ring[1..], m)
  }

  function Forget(o: Own, m: Mid): (r: Own)
    ensures Records(o, m) == 1 ==> forall k :: Records(r, k) == Records(o, k) - if k == m then 1 else 0
  {
    if o.first == Some(m) then o.(first := None) else o.(ring := Without(o.ring, m))
  }

  // ---- steps ----

  predicate Known(s: State, op: Op) {
    match op
    case Acquire(t, m, _, _) => t in s.own && m in s.mx && t !in s.wait
    case Wake(t, interrupted) =>
      t in s.wait && t in s.own && s.wait[t].m in s.mx && (interrupted ==> !s.wait[t].bounded)
    case Release(t, m) => t in s.own && m in s.mx && t !in s.wait
  }

  function Taken(s: State, t: Tid, m: Mid): State
    requires t in s.own && m in s.mx
  {
    var taken := s.mx[m].(locked := true, owner := Some(t), count := 1);
    State(s.mx[m := taken], s.own[t := Record(s.own[t], m)], s.wait - {t})
  }

  function Waits(s: State, t: Tid, w: Wait): State
    requires w.m in s.mx
  {
    State(s.mx[w.m := s.mx[w.m].(waitcount := s.mx[w.m].waitcount + if w.bounded then 1 else 0)], s.own, s.wait[t := w])
  }

  function Stopped(s: State, t: Tid): State
    requires t in s.wait && s.wait[t].m in s.mx
  {
    var w := s.wait[t];
    State(s.mx[w.m := s.mx[w.m].(waitcount := s.mx[w.m].waitcount - if w.bounded then 1 else 0)], s.own, s.wait - {t})
  }

  function Dropped(s: State, t: Tid, m: Mid): State
    requires t in s.own && m in s.mx
  {
    State(s.mx[m := s.mx[m].(locked := false, owner := None, count := 0)], s.own[t := Forget(s.own[t], m)], s.wait)
  }

  function Answer(s: State, op: Op): Code
    requires Known(s, op)
  {
    match op
    case Acquire(t, m, tryonly, _) =>
      var x := s.mx[m];
      if !x.locked && x.waitcount == 0 then OK
      else if x.owner == Some(t) && x.count >= 1 then
        if x.recursive then OK else if tryonly then EBUSY else EDEADLK
      else if tryonly then EBUSY
      else BLOCKED
    case Wake(t, interrupted) =>
      if interrupted then EINTR else if s.mx[s.wait[t].m].locked then BLOCKED else OK
    case Release(t, m) =>
      if s.mx[m].locked && s.mx[m].owner == Some(t) then OK else EPERM
  }

  function Step(s: State, op: Op): State
    requires Known(s, op)
  {
    var rc := Answer(s, op);
    match op
    case Acquire(t, m, _, bounded) =>
      if rc == BLOCKED then Waits(s, t, Wait(m, bounded))
      else if rc != OK then s
      else if !s.mx[m].locked && s.mx[m].waitcount == 0 then Taken(s, t, m)
      else s.(mx := s.mx[m := s.mx[m].(count := s.mx[m].count + 1)])
    case Wake(t, _) =>
      if rc == EINTR then Stopped(s, t)
      else if rc == BLOCKED then s
      else Taken(Stopped(s, t), t, s.wait[t].m)
    case Release(t, m) =>
      if rc != OK then s
      else if s.mx[m].count > 1 then s.(mx := s.mx[m := s.mx[m].(count := s.mx[m].count - 1)])
      else Dropped(s, t, m)
  }

  /** The same steps on the fields of mutexes and threads, in place. */
  class Table {
    var mx: map<Mid, Mx>
    var own: map<Tid, Own>
    var wait: map<Tid, Wait>

    ghost function Contents(): State
      reads this
    {
      State(mx, own, wait)
    }

    method Take(t: Tid, m: Mid)
      requires t in own && m in mx
      modifies this`mx, this`own
      ensures Contents() == Taken(old(Contents()), t, m).(wait := wait)
    {
      mx := mx[m := mx[m].(locked := true, owner := Some(t), count := 1)];
      if own[t].first.None? {
        own := own[t := own[t].(first := Some(m))];
      } else {
        own := own[t := own[t].(ring := own[t].ring + [m])];
      }
    }

    /** pth_mutex_acquire up to its first wait. */
    method Lock(t: Tid, m: Mid, tryonly: bool, bounded: bool) returns (rc: Code)
      requires Known(Contents(), Acquire(t, m, tryonly, bounded))
      modifies this
      ensures rc == Answer(old(Contents()), Acquire(t, m, tryonly, bounded))
      ensures Contents() == Step(old(Contents()), Acquire(t, m, tryonly, bounded))
    {
      if !mx[m].locked && mx[m].waitcount == 0 {
        Take(t, m);
        assert wait == old(wait) - {t};
        return OK;
      }
      if mx[m].owner == Some(t) && mx[m].count >= 1 {
        if mx[m].recursive {
          mx := mx[m := mx[m].(count := mx[m].count + 1)];
          return OK;
        }
        return if tryonly then EBUSY else EDEADLK;
      }
      if tryonly {
        return EBUSY;
      }
      if bounded {
        mx := mx[m := mx[m].(waitcount := mx[m].waitcount + 1)];
      }
      wait := wait[t := Wait(m, bounded)];
      return BLOCKED;
    }

    /** One turn of the wait loop, from the return of the wait on. */
    method Retry(t: Tid, interrupted: bool) returns (rc: Code)
      requires Known(Contents(), Wake(t, interrupted))
      modifies this
      ensures rc == Answer(old(Contents()), Wake(t, interrupted))
      ensures Contents() == Step(old(Contents()), Wake(t, interrupted))
    {
      var w := wait[t];
      wait := wait - {t};
      if interrupted {
        return EINTR;
      }
      if w.bounded {
        mx := mx[w.m := mx[w.m].(waitcount := mx[w.m].waitcount - 1)];
      }
      if !mx[w.m].locked {
        Take(t, w.m);
        return OK;
      }
      if w.bounded {
        mx := mx[w.m := mx[w.m].(waitcount := mx[w.m].waitcount + 1)];
      }
      wait := wait[t := w];
      assert mx == old(mx) && wait == old(wait);
      return BLOCKED;
    }

    method Unlock(t: Tid, m: Mid) returns (rc: Code)
      requires Known(Contents(), Release(t, m))
      modifies this
      ensures rc == Answer(old(Contents()), Release(t, m))
      ensures Contents() == Step(old(Contents()), Release(t, m))
    {
      if !mx[m].locked {
        return EPERM;
      }
      if mx[m].owner != Some(t) {
        return EPERM;
      }
      if mx[m].count - 1 <= 0 {
        Give(t, m);
      } else {
        mx := mx[m := mx[m].(count := mx[m].count - 1)];
      }
      return OK;
    }

    /** The last release: the mutex is free and no longer recorded. */
    method Give(t: Tid, m: Mid)
      requires t in own && m in mx
      modifies this`mx, this`own
      ensures Contents() == Dropped(old(Contents()), t, m)
    {
      mx := mx[m := mx[m].(locked := false, owner := None, count := 0)];
      if own[t].first == Some(m) {
        own := own[t := own[t].(first := None)];
      } else {
        own := own[t := own[t].(ring := Without(own[t].ring, m))];
      }
    }
  }

  // ---- what every state satisfies ----

  predicate MxFits(x: Mx) {
    && (x.locked <==> x.owner.Some?)
    && (x.locked <==> x.count >= 1)
    && x.count >= 0
    && (!x.recursive ==> x.count <= 1)
  }

  /** The number of times a thread records a mutex: once when it owns it, else never. */
  predicate RecordFits(s: State, t: Tid, m: Mid)
    requires t in s.own
  {
    Records(s.own[t], m) == if m in s.mx && s.mx[m].owner == Some(t) then 1 else 0
  }

  ghost function BoundedOn(s: State, m: Mid): set<Tid> {
    set t | t in s.wait && s.wait[t] == Wait(m, true)
  }

  ghost predicate Inv(s: State) {
    && (forall m | m in s.mx :: MxFits(s.mx[m]))
    && (forall m | m in s.mx && s.mx[m].owner.Some? :: s.mx[m].owner.value in s.own)
    && (forall t, m | t in s.own :: RecordFits(s, t, m))
    && (forall t | t in s.wait :: t in s.own && s.wait[t].m in s.mx)
    && (forall m | m in s.mx :: s.mx[m].waitcount == |BoundedOn(s, m)|)
  }

  lemma TakenKeeps(s: State, t: Tid, m: Mid)
    requires Inv(s) && t in s.own && m in s.mx && !s.mx[m].locked && t !in s.wait
    ensures Inv(Taken(s, t, m))
  {
    var r := Taken(s, t, m);
    assert r.wait == s.wait;
    forall u, k | u in r.own ensures RecordFits(r, u, k) {
      assert RecordFits(s, u, k);
    }
    forall k | k in r.mx ensures r.mx[k].waitcount == |BoundedOn(r, k)| {
      assert BoundedOn(r, k) == BoundedOn(s, k);
    }
  }

  lemma DroppedKeeps(s: State, t: Tid, m: Mid)
    requires Inv(s) && t in s.own && m in s.mx && s.mx[m].owner == Some(t)
    ensures Inv(Dropped(s, t, m))
  {
    var r := Dropped(s, t, m);
    assert RecordFits(s, t, m);
    forall u, k | u in r.own ensures RecordFits(r, u, k) {
      assert RecordFits(s, u, k);
    }
    forall k | k in r.mx ensures r.mx[k].waitcount == |BoundedOn(r, k)| {
      assert BoundedOn(r, k) == BoundedOn(s, k);
    }
  }

  lemma WaitsKeeps(s: State, t: Tid, w: Wait)
    requires Inv(s) && t in s.own && w.m in s.mx && t !in s.wait
    ensures Inv(Waits(s, t, w))
  {
    var r := Waits(s, t, w);
    forall u, k | u in r.own ensures RecordFits(r, u, k) {
      assert RecordFits(s, u, k);
    }
    forall k | k in r.mx ensures r.mx[k].waitcount == |BoundedOn(r, k)| {
      OneMoreWaits(s, r, t, w, k);
    }
  }

  lemma OneMoreWaits(s: State, r: State, t: Tid, w: Wait, k: Mid)
    requires t !in s.wait && r.wait == s.wait[t := w]
    ensures |BoundedOn(r, k)| == |BoundedOn(s, k)| + if w == Wait(k, true) then 1 else 0
  {
    if w == Wait(k, true) {
      assert BoundedOn(r, k) == BoundedOn(s, k) + {t};
    } else {
      assert BoundedOn(r, k) == BoundedOn(s, k);
    }
  }

  lemma StoppedKeeps(s: State, t: Tid)
    requires Inv(s) && t in s.wait
    ensures Inv(Stopped(s, t))
  {
    var r := Stopped(s, t);
    forall u, k | u in r.own ensures RecordFits(r, u, k) {
      assert RecordFits(s, u, k);
    }
    forall k | k in r.mx ensures r.mx[k].waitcount == |BoundedOn(r, k)| {
      assert BoundedOn(r, k) == BoundedOn(s, k) - {t};
      assert t in BoundedOn(s, k) <==> s.wait[t] == Wait(k, true);
    }
  }

  lemma CountKeeps(s: State, m: Mid, n: int)
    requires Inv(s) && m in s.mx && s.mx[m].locked && n >= 1 && (!s.mx[m].recursive ==> n <= 1)
    ensures Inv(s.(mx := s.mx[m := s.mx[m].(count := n)]))
  {
    var r := s.(mx := s.mx[m := s.mx[m].(count := n)]);
    forall u, k | u in r.own ensures RecordFits(r, u, k) {
      assert RecordFits(s, u, k);
    }
    forall k | k in r.mx ensures r.mx[k].waitcount == |BoundedOn(r, k)| {
      assert BoundedOn(r, k) == BoundedOn(s, k);
    }
  }

  lemma AcquireKeeps(s: State, t: Tid, m: Mid, tryonly: bool, bounded: bool)
    requires Inv(s) && Known(s, Acquire(t, m, tryonly, bounded))
    ensures Inv(Step(s, Acquire(t, m, tryonly, bounded)))
  {
    var rc := Answer(s, Acquire(t, m, tryonly, bounded));
    if rc == BLOCKED {
      WaitsKeeps(s, t, Wait(m, bounded));
    } else if !s.mx[m].locked && s.mx[m].waitcount == 0 {
      TakenKeeps(s, t, m);
    } else if rc == OK {
      CountKeeps(s, m, s.mx[m].count + 1);
    }
  }

  lemma WakeKeeps(s: State, t: Tid, interrupted: bool)
    requires Inv(s) && Known(s, Wake(t, interrupted))
    ensures Inv(Step(s, Wake(t, interrupted)))
  {
    StoppedKeeps(s, t);
    if Answer(s, Wake(t, interrupted)) == OK {
      TakenKeeps(Stopped(s, t), t, s.wait[t].m);
    }
  }

  lemma ReleaseKeeps(s: State, t: Tid, m: Mid)
    requires Inv(s) && Known(s, Release(t, m))
    ensures Inv(Step(s, Release(t, m)))
  {
    if Answer(s, Release(t, m)) == OK {
      if s.mx[m].count > 1 {
        CountKeeps(s, m, s.mx[m].count - 1);
      } else {
        DroppedKeeps(s, t, m);
      }
    }
  }

  lemma StepKeeps(s: State, op: Op)
    requires Inv(s) && Known(s, op)
    ensures Inv(Step(s, op))
  {
    match op
    case Acquire(t, m, tryonly, bounded) => AcquireKeeps(s, t, m, tryonly, bounded);
    case Wake(t, interrupted) => WakeKeeps(s, t, interrupted);
    case Release(t, m) => ReleaseKeeps(s, t, m);
  }

  // ---- runs ----

  ghost predicate Possible(s: State, ops: seq<Op>)
    decreases |ops|
  {
    ops == [] || (Known(s, ops[0]) && Possible(Step(s, ops[0]), ops[1..]))
  }

  ghost function Run(s: State, ops: seq<Op>): State
    requires Possible(s, ops)
    decreases |ops|
  {
    if ops == [] then s else Run(Step(s, ops[0]), ops[1..])
  }

  lemma {:induction false} RunsKeep(s: State, ops: seq<Op>)
    requires Inv(s) && Possible(s, ops)
    ensures Inv(Run(s, ops))
    decreases |ops|
  {
    if ops != [] {
      StepKeeps(s, ops[0]);
      RunsKeep(Step(s, ops[0]), ops[1..]);
    }
  }

  /** All mutexes free, nothing recorded, nobody waiting. */
  ghost predicate Start(s: State) {
    && (forall m | m in s.mx :: s.mx[m] == Mx(false, None, 0, s.mx[m].recursive, 0))
    && (forall t | t in s.own :: s.own[t] == Own(None, []))
    && s.wait == map[]
  }

  /** In every reachable state: locked, owned and counted agree, and ownership is recorded exactly once. */
  lemma RunsKeepOwnership(s: State, ops: seq<Op>, t: Tid, m: Mid)
    requires Start(s) && Possible(s, ops)
    ensures var r := Run(s, ops);
      && (m in r.mx ==> var x := r.mx[m];
            && (x.locked <==> x.owner.Some?) && (x.locked <==> x.count >= 1)
            && (x.locked && !x.recursive ==> x.count == 1)
            && x.waitcount == |BoundedOn(r, m)|)
      && (t in r.own ==> Records(r.own[t], m) == if m in r.mx && r.mx[m].owner == Some(t) then 1 else 0)
  {
    forall k | k in s.mx ensures s.mx[k].waitcount == |BoundedOn(s, k)| {
      assert BoundedOn(s, k) == {};
    }
    RunsKeep(s, ops);
    var r := Run(s, ops);
    assert m in r.mx ==> MxFits(r.mx[m]);
    assert t in r.own ==> RecordFits(r, t, m);
  }

  /** What a step adds to a thread's holds on a mutex: a successful acquire one, a successful release minus one. */
  function Gain(s: State, op: Op, t: Tid, m: Mid): int
    requires Known(s, op)
  {
    if Answer(s, op) != OK then 0
    else match op
      case Acquire(u, k, _, _) => if u == t && k == m then 1 else 0
      case Wake(u, _) => if u == t && s.wait[u].m == m then 1 else 0
      case Release(u, k) => if u == t && k == m then -1 else 0
  }

  ghost function Net(s: State, ops: seq<Op>, t: Tid, m: Mid): int
    requires Possible(s, ops)
    decreases |ops|
  {
    if ops == [] then 0 else Gain(s, ops[0], t, m) + Net(Step(s, ops[0]), ops[1..], t, m)
  }

  function Holds(s: State, t: Tid, m: Mid): int {
    if m in s.mx && s.mx[m].owner == Some(t) then s.mx[m].count else 0
  }

  lemma StepGains(s: State, op: Op, t: Tid, m: Mid)
    requires Inv(s) && Known(s, op)
    ensures Holds(Step(s, op), t, m) == Holds(s, t, m) + Gain(s, op, t, m)
  {
    match op
    case Acquire(u, k, _, _) => assert MxFits(s.mx[k]);
    case Wake(u, _) => assert MxFits(s.mx[s.wait[u].m]);
    case Release(u, k) => assert MxFits(s.mx[k]);
  }

  /** Over every run the count of a mutex is its owner's acquires minus releases, and nobody else has any. */
  lemma {:induction false} CountIsNetAcquires(s: State, ops: seq<Op>, t: Tid, m: Mid)
    requires Inv(s) && Possible(s, ops)
    ensures Holds(Run(s, ops), t, m) == Holds(s, t, m) + Net(s, ops, t, m)
    decreases |ops|
  {
    if ops != [] {
      StepGains(s, ops[0], t, m);
      StepKeeps(s, ops[0]);
      CountIsNetAcquires(Step(s, ops[0]), ops[1..], t, m);
    }
  }
}
