/**
 Condition variables in M:1 mode: the flags and counters that pth_cond_await,
 pth_cond_notify and the event manager share, over every run.
 */
module Cond {
  import opened Basics

  datatype Flags = Flags(signaled: bool, broadcast: bool, handled: bool, waiters: int, wakecnt: int)

  /** A waiter sleeps, or was woken with its condition event tagged or not. */
  datatype Waiter = Asleep | Woken(occurred: bool)

  datatype State = State(c: Flags, who: map<Tid, Waiter>)

  /** What the event manager finds at a sleeping waiter besides the condition event. */
  datatype Cause =
    | Nothing   // only the condition event counts
    | Extra     // an event concatenated behind it has occurred as well
    | Instead   // a cancellation, a signal or a timer ends the wait before the condition is looked at

  datatype Op =
    | Await(t: Tid)
    | Look(t: Tid, cause: Cause)
    | Resume(t: Tid)
    | Notify(all: bool)

  const Idle := State(Flags(false, false, false, 0, 0), map[])

  // ---- the four steps on the shared fields ----

  function Notified(c: Flags, all: bool): Flags {
    if c.waiters > 0 then c.(signaled := true, broadcast := all, handled := false, wakecnt := c.wakecnt + 1) else c
  }

  /** Would the event manager tag the condition event now? */
  predicate Fires(c: Flags) {
    c.signaled && (c.broadcast || !c.handled)
  }

  function Looked(c: Flags): Flags {
    if Fires(c) && !c.broadcast then c.(handled := true) else c
  }

  function Left(c: Flags): Flags {
    var d := c.(waiters := c.waiters - 1);
    if (d.waiters == 0 || d.handled) && d.signaled then
      d.(broadcast := false, handled := false, wakecnt := d.wakecnt - 1, signaled := d.wakecnt != 1)
    else d
  }

  /** A waiter whose event was tagged but whose signal is gone waits again. */
  predicate SleepsAgain(c: Flags, w: Waiter) {
    w == Woken(true) && !c.signaled
  }

  class CondVar {
    var signaled: bool
    var broadcast: bool
    var handled: bool
    var waiters: int
    var wakecnt: int

    ghost function Fields(): Flags
      reads this
    {
      Flags(signaled, broadcast, handled, waiters, wakecnt)
    }

    constructor ()
      ensures Fields() == Idle.c
    {
      signaled, broadcast, handled, waiters, wakecnt := false, false, false, 0, 0;
    }

    /** pth_cond_await behind its wait: again tells whether it waits once more. */
    method Return(occurred: bool) returns (again: bool)
      modifies this
      ensures again <==> SleepsAgain(old(Fields()), Woken(occurred))
      ensures Fields() == if again then old(Fields()) else Left(old(Fields()))
    {
      if !signaled && occurred {
        return true;
      }
      waiters := waiters - 1;
      if waiters == 0 || handled {
        if signaled {
          broadcast := false;
          handled := false;
          wakecnt := wakecnt - 1;
          if wakecnt == 0 {
            signaled := false;
          }
        }
      }
      return false;
    }

    /** pth_cond_notify up to its wait for the waiters. */
    method Signal(all: bool)
      modifies this
      ensures Fields() == Notified(old(Fields()), all)
    {
      if waiters > 0 {
        signaled := true;
        broadcast := all;
        handled := false;
        wakecnt := wakecnt + 1;
      }
    }

    /** The event manager at a condition event. */
    method Test() returns (occurred: bool)
      modifies this
      ensures occurred == Fires(old(Fields())) && Fields() == Looked(old(Fields()))
    {
      occurred := false;
      if signaled {
        if broadcast {
          occurred := true;
        } else if !handled {
          handled := true;
          occurred := true;
        }
      }
    }
  }

  // ---- runs ----

  predicate Enabled(s: State, op: Op) {
    match op
    case Await(t) => t !in s.who
    case Look(t, _) => t in s.who && s.who[t] == Asleep
    case Resume(t) => t in s.who && s.who[t].Woken?
    case Notify(_) => true
  }

  function Step(s: State, op: Op): State
    requires Enabled(s, op)
  {
    match op
    case Await(t) => State(s.c.(waiters := s.c.waiters + 1), s.who[t := Asleep])
    case Look(t, cause) =>
      if cause == Instead then s.(who := s.who[t := Woken(false)])
      else if Fires(s.c) || cause == Extra then State(Looked(s.c), s.who[t := Woken(Fires(s.c))])
      else s
    case Resume(t) =>
      if SleepsAgain(s.c, s.who[t]) then s.(who := s.who[t := Asleep])
      else State(Left(s.c), s.who - {t})
    case Notify(all) => s.(c := Notified(s.c, all))
  }

  ghost predicate Possible(s: State, ops: seq<Op>)
    decreases |ops|
  {
    ops == [] || (Enabled(s, ops[0]) && Possible(Step(s, ops[0]), ops[1..]))
  }

  ghost function Run(s: State, ops: seq<Op>): State
    requires Possible(s, ops)
    decreases |ops|
  {
    if ops == [] then s else Run(Step(s, ops[0]), ops[1..])
  }

  ghost predicate SomeWoken(s: State) {
    exists t | t in s.who :: s.who[t].Woken?
  }

  ghost predicate Inv(s: State) {
    && s.c.waiters == |s.who|
    && s.c.wakecnt >= 0
    && (s.c.signaled <==> s.c.wakecnt > 0)
    && (s.c.handled ==> s.c.signaled && !s.c.broadcast && SomeWoken(s))
    && (s.c.broadcast ==> s.c.signaled)
  }

  lemma AwaitKeeps(s: State, t: Tid)
    requires Inv(s) && t !in s.who
    ensures Inv(Step(s, Await(t)))
  {
    var r := Step(s, Await(t));
    assert r.who.Keys == s.who.Keys + {t};
    if u :| u in s.who && s.who[u].Woken? {
      assert r.who[u].Woken?;
    }
  }

  lemma LookKeeps(s: State, t: Tid, cause: Cause)
    requires Inv(s) && t in s.who && s.who[t] == Asleep
    ensures Inv(Step(s, Look(t, cause)))
  {
    var r := Step(s, Look(t, cause));
    assert r.who.Keys == s.who.Keys;
    assert r != s ==> r.who[t].Woken?;
  }

  lemma ResumeKeeps(s: State, t: Tid)
    requires Inv(s) && t in s.who && s.who[t].Woken?
    ensures Inv(Step(s, Resume(t)))
  {
    var r := Step(s, Resume(t));
    if SleepsAgain(s.c, s.who[t]) {
      assert r.who.Keys == s.who.Keys;
    } else {
      assert r.who.Keys == s.who.Keys - {t};
    }
  }

  lemma StepKeeps(s: State, op: Op)
    requires Inv(s) && Enabled(s, op)
    ensures Inv(Step(s, op))
  {
    match op
    case Await(t) => AwaitKeeps(s, t);
    case Look(t, cause) => LookKeeps(s, t, cause);
    case Resume(t) => ResumeKeeps(s, t);
    case Notify(_) =>
  }

  lemma {:induction false} RunsKeep(s: State, ops: seq<Op>)
    requires Inv(s) && Possible(s, ops)
    ensures Inv(Run(s, ops))
    decreases |ops|
  {
    if ops != [] {
      StepKeeps(s, ops[0]);
      RunsKeep(Step(s, ops[0]), ops[1..]);
    }
  }

  /** In every reachable state the flags and counters say what they should. */
  lemma RunsKeepFlags(ops: seq<Op>)
    requires Possible(Idle, ops)
    ensures var s := Run(Idle, ops);
      && s.c.waiters == |s.who|
      && (s.c.signaled <==> s.c.wakecnt > 0)
      && (s.c.handled ==> s.c.signaled && !s.c.broadcast && exists t | t in s.who :: s.who[t].Woken?)
  {
    RunsKeep(Idle, ops);
  }

  lemma SomeKey(m: map<Tid, Waiter>) returns (t: Tid)
    requires |m| > 0
    ensures t in m
  {
    assert m.Keys != {};
    t :| t in m.Keys;
  }

  /** A pending signal with waiters has a woken waiter, or a sleeping one the event manager will wake. */
  lemma PendingSignalIsServed(ops: seq<Op>)
    requires Possible(Idle, ops)
    ensures var s := Run(Idle, ops);
      s.c.signaled && s.c.waiters > 0 ==>
        SomeWoken(s) ||
        exists t :: Enabled(s, Look(t, Nothing)) && Step(s, Look(t, Nothing)).who == s.who[t := Woken(true)]
  {
    RunsKeep(Idle, ops);
    var s := Run(Idle, ops);
    if s.c.signaled && s.c.waiters > 0 && !SomeWoken(s) {
      var t := SomeKey(s.who);
      assert s.who[t] == Asleep;
      assert Enabled(s, Look(t, Nothing)) && Step(s, Look(t, Nothing)).who == s.who[t := Woken(true)];
    }
  }

  /** Waiters never run out along the run, and nobody notifies. */
  ghost predicate Quiet(s: State, ops: seq<Op>)
    requires Possible(s, ops)
    decreases |ops|
  {
    s.c.waiters > 0 && (ops == [] || (!ops[0].Notify? && Quiet(Step(s, ops[0]), ops[1..])))
  }

  /** Until the last waiter has gone, a broadcast that no other notify follows stays set. */
  lemma {:induction false} BroadcastStays(s: State, ops: seq<Op>)
    requires Inv(s) && s.c.broadcast && Possible(s, ops) && Quiet(s, ops)
    ensures Run(s, ops).c.broadcast && Run(s, ops).c.signaled
    decreases |ops|
  {
    if ops != [] {
      StepKeeps(s, ops[0]);
      assert Step(s, ops[0]).c.waiters > 0;
      BroadcastStays(Step(s, ops[0]), ops[1..]);
    }
  }

  /** Under a broadcast every waiter looked at wakes, every waiter resumed leaves, and the last one ends it. */
  lemma BroadcastReleases(s: State, t: Tid, cause: Cause)
    requires Inv(s) && s.c.broadcast && t in s.who
    ensures s.who[t] == Asleep ==> Step(s, Look(t, cause)).who[t].Woken?
    ensures s.who[t].Woken? ==> var r := Step(s, Resume(t)); t !in r.who && (r.c.broadcast <==> r.c.waiters > 0)
  {
    assert s.who.Keys - {t} == (s.who - {t}).Keys;
  }

  // ---- how many signals are pending ----

  ghost function Sent(s: State, ops: seq<Op>): nat
    requires Possible(s, ops)
    decreases |ops|
  {
    if ops == [] then 0
    else (if ops[0].Notify? && s.c.waiters > 0 then 1 else 0) + Sent(Step(s, ops[0]), ops[1..])
  }

  predicate Consumes(s: State, op: Op)
    requires Enabled(s, op)
  {
    op.Resume? && !SleepsAgain(s.c, s.who[op.t]) && s.c.signaled && (s.c.waiters == 1 || s.c.handled)
  }

  ghost function Consumed(s: State, ops: seq<Op>): nat
    requires Possible(s, ops)
    decreases |ops|
  {
    if ops == [] then 0 else (if Consumes(s, ops[0]) then 1 else 0) + Consumed(Step(s, ops[0]), ops[1..])
  }

  /** No signal appears or vanishes: those sent to waiters are pending or were consumed by one leaving. */
  lemma {:induction false} SignalsConserved(s: State, ops: seq<Op>)
    requires Possible(s, ops)
    ensures s.c.wakecnt + Sent(s, ops) == Run(s, ops).c.wakecnt + Consumed(s, ops)
    decreases |ops|
  {
    if ops != [] {
      SignalsConserved(Step(s, ops[0]), ops[1..]);
    }
  }

  /** Once the last waiter is gone, whoever waits next is woken at once exactly when a second notify was pending. */
  lemma LeftoverSignal(s: State, t: Tid, next: Tid)
    requires Inv(s) && t in s.who && s.who[t].Woken? && s.c.waiters == 1
    ensures var r := Step(s, Resume(t));
      t !in r.who ==>
        (&& r.who == map[]
         && (r.c.signaled <==> s.c.wakecnt > 1)
         && (Step(Step(r, Await(next)), Look(next, Nothing)).who[next] == Woken(true) <==> s.c.wakecnt > 1))
  {
    var r := Step(s, Resume(t));
    ResumeKeeps(s, t);
    assert t !in r.who ==> r.who.Keys == s.who.Keys - {t};
  }

  /**
   Over every run: a waiter whose event was tagged sleeps again when it resumes
   exactly when all signals pending at the start or sent since have been
   consumed by others that left.
   */
  lemma TaggedWaiterSleepsAgainIff(s: State, ops: seq<Op>, w: Tid)
    requires Inv(s) && Possible(s, ops) && w in Run(s, ops).who && Run(s, ops).who[w] == Woken(true)
    ensures w in Step(Run(s, ops), Resume(w)).who <==> Consumed(s, ops) == s.c.wakecnt + Sent(s, ops)
  {
    RunsKeep(s, ops);
    SignalsConserved(s, ops);
  }

  lemma Unroll(s: State, op: Op, ops: seq<Op>)
    requires Enabled(s, op) && Possible(Step(s, op), ops)
    ensures Possible(s, [op] + ops) && Run(s, [op] + ops) == Run(Step(s, op), ops)
  {
    assert ([op] + ops)[0] == op && ([op] + ops)[1..] == ops;
  }

  /** Two steps at a time, to follow a given run. */
  lemma TwoSteps(s: State, a: Op, b: Op, ops: seq<Op>)
    requires Enabled(s, a) && Enabled(Step(s, a), b) && Possible(Step(Step(s, a), b), ops)
    ensures Possible(s, [a, b] + ops) && Run(s, [a, b] + ops) == Run(Step(Step(s, a), b), ops)
  {
    Unroll(Step(s, a), b, ops);
    Unroll(s, a, [b] + ops);
    assert [a, b] + ops == [a] + ([b] + ops);
  }

  /** From the start: thread 0 leaves for its own reasons with the one signal; thread 1, tagged for it, sleeps on. */
  lemma SignalTakenByLeaver()
    ensures var ops := [Await(0), Await(1), Look(0, Instead), Notify(false), Look(1, Nothing), Resume(0)];
      Possible(Idle, ops) && Run(Idle, ops) == State(Flags(false, false, false, 1, 0), map[1 := Woken(true)])
      && Step(Run(Idle, ops), Resume(1)).who == map[1 := Asleep]
  {
    var s2 := Step(Step(Idle, Await(0)), Await(1));
    assert s2 == State(Flags(false, false, false, 2, 0), map[0 := Asleep, 1 := Asleep]);
    var s4 := Step(Step(s2, Look(0, Instead)), Notify(false));
    assert s4 == State(Flags(true, false, false, 2, 1), map[0 := Woken(false), 1 := Asleep]);
    var s6 := Step(Step(s4, Look(1, Nothing)), Resume(0));
    assert s6 == State(Flags(false, false, false, 1, 0), map[1 := Woken(true)]);
    TwoSteps(s4, Look(1, Nothing), Resume(0), []);
    var last := [Look(1, Nothing), Resume(0)] + [];
    TwoSteps(s2, Look(0, Instead), Notify(false), last);
    TwoSteps(Idle, Await(0), Await(1), [Look(0, Instead), Notify(false)] + last);
    assert [Await(0), Await(1)] + ([Look(0, Instead), Notify(false)] + last)
        == [Await(0), Await(1), Look(0, Instead), Notify(false), Look(1, Nothing), Resume(0)];
  }

  /** From the start: two signals to one waiter; once it is gone the next to wait is woken without a new signal. */
  lemma SignalLeftBehind(next: Tid)
    ensures var ops := [Await(0), Notify(false), Notify(false), Look(0, Nothing), Resume(0)];
      Possible(Idle, ops) && Run(Idle, ops) == State(Flags(true, false, false, 0, 1), map[])
      && Step(Step(Run(Idle, ops), Await(next)), Look(next, Nothing)).who == map[next := Woken(true)]
  {
    var s2 := Step(Step(Idle, Await(0)), Notify(false));
    assert s2 == State(Flags(true, false, false, 1, 1), map[0 := Asleep]);
    var s4 := Step(Step(s2, Notify(false)), Look(0, Nothing));
    assert s4 == State(Flags(true, false, true, 1, 2), map[0 := Woken(true)]);
    assert Step(s4, Resume(0)) == State(Flags(true, false, false, 0, 1), map[]);
    Unroll(s4, Resume(0), []);
    assert [Resume(0)] + [] == [Resume(0)];
    TwoSteps(s2, Notify(false), Look(0, Nothing), [Resume(0)]);
    TwoSteps(Idle, Await(0), Notify(false), [Notify(false), Look(0, Nothing)] + [Resume(0)]);
    assert [Await(0), Notify(false)] + ([Notify(false), Look(0, Nothing)] + [Resume(0)])
        == [Await(0), Notify(false), Notify(false), Look(0, Nothing), Resume(0)];
  }
}
