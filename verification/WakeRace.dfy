/**
 Waking a waiting thread in M:N mode. Event managers, mutex releasers,
 condition notifiers and exiting threads run on several native threads at
 once; the steps below interleave freely. A direct waker reads waited_native,
 locks that wait queue, reads the field again, takes the thread out, clears
 the field, unlocks, and appends the thread to the ready queue. An event
 manager holds the lock of a wait queue while it takes threads out of it.
 */
module WakeRace {
  import opened Basics
  type Waker = nat
  type Native = nat

  /** Every queue a thread is in, who has taken it out and not yet put it back, and waited_native. */
  datatype Thr = Thr(running: bool, wq: set<Native>, rq: nat, hands: set<Waker>, waited: Option<Native>)

  datatype Pc =
    | Idle
    | Looked(t: Tid, n: Native)      // saw waited_native == n
    | Locked(t: Tid, n: Native)      // has the lock, will look again
    | Taking(t: Tid, n: Native)      // found the field set, will take the thread out
    | Took(t: Tid, n: Native)
    | Cleared(t: Tid, n: Native)
    | Carrying(t: Tid)               // unlocked, the thread is in no queue
    | GivingUp(n: Native)            // found the field clear
    | Scanning(n: Native)            // event manager between two threads
    | ScanTook(t: Tid, n: Native)
    | ScanCleared(t: Tid, n: Native)

  datatype State = State(th: map<Tid, Thr>, pc: map<Waker, Pc>, lock: map<Native, Waker>)

  datatype Op =
    | Block(t: Tid, n: Native)
    | Dispatch(t: Tid)
    | Look(w: Waker, t: Tid)
    | Lock(w: Waker)
    | Recheck(w: Waker)
    | Delete(w: Waker)
    | Clear(w: Waker)
    | Unlock(w: Waker)
    | Publish(w: Waker)
    | ScanLock(w: Waker, n: Native)
    | ScanTake(w: Waker, t: Tid)

  // ---- steps ----

  predicate Free(s: State, n: Native) {
    n !in s.lock
  }

  predicate Enabled(s: State, op: Op) {
    match op
    case Block(t, n) => t in s.th && s.th[t].running && Free(s, n)
    case Dispatch(t) => t in s.th && s.th[t].rq > 0
    case Look(w, t) => w in s.pc && s.pc[w] == Idle && t in s.th
    case Lock(w) => w in s.pc && s.pc[w].Looked? && Free(s, s.pc[w].n)
    case Recheck(w) => w in s.pc && s.pc[w].Locked? && s.pc[w].t in s.th
    case Delete(w) => w in s.pc && s.pc[w].Taking? && s.pc[w].t in s.th
    case Clear(w) => w in s.pc && (s.pc[w].Took? || s.pc[w].ScanTook?) && s.pc[w].t in s.th
    case Unlock(w) => w in s.pc && (s.pc[w].Cleared? || s.pc[w].GivingUp? || s.pc[w].Scanning?)
    case Publish(w) => w in s.pc && (s.pc[w].Carrying? || s.pc[w].ScanCleared?) && s.pc[w].t in s.th
    case ScanLock(w, n) => w in s.pc && s.pc[w] == Idle && Free(s, n)
    case ScanTake(w, t) => w in s.pc && s.pc[w].Scanning? && t in s.th && s.pc[w].n in s.th[t].wq
  }

  /** The node leaves whichever queue it is in. */
  function TakenOut(x: Thr, w: Waker): Thr {
    if x.wq != {} then x.(wq := {}, hands := x.hands + {w})
    else x.(rq := if x.rq > 0 then x.rq - 1 else 0, hands := x.hands + {w})
  }

  /** The thread a step changes, and how. */
  function NewThr(s: State, op: Op): map<Tid, Thr>
    requires Enabled(s, op)
  {
    match op
    case Block(t, n) => s.th[t := s.th[t].(running := false, wq := s.th[t].wq + {n}, waited := Some(n))]
    case Dispatch(t) => s.th[t := s.th[t].(running := true, rq := s.th[t].rq - 1)]
    case Delete(w) => s.th[s.pc[w].t := TakenOut(s.th[s.pc[w].t], w)]
    case ScanTake(w, t) => s.th[t := TakenOut(s.th[t], w)]
    case Clear(w) => s.th[s.pc[w].t := s.th[s.pc[w].t].(waited := None)]
    case Publish(w) =>
      var x := s.th[s.pc[w].t];
      s.th[s.pc[w].t := x.(rq := x.rq + 1, hands := x.hands - {w})]
    case _ => s.th
  }

  function NextPc(s: State, op: Op): Pc
    requires Enabled(s, op) && !op.Block? && !op.Dispatch?
  {
    match op
    case Look(w, t) => if s.th[t].waited.Some? then Looked(t, s.th[t].waited.value) else Idle
    case Lock(w) => Locked(s.pc[w].t, s.pc[w].n)
    case Recheck(w) =>
      if s.th[s.pc[w].t].waited.Some? then Taking(s.pc[w].t, s.pc[w].n) else GivingUp(s.pc[w].n)
    case Delete(w) => Took(s.pc[w].t, s.pc[w].n)
    case Clear(w) =>
      if s.pc[w].Took? then Cleared(s.pc[w].t, s.pc[w].n) else ScanCleared(s.pc[w].t, s.pc[w].n)
    case Unlock(w) => if s.pc[w].Cleared? then Carrying(s.pc[w].t) else Idle
    case Publish(w) => if s.pc[w].Carrying? then Idle else Scanning(s.pc[w].n)
    case ScanLock(w, n) => Scanning(n)
    case ScanTake(w, t) => ScanTook(t, s.pc[w].n)
  }

  function NewLock(s: State, op: Op): map<Native, Waker>
    requires Enabled(s, op)
  {
    match op
    case Lock(w) => s.lock[s.pc[w].n := w]
    case ScanLock(w, n) => s.lock[n := w]
    case Unlock(w) => s.lock - {s.pc[w].n}
    case _ => s.lock
  }

  function Step(s: State, op: Op): State
    requires Enabled(s, op)
  {
    State(NewThr(s, op),
          if op.Block? || op.Dispatch? then s.pc else s.pc[op.w := NextPc(s, op)],
          NewLock(s, op))
  }

  // ---- what holds in between ----

  predicate Holding(p: Pc, n: Native) {
    match p
    case Idle => false
    case Looked(_, _) => false
    case Carrying(_) => false
    case _ => p.n == n
  }

  predicate InHand(p: Pc, t: Tid) {
    (p.Took? || p.Cleared? || p.Carrying? || p.ScanTook? || p.ScanCleared?) && p.t == t
  }

  /** Running, ready, in one wait queue that waited_native names, or in one waker's hands. */
  ghost predicate ThrOk(x: Thr) {
    || x == Thr(true, {}, 0, {}, None)
    || x == Thr(false, {}, 1, {}, None)
    || (x.waited.Some? && x == Thr(false, {x.waited.value}, 0, {}, x.waited))
    || (exists w :: x == Thr(false, {}, 0, {w}, x.waited))
  }

  /** What a waker's position says about the thread it deals with. */
  ghost predicate PcOk(s: State, w: Waker)
    requires w in s.pc
  {
    match s.pc[w]
    case Looked(t, n) => t in s.th
    case Locked(t, n) => t in s.th
    case Taking(t, n) => t in s.th && s.th[t].wq == {n}
    case Took(t, n) => t in s.th && s.th[t].waited == Some(n)
    case ScanTook(t, n) => t in s.th && s.th[t].waited == Some(n)
    case Cleared(t, n) => t in s.th && s.th[t].waited == None
    case ScanCleared(t, n) => t in s.th && s.th[t].waited == None
    case Carrying(t) => t in s.th && s.th[t].waited == None
    case _ => true
  }

  /** A waker has a thread in its hands exactly when its position says so. */
  ghost predicate HandOk(s: State, t: Tid, w: Waker)
    requires t in s.th
  {
    w in s.th[t].hands <==> w in s.pc && InHand(s.pc[w], t)
  }

  /** A waker has a lock exactly when its position says so. */
  ghost predicate LockOk(s: State, n: Native, w: Waker) {
    (n in s.lock && s.lock[n] == w) <==> (w in s.pc && Holding(s.pc[w], n))
  }

  ghost predicate Inv(s: State) {
    && (forall t | t in s.th :: ThrOk(s.th[t]))
    && (forall w | w in s.pc :: PcOk(s, w))
    && (forall t, w | t in s.th :: HandOk(s, t, w))
    && (forall n, w :: LockOk(s, n, w))
  }

  /** The second look finds the field clear, or naming the very queue that was locked. */
  predicate Faithful(s: State, op: Op) {
    op.Recheck? && Enabled(s, op) ==>
      var p := s.pc[op.w]; s.th[p.t].waited.Some? ==> s.th[p.t].waited.value == p.n
  }

  lemma StepLocks(s: State, op: Op, n: Native, w: Waker)
    requires Inv(s) && Enabled(s, op)
    ensures LockOk(Step(s, op), n, w)
  {
    assert LockOk(s, n, w);
    if !op.Block? && !op.Dispatch? {
      assert LockOk(s, n, op.w);
    }
  }

  lemma StepHands(s: State, op: Op, t: Tid, w: Waker)
    requires Inv(s) && Enabled(s, op) && t in s.th
    ensures HandOk(Step(s, op), t, w)
  {
    assert HandOk(s, t, w);
  }

  lemma StepThreads(s: State, op: Op, t: Tid)
    requires Inv(s) && Enabled(s, op) && Faithful(s, op) && t in s.th
    ensures ThrOk(Step(s, op).th[t])
  {
    assert ThrOk(s.th[t]);
    if !op.Block? && !op.Dispatch? {
      assert PcOk(s, op.w) && HandOk(s, t, op.w);
    }
  }

  lemma StepOwnPc(s: State, op: Op)
    requires Inv(s) && Enabled(s, op) && Faithful(s, op) && !op.Block? && !op.Dispatch?
    ensures PcOk(Step(s, op), op.w)
  {
    assert PcOk(s, op.w);
    if op.Recheck? {
      var p := s.pc[op.w];
      assert ThrOk(s.th[p.t]);
      if v :| v in s.th[p.t].hands {
        assert HandOk(s, p.t, v) && PcOk(s, v);
        assert LockOk(s, p.n, v) && LockOk(s, p.n, op.w);
      }
    } else if op.ScanTake? {
      assert ThrOk(s.th[op.t]);
    }
  }

  /** The other wakers are not disturbed: what they rely on is under a lock they hold, or in their own hands. */
  lemma StepOtherPc(s: State, op: Op, v: Waker)
    requires Inv(s) && Enabled(s, op) && v in s.pc && (op.Block? || op.Dispatch? || op.w != v)
    ensures PcOk(Step(s, op), v)
  {
    assert PcOk(s, v);
    var p := s.pc[v];
    if !p.Idle? && !p.GivingUp? && !p.Scanning? {
      assert ThrOk(s.th[p.t]) && HandOk(s, p.t, v);
      if !op.Block? && !op.Dispatch? {
        assert PcOk(s, op.w) && HandOk(s, p.t, op.w);
        if p.Taking? {
          assert LockOk(s, p.n, v) && LockOk(s, p.n, op.w);
        }
      }
    }
  }

  lemma StepKeeps(s: State, op: Op)
    requires Inv(s) && Enabled(s, op) && Faithful(s, op)
    ensures Inv(Step(s, op))
  {
    var r := Step(s, op);
    forall t | t in r.th ensures ThrOk(r.th[t]) {
      StepThreads(s, op, t);
    }
    forall v | v in r.pc ensures PcOk(r, v) {
      if op.Block? || op.Dispatch? || op.w != v {
        StepOtherPc(s, op, v);
      } else {
        StepOwnPc(s, op);
      }
    }
    forall t, w | t in r.th ensures HandOk(r, t, w) {
      StepHands(s, op, t, w);
    }
    forall n, w ensures LockOk(r, n, w) {
      StepLocks(s, op, n, w);
    }
  }

  /** The number of places a thread is in. */
  function Places(x: Thr): nat {
    (if x.running then 1 else 0) + |x.wq| + x.rq + |x.hands|
  }

  lemma OnePlace(s: State, t: Tid)
    requires Inv(s) && t in s.th
    ensures Places(s.th[t]) == 1
    ensures s.th[t].waited.Some? ==> s.th[t].wq == {s.th[t].waited.value} || |s.th[t].hands| == 1
  {
    assert ThrOk(s.th[t]);
  }

  // ---- runs ----

  ghost predicate Possible(s: State, ops: seq<Op>)
    decreases |ops|
  {
    ops == [] || (Enabled(s, ops[0]) && Possible(Step(s, ops[0]), ops[1..]))
  }

  ghost function Run(s: State, ops: seq<Op>): State
    requires Possible(s, ops)
    decreases |ops|
  {
    if ops == [] then s else Run(Step(s, ops[0]), ops[1..])
  }

  ghost predicate FaithfulRun(s: State, ops: seq<Op>)
    requires Possible(s, ops)
    decreases |ops|
  {
    ops == [] || (Faithful(s, ops[0]) && FaithfulRun(Step(s, ops[0]), ops[1..]))
  }

  /** Along every interleaving whose second looks agree with the lock, each thread is always in exactly one place. */
  lemma {:induction false} RunsKeep(s: State, ops: seq<Op>)
    requires Inv(s) && Possible(s, ops) && FaithfulRun(s, ops)
    ensures Inv(Run(s, ops))
    decreases |ops|
  {
    if ops != [] {
      StepKeeps(s, ops[0]);
      RunsKeep(Step(s, ops[0]), ops[1..]);
    }
  }

  // ---- each wait ends once ----

  predicate IsBlock(op: Op, t: Tid) {
    op.Block? && op.t == t
  }

  predicate IsPublish(s: State, op: Op, t: Tid) {
    op.Publish? && op.w in s.pc && (s.pc[op.w].Carrying? || s.pc[op.w].ScanCleared?) && s.pc[op.w].t == t
  }

  ghost function Blocks(ops: seq<Op>, t: Tid): nat {
    if ops == [] then 0 else (if IsBlock(ops[0], t) then 1 else 0) + Blocks(ops[1..], t)
  }

  ghost function Publishes(s: State, ops: seq<Op>, t: Tid): nat
    requires Possible(s, ops)
    decreases |ops|
  {
    if ops == [] then 0
    else (if IsPublish(s, ops[0], t) then 1 else 0) + Publishes(Step(s, ops[0]), ops[1..], t)
  }

  predicate InWait(s: State, t: Tid) {
    t in s.th && (s.th[t].wq != {} || s.th[t].hands != {})
  }

  lemma EpisodeStep(s: State, op: Op, t: Tid)
    requires Inv(s) && Enabled(s, op) && Faithful(s, op) && t in s.th
    ensures (if InWait(s, t) then 1 else 0) + (if IsBlock(op, t) then 1 else 0)
         == (if InWait(Step(s, op), t) then 1 else 0) + (if IsPublish(s, op, t) then 1 else 0)
  {
    StepThreads(s, op, t);
    assert ThrOk(s.th[t]);
    if !op.Block? && !op.Dispatch? {
      assert PcOk(s, op.w) && HandOk(s, t, op.w);
    }
  }

  /** Every wait that began has ended by one waker's publication, or is still going on. */
  lemma {:induction false} EveryWaitEndsOnce(s: State, ops: seq<Op>, t: Tid)
    requires Inv(s) && Possible(s, ops) && FaithfulRun(s, ops) && t in s.th
    ensures (if InWait(s, t) then 1 else 0) + Blocks(ops, t)
         == (if InWait(Run(s, ops), t) then 1 else 0) + Publishes(s, ops, t)
    decreases |ops|
  {
    if ops != [] {
      EpisodeStep(s, ops[0], t);
      StepKeeps(s, ops[0]);
      EveryWaitEndsOnce(Step(s, ops[0]), ops[1..], t);
    }
  }

  // ---- one wait queue suffices ----

  ghost predicate AllOn(ops: seq<Op>, n: Native) {
    forall i | 0 <= i < |ops| && ops[i].Block? :: ops[i].n == n
  }

  ghost predicate OnlyQueue(s: State, n: Native) {
    && (forall t | t in s.th && s.th[t].waited.Some? :: s.th[t].waited.value == n)
    && (forall w | w in s.pc && (s.pc[w].Looked? || s.pc[w].Locked?) :: s.pc[w].n == n)
  }

  /** While all threads wait on one native, every interleaving is of the good kind. */
  lemma {:induction false} OneQueueIsFaithful(s: State, ops: seq<Op>, n: Native)
    requires OnlyQueue(s, n) && Possible(s, ops) && AllOn(ops, n)
    ensures FaithfulRun(s, ops)
    decreases |ops|
  {
    if ops != [] {
      var r := Step(s, ops[0]);
      assert OnlyQueue(r, n);
      OneQueueIsFaithful(r, ops[1..], n);
    }
  }

  /** Threads running, wakers idle, no lock taken. */
  ghost predicate Start(s: State) {
    && (forall t | t in s.th :: s.th[t] == Thr(true, {}, 0, {}, None))
    && (forall w | w in s.pc :: s.pc[w] == Idle)
    && s.lock == map[]
  }

  /** On one native's wait queue, for any interleaving: one place at a time, and one waker for each wait. */
  lemma OneQueueIsSafe(s: State, ops: seq<Op>, n: Native, t: Tid)
    requires Start(s) && Possible(s, ops) && AllOn(ops, n) && t in s.th
    ensures Inv(Run(s, ops)) && t in Run(s, ops).th && Places(Run(s, ops).th[t]) == 1
    ensures Blocks(ops, t) == (if InWait(Run(s, ops), t) then 1 else 0) + Publishes(s, ops, t)
  {
    OneQueueIsFaithful(s, ops, n);
    RunsKeep(s, ops);
    EveryWaitEndsOnce(s, ops, t);
    SameThreads(s, ops);
    OnePlace(Run(s, ops), t);
  }

  lemma {:induction false} SameThreads(s: State, ops: seq<Op>)
    requires Possible(s, ops) && Inv(s) && FaithfulRun(s, ops)
    ensures Run(s, ops).th.Keys == s.th.Keys
    decreases |ops|
  {
    if ops != [] {
      StepKeeps(s, ops[0]);
      SameThreads(Step(s, ops[0]), ops[1..]);
    }
  }

  // ---- two wait queues do not ----

  /** Some interleaving from here puts the thread in two places. */
  ghost predicate CanBreak(s: State, t: Tid) {
    exists ops :: Possible(s, ops) && t in Run(s, ops).th && Places(Run(s, ops).th[t]) > 1
  }

  lemma Earlier(s: State, op: Op, t: Tid)
    requires Enabled(s, op) && CanBreak(Step(s, op), t)
    ensures CanBreak(s, t)
  {
    var ops :| Possible(Step(s, op), ops) && t in Run(Step(s, op), ops).th && Places(Run(Step(s, op), ops).th[t]) > 1;
    assert ([op] + ops)[1..] == ops;
    assert Possible(s, [op] + ops) && Run(s, [op] + ops) == Run(Step(s, op), ops);
  }

  lemma Unroll(s: State, op: Op, ops: seq<Op>)
    requires Enabled(s, op) && Possible(Step(s, op), ops)
    ensures Possible(s, [op] + ops) && Run(s, [op] + ops) == Run(Step(s, op), ops)
  {
    assert ([op] + ops)[0] == op && ([op] + ops)[1..] == ops;
  }

  /**
   A second look that finds the thread in another queue than the locked one, and
   a second waker that comes then: four steps, and both have the thread in their hands.
   */
  lemma UnfaithfulLookBreaks(s: State, w: Waker, v: Waker, t: Tid, n: Native, m: Native)
    requires w in s.pc && s.pc[w] == Locked(t, n) && v in s.pc && s.pc[v] == Idle && m != n && Free(s, m)
    requires t in s.th && s.th[t] == Thr(false, {m}, 0, {}, Some(m))
    ensures !Faithful(s, Recheck(w))
    ensures var ops := [Recheck(w)] + [ScanLock(v, m), ScanTake(v, t), Delete(w)];
      Possible(s, ops) && t in Run(s, ops).th && Run(s, ops).th[t].hands == {v, w} && Places(Run(s, ops).th[t]) > 1
  {
    var s1 := Step(s, Recheck(w));
    assert s1.pc[v] == Idle && s1.th == s.th && Free(s1, m);
    SecondWakerTakes(s1, w, v, t, n, m);
    Unroll(s, Recheck(w), [ScanLock(v, m), ScanTake(v, t), Delete(w)]);
  }

  lemma SecondWakerTakes(s: State, w: Waker, v: Waker, t: Tid, n: Native, m: Native)
    requires w in s.pc && s.pc[w] == Taking(t, n) && v in s.pc && s.pc[v] == Idle && Free(s, m)
    requires t in s.th && s.th[t] == Thr(false, {m}, 0, {}, Some(m))
    ensures var ops := [ScanLock(v, m), ScanTake(v, t), Delete(w)];
      Possible(s, ops) && t in Run(s, ops).th && Run(s, ops).th[t].hands == {v, w} && Places(Run(s, ops).th[t]) > 1
  {
    var s2 := Step(s, ScanLock(v, m));
    var s3 := Step(s2, ScanTake(v, t));
    var s4 := Step(s3, Delete(w));
    assert s4.th[t].hands == {v, w};
    Unroll(s3, Delete(w), []);
    assert [Delete(w)] + [] == [Delete(w)];
    Unroll(s2, ScanTake(v, t), [Delete(w)]);
    assert [ScanTake(v, t)] + [Delete(w)] == [ScanTake(v, t), Delete(w)];
    Unroll(s, ScanLock(v, m), [ScanTake(v, t), Delete(w)]);
    assert [ScanLock(v, m)] + [ScanTake(v, t), Delete(w)] == [ScanLock(v, m), ScanTake(v, t), Delete(w)];
  }

  lemma WaitsElsewhereBreaks(s: State, w: Waker, v: Waker, t: Tid, n: Native, m: Native)
    requires w in s.pc && s.pc[w] == Looked(t, n) && v in s.pc && s.pc[v] == Idle && m != n && s.lock == map[]
    requires t in s.th && s.th[t] == Thr(false, {}, 1, {}, None)
    ensures CanBreak(s, t)
  {
    var s1 := Step(s, Dispatch(t));
    var s2 := Step(s1, Block(t, m));
    var s3 := Step(s2, Lock(w));
    UnfaithfulLookBreaks(s3, w, v, t, n, m);
    assert CanBreak(s3, t);
    Earlier(s2, Lock(w), t);
    Earlier(s1, Block(t, m), t);
    Earlier(s, Dispatch(t), t);
  }

  lemma WokenMeanwhileBreaks(s: State, w: Waker, v: Waker, t: Tid, n: Native, m: Native)
    requires w in s.pc && s.pc[w] == Looked(t, n) && v in s.pc && s.pc[v] == Idle && m != n && s.lock == map[]
    requires t in s.th && s.th[t] == Thr(false, {n}, 0, {}, Some(n))
    ensures CanBreak(s, t)
  {
    var s1 := Step(s, ScanLock(v, n));
    var s2 := Step(s1, ScanTake(v, t));
    var s3 := Step(s2, Clear(v));
    var s4 := Step(s3, Publish(v));
    var s5 := Step(s4, Unlock(v));
    assert s5.lock == map[] && s5.th[t] == Thr(false, {}, 1, {}, None);
    WaitsElsewhereBreaks(s5, w, v, t, n, m);
    Earlier(s4, Unlock(v), t);
    Earlier(s3, Publish(v), t);
    Earlier(s2, Clear(v), t);
    Earlier(s1, ScanTake(v, t), t);
    Earlier(s, ScanLock(v, n), t);
  }

  /** From the start, a thread that may wait on two natives can come into the hands of two wakers. */
  lemma TwoQueuesBreak(s: State, w: Waker, v: Waker, t: Tid, n: Native, m: Native)
    requires Start(s) && w in s.pc && v in s.pc && w != v && t in s.th && n != m
    ensures CanBreak(s, t)
  {
    var s1 := Step(s, Block(t, n));
    var s2 := Step(s1, Look(w, t));
    WokenMeanwhileBreaks(s2, w, v, t, n, m);
    Earlier(s1, Look(w, t), t);
    Earlier(s, Block(t, n), t);
  }
}
