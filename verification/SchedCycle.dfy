/**
 The order in which the scheduler's loop takes its steps. The theorems about all
 runs do not need it; a run that is claimed to exist has to keep to it.
 */
module SchedCycle {
  import opened Basics
  import opened Sched
  import opened SchedOps
  import opened SchedRuns

  /** At the top of the loop, about to pick a thread, in the hands of a thread, before the event manager. */
  datatype Phase = Top | Pick | Thread | Back

  /** The ended thread's recorded joiner is woken directly, and the loop starts over. */
  predicate WakesJoiner(s: Sched) {
    && s.current.Some? && s.current.value in s.tcb
    && var c := s.tcb[s.current.value];
       && c.state == Exit && c.joinable && c.joinedThread.Some?
       && c.joinedThread.value in s.tcb && s.tcb[c.joinedThread.value].waited
  }

  /** The event manager is called when nobody is left to run, and to poll when one thread is. */
  predicate EventsDue(s: Sched) {
    (s.rq == [] && s.nq == []) || |s.rq| == 1
  }

  predicate Follows(s: Sched, at: Phase, op: Op) {
    match at
    case Top => op == DoPromote
    case Pick => if s.rq == [] then op.DoEvents? else op == DoDispatch
    case Thread => s.running || op == DoSettle
    case Back => op.DoEvents?
  }

  function After(s: Sched, at: Phase, op: Op, r: Sched): Phase {
    match at
    case Top => Pick
    case Pick => if op == DoDispatch then Thread else Top
    case Thread => if s.running then Thread else if WakesJoiner(s) || !EventsDue(r) then Top else Back
    case Back => Top
  }

  /** The steps are those of the loop, from the given place on. */
  ghost predicate InOrder(s: Sched, at: Phase, ops: seq<Op>)
    requires Inv(s) && Possible(s, ops)
    decreases |ops|
  {
    ops == [] ||
    (var r := Apply(s, ops[0]); Follows(s, at, ops[0]) && InOrder(r, After(s, at, ops[0], r), ops[1..]))
  }

  lemma OneMoreInOrder(s: Sched, at: Phase, op: Op, ops: seq<Op>, all: seq<Op>)
    requires Inv(s) && Enabled(s, op) && all == [op] + ops && Possible(Apply(s, op), ops) && Possible(s, all)
    requires Follows(s, at, op) && InOrder(Apply(s, op), After(s, at, op, Apply(s, op)), ops)
    ensures InOrder(s, at, all)
  {
    assert all[0] == op && all[1..] == ops;
  }
}
