/**
 Read-write locks built from two mutexes, under cooperative scheduling: a
 thread keeps control until it must wait for a mutex. Every step below goes
 from one such point to the next.
 */
module RwLock {
  import opened Basics
  import Mutex

  datatype Mode = RD | RW
  datatype Code = OK | EBUSY | EDEADLK | EPERM | EINTR | BLOCKED

  /** The owners of the outer (rd) and the inner (rw) mutex, the reader count and the mode. */
  datatype Fields = Fields(rd: Option<Tid>, rw: Option<Tid>, readers: int, mode: Mode)

  datatype Outcome = Outcome(l: Fields, rc: Code)

  // ---- a private, non-recursive mutex seen through its owner ----

  function LockCode(owner: Option<Tid>, t: Tid, tryonly: bool): Code {
    if owner.None? then OK
    else if tryonly then EBUSY
    else if owner == Some(t) then EDEADLK
    else BLOCKED
  }

  /** The mutex operations answer and change owners exactly as this module takes them to. */
  lemma MutexIsItsOwner(s: Mutex.State, t: Tid, m: Mutex.Mid, tryonly: bool)
    requires Mutex.Inv(s) && m in s.mx && t in s.own && t !in s.wait && !s.mx[m].recursive && s.mx[m].waitcount == 0
    ensures var op := Mutex.Acquire(t, m, tryonly, false);
      var rc := LockCode(s.mx[m].owner, t, tryonly);
      && (rc == OK <==> Mutex.Answer(s, op) == Mutex.OK)
      && (rc == EBUSY <==> Mutex.Answer(s, op) == Mutex.EBUSY)
      && (rc == EDEADLK <==> Mutex.Answer(s, op) == Mutex.EDEADLK)
      && (rc == BLOCKED <==> Mutex.Answer(s, op) == Mutex.BLOCKED)
      && Mutex.Step(s, op).mx[m].owner == if rc == OK then Some(t) else s.mx[m].owner
    ensures var op := Mutex.Release(t, m);
      && (s.mx[m].owner == Some(t) <==> Mutex.Answer(s, op) == Mutex.OK)
      && (Mutex.Answer(s, op) != Mutex.OK ==> Mutex.Answer(s, op) == Mutex.EPERM && Mutex.Step(s, op) == s)
      && (Mutex.Answer(s, op) == Mutex.OK ==> Mutex.Step(s, op).mx[m].owner == None)
  {
    assert Mutex.MxFits(s.mx[m]);
  }

  // ---- pth_rwlock_acquire and pth_rwlock_release, up to the next wait ----

  function WriteDone(l: Fields, t: Tid): Fields {
    l.(rw := Some(t), mode := RW)
  }

  /** The outer mutex is held and the reader counted: let it go with the given result. */
  function ReadDone(l: Fields): Fields {
    l.(mode := RD, rd := None)
  }

  function ReadFailed(l: Fields): Fields {
    l.(readers := l.readers - 1, rd := None)
  }

  /** A reader that has the outer mutex. */
  function ReadIn(l: Fields, t: Tid, tryonly: bool): Outcome {
    var l := l.(rd := Some(t), readers := l.readers + 1);
    if l.readers != 1 then Outcome(ReadDone(l), OK)
    else
      match LockCode(l.rw, t, tryonly)
      case OK => Outcome(ReadDone(l.(rw := Some(t))), OK)
      case BLOCKED => Outcome(l, BLOCKED)
      case rc => Outcome(ReadFailed(l), rc)
  }

  function AcquireFields(l: Fields, t: Tid, mode: Mode, tryonly: bool): Outcome {
    var rc := LockCode(if mode == RW then l.rw else l.rd, t, tryonly);
    if rc != OK then Outcome(l, rc)
    else if mode == RW then Outcome(WriteDone(l, t), OK)
    else ReadIn(l, t, tryonly)
  }

  /** A reader that gives up, with the outer mutex held. */
  function ReadOut(l: Fields, t: Tid): Outcome {
    var d := l.(readers := l.readers - 1);
    if d.readers != 0 then Outcome(ReadDone(d), OK)
    else if d.rw == Some(t) then Outcome(ReadDone(d.(rw := None)), OK)
    else Outcome(l.(rd := None), EPERM)
  }

  function ReleaseFields(l: Fields, t: Tid): Outcome {
    if l.mode == RW then
      if l.rw == Some(t) then Outcome(l.(rw := None), OK) else Outcome(l, EPERM)
    else
      var rc := LockCode(l.rd, t, false);
      if rc != OK then Outcome(l, rc) else ReadOut(l, t)
  }

  class Lock {
    var rd: Option<Tid>
    var rw: Option<Tid>
    var readers: int
    var mode: Mode

    ghost function Value(): Fields
      reads this
    {
      Fields(rd, rw, readers, mode)
    }

    constructor (m: Mode)
      ensures Value() == Fields(None, None, 0, m)
    {
      rd, rw, readers, mode := None, None, 0, m;
    }

    method Acquire(t: Tid, op: Mode, tryonly: bool) returns (rc: Code)
      modifies this
      ensures Outcome(Value(), rc) == AcquireFields(old(Value()), t, op, tryonly)
    {
      if op == RW {
        rc := LockCode(rw, t, tryonly);
        if rc != OK {
          return;
        }
        rw := Some(t);
        mode := RW;
      } else {
        rc := LockCode(rd, t, tryonly);
        if rc != OK {
          return;
        }
        rd := Some(t);
        rc := CountReader(t, tryonly);
      }
    }

    /** From the point where the outer mutex is held; also where a waiting reader goes on. */
    method CountReader(t: Tid, tryonly: bool) returns (rc: Code)
      requires rd == Some(t)
      modifies this
      ensures Outcome(Value(), rc) == ReadIn(old(Value()), t, tryonly)
    {
      readers := readers + 1;
      if readers == 1 {
        rc := LockCode(rw, t, tryonly);
        if rc == BLOCKED {
          return;
        }
        if rc != OK {
          readers := readers - 1;
          rd := None;
          return;
        }
        rw := Some(t);
      }
      mode := RD;
      rd := None;
      rc := OK;
    }

    method Release(t: Tid) returns (rc: Code)
      modifies this
      ensures Outcome(Value(), rc) == ReleaseFields(old(Value()), t)
    {
      if mode == RW {
        if rw != Some(t) {
          return EPERM;
        }
        rw := None;
        return OK;
      }
      rc := LockCode(rd, t, false);
      if rc != OK {
        return;
      }
      rd := Some(t);
      readers := readers - 1;
      if readers == 0 {
        if rw != Some(t) {
          readers := readers + 1;
          rd := None;
          return EPERM;
        }
        rw := None;
      }
      mode := RD;
      rd := None;
      rc := OK;
    }
  }

  // ---- runs of any number of threads ----

  /** Where a thread waits: for the outer mutex, or for the inner one as reader or writer. */
  datatype Pc = ForRd | ForRwReading | ForRwWriting | ForRdReleasing

  datatype State = State(l: Fields, held: multiset<Tid>, writer: Option<Tid>, pc: map<Tid, Pc>)

  datatype Op =
    | Acquire(t: Tid, mode: Mode, tryonly: bool)
    | Release(t: Tid)
    | Resume(t: Tid)      // the wait ended because the mutex was seen free
    | Interrupt(t: Tid)   // the wait ended because of an extra event

  predicate Enabled(s: State, op: Op) {
    match op
    case Acquire(t, _, _) => t !in s.pc
    case Release(t) => t !in s.pc && (t in s.held || s.writer == Some(t))
    case Resume(t) => t in s.pc
    case Interrupt(t) => t in s.pc && s.pc[t] != ForRdReleasing
  }

  /** Book the result of an acquire: the thread holds, waits, or was turned down. */
  function Booked(s: State, t: Tid, mode: Mode, o: Outcome): State {
    var q := s.(l := o.l, pc := s.pc - {t});
    if o.rc == BLOCKED then
      q.(pc := s.pc[t := if mode == RW then ForRwWriting else if o.l.rd == Some(t) then ForRwReading else ForRd])
    else if o.rc != OK then q
    else if mode == RW then q.(writer := Some(t))
    else q.(held := s.held + multiset{t})
  }

  function Freed(s: State, t: Tid, o: Outcome): State {
    var q := s.(l := o.l, pc := s.pc - {t});
    if o.rc == BLOCKED then q.(pc := s.pc[t := ForRdReleasing])
    else if o.rc != OK then q
    else if s.l.mode == RW then q.(writer := None)
    else q.(held := s.held - multiset{t})
  }

  function ResumeStep(s: State, t: Tid): State
    requires t in s.pc
  {
    match s.pc[t]
    case ForRd => if s.l.rd.Some? then s else Booked(s, t, RD, ReadIn(s.l, t, false))
    case ForRwWriting => if s.l.rw.Some? then s else Booked(s, t, RW, Outcome(WriteDone(s.l, t), OK))
    case ForRwReading => if s.l.rw.Some? then s else Booked(s, t, RD, Outcome(ReadDone(s.l.(rw := Some(t))), OK))
    case ForRdReleasing => if s.l.rd.Some? then s else Freed(s, t, ReadOut(s.l, t))
  }

  function Step(s: State, op: Op): State
    requires Enabled(s, op)
  {
    match op
    case Acquire(t, mode, tryonly) => Booked(s, t, mode, AcquireFields(s.l, t, mode, tryonly))
    case Release(t) => Freed(s, t, ReleaseFields(s.l, t))
    case Resume(t) => ResumeStep(s, t)
    case Interrupt(t) =>
      Booked(s, t, RD, Outcome(if s.pc[t] == ForRwReading then ReadFailed(s.l) else s.l, EINTR))
  }

  /** One reader may wait for the inner mutex; it holds the outer one meanwhile. */
  predicate AtInner(s: State, t: Tid) {
    t in s.pc && s.pc[t] == ForRwReading
  }

  ghost predicate Inv(s: State) {
    && (s.writer.Some? ==> s.l.rw == s.writer && s.l.mode == RW && s.held == multiset{})
    && (s.held != multiset{} ==> s.l.rw.Some? && s.l.mode == RD)
    && (s.l.rw.Some? ==> s.writer == s.l.rw || s.held != multiset{})
    && s.l.readers == |s.held| + (if s.l.rd.Some? then 1 else 0)
    && (forall t: Tid :: AtInner(s, t) <==> s.l.rd == Some(t))
    && (s.l.rd.Some? ==> s.held == multiset{})
    && (forall t | t in s.pc :: s.pc[t] != ForRdReleasing)
  }

  /** A new lock; its mode field has no particular value yet. */
  function Fresh(mode: Mode): State {
    State(Fields(None, None, 0, mode), multiset{}, None, map[])
  }

  lemma AcquireKeeps(s: State, t: Tid, mode: Mode, tryonly: bool)
    requires Inv(s) && t !in s.pc
    ensures Inv(Step(s, Acquire(t, mode, tryonly)))
  {
    assert !AtInner(s, t);
    var r := Step(s, Acquire(t, mode, tryonly));
    assert forall u | u != t :: AtInner(r, u) <==> AtInner(s, u);
  }

  lemma WriterReleaseKeeps(s: State, t: Tid)
    requires Inv(s) && Enabled(s, Release(t)) && s.l.mode == RW
    ensures Inv(Step(s, Release(t)))
  {
    assert !AtInner(s, t);
    var r := Step(s, Release(t));
    assert forall u | u != t :: AtInner(r, u) <==> AtInner(s, u);
  }

  lemma ReaderReleaseKeeps(s: State, t: Tid)
    requires Inv(s) && Enabled(s, Release(t)) && s.l.mode == RD
    ensures Inv(Step(s, Release(t)))
  {
    assert !AtInner(s, t) && s.l.rd.None?;
    var r := Step(s, Release(t));
    assert r.pc == s.pc;
    assert t in s.held && |s.held - multiset{t}| == |s.held| - 1;
  }

  lemma ReleaseKeeps(s: State, t: Tid)
    requires Inv(s) && Enabled(s, Release(t))
    ensures Inv(Step(s, Release(t)))
  {
    if s.l.mode == RW {
      WriterReleaseKeeps(s, t);
    } else {
      ReaderReleaseKeeps(s, t);
    }
  }

  lemma ResumeKeeps(s: State, t: Tid)
    requires Inv(s) && t in s.pc
    ensures Inv(Step(s, Resume(t)))
  {
    assert AtInner(s, t) <==> s.pc[t] == ForRwReading;
    var r := Step(s, Resume(t));
    assert forall u | u != t :: AtInner(r, u) <==> AtInner(s, u);
  }

  lemma InterruptKeeps(s: State, t: Tid)
    requires Inv(s) && Enabled(s, Interrupt(t))
    ensures Inv(Step(s, Interrupt(t)))
  {
    assert AtInner(s, t) <==> s.pc[t] == ForRwReading;
    var r := Step(s, Interrupt(t));
    assert forall u | u != t :: AtInner(r, u) <==> AtInner(s, u);
  }

  lemma StepKeeps(s: State, op: Op)
    requires Inv(s) && Enabled(s, op)
    ensures Inv(Step(s, op))
  {
    match op
    case Acquire(t, mode, tryonly) => AcquireKeeps(s, t, mode, tryonly);
    case Release(t) => ReleaseKeeps(s, t);
    case Resume(t) => ResumeKeeps(s, t);
    case Interrupt(t) => InterruptKeeps(s, t);
  }

  ghost predicate Possible(s: State, ops: seq<Op>)
    decreases |ops|
  {
    ops == [] || (Enabled(s, ops[0]) && Possible(Step(s, ops[0]), ops[1..]))
  }

  ghost function Run(s: State, ops: seq<Op>): State
    requires Possible(s, ops)
    decreases |ops|
  {
    if ops == [] then s else Run(Step(s, ops[0]), ops[1..])
  }

  lemma {:induction false} RunsKeep(s: State, ops: seq<Op>)
    requires Inv(s) && Possible(s, ops)
    ensures Inv(Run(s, ops))
    decreases |ops|
  {
    if ops != [] {
      StepKeeps(s, ops[0]);
      RunsKeep(Step(s, ops[0]), ops[1..]);
    }
  }

  /**
   Over every run: no writer beside a reader, the count is right, the mode
   names the holder, and one reader at most is at the inner mutex.
   */
  lemma RunsExclude(mode: Mode, ops: seq<Op>, t: Tid, u: Tid)
    requires Possible(Fresh(mode), ops)
    ensures var s := Run(Fresh(mode), ops);
      && !(s.writer.Some? && t in s.held)
      && (s.writer.Some? ==> s.l.mode == RW)
      && (t in s.held ==> s.l.mode == RD)
      && (AtInner(s, t) && AtInner(s, u) ==> t == u)
      && s.l.readers == |s.held| + (if s.l.rd.Some? then 1 else 0)
      && (s.l.rd == Some(t) <==> AtInner(s, t))
  {
    RunsKeep(Fresh(mode), ops);
  }

  /** A writer enters only when nobody holds, and is not displaced by another. */
  lemma WriterEntersAlone(s: State, op: Op)
    requires Inv(s) && Enabled(s, op)
    ensures var r := Step(s, op);
      r.writer.Some? ==> r.writer == s.writer || (s.writer.None? && s.held == multiset{})
  {
  }

  /** A reader enters only when no writer holds, beside the readers already there. */
  lemma ReaderEntersBesideReaders(s: State, op: Op)
    requires Inv(s) && Enabled(s, op)
    ensures var r := Step(s, op);
      r.held[op.t] > s.held[op.t] ==> s.writer.None? && r.writer.None? && r.held == s.held + multiset{op.t}
  {
  }

  /** A call that is turned down or interrupted leaves every field as it was, save the waiting reader's own count. */
  lemma FailureRestores(s: State, op: Op)
    requires Inv(s) && Enabled(s, op)
    requires Step(s, op).held == s.held && Step(s, op).writer == s.writer && op.t !in Step(s, op).pc
    ensures var r := Step(s, op);
      if AtInner(s, op.t) then r.l == s.l.(readers := s.l.readers - 1, rd := None) else r.l == s.l
  {
  }

  /** A reader's release never waits, and succeeds unless the reader is the last and does not own the inner mutex. */
  lemma ReleaseSucceedsIff(s: State, t: Tid)
    requires Inv(s) && t in s.held && t !in s.pc
    ensures ReleaseFields(s.l, t).rc == OK <==> |s.held| > 1 || s.l.rw == Some(t)
    ensures ReleaseFields(s.l, t).rc != OK ==> ReleaseFields(s.l, t) == Outcome(s.l, EPERM)
  {
    assert |s.held| >= 1 && s.held[t] >= 1;
  }

  ghost predicate Without(ops: seq<Op>, u: Tid) {
    forall i | 0 <= i < |ops| :: ops[i].t != u
  }

  lemma AbandonedStep(s: State, op: Op, u: Tid)
    requires Inv(s) && Enabled(s, op) && op.t != u && s.held != multiset{} && s.l.rw == Some(u) && u !in s.held
    ensures var r := Step(s, op); r.held != multiset{} && r.l.rw == Some(u) && u !in r.held
  {
    if op.Release? {
      assert op.t in s.held;
      if |s.held| > 1 {
        assert |s.held - multiset{op.t}| == |s.held| - 1;
      }
    }
  }

  /**
   When the first reader has left before the others, the lock stays read-locked
   for good unless that very thread comes back: no other run of calls frees it.
   */
  lemma {:induction false} AbandonedForGood(s: State, ops: seq<Op>, u: Tid)
    requires Inv(s) && Possible(s, ops) && Without(ops, u)
    requires s.held != multiset{} && s.l.rw == Some(u) && u !in s.held
    ensures var r := Run(s, ops); r.writer.None? && r.held != multiset{} && r.l.rw == Some(u)
    decreases |ops|
  {
    if ops != [] {
      AbandonedStep(s, ops[0], u);
      StepKeeps(s, ops[0]);
      AbandonedForGood(Step(s, ops[0]), ops[1..], u);
    }
  }

  lemma Unroll(s: State, op: Op, ops: seq<Op>)
    requires Enabled(s, op) && Possible(Step(s, op), ops)
    ensures Possible(s, [op] + ops) && Run(s, [op] + ops) == Run(Step(s, op), ops)
  {
    assert ([op] + ops)[0] == op && ([op] + ops)[1..] == ops;
  }

  /** From the start: of two readers the first leaves, and the other cannot. */
  lemma FirstReaderLeaves(mode: Mode)
    ensures var ops := [Acquire(0, RD, false), Acquire(1, RD, false), Release(0)];
      Possible(Fresh(mode), ops) && var s := Run(Fresh(mode), ops);
      s.held == multiset{1} && s.l.rw == Some(0) && ReleaseFields(s.l, 1) == Outcome(s.l, EPERM)
  {
    var s1 := Step(Fresh(mode), Acquire(0, RD, false));
    var s2 := Step(s1, Acquire(1, RD, false));
    Unroll(s2, Release(0), []);
    Unroll(s1, Acquire(1, RD, false), [Release(0)] + []);
    Unroll(Fresh(mode), Acquire(0, RD, false), [Acquire(1, RD, false)] + ([Release(0)] + []));
    assert [Acquire(0, RD, false)] + ([Acquire(1, RD, false)] + ([Release(0)] + []))
        == [Acquire(0, RD, false), Acquire(1, RD, false), Release(0)];
  }
}
