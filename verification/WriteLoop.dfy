/** pth_write_ev and pth_sendto_ev against a kernel that takes what it likes. */
module WriteLoop {

  type Byte = bv8

  const AGAIN := -1

  /**
   What the world answers: how many bytes the i-th call takes of n offered, or
   a negative error, AGAIN when it would block (a call repeated after a signal
   counts once); and whether an extra event ends the wait before the i-th call.
   */
  datatype World = World(take: (nat, nat) -> int, cutShort: nat -> bool)

  /** The kernel never claims to have taken more than it was offered. */
  ghost predicate Honest(w: World) {
    forall i, n :: w.take(i, n) <= n
  }

  /** From some call on the kernel always takes something, and no wait is cut short. */
  ghost predicate Willing(w: World, from: nat) {
    && (forall i, n | i >= from && n > 0 :: w.take(i, n) > 0)
    && (forall i :: !w.cutShort(i))
  }

  datatype Stop = AllTaken | Refused(error: int) | Interrupted

  /** Why the loop ended after so many calls: the kernel took all, would take no more, or the wait was cut short. */
  ghost predicate Justified(stop: Stop, w: World, calls: nat, left: nat) {
    match stop
    case AllTaken => left == 0
    case Refused(error) => left > 0 && calls > 0 && error <= 0 && w.take(calls - 1, left) == error
    case Interrupted => left > 0 && w.cutShort(calls)
  }

  datatype End = End(taken: nat, stop: Stop)

  /** How many of so many bytes the world takes from the i-th call on, and why not more. */
  function Taken(left: nat, writable: bool, w: World, i: nat): (r: End)
    requires left > 0
    ensures (forall k, n :: w.take(k, n) <= n) ==> r.taken <= left
    decreases left
  {
    var s := w.take(i, left);
    if !writable && w.cutShort(i) then End(0, Interrupted)
    else if s <= 0 then End(0, Refused(s))
    else if s >= left then End(s, AllTaken)
    else
      var rest := Taken(left - s, false, w, i + 1);
      End(s + rest.taken, rest.stop)
  }

  /** A world that takes one byte of two and then cuts the wait short: the caller learns of none. */
  lemma CutShortAfterBytes()
    ensures var w := World((i: nat, n: nat) => if i == 0 then AGAIN else if n == 0 then 0 else 1, (i: nat) => i == 2);
      Honest(w) && Taken(2, true, w, 1) == End(1, Interrupted)
  {
  }

  /**
   The loop behind a first attempt that would have blocked. Whatever the kernel
   does, the bytes it took are a prefix of the buffer, in order.
   */
  method Retry(buf: seq<Byte>, writable: bool, w: World, first: nat)
    returns (rv: int, sent: seq<Byte>, stop: Stop, calls: nat)
    requires Honest(w) && buf != []
    ensures End(|sent|, stop) == Taken(|buf|, writable, w, first)
    ensures sent <= buf && Justified(stop, w, calls, |buf| - |sent|)
    ensures rv == if stop == Interrupted || (stop.Refused? && stop.error < 0 && sent == []) then -1 else |sent|
    ensures Willing(w, first) ==> sent == buf
  {
    var n := writable;
    var rest := buf;
    rv, sent, calls := 0, [], first;
    while true
      invariant rv == |sent| && buf == sent + rest && rest != [] && calls >= first
      invariant var t := Taken(|rest|, n, w, calls); Taken(|buf|, writable, w, first) == End(rv + t.taken, t.stop)
      decreases |rest|
    {
      if !n {
        if w.cutShort(calls) {
          return -1, sent, Interrupted, calls;
        }
      }
      var s := w.take(calls, |rest|);
      calls := calls + 1;
      if s > 0 {
        rv := rv + s;
        sent := sent + rest[..s];
      }
      if 0 < s < |rest| {
        rest := rest[s..];
        n := false;
        continue;
      }
      if s < 0 && rv == 0 {
        rv := -1;
      }
      stop := if s > 0 then AllTaken else Refused(s);
      return;
    }
  }

  /** How a descriptor is set up when the call begins. */
  datatype Mode = Blocking | NonBlocking | BadDescriptor

  /** pth_write_ev, and pth_sendto_ev with its two mode tests in one. */
  method Write(buf: seq<Byte>, mode: Mode, writable: bool, w: World) returns (rv: int, sent: seq<Byte>, stop: Stop)
    requires Honest(w)
    ensures sent <= buf && rv >= -1
    ensures rv >= 0 ==> rv == |sent|
    ensures rv == -1 ==> sent == [] || stop == Interrupted
    ensures stop == Interrupted ==> rv == -1 && mode == Blocking && w.take(0, |buf|) == AGAIN
    ensures mode == Blocking && w.take(0, |buf|) == AGAIN && Willing(w, 1) ==> sent == buf
    ensures mode == Blocking && w.take(0, |buf|) == AGAIN && buf != [] ==>
      End(|sent|, stop) == Taken(|buf|, writable, w, 1)
  {
    if buf == [] {
      return 0, [], AllTaken;
    }
    if mode == BadDescriptor {
      return -1, [], Refused(-2);
    }
    rv := w.take(0, |buf|);
    if mode != NonBlocking && rv == AGAIN {
      var calls;
      rv, sent, stop, calls := Retry(buf, writable, w, 1);
    } else if rv > 0 {
      sent, stop := buf[..rv], if rv == |buf| then AllTaken else Refused(0);
    } else {
      sent, stop := [], Refused(rv);
      rv := if rv < 0 then -1 else 0;
    }
  }
}
