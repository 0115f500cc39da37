/**
 The cleanup handlers of the current thread: a linked stack whose first records
 lie in a buffer inside the thread and whose later ones come from the heap.
 Handlers may themselves push and pop, as long as they leave the stack as it was.
 */
module Cleanup {
  import opened Basics

  const BUFFERED := 5

  /** A handler, and the pushes and pops it makes while it runs, nested as brackets. */
  datatype Handler = Handler(id: nat, body: seq<Scope>)
  datatype Scope = Scope(h: Handler, inner: seq<Scope>, execute: bool)

  /** An address: a slot of the buffer, or a block from the allocator. */
  datatype Ref = Slot(i: nat) | Heap(id: nat)

  datatype Rec = Rec(h: Handler, next: Option<Ref>)

  // ---- what is to run, and in which order ----

  function Ran(h: Handler): seq<nat>
    decreases h, 1
  {
    [h.id] + Trace(h.body)
  }

  function Trace(scopes: seq<Scope>): seq<nat>
    decreases scopes, 0
  {
    if scopes == [] then [] else TraceOne(scopes[0]) + Trace(scopes[1..])
  }

  function TraceOne(b: Scope): seq<nat>
    decreases b, 0
  {
    Trace(b.inner) + if b.execute then Ran(b.h) else []
  }

  /** The last pushed first. */
  function Unwound(hs: seq<Handler>): seq<nat> {
    if hs == [] then [] else Ran(hs[|hs| - 1]) + Unwound(hs[..|hs| - 1])
  }

  // ---- the stack with the places of handlers under way kept open ----

  datatype Frame = Frame(h: Handler, ref: Ref, live: bool)

  ghost function TopLive(fr: seq<Frame>): Option<Ref> {
    if fr == [] then None
    else if fr[|fr| - 1].live then Some(fr[|fr| - 1].ref)
    else TopLive(fr[..|fr| - 1])
  }

  ghost function Handlers(fr: seq<Frame>): seq<Handler> {
    seq(|fr|, i requires 0 <= i < |fr| => fr[i].h)
  }

  ghost predicate AllLive(fr: seq<Frame>) {
    forall i | 0 <= i < |fr| :: fr[i].live
  }

  /** The record of the i-th frame: where it is and what it says. */
  ghost predicate FrameOk(fr: seq<Frame>, mem: map<Ref, Rec>, i: nat)
    requires i < |fr|
  {
    && (if i < BUFFERED then fr[i].ref == Slot(i) else fr[i].ref.Heap?)
    && fr[i].ref in mem
    && (fr[i].live ==> mem[fr[i].ref] == Rec(fr[i].h, TopLive(fr[..i])))
  }

  ghost predicate Represents(fr: seq<Frame>, mem: map<Ref, Rec>) {
    && (forall i | 0 <= i < |fr| :: FrameOk(fr, mem, i))
    && (forall i, j | 0 <= i < j < |fr| :: fr[i].ref != fr[j].ref)
    && (forall r | r in mem && r.Heap? :: HasRecord(fr, r))
  }

  ghost predicate HasRecord(fr: seq<Frame>, r: Ref) {
    exists i | 0 <= i < |fr| :: fr[i].ref == r
  }

  /** Where the next record goes: a free slot, or a block not in use. */
  ghost predicate FreePlace(fr: seq<Frame>, mem: map<Ref, Rec>, r: Ref) {
    if |fr| < BUFFERED then r == Slot(|fr|) else r.Heap? && r !in mem
  }

  lemma PushAway(fr: seq<Frame>, mem: map<Ref, Rec>, r: Ref, i: nat)
    requires Represents(fr, mem) && FreePlace(fr, mem, r) && i < |fr|
    ensures fr[i].ref != r
  {
    assert FrameOk(fr, mem, i);
  }

  lemma PushFrame(fr: seq<Frame>, mem: map<Ref, Rec>, r: Ref, h: Handler, i: nat)
    requires Represents(fr, mem) && FreePlace(fr, mem, r) && i <= |fr|
    ensures FrameOk(fr + [Frame(h, r, true)], mem[r := Rec(h, TopLive(fr))], i)
  {
    var now := fr + [Frame(h, r, true)];
    assert now[..i] == fr[..i];
    if i < |fr| {
      PushAway(fr, mem, r, i);
      assert FrameOk(fr, mem, i);
    } else {
      assert fr[..i] == fr;
    }
  }

  lemma PushKeeps(fr: seq<Frame>, mem: map<Ref, Rec>, r: Ref, h: Handler)
    requires Represents(fr, mem) && FreePlace(fr, mem, r)
    ensures forall i | 0 <= i < |fr| :: fr[i].ref != r
    ensures Represents(fr + [Frame(h, r, true)], mem[r := Rec(h, TopLive(fr))])
  {
    var now := fr + [Frame(h, r, true)];
    var m := mem[r := Rec(h, TopLive(fr))];
    forall i | 0 <= i < |fr| ensures fr[i].ref != r {
      PushAway(fr, mem, r, i);
    }
    forall i | 0 <= i < |now| ensures FrameOk(now, m, i) {
      PushFrame(fr, mem, r, h, i);
    }
    assert now[|fr|].ref == r;
    forall x | x in m && x.Heap? && x != r ensures HasRecord(now, x) {
      assert HasRecord(fr, x);
      var i :| 0 <= i < |fr| && fr[i].ref == x;
      assert now[i].ref == x;
    }
  }

  /** The last frame with its record unlinked, while its handler runs. */
  ghost function Opened(fr: seq<Frame>): seq<Frame>
    requires fr != []
  {
    fr[..|fr| - 1] + [fr[|fr| - 1].(live := false)]
  }

  lemma OpenFrame(fr: seq<Frame>, mem: map<Ref, Rec>, i: nat)
    requires fr != [] && Represents(fr, mem) && i < |fr|
    ensures FrameOk(Opened(fr), mem, i)
  {
    assert FrameOk(fr, mem, i);
    assert Opened(fr)[..i] == fr[..i];
  }

  lemma OpenKeeps(fr: seq<Frame>, mem: map<Ref, Rec>)
    requires fr != [] && Represents(fr, mem)
    ensures Represents(Opened(fr), mem)
  {
    forall i | 0 <= i < |fr| ensures FrameOk(Opened(fr), mem, i) {
      OpenFrame(fr, mem, i);
    }
    forall x | x in mem && x.Heap? ensures HasRecord(Opened(fr), x) {
      assert HasRecord(fr, x);
      var i :| 0 <= i < |fr| && fr[i].ref == x;
      assert Opened(fr)[i].ref == x;
    }
  }

  lemma OpenTop(fr: seq<Frame>, mem: map<Ref, Rec>)
    requires fr != [] && fr[|fr| - 1].live && Represents(fr, mem)
    ensures fr[|fr| - 1].ref in mem && mem[fr[|fr| - 1].ref] == Rec(fr[|fr| - 1].h, TopLive(Opened(fr)))
  {
    assert FrameOk(fr, mem, |fr| - 1);
    assert Opened(fr)[..|fr| - 1] == fr[..|fr| - 1];
  }

  /** When the handler is done, the place is given up; a block goes back to the allocator, a slot does not. */
  lemma CloseKeeps(fr: seq<Frame>, mem: map<Ref, Rec>, m: map<Ref, Rec>)
    requires fr != [] && !fr[|fr| - 1].live && Represents(fr, mem)
    requires m == if |fr| > BUFFERED then mem - {fr[|fr| - 1].ref} else mem
    ensures |fr| > BUFFERED ==> fr[|fr| - 1].ref.Heap? && fr[|fr| - 1].ref in mem
    ensures TopLive(fr[..|fr| - 1]) == TopLive(fr)
    ensures Represents(fr[..|fr| - 1], m)
  {
    var n := |fr| - 1;
    assert FrameOk(fr, mem, n);
    forall i | 0 <= i < n ensures FrameOk(fr[..n], m, i) {
      assert FrameOk(fr, mem, i);
      assert fr[..n][..i] == fr[..i];
    }
    forall x | x in m && x.Heap? ensures HasRecord(fr[..n], x) {
      assert HasRecord(fr, x);
      var i :| 0 <= i < |fr| && fr[i].ref == x;
      assert i < n && fr[..n][i].ref == x;
    }
  }

  class Thread {
    var mem: map<Ref, Rec>
    var nextBlock: nat
    var cleanups: Option<Ref>
    var count: nat
    var log: seq<nat>
    ghost var frames: seq<Frame>

    ghost predicate Valid()
      reads this
    {
      && Represents(frames, mem)
      && (forall r | r in mem && r.Heap? :: r.id < nextBlock)
      && cleanups == TopLive(frames)
      && count == |frames|
    }

    constructor ()
      ensures Valid() && frames == [] && log == []
    {
      mem, nextBlock, cleanups, count, log, frames := map[], 0, None, 0, [], [];
    }

    /** Only a block that was allocated and not yet freed can be freed. */
    method Free(r: Ref)
      requires r.Heap? && r in mem
      modifies this`mem
      ensures mem == old(mem) - {r}
    {
      mem := mem - {r};
    }

    /** pth_cleanup_push; memory tells whether an allocation would succeed. */
    method Push(func: Option<Handler>, memory: bool) returns (rc: bool)
      requires Valid()
      modifies this
      ensures Valid() && log == old(log)
      ensures rc <==> func.Some? && (old(count) < BUFFERED || memory)
      ensures !rc ==> frames == old(frames)
      ensures rc ==> |frames| == |old(frames)| + 1 && frames[..|old(frames)|] == old(frames)
                     && frames[|old(frames)|].h == func.value && frames[|old(frames)|].live
      ensures forall i | 0 <= i < |old(frames)| && old(frames)[i].ref in old(mem) ::
                old(frames)[i].ref in mem && mem[old(frames)[i].ref] == old(mem)[old(frames)[i].ref]
    {
      if func.None? {
        return false;
      }
      var r;
      if count < BUFFERED {
        r := Slot(count);
      } else {
        if !memory {
          return false;
        }
        r := Heap(nextBlock);
        nextBlock := nextBlock + 1;
      }
      PushKeeps(frames, mem, r, func.value);
      mem := mem[r := Rec(func.value, cleanups)];
      frames := frames + [Frame(func.value, r, true)];
      count := count + 1;
      cleanups := Some(r);
      return true;
    }

    /** The pushes and pops of a running handler: afterwards the stack is as it was. */
    method RunScopes(scopes: seq<Scope>)
      requires Valid()
      modifies this
      ensures Valid() && frames == old(frames) && log == old(log) + Trace(scopes)
      decreases scopes, 0
    {
      if scopes != [] {
        RunScope(scopes[0]);
        RunScopes(scopes[1..]);
        Regroup(old(log), TraceOne(scopes[0]), Trace(scopes[1..]));
      }
    }

    method RunScope(b: Scope)
      requires Valid()
      modifies this
      ensures Valid() && frames == old(frames) && log == old(log) + TraceOne(b)
      decreases b, 3
    {
      var rc := Push(Some(b.h), true);
      RunScopes(b.inner);
      rc := Pop(b.execute, b.h);
      Regroup(old(log), Trace(b.inner), if b.execute then Ran(b.h) else []);
    }

    /** pth_cleanup_pop, with or without running the handler. */
    method Pop(execute: bool, ghost h: Handler) returns (rc: bool)
      requires Valid() && (frames != [] ==> frames[|frames| - 1].live && frames[|frames| - 1].h == h)
      modifies this
      ensures Valid()
      ensures rc <==> old(frames) != []
      ensures frames == if rc then old(frames)[..|old(frames)| - 1] else []
      ensures log == old(log) + if rc && execute then Ran(h) else []
      decreases h, 2
    {
      if cleanups.None? {
        return false;
      }
      var cleanup := cleanups.value;
      OpenTop(frames, mem);
      OpenKeeps(frames, mem);
      cleanups := mem[cleanup].next;
      frames := Opened(frames);
      if execute {
        log := log + [mem[cleanup].h.id];
        RunScopes(mem[cleanup].h.body);
        Regroup(old(log), [h.id], Trace(h.body));
      }
      Drop(cleanup);
      return true;
    }

    /** The record of a handler that is done goes; only a block is freed. */
    method Drop(cleanup: Ref)
      requires Valid() && frames != [] && !frames[|frames| - 1].live && frames[|frames| - 1].ref == cleanup
      modifies this`mem, this`count, this`frames
      ensures Valid() && frames == old(frames)[..|old(frames)| - 1]
    {
      CloseKeeps(frames, mem, if |frames| > BUFFERED then mem - {cleanup} else mem);
      if count > BUFFERED {
        Free(cleanup);
      }
      count := count - 1;
      frames := frames[..|frames| - 1];
    }

    /** pth_cleanup_popall for the current thread: all handlers, the last pushed first, each once. */
    method PopAll(execute: bool)
      requires Valid() && AllLive(frames)
      modifies this
      ensures Valid() && frames == [] && count == 0 && cleanups == None
      ensures log == old(log) + ToRun(old(frames), execute)
      ensures forall r | r in mem :: r.Slot?
    {
      ghost var goal := log + ToRun(frames, execute);
      while cleanups != None
        invariant Valid() && AllLive(frames) && log + ToRun(frames, execute) == goal
        decreases |frames|
      {
        ghost var top := frames[|frames| - 1].h;
        ToRunTop(frames, execute, log);
        var rc := Pop(execute, top);
      }
    }
  }

  ghost function ToRun(fr: seq<Frame>, execute: bool): seq<nat> {
    if execute then Unwound(Handlers(fr)) else []
  }

  lemma ToRunTop(fr: seq<Frame>, execute: bool, log: seq<nat>)
    requires fr != []
    ensures var n := |fr| - 1;
      log + ToRun(fr, execute) == log + (if execute then Ran(fr[n].h) else []) + ToRun(fr[..n], execute)
  {
    assert Handlers(fr)[..|fr| - 1] == Handlers(fr[..|fr| - 1]);
  }
}
