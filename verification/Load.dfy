/** The exponential average of the number of ready threads, caught up after missed ticks. */
module Load {

  function Decay(k: nat): (r: real)
    ensures 0.0 < r <= 1.0
  {
    if k == 0 then 1.0 else 0.75 * Decay(k - 1)
  }

  function Part(x: real, d: real): real {
    x * d
  }

  /** The load after k rounds with the same number of ready threads. */
  function After(load: real, ready: nat, k: nat): real {
    ready as real + Part(load - ready as real, Decay(k))
  }

  lemma OneRound(load: real, ready: nat, k: nat)
    ensures After(load, ready, k + 1) == ready as real * 0.25 + After(load, ready, k) * 0.75
  {
    Scale(load - ready as real, Decay(k));
    assert Decay(k + 1) == 0.75 * Decay(k);
  }

  lemma Scale(x: real, y: real)
    ensures Part(x, 0.75 * y) == 0.75 * Part(x, y)
  {
  }

  /** The load moves towards the ready count and never past it. */
  lemma Between(load: real, ready: nat, k: nat)
    ensures var r := ready as real;
      if load <= r then load <= After(load, ready, k) <= r else r <= After(load, ready, k) <= load
  {
    Shrinks(load - ready as real, Decay(k));
  }

  lemma Shrinks(x: real, d: real)
    requires 0.0 < d <= 1.0
    ensures x >= 0.0 ==> 0.0 <= Part(x, d) <= x
    ensures x <= 0.0 ==> x <= Part(x, d) <= 0.0
  {
    if x >= 0.0 {
      assert x * (1.0 - d) >= 0.0;
    } else {
      assert x * (1.0 - d) <= 0.0;
    }
  }

  /** How many ticks have passed since the next one was due, that one included. */
  function Rounds(now: int, next: int, gap: int): (k: nat)
    requires gap > 0 && now >= next
    ensures k >= 1
  {
    (now - next) / gap + 1
  }

  lemma RoundsEnd(now: int, next: int, gap: int, k: nat)
    requires gap > 0 && now >= next && k >= 1
    requires now - (k - 1) * gap >= next && now - k * gap < next
    ensures k == Rounds(now, next, gap)
  {
    var q := (now - next) / gap;
    assert now - next == q * gap + (now - next) % gap;
    if q > k - 1 {
      Steps(k, q, gap);
    } else if q < k - 1 {
      Steps(q + 1, k - 1, gap);
    }
  }

  lemma Steps(a: int, b: int, gap: int)
    requires a <= b && gap > 0
    ensures a * gap <= b * gap
    ensures (a + 1) * gap == a * gap + gap && (b - 1) * gap == b * gap - gap
  {
  }

  /** pth_scheduler_load. */
  method Update(now: int, next: int, gap: int, load: real, ready: nat) returns (newLoad: real, newNext: int)
    requires gap > 0
    ensures now < next ==> newLoad == load && newNext == next
    ensures now >= next ==> newLoad == After(load, ready, Rounds(now, next, gap)) && newNext == now + gap
    ensures newNext > now
  {
    newLoad, newNext := load, next;
    if now >= next {
      var ttmp := now;
      ghost var k := 0;
      var more := true;
      while more
        invariant ttmp == now - k * gap && newLoad == After(load, ready, k)
        invariant more <==> k == 0 || ttmp >= next
        invariant k > 0 ==> ttmp + gap >= next
        decreases if k == 0 then 1 else 0, ttmp - next + gap
      {
        OneRound(load, ready, k);
        Steps(k, k + 1, gap);
        newLoad := ready as real * 0.25 + newLoad * 0.75;
        ttmp := ttmp - gap;
        k := k + 1;
        more := ttmp >= next;
      }
      Steps(k - 1, k, gap);
      RoundsEnd(now, next, gap, k);
      newNext := now;
      newNext := newNext + gap;
    }
  }
}
