/** Products, quotients and powers: the few facts the rest needs. */
module Arith {
  function Pow(b: nat, n: nat): nat {
    if n == 0 then 1 else b * Pow(b, n - 1)
  }

  lemma MulMono(b: nat, x: nat, y: nat)
    requires x <= y
    ensures b * x <= b * y
  {
  }

  lemma MulDist(b: nat, x: nat, y: nat)
    ensures b * (x + y) == b * x + b * y
  {
  }

  lemma MulAssoc(b: nat, p: nat, k: nat)
    ensures b * (p * k) == (b * p) * k
  {
  }

  lemma MulComm(x: nat, y: nat)
    ensures x * y == y * x
  {
  }

  lemma DivDef(u: nat, b: nat)
    requires b >= 1
    ensures u == u / b * b + u % b && u % b < b
    ensures u < b ==> u / b == 0 && u % b == u
    ensures u >= b ==> u / b >= 1
  {
  }

  lemma ModUnique(u: nat, d: nat, k: nat, low: nat)
    requires d >= 1 && low < d && u == d * k + low
    ensures u / d == k && u % d == low
  {
    var q, r := u / d, u % d;
    DivDef(u, d);
    MulComm(q, d);
    assert d * (k + 1) == d * k + d && d * (q + 1) == d * q + d;
    if q > k {
      MulMono(d, k + 1, q);
    } else if q < k {
      MulMono(d, q + 1, k);
    }
  }

  lemma ModSmall(u: nat, p: nat)
    requires p >= 1
    ensures u % p == u <==> u < p
  {
  }

  lemma DivBound(u: nat, b: nat, p: nat)
    requires b >= 1
    ensures u < b * p <==> u / b < p
  {
    var q := u / b;
    DivDef(u, b);
    MulComm(q, b);
    if q < p {
      MulMono(b, q + 1, p);
      MulDist(b, q, 1);
    } else {
      MulMono(b, p, q);
    }
  }

  lemma RegroupProduct(b: nat, p: nat, q: nat, r: nat, k: nat, m: nat)
    requires r < b && m < p && q == p * k + m
    ensures b * q + r == (b * p) * k + (b * m + r) && b * m + r < b * p
  {
    MulDist(b, p * k, m);
    MulAssoc(b, p, k);
    MulMono(b, m + 1, p);
    MulDist(b, m, 1);
  }

  lemma ModProduct(u: nat, b: nat, p: nat, q: nat, r: nat, k: nat, m: nat)
    requires r < b && m < p && q == p * k + m && u == b * q + r
    ensures b * p >= 1 && u % (b * p) == b * m + r
  {
    RegroupProduct(b, p, q, r, k, m);
    ModUnique(u, b * p, k, b * m + r);
  }

  lemma DivModStep(u: nat, b: nat, p: nat)
    requires b >= 1 && p >= 1
    ensures b * p >= 1 && u % (b * p) == u / b % p * b + u % b
  {
    var q, r := u / b, u % b;
    var k, m := q / p, q % p;
    DivDef(u, b);
    DivDef(q, p);
    MulComm(q, b);
    MulComm(k, p);
    MulComm(m, b);
    ModProduct(u, b, p, q, r, k, m);
  }

  lemma {:induction false} PowPositive(b: nat, n: nat)
    requires b >= 1
    ensures Pow(b, n) >= 1
  {
    if n > 0 {
      PowPositive(b, n - 1);
    }
  }

  lemma AtLeastBase(b: nat, p: nat)
    requires p >= 1
    ensures b <= b * p
  {
  }

  lemma {:induction false} PowAdd(b: nat, m: nat, n: nat)
    ensures Pow(b, m + n) == Pow(b, m) * Pow(b, n)
    decreases m
  {
    if m > 0 {
      PowAdd(b, m - 1, n);
      MulAssoc(b, Pow(b, m - 1), Pow(b, n));
    }
  }
}
