/**
 What integer conversions print: the digit block of a number, its sign and
 its padding, and how much of the number can be read back from it.
 */
module Numerals {
  import opened Arith

  /** How many digits the conversion buffer keeps beside its terminator. */
  function Places(): nat {
    19
  }

  datatype Flags = Flags(minus: bool, plus: bool, space: bool, num: bool, zero: bool, up: bool, unsigned: bool)

  function Max(a: int, b: int): int {
    if a >= b then a else b
  }

  function Rep(c: char, n: int): (s: string)
    ensures |s| == Max(n, 0) && forall i | 0 <= i < |s| :: s[i] == c
  {
    seq(Max(n, 0), _ => c)
  }

  // ---- digits ----

  function Digit(d: nat, caps: bool): char
    requires d < 16
  {
    (if caps then "0123456789ABCDEF" else "0123456789abcdef")[d]
  }

  function DigitValue(c: char): nat {
    if '0' <= c <= '9' then (c - '0') as nat
    else if 'a' <= c <= 'f' then (c - 'a') as nat + 10
    else if 'A' <= c <= 'F' then (c - 'A') as nat + 10
    else 0
  }

  lemma DigitRoundTrip(d: nat, caps: bool)
    requires d < 16
    ensures DigitValue(Digit(d, caps)) == d
    ensures Digit(d, caps) == '0' <==> d == 0
  {
  }

  function Digits(u: nat, base: nat, caps: bool): (s: string)
    requires 2 <= base <= 16
    ensures |s| >= 1
    decreases u
  {
    if u < base then [Digit(u, caps)] else Digits(u / base, base, caps) + [Digit(u % base, caps)]
  }

  /** Reading a digit string in a base. */
  function Value(s: string, base: nat): nat {
    if s == [] then 0 else Value(s[..|s| - 1], base) * base + DigitValue(s[|s| - 1])
  }

  lemma ValueLast(s: string, c: char, base: nat)
    ensures Value(s + [c], base) == Value(s, base) * base + DigitValue(c)
  {
    assert (s + [c])[..|s|] == s;
  }

  lemma ValueStep(front: string, d: nat, caps: bool, base: nat, q: nat, u: nat)
    requires d < 16 && Value(front, base) == q && u == q * base + d
    ensures Value(front + [Digit(d, caps)], base) == u
  {
    ValueLast(front, Digit(d, caps), base);
    DigitRoundTrip(d, caps);
  }

  lemma OneDigitRoundTrip(u: nat, base: nat, caps: bool)
    requires 2 <= base <= 16 && u < base
    ensures Value(Digits(u, base, caps), base) == u
  {
    assert Value([], base) == 0;
    ValueStep([], u, caps, base, 0, u);
    assert [] + [Digit(u, caps)] == [Digit(u, caps)];
  }

  lemma MoreDigitsRoundTrip(u: nat, base: nat, caps: bool)
    requires 2 <= base <= 16 && base <= u && Value(Digits(u / base, base, caps), base) == u / base
    ensures Value(Digits(u, base, caps), base) == u
  {
    DivDef(u, base);
    ValueStep(Digits(u / base, base, caps), u % base, caps, base, u / base, u);
  }

  lemma {:induction false} DigitsRoundTrip(u: nat, base: nat, caps: bool)
    requires 2 <= base <= 16
    ensures Value(Digits(u, base, caps), base) == u
    decreases u
  {
    if u < base {
      OneDigitRoundTrip(u, base, caps);
    } else {
      DigitsRoundTrip(u / base, base, caps);
      MoreDigitsRoundTrip(u, base, caps);
    }
  }

  /** No redundant leading zero. */
  lemma {:induction false} DigitsLead(u: nat, base: nat, caps: bool)
    requires 2 <= base <= 16
    ensures Digits(u, base, caps)[0] == '0' <==> u == 0
    ensures u == 0 ==> |Digits(u, base, caps)| == 1
    decreases u
  {
    if u < base {
      DigitRoundTrip(u, caps);
    } else {
      DigitsLead(u / base, base, caps);
    }
  }

  lemma LengthStep(u: nat, base: nat, caps: bool, n: nat, p: nat)
    requires 2 <= base <= 16 && base <= u
    requires |Digits(u / base, base, caps)| <= n <==> u / base < p
    ensures |Digits(u, base, caps)| <= n + 1 <==> u < base * p
  {
    DivBound(u, base, p);
    assert |Digits(u, base, caps)| == |Digits(u / base, base, caps)| + 1;
  }

  /** A number has at most n digits exactly when it is below the n-th power of the base. */
  lemma {:induction false} DigitsLength(u: nat, base: nat, caps: bool, n: nat)
    requires 2 <= base <= 16 && n >= 1
    ensures |Digits(u, base, caps)| <= n <==> u < Pow(base, n)
    decreases n
  {
    var p := Pow(base, n - 1);
    PowPositive(base, n - 1);
    AtLeastBase(base, p);
    if base <= u {
      if n == 1 {
        assert |Digits(u / base, base, caps)| >= 1;
        assert Pow(base, 1) == base;
      } else {
        DigitsLength(u / base, base, caps, n - 1);
        LengthStep(u, base, caps, n - 1, p);
      }
    }
  }

  // ---- the block that is printed ----

  /** The lowest n digits of a digit string. */
  function Lowest(s: string, n: nat): string {
    if |s| <= n then s else s[|s| - n..]
  }

  lemma LowestSplits(front: string, c: char, n: nat)
    requires |front| > n
    ensures Lowest(front + [c], n + 1) == Lowest(front, n) + [c]
  {
  }

  lemma LowestStep(u: nat, base: nat, caps: bool, n: nat, p: nat)
    requires 2 <= base <= 16 && base <= u && p >= 1 && |Digits(u, base, caps)| > n + 1
    requires Value(Lowest(Digits(u / base, base, caps), n), base) == u / base % p
    ensures base * p >= 1 && Value(Lowest(Digits(u, base, caps), n + 1), base) == u % (base * p)
  {
    var front := Digits(u / base, base, caps);
    DivModStep(u, base, p);
    DivDef(u, base);
    LowestSplits(front, Digit(u % base, caps), n);
    ValueStep(Lowest(front, n), u % base, caps, base, u / base % p, u % (base * p));
  }

  lemma {:induction false} LowestValue(u: nat, base: nat, caps: bool, n: nat)
    requires 2 <= base <= 16
    ensures Pow(base, n) >= 1 && Value(Lowest(Digits(u, base, caps), n), base) == u % Pow(base, n)
    decreases n
  {
    PowPositive(base, n);
    if n == 0 {
      assert Lowest(Digits(u, base, caps), 0) == [];
    } else {
      DigitsLength(u, base, caps, n);
      ModSmall(u, Pow(base, n));
      if |Digits(u, base, caps)| <= n {
        DigitsRoundTrip(u, base, caps);
      } else {
        LowestValue(u / base, base, caps, n - 1);
        LowestStep(u, base, caps, n - 1, Pow(base, n - 1));
      }
    }
  }

  function Block(u: nat, base: nat, caps: bool): string
    requires 2 <= base <= 16
  {
    Lowest(Digits(u, base, caps), Places())
  }

  /** The printed block gives the number back exactly when it fits; otherwise what is above the buffer is lost. */
  lemma BlockRoundTrip(u: nat, base: nat, caps: bool)
    requires 2 <= base <= 16
    ensures Pow(base, Places()) >= 1 && Value(Block(u, base, caps), base) == u % Pow(base, Places())
    ensures Value(Block(u, base, caps), base) == u <==> u < Pow(base, Places())
    ensures u < Pow(base, Places()) ==> Block(u, base, caps)[0] != '0' || Block(u, base, caps) == "0"
  {
    LowestValue(u, base, caps, Places());
    DigitsLength(u, base, caps, Places());
    ModSmall(u, Pow(base, Places()));
    DigitsLead(u, base, caps);
  }
}
