/** The text of an integer conversion: sign, digits and padding; its length, and reading it back. */
module IntText {
  import opened Arith
  import opened Numerals

  function Magnitude(value: int, flags: Flags): nat {
    if flags.unsigned then value % 0x1_0000_0000_0000_0000 else if value < 0 then -value else value
  }

  function Sign(value: int, flags: Flags): string {
    if flags.unsigned then ""
    else if value < 0 then "-"
    else if flags.plus then "+"
    else if flags.space then " "
    else ""
  }

  function ZeroPad(len: nat, sign: nat, min: int, max: int, zero: bool): nat {
    var z := Max(Max(max, 0) - len, 0);
    if zero then Max(z, min - Max(Max(max, 0), len) - sign) else z
  }

  function SpacePad(len: nat, sign: nat, min: int, max: int, zero: bool): nat {
    if zero then 0 else Max(min - Max(Max(max, 0), len) - sign, 0)
  }

  function Text(value: int, base: nat, min: int, max: int, flags: Flags): string
    requires 2 <= base <= 16
  {
    var d := Block(Magnitude(value, flags), base, flags.up);
    var sign := Sign(value, flags);
    var spaces := Rep(' ', SpacePad(|d|, |sign|, min, max, flags.zero));
    (if flags.minus then "" else spaces)
    + sign + Rep('0', ZeroPad(|d|, |sign|, min, max, flags.zero)) + d
    + (if flags.minus then spaces else "")
  }

  // ---- length ----

  /** Without the zero flag the text fills the width, and is no longer than sign and digits ask for. */
  lemma LengthWithoutZeroFlag(value: int, base: nat, min: int, max: int, flags: Flags)
    requires 2 <= base <= 16 && !flags.zero
    ensures var digits := |Block(Magnitude(value, flags), base, flags.up)|;
      |Text(value, base, min, max, flags)| == Max(min, |Sign(value, flags)| + Max(max, digits))
  {
  }

  /** With it the width is reached unless a precision beyond the digits and a width beyond the precision meet. */
  lemma ZeroFlagReachesWidthIff(value: int, base: nat, min: int, max: int, flags: Flags)
    requires 2 <= base <= 16 && flags.zero
    ensures var digits := |Block(Magnitude(value, flags), base, flags.up)|;
      |Text(value, base, min, max, flags)| >= min <==> max <= digits || min <= |Sign(value, flags)| + max
  {
  }

  // ---- reading back ----

  predicate IsDigit(c: char) {
    '0' <= c <= '9' || 'a' <= c <= 'f' || 'A' <= c <= 'F'
  }

  function SkipSpaces(s: string): string {
    if s != [] && s[0] == ' ' then SkipSpaces(s[1..]) else s
  }

  function TakeDigits(s: string): string {
    if s != [] && IsDigit(s[0]) then [s[0]] + TakeDigits(s[1..]) else []
  }

  /** How a reader understands the text: blanks, a sign, digits. */
  function Read(s: string, base: nat): int {
    var t := SkipSpaces(s);
    if t != [] && t[0] == '-' then 0 - Value(TakeDigits(t[1..]), base)
    else if t != [] && t[0] == '+' then Value(TakeDigits(t[1..]), base)
    else Value(TakeDigits(t), base)
  }

  lemma {:induction false} SkipsSpaces(n: nat, t: string)
    requires t != [] && t[0] != ' '
    ensures SkipSpaces(Rep(' ', n) + t) == t
    decreases n
  {
    if n == 0 {
      assert Rep(' ', n) + t == t;
    } else {
      assert (Rep(' ', n) + t)[1..] == Rep(' ', n - 1) + t;
      SkipsSpaces(n - 1, t);
    }
  }

  ghost predicate AllDigits(s: string) {
    forall i | 0 <= i < |s| :: IsDigit(s[i])
  }

  lemma {:induction false} TakesDigits(s: string, n: nat)
    requires AllDigits(s)
    ensures TakeDigits(s + Rep(' ', n)) == s
    decreases |s|
  {
    if s == [] {
      assert s + Rep(' ', n) == Rep(' ', n);
    } else {
      assert (s + Rep(' ', n))[1..] == s[1..] + Rep(' ', n);
      TakesDigits(s[1..], n);
    }
  }

  lemma {:induction false} DigitsAreDigits(u: nat, base: nat, caps: bool)
    requires 2 <= base <= 16
    ensures AllDigits(Digits(u, base, caps))
    decreases u
  {
    if u < base {
      DigitIsDigit(u, caps);
    } else {
      DigitsAreDigits(u / base, base, caps);
      OneMoreDigit(Digits(u / base, base, caps), u % base, caps);
    }
  }

  lemma OneMoreDigit(s: string, d: nat, caps: bool)
    requires AllDigits(s) && d < 16
    ensures AllDigits(s + [Digit(d, caps)])
  {
    DigitIsDigit(d, caps);
  }

  lemma DigitIsDigit(d: nat, caps: bool)
    requires d < 16
    ensures IsDigit(Digit(d, caps))
  {
  }

  lemma {:induction false} LeadingZeros(n: nat, s: string, base: nat)
    ensures Value(Rep('0', n) + s, base) == Value(s, base)
    decreases |s|, n
  {
    if s != [] {
      var front := s[..|s| - 1];
      assert (Rep('0', n) + s)[..n + |s| - 1] == Rep('0', n) + front;
      LeadingZeros(n, front, base);
    } else if n > 0 {
      assert (Rep('0', n) + s)[..n - 1] == Rep('0', n - 1) + s;
      LeadingZeros(n - 1, s, base);
    } else {
      assert Rep('0', n) + s == s;
    }
  }

  function Body(value: int, base: nat, min: int, max: int, flags: Flags): string
    requires 2 <= base <= 16
  {
    var d := Block(Magnitude(value, flags), base, flags.up);
    Rep('0', ZeroPad(|d|, |Sign(value, flags)|, min, max, flags.zero)) + d
  }

  lemma BodyReads(value: int, base: nat, min: int, max: int, flags: Flags, after: nat)
    requires 2 <= base <= 16
    ensures var b := Body(value, base, min, max, flags);
      && b != [] && AllDigits(b) && TakeDigits(b + Rep(' ', after)) == b
      && Pow(base, Places()) >= 1 && Value(b, base) == Magnitude(value, flags) % Pow(base, Places())
  {
    var u := Magnitude(value, flags);
    var d := Block(u, base, flags.up);
    var n := ZeroPad(|d|, |Sign(value, flags)|, min, max, flags.zero);
    DigitsAreDigits(u, base, flags.up);
    LeadingZeros(n, d, base);
    BlockRoundTrip(u, base, flags.up);
    TakesDigits(Rep('0', n) + d, after);
  }

  /** The blanks in front of the sign or the digits, wherever they come from. */
  function Before(value: int, base: nat, min: int, max: int, flags: Flags): nat
    requires 2 <= base <= 16
  {
    var d := Block(Magnitude(value, flags), base, flags.up);
    (if flags.minus then 0 else SpacePad(|d|, |Sign(value, flags)|, min, max, flags.zero))
    + (if Sign(value, flags) == " " then 1 else 0)
  }

  function After(value: int, base: nat, min: int, max: int, flags: Flags): nat
    requires 2 <= base <= 16
  {
    var d := Block(Magnitude(value, flags), base, flags.up);
    if flags.minus then SpacePad(|d|, |Sign(value, flags)|, min, max, flags.zero) else 0
  }

  lemma TextParts(value: int, base: nat, min: int, max: int, flags: Flags)
    requires 2 <= base <= 16
    ensures var sign := Sign(value, flags);
      Text(value, base, min, max, flags)
      == Rep(' ', Before(value, base, min, max, flags))
         + ((if sign == " " then "" else sign)
            + (Body(value, base, min, max, flags) + Rep(' ', After(value, base, min, max, flags))))
  {
  }

  /** Blanks, a sign or none, digits, blanks: what a reader makes of them. */
  lemma ReadsParts(before: nat, sign: string, body: string, after: nat, base: nat)
    requires sign == "" || sign == "-" || sign == "+"
    requires body != [] && AllDigits(body) && TakeDigits(body + Rep(' ', after)) == body
    ensures Read(Rep(' ', before) + (sign + (body + Rep(' ', after))), base)
         == if sign == "-" then 0 - Value(body, base) else Value(body, base)
  {
    var rest := body + Rep(' ', after);
    var t := sign + rest;
    SkipsSpaces(before, t);
    if sign == "" {
      assert t == rest;
    } else {
      assert t[1..] == rest;
    }
  }

  /** The number a text stands for: its magnitude with its sign. */
  function Signed(value: int, flags: Flags): int {
    if Sign(value, flags) == "-" then 0 - Magnitude(value, flags) else Magnitude(value, flags)
  }

  lemma TextReads(value: int, base: nat, min: int, max: int, flags: Flags)
    requires 2 <= base <= 16
    ensures Pow(base, Places()) >= 1
    ensures var u := Magnitude(value, flags) % Pow(base, Places());
      Read(Text(value, base, min, max, flags), base) == if Sign(value, flags) == "-" then 0 - u else u
  {
    var after := After(value, base, min, max, flags);
    var sign := Sign(value, flags);
    BodyReads(value, base, min, max, flags, after);
    TextParts(value, base, min, max, flags);
    ReadsParts(Before(value, base, min, max, flags), if sign == " " then "" else sign,
               Body(value, base, min, max, flags), after, base);
  }

  /**
   Reading the printed text gives the number back exactly when its magnitude is
   below the 19th power of the base, whatever width, precision and flags.
   */
  lemma TextRoundTrip(value: int, base: nat, min: int, max: int, flags: Flags)
    requires 2 <= base <= 16
    ensures Read(Text(value, base, min, max, flags), base) == Signed(value, flags)
            <==> Magnitude(value, flags) < Pow(base, Places())
    ensures !flags.unsigned ==> Signed(value, flags) == value
  {
    TextReads(value, base, min, max, flags);
    ModSmall(Magnitude(value, flags), Pow(base, Places()));
  }

  /** Ten to the nineteenth, printed as an unsigned decimal, reads back as nothing. */
  lemma LargeUnsignedIsLost(min: int, max: int, flags: Flags)
    requires flags.unsigned
    ensures Read(Text(10000000000000000000, 10, min, max, flags), 10) == 0
  {
    TenToNineteen();
    PowerIsLost(10, min, max, flags);
  }

  /** The first value with too many digits loses all of them but zeros. */
  lemma PowerIsLost(base: nat, min: int, max: int, flags: Flags)
    requires 2 <= base <= 16 && Magnitude(Pow(base, Places()), flags) == Pow(base, Places())
    ensures Read(Text(Pow(base, Places()), base, min, max, flags), base) == 0
  {
    TextReads(Pow(base, Places()), base, min, max, flags);
  }

  lemma TenToNineteen()
    ensures Pow(10, Places()) == 10000000000000000000
  {
    assert Pow(10, 1) == 10;
    PowAdd(10, 1, 1);
    PowAdd(10, 2, 2);
    PowAdd(10, 4, 4);
    PowAdd(10, 8, 8);
    PowAdd(10, 16, 2);
    PowAdd(10, 18, 1);
  }
}
