/**
 The formatter as it runs: a state machine that reads the format one character
 at a time and writes into a buffer of limited size.
 */
module Printer {
  import opened Basics
  import opened Arith
  import opened Numerals
  import opened Format
  import IntText

  datatype PState = Default | InFlags | InMin | InDot | InMax | InMod | InConv | Done

  function Rank(s: PState): nat {
    match s
    case Default => 7
    case InFlags => 6
    case InMin => 5
    case InDot => 4
    case InMax => 3
    case InMod => 2
    case InConv => 1
    case Done => 0
  }

  function Reversed(s: string): (r: string)
    ensures |r| == |s|
  {
    if s == [] then [] else [s[|s| - 1]] + Reversed(s[..|s| - 1])
  }

  /** The digits of what is left of a number; nothing when nothing is left. */
  ghost function Higher(u: nat, base: nat, caps: bool): string
    requires 2 <= base <= 16
  {
    if u == 0 then "" else Digits(u, base, caps)
  }

  /** One digit goes to its place; what is left of the number is returned. */
  method PutDigit(convert: array<char>, place: nat, u: nat, base: nat, caps: bool) returns (rest: nat)
    requires 2 <= base <= 16 && place < convert.Length && (place > 0 ==> u != 0)
    modifies convert
    ensures Higher(rest, base, caps) + Reversed(convert[..place + 1])
         == if place == 0 then Digits(u, base, caps) else Higher(u, base, caps) + Reversed(old(convert[..place]))
  {
    ghost var low := convert[..place];
    DigitsStep(u, base, caps, low);
    convert[place] := Digit(u % base, caps);
    assert convert[..place + 1] == low + [Digit(u % base, caps)];
    rest := u / base;
  }

  /** Digits are taken off until nothing is left or the buffer of twenty places is full. */
  method FillDigits(value: nat, base: nat, caps: bool) returns (convert: array<char>, place: nat, ghost rest: nat)
    requires 2 <= base <= 16
    ensures fresh(convert) && convert.Length == 20 && 0 < place <= 20 && (rest == 0 || place == 20)
    ensures Higher(rest, base, caps) + Reversed(convert[..place]) == Digits(value, base, caps)
  {
    convert := new char[20];
    place := 0;
    var u: nat := value;
    var more := true;
    while more
      invariant place <= 20 && (more <==> place == 0 || (u != 0 && place < 20))
      invariant place == 0 ==> u == value
      invariant place > 0 ==> Higher(u, base, caps) + Reversed(convert[..place]) == Digits(value, base, caps)
      decreases 20 - place
    {
      u := PutDigit(convert, place, u, base, caps);
      place := place + 1;
      more := u != 0 && place < 20;
    }
    rest := u;
  }

  /** The digits of a number, lowest first; of twenty places the last is given up to the terminator. */
  method Convert(value: nat, base: nat, caps: bool) returns (convert: array<char>, place: nat)
    requires 2 <= base <= 16
    ensures fresh(convert) && convert.Length == 20 && place <= Places()
    ensures Reversed(convert[..place]) == Block(value, base, caps)
  {
    ghost var rest;
    convert, place, rest := FillDigits(value, base, caps);
    ghost var digits := convert[..place];
    if place == 20 {
      place := place - 1;
      ReversedLast(digits[..19], digits[19]);
      assert digits == digits[..19] + [digits[19]];
    }
    convert[place] := NUL;
    assert convert[..place] == digits[..place];
    assert digits[..|digits|] == digits;
  }

  lemma DigitsStep(u: nat, base: nat, caps: bool, low: string)
    requires 2 <= base <= 16
    ensures var digits := if low == [] then Digits(u, base, caps) else Higher(u, base, caps) + Reversed(low);
      low == [] || u != 0 ==>
        Higher(u / base, base, caps) + Reversed(low + [Digit(u % base, caps)]) == digits
  {
    DivDef(u, base);
    ReversedLast(low, Digit(u % base, caps));
  }

  lemma ReversedLast(s: string, c: char)
    ensures Reversed(s + [c]) == [c] + Reversed(s)
  {
    assert (s + [c])[..|s|] == s;
  }

  class Printer {
    const buffer: array?<char>
    const maxlen: nat
    const f: string
    const env: Env

    var currlen: nat
    ghost var out: string   // all that was to be printed, limit or not

    var state: PState
    var pos: nat            // of the character under consideration
    var flags: Flags
    var size: Size
    var min: int
    var max: int
    var arg: nat

    constructor (buffer: array?<char>, maxlen: nat, f: string, env: Env)
      requires maxlen >= 1 && (buffer != null ==> buffer.Length >= maxlen)
      ensures this.buffer == buffer && this.maxlen == maxlen && this.f == f && this.env == env
      ensures Buffered() && Consistent() && out == "" && state == Default && pos == 0 && arg == 0
    {
      this.buffer, this.maxlen, this.f, this.env := buffer, maxlen, f, env;
      currlen, out := 0, "";
      state, pos, flags, size, min, max, arg := Default, 0, NoFlags, Plain, 0, -1, 0;
    }

    /** The buffer holds what was printed, as far as it fits. */
    ghost predicate Buffered()
      reads this`currlen, this`out, buffer
    {
      && maxlen >= 1
      && currlen == (if |out| <= maxlen then |out| else maxlen)
      && (buffer != null ==> buffer.Length >= maxlen && buffer[..currlen] == out[..currlen])
    }

    /** What a state has not read yet still has its initial value. */
    ghost predicate Consistent()
      reads this`state, this`flags, this`size, this`min, this`max
    {
      && (state == Default ==> flags == NoFlags)
      && (state in {Default, InFlags} ==> min == 0)
      && (state in {Default, InFlags, InMin, InDot} ==> max == -1)
      && (state in {Default, InFlags, InMin, InDot, InMax, InMod} ==> size == Plain)
    }

    /** What the rest of the format stands for, from where the machine is. */
    ghost function Rest(): string
      reads this`state, this`pos, this`flags, this`size, this`min, this`max, this`arg
    {
      match state
      case Default => Full(f, pos, env, arg)
      case InFlags => FromFlags(f, pos, flags, env, arg)
      case InMin => FromWidth(f, pos, flags, min, env, arg)
      case InDot => FromDot(f, pos, flags, min, env, arg)
      case InMax => FromPrecision(f, pos, flags, min, max, env, arg)
      case InMod => FromSize(f, pos, flags, min, max, env, arg)
      case InConv => FromConv(f, pos, flags, min, max, size, env, arg)
      case Done => ""
    }

    // ---- printing ----

    method Outch(c: char)
      requires Buffered()
      modifies this`currlen, this`out, buffer
      ensures Buffered() && out == old(out) + [c]
    {
      if currlen < maxlen {
        if buffer != null {
          buffer[currlen] := c;
        }
        currlen := currlen + 1;
      }
      out := out + [c];
    }

    method Pad(c: char, n: int)
      requires Buffered()
      modifies this`currlen, this`out, buffer
      ensures Buffered() && out == old(out) + Rep(c, n)
    {
      var i := 0;
      while i < n
        invariant Buffered() && 0 <= i <= Max(n, 0) && out == old(out) + Rep(c, i)
      {
        Outch(c);
        i := i + 1;
        assert Rep(c, i) == Rep(c, i - 1) + [c];
      }
    }

    method EmitDigits(convert: array<char>, n: nat)
      requires Buffered() && convert != buffer && n <= convert.Length
      modifies this`currlen, this`out, buffer
      ensures Buffered() && out == old(out) + Reversed(old(convert[..n]))
    {
      ghost var digits := convert[..n];
      assert digits[..n] == digits;
      var place := n;
      while place > 0
        invariant Buffered() && place <= n && convert[..n] == digits
        invariant out + Reversed(digits[..place]) == old(out) + Reversed(digits)
      {
        place := place - 1;
        assert digits[..place + 1][..place] == digits[..place];
        Outch(convert[place]);
      }
    }

    method EmitInt(value: int, base: nat, min: int, max: int, flags: Flags)
      requires Buffered() && 2 <= base <= 16
      modifies this`currlen, this`out, buffer
      ensures Buffered() && out == old(out) + IntText.Text(value, base, min, max, flags)
    {
      var convert, place := Convert(IntText.Magnitude(value, flags), base, flags.up);
      var sign := IntText.Sign(value, flags);
      var zpadlen, spadlen := PadLengths(place, |sign|, min, max, flags.zero);
      EmitParts(if flags.minus then 0 else spadlen, sign, zpadlen, convert, place, if flags.minus then spadlen else 0);
      IntParts(value, base, min, max, flags);
    }

    /** Spaces, sign, zeros, digits, spaces. */
    method EmitParts(before: nat, sign: string, zeros: nat, convert: array<char>, place: nat, after: nat)
      requires Buffered() && convert != buffer && place <= convert.Length && |sign| <= 1
      modifies this`currlen, this`out, buffer
      ensures Buffered() && out == old(out) + Parts(before, sign, zeros, Reversed(old(convert[..place])), after)
    {
      Pad(' ', before);
      if sign != "" {
        Outch(sign[0]);
      }
      Pad('0', zeros);
      EmitDigits(convert, place);
      Pad(' ', after);
    }

    /** Characters of a text until the count reaches the limit. */
    method EmitUpTo(t: string, from: nat, limit: nat) returns (cnt: nat)
      requires Buffered() && from <= limit
      modifies this`currlen, this`out, buffer
      ensures Buffered() && out == old(out) + Cut(t, limit - from) && cnt == from + |Cut(t, limit - from)|
    {
      var i := 0;
      cnt := from;
      while i < |t| && cnt < limit
        invariant Buffered() && i <= |t| && cnt <= limit && cnt == from + i && out == old(out) + t[..i]
      {
        Outch(t[i]);
        assert t[..i + 1] == t[..i] + [t[i]];
        i := i + 1;
        cnt := cnt + 1;
      }
      assert t[..|t|] == t;
    }

    method EmitBoth(a: string, b: string, limit: nat)
      requires Buffered()
      modifies this`currlen, this`out, buffer
      ensures Buffered() && out == old(out) + Cut(a + b, limit)
    {
      CutSplits(a, b, limit);
      var cnt := EmitUpTo(a, 0, limit);
      cnt := EmitUpTo(b, cnt, limit);
    }

    /** fmtstr: at most limit characters of the padded string. */
    method EmitStr(value: Option<string>, minus: bool, min: int, limit: nat)
      requires Buffered()
      modifies this`currlen, this`out, buffer
      ensures Buffered() && out == old(out) + Cut(StrText(value, minus, min), limit)
    {
      var v := if value.Some? then value.value else "<NULL>";
      var pad := Rep(' ', min - |v|);
      if minus {
        EmitBoth(v, pad, limit);
      } else {
        EmitBoth(pad, v, limit);
      }
    }

    /** A string without precision is cut at the size of the buffer, which nobody can see. */
    method EmitText(value: Option<string>)
      requires Buffered()
      modifies this`currlen, this`out, buffer
      ensures Buffered() && out == old(out) + Cut(StrText(value, flags.minus, min), max)
    {
      EmitStr(value, flags.minus, min, if max < 0 then maxlen else max);
      ghost var whole := old(out) + Cut(StrText(value, flags.minus, min), max);
      assert whole[..currlen] == out[..currlen];
      out := whole;
    }

    method EmitFloat(text: string)
      requires Buffered()
      modifies this`currlen, this`out, buffer
      ensures Buffered() && out == old(out) + text
    {
      var cnt := EmitUpTo(text, 0, |text|);
    }

    /** The conversion character decides. */
    method EmitConv(c: char)
      requires Buffered()
      modifies this`currlen, this`out, buffer
      ensures Buffered() && out == old(out) + ConvText(c, flags, min, max, size, env, arg)
    {
      var a := env.arg(arg);
      if c == 'd' || c == 'i' {
        EmitInt(Signed(a, size), 10, min, max, flags);
      } else if c == 'X' || c == 'x' || c == 'o' || c == 'u' {
        EmitInt(Unsigned(a, size), Base(c), min, max, flags.(unsigned := true, up := flags.up || c == 'X'));
      } else if c == 'p' {
        EmitInt(a.number, 16, min, max, flags.(unsigned := true));
      } else if c == 'f' {
        EmitFloat(env.float(a, min, max, flags));
      } else if c == 'c' {
        Outch((a.number % 256) as char);
      } else if c == 's' {
        EmitText(a.text);
      } else if c == '%' {
        Outch(c);
      }
    }

    // ---- the state machine ----

    ghost function Total(): string
      reads this
    {
      out + Rest()
    }

    method StepDefault()
      requires Buffered() && Consistent() && state == Default && pos < |f|
      modifies this, buffer
      ensures Buffered() && Consistent() && Total() == old(Total())
      ensures pos == old(pos) + 1 && state in {Default, InFlags}
    {
      if f[pos] == '%' {
        state := InFlags;
        pos := pos + 1;
      } else {
        CopyChar();
      }
    }

    method CopyChar()
      requires Buffered() && state == Default && pos < |f| && f[pos] != '%'
      modifies this`currlen, this`out, this`pos, buffer
      ensures Buffered() && Total() == old(Total()) && pos == old(pos) + 1
    {
      ghost var rest := Full(f, pos + 1, env, arg);
      assert Rest() == [f[pos]] + rest;
      Outch(f[pos]);
      pos := pos + 1;
      assert Rest() == rest;
      assert out + rest == old(out) + ([f[old(pos)]] + rest);
    }

    method StepFlags()
      requires Consistent() && state == InFlags && pos < |f|
      modifies this`state, this`pos, this`flags
      ensures Consistent() && Rest() == old(Rest())
      ensures if state == InFlags then pos == old(pos) + 1 else state == InMin && pos == old(pos)
    {
      if IsFlag(f[pos]) {
        flags := AddFlag(flags, f[pos]);
        pos := pos + 1;
      } else {
        state := InMin;
      }
    }

    method StepMin()
      requires Consistent() && state == InMin && pos < |f|
      modifies this`state, this`pos, this`min, this`arg
      ensures Consistent() && Rest() == old(Rest())
      ensures if state == InMin then pos == old(pos) + 1 else state == InDot && old(pos) <= pos <= old(pos) + 1
    {
      if IsNum(f[pos]) {
        min := 10 * min + NumValue(f[pos]);
        pos := pos + 1;
      } else if f[pos] == '*' {
        min := env.arg(arg).number;
        arg := arg + 1;
        pos := pos + 1;
        state := InDot;
      } else {
        state := InDot;
      }
    }

    method StepDot()
      requires Consistent() && state == InDot && pos < |f|
      modifies this`state, this`pos
      ensures Consistent() && Rest() == old(Rest())
      ensures (state == InMax && pos == old(pos) + 1) || (state == InMod && pos == old(pos))
    {
      if f[pos] == '.' {
        state := InMax;
        pos := pos + 1;
      } else {
        state := InMod;
      }
    }

    method StepMax()
      requires Consistent() && state == InMax && pos < |f|
      modifies this`state, this`pos, this`max, this`arg
      ensures Consistent() && Rest() == old(Rest())
      ensures if state == InMax then pos == old(pos) + 1 else state == InMod && old(pos) <= pos <= old(pos) + 1
    {
      if IsNum(f[pos]) {
        if max < 0 {
          max := 0;
        }
        max := 10 * max + NumValue(f[pos]);
        pos := pos + 1;
      } else if f[pos] == '*' {
        max := env.arg(arg).number;
        arg := arg + 1;
        pos := pos + 1;
        state := InMod;
      } else {
        state := InMod;
      }
    }

    method StepMod()
      requires Consistent() && state == InMod && pos < |f|
      modifies this`state, this`pos, this`size
      ensures Consistent() && Rest() == old(Rest())
      ensures state == InConv && old(pos) <= pos <= |f|
    {
      if f[pos] == 'h' {
        size := Short;
        pos := pos + 1;
      } else if f[pos] == 'l' {
        if pos + 1 < |f| && f[pos + 1] == 'l' {
          size := LongLong;
          pos := pos + 1;
        } else {
          size := Long;
        }
        pos := pos + 1;
      } else if f[pos] == 'q' {
        size := LongLong;
        pos := pos + 1;
      } else if f[pos] == 'L' {
        size := LongDouble;
        pos := pos + 1;
      }
      state := InConv;
    }

    method StepConv()
      requires Buffered() && Consistent() && state == InConv && pos < |f|
      modifies this, buffer
      ensures Buffered() && Consistent() && Total() == old(Total())
      ensures old(pos) < pos <= old(pos) + 2 && state == Default
    {
      var c := f[pos];
      ghost var text := EmitDirective(c);
      LeaveDirective(c, text);
      Regroup(old(out), text, Rest());
    }

    method EmitDirective(c: char) returns (ghost text: string)
      requires Buffered()
      modifies this`currlen, this`out, buffer
      ensures Buffered() && out == old(out) + text && ForDirective(c, text)
    {
      EmitConv(c);
      text := ConvText(c, flags, min, max, size, env, arg);
    }

    /** The text belongs to the directive that was read. */
    ghost predicate ForDirective(c: char, text: string)
      reads this`flags, this`size, this`min, this`max, this`arg
    {
      text == ConvText(c, flags, min, max, size, env, arg)
    }

    method LeaveDirective(c: char, ghost text: string)
      requires state == InConv && pos < |f| && f[pos] == c && ForDirective(c, text)
      modifies this`arg, this`pos, this`state, this`flags, this`size, this`min, this`max
      ensures Consistent() && state == Default && old(pos) < pos <= old(pos) + 2
      ensures old(Rest()) == text + Rest()
    {
      AfterConv(f, pos, flags, min, max, size, env, arg, text);
      Reset(c);
    }

    method Reset(c: char)
      modifies this`arg, this`pos, this`state, this`flags, this`size, this`min, this`max
      ensures arg == (if TakesArg(c) then old(arg) + 1 else old(arg))
      ensures pos == if c == 'w' then old(pos) + 2 else old(pos) + 1
      ensures state == Default && flags == NoFlags && size == Plain && min == 0 && max == -1
    {
      if TakesArg(c) {
        arg := arg + 1;
      }
      if c == 'w' {
        pos := pos + 1;
      }
      pos := pos + 1;
      state, flags, size, min, max := Default, NoFlags, Plain, 0, -1;
    }

    method Step()
      requires Buffered() && Consistent() && state != Done && pos < |f|
      modifies this, buffer
      ensures Buffered() && Consistent() && Total() == old(Total()) && state != Done && pos <= |f| + 1
      ensures pos > old(pos) || (pos == old(pos) && Rank(state) < old(Rank(state)))
    {
      match state {
        case Default => StepDefault();
        case InFlags => StepFlags();
        case InMin => StepMin();
        case InDot => StepDot();
        case InMax => StepMax();
        case InMod => StepMod();
        case InConv => StepConv();
      }
    }

    /** dopr: run the machine and terminate the buffer. */
    method Dopr() returns (retlen: nat)
      requires Buffered() && Consistent() && state == Default && pos == 0 && arg == 0 && out == ""
      modifies this, buffer
      ensures retlen == |Limited(f, env, maxlen)|
      ensures buffer != null ==>
        buffer.Length >= maxlen && buffer[..retlen] == Limited(f, env, maxlen) && buffer[retlen] == NUL
    {
      while state != Done
        invariant Buffered() && Consistent() && pos <= |f| + 1
        invariant state != Done ==> Total() == Full(f, 0, env, 0)
        invariant state == Done ==> out <= Full(f, 0, env, 0) && (out == Full(f, 0, env, 0) || |out| >= maxlen)
        decreases |f| + 1 - pos, Rank(state)
      {
        if pos >= |f| || currlen >= maxlen {
          if pos >= |f| {
            NothingLeft(f, pos, flags, min, max, size, env, arg);
          }
          state := Done;
        } else {
          Step();
        }
      }
      retlen := Terminate(Full(f, 0, env, 0));
    }

    method Terminate(ghost full: string) returns (retlen: nat)
      requires Buffered() && out <= full && (out == full || |out| >= maxlen)
      modifies this`currlen, buffer
      ensures retlen == if |full| <= maxlen - 1 then |full| else maxlen - 1
      ensures buffer != null ==> buffer.Length >= maxlen && buffer[..retlen] == full[..retlen] && buffer[retlen] == NUL
    {
      if currlen >= maxlen - 1 {
        currlen := maxlen - 1;
      }
      assert full[..currlen] == out[..currlen];
      if buffer != null {
        assert buffer[..currlen] == out[..currlen];
        buffer[currlen] := NUL;
      }
      return currlen;
    }
  }

  /** pth_vsnprintf: the buffer ends up holding as much of the text as fits, terminated at the returned length. */
  method Vsnprintf(str: array?<char>, count: nat, f: string, env: Env) returns (retlen: nat)
    requires count >= 1 && (str != null ==> str.Length >= count)
    modifies str
    ensures retlen == |Limited(f, env, count)|
    ensures str != null ==> str[..retlen] == Limited(f, env, count) && str[retlen] == NUL
  {
    if str != null {
      str[0] := NUL;
    }
    var p := new Printer(str, count, f, env);
    retlen := p.Dopr();
  }

  /** At the end of the format nothing more is printed, whatever was begun. */
  lemma NothingLeft(f: string, i: nat, flags: Flags, min: int, max: int, size: Size, env: Env, a: nat)
    requires i >= |f|
    ensures FromFlags(f, i, flags, env, a) == "" && FromWidth(f, i, flags, min, env, a) == ""
    ensures FromDot(f, i, flags, min, env, a) == "" && FromPrecision(f, i, flags, min, max, env, a) == ""
    ensures FromSize(f, i, flags, min, max, env, a) == "" && FromConv(f, i, flags, min, max, size, env, a) == ""
  {
    assert forall n, x :: FromSize(f, i, flags, n, x, env, a) == "";
    assert forall n :: FromDot(f, i, flags, n, env, a) == "";
    assert forall n :: FromWidth(f, i, flags, n, env, a) == "";
  }

  lemma AfterConv(f: string, i: nat, flags: Flags, min: int, max: int, size: Size, env: Env, a: nat, text: string)
    requires i < |f| && text == ConvText(f[i], flags, min, max, size, env, a)
    ensures FromConv(f, i, flags, min, max, size, env, a)
         == text + Full(f, if f[i] == 'w' then i + 2 else i + 1, env, if TakesArg(f[i]) then a + 1 else a)
  {
  }

  lemma CutSplits(a: string, b: string, limit: nat)
    ensures |Cut(a, limit)| <= limit && Cut(a + b, limit) == Cut(a, limit) + Cut(b, limit - |Cut(a, limit)|)
  {
  }

  method PadLengths(place: nat, sign: nat, min: int, max: int, zero: bool) returns (zpadlen: nat, spadlen: nat)
    ensures zpadlen == IntText.ZeroPad(place, sign, min, max, zero)
    ensures spadlen == IntText.SpacePad(place, sign, min, max, zero)
  {
    var z := Max(max, 0) - place;
    var s := min - Max(Max(max, 0), place) - sign;
    if z < 0 {
      z := 0;
    }
    if s < 0 {
      s := 0;
    }
    if zero {
      z := Max(z, s);
      s := 0;
    }
    return z, s;
  }

  ghost function Parts(before: nat, sign: string, zeros: nat, digits: string, after: nat): string {
    Rep(' ', before) + sign + Rep('0', zeros) + digits + Rep(' ', after)
  }

  lemma IntParts(value: int, base: nat, min: int, max: int, flags: Flags)
    requires 2 <= base <= 16
    ensures var d := Block(IntText.Magnitude(value, flags), base, flags.up);
      var sign := IntText.Sign(value, flags);
      var spaces := IntText.SpacePad(|d|, |sign|, min, max, flags.zero);
      IntText.Text(value, base, min, max, flags)
      == Parts(if flags.minus then 0 else spaces, sign, IntText.ZeroPad(|d|, |sign|, min, max, flags.zero), d,
               if flags.minus then spaces else 0)
  {
  }
}
