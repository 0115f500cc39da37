/**
 The formatter: what a format and its arguments stand for without a length
 limit, as a grammar of directives.
 */
module Format {
  import opened Basics
  import opened Numerals
  import IntText

  const NUL: char := '\0'

  /** An argument: what va_arg yields when asked for a number, and when asked for a string. */
  datatype Arg = Arg(number: int, text: Option<string>)

  /** The arguments in order, and the text of a floating-point conversion, which is not modelled here. */
  datatype Env = Env(arg: nat -> Arg, float: (Arg, int, int, Flags) -> string)

  datatype Size = Plain | Short | Long | LongDouble | LongLong

  const NoFlags := Flags(false, false, false, false, false, false, false)

  // ---- one conversion ----

  function StrText(value: Option<string>, minus: bool, min: int): string {
    var v := if value.Some? then value.value else "<NULL>";
    if minus then v + Rep(' ', min - |v|) else Rep(' ', min - |v|) + v
  }

  /** At most max characters when a maximum is given. */
  function Cut(s: string, max: int): string {
    if max < 0 || |s| <= max then s else s[..max]
  }

  function Signed(a: Arg, size: Size): int {
    if size == Short then (a.number + 0x8000) % 0x1_0000 - 0x8000 else a.number
  }

  function Unsigned(a: Arg, size: Size): int {
    if size == Short then a.number % 0x1_0000 else a.number
  }

  predicate TakesArg(c: char) {
    c in "diXxoufEeGgcspn"
  }

  function Base(c: char): (b: nat)
    ensures 2 <= b <= 16
  {
    if c == 'o' then 8 else if c == 'u' then 10 else 16
  }

  function ConvText(c: char, flags: Flags, min: int, max: int, size: Size, env: Env, a: nat): string {
    var arg := env.arg(a);
    if c == 'd' || c == 'i' then IntText.Text(Signed(arg, size), 10, min, max, flags)
    else if c in "Xxou" then
      IntText.Text(Unsigned(arg, size), Base(c), min, max, flags.(unsigned := true, up := flags.up || c == 'X'))
    else if c == 'p' then IntText.Text(arg.number, 16, min, max, flags.(unsigned := true))
    else if c == 'f' then env.float(arg, min, max, flags)
    else if c == 'c' then [(arg.number % 256) as char]
    else if c == 's' then Cut(StrText(arg.text, flags.minus, min), max)
    else if c == '%' then "%"
    else ""
  }

  // ---- the parts of a directive ----

  predicate IsFlag(c: char) {
    c in "-+ #0"
  }

  function AddFlag(flags: Flags, c: char): Flags {
    if c == '-' then flags.(minus := true)
    else if c == '+' then flags.(plus := true)
    else if c == ' ' then flags.(space := true)
    else if c == '#' then flags.(num := true)
    else flags.(zero := true)
  }

  predicate IsNum(c: char) {
    '0' <= c <= '9'
  }

  function NumValue(c: char): int
    requires IsNum(c)
  {
    (c - '0') as int
  }

  datatype Number = Number(value: int, at: nat, arg: nat)

  function TakeFlags(f: string, i: nat, flags: Flags): (r: (Flags, nat))
    ensures i <= r.1
    decreases |f| - i
  {
    if i < |f| && IsFlag(f[i]) then TakeFlags(f, i + 1, AddFlag(flags, f[i])) else (flags, i)
  }

  /** A width: digits, then perhaps a star that replaces them by an argument. */
  function TakeWidth(f: string, i: nat, min: int, env: Env, a: nat): (r: Number)
    ensures i <= r.at
    decreases |f| - i
  {
    if i < |f| && IsNum(f[i]) then TakeWidth(f, i + 1, 10 * min + NumValue(f[i]), env, a)
    else if i < |f| && f[i] == '*' then Number(env.arg(a).number, i + 1, a + 1)
    else Number(min, i, a)
  }

  /** A precision behind a dot; without digits or star there is none. */
  function TakePrecision(f: string, i: nat, max: int, env: Env, a: nat): (r: Number)
    ensures i <= r.at
    decreases |f| - i
  {
    if i < |f| && IsNum(f[i]) then TakePrecision(f, i + 1, 10 * Max(max, 0) + NumValue(f[i]), env, a)
    else if i < |f| && f[i] == '*' then Number(env.arg(a).number, i + 1, a + 1)
    else Number(max, i, a)
  }

  function TakeSize(f: string, i: nat): (r: (Size, nat))
    ensures i <= r.1
  {
    if i >= |f| then (Plain, i)
    else if f[i] == 'h' then (Short, i + 1)
    else if f[i] == 'l' then if i + 1 < |f| && f[i + 1] == 'l' then (LongLong, i + 2) else (Long, i + 1)
    else if f[i] == 'q' then (LongLong, i + 1)
    else if f[i] == 'L' then (LongDouble, i + 1)
    else (Plain, i)
  }

  // ---- a whole format, from any point inside it ----

  /** From a position outside directives. */
  function Full(f: string, i: nat, env: Env, a: nat): string
    decreases |f| - i, 0
  {
    if i >= |f| then ""
    else if f[i] != '%' then [f[i]] + Full(f, i + 1, env, a)
    else FromFlags(f, i + 1, NoFlags, env, a)
  }

  function FromFlags(f: string, i: nat, flags: Flags, env: Env, a: nat): string
    decreases |f| - i, 6
  {
    var (fl, j) := TakeFlags(f, i, flags);
    FromWidth(f, j, fl, 0, env, a)
  }

  function FromWidth(f: string, i: nat, flags: Flags, min: int, env: Env, a: nat): string
    decreases |f| - i, 5
  {
    var n := TakeWidth(f, i, min, env, a);
    FromDot(f, n.at, flags, n.value, env, n.arg)
  }

  function FromDot(f: string, i: nat, flags: Flags, min: int, env: Env, a: nat): string
    decreases |f| - i, 4
  {
    if i < |f| && f[i] == '.' then FromPrecision(f, i + 1, flags, min, -1, env, a)
    else FromSize(f, i, flags, min, -1, env, a)
  }

  function FromPrecision(f: string, i: nat, flags: Flags, min: int, max: int, env: Env, a: nat): string
    decreases |f| - i, 3
  {
    var n := TakePrecision(f, i, max, env, a);
    FromSize(f, n.at, flags, min, n.value, env, n.arg)
  }

  function FromSize(f: string, i: nat, flags: Flags, min: int, max: int, env: Env, a: nat): string
    decreases |f| - i, 2
  {
    var (size, j) := TakeSize(f, i);
    FromConv(f, j, flags, min, max, size, env, a)
  }

  /** A directive cut short by the end of the format prints nothing. */
  function FromConv(f: string, i: nat, flags: Flags, min: int, max: int, size: Size, env: Env, a: nat): string
    decreases |f| - i, 1
  {
    if i >= |f| then ""
    else
      ConvText(f[i], flags, min, max, size, env, a)
      + Full(f, if f[i] == 'w' then i + 2 else i + 1, env, if TakesArg(f[i]) then a + 1 else a)
  }

  /** What is printed into a buffer of n characters, without the terminator. */
  function Limited(f: string, env: Env, n: nat): string
    requires n >= 1
  {
    var full := Full(f, 0, env, 0);
    if |full| <= n - 1 then full else full[..n - 1]
  }

  /** A smaller buffer gets the beginning of what a larger one gets. */
  lemma SmallerBufferGetsPrefix(f: string, env: Env, n: nat, m: nat)
    requires 1 <= n <= m
    ensures Limited(f, env, n) <= Limited(f, env, m)
    ensures var text := Limited(f, env, m);
      Limited(f, env, n) == text[..if |text| <= n - 1 then |text| else n - 1]
  {
  }
}
