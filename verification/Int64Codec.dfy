/** 64-bit integers in Lua: pushed as an integer where Lua has them, as a number
    when its only numbers are of a binary format that holds the value exactly, as a
    decimal string otherwise; and read back. */
module Int64Codec {
  import opened Common
  import opened LuaJson

  newtype int64 = x: int | -0x8000_0000_0000_0000 <= x <= 0x7FFF_FFFF_FFFF_FFFF
  newtype uint64 = x: int | 0 <= x <= 0xFFFF_FFFF_FFFF_FFFF

  function Pow2(n: nat): (p: nat)
    ensures p >= 1
  {
    if n == 0 then 1 else 2 * Pow2(n - 1)
  }

  function Abs(v: int): nat { if v < 0 then -v else v }

  /** A binary format with that many significand bits and that largest exponent
      has the value: section 3.3 of IEEE 754-2019. */
  ghost predicate Representable(v: int, digits: nat, maxExponent: nat) {
    Abs(v) < Pow2(maxExponent) && exists m: nat, e: nat :: Split(Abs(v), m, e) && m < Pow2(digits)
  }

  ghost predicate Split(n: nat, m: nat, e: nat) { n == m * Pow2(e) }

  lemma {:induction false} Pow2Sum(a: nat, b: nat)
    ensures Pow2(a + b) == Pow2(a) * Pow2(b)
    decreases b
  {
    if b > 0 {
      Pow2Sum(a, b - 1);
      assert Pow2(a + b) == 2 * Pow2(a + b - 1);
    }
  }

  lemma {:induction false} Pow2Less(a: nat, b: nat)
    requires a < b
    ensures 2 * Pow2(a) <= Pow2(b)
    decreases b
  {
    if a < b - 1 { Pow2Less(a, b - 1); }
  }

  /** Two splittings of a number: the odd part is the smallest significand. */
  lemma OddIsLeast(odd: nat, trailing: nat, m: nat, e: nat)
    requires odd % 2 == 1 && odd * Pow2(trailing) == m * Pow2(e)
    ensures odd <= m
  {
    if e > trailing {
      Shared(odd, m, trailing, e - trailing);
      Even(m, e - trailing);
    } else {
      Shared(m, odd, e, trailing - e);
      Grows(odd, Pow2(trailing - e));
    }
  }

  /** A common power of two cancels. */
  lemma Shared(a: nat, b: nat, t: nat, d: nat)
    ensures a * Pow2(t) == b * Pow2(t + d) <==> a == b * Pow2(d)
  {
    Pow2Sum(t, d);
    assert b * Pow2(t + d) == (b * Pow2(d)) * Pow2(t);
    Cancel(a, b * Pow2(d), Pow2(t));
  }

  lemma Cancel(a: nat, b: nat, p: nat)
    requires p > 0
    ensures a * p == b * p <==> a == b
  {
    if a < b {
      Scale(a + 1, b, p);
    } else if b < a {
      Scale(b + 1, a, p);
    }
  }

  lemma Even(m: nat, d: nat)
    requires d > 0
    ensures (m * Pow2(d)) % 2 == 0
  {
    assert m * Pow2(d) == 2 * (m * Pow2(d - 1));
  }

  lemma Grows(a: nat, p: nat)
    requires p >= 1
    ensures a <= a * p
  {
  }

  /** Where the bit counts of a magnitude place it. */
  lemma BitsDecide(n: nat, odd: nat, trailing: nat, bits: nat, digits: nat, maxExponent: nat)
    requires n == odd * Pow2(trailing) && odd % 2 == 1 && bits > 0 && Pow2(bits - 1) <= odd < Pow2(bits)
    ensures (n < Pow2(maxExponent) && exists m: nat, e: nat :: Split(n, m, e) && m < Pow2(digits))
            <==> bits <= digits && bits + trailing <= maxExponent
  {
    Bounds(n, odd, trailing, bits);
    if bits <= digits && bits + trailing <= maxExponent {
      assert Split(n, odd, trailing);
      if bits < digits { Pow2Less(bits, digits); }
      if bits + trailing < maxExponent { Pow2Less(bits + trailing, maxExponent); }
    }
    if m: nat, e: nat :| Split(n, m, e) && m < Pow2(digits) {
      OddIsLeast(odd, trailing, m, e);
      if digits < bits { NotBelow(digits, bits - 1); }
    }
    if n < Pow2(maxExponent) && maxExponent < bits + trailing { NotBelow(maxExponent, bits - 1 + trailing); }
  }

  lemma NotBelow(a: nat, b: nat)
    requires a <= b
    ensures Pow2(a) <= Pow2(b)
  {
    if a < b { Pow2Less(a, b); }
  }

  lemma Bounds(n: nat, odd: nat, trailing: nat, bits: nat)
    requires n == odd * Pow2(trailing) && bits > 0 && Pow2(bits - 1) <= odd < Pow2(bits)
    ensures Pow2(bits - 1 + trailing) <= n < Pow2(bits + trailing)
  {
    Pow2Sum(bits - 1, trailing);
    Pow2Sum(bits, trailing);
    Scale(Pow2(bits - 1), odd, Pow2(trailing));
    Scale(odd + 1, Pow2(bits), Pow2(trailing));
    assert (odd + 1) * Pow2(trailing) == n + Pow2(trailing);
  }

  lemma Scale(a: nat, b: nat, p: nat)
    requires a <= b
    ensures a * p <= b * p
  {
  }

  /** `tdlua_int64_fits_binary_number`: exact for every value, the least one too. */
  method FitsBinaryNumber(value: int64, digits: nat, maxExponent: nat) returns (fits: bool)
    ensures fits <==> Representable(value as int, digits, maxExponent)
  {
    if value == 0 {
      assert Split(0, 0, 0);
      return true;
    }
    ghost var n := Abs(value as int);
    // Negating the least value would overflow; one more than it can be negated.
    var odd: uint64 := if value < 0 then (-(value + 1)) as uint64 + 1 else value as uint64;
    var trailing: nat := 0;
    while odd % 2 == 0
      invariant odd > 0 && n == odd as int * Pow2(trailing)
      decreases odd
    {
      Halve(odd as int, trailing);
      odd := odd / 2;
      trailing := trailing + 1;
    }
    var bits: nat := 0;
    var rest := odd;
    while rest != 0
      invariant rest as int * Pow2(bits) <= odd as int < (rest as int + 1) * Pow2(bits)
      invariant rest == 0 ==> bits > 0 && Pow2(bits - 1) <= odd as int
      decreases rest
    {
      ShiftOut(rest as int, bits, odd as int);
      rest := rest / 2;
      bits := bits + 1;
    }
    BitsDecide(n, odd as int, trailing, bits, digits, maxExponent);
    return bits <= digits && bits + trailing <= maxExponent;
  }

  lemma Halve(odd: nat, trailing: nat)
    requires odd % 2 == 0
    ensures odd * Pow2(trailing) == (odd / 2) * Pow2(trailing + 1)
  {
    assert odd == 2 * (odd / 2);
  }

  lemma ShiftOut(rest: nat, bits: nat, odd: nat)
    requires rest > 0 && rest * Pow2(bits) <= odd < (rest + 1) * Pow2(bits)
    ensures (rest / 2) * Pow2(bits + 1) <= odd < (rest / 2 + 1) * Pow2(bits + 1)
    ensures rest / 2 == 0 ==> Pow2(bits) <= odd
  {
    var p := Pow2(bits);
    Scale(2 * (rest / 2), rest, p);
    Scale(rest + 1, 2 * (rest / 2 + 1), p);
    Scale(1, rest, p);
    assert (rest / 2) * Pow2(bits + 1) == 2 * (rest / 2) * p && (rest / 2 + 1) * Pow2(bits + 1) == 2 * (rest / 2 + 1) * p;
  }

  // Lua values.

  datatype LuaNumber = Finite(r: real) | Special    // infinities and NaN

  datatype LuaValue = Integer(i: int) | Number(n: LuaNumber) | Text(s: string) | OtherValue

  /** What numbers a Lua version has: integers of some width beside its floating
      numbers, or only numbers of one floating format. */
  datatype Profile = WithIntegers(width: nat) | NumbersOnly(radix: nat, digits: nat, maxExponent: nat)

  /** The range of a two's complement integer with that many value bits. */
  predicate Fits(i: int, width: nat) { 0 - Pow2(width) <= i < Pow2(width) }

  /** An exact Lua value where there is one, the decimal string otherwise. */
  ghost function Pushed(i: int, p: Profile): LuaValue {
    match p
    case WithIntegers(width) => if Fits(i, width) then Integer(i) else Text(Decimal(i))
    case NumbersOnly(radix, digits, maxExponent) =>
      if radix == 2 && Representable(i, digits, maxExponent) then Number(Finite(i as real)) else Text(Decimal(i))
  }

  /** `tdlua_can_push_integer`: a format that is not binary is never trusted. */
  method CanPush(value: int64, p: Profile) returns (can: bool)
    ensures can <==> !Pushed(value as int, p).Text?
    ensures can <==> match p
      case WithIntegers(width) => 0 - Pow2(width) <= value as int < Pow2(width)
      case NumbersOnly(radix, digits, maxExponent) => radix == 2 && Representable(value as int, digits, maxExponent)
  {
    match p {
      case WithIntegers(width) => can := Fits(value as int, width);
      case NumbersOnly(radix, digits, maxExponent) =>
        if radix != 2 { return false; }
        can := FitsBinaryNumber(value, digits, maxExponent);
    }
  }

  /** `tdlua_lua_push_integer`: the conversion to a Lua number is exact because
      the format has the value. */
  method PushInteger(value: int64, p: Profile) returns (v: LuaValue)
    ensures v == Pushed(value as int, p)
    ensures match p
      case WithIntegers(width) => v.Integer? <==> 0 - Pow2(width) <= value as int < Pow2(width)
      case NumbersOnly(radix, digits, maxExponent) => v.Number? <==> radix == 2 && Representable(value as int, digits, maxExponent)
    ensures v == Integer(value as int) || v == Number(Finite(value as real)) || v == Text(Decimal(value as int))
  {
    var can := CanPush(value, p);
    if !can { return Text(Decimal(value as int)); }
    match p {
      case WithIntegers(_) => v := Integer(value as int);
      case NumbersOnly(_, _, _) => v := Number(Finite(value as real));
    }
  }

  /** `tdlua_lua_integral_number_value`: `width` value bits in a Lua integer. */
  function IntegralValue(n: LuaNumber, width: nat): Result<int> {
    match n
    case Special => Err
    case Finite(r) =>
      if r.Floor as real == r && -(Pow2(width) as real) <= r < Pow2(width) as real then Ok(r.Floor) else Err
  }

  /** The white space of the C locale: a blank, and tab to carriage return. */
  predicate Space(c: char) { c == ' ' || '\t' <= c <= '\r' }

  function SkipSpace(s: string): string {
    if s != "" && Space(s[0]) then SkipSpace(s[1..]) else s
  }

  predicate AllDigits(s: string) { forall i :: 0 <= i < |s| ==> '0' <= s[i] <= '9' }

  function Numeral(s: string): nat
    requires AllDigits(s)
  {
    if s == "" then 0 else 10 * Numeral(s[..|s| - 1]) + (s[|s| - 1] - '0') as nat
  }

  /** `strtoll` to the end of the text, without a range error. */
  function Parse(s: string): Result<int> {
    var t := SkipSpace(s);
    var negative := t != "" && t[0] == '-';
    var u := if t != "" && (t[0] == '-' || t[0] == '+') then t[1..] else t;
    if u == "" || !AllDigits(u) then Err
    else
      var v := if negative then 0 - Numeral(u) else Numeral(u);
      if INT64_MIN <= v <= INT64_MAX then Ok(v) else Err
  }

  /** `read_int64`. */
  function ReadInt64(v: LuaValue, width: nat): Result<int> {
    match v
    case Integer(i) => Ok(i)
    case Number(n) => IntegralValue(n, width)
    case Text(s) => if s == "" then Err else Parse(s)
    case OtherValue => Err
  }

  /** A cast to the Lua integer type: the low bits, in two's complement. */
  function Narrow(i: int, width: nat): int {
    var low := i % (2 * Pow2(width));
    if low < Pow2(width) then low else low - 2 * Pow2(width)
  }

  /** `read_integer`, for a range: a text is compared with the range before it is
      narrowed to the Lua integer. */
  function ReadInteger(v: LuaValue, width: nat, min: int, max: int): Result<int> {
    match ReadInt64(v, width)
    case Ok(i) => if min <= i <= max then Ok(if v.Text? then Narrow(i, width) else i) else Err
    case Err => Err
  }

  lemma {:induction false} DigitsNumeral(n: nat)
    ensures AllDigits(Digits(n)) && Digits(n) != "" && Numeral(Digits(n)) == n
    ensures n > 0 ==> Digits(n)[0] != '0'
    ensures n == 0 ==> Digits(n) == "0"
    decreases n
  {
    if n < 10 {
      assert Digits(n)[..0] == "";
    } else {
      DigitsNumeral(n / 10);
      var s := Digits(n);
      assert s[..|s| - 1] == Digits(n / 10);
    }
  }

  /** Every decimal string that is pushed parses to its value. */
  lemma ParseDecimal(i: int)
    requires INT64_MIN <= i <= INT64_MAX
    ensures Parse(Decimal(i)) == Ok(i) && Decimal(i) != ""
  {
    DigitsNumeral(Abs(i));
    var s := Decimal(i);
    if i < 0 {
      assert s[1..] == Digits(-i);
    } else {
      assert '0' <= s[0] <= '9';
    }
    assert SkipSpace(s) == s;
  }

  /** A decimal text without needless characters: no leading zero, no plus sign, no
      minus before zero. */
  predicate Canonical(s: string) {
    var u := if s != "" && s[0] == '-' then s[1..] else s;
    u != "" && AllDigits(u) && (|u| > 1 || s != u ==> u[0] != '0')
  }

  lemma {:induction false} OnlyNumeral(s: string)
    requires s != "" && AllDigits(s) && (|s| > 1 ==> s[0] != '0')
    ensures Digits(Numeral(s)) == s && (s[0] == '0' <==> Numeral(s) == 0)
    decreases |s|
  {
    var rest, last := s[..|s| - 1], (s[|s| - 1] - '0') as nat;
    if rest == "" {
      assert Numeral(rest) == 0 && s == [s[0]];
    } else {
      OnlyNumeral(rest);
      assert Numeral(s) / 10 == Numeral(rest) && Numeral(s) % 10 == last;
      assert s == rest + [s[|s| - 1]];
    }
  }

  /** The text pushed for a value is the one canonical text that parses to it. */
  lemma CanonicalText(s: string, i: int)
    requires INT64_MIN <= i <= INT64_MAX
    ensures s == Decimal(i) <==> Canonical(s) && Parse(s) == Ok(i)
  {
    if s == Decimal(i) { DecimalCanonical(i); }
    if Canonical(s) && Parse(s) == Ok(i) { CanonicalOnly(s, i); }
  }

  lemma DecimalCanonical(i: int)
    requires INT64_MIN <= i <= INT64_MAX
    ensures Canonical(Decimal(i)) && Parse(Decimal(i)) == Ok(i)
  {
    ParseDecimal(i);
    DigitsNumeral(Abs(i));
    if i < 0 { assert Decimal(i)[1..] == Digits(-i); }
  }

  lemma CanonicalOnly(s: string, i: int)
    requires Canonical(s) && Parse(s) == Ok(i)
    ensures s == Decimal(i)
  {
    assert SkipSpace(s) == s;
    var u := if s[0] == '-' then s[1..] else s;
    OnlyNumeral(u);
    hide Numeral, Digits;
    if s[0] == '-' { assert s == "-" + u; }
  }

  /** A Lua value is read as an integer exactly when it is that integer: a number
      without fraction in the range of the Lua integer, or a text that says so. */
  lemma ReadsExactly(v: LuaValue, width: nat, i: int)
    ensures ReadInt64(v, width) == Ok(i) <==>
      v == Integer(i) || (v == Number(Finite(i as real)) && 0 - Pow2(width) <= i < Pow2(width)) || (v.Text? && Parse(v.s) == Ok(i))
  {
    hide Parse, Pow2;
    WholeReal(i);
    if v.Number? && v.n.Finite? && v.n.r.Floor as real == v.n.r { WholeReal(v.n.r.Floor); }
    EmptyText();
  }

  lemma EmptyText()
    ensures Parse("") == Err
  {
  }

  lemma WholeReal(i: int)
    ensures (i as real).Floor == i
  {
  }

  /** Pushed and read back, a value returns exactly when it went as an integer or
      as a string or fits the Lua integer type; nothing else is ever read. */
  lemma RoundTrip(i: int, p: Profile, width: nat)
    requires INT64_MIN <= i <= INT64_MAX
    ensures ReadInt64(Pushed(i, p), width) == Ok(i) <==> (Pushed(i, p).Number? ==> Fits(i, width))
    ensures ReadInt64(Pushed(i, p), width).Ok? ==> ReadInt64(Pushed(i, p), width).value == i
  {
    ParseDecimal(i);
    WholeReal(i);
  }

  /** Narrowing keeps exactly what fits. */
  lemma NarrowExact(i: int, width: nat)
    ensures Narrow(i, width) == i <==> Fits(i, width)
  {
    var half := Pow2(width);
    hide Pow2;
    Low(i, 2 * half);
    if 0 <= i < half { Remainder(i, 2 * half, 0, i); }
    if 0 - half <= i < 0 { Remainder(i, 2 * half, 0 - 1, i + 2 * half); }
  }

  lemma Low(i: int, m: nat)
    requires m > 0
    ensures 0 <= i % m < m
  {
  }

  /** The remainder is known by its range. */
  lemma Remainder(x: int, m: nat, q: int, r: int)
    requires 0 <= r < m && x == q * m + r
    ensures x % m == r
  {
    var d, low := x / m, x % m;
    assert x == d * m + low;
    assert (q - d) * m == low - r;
    if q > d { AtLeast(q - d, m); }
    if q < d { AtLeast(d - q, m); }
  }

  lemma AtLeast(a: int, m: nat)
    requires a >= 1
    ensures a * m >= m
  {
  }

  /** A ranged read gives the pushed value exactly when the value is in the range
      and went as an integer or fits the Lua integer. It gives another value
      exactly when one in the range went as a text and does not fit. */
  lemma RangedRoundTrip(i: int, p: Profile, width: nat, min: int, max: int)
    requires INT64_MIN <= i <= INT64_MAX
    ensures var r, v := ReadInteger(Pushed(i, p), width, min, max), Pushed(i, p);
      && (r == Ok(i) <==> min <= i <= max && (v.Integer? || Fits(i, width)))
      && (r.Ok? && r.value != i <==> min <= i <= max && v.Text? && !Fits(i, width))
  {
    ParseDecimal(i);
    WholeReal(i);
    NarrowExact(i, width);
    hide Narrow, Fits, Parse, Decimal, Representable;
    RoundTrip(i, p, width);
  }

  /** A range within the Lua integer type is safe on every kind of Lua. */
  lemma NarrowRangeSafe(i: int, p: Profile, width: nat, min: int, max: int)
    requires INT64_MIN <= i <= INT64_MAX && Fits(min, width) && Fits(max, width)
    ensures ReadInteger(Pushed(i, p), width, min, max) == if min <= i <= max then Ok(i) else Err
  {
    RangedRoundTrip(i, p, width, min, max);
    hide Pushed, Narrow, Pow2;
    assert min <= i <= max ==> Fits(i, width);
  }

  /** With 32-bit Lua integers 2 to the 40 goes as a text, is in the range of a
      53-bit field, and is read as zero. */
  lemma NarrowTextTruncates()
    ensures Pushed(0x100_0000_0000, WithIntegers(31)).Text?
    ensures ReadInteger(Pushed(0x100_0000_0000, WithIntegers(31)), 31, -9007199254740991, 9007199254740991) == Ok(0)
  {
    Pow2Of31();
    TextTruncates(0x100, 31, -9007199254740991, 9007199254740991);
  }

  lemma Pow2Of31()
    ensures Pow2(31) == 0x8000_0000
  {
    Pow2Sum(7, 7);
    Pow2Sum(14, 14);
    Pow2Sum(28, 3);
  }

  /** Multiples of the narrow modulus that do not fit become zero. */
  lemma TextTruncates(n: nat, width: nat, min: int, max: int)
    requires n > 0 && min <= n * (2 * Pow2(width)) <= max && n * (2 * Pow2(width)) <= INT64_MAX
    ensures var v := Pushed(n * (2 * Pow2(width)), WithIntegers(width));
      v.Text? && ReadInteger(v, width, min, max) == Ok(0)
  {
    var half := Pow2(width);
    AtLeast(n, 2 * half);
    Remainder(n * (2 * half), 2 * half, n, 0);
    ParseDecimal(n * (2 * half));
    hide Pow2, Decimal, Parse, Representable;
  }

  /** 2 to the 40 is exact in binary64 and too large for a 32-bit Lua integer. */
  lemma NarrowIntegerRefuses()
    ensures var p := NumbersOnly(2, 53, 1024);
      && Pushed(Pow2(40), p) == Number(Finite(Pow2(40) as real)) && INT64_MIN <= Pow2(40) <= INT64_MAX
      && ReadInt64(Pushed(Pow2(40), p), 31) == Err
  {
    Forty();
    hide Pow2, Representable, ReadInt64, Decimal;
    RoundTrip(Pow2(40), NumbersOnly(2, 53, 1024), 31);
  }

  lemma Forty()
    ensures Representable(Pow2(40), 53, 1024) && Pow2(31) < Pow2(40) <= INT64_MAX
  {
    Pow2Less(40, 1024);
    Pow2Less(31, 40);
    Pow2Less(40, 63);
    Pow2Of63();
    Pow2Less(0, 53);
    hide Pow2;
    assert Pow2(0) >= 1 && Pow2(53) > 1;
    assert Split(Pow2(40), 1, 40);
  }

  lemma Pow2Of63()
    ensures Pow2(63) == 0x8000_0000_0000_0000
  {
    Pow2Sum(7, 7);
    assert Pow2(7) == 128;
    Pow2Sum(14, 14);
    Pow2Sum(28, 28);
    Pow2Sum(56, 7);
  }

  /** With 64-bit Lua integers every 64-bit value returns, on every kind of Lua;
      ranged readers accept exactly what lies in their range. */
  method PushThenRead(value: int64, p: Profile, min: int, max: int) returns (r: Result<int>, ranged: Result<int>)
    ensures r == Ok(value as int)
    ensures ranged == if min <= value as int <= max then Ok(value as int) else Err
  {
    hide Narrow, ReadInteger, Pushed, Decimal, Parse, Representable;
    var v := PushInteger(value, p);
    Pow2Of63();
    RoundTrip(value as int, p, 63);
    RangedRoundTrip(value as int, p, 63, min, max);
    r := ReadInt64(v, 63);
    ranged := ReadInteger(v, 63, min, max);
  }

  // Arrays.

  datatype Length = Exactly(n: nat) | BadKey | Sparse

  /** `array_length`: 1 to n, in any order of visits, or an error. */
  method ArrayLength(t: map<Key, Lua>) returns (r: Length)
    ensures r.Exactly? <==> IsArray(t)
    ensures r.Exactly? ==> r.n == |t|
    ensures r.BadKey? <==> exists k :: k in t && (!k.KInt? || k.i < 1)
  {
    hide IsArray, Range, Scanned;
    ScanNone();
    var maximum: nat, count := 0, 0;
    var todo := t.Keys;
    ghost var seen: set<Key> := {};
    while todo != {}
      invariant seen + todo == t.Keys && seen !! todo && count == |seen|
      invariant Scanned(seen, maximum)
      decreases |todo|
    {
      var k :| k in todo;
      if !k.KInt? || k.i < 1 {
        NotInRange(t, k);
        return BadKey;
      }
      ScanOne(seen, maximum, k);
      if k.i > maximum { maximum := k.i; }
      count := count + 1;
      todo, seen := todo - {k}, seen + {k};
    }
    assert seen == t.Keys;
    ArrayByCount(t, maximum);
    if maximum != count { return Sparse; }
    return Exactly(maximum);
  }
}
