/** Decimal printing (user/lib/print.c) and parsing (user/lib/flib.c), in the machine's widths. */
module Numbers {
  import opened CTypes
  import opened Sequences

  const INT_MIN: int := -0x8000_0000

  type Int32 = x: int | -0x8000_0000 <= x < 0x8000_0000

  /** Two's complement in a word of `w` values. */
  function Wrap(x: int, w: nat): (r: int)
    requires w == WORD32 || w == WORD64
    ensures -(w / 2) <= r < w / 2
  {
    (x + w / 2) % w - w / 2
  }

  /** C's division, which rounds towards zero. */
  function Quotient(x: int, d: nat): int
    requires d > 0
  {
    if x >= 0 then x / d else -(-x / d)
  }

  function Remainder(x: int, d: nat): int
    requires d > 0
  {
    if x >= 0 then x % d else -(-x % d)
  }

  // ----- power

  /** The mathematical power. */
  function Pow(b: int, e: nat): int {
    if e == 0 then 1 else b * Pow(b, e - 1)
  }

  /** Exponentiation by squaring in 64 bits. */
  function Power(b: int, e: nat): int {
    if e == 0 then 1
    else
      var half := Power(b, e / 2);
      var square := Wrap(half * half, WORD64);
      if e % 2 == 1 then Wrap(b * square, WORD64) else square
  }

  lemma WrapShift(x: int, k: int, w: nat)
    requires w == WORD32 || w == WORD64
    ensures Wrap(x + k * w, w) == Wrap(x, w)
  {
    ModShift(x + w / 2, k, w);
  }

  lemma ModShift(a: int, k: int, w: nat)
    requires w > 0
    ensures (a + k * w) % w == a % w
  {
    var q, r := a / w, a % w;
    assert a == q * w + r;
    assert a + k * w == (q + k) * w + r;
    ModUnique(a + k * w, q + k, r, w);
  }

  lemma ModUnique(a: int, q: int, r: int, w: nat)
    requires w > 0 && a == q * w + r && 0 <= r < w
    ensures a % w == r && a / w == q
  {
    var p := a / w;
    assert a == p * w + a % w;
    if p < q {
      TimesAtLeast(q - p, w);
    } else if q < p {
      TimesAtLeast(p - q, w);
    }
  }

  lemma TimesAtLeast(k: int, w: nat)
    requires k >= 1
    ensures k * w >= w
  {
  }

  /** The multiple of the word by which wrapping changes a number. */
  lemma WrapOff(x: int, w: nat) returns (k: int)
    requires w == WORD32 || w == WORD64
    ensures Wrap(x, w) == x + k * w
  {
    k := -((x + w / 2) / w);
    assert x + w / 2 == (x + w / 2) / w * w + (x + w / 2) % w;
  }

  /** Wrapping the factors of a product does not change the wrapped product. */
  lemma WrapTimes(x: int, y: int, w: nat)
    requires w == WORD32 || w == WORD64
    ensures Wrap(x * Wrap(y, w), w) == Wrap(x * y, w)
  {
    var k := WrapOff(y, w);
    assert x * (y + k * w) == x * y + (x * k) * w;
    WrapShift(x * y, x * k, w);
  }

  lemma PowDouble(b: int, h: nat)
    ensures Pow(b, 2 * h) == Pow(b, h) * Pow(b, h)
  {
    PowAdd(b, h, h);
  }

  lemma {:induction false} PowAdd(b: int, m: nat, n: nat)
    ensures Pow(b, m + n) == Pow(b, m) * Pow(b, n)
  {
    if m > 0 {
      PowAdd(b, m - 1, n);
      assert b * (Pow(b, m - 1) * Pow(b, n)) == (b * Pow(b, m - 1)) * Pow(b, n);
    }
  }

  lemma WrapSquare(p: int, q: int)
    requires q == Wrap(p, WORD64)
    ensures Wrap(q * q, WORD64) == Wrap(p * p, WORD64)
  {
    WrapTimes(q, p, WORD64);
    WrapTimes(p, p, WORD64);
    assert q * p == p * q;
  }

  /** Squaring computes the power, in 64-bit arithmetic, for every base and exponent. */
  lemma {:induction false} PowerIsPow(b: int, e: nat)
    ensures Power(b, e) == Wrap(Pow(b, e), WORD64)
  {
    if e > 0 {
      var h := e / 2;
      PowerIsPow(b, h);
      var p, q := Pow(b, h), Power(b, h);
      WrapSquare(p, q);
      PowDouble(b, h);
      hide Wrap;
      if e % 2 == 1 {
        WrapTimes(b, p * p, WORD64);
        assert Pow(b, e) == b * Pow(b, 2 * h);
      }
    }
  }

  // ----- parsing

  predicate IsDigit(c: char) {
    '0' <= c <= '9'
  }

  function DigitValue(c: char): int {
    c as int - 48
  }

  predicate AllDigits(s: string) {
    forall i :: 0 <= i < |s| ==> IsDigit(s[i])
  }

  /** The number that a string of digits denotes. */
  function Value(s: string): int {
    if s == [] then 0 else 10 * Value(s[..|s| - 1]) + DigitValue(s[|s| - 1])
  }

  function Unsigned(s: string): string {
    if s != [] && (s[0] == '-' || s[0] == '+') then s[1..] else s
  }

  predicate Negative(s: string) {
    s != [] && s[0] == '-'
  }

  /** What atoi returns: the value in 32 bits, or 0 if there is anything but digits. */
  function Parsed(s: string): int {
    if !AllDigits(Unsigned(s)) then 0
    else if Negative(s) then Wrap(-Value(Unsigned(s)), WORD32) else Wrap(Value(Unsigned(s)), WORD32)
  }

  function ParsedUnsigned(s: string): nat {
    if !AllDigits(Unsigned(s)) || Negative(s) then 0 else Value(Unsigned(s)) % WORD32
  }

  lemma {:induction false} ValueSplit(s: string, k: nat)
    requires k < |s|
    ensures Value(s[..k + 1]) == 10 * Value(s[..k]) + DigitValue(s[k])
  {
    assert s[..k + 1][..k] == s[..k];
  }

  /** One more digit, at its place: the running sum in 32 bits stays right. */
  lemma AddDigit(s: string, k: nat, num: int)
    requires k < |s| && num == Wrap(Value(s[..k]) * Pow(10, |s| - k), WORD32)
    ensures Wrap(num + DigitValue(s[k]) * Power(10, |s| - k - 1), WORD32) ==
      Wrap(Value(s[..k + 1]) * Pow(10, |s| - k - 1), WORD32)
  {
    var e, d, v := |s| - k - 1, DigitValue(s[k]), Value(s[..k]);
    PowerIsPow(10, e);
    var i := WrapOff(Pow(10, e), WORD64);
    var j := WrapOff(v * Pow(10, e + 1), WORD32);
    ValueSplit(s, k);
    hide Pow, Power, Wrap, Value;
    TotalIs(v, d, e);
    SumIs(v * Pow(10, e + 1), d, Pow(10, e), i, j);
    WrapShift((10 * v + d) * Pow(10, e), j + d * i * WORD32, WORD32);
  }

  lemma SumIs(x: int, d: int, p: int, i: int, j: int)
    ensures x + j * WORD32 + d * (p + i * WORD64) == x + d * p + (j + d * i * WORD32) * WORD32
  {
    assert d * (p + i * WORD64) == d * p + d * (i * WORD64);
    Multiple(d, i);
  }

  lemma TotalIs(v: int, d: int, e: nat)
    ensures (10 * v + d) * Pow(10, e) == v * Pow(10, e + 1) + d * Pow(10, e)
  {
    var p := Pow(10, e);
    assert Pow(10, e + 1) == 10 * p;
    assert (10 * v + d) * p == 10 * v * p + d * p;
  }

  lemma Multiple(d: int, i: int)
    ensures d * (i * WORD64) == d * i * WORD32 * WORD32
  {
    assert WORD64 == WORD32 * WORD32;
  }

  /** 64-bit intermediate results do not show in a 32-bit sum. */
  lemma SumInWord(num: int, d: int, p: int)
    ensures Wrap(Wrap(num + Wrap(d * p, WORD64), WORD64), WORD32) == Wrap(num + d * p, WORD32)
  {
    var i := WrapOff(d * p, WORD64);
    var j := WrapOff(num + Wrap(d * p, WORD64), WORD64);
    WrapShift(num + d * p, (i + j) * WORD32, WORD32);
    assert WORD64 == WORD32 * WORD32;
    assert (i + j) * WORD32 * WORD32 == i * WORD64 + j * WORD64;
  }

  /** Wrapped to 32 bits with and without sign is the same number of the word. */
  lemma WrapUnsigned(x: int)
    ensures Wrap(x, WORD32) % WORD32 == x % WORD32
  {
    var k := WrapOff(x, WORD32);
    ModShift(x, k, WORD32);
  }

  lemma WrapNegated(x: int)
    ensures Wrap(-Wrap(x, WORD32), WORD32) == Wrap(-x, WORD32)
  {
    var k := WrapOff(x, WORD32);
    WrapShift(-x, -k, WORD32);
    assert -(x + k * WORD32) == -x + -k * WORD32;
  }

  /** The digits of a string, summed up from the left, each times its power of ten. None if
      there is something that is not a digit. */
  method SumDigits(digits: string) returns (ok: bool, num: int)
    ensures ok <==> AllDigits(digits)
    ensures ok ==> num == Wrap(Value(digits), WORD32)
  {
    hide Power, Pow, Value, Wrap;
    num := 0;
    var order := |digits| - 1;
    var k := 0;
    assert num == Wrap(Value(digits[..0]) * Pow(10, |digits|), WORD32) by {
      NothingYet(digits);
    }
    while k < |digits|
      invariant 0 <= k <= |digits| && order == |digits| - 1 - k
      invariant forall i :: 0 <= i < k ==> IsDigit(digits[i])
      invariant num == Wrap(Value(digits[..k]) * Pow(10, |digits| - k), WORD32)
    {
      if digits[k] < '0' || digits[k] > '9' {
        return false, 0;
      }
      var digit := digits[k] as int - 48;
      SumInWord(num, digit, Power(10, order));
      AddDigit(digits, k, num);
      num := Wrap(Wrap(num + Wrap(digit * Power(10, order), WORD64), WORD64), WORD32);
      order := order - 1;
      k := k + 1;
    }
    assert digits[..k] == digits;
    assert Pow(10, 0) == 1 by {
      PowZero();
    }
    ok := true;
  }

  lemma NothingYet(digits: string)
    ensures Wrap(Value(digits[..0]) * Pow(10, |digits|), WORD32) == 0
  {
    assert Value(digits[..0]) == 0;
  }

  lemma PowZero()
    ensures Pow(10, 0) == 1
  {
  }

  /** atoi: for every string of digits, however long, its value in 32 bits. */
  method Atoi(s: string) returns (r: int)
    ensures r == Parsed(s)
  {
    var digits := s;
    var neg := false;
    if s != [] && (s[0] == '-' || s[0] == '+') {
      neg := s[0] == '-';
      digits := s[1..];
    }
    var ok, num := SumDigits(digits);
    if !ok {
      return 0;
    }
    WrapNegated(Value(digits));
    r := if neg then Wrap(-num, WORD32) else num;
  }

  method Atoui(s: string) returns (r: nat)
    ensures r == ParsedUnsigned(s)
  {
    var digits := s;
    if s != [] && (s[0] == '-' || s[0] == '+') {
      if s[0] == '-' {
        return 0;
      }
      digits := s[1..];
    }
    var ok, num := SumDigits(digits);
    if !ok {
      return 0;
    }
    WrapUnsigned(Value(digits));
    r := num % WORD32;
  }

  // ----- printing

  function DigitChar(r: int): char
    requires -10 < r < 10
  {
    (48 + r) as char
  }

  /** The digits of a number; those of a negative one are characters below '0'. */
  function Decimal(v: int): string
    decreases if v < 0 then -v else v
  {
    if -10 < v < 10 then [DigitChar(v)] else Decimal(Quotient(v, 10)) + [DigitChar(Remainder(v, 10))]
  }

  /** What itoa prints: the sign, then the digits of the negated number, in 32 bits. */
  function Printed(v: Int32): string {
    if v < 0 then "-" + Decimal(Wrap(-(v as int), WORD32)) else Decimal(v)
  }

  lemma PowOne()
    ensures Pow(10, 1) == 10
  {
    PowZero();
  }

  /** At most ten digits. */
  lemma {:induction false} DecimalLength(v: int, n: nat)
    requires -Pow(10, n) < v < Pow(10, n) && n > 0
    ensures 0 < |Decimal(v)| <= n
    decreases n
  {
    if !(-10 < v < 10) {
      PowOne();
      assert n > 1 && Pow(10, n) == 10 * Pow(10, n - 1);
      DecimalLength(Quotient(v, 10), n - 1);
    }
  }

  /** In-place reversal of `n` characters from `from` on. */
  method ReverseInPlace(a: array<char>, from: nat, n: nat, ghost digits: string)
    requires from + n <= a.Length && a[from..from + n] == digits
    modifies a
    ensures a[from..from + n] == Backwards(digits)
    ensures forall k :: 0 <= k < a.Length && !(from <= k < from + n) ==> a[k] == old(a[k])
  {
    ghost var before := a[..];
    assert before[from..from + n] == digits;
    var i := 0;
    while i < n / 2
      invariant 0 <= i <= n / 2
      invariant forall j {:trigger a[j]} :: 0 <= j < a.Length ==>
        a[j] == before[if from <= j < from + i || from + n - i <= j < from + n then 2 * from + n - 1 - j else j]
    {
      var temp := a[i + from];
      a[i + from] := a[n - i - 1 + from];
      a[n - i - 1 + from] := temp;
      i := i + 1;
    }
    BackwardsSlice(before, a[..], from, n, digits);
  }

  lemma BackwardsSlice(before: seq<char>, after: seq<char>, from: nat, n: nat, digits: string)
    requires |before| == |after| && from + n <= |before| && before[from..from + n] == digits
    requires forall j {:trigger after[j]} :: from <= j < from + n ==>
      after[j] == before[if j < from + n / 2 || from + n - n / 2 <= j then 2 * from + n - 1 - j else j]
    ensures after[from..from + n] == Backwards(digits)
  {
    BackwardsLength(digits);
    forall k | 0 <= k < n
      ensures after[from + k] == Backwards(digits)[k]
    {
      BackwardsAt(digits, k);
      assert after[from + k] == before[2 * from + n - 1 - (from + k)];
      assert digits[n - 1 - k] == before[from + (n - 1 - k)];
    }
  }

  /** The digits of a number at `from`, in the order printed. */
  method WriteDigits(a: array<char>, from: nat, v: int) returns (count: nat)
    requires a.Length >= from + 11 && -Pow(10, 10) < v < Pow(10, 10)
    modifies a
    ensures count == |Decimal(v)| <= 10 && a[from..from + count] == Decimal(v)
    ensures forall k :: 0 <= k < a.Length && !(from <= k < from + 10) ==> a[k] == old(a[k])
  {
    hide Pow;
    DecimalLength(v, 10);
    var rest := v;
    count := 0;
    ghost var digits: string := [];
    var more := true;
    while more
      invariant count == |digits| && count + (if more then 1 else 0) <= 10 && a[from..from + count] == digits
      invariant if more then Decimal(v) == Decimal(rest) + Backwards(digits) else Decimal(v) == Backwards(digits)
      invariant forall k :: 0 <= k < a.Length && !(from <= k < from + 10) ==> a[k] == old(a[k])
      decreases more, if rest < 0 then -rest else rest
    {
      DigitsLeft(v, rest, digits);
      a[from + count] := DigitChar(Remainder(rest, 10));
      OneDigit(rest, digits);
      digits := digits + [DigitChar(Remainder(rest, 10))];
      count := count + 1;
      rest := Quotient(rest, 10);
      more := rest != 0;
    }
    BackwardsLength(digits);
    ReverseInPlace(a, from, count, digits);
  }

  lemma DigitsLeft(v: int, rest: int, digits: string)
    requires Decimal(v) == Decimal(rest) + Backwards(digits) && |Decimal(v)| <= 10
    ensures |digits| + 1 <= 10 && (Quotient(rest, 10) != 0 ==> |digits| + 2 <= 10)
  {
    BackwardsLength(digits);
  }

  /** One turn of the digit loop. */
  lemma OneDigit(rest: int, digits: string)
    ensures var c := DigitChar(Remainder(rest, 10));
      Decimal(rest) + Backwards(digits) ==
        (if Quotient(rest, 10) != 0 then Decimal(Quotient(rest, 10)) else []) + Backwards(digits + [c])
  {
    var c := DigitChar(Remainder(rest, 10));
    assert (digits + [c])[..|digits|] == digits;
    assert Backwards(digits + [c]) == [c] + Backwards(digits);
    if -10 < rest < 10 {
      assert Quotient(rest, 10) == 0 && Remainder(rest, 10) == rest;
    } else {
      assert Quotient(rest, 10) != 0;
    }
  }

  lemma TenDigits()
    ensures Pow(10, 10) == 10_000_000_000
  {
    assert Pow(10, 5) == 100_000;
    PowDouble(10, 5);
  }

  /** A string in a static buffer. */
  predicate StringAt(a: array<char>, s: string)
    reads a
  {
    |s| < a.Length && a[..|s|] == s && a[|s|] == NUL
  }

  method Uitoa(out: array<char>, v: U32)
    requires out.Length == 50
    modifies out
    ensures StringAt(out, Decimal(v))
  {
    TenDigits();
    var count := WriteDigits(out, 0, v);
    out[count] := NUL;
  }

  method Itoa(out: array<char>, v: Int32)
    requires out.Length == 50
    modifies out
    ensures StringAt(out, Printed(v))
  {
    TenDigits();
    hide Pow, Decimal;
    var neg, value := 0, v as int;
    if value < 0 {
      value := Wrap(-value, WORD32);
      neg := 1;
    }
    var count := WriteDigits(out, neg, value);
    out[count + neg] := NUL;
    if neg == 1 {
      out[0] := '-';
      assert out[..count + 1] == ['-'] + out[1..1 + count];
    }
  }

  // ----- round trips

  lemma {:induction false} DecimalDigits(v: nat)
    ensures AllDigits(Decimal(v)) && Value(Decimal(v)) == v && Decimal(v)[0] != '-' && Decimal(v)[0] != '+'
    decreases v
  {
    if v < 10 {
      assert Decimal(v)[..0] == [];
    } else {
      DecimalDigits(v / 10);
      var d := Decimal(v);
      assert d[..|d| - 1] == Decimal(v / 10);
    }
  }

  /** Parsing undoes printing for every unsigned number. */
  lemma UnsignedRoundTrip(v: U32)
    ensures ParsedUnsigned(Decimal(v)) == v
  {
    DecimalDigits(v);
  }

  /** Parsing undoes printing for a signed number if and only if it is not the least one, whose
      negation is itself: it is printed as "-(" and characters below '0'. */
  lemma SignedRoundTripIff(v: Int32)
    ensures Parsed(Printed(v)) == v <==> v != INT_MIN
  {
    hide Decimal, Wrap, Value, AllDigits;
    if v >= 0 {
      DecimalDigits(v);
      WrapInRange(v);
    } else if v != INT_MIN {
      NegativeRoundTrip(v);
    } else {
      LeastDigits();
    }
  }

  lemma WrapInRange(x: int)
    requires -0x8000_0000 <= x < 0x8000_0000
    ensures Wrap(x, WORD32) == x
  {
  }

  lemma NegativeRoundTrip(v: Int32)
    requires INT_MIN < v < 0
    ensures Parsed(Printed(v)) == v
  {
    hide Decimal, Wrap, Value, AllDigits;
    WrapInRange(-(v as int));
    WrapInRange(v);
    DecimalDigits(-(v as int));
    assert Unsigned(Printed(v)) == Decimal(-(v as int));
  }

  /** The least number is not printed in digits. */
  lemma LeastDigits()
    ensures !AllDigits(Unsigned(Printed(INT_MIN)))
  {
    hide Decimal;
    assert Wrap(-INT_MIN, WORD32) == INT_MIN;
    var s := Unsigned(Printed(INT_MIN));
    assert s == Decimal(INT_MIN);
    LastDigit(INT_MIN);
    assert Remainder(INT_MIN, 10) == -8;
    assert !IsDigit(s[|s| - 1]);
  }

  lemma LastDigit(v: int)
    ensures var s := Decimal(v); s != [] && s[|s| - 1] == DigitChar(Remainder(v, 10))
  {
  }
}
