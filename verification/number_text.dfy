/**
 * Textual forms of integers as the library produces and reads them: the
 * string type's `number(n)` (decimal) and `number(n, 16)` (lower-case
 * hexadecimal) renderings, and its `toULongLong(&ok)` / `toLongLong(&ok)`
 * conversions back, restricted to plain decimal text.
 */
module NumberText {

  type uint64 = n: int | 0 <= n < 0x1_0000_0000_0000_0000
  type int64 = n: int | -0x8000_0000_0000_0000 <= n < 0x8000_0000_0000_0000

  /** The digit character for a value below 16: '0'..'9', then 'a'..'f'. */
  function DigitChar(d: nat): (c: char)
    requires d < 16
  {
    if d < 10 then ('0' as int + d) as char else ('a' as int + d - 10) as char
  }

  /** A character that `Digits` may produce in the given base. */
  predicate IsDigitOf(c: char, base: nat)
  {
    ('0' <= c <= '9' && c as int - '0' as int < base) ||
    ('a' <= c <= 'f' && c as int - 'a' as int + 10 < base)
  }

  /** The value of a digit character: '0'..'9' are 0..9, 'a'..'f' are 10..15. */
  function DigitValue(c: char): nat
  {
    if '0' <= c <= '9' then c as int - '0' as int
    else if 'a' <= c <= 'f' then c as int - 'a' as int + 10
    else 0
  }

  /** The number a string of digits denotes in `base`, most significant digit first. */
  function DigitsValue(s: string, base: nat): nat
    decreases |s|
  {
    if s == [] then 0 else DigitsValue(s[..|s| - 1], base) * base + DigitValue(s[|s| - 1])
  }

  /**
   * Positional rendering of `n` in `base`, most significant digit first, no
   * sign, no padding: never empty, made only of digits of the base, and
   * read back in that base it is `n`.
   */
  function Digits(n: nat, base: nat): (s: string)
    requires 2 <= base <= 16
    ensures |s| > 0
    ensures forall i :: 0 <= i < |s| ==> IsDigitOf(s[i], base)
    ensures DigitsValue(s, base) == n
    decreases n
  {
    if n < base then
      DigitCharOf(n, base);
      [DigitChar(n)]
    else
      DivMod(n, base);
      var prefix := Digits(n / base, base);
      var last := DigitChar(n % base);
      DigitCharOf(n % base, base);
      AppendDigit(prefix, last, base);
      AppendValue(prefix, last, base);
      prefix + [last]
  }

  /** Dividing by the base shrinks a number that has more than one digit, and the remainder is one digit. */
  lemma DivMod(n: nat, base: nat)
    requires 2 <= base <= n
    ensures n / base < n && n % base < base
    ensures n == (n / base) * base + n % base
  {
  }

  /** Appending a digit multiplies the value so far by the base and adds the digit. */
  lemma AppendValue(prefix: string, c: char, base: nat)
    ensures DigitsValue(prefix + [c], base) == DigitsValue(prefix, base) * base + DigitValue(c)
  {
    assert (prefix + [c])[..|prefix|] == prefix;
  }

  /** Appending a digit of the base to digits of the base gives digits of the base. */
  lemma AppendDigit(prefix: string, c: char, base: nat)
    requires forall i :: 0 <= i < |prefix| ==> IsDigitOf(prefix[i], base)
    requires IsDigitOf(c, base)
    ensures forall i :: 0 <= i < |prefix + [c]| ==> IsDigitOf((prefix + [c])[i], base)
  {
    forall i | 0 <= i < |prefix + [c]|
      ensures IsDigitOf((prefix + [c])[i], base)
    {
      if i < |prefix| {
        assert (prefix + [c])[i] == prefix[i];
      }
    }
  }

  /** The digit character of a value below the base is a digit of that base. */
  lemma DigitCharOf(d: nat, base: nat)
    requires d < base <= 16
    ensures IsDigitOf(DigitChar(d), base)
    ensures DigitValue(DigitChar(d)) == d
  {
  }

  /** `number(n)`: base-10 text of a non-negative number, which reads back as `n`. */
  function Decimal(n: nat): (s: string)
    ensures |s| > 0 && AllDecimal(s)
    ensures DecimalValue(s) == n
  {
    DecimalDigitsRoundTrip(n);
    Digits(n, 10)
  }

  /** `number(n, 16)`: base-16 text of a non-negative number, in lower-case digits, which reads back as `n`. */
  function Hex(n: nat): (s: string)
    ensures |s| > 0
    ensures forall i :: 0 <= i < |s| ==> '0' <= s[i] <= '9' || 'a' <= s[i] <= 'f'
    ensures DigitsValue(s, 16) == n
  {
    Digits(n, 16)
  }

  /**
   * `number(n)` for a signed number: a leading minus sign exactly when `n`
   * is negative, and after it the decimal digits of the magnitude.
   */
  function SignedDecimal(n: int): (s: string)
    ensures |s| > 0
    ensures s[0] == '-' <==> n < 0
    ensures var magnitude := if n < 0 then s[1..] else s;
      magnitude != [] && AllDecimal(magnitude) && DecimalValue(magnitude) == if n < 0 then -n else n
  {
    if n < 0 then
      var m := Decimal(-n);
      assert ("-" + m)[1..] == m;
      "-" + m
    else
      var m := Decimal(n);
      assert IsDecimalDigit(m[0]);
      m
  }

  predicate IsDecimalDigit(c: char)
  {
    '0' <= c <= '9'
  }

  predicate AllDecimal(s: string)
  {
    forall i :: 0 <= i < |s| ==> IsDecimalDigit(s[i])
  }

  /** The number a string of decimal digits denotes. */
  function DecimalValue(s: string): nat
    requires AllDecimal(s)
    decreases |s|
  {
    if s == [] then 0 else DecimalValue(s[..|s| - 1]) * 10 + (s[|s| - 1] as int - '0' as int)
  }

  /** The pair (value, ok) that the string conversions return through their `bool *ok` argument. */
  datatype Conversion = Conversion(value: int, ok: bool)

  /** `toULongLong(&ok)`: the decimal value when it fits in 64 unsigned bits, otherwise 0 and not ok. */
  function ToULongLong(s: string): (r: Conversion)
    ensures r.ok ==> 0 <= r.value < 0x1_0000_0000_0000_0000
    ensures !r.ok ==> r.value == 0
  {
    if s != [] && AllDecimal(s) && DecimalValue(s) < 0x1_0000_0000_0000_0000
    then Conversion(DecimalValue(s), true)
    else Conversion(0, false)
  }

  /** `toLongLong(&ok)`: an optional minus sign and decimal digits whose value fits in 64 signed bits. */
  function ToLongLong(s: string): (r: Conversion)
    ensures r.ok ==> -0x8000_0000_0000_0000 <= r.value < 0x8000_0000_0000_0000
    ensures !r.ok ==> r.value == 0
  {
    if s != [] && s[0] == '-' then
      var m := s[1..];
      if m != [] && AllDecimal(m) && DecimalValue(m) <= 0x8000_0000_0000_0000
      then Conversion(-(DecimalValue(m) as int), true)
      else Conversion(0, false)
    else if s != [] && AllDecimal(s) && DecimalValue(s) < 0x8000_0000_0000_0000
    then Conversion(DecimalValue(s), true)
    else Conversion(0, false)
  }

  /** No rendering contains a separator such as '.' or '-'. */
  lemma DigitsHaveNoPunctuation(n: nat, base: nat)
    requires 2 <= base <= 16
    ensures |Digits(n, base)| > 0
    ensures '.' !in Digits(n, base) && '-' !in Digits(n, base)
  {
  }

  /** Reading back the base-10 rendering gives the number rendered. */
  lemma {:induction false} DecimalDigitsRoundTrip(n: nat)
    ensures AllDecimal(Digits(n, 10))
    ensures DecimalValue(Digits(n, 10)) == n
  {
    var s := Digits(n, 10);
    assert forall i :: 0 <= i < |s| ==> IsDigitOf(s[i], 10);
    if n >= 10 {
      DecimalDigitsRoundTrip(n / 10);
      assert s[..|s| - 1] == Digits(n / 10, 10);
    }
  }

  /** `toULongLong` accepts every `number(n)` of a 64-bit unsigned value and returns that value. */
  lemma UnsignedRoundTrip(n: uint64)
    ensures ToULongLong(Decimal(n)) == Conversion(n, true)
  {
  }

  /** `toLongLong` accepts every `number(n)` of a 64-bit signed value and returns that value. */
  lemma SignedRoundTrip(n: int64)
    ensures ToLongLong(SignedDecimal(n)) == Conversion(n, true)
  {
    var s := SignedDecimal(n);
    if n < 0 {
      assert s[0] == '-';
    } else {
      assert s[0] != '-';
    }
  }
}
