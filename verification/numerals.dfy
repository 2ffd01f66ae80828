/**
 * The standard-library number conversions the core relies on, on the inputs
 * the pipeline's files carry: `std::to_string` of a non-negative counter,
 * `std::stol` of a digit string and `std::stod` of a plain decimal
 * (`99`, `99.0`, `1.`). Signs, exponents, leading blanks and trailing junk,
 * which the library would also read, are outside this model and come back as
 * `BadNumber`.
 */
module Numerals {
  import opened Soa

  predicate IsDigit(c: char) { '0' <= c <= '9' }

  /** Zero or more decimal digits. */
  predicate AllDigits(s: string) { forall i :: 0 <= i < |s| ==> IsDigit(s[i]) }

  /** One or more decimal digits. */
  predicate IsDigits(s: string) { |s| > 0 && AllDigits(s) }

  function DigitValue(c: char): int { c as int - '0' as int }

  /** The number a digit string denotes, most significant digit first. */
  function DigitsValue(s: string): (v: nat)
    requires AllDigits(s)
  {
    if s == [] then 0 else DigitsValue(s[..|s| - 1]) * 10 + DigitValue(s[|s| - 1])
  }

  function Pow10(k: nat): (p: nat)
    ensures p >= 1
  {
    if k == 0 then 1 else 10 * Pow10(k - 1)
  }

  function DigitChar(d: nat): (c: char)
    requires d < 10
    ensures IsDigit(c) && DigitValue(c) == d
  {
    ('0' as int + d) as char
  }

  /** `std::to_string` of a non-negative integer: shortest decimal form. */
  function NatToString(n: nat): (s: string)
    ensures IsDigits(s)
  {
    if n < 10 then [DigitChar(n)] else NatToString(n / 10) + [DigitChar(n % 10)]
  }

  /** Reading back what `NatToString` wrote gives the number again. */
  lemma {:induction false} DigitsOfNatToString(n: nat)
    ensures DigitsValue(NatToString(n)) == n
  {
    var s := NatToString(n);
    if n >= 10 {
      DigitsOfNatToString(n / 10);
      assert s[..|s| - 1] == NatToString(n / 10);
    } else {
      assert s[..|s| - 1] == [];
    }
  }

  /** Hence `std::to_string` never gives two numbers the same text. */
  lemma NatToStringInjective(a: nat, b: nat)
    requires NatToString(a) == NatToString(b)
    ensures a == b
  {
    DigitsOfNatToString(a);
    DigitsOfNatToString(b);
  }

  /** The largest value of a 64-bit `long`. */
  const LongMax: int := 0x7FFF_FFFF_FFFF_FFFF

  /**
   * `std::stol` of a digit string; a value beyond `long` is the library's
   * `std::out_of_range`.
   */
  function Stol(s: string): (r: Result<int>)
    ensures r.Ok? <==> IsDigits(s) && DigitsValue(s) <= LongMax
    ensures r.Ok? ==> r.value == DigitsValue(s)
    ensures r.Err? ==> r.error == BadNumber
  {
    if IsDigits(s) && DigitsValue(s) <= LongMax then Ok(DigitsValue(s)) else Err(BadNumber)
  }

  /** Index of the first `c` in `s`, or `|s|` when there is none. */
  function IndexOf(s: string, c: char): (i: nat)
    ensures i <= |s|
    ensures i < |s| ==> s[i] == c
    ensures forall j :: 0 <= j < i ==> s[j] != c
  {
    if s == [] then 0 else if s[0] == c then 0 else 1 + IndexOf(s[1..], c)
  }

  /**
   * `std::stod` of a plain decimal: digits, optionally followed by a point and
   * more digits. The value is exact (a real), not the nearest double.
   */
  function Stod(s: string): (r: Result<real>)
    ensures IsDigits(s) ==> r == Ok(DigitsValue(s) as real)
    ensures r.Ok? ==> |s| > 0 && IsDigit(s[0])
    ensures r.Err? ==> r.error == BadNumber
  {
    var point := IndexOf(s, '.');
    if point == |s| then
      if IsDigits(s) then Ok(DigitsValue(s) as real) else Err(BadNumber)
    else
      var whole, fraction := s[..point], s[point + 1..];
      if IsDigits(whole) && AllDigits(fraction) then
        Ok(DigitsValue(whole) as real + DigitsValue(fraction) as real / Pow10(|fraction|) as real)
      else
        Err(BadNumber)
  }
}
