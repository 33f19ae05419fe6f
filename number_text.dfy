/**
 * The two JavaScript number-to-text conversions the core relies on:
 * `Number.prototype.toString(16)` on a 32-bit hash (used by the seed commitment)
 * and decimal formatting of the nonce and counters inside template strings.
 * Each conversion comes with its parser, so that round trips can be stated.
 */
module NumberText {
  import opened Types

  predicate IsBase(base: nat) { base == 10 || base == 16 }

  /** The lower-case digit JavaScript writes for `d`. */
  function DigitChar(d: nat): (c: char)
    requires d < 16
  {
    if d < 10 then ('0' as int + d) as char else ('a' as int + d - 10) as char
  }

  /** The value of a lower-case digit character, if it is one. */
  function DigitValue(c: char): Option<nat>
  {
    if '0' <= c <= '9' then Some(c as int - '0' as int)
    else if 'a' <= c <= 'f' then Some(c as int - 'a' as int + 10)
    else None
  }

  lemma DigitCharValue(d: nat)
    requires d < 16
    ensures DigitValue(DigitChar(d)) == Some(d)
  {
  }

  /** Digits of `n` in `base`, most significant first, without leading zeros ("0" for zero). */
  function Digits(n: nat, base: nat): (s: string)
    requires IsBase(base)
    ensures |s| >= 1
    decreases n
  {
    if n < base then [DigitChar(n)]
    else Digits(n / base, base) + [DigitChar(n % base)]
  }

  /** Every character `Digits` writes is a digit of the base. */
  lemma {:induction false} DigitsAreDigits(n: nat, base: nat)
    requires IsBase(base)
    ensures forall i :: 0 <= i < |Digits(n, base)| ==>
      DigitValue(Digits(n, base)[i]).Some? && DigitValue(Digits(n, base)[i]).value < base
    decreases n
  {
    DigitCharValue(n % base);
    if n >= base {
      DigitsAreDigits(n / base, base);
    }
  }

  /** The value of a non-empty string of base-`base` digits, if it is one. */
  function ParseDigits(s: string, base: nat): Option<nat>
    requires IsBase(base)
  {
    if s == [] then None
    else
      var last := DigitValue(s[|s| - 1]);
      if last.None? || last.value >= base then None
      else if |s| == 1 then Some(last.value)
      else
        match ParseDigits(s[..|s| - 1], base)
        case None => None
        case Some(v) => Some(v * base + last.value)
  }

  /** Euclidean division by the base, written out for each base so that it stays linear. */
  lemma DivModBase(n: nat, base: nat)
    requires IsBase(base)
    ensures (n / base) * base + n % base == n
  {
    if base == 10 {
      assert (n / 10) * 10 + n % 10 == n;
    } else {
      assert (n / 16) * 16 + n % 16 == n;
    }
  }

  /** Parsing one more trailing digit shifts the value by one place. */
  lemma ParseDigitsSnoc(s: string, d: nat, base: nat)
    requires IsBase(base) && d < base && s != []
    ensures ParseDigits(s + [DigitChar(d)], base) ==
      (match ParseDigits(s, base) case None => None case Some(v) => Some(v * base + d))
  {
    DigitCharValue(d);
    var t := s + [DigitChar(d)];
    assert t[..|t| - 1] == s;
  }

  lemma {:induction false} DigitsRoundTrip(n: nat, base: nat)
    requires IsBase(base)
    ensures ParseDigits(Digits(n, base), base) == Some(n)
    decreases n
  {
    if n < base {
      DigitCharValue(n);
    } else {
      DigitsRoundTrip(n / base, base);
      ParseDigitsSnoc(Digits(n / base, base), n % base, base);
      DivModBase(n, base);
    }
  }

  /** `x.toString(16)` for an integer `x`: a minus sign for negatives, then the magnitude in hex. */
  function Hex(x: int): string
  {
    if x < 0 then "-" + Digits(-x, 16) else Digits(x, 16)
  }

  /** Reads back what `Hex` writes. */
  function ParseHex(s: string): Option<int>
  {
    if |s| >= 1 && s[0] == '-' then
      match ParseDigits(s[1..], 16)
      case None => None
      case Some(v) => Some(-(v as int))
    else
      match ParseDigits(s, 16)
      case None => None
      case Some(v) => Some(v)
  }

  /** A digit string does not start with a minus sign. */
  lemma DigitsUnsigned(n: nat, base: nat)
    requires IsBase(base)
    ensures Digits(n, base)[0] != '-'
  {
    DigitsAreDigits(n, base);
    assert DigitValue(Digits(n, base)[0]).Some?;
  }

  lemma HexRoundTrip(x: int)
    ensures ParseHex(Hex(x)) == Some(x)
  {
    if x < 0 {
      var d := Digits(-x, 16);
      assert ("-" + d)[1..] == d;
      DigitsRoundTrip(-x, 16);
    } else {
      DigitsUnsigned(x, 16);
      DigitsRoundTrip(x, 16);
    }
  }

  /** Different integers never print the same in hex. */
  lemma HexInjective(x: int, y: int)
    ensures Hex(x) == Hex(y) <==> x == y
  {
    HexRoundTrip(x);
    HexRoundTrip(y);
  }

  /** `${n}` for a non-negative integer. */
  function Decimal(n: nat): string
  {
    Digits(n, 10)
  }
}
