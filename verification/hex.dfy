/**
  Hexadecimal rendering of field elements (`felt_to_hex`) and the parser that
  inverts it. A rendering is "0x" followed by the lower-case hexadecimal digits
  of the value, most significant first, without leading zeros.
 */
module Hex {
  import opened Wrappers
  import opened Felts

  predicate IsDigitChar(c: char) {
    ('0' <= c <= '9') || ('a' <= c <= 'f')
  }

  predicate AllDigits(s: string) {
    forall i :: 0 <= i < |s| ==> IsDigitChar(s[i])
  }

  /** The character of one hexadecimal digit. */
  function DigitChar(d: nat): (c: char)
    requires d < 16
    ensures IsDigitChar(c)
  {
    if d < 10 then ('0' as int + d) as char else ('a' as int + (d - 10)) as char
  }

  /** The value of one hexadecimal digit character; inverse of `DigitChar`. */
  function DigitValue(c: char): (d: nat)
    requires IsDigitChar(c)
    ensures d < 16
    ensures DigitChar(d) == c
    ensures d == 0 <==> c == '0'
  {
    if c <= '9' then (c as int - '0' as int) else (c as int - 'a' as int) + 10
  }

  /** The digits of `n`, most significant first; "0" for zero. */
  function Digits(n: nat): (s: string)
    ensures 1 <= |s|
    ensures AllDigits(s)
    ensures 1 < |s| ==> s[0] != '0'
    decreases n
  {
    if n < 16 then [DigitChar(n)] else Digits(n / 16) + [DigitChar(n % 16)]
  }

  /** The number a digit string denotes, most significant digit first. */
  function ValueOf(s: string): nat
    requires AllDigits(s)
  {
    if s == [] then 0 else ValueOf(s[..|s| - 1]) * 16 + DigitValue(s[|s| - 1])
  }

  /** `felt_to_hex`: "0x" followed by the minimal lower-case digits. It is stated for
      every natural, so the round-trip lemmas below also cover values above the prime. */
  function FeltToHex(n: nat): string {
    "0x" + Digits(n)
  }

  /** A string exactly as `FeltToHex` writes one: prefix, at least one digit, no leading zero. */
  predicate IsCanonicalHex(s: string) {
    && |s| >= 3
    && s[..2] == "0x"
    && AllDigits(s[2..])
    && (|s| > 3 ==> s[2] != '0')
  }

  /** Reads back a "0x"-prefixed lower-case hexadecimal string. */
  function ParseHex(s: string): Option<nat> {
    if |s| >= 3 && s[..2] == "0x" && AllDigits(s[2..]) then Some(ValueOf(s[2..])) else None
  }

  lemma {:induction false} ValueOfDigits(n: nat)
    ensures ValueOf(Digits(n)) == n
    decreases n
  {
    if n >= 16 {
      var s := Digits(n);
      assert s[..|s| - 1] == Digits(n / 16);
      ValueOfDigits(n / 16);
    }
  }

  /** A digit string whose first digit is not zero denotes a positive number. */
  lemma {:induction false} LeadingDigitPositive(s: string)
    requires 1 <= |s| && AllDigits(s) && s[0] != '0'
    ensures ValueOf(s) >= 1
    decreases |s|
  {
    if |s| > 1 {
      LeadingDigitPositive(s[..|s| - 1]);
    }
  }

  lemma {:induction false} DigitsOfValue(s: string)
    requires 1 <= |s| && AllDigits(s) && (1 < |s| ==> s[0] != '0')
    ensures Digits(ValueOf(s)) == s
    decreases |s|
  {
    var p := s[..|s| - 1];
    if |s| == 1 {
      assert p == [];
      assert s == [s[0]];
    } else {
      var d := DigitValue(s[|s| - 1]);
      var v := ValueOf(p);
      assert ValueOf(s) == v * 16 + d;
      LeadingDigitPositive(p);
      assert (v * 16 + d) / 16 == v && (v * 16 + d) % 16 == d;
      assert Digits(ValueOf(s)) == Digits(v) + [DigitChar(d)];
      DigitsOfValue(p);
      assert s == p + [s[|s| - 1]];
    }
  }

  /** Parsing a rendering gives back the rendered value. */
  lemma HexRoundTrip(n: nat)
    ensures ParseHex(FeltToHex(n)) == Some(n)
    ensures IsCanonicalHex(FeltToHex(n))
  {
    var s := FeltToHex(n);
    assert s[..2] == "0x" && s[2..] == Digits(n);
    ValueOfDigits(n);
  }

  /** Every canonical string is the rendering of the value it parses to. */
  lemma CanonicalRoundTrip(s: string)
    requires IsCanonicalHex(s)
    ensures ParseHex(s).Some?
    ensures FeltToHex(ParseHex(s).value) == s
  {
    DigitsOfValue(s[2..]);
    assert s == "0x" + s[2..];
  }

  /** Two values render alike only if they are equal. */
  lemma HexInjective(a: nat, b: nat)
    ensures FeltToHex(a) == FeltToHex(b) <==> a == b
  {
    HexRoundTrip(a);
    HexRoundTrip(b);
  }
}
