/**
 * String helpers the dashboard relies on implicitly: rendering an integer in a
 * template literal, reading a leading number back (`parseInt`/`parseFloat` on an
 * integer prefix), and `toUpperCase`.
 */
module Text {
  import opened Wrappers

  predicate IsDigit(c: char)
  {
    '0' <= c <= '9'
  }

  function Digit(d: nat): (c: char)
    requires d < 10
    ensures IsDigit(c)
  {
    (48 + d) as char
  }

  function DigitValue(c: char): nat
    requires IsDigit(c)
  {
    (c as int) - 48
  }

  /** The decimal text of a natural number, most significant digit first, no leading zero. */
  function NatToString(n: nat): (s: string)
    ensures |s| > 0
    ensures forall i :: 0 <= i < |s| ==> IsDigit(s[i])
    decreases n
  {
    if n < 10 then [Digit(n)] else NatToString(n / 10) + [Digit(n % 10)]
  }

  /** How a JavaScript integer prints in a template literal: a minus sign, then the digits. */
  function IntToString(i: int): (s: string)
    ensures |s| > 0
  {
    if i < 0 then "-" + NatToString(-i) else NatToString(i)
  }

  /** The value of a string made only of digits. */
  function DigitsValue(s: string): nat
    requires forall i :: 0 <= i < |s| ==> IsDigit(s[i])
  {
    if s == [] then 0 else DigitsValue(s[..|s| - 1]) * 10 + DigitValue(s[|s| - 1])
  }

  /** The number of leading digits of `s`. */
  function DigitRun(s: string): (n: nat)
    ensures n <= |s|
    ensures forall i :: 0 <= i < n ==> IsDigit(s[i])
    ensures n < |s| ==> !IsDigit(s[n])
  {
    if s == [] || !IsDigit(s[0]) then 0 else 1 + DigitRun(s[1..])
  }

  /**
   * Reads an optionally signed run of digits at the start of `s` and returns its value
   * together with the text after it; `None` when no digit follows the sign (the `NaN` case).
   */
  function ParseIntPrefix(s: string): Option<(int, string)>
  {
    var sign := if s != [] && s[0] == '-' then -1 else 1;
    var t := if s != [] && (s[0] == '-' || s[0] == '+') then s[1..] else s;
    var n := DigitRun(t);
    if n == 0 then None else Some((sign * DigitsValue(t[..n]), t[n..]))
  }

  lemma {:induction false} DigitsValueOfNat(n: nat)
    ensures DigitsValue(NatToString(n)) == n
    decreases n
  {
    var s := NatToString(n);
    if n >= 10 {
      DigitsValueOfNat(n / 10);
      assert s[..|s| - 1] == NatToString(n / 10);
    }
  }

  /** The digit run of a string of digits followed by a non-digit ends where the digits end. */
  lemma {:induction false} DigitRunStopsAt(s: string, rest: string)
    requires forall i :: 0 <= i < |s| ==> IsDigit(s[i])
    requires rest == [] || !IsDigit(rest[0])
    ensures DigitRun(s + rest) == |s|
    decreases |s|
  {
    if s != [] {
      assert (s + rest)[1..] == s[1..] + rest;
      DigitRunStopsAt(s[1..], rest);
    } else {
      assert s + rest == rest;
    }
  }

  /** Reading back the decimal text of a natural number, followed by any non-digit text, gives the number and that text. */
  lemma NatToStringParses(n: nat, rest: string)
    requires rest == [] || !IsDigit(rest[0])
    ensures DigitRun(NatToString(n) + rest) == |NatToString(n)|
    ensures (NatToString(n) + rest)[..|NatToString(n)|] == NatToString(n)
    ensures (NatToString(n) + rest)[|NatToString(n)|..] == rest
  {
    DigitRunStopsAt(NatToString(n), rest);
  }

  /** An integer printed by a template literal and read back by `ParseIntPrefix` is the same integer. */
  lemma IntToStringRoundTrip(i: int, rest: string)
    requires rest == [] || !IsDigit(rest[0])
    ensures ParseIntPrefix(IntToString(i) + rest) == Some((i, rest))
  {
    if i < 0 {
      NegativeRoundTrip(-i, rest);
    } else {
      NaturalRoundTrip(i, rest);
    }
  }

  lemma NaturalRoundTrip(n: nat, rest: string)
    requires rest == [] || !IsDigit(rest[0])
    ensures ParseIntPrefix(NatToString(n) + rest) == Some((n, rest))
  {
    NatToStringParses(n, rest);
    DigitsValueOfNat(n);
    var s := NatToString(n) + rest;
    assert s[0] == NatToString(n)[0];
    assert IsDigit(s[0]);
  }

  lemma NegativeRoundTrip(n: nat, rest: string)
    requires n > 0
    requires rest == [] || !IsDigit(rest[0])
    ensures ParseIntPrefix("-" + NatToString(n) + rest) == Some((-(n as int), rest))
  {
    var digits := NatToString(n);
    var t := digits + rest;
    var s := "-" + digits + rest;
    assert s == "-" + t;
    assert s[0] == '-' && s[1..] == t;
    NatToStringParses(n, rest);
    DigitsValueOfNat(n);
    assert DigitRun(t) == |digits| && t[..|digits|] == digits && t[|digits|..] == rest;
    assert ParseIntPrefix(s) == Some((-1 * DigitsValue(t[..DigitRun(t)]), t[DigitRun(t)..]));
  }

  /** A leading minus sign negates what the rest reads as. */
  lemma SignedParse(t: string)
    requires t != [] && IsDigit(t[0])
    ensures ParseIntPrefix("-" + t) ==
      match ParseIntPrefix(t)
      case None => None
      case Some((v, rest)) => Some((-v, rest))
  {
    var s := "-" + t;
    assert s[0] == '-' && s[1..] == t;
  }

  /** The decimal text of an integer determines the integer. */
  lemma IntToStringInjective(a: int, b: int)
    requires IntToString(a) == IntToString(b)
    ensures a == b
  {
    IntToStringRoundTrip(a, "");
    IntToStringRoundTrip(b, "");
    assert IntToString(a) + "" == IntToString(a);
    assert IntToString(b) + "" == IntToString(b);
  }

  /**
   * `toUpperCase` on one character, for the ASCII letters and the Latin-1 lower-case
   * letters à..þ (which include ç and ã, used by the sector names); every other
   * character is left as it is.
   */
  function UpperChar(c: char): char
  {
    if 'a' <= c <= 'z' then ((c as int) - 32) as char
    else if 'à' <= c <= 'þ' && c != '÷' then ((c as int) - 32) as char
    else c
  }

  /** The lower-case letters `UpperChar` maps: ASCII a..z and Latin-1 à..þ except ÷. */
  predicate IsLower(c: char)
  {
    'a' <= c <= 'z' || ('à' <= c <= 'þ' && c != '÷')
  }

  /**
   * `toUpperCase` on a string, character by character: no lower-case letter is left, only
   * lower-case letters change, and a text without them is returned as it is.
   */
  function Upper(s: string): (r: string)
    ensures |r| == |s|
    ensures forall i :: 0 <= i < |r| ==> !IsLower(r[i])
    ensures forall i :: 0 <= i < |s| && !IsLower(s[i]) ==> r[i] == s[i]
    ensures (forall i :: 0 <= i < |s| ==> !IsLower(s[i])) ==> r == s
  {
    seq(|s|, i requires 0 <= i < |s| => UpperChar(s[i]))
  }

  /** Upper-casing twice is upper-casing once. */
  lemma UpperIdempotent(s: string)
    ensures Upper(Upper(s)) == Upper(s)
  {
  }
}
