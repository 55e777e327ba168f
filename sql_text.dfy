/**
 * Text helpers used by the property query builder: the decimal rendering that a
 * JavaScript template literal gives an integer, ASCII lower-casing, and a scanner
 * that recovers the positional parameters (`$1`, `$2`, ...) a SQL text refers to.
 */
module SqlText {

  predicate IsDigit(c: char) {
    '0' <= c <= '9'
  }

  predicate AllDigits(s: string) {
    forall i :: 0 <= i < |s| ==> IsDigit(s[i])
  }

  function DigitChar(d: nat): (c: char)
    requires d < 10
    ensures IsDigit(c) && DigitValue(c) == d
  {
    ('0' as int + d) as char
  }

  function DigitValue(c: char): int {
    c as int - '0' as int
  }

  /** Decimal rendering of a natural number, as `${n}` gives it for a JavaScript integer below 10^21. */
  function NatToString(n: nat): string
    decreases n
  {
    if n < 10 then [DigitChar(n)] else NatToString(n / 10) + [DigitChar(n % 10)]
  }

  /** Decimal rendering of an integer, with a leading '-' when it is negative. */
  function IntToString(i: int): string {
    if i < 0 then "-" + NatToString(-i) else NatToString(i)
  }

  /** The value of a string of decimal digits (most significant first). */
  function ParseDecimal(s: string): int
    decreases |s|
  {
    if s == [] then 0 else ParseDecimal(s[..|s| - 1]) * 10 + DigitValue(s[|s| - 1])
  }

  /** Reads back what IntToString writes: an optional '-' and decimal digits. */
  function ParseInt(s: string): int {
    if s != [] && s[0] == '-' then -ParseDecimal(s[1..]) else ParseDecimal(s)
  }

  lemma {:induction false} DecimalRoundTrip(n: nat)
    ensures |NatToString(n)| > 0 && AllDigits(NatToString(n))
    ensures ParseDecimal(NatToString(n)) == n
    decreases n
  {
    if n >= 10 {
      DecimalRoundTrip(n / 10);
      var s := NatToString(n);
      assert s[..|s| - 1] == NatToString(n / 10);
    }
  }

  lemma IntStringRoundTrip(i: int)
    ensures ParseInt(IntToString(i)) == i
  {
    if i < 0 {
      DecimalRoundTrip(-i);
      assert IntToString(i)[1..] == NatToString(-i);
    } else {
      DecimalRoundTrip(i);
    }
  }

  /** ASCII lower-casing of one character; every other character is kept. */
  function LowerChar(c: char): char {
    if 'A' <= c <= 'Z' then (c as int - 'A' as int + 'a' as int) as char else c
  }

  /** ASCII lower-casing of a string, character by character. */
  function Lower(s: string): string {
    seq(|s|, i requires 0 <= i < |s| => LowerChar(s[i]))
  }

  /** What `toLowerCase` does to ASCII text: each upper-case letter becomes its lower-case letter, the rest is kept. */
  lemma LowerIsLowerCase(s: string)
    ensures |Lower(s)| == |s|
    ensures forall i :: 0 <= i < |s| && 'A' <= s[i] <= 'Z' ==> Lower(s)[i] as int == s[i] as int + 32
    ensures forall i :: 0 <= i < |s| ==> !('A' <= Lower(s)[i] <= 'Z')
    ensures forall i :: 0 <= i < |s| && !('A' <= s[i] <= 'Z') ==> Lower(s)[i] == s[i]
    ensures Lower(Lower(s)) == Lower(s)
  {
  }

  /** Length of the longest prefix of `s` made of decimal digits. */
  function DigitRun(s: string): (n: nat)
    ensures n <= |s|
    decreases |s|
  {
    if s != [] && IsDigit(s[0]) then 1 + DigitRun(s[1..]) else 0
  }

  /**
   * The parameter numbers a SQL text refers to, in the order they occur: every
   * `$` directly followed by decimal digits names the parameter with that number.
   */
  function Placeholders(s: string): seq<int>
    decreases |s|
  {
    if s == [] then []
    else if s[0] == '$' && DigitRun(s[1..]) > 0 then
      var d := DigitRun(s[1..]);
      [ParseDecimal(s[1..][..d])] + Placeholders(s[1 + d..])
    else Placeholders(s[1..])
  }

  /** The numbers 1, 2, ..., n in increasing order. */
  function OneTo(n: nat): seq<nat> {
    if n == 0 then [] else OneTo(n - 1) + [n]
  }

  /** `b` cannot extend a run of digits that ends `a`. */
  predicate StartsWithNonDigit(b: string) {
    b == [] || !IsDigit(b[0])
  }

  predicate NoDollar(s: string) {
    forall i :: 0 <= i < |s| ==> s[i] != '$'
  }

  lemma {:induction false} DigitRunIsDigits(s: string)
    ensures AllDigits(s[..DigitRun(s)])
    decreases |s|
  {
    if s != [] && IsDigit(s[0]) {
      DigitRunIsDigits(s[1..]);
      assert s[..DigitRun(s)] == [s[0]] + s[1..][..DigitRun(s[1..])];
    }
  }

  lemma {:induction false} DigitRunOfDigits(s: string)
    requires AllDigits(s)
    ensures DigitRun(s) == |s|
    decreases |s|
  {
    if s != [] {
      DigitRunOfDigits(s[1..]);
    }
  }

  lemma {:induction false} DigitRunAppend(a: string, b: string)
    requires StartsWithNonDigit(b)
    ensures DigitRun(a + b) == DigitRun(a)
    decreases |a|
  {
    if a != [] {
      assert (a + b)[0] == a[0] && (a + b)[1..] == a[1..] + b;
      DigitRunAppend(a[1..], b);
    }
  }

  lemma {:induction false} NoDollarHasNoPlaceholders(s: string)
    requires NoDollar(s)
    ensures Placeholders(s) == []
    decreases |s|
  {
    if s != [] {
      NoDollarHasNoPlaceholders(s[1..]);
    }
  }

  /** Placeholders of a concatenation, when the second part cannot lengthen a number ending the first. */
  lemma {:induction false} PlaceholdersAppend(a: string, b: string)
    requires StartsWithNonDigit(b)
    ensures Placeholders(a + b) == Placeholders(a) + Placeholders(b)
    decreases |a|
  {
    if a == [] {
      assert a + b == b;
    } else {
      var ab := a + b;
      assert ab[0] == a[0] && ab[1..] == a[1..] + b;
      DigitRunAppend(a[1..], b);
      var d := DigitRun(a[1..]);
      if a[0] == '$' && d > 0 {
        assert ab[1..][..d] == a[1..][..d] by {
          assert ab[1..] == a[1..] + b;
        }
        assert ab[1 + d..] == a[1 + d..] + b;
        PlaceholdersAppend(a[1 + d..], b);
        assert Placeholders(ab) == [ParseDecimal(a[1..][..d])] + (Placeholders(a[1 + d..]) + Placeholders(b));
      } else {
        PlaceholdersAppend(a[1..], b);
        assert Placeholders(ab) == Placeholders(a[1..]) + Placeholders(b);
      }
    }
  }

  /** A `$` followed by the decimal rendering of `k` refers to parameter `k` and to nothing else. */
  lemma PlaceholderToken(k: nat)
    ensures Placeholders("$" + NatToString(k)) == [k]
  {
    var t := "$" + NatToString(k);
    DecimalRoundTrip(k);
    DigitRunOfDigits(NatToString(k));
    assert t[1..] == NatToString(k);
    assert t[1..][..|NatToString(k)|] == NatToString(k);
    assert t[1 + |NatToString(k)|..] == [];
  }

  lemma {:induction false} OneToAt(n: nat)
    ensures |OneTo(n)| == n
    ensures forall i :: 0 <= i < n ==> OneTo(n)[i] == i + 1
    decreases n
  {
    if n > 0 {
      OneToAt(n - 1);
    }
  }
}
