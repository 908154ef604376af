/** The few Java string operations the core relies on, over `seq<char>`. */
module Text {

  /** `String.valueOf(n)` for a non-negative `long`. */
  function DecimalString(n: nat): (r: string)
    ensures |r| >= 1
    ensures forall i :: 0 <= i < |r| ==> '0' <= r[i] <= '9'
    decreases n
  {
    var digit := ['0' + ((n % 10) as char)];
    if n < 10 then digit else DecimalString(n / 10) + digit
  }

  /** Different numbers have different renderings. */
  lemma {:induction false} DecimalStringInjective(m: nat, n: nat)
    requires DecimalString(m) == DecimalString(n)
    ensures m == n
    decreases m
  {
    var dm, dn := DecimalString(m), DecimalString(n);
    assert dm[|dm| - 1] == '0' + ((m % 10) as char);
    assert dn[|dn| - 1] == '0' + ((n % 10) as char);
    if m >= 10 && n >= 10 {
      assert DecimalString(m / 10) == dm[..|dm| - 1] == dn[..|dn| - 1] == DecimalString(n / 10);
      DecimalStringInjective(m / 10, n / 10);
    }
  }

  /** `String.valueOf(n)` for any `long`: a minus sign before the magnitude's digits. */
  function SignedDecimalString(n: int): (r: string)
    ensures n >= 0 ==> r == DecimalString(n)
    ensures n < 0 ==> r == "-" + DecimalString(-n)
  {
    if n < 0 then "-" + DecimalString(-n) else DecimalString(n)
  }

  /** Bean Validation's `@NotBlank` test fails: `s.trim()` is empty, i.e. every char is at most U+0020. */
  predicate IsBlank(s: string) {
    forall i :: 0 <= i < |s| ==> s[i] <= ' '
  }

  predicate StartsWith(s: string, prefix: string) {
    |prefix| <= |s| && s[..|prefix|] == prefix
  }

  /** The lower-case form of an ASCII letter; every other char unchanged. */
  function LowerChar(c: char): (r: char)
    ensures 'a' <= r <= 'z' ==> 'a' <= c <= 'z' || 'A' <= c <= 'Z'
    ensures 'A' <= c <= 'Z' ==> r as int == c as int + 32
    ensures !('A' <= c <= 'Z') ==> r == c
  {
    if 'A' <= c <= 'Z' then (c as int + 32) as char else c
  }

  /** `toLowerCase()` restricted to ASCII letters. */
  function AsciiLower(s: string): (r: string)
    ensures |r| == |s|
    ensures forall i :: 0 <= i < |s| ==> r[i] == LowerChar(s[i])
  {
    seq(|s|, i requires 0 <= i < |s| => LowerChar(s[i]))
  }
}
