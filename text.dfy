/** Character and string helpers standing for the JavaScript string operations the storefront
    uses: decimal rendering of integers (`String(n)`, template literals), `startsWith`,
    `substring`, `slice`, `join('')`. Strings are sequences of characters. */
module Text {

  predicate IsDigit(c: char) { '0' <= c <= '9' }

  predicate AllDigits(s: string) { forall i :: 0 <= i < |s| ==> IsDigit(s[i]) }

  function DigitChar(d: nat): (c: char)
    requires d < 10
    ensures IsDigit(c) && c as int - '0' as int == d
  {
    ('0' as int + d) as char
  }

  function DigitValue(c: char): nat
    requires IsDigit(c)
  {
    c as int - '0' as int
  }

  /** The decimal rendering of a non-negative integer, without leading zeros. */
  function DecimalString(n: nat): (s: string)
    ensures |s| >= 1 && AllDigits(s)
    ensures n > 0 ==> s[0] != '0'
    decreases n
  {
    if n < 10 then [DigitChar(n)] else DecimalString(n / 10) + [DigitChar(n % 10)]
  }

  /** The number a string of decimal digits denotes (most significant digit first). */
  function DigitsValue(s: string): nat
    requires AllDigits(s)
    decreases |s|
  {
    if s == [] then 0 else 10 * DigitsValue(s[..|s| - 1]) + DigitValue(s[|s| - 1])
  }

  /** Reading back a rendered number gives the number. */
  lemma {:induction false} DecimalRoundTrip(n: nat)
    ensures DigitsValue(DecimalString(n)) == n
    decreases n
  {
    var s := DecimalString(n);
    if n >= 10 {
      DecimalRoundTrip(n / 10);
      assert s[..|s| - 1] == DecimalString(n / 10);
    }
  }

  function Pow10(k: nat): (p: nat)
    ensures p >= 1
  {
    if k == 0 then 1 else 10 * Pow10(k - 1)
  }

  /** A number below 10^k renders in at most k digits, one at least 10^(k-1) in at least k. */
  lemma {:induction false} DecimalLength(n: nat, k: nat)
    requires k >= 1
    ensures n < Pow10(k) ==> |DecimalString(n)| <= k
    ensures n >= Pow10(k - 1) ==> |DecimalString(n)| >= k
    decreases k
  {
    if k > 1 {
      DecimalLength(n / 10, k - 1);
      assert n < Pow10(k) ==> n / 10 < Pow10(k - 1);
      assert n >= Pow10(k - 1) ==> n / 10 >= Pow10(k - 2) && n >= 10;
    }
  }

  /** The six-digit numbers are exactly those rendered in six digits. */
  lemma {:induction false} SixDigitRendering(n: nat)
    requires 100000 <= n <= 999999
    ensures |DecimalString(n)| == 6
  {
    assert Pow10(5) == 100000 && Pow10(6) == 1000000;
    DecimalLength(n, 6);
  }

  predicate StartsWith(s: string, prefix: string) {
    |prefix| <= |s| && s[..|prefix|] == prefix
  }

  /** The first `n` characters of `s`, or all of `s` when it is shorter. */
  function Prefix(s: string, n: nat): (r: string)
    ensures |r| == if |s| <= n then |s| else n
    ensures StartsWith(s, r)
  {
    if |s| <= n then s else s[..n]
  }

  /** `s.slice(-n)` for `n > 0`: the last `n` characters, or all of `s` when it is shorter. */
  function TakeLast(s: string, n: nat): (r: string)
    ensures |r| == if |s| <= n then |s| else n
    ensures r == s[|s| - |r|..]
  {
    if |s| <= n then s else s[|s| - n..]
  }

  /** `v.substring(v.length - 1)`: the last character, or the empty string for an empty `v`
      (a negative start is clamped to 0). */
  function LastChar(v: string): (r: string)
    ensures |r| <= 1
    ensures r == [] <==> v == []
    ensures v != [] ==> r == [v[|v| - 1]]
  {
    if v == [] then [] else v[|v| - 1..]
  }

  /** `parts.join('')`. */
  function Join(parts: seq<string>): string
    decreases |parts|
  {
    if parts == [] then [] else parts[0] + Join(parts[1..])
  }

  /** When every part has at most one character, the joined string is as long as the number
      of parts exactly when no part is empty, and never longer. */
  lemma {:induction false} JoinShortParts(parts: seq<string>)
    requires forall i :: 0 <= i < |parts| ==> |parts[i]| <= 1
    ensures |Join(parts)| <= |parts|
    ensures |Join(parts)| == |parts| <==> forall i :: 0 <= i < |parts| ==> |parts[i]| == 1
    decreases |parts|
  {
    if parts != [] {
      JoinShortParts(parts[1..]);
      assert forall i :: 1 <= i < |parts| ==> parts[1..][i - 1] == parts[i];
    }
  }
}
