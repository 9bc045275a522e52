/** The test `isNaN(Number(v))` that guards an OTP slot update. `Number` applied to a string
    follows the StringToNumber grammar of the ECMAScript language specification (section 7.1.4.1.1,
    StringNumericLiteral): surrounding white space is ignored, the empty string is 0, and
    otherwise the text must be a decimal literal (optionally signed, possibly `Infinity`) or an
    unsigned `0x`/`0o`/`0b` integer. Anything else is NaN. */
module JsNumber {
  import opened Wrappers
  import opened Text

  /** The WhiteSpace and LineTerminator code points that StringToNumber trims. */
  predicate IsWhiteSpace(c: char) {
    c == '\t' || c == '\n' || c == '\U{000B}' || c == '\U{000C}' || c == '\r' || c == ' '
    || c == '\U{00A0}' || c == '\U{1680}' || ('\U{2000}' <= c <= '\U{200A}')
    || c == '\U{2028}' || c == '\U{2029}' || c == '\U{202F}' || c == '\U{205F}'
    || c == '\U{3000}' || c == '\U{FEFF}'
  }

  function TrimStart(s: string): (r: string)
    ensures r == [] || !IsWhiteSpace(r[0])
    ensures |r| <= |s| && r == s[|s| - |r|..]
    decreases |s|
  {
    if s != [] && IsWhiteSpace(s[0]) then TrimStart(s[1..]) else s
  }

  function TrimEnd(s: string): (r: string)
    ensures r == [] || !IsWhiteSpace(r[|r| - 1])
    ensures |r| <= |s| && r == s[..|r|]
    decreases |s|
  {
    if s != [] && IsWhiteSpace(s[|s| - 1]) then TrimEnd(s[..|s| - 1]) else s
  }

  function Trim(s: string): string {
    TrimEnd(TrimStart(s))
  }

  predicate IsHexDigit(c: char) { IsDigit(c) || 'a' <= c <= 'f' || 'A' <= c <= 'F' }
  predicate IsOctalDigit(c: char) { '0' <= c <= '7' }
  predicate IsBinaryDigit(c: char) { c == '0' || c == '1' }

  /** `0x`, `0o` or `0b` (either case) followed by at least one digit of that base; no sign. */
  predicate IsNonDecimalInteger(t: string) {
    |t| >= 3 && t[0] == '0' &&
    (  ((t[1] == 'x' || t[1] == 'X') && forall i :: 2 <= i < |t| ==> IsHexDigit(t[i]))
    || ((t[1] == 'o' || t[1] == 'O') && forall i :: 2 <= i < |t| ==> IsOctalDigit(t[i]))
    || ((t[1] == 'b' || t[1] == 'B') && forall i :: 2 <= i < |t| ==> IsBinaryDigit(t[i])))
  }

  /** The end of the run of decimal digits that starts at `i`. */
  function DigitRun(s: string, i: nat): (j: nat)
    requires i <= |s|
    ensures i <= j <= |s|
    ensures forall k :: i <= k < j ==> IsDigit(s[k])
    ensures j < |s| ==> !IsDigit(s[j])
    decreases |s| - i
  {
    if i < |s| && IsDigit(s[i]) then DigitRun(s, i + 1) else i
  }

  /** Digits, optionally a `.` and more digits, with at least one digit in all. */
  predicate IsDecimalMantissa(m: string) {
    var i := DigitRun(m, 0);
    if i == |m| then i > 0
    else m[i] == '.' && DigitRun(m, i + 1) == |m| && (i > 0 || |m| > i + 1)
  }

  /** An optional sign followed by at least one digit. */
  predicate IsSignedInteger(e: string) {
    var d := if e != [] && (e[0] == '+' || e[0] == '-') then e[1..] else e;
    d != [] && AllDigits(d)
  }

  /** The position of the first `e` or `E`. */
  function ExponentMark(s: string): (r: Option<nat>)
    ensures r.Some? ==> r.value < |s| && (s[r.value] == 'e' || s[r.value] == 'E')
    ensures r.Some? ==> forall k :: 0 <= k < r.value ==> s[k] != 'e' && s[k] != 'E'
    ensures r.None? ==> forall k :: 0 <= k < |s| ==> s[k] != 'e' && s[k] != 'E'
    decreases |s|
  {
    if s == [] then None
    else if s[0] == 'e' || s[0] == 'E' then Some(0)
    else match ExponentMark(s[1..])
      case Some(k) => Some(k + 1)
      case None => None
  }

  predicate IsUnsignedDecimal(u: string) {
    u == "Infinity" ||
    match ExponentMark(u)
    case None => IsDecimalMantissa(u)
    case Some(i) => IsDecimalMantissa(u[..i]) && IsSignedInteger(u[i + 1..])
  }

  predicate IsDecimalLiteral(t: string) {
    if t != [] && (t[0] == '+' || t[0] == '-') then IsUnsignedDecimal(t[1..]) else IsUnsignedDecimal(t)
  }

  /** `isNaN(Number(v))` for a string `v`. */
  predicate IsNaN(v: string) {
    var t := Trim(v);
    !(t == [] || IsNonDecimalInteger(t) || IsDecimalLiteral(t))
  }

  /** A single character is a number exactly when it is a digit or white space (which
      `Number` reads as 0); the empty string is 0 as well. */
  lemma {:induction false} SingleCharacterNumber(c: char)
    ensures !IsNaN([c]) <==> IsDigit(c) || IsWhiteSpace(c)
    ensures !IsNaN([])
  {
    if IsWhiteSpace(c) {
      assert TrimStart([c]) == TrimStart([c][1..]) == [];
    } else {
      assert TrimStart([c]) == [c];
      assert TrimEnd([c]) == [c];
      var t := Trim([c]);
      assert t == [c];
      assert !IsNonDecimalInteger(t);
      if c == '+' || c == '-' {
        assert t[1..] == [];
        assert ExponentMark([]) == None;
        assert DigitRun([], 0) == 0;
      } else if c == 'e' || c == 'E' {
        assert ExponentMark(t) == Some(0);
        assert t[..0] == [];
        assert DigitRun([], 0) == 0;
      } else {
        assert ExponentMark(t[1..]) == None;
        assert ExponentMark(t) == None;
        if IsDigit(c) {
          assert DigitRun(t, 1) == 1;
        } else {
          assert DigitRun(t, 0) == 0;
          if c == '.' {
            assert DigitRun(t, 1) == 1;
          }
        }
      }
    }
  }

  /** Text with no white space at either end is its own trim. */
  lemma {:induction false} TrimUnpadded(s: string)
    requires s != [] && !IsWhiteSpace(s[0]) && !IsWhiteSpace(s[|s| - 1])
    ensures Trim(s) == s
  {
    assert TrimStart(s) == s;
  }

  /** Text without `e` or `E` has no exponent part. */
  lemma {:induction false} NoExponent(s: string)
    requires forall k :: 0 <= k < |s| ==> s[k] != 'e' && s[k] != 'E'
    ensures ExponentMark(s).None?
  {
  }

  /** For text with nothing to trim, `Number` accepts it exactly when it is a non-decimal
      integer or a decimal literal. */
  lemma {:induction false} NaNOfUnpadded(v: string)
    requires v != [] && !IsWhiteSpace(v[0]) && !IsWhiteSpace(v[|v| - 1])
    ensures IsNaN(v) <==> !(IsNonDecimalInteger(v) || IsDecimalLiteral(v))
  {
    TrimUnpadded(v);
  }

  /** Pasted text that `Number` accepts although it is not made of digits. */
  lemma {:induction false} InfinityIsNumber()
    ensures !IsNaN("Infinity")
  {
    NaNOfUnpadded("Infinity");
    assert IsDecimalLiteral("Infinity");
  }

  lemma {:induction false} DashMantissa()
    ensures DigitRun("12-34", 0) == 2 && !IsDecimalMantissa("12-34")
  {
    assert DigitRun("12-34", 2) == 2;
    assert DigitRun("12-34", 1) == 2;
  }

  lemma {:induction false} DashIsNotLiteral()
    ensures !IsDecimalLiteral("12-34")
  {
    NoExponent("12-34");
    DashMantissa();
  }

  /** Text that `Number` rejects, so the slot is left as it was. */
  lemma {:induction false} DashIsNaN()
    ensures IsNaN("12-34")
  {
    NaNOfUnpadded("12-34");
    DashIsNotLiteral();
  }
}
