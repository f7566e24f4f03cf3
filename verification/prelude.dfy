/**
 * Shared vocabulary: an Option type, the handful of Python string operations the
 * agent relies on (strip, lower, upper, str() of an int), and the outcome of one
 * HTTP request as the probes see it.
 */
module Prelude {

  datatype Option<+T> = None | Some(value: T) {
    function GetOr(default: T): T {
      match this
      case Some(v) => v
      case None => default
    }
  }

  /** What one `requests.get`/`requests.post` call produces: a response, or an exception. */
  datatype HttpOutcome =
    | Answered(status: int, text: string, elapsedMs: real)
    | Raised(error: string)

  // ---------------------------------------------------------------------------
  // Character classes
  // ---------------------------------------------------------------------------

  /** Python's `str.isspace()` for one character. */
  predicate IsSpace(c: char) {
    ('\t' <= c <= '\r') || ('\U{1C}' <= c <= ' ') || c == '\U{85}' || c == '\U{A0}'
    || c == '\U{1680}' || ('\U{2000}' <= c <= '\U{200A}') || c == '\U{2028}' || c == '\U{2029}'
    || c == '\U{202F}' || c == '\U{205F}' || c == '\U{3000}'
  }

  predicate IsUpperAscii(c: char) { 'A' <= c <= 'Z' }
  predicate IsLowerAscii(c: char) { 'a' <= c <= 'z' }
  predicate IsDigit(c: char) { '0' <= c <= '9' }

  // ---------------------------------------------------------------------------
  // strip()
  // ---------------------------------------------------------------------------

  function StripLeft(s: string): (r: string)
    ensures |r| <= |s|
  {
    if |s| > 0 && IsSpace(s[0]) then StripLeft(s[1..]) else s
  }

  function StripRight(s: string): (r: string)
    ensures |r| <= |s|
  {
    if |s| > 0 && IsSpace(s[|s| - 1]) then StripRight(s[..|s| - 1]) else s
  }

  /** Python's `str.strip()` with no arguments. */
  function Strip(s: string): (r: string)
    ensures |r| <= |s|
  {
    StripRight(StripLeft(s))
  }

  /** lstrip() drops exactly the leading white space. */
  lemma {:induction false} StripLeftSpec(s: string)
    ensures var r := StripLeft(s);
      && r == s[|s| - |r|..]
      && (forall i :: 0 <= i < |s| - |r| ==> IsSpace(s[i]))
      && (|r| > 0 ==> !IsSpace(r[0]))
  {
    if |s| > 0 && IsSpace(s[0]) {
      StripLeftSpec(s[1..]);
    }
  }

  /** rstrip() drops exactly the trailing white space. */
  lemma {:induction false} StripRightSpec(s: string)
    ensures var r := StripRight(s);
      && r == s[..|r|]
      && (forall i :: |r| <= i < |s| ==> IsSpace(s[i]))
      && (|r| > 0 ==> !IsSpace(r[|r| - 1]))
  {
    if |s| > 0 && IsSpace(s[|s| - 1]) {
      StripRightSpec(s[..|s| - 1]);
    }
  }

  /**
   * strip() removes white space from both ends and nothing else: the result is a
   * contiguous piece of the input with no white space at either end, and it is empty
   * exactly when the input is all white space.
   */
  lemma StripSpec(s: string)
    ensures var r := Strip(s);
      && var a := |s| - |StripLeft(s)|;
      && 0 <= a <= |s| - |r| && r == s[a..a + |r|]
      && (|r| > 0 ==> !IsSpace(r[0]) && !IsSpace(r[|r| - 1]))
      && (r == [] <==> forall i :: 0 <= i < |s| ==> IsSpace(s[i]))
  {
    var l := StripLeft(s);
    StripLeftSpec(s);
    StripRightSpec(l);
    var r := StripRight(l);
    var a := |s| - |l|;
    assert r == s[a..a + |r|];
  }

  /** Every character of strip(s) occurs in s. */
  lemma StripChars(s: string)
    ensures forall c :: c in Strip(s) ==> c in s
  {
    StripSpec(s);
    var r := Strip(s);
    var a := |s| - |StripLeft(s)|;
    forall c | c in r ensures c in s {
      var j :| 0 <= j < |r| && r[j] == c;
      assert s[a + j] == c;
    }
  }

  /** A string with no surrounding white space is its own strip(). */
  lemma StripOfStripped(s: string)
    requires |s| > 0 ==> !IsSpace(s[0]) && !IsSpace(s[|s| - 1])
    ensures Strip(s) == s
  {
    StripLeftSpec(s);
    assert StripLeft(s) == s;
    StripRightSpec(s);
  }

  // ---------------------------------------------------------------------------
  // lower() / upper(), on the ASCII letters
  // ---------------------------------------------------------------------------

  function LowerChar(c: char): (r: char)
    ensures IsUpperAscii(c) ==> IsLowerAscii(r)
    ensures !IsUpperAscii(c) ==> r == c
  {
    if IsUpperAscii(c) then (c as int + 32) as char else c
  }

  function UpperChar(c: char): (r: char)
    ensures IsLowerAscii(c) ==> IsUpperAscii(r)
    ensures !IsLowerAscii(c) ==> r == c
  {
    if IsLowerAscii(c) then (c as int - 32) as char else c
  }

  function Lower(s: string): (r: string)
    ensures |r| == |s|
    ensures forall i :: 0 <= i < |s| ==> r[i] == LowerChar(s[i])
  {
    if s == [] then [] else [LowerChar(s[0])] + Lower(s[1..])
  }

  function Upper(s: string): (r: string)
    ensures |r| == |s|
    ensures forall i :: 0 <= i < |s| ==> r[i] == UpperChar(s[i])
  {
    if s == [] then [] else [UpperChar(s[0])] + Upper(s[1..])
  }

  // ---------------------------------------------------------------------------
  // str(n) for an int
  // ---------------------------------------------------------------------------

  function DigitChar(d: nat): (c: char)
    requires d < 10
    ensures IsDigit(c)
  {
    ('0' as int + d) as char
  }

  function NatToString(n: nat): (r: string)
    ensures |r| > 0
    ensures forall c :: c in r ==> IsDigit(c)
    decreases n
  {
    if n < 10 then [DigitChar(n)] else NatToString(n / 10) + [DigitChar(n % 10)]
  }

  /** Python's `str(n)` (and `f"{n}"`) for an int. */
  function IntToString(n: int): (r: string)
    ensures |r| > 0
    ensures n >= 0 ==> forall c :: c in r ==> IsDigit(c)
    ensures n >= 0 ==> r == NatToString(n)
    ensures n < 0 ==> |r| > 1 && r[0] == '-' && r[1..] == NatToString(-n)
  {
    if n < 0 then "-" + NatToString(-n) else NatToString(n)
  }

  /** The number a string of decimal digits denotes. */
  function DecimalValue(s: string): nat
    requires forall i :: 0 <= i < |s| ==> IsDigit(s[i])
  {
    if s == [] then 0
    else
      assert IsDigit(s[|s| - 1]);
      10 * DecimalValue(s[..|s| - 1]) + (s[|s| - 1] as int - '0' as int)
  }

  /** The digits of `NatToString(n)` denote `n`, with no leading zero. */
  lemma {:induction false} NatToStringValue(n: nat)
    ensures forall i :: 0 <= i < |NatToString(n)| ==> IsDigit(NatToString(n)[i])
    ensures DecimalValue(NatToString(n)) == n
    ensures n > 0 ==> NatToString(n)[0] != '0'
    decreases n
  {
    var s := NatToString(n);
    assert forall i :: 0 <= i < |s| ==> s[i] in s;
    if n >= 10 {
      NatToStringValue(n / 10);
      assert s[..|s| - 1] == NatToString(n / 10);
    }
  }

  /** str(n) reads back as n: the digits denote |n|, behind a minus sign exactly when n < 0. */
  lemma IntToStringValue(n: int)
    ensures n >= 0 ==> DecimalValue(IntToString(n)) == n
    ensures n < 0 ==> IntToString(n)[0] == '-' && DecimalValue(IntToString(n)[1..]) == -n
    ensures (n != 0) == (IntToString(n) != "0")
  {
    if n >= 0 {
      NatToStringValue(n);
    } else {
      NatToStringValue(-n);
    }
  }
}
