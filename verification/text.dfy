/** The string helpers the handlers rely on: `String.prototype.trim` and decimal rendering of a limit. */
module Text {

  /** The characters ECMAScript's trim removes: WhiteSpace and LineTerminator code points. */
  predicate IsWhitespace(c: char) {
    || c == '\t' || c == '\U{000B}' || c == '\U{000C}' || c == ' ' || c == '\U{00A0}' || c == '\U{FEFF}'
    || c == '\n' || c == '\r' || c == '\U{2028}' || c == '\U{2029}'
    || c == '\U{1680}' || ('\U{2000}' <= c <= '\U{200A}') || c == '\U{202F}' || c == '\U{205F}' || c == '\U{3000}'
  }

  predicate IsBlank(s: string) {
    forall i :: 0 <= i < |s| ==> IsWhitespace(s[i])
  }

  /** The length of the run of whitespace that starts the string. */
  function LeadingWhitespace(s: string): (n: nat)
    ensures n <= |s|
    ensures forall i :: 0 <= i < n ==> IsWhitespace(s[i])
    ensures n < |s| ==> !IsWhitespace(s[n])
  {
    if s == [] || !IsWhitespace(s[0]) then 0 else 1 + LeadingWhitespace(s[1..])
  }

  /** The length of the run of whitespace that ends the string. */
  function TrailingWhitespace(s: string): (n: nat)
    ensures n <= |s|
    ensures forall i :: |s| - n <= i < |s| ==> IsWhitespace(s[i])
    ensures n < |s| ==> !IsWhitespace(s[|s| - 1 - n])
  {
    if s == [] || !IsWhitespace(s[|s| - 1]) then 0 else 1 + TrailingWhitespace(s[..|s| - 1])
  }

  /**
   * `s.trim()`: the string without its leading and trailing whitespace. It is
   * empty exactly when `s` is all whitespace, and otherwise starts and ends
   * with a non-whitespace character and is the middle of `s`.
   */
  function Trim(s: string): (t: string)
    ensures t == [] <==> IsBlank(s)
    ensures t != [] ==> !IsWhitespace(t[0]) && !IsWhitespace(t[|t| - 1])
    ensures LeadingWhitespace(s) + |t| <= |s|
    ensures t == s[LeadingWhitespace(s)..LeadingWhitespace(s) + |t|]
    ensures IsBlank(s[..LeadingWhitespace(s)]) && IsBlank(s[LeadingWhitespace(s) + |t|..])
  {
    var a := LeadingWhitespace(s);
    var b := TrailingWhitespace(s[a..]);
    var t := s[a..|s| - b];
    assert IsBlank(s[a + |t|..]) by {
      assert s[a + |t|..] == s[a..][|s[a..]| - b..];
    }
    t
  }

  /** Trimming twice is trimming once. */
  lemma TrimIdempotent(s: string)
    ensures Trim(Trim(s)) == Trim(s)
  {
    var t := Trim(s);
    if t != [] {
      assert LeadingWhitespace(t) == 0;
      assert TrailingWhitespace(t) == 0;
    }
  }

  /** Trim leaves a string alone exactly when it is empty or neither end is whitespace. */
  lemma TrimFixedPoint(s: string)
    ensures Trim(s) == s <==> s == [] || (!IsWhitespace(s[0]) && !IsWhitespace(s[|s| - 1]))
  {
    if s != [] && !IsWhitespace(s[0]) && !IsWhitespace(s[|s| - 1]) {
      assert LeadingWhitespace(s) == 0;
      assert TrailingWhitespace(s) == 0;
    }
  }

  /** The character of a single decimal digit. */
  function Digit(d: nat): (c: char)
    requires d < 10
    ensures '0' <= c <= '9'
    ensures c as int - '0' as int == d
  {
    ('0' as int + d) as char
  }

  /** The number a string of decimal digits denotes (most significant digit first). */
  function DecimalValue(s: string): nat {
    if s == [] then 0
    else
      var d := s[|s| - 1] as int - '0' as int;
      DecimalValue(s[..|s| - 1]) * 10 + (if 0 <= d then d else 0)
  }

  /** The decimal notation of a natural number, without leading zeros. */
  function NatToDecimal(n: nat): (s: string)
    ensures |s| >= 1
    ensures forall i :: 0 <= i < |s| ==> '0' <= s[i] <= '9'
    ensures |s| > 1 ==> s[0] != '0'
  {
    if n < 10 then [Digit(n)] else NatToDecimal(n / 10) + [Digit(n % 10)]
  }

  /** Reading the notation back gives the number. */
  lemma {:induction false} NatToDecimalRoundTrip(n: nat)
    ensures DecimalValue(NatToDecimal(n)) == n
  {
    var s := NatToDecimal(n);
    if n < 10 {
      assert s[..0] == [];
    } else {
      NatToDecimalRoundTrip(n / 10);
      assert s[..|s| - 1] == NatToDecimal(n / 10);
    }
  }

  /** The decimal notation of an integer, as a JavaScript template literal renders it. */
  function IntToDecimal(i: int): (s: string)
    ensures |s| >= 1
    ensures s[0] == '-' <==> i < 0
  {
    if i < 0 then "-" + NatToDecimal(-i) else NatToDecimal(i)
  }

  /** The integer a possibly signed decimal notation denotes. */
  function SignedDecimalValue(s: string): int {
    if s != [] && s[0] == '-' then -(DecimalValue(s[1..]) as int) else DecimalValue(s)
  }

  /** Reading a rendered integer back gives the integer, so distinct integers render differently. */
  lemma IntToDecimalRoundTrip(i: int)
    ensures SignedDecimalValue(IntToDecimal(i)) == i
    ensures forall j :: IntToDecimal(j) == IntToDecimal(i) ==> j == i
  {
    forall j | true ensures SignedDecimalValue(IntToDecimal(j)) == j {
      var s := IntToDecimal(j);
      if j < 0 {
        NatToDecimalRoundTrip(-j);
        assert s[1..] == NatToDecimal(-j);
      } else {
        NatToDecimalRoundTrip(j);
      }
    }
  }
}
