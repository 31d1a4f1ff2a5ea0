/**
  * The string operations of the JavaScript runtime that the routes and the page script rely on:
  * the whitespace class `\s`, `String.prototype.trim`, `toLowerCase` on ASCII letters, and the
  * decimal rendering `Number.prototype.toString` gives a millisecond clock reading.
  * A `char` stands for one character of a JavaScript string.
  */
module Text {

  /** JavaScript's WhiteSpace and LineTerminator characters: what `\s` matches and `trim()` strips. */
  const Whitespace: set<char> := {
    '\t', '\n', '\U{000B}', '\U{000C}', '\r', ' ', '\U{00A0}', '\U{1680}',
    '\U{2000}', '\U{2001}', '\U{2002}', '\U{2003}', '\U{2004}', '\U{2005}', '\U{2006}',
    '\U{2007}', '\U{2008}', '\U{2009}', '\U{200A}',
    '\U{2028}', '\U{2029}', '\U{202F}', '\U{205F}', '\U{3000}', '\U{FEFF}'
  }

  predicate IsWhitespace(c: char) {
    c in Whitespace
  }

  predicate AllWhitespace(s: string) {
    forall i :: 0 <= i < |s| ==> IsWhitespace(s[i])
  }

  /** Neither end of `s` is whitespace. */
  predicate IsTrimmed(s: string) {
    s == [] || (!IsWhitespace(s[0]) && !IsWhitespace(s[|s| - 1]))
  }

  /** The number of whitespace characters `s` starts with. */
  function LeadingWhitespace(s: string): (n: nat)
    ensures n <= |s|
    ensures forall i :: 0 <= i < n ==> IsWhitespace(s[i])
    ensures n < |s| ==> !IsWhitespace(s[n])
  {
    if s == [] || !IsWhitespace(s[0]) then 0 else 1 + LeadingWhitespace(s[1..])
  }

  /** The number of whitespace characters `s` ends with. */
  function TrailingWhitespace(s: string): (n: nat)
    ensures n <= |s|
    ensures forall i :: |s| - n <= i < |s| ==> IsWhitespace(s[i])
    ensures n < |s| ==> !IsWhitespace(s[|s| - 1 - n])
  {
    if s == [] || !IsWhitespace(s[|s| - 1]) then 0 else 1 + TrailingWhitespace(s[..|s| - 1])
  }

  /**
    * `String.prototype.trim`: `s` without its leading and trailing whitespace. The result is
    * trimmed, and it is empty exactly when `s` is all whitespace; `TrimCutsWhitespace` says
    * where in `s` it comes from.
    */
  function Trim(s: string): (r: string)
    ensures IsTrimmed(r)
    ensures r == [] <==> AllWhitespace(s)
  {
    var a := LeadingWhitespace(s);
    if a == |s| then []
    else
      var b := TrailingWhitespace(s);
      assert a < |s| - b;
      s[a..|s| - b]
  }

  /**
    * `Trim(s)` is the run of `s` starting at its first non-whitespace character, and everything
    * outside that run is whitespace.
    */
  lemma TrimCutsWhitespace(s: string)
    ensures LeadingWhitespace(s) + |Trim(s)| <= |s|
    ensures forall i :: 0 <= i < |Trim(s)| ==> Trim(s)[i] == s[LeadingWhitespace(s) + i]
    ensures forall i :: 0 <= i < |s| && !(LeadingWhitespace(s) <= i < LeadingWhitespace(s) + |Trim(s)|) ==> IsWhitespace(s[i])
  {
    var a := LeadingWhitespace(s);
    if a < |s| {
      var b := TrailingWhitespace(s);
      assert a < |s| - b;
      var t := Trim(s);
      assert t == s[a..|s| - b] && |t| == |s| - b - a;
      forall i | 0 <= i < |t| ensures t[i] == s[a + i] { }
      forall i | 0 <= i < |s| && !(a <= i < a + |t|) ensures IsWhitespace(s[i]) {
        if i >= a { assert |s| - b <= i; }
      }
    }
  }

  /**
    * Trim is determined by the decomposition it finds: whitespace, then a trimmed core, then
    * whitespace always trims to the core.
    */
  lemma TrimUnique(p: string, m: string, q: string)
    requires AllWhitespace(p) && AllWhitespace(q) && IsTrimmed(m)
    ensures Trim(p + m + q) == m
  {
    var s := p + m + q;
    if m == [] {
      assert AllWhitespace(s) by {
        forall i | 0 <= i < |s| ensures IsWhitespace(s[i]) {
          if i >= |p| { assert s[i] == q[i - |p|]; }
        }
      }
    } else {
      TrimCutsWhitespace(s);
      assert s[|p|] == m[0];
      assert s[|p| + |m| - 1] == m[|m| - 1];
      assert forall i :: 0 <= i < |m| ==> s[|p| + i] == m[i];
    }
  }

  /** Trimming twice is trimming once: the handlers re-trim fields the validator already trimmed. */
  lemma TrimIdempotent(s: string)
    ensures Trim(Trim(s)) == Trim(s)
  {
  }

  predicate IsAsciiUpper(c: char) { 'A' <= c <= 'Z' }

  function LowerChar(c: char): char {
    if IsAsciiUpper(c) then (c as int + 32) as char else c
  }

  /**
    * `toLowerCase` on the ASCII letters: every upper-case ASCII letter is replaced by its
    * lower-case partner, every other character is kept, and no upper-case ASCII letter is left.
    */
  function LowerCase(s: string): (r: string)
    ensures |r| == |s|
    ensures forall i :: 0 <= i < |s| ==> r[i] == (if IsAsciiUpper(s[i]) then (s[i] as int + 32) as char else s[i])
    ensures forall i :: 0 <= i < |r| ==> !IsAsciiUpper(r[i])
  {
    seq(|s|, i requires 0 <= i < |s| => LowerChar(s[i]))
  }

  /** Lower-casing does not create whitespace at either end: a trimmed string stays trimmed. */
  lemma LowerCaseKeepsTrimmed(s: string)
    requires IsTrimmed(s)
    ensures IsTrimmed(LowerCase(s))
  {
  }

  predicate IsDigit(c: char) { '0' <= c <= '9' }

  predicate AllDigits(s: string) {
    forall i :: 0 <= i < |s| ==> IsDigit(s[i])
  }

  function DigitChar(d: nat): char
    requires d < 10
  {
    ('0' as int + d) as char
  }

  function DigitValue(c: char): nat
    requires IsDigit(c)
  {
    c as int - '0' as int
  }

  /**
    * `n.toString()` for a clock reading in milliseconds: the decimal digits of `n`, without
    * leading zeros.
    */
  function DecimalString(n: nat): (r: string)
    ensures |r| >= 1 && AllDigits(r)
    ensures |r| > 1 ==> r[0] != '0'
  {
    if n < 10 then [DigitChar(n)] else DecimalString(n / 10) + [DigitChar(n % 10)]
  }

  /** The number a string of decimal digits denotes. */
  function DecimalValue(s: string): nat
    requires AllDigits(s)
  {
    if s == [] then 0 else DecimalValue(s[..|s| - 1]) * 10 + DigitValue(s[|s| - 1])
  }

  /** Reading the decimal rendering back gives the clock reading it came from. */
  lemma {:induction false} DecimalRoundTrip(n: nat)
    ensures DecimalValue(DecimalString(n)) == n
  {
    var r := DecimalString(n);
    if n >= 10 {
      DecimalRoundTrip(n / 10);
      assert r[..|r| - 1] == DecimalString(n / 10);
    }
  }

  /** Two clock readings give the same decimal string exactly when they are equal. */
  lemma DecimalStringInjective(a: nat, b: nat)
    ensures DecimalString(a) == DecimalString(b) <==> a == b
  {
    if DecimalString(a) == DecimalString(b) {
      DecimalRoundTrip(a);
      DecimalRoundTrip(b);
    }
  }
}
