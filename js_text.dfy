/**
 * The pieces of JavaScript string behaviour the checkout form and order ids rely on:
 * `String.prototype.trim` (which strips the ECMAScript WhiteSpace and LineTerminator
 * code points from both ends), `length` (which counts UTF-16 code units), and the
 * decimal rendering of a non-negative integer in `'ORD-' + Date.now()`.
 */
module JsText {

  /** ECMAScript WhiteSpace (TAB, VT, FF, ZWNBSP and the Zs category) and LineTerminator code points. */
  predicate IsJsWhitespace(c: char) {
    c == '\t' || c == '\n' || c == '\U{000B}' || c == '\U{000C}' || c == '\r' ||
    c == ' ' || c == '\U{00A0}' || c == '\U{1680}' || ('\U{2000}' <= c <= '\U{200A}') ||
    c == '\U{2028}' || c == '\U{2029}' || c == '\U{202F}' || c == '\U{205F}' ||
    c == '\U{3000}' || c == '\U{FEFF}'
  }

  /** `s` with its leading whitespace removed. */
  function TrimStart(s: string): (r: string)
    ensures |r| <= |s| && r == s[|s| - |r|..]
    ensures forall k :: 0 <= k < |s| - |r| ==> IsJsWhitespace(s[k])
    ensures |r| > 0 ==> !IsJsWhitespace(r[0])
    decreases |s|
  {
    if |s| > 0 && IsJsWhitespace(s[0]) then TrimStart(s[1..]) else s
  }

  /** `s` with its trailing whitespace removed. */
  function TrimEnd(s: string): (r: string)
    ensures |r| <= |s| && r == s[..|r|]
    ensures forall k :: |r| <= k < |s| ==> IsJsWhitespace(s[k])
    ensures |r| > 0 ==> !IsJsWhitespace(r[|r| - 1])
    decreases |s|
  {
    if |s| > 0 && IsJsWhitespace(s[|s| - 1]) then TrimEnd(s[..|s| - 1]) else s
  }

  /** `s.trim()`. */
  function Trim(s: string): (r: string)
    ensures |r| <= |s|
    ensures |r| > 0 ==> !IsJsWhitespace(r[0]) && !IsJsWhitespace(r[|r| - 1])
  {
    TrimEnd(TrimStart(s))
  }

  /** Everything trimming cuts off, on either side, is whitespace. */
  lemma TrimCutsOnlyWhitespace(s: string)
    ensures var i := |s| - |TrimStart(s)|;
            (forall k :: 0 <= k < i ==> IsJsWhitespace(s[k])) &&
            (forall k :: i + |Trim(s)| <= k < |s| ==> IsJsWhitespace(s[k]))
  {
    var t := TrimStart(s);
    var i := |s| - |t|;
    var r := TrimEnd(t);
    forall k | i + |r| <= k < |s| ensures IsJsWhitespace(s[k]) {
      assert s[k] == t[k - i];
    }
  }

  /** A non-empty trimmed string neither starts nor ends with whitespace. */
  lemma TrimmedEndsVisible(s: string)
    ensures |Trim(s)| > 0 ==> !IsJsWhitespace(Trim(s)[0]) && !IsJsWhitespace(Trim(s)[|Trim(s)| - 1])
  {
    var t := TrimStart(s);
    var r := TrimEnd(t);
    if |r| > 0 {
      assert r[0] == t[0];
    }
  }

  /** `s.trim()` is empty exactly when every character of `s` is whitespace. */
  lemma TrimEmptyIff(s: string)
    ensures |Trim(s)| == 0 <==> forall k :: 0 <= k < |s| ==> IsJsWhitespace(s[k])
  {
    TrimCutsOnlyWhitespace(s);
    TrimmedEndsVisible(s);
    var t := TrimStart(s);
    if |Trim(s)| > 0 {
      assert Trim(s)[0] == t[0] == s[|s| - |t|];
    }
  }

  /** Trimming is idempotent. */
  lemma TrimIdempotent(s: string)
    ensures Trim(Trim(s)) == Trim(s)
  {
    var r := Trim(s);
    TrimmedEndsVisible(s);
    if |r| > 0 {
      assert TrimStart(r) == r;
      assert TrimEnd(r) == r;
    }
  }

  /** The JavaScript `length` of `s`: code points above U+FFFF take two UTF-16 code units. */
  function Utf16Length(s: string): (n: nat)
    ensures |s| <= n <= 2 * |s|
    decreases |s|
  {
    if s == [] then 0 else (if s[0] as int > 0xFFFF then 2 else 1) + Utf16Length(s[1..])
  }

  /** A string that neither starts nor ends with whitespace is its own trim. */
  lemma TrimKeepsVisibleEnds(s: string)
    requires |s| > 0 && !IsJsWhitespace(s[0]) && !IsJsWhitespace(s[|s| - 1])
    ensures Trim(s) == s
  {
  }

  /** A string of Basic Multilingual Plane characters takes one code unit per character. */
  lemma {:induction false} BmpUtf16Length(s: string)
    requires forall k :: 0 <= k < |s| ==> s[k] as int <= 0xFFFF
    ensures Utf16Length(s) == |s|
    decreases |s|
  {
    if s != [] {
      BmpUtf16Length(s[1..]);
    }
  }

  /** The decimal digit for `d`. */
  function Digit(d: nat): (c: char)
    requires d < 10
    ensures '0' <= c <= '9'
  {
    (48 + d) as char
  }

  /** The decimal rendering of a non-negative integer, as JavaScript's `String(n)` gives for a millisecond timestamp. */
  function NatToDecimal(n: nat): (r: string)
    ensures |r| > 0
    ensures forall k :: 0 <= k < |r| ==> '0' <= r[k] <= '9'
  {
    if n < 10 then [Digit(n)] else NatToDecimal(n / 10) + [Digit(n % 10)]
  }

  /** The value of a string of decimal digits. */
  function DecimalValue(s: string): nat
    requires forall k :: 0 <= k < |s| ==> '0' <= s[k] <= '9'
    decreases |s|
  {
    if s == [] then 0 else 10 * DecimalValue(s[..|s| - 1]) + (s[|s| - 1] as int - 48)
  }

  /** Reading the decimal rendering back gives the number: the rendering loses nothing. */
  lemma {:induction false} DecimalRoundTrip(n: nat)
    ensures DecimalValue(NatToDecimal(n)) == n
  {
    if n >= 10 {
      DecimalRoundTrip(n / 10);
      var r := NatToDecimal(n);
      assert r[..|r| - 1] == NatToDecimal(n / 10);
    }
  }

  /** Distinct numbers have distinct decimal renderings. */
  lemma DecimalInjective(m: nat, n: nat)
    requires m != n
    ensures NatToDecimal(m) != NatToDecimal(n)
  {
    DecimalRoundTrip(m);
    DecimalRoundTrip(n);
  }
}
