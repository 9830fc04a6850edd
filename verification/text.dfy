/** Text primitives the core relies on: PHP's and JavaScript's `trim`, and
    decimal rendering of counts. */
module Text {

  /** The characters PHP's `trim` removes when no character list is given:
      space, tab, line feed, carriage return, NUL and vertical tab. */
  predicate IsPhpTrimChar(c: char)
  {
    c == ' ' || c == '\t' || c == '\n' || c == '\r' || c == '\0' || c == '\U{B}'
  }

  /** The code points JavaScript's `String.prototype.trim` removes: the
      WhiteSpace and LineTerminator productions of ECMA-262 (tab, vertical
      tab, form feed, space, no-break space, byte order mark, the Unicode
      space separators, line feed, carriage return, line and paragraph
      separators). */
  predicate IsJsTrimChar(c: char)
  {
    || c == '\t' || c == '\U{B}' || c == '\U{C}' || c == ' '
    || c == '\U{A0}' || c == '\U{FEFF}' || c == '\U{1680}'
    || ('\U{2000}' <= c <= '\U{200A}')
    || c == '\U{202F}' || c == '\U{205F}' || c == '\U{3000}'
    || c == '\n' || c == '\r' || c == '\U{2028}' || c == '\U{2029}'
  }

  /** `s` without its maximal prefix of characters satisfying `strip`. */
  function TrimStart(s: string, strip: char -> bool): (r: string)
    ensures |r| <= |s| && r == s[|s| - |r|..]
    ensures forall i :: 0 <= i < |s| - |r| ==> strip(s[i])
    ensures r != [] ==> !strip(r[0])
    decreases |s|
  {
    if s != [] && strip(s[0]) then TrimStart(s[1..], strip) else s
  }

  /** `s` without its maximal suffix of characters satisfying `strip`. */
  function TrimEnd(s: string, strip: char -> bool): (r: string)
    ensures |r| <= |s| && r == s[..|r|]
    ensures forall i :: |r| <= i < |s| ==> strip(s[i])
    ensures r != [] ==> !strip(r[|r| - 1])
    decreases |s|
  {
    if s != [] && strip(s[|s| - 1]) then TrimEnd(s[..|s| - 1], strip) else s
  }

  /** `r` sits at offset `k` of `s` and everything of `s` before and after it
      satisfies `strip`. */
  ghost predicate SliceWithStrippedEnds(r: string, s: string, strip: char -> bool, k: int)
  {
    && 0 <= k <= |s| - |r| && s[k..k + |r|] == r
    && (forall i :: 0 <= i < k ==> strip(s[i]))
    && (forall i :: k + |r| <= i < |s| ==> strip(s[i]))
  }

  /** `r` is what remains of `s` once the characters satisfying `strip` are
      removed from both ends: a contiguous slice of `s`, everything outside
      it strippable, and neither of its ends strippable. */
  ghost predicate IsTrimOf(r: string, s: string, strip: char -> bool)
  {
    && (r != [] ==> !strip(r[0]) && !strip(r[|r| - 1]))
    && exists k :: SliceWithStrippedEnds(r, s, strip, k)
  }

  function Trim(s: string, strip: char -> bool): (r: string)
    ensures IsTrimOf(r, s, strip)
  {
    var t := TrimStart(s, strip);
    var r := TrimEnd(t, strip);
    var k := |s| - |t|;
    assert SliceWithStrippedEnds(r, s, strip, k);
    r
  }

  /** PHP `trim($s)`. */
  function PhpTrim(s: string): string
  {
    Trim(s, IsPhpTrimChar)
  }

  /** JavaScript `s.trim()`. */
  function JsTrim(s: string): string
  {
    Trim(s, IsJsTrimChar)
  }

  /** A PHP string is "empty" (falsy) when it is "" or "0". */
  predicate PhpFalsyString(s: string)
  {
    s == "" || s == "0"
  }

  predicate IsDigit(c: char)
  {
    '0' <= c <= '9'
  }

  predicate AllDigits(s: string)
  {
    forall i :: 0 <= i < |s| ==> IsDigit(s[i])
  }

  /** The number a string of decimal digits denotes (the reference reading). */
  function DigitsValue(s: string): nat
    requires AllDigits(s)
  {
    if s == [] then 0
    else DigitsValue(s[..|s| - 1]) * 10 + (s[|s| - 1] as int - '0' as int)
  }

  /** The shortest decimal rendering of `n`, as JavaScript's `String(n)` gives
      it for a non-negative integer below 10^21. */
  function DecimalString(n: nat): (s: string)
    ensures s != [] && AllDigits(s)
    ensures DigitsValue(s) == n
    ensures s[0] == '0' ==> s == "0"
  {
    var last := ['0' + (n % 10) as char];
    if n < 10 then
      last
    else
      var prefix := DecimalString(n / 10);
      var s := prefix + last;
      assert s[..|s| - 1] == prefix;
      s
  }
}
