/** String helpers shared by the page and the backend: prefixes, the two languages'
    whitespace classes, trimming, searching and splitting. Strings are `seq<char>`. */
module Strings {
  import opened Wrappers

  predicate StartsWith(s: string, p: string) {
    |p| <= |s| && s[..|p|] == p
  }

  /** Whether `p` occurs in `s` starting at index `i`. */
  predicate OccursAt(s: string, p: string, i: int) {
    0 <= i && i + |p| <= |s| && s[i..i + |p|] == p
  }

  /** The two whitespace classes in play: JavaScript's and Python's. */
  datatype Whitespace = JsWhitespace | PyWhitespace

  predicate IsSpace(w: Whitespace, c: char) {
    match w
    case JsWhitespace => IsJsSpace(c)
    case PyWhitespace => IsPySpace(c)
  }

  /** ECMAScript WhiteSpace and LineTerminator code points (ECMA-262 sections 12.2
      and 12.3), which `String.prototype.trim` and `parseInt`/`parseFloat` skip:
      tab, vertical tab, form feed, space, no-break space, the byte-order mark, the
      other space separators of category Zs, and the four line terminators. */
  predicate IsJsSpace(c: char) {
    || c == '\t' || c == '\U{B}' || c == '\U{C}' || c == ' ' || c == '\U{A0}' || c == '\U{FEFF}'
    || c == '\n' || c == '\r' || c == '\U{2028}' || c == '\U{2029}'
    || c == '\U{1680}' || ('\U{2000}' <= c <= '\U{200A}') || c == '\U{202F}' || c == '\U{205F}' || c == '\U{3000}'
  }

  /** The characters for which Python's `str.isspace()` holds; `str.strip()` removes
      them and the regular-expression class `\s` matches them in a `str` pattern. */
  predicate IsPySpace(c: char) {
    || ('\t' <= c <= '\r') || ('\U{1C}' <= c <= '\U{1F}') || c == ' ' || c == '\U{85}' || c == '\U{A0}'
    || c == '\U{1680}' || ('\U{2000}' <= c <= '\U{200A}') || c == '\U{2028}' || c == '\U{2029}'
    || c == '\U{202F}' || c == '\U{205F}' || c == '\U{3000}'
  }

  /** The end of the run of characters of the class `w` that starts at `from`: all
      of them are of the class, and the one after them (if any) is not. */
  function LeadingEnd(s: string, w: Whitespace, from: nat): (n: nat)
    requires from <= |s|
    ensures from <= n <= |s|
    ensures forall k :: from <= k < n ==> IsSpace(w, s[k])
    ensures n < |s| ==> !IsSpace(w, s[n])
    decreases |s| - from
  {
    if from < |s| && IsSpace(w, s[from]) then LeadingEnd(s, w, from + 1) else from
  }

  /** The start of the run of characters of the class `w` that ends at `to`, going
      back no further than `lo`: all of them are of the class, and the one before
      them (if any, after `lo`) is not. */
  function TrailingStart(s: string, w: Whitespace, lo: nat, to: nat): (n: nat)
    requires lo <= to <= |s|
    ensures lo <= n <= to
    ensures forall k :: n <= k < to ==> IsSpace(w, s[k])
    ensures lo < n ==> !IsSpace(w, s[n - 1])
  {
    if lo < to && IsSpace(w, s[to - 1]) then TrailingStart(s, w, lo, to - 1) else to
  }

  /** `s` without its leading characters of the class `w`. */
  function DropLeading(s: string, w: Whitespace): string {
    s[LeadingEnd(s, w, 0)..]
  }

  /** `s` without the characters of the class `w` at either end. */
  function Trim(s: string, w: Whitespace): string {
    var i := LeadingEnd(s, w, 0);
    s[i..TrailingStart(s, w, i, |s|)]
  }

  /** JavaScript's `s.trim()`. */
  function JsTrim(s: string): string {
    Trim(s, JsWhitespace)
  }

  /** Python's `s.strip()`. */
  function PyStrip(s: string): string {
    Trim(s, PyWhitespace)
  }

  /** Trimming keeps one contiguous span `s[i..j]` of `s`, removes only characters
      of the class around it, and leaves none at either end of the result. */
  lemma TrimIsInnerSpan(s: string, w: Whitespace)
    ensures exists i, j ::
      (&& 0 <= i <= j <= |s| && Trim(s, w) == s[i..j]
       && (forall k :: 0 <= k < i ==> IsSpace(w, s[k]))
       && (forall k :: j <= k < |s| ==> IsSpace(w, s[k])))
    ensures var r := Trim(s, w); r != [] ==> !IsSpace(w, r[0]) && !IsSpace(w, r[|r| - 1])
  {
    var i := LeadingEnd(s, w, 0);
    var j := TrailingStart(s, w, i, |s|);
    var r := Trim(s, w);
    assert r == s[i..j];
    if r != [] {
      assert r[0] == s[i];
      assert r[|r| - 1] == s[j - 1];
    }
  }

  /** Python's `s.lower()` restricted to ASCII letters; no other character lowers to
      an ASCII letter or digit, which is all the comparisons made with it rely on. */
  function AsciiLower(s: string): (r: string)
    ensures |r| == |s|
    ensures forall k :: 0 <= k < |s| ==> r[k] == if 'A' <= s[k] <= 'Z' then (s[k] as int + 32) as char else s[k]
  {
    if s == [] then []
    else [if 'A' <= s[0] <= 'Z' then (s[0] as int + 32) as char else s[0]] + AsciiLower(s[1..])
  }

  /** The first index at or after `from` where `p` occurs in `s`. */
  function IndexOf(s: string, p: string, from: nat): (r: Option<nat>)
    requires |p| > 0
    ensures r.Some? ==> from <= r.value && OccursAt(s, p, r.value)
    ensures r.Some? ==> forall k :: from <= k < r.value ==> !OccursAt(s, p, k)
    ensures r.None? ==> forall k :: from <= k ==> !OccursAt(s, p, k)
    decreases |s| - from
  {
    if from + |p| > |s| then None
    else if s[from..from + |p|] == p then Some(from)
    else IndexOf(s, p, from + 1)
  }

  /** The first index of character `c` in `s`. */
  function FirstIndexOfChar(s: string, c: char): (r: Option<nat>)
    ensures r.Some? ==> r.value < |s| && s[r.value] == c && forall k :: 0 <= k < r.value ==> s[k] != c
    ensures r.None? ==> forall k :: 0 <= k < |s| ==> s[k] != c
  {
    if s == [] then None
    else if s[0] == c then Some(0)
    else match FirstIndexOfChar(s[1..], c)
      case None => None
      case Some(i) => Some(i + 1)
  }

  /** The last index of character `c` in `s`. */
  function LastIndexOfChar(s: string, c: char): (r: Option<nat>)
    ensures r.Some? ==> r.value < |s| && s[r.value] == c && forall k :: r.value < k < |s| ==> s[k] != c
    ensures r.None? ==> forall k :: 0 <= k < |s| ==> s[k] != c
  {
    if s == [] then None
    else if s[|s| - 1] == c then Some(|s| - 1)
    else LastIndexOfChar(s[..|s| - 1], c)
  }

  /** Python's `s.split(c)[-1]`: the part after the last `c`, or all of `s`. */
  function AfterLast(s: string, c: char): (r: string)
    ensures c !in r
    ensures |r| <= |s| && r == s[|s| - |r|..]
    ensures |r| < |s| ==> s[|s| - |r| - 1] == c
  {
    if s == [] then []
    else if s[|s| - 1] == c then []
    else AfterLast(s[..|s| - 1], c) + [s[|s| - 1]]
  }

  /** Python's `s.split(c)[0]`: the part before the first `c`, or all of `s`. */
  function BeforeFirst(s: string, c: char): (r: string)
    ensures c !in r
    ensures |r| <= |s| && r == s[..|r|]
    ensures |r| < |s| ==> s[|r|] == c
  {
    if s == [] then []
    else if s[0] == c then []
    else [s[0]] + BeforeFirst(s[1..], c)
  }

  predicate IsDigit(c: char) {
    '0' <= c <= '9'
  }

  /** No character of a numeral (a digit, a sign, a decimal point) is a space in either language. */
  lemma NumeralCharIsNotSpace(c: char, w: Whitespace)
    requires IsDigit(c) || c in "+-."
    ensures !IsSpace(w, c)
  {
  }

  /** The longest prefix of `s` made of ASCII digits. */
  function DigitPrefix(s: string): (r: string)
    ensures |r| <= |s| && r == s[..|r|]
    ensures forall k :: 0 <= k < |r| ==> IsDigit(r[k])
    ensures |r| < |s| ==> !IsDigit(s[|r|])
  {
    if s != [] && IsDigit(s[0]) then [s[0]] + DigitPrefix(s[1..]) else []
  }

  /** The value of a string of decimal digits, most significant first. */
  function DigitsValue(ds: string): nat
    requires forall k :: 0 <= k < |ds| ==> IsDigit(ds[k])
  {
    if ds == [] then 0
    else
      assert IsDigit(ds[|ds| - 1]);
      DigitsValue(ds[..|ds| - 1]) * 10 + (ds[|ds| - 1] as int - '0' as int)
  }

  function Pow10(n: nat): (r: nat)
    ensures r >= 1
  {
    if n == 0 then 1 else 10 * Pow10(n - 1)
  }

  /** The decimal numeral of `n` without leading zeros. */
  function NatToDecimal(n: nat): (r: string)
    ensures |r| > 0
    ensures forall k :: 0 <= k < |r| ==> IsDigit(r[k])
  {
    if n < 10 then [('0' as int + n) as char]
    else NatToDecimal(n / 10) + [('0' as int + n % 10) as char]
  }

  /** Reading back a numeral gives the number. */
  lemma {:induction false} DecimalValue(n: nat)
    ensures DigitsValue(NatToDecimal(n)) == n
  {
    if n >= 10 {
      var d := NatToDecimal(n);
      assert d[..|d| - 1] == NatToDecimal(n / 10);
      DecimalValue(n / 10);
    }
  }
}
