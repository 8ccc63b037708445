/** String helpers with the meaning the Python and JavaScript sources rely on:
    ASCII case mapping, substring tests, whitespace stripping, line splitting,
    decimal integer parsing and printing, and `str.replace`. */
module Text {
  import opened Wrappers

  function LowerChar(c: char): char {
    if 'A' <= c <= 'Z' then (c as int + 32) as char else c
  }

  function UpperChar(c: char): char {
    if 'a' <= c <= 'z' then (c as int - 32) as char else c
  }

  /** `str.lower()` / `toLowerCase()` restricted to ASCII letters. */
  function Lower(s: string): (r: string)
    ensures |r| == |s|
  {
    if s == [] then [] else [LowerChar(s[0])] + Lower(s[1..])
  }

  /** Each character of `Lower(s)` is the lower-case form of the character
      at the same position of `s`. */
  lemma {:induction false} LowerChars(s: string)
    ensures forall i :: 0 <= i < |s| ==> Lower(s)[i] == LowerChar(s[i])
  {
    if s != [] {
      LowerChars(s[1..]);
      assert forall i :: 1 <= i < |s| ==> Lower(s)[i] == Lower(s[1..])[i - 1];
    }
  }

  /** Lower-casing twice changes nothing more. */
  lemma LowerIdempotent(s: string)
    ensures Lower(Lower(s)) == Lower(s)
  {
    LowerChars(s);
    LowerChars(Lower(s));
  }

  /** A string with no upper-case ASCII letter is its own lower-case form. */
  lemma LowerOfLowercase(s: string)
    requires forall i :: 0 <= i < |s| ==> !('A' <= s[i] <= 'Z')
    ensures Lower(s) == s
  {
    LowerChars(s);
  }

  /** `str.upper()` on ASCII letters only. Every other character is kept,
      including those Python upper-cases (it maps 'ı' to 'I', for one). */
  function Upper(s: string): (r: string)
    ensures |r| == |s|
  {
    if s == [] then [] else [UpperChar(s[0])] + Upper(s[1..])
  }

  predicate StartsWith(s: string, prefix: string) {
    prefix <= s
  }

  predicate EndsWith(s: string, suffix: string) {
    |suffix| <= |s| && s[|s| - |suffix|..] == suffix
  }

  /** `sub in s` (Python) / `s.includes(sub)` (JavaScript). */
  predicate Contains(s: string, sub: string)
    decreases |s|
  {
    sub <= s || (|s| > 0 && Contains(s[1..], sub))
  }

  /** Characters Python's `str.strip()` removes. */
  predicate IsSpace(c: char) {
    c == ' ' || ('\t' <= c <= '\r') || ('\U{1C}' <= c <= '\U{1F}')
    || c == '\U{85}' || c == '\U{A0}' || c == '\U{1680}'
    || ('\U{2000}' <= c <= '\U{200A}') || c == '\U{2028}' || c == '\U{2029}'
    || c == '\U{202F}' || c == '\U{205F}' || c == '\U{3000}'
  }

  /** Characters Python's `str.splitlines()` breaks at. */
  predicate IsLineBreak(c: char) {
    ('\n' <= c <= '\r') || ('\U{1C}' <= c <= '\U{1E}')
    || c == '\U{85}' || c == '\U{2028}' || c == '\U{2029}'
  }

  function StripLeft(s: string): (r: string)
    ensures r <= s || (|r| <= |s| && r == s[|s| - |r|..])
    ensures r == [] || !IsSpace(r[0])
  {
    if s != [] && IsSpace(s[0]) then StripLeft(s[1..]) else s
  }

  function StripRight(s: string): (r: string)
    ensures r <= s
    ensures r == [] || !IsSpace(r[|r| - 1])
  {
    if s != [] && IsSpace(s[|s| - 1]) then StripRight(s[..|s| - 1]) else s
  }

  /** `str.strip()`: no leading or trailing whitespace is left. */
  function Strip(s: string): (r: string)
    ensures r == [] || (!IsSpace(r[0]) && !IsSpace(r[|r| - 1]))
  {
    StripRight(StripLeft(s))
  }

  /** The pieces of `s` between line-break characters. A `\r\n` pair yields an
      extra empty piece, which every caller drops together with blank lines. */
  function SplitAtLineBreaks(s: string): (r: seq<string>)
    ensures |r| >= 1
    decreases |s|
  {
    if s == [] then [[]]
    else
      var rest := SplitAtLineBreaks(s[1..]);
      if IsLineBreak(s[0]) then [[]] + rest
      else [[s[0]] + rest[0]] + rest[1..]
  }

  function NonBlankStripped(pieces: seq<string>): (r: seq<string>)
    ensures forall i :: 0 <= i < |r| ==> r[i] != []
  {
    if pieces == [] then []
    else
      var t := Strip(pieces[0]);
      (if t == [] then [] else [t]) + NonBlankStripped(pieces[1..])
  }

  /** `[ln.strip() for ln in text.strip().splitlines() if ln.strip()]`. */
  function Lines(text: string): (r: seq<string>)
    ensures forall i :: 0 <= i < |r| ==> r[i] != []
  {
    NonBlankStripped(SplitAtLineBreaks(Strip(text)))
  }

  predicate IsDigit(c: char) {
    '0' <= c <= '9'
  }

  function DigitsValue(s: string): (n: nat)
    requires forall i :: 0 <= i < |s| ==> IsDigit(s[i])
  {
    if s == [] then 0
    else
      assert IsDigit(s[|s| - 1]);
      DigitsValue(s[..|s| - 1]) * 10 + (s[|s| - 1] as int - '0' as int)
  }

  /** Python's `int(s)` on ASCII decimal strings: surrounding whitespace, an
      optional sign, then one or more ASCII digits. Anything else reads as a
      `ValueError` here, although Python also accepts single `_` separators
      between digits ("8_6") and non-ASCII decimal digits (full-width "８６"). */
  function ParseInt(s: string): (r: Option<int>)
  {
    var t := Strip(s);
    var negative := |t| > 0 && t[0] == '-';
    var digits := if |t| > 0 && (t[0] == '-' || t[0] == '+') then t[1..] else t;
    if digits != [] && forall i :: 0 <= i < |digits| ==> IsDigit(digits[i]) then
      var n: int := DigitsValue(digits);
      Some(if negative then -n else n)
    else None
  }

  /** Characters JavaScript's `trim` and its string-to-number conversion
      skip: ASCII tab to carriage return, space, the Unicode space
      separators, the line and paragraph separators and the byte-order mark. */
  predicate IsJsSpace(c: char) {
    ('\t' <= c <= '\r') || c == ' ' || c == '\U{A0}' || c == '\U{1680}'
    || ('\U{2000}' <= c <= '\U{200A}') || c == '\U{2028}' || c == '\U{2029}'
    || c == '\U{202F}' || c == '\U{205F}' || c == '\U{3000}' || c == '\U{FEFF}'
  }

  function JsTrimLeft(s: string): (r: string)
    ensures r == [] || !IsJsSpace(r[0])
    ensures |r| <= |s|
  {
    if s != [] && IsJsSpace(s[0]) then JsTrimLeft(s[1..]) else s
  }

  function JsTrimRight(s: string): (r: string)
    ensures r == [] || !IsJsSpace(r[|r| - 1])
    ensures r <= s
  {
    if s != [] && IsJsSpace(s[|s| - 1]) then JsTrimRight(s[..|s| - 1]) else s
  }

  /** `s.trim()`. */
  function JsTrim(s: string): (r: string)
    ensures r == [] || (!IsJsSpace(r[0]) && !IsJsSpace(r[|r| - 1]))
  {
    JsTrimRight(JsTrimLeft(s))
  }

  /** The number of leading ASCII digits. */
  function LeadingDigits(s: string): (n: nat)
    ensures n <= |s|
    ensures forall i :: 0 <= i < n ==> IsDigit(s[i])
    ensures n < |s| ==> !IsDigit(s[n])
  {
    if s != [] && IsDigit(s[0]) then 1 + LeadingDigits(s[1..]) else 0
  }

  function Pow10(n: nat): (r: nat)
    ensures r >= 1
  {
    if n == 0 then 1 else 10 * Pow10(n - 1)
  }

  /** JavaScript's conversion of a string to a number, as arithmetic on a
      string performs it, for decimal forms: surrounding whitespace, an
      optional sign, then digits with an optional fraction (`"5."` and
      `".5"` included); a blank string is 0. `None` stands for NaN. */
  function JsStringToNumber(s: string): (r: Option<real>)
  {
    var t := JsTrim(s);
    if t == [] then Some(0.0)
    else
      var body := if t[0] == '-' || t[0] == '+' then t[1..] else t;
      var k := LeadingDigits(body);
      var rest := body[k..];
      var frac := if rest != [] && rest[0] == '.' then rest[1..] else [];
      if (rest == [] || (rest[0] == '.' && LeadingDigits(frac) == |frac|)) && (k > 0 || |frac| > 0) then
        var magnitude := DigitsValue(body[..k]) as real + DigitsValue(frac) as real / Pow10(|frac|) as real;
        Some(if t[0] == '-' then -magnitude else magnitude)
      else None
  }

  lemma DigitsAreNotSpace(s: string)
    requires forall i :: 0 <= i < |s| ==> IsDigit(s[i])
    ensures JsTrim(s) == s
  {
    assert JsTrimLeft(s) == s;
  }

  lemma {:induction false} AllLeadingDigits(s: string)
    requires forall i :: 0 <= i < |s| ==> IsDigit(s[i])
    ensures LeadingDigits(s) == |s|
  {
    if s != [] {
      AllLeadingDigits(s[1..]);
    }
  }

  /** The magnitude a digit string (with its sign already removed) gives. */
  lemma DigitBody(t: string, body: string)
    requires t != [] && body != [] && forall i :: 0 <= i < |body| ==> IsDigit(body[i])
    requires JsTrim(t) == t && body == (if t[0] == '-' || t[0] == '+' then t[1..] else t)
    ensures JsStringToNumber(t) == Some(if t[0] == '-' then -(DigitsValue(body) as real) else DigitsValue(body) as real)
  {
    AllLeadingDigits(body);
    assert body[LeadingDigits(body)..] == [];
    assert body[..LeadingDigits(body)] == body;
  }

  /** A string of digits converts to the number Python's `int()` reads
      from it. */
  lemma DigitStringsConvert(digits: string)
    requires digits != [] && forall i :: 0 <= i < |digits| ==> IsDigit(digits[i])
    ensures JsStringToNumber(digits) == Some(DigitsValue(digits) as real)
    ensures ParseInt(digits) == Some(DigitsValue(digits))
  {
    DigitsAreNotSpace(digits);
    DigitBody(digits, digits);
    StripDigits(digits);
  }

  /** A minus sign negates it. */
  lemma NegativeDigitStringsConvert(digits: string)
    requires digits != [] && forall i :: 0 <= i < |digits| ==> IsDigit(digits[i])
    ensures JsStringToNumber("-" + digits) == Some(-(DigitsValue(digits) as real))
  {
    var signed := "-" + digits;
    assert signed[0] == '-' && signed[1..] == digits;
    assert JsTrimLeft(signed) == signed;
    assert JsTrim(signed) == signed;
    DigitBody(signed, digits);
  }

  lemma StripDigits(s: string)
    requires s != [] && (IsDigit(s[0]) || s[0] == '-') && IsDigit(s[|s| - 1])
    ensures Strip(s) == s
  {
    assert StripLeft(s) == s;
  }

  function NatToString(n: nat): (r: string)
    ensures r != [] && forall i :: 0 <= i < |r| ==> IsDigit(r[i])
  {
    if n < 10 then [('0' as int + n) as char]
    else NatToString(n / 10) + [('0' as int + n % 10) as char]
  }

  /** `str(n)` for an integer. */
  function IntToString(n: int): string {
    if n < 0 then "-" + NatToString(-n) else NatToString(n)
  }

  /** `s.replace(pat, rep)`: every non-overlapping occurrence, left to right. */
  function ReplaceAll(s: string, pat: string, rep: string): string
    requires pat != []
    decreases |s|
  {
    if |s| < |pat| then s
    else if pat <= s then rep + ReplaceAll(s[|pat|..], pat, rep)
    else [s[0]] + ReplaceAll(s[1..], pat, rep)
  }

  /** `s.replace(c, '')` for a single character. */
  function RemoveChar(s: string, c: char): (r: string)
    ensures c !in r
    ensures forall x :: x in r ==> x in s
    ensures |r| <= |s|
  {
    if s == [] then [] else (if s[0] == c then [] else [s[0]]) + RemoveChar(s[1..], c)
  }

  lemma {:induction false} RemoveCharAppend(a: string, b: string, c: char)
    ensures RemoveChar(a + b, c) == RemoveChar(a, c) + RemoveChar(b, c)
  {
    if a != [] {
      assert (a + b)[1..] == a[1..] + b;
      RemoveCharAppend(a[1..], b, c);
    } else {
      assert a + b == b;
    }
  }
}
