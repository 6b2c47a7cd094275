/**
 * The Python `str` operations the scripts use, on `string` (a sequence of
 * Unicode scalar values). Case mapping covers ASCII letters only.
 */
module Text {

  /** `c.isspace()`: the code points Python treats as whitespace (also what `\s` matches). */
  predicate IsSpace(c: char) {
    var n := c as int;
    (9 <= n <= 13) || (28 <= n <= 32) || n == 0x85 || n == 0xA0 || n == 0x1680
    || (0x2000 <= n <= 0x200A) || n == 0x2028 || n == 0x2029 || n == 0x202F
    || n == 0x205F || n == 0x3000
  }

  predicate IsDigit(c: char) {
    '0' <= c <= '9'
  }

  predicate IsAsciiAlnum(c: char) {
    ('a' <= c <= 'z') || ('A' <= c <= 'Z') || IsDigit(c)
  }

  function LowerChar(c: char): char {
    if 'A' <= c <= 'Z' then (c as int + 32) as char else c
  }

  function UpperChar(c: char): char {
    if 'a' <= c <= 'z' then (c as int - 32) as char else c
  }

  /** `s.lower()` */
  function Lower(s: string): (r: string)
    ensures |r| == |s|
  {
    seq(|s|, i requires 0 <= i < |s| => LowerChar(s[i]))
  }

  /** `s.upper()` */
  function Upper(s: string): (r: string)
    ensures |r| == |s|
  {
    seq(|s|, i requires 0 <= i < |s| => UpperChar(s[i]))
  }

  /** The character sets the scripts pass to `strip`, `lstrip` and `rstrip`. */
  datatype CharClass = Whitespace | Quotes | Dashes | Backslashes | Slashes

  predicate InClass(c: char, k: CharClass) {
    match k
    case Whitespace => IsSpace(c)
    case Quotes => c == '"' || c == '\''
    case Dashes => c == '-'
    case Backslashes => c == '\\'
    case Slashes => c == '/'
  }

  /** `s.lstrip(chars)` */
  function TrimStart(s: string, k: CharClass): (r: string)
    ensures |r| <= |s|
  {
    if s != [] && InClass(s[0], k) then TrimStart(s[1..], k) else s
  }

  /** `s.rstrip(chars)` */
  function TrimEnd(s: string, k: CharClass): (r: string)
    ensures |r| <= |s|
  {
    if s != [] && InClass(s[|s| - 1], k) then TrimEnd(s[..|s| - 1], k) else s
  }

  /** `s.strip(chars)` */
  function Trim(s: string, k: CharClass): string {
    TrimEnd(TrimStart(s, k), k)
  }

  /** `s.strip()` */
  function Strip(s: string): string {
    Trim(s, Whitespace)
  }

  /** `s.strip('"\'')` */
  function Unquote(s: string): string {
    Trim(s, Quotes)
  }

  /** `s.split(c)[0]`: the text before the first `c`, or all of `s`. */
  function Before(s: string, c: char): (r: string)
    ensures r <= s && c !in r
    ensures |r| < |s| ==> s[|r|] == c
  {
    if s == [] || s[0] == c then [] else [s[0]] + Before(s[1..], c)
  }

  /** `s.split(c)` for a one-character separator. */
  function SplitOn(s: string, c: char): (parts: seq<string>)
    ensures |parts| >= 1 && parts[0] == Before(s, c)
    ensures |parts| == 1 <==> c !in s
    decreases |s|
  {
    var head := Before(s, c);
    if |head| == |s| then [s] else [head] + SplitOn(s[|head| + 1..], c)
  }

  /** `s.startswith(p)` */
  predicate StartsWith(s: string, p: string) {
    p <= s
  }

  /** `s.endswith("\\")` */
  predicate EndsWithBackslash(s: string) {
    |s| > 0 && s[|s| - 1] == '\\'
  }

  /** `sub in s` */
  predicate Contains(s: string, sub: string)
    decreases |s|
  {
    sub <= s || (s != [] && Contains(s[1..], sub))
  }

  /** Index of the first whitespace character of `s` at or after `i`, or `|s|`. */
  function SpaceAt(s: string, i: nat): (j: nat)
    requires i <= |s|
    ensures i <= j <= |s|
    ensures forall k :: i <= k < j ==> !IsSpace(s[k])
    ensures j < |s| ==> IsSpace(s[j])
    decreases |s| - i
  {
    if i == |s| || IsSpace(s[i]) then i else SpaceAt(s, i + 1)
  }

  /** Index just past the run of whitespace that starts at `i`. */
  function SkipSpace(s: string, i: nat): (j: nat)
    requires i <= |s|
    ensures i <= j <= |s|
    ensures forall k :: i <= k < j ==> IsSpace(s[k])
    ensures j < |s| ==> !IsSpace(s[j])
    decreases |s| - i
  {
    if i < |s| && IsSpace(s[i]) then SkipSpace(s, i + 1) else i
  }

  /**
   * `re.split(r'\s+', s)`: the pieces between maximal runs of whitespace; a
   * leading (trailing) run gives an empty first (last) piece, and "" gives [""].
   */
  function SplitWs(s: string): (r: seq<string>)
    ensures |r| >= 1
    ensures forall t :: t in r ==> forall k :: 0 <= k < |t| ==> !IsSpace(t[k])
    decreases |s|
  {
    var i := SpaceAt(s, 0);
    if i == |s| then [s]
    else
      var j := SkipSpace(s, i);
      [s[..i]] + SplitWs(s[j..])
  }

  /** Decimal digits of `n`, most significant first, no leading zeros. */
  function NatToString(n: nat): (r: string)
    ensures |r| >= 1 && forall k :: 0 <= k < |r| ==> IsDigit(r[k])
    decreases n
  {
    if n < 10 then [DigitChar(n)] else NatToString(n / 10) + [DigitChar(n % 10)]
  }

  function DigitChar(d: nat): (c: char)
    requires d < 10
    ensures IsDigit(c)
  {
    (d + '0' as int) as char
  }

  /** `int(s)` for a string of ASCII digits. */
  function DigitsValue(s: string): (n: nat)
    requires forall k :: 0 <= k < |s| ==> IsDigit(s[k])
    decreases |s|
  {
    if s == [] then 0 else 10 * DigitsValue(s[..|s| - 1]) + DigitValue(s[|s| - 1])
  }

  function DigitValue(c: char): (d: nat)
    requires IsDigit(c)
    ensures d < 10
  {
    c as int - '0' as int
  }

  /** `'{:>0w}'.format(n)`: `n` in decimal, left-padded with zeros to width `w`. */
  function ZeroPad(n: nat, w: nat): (r: string)
    ensures |r| >= w && forall k :: 0 <= k < |r| ==> IsDigit(r[k])
  {
    var s := NatToString(n);
    if |s| >= w then s else seq(w - |s|, _ => '0') + s
  }
}
