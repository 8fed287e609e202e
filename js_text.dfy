/** The small part of the JavaScript string and number runtime that the pages rely on:
    the `\s` and `\w` character classes, ASCII lower-casing, `trim`, `includes`,
    truthiness of an optional string, decimal rendering of a number and `parseInt`. */
module JsText {

  datatype Option<+T> = None | Some(value: T)

  /** `\s` of a JavaScript regular expression; `trim` and `parseInt` strip the same set
      (WhiteSpace and LineTerminator of the language). */
  predicate IsSpace(c: char) {
    || ('\t' <= c <= '\r')
    || c == ' ' || c == '\U{A0}' || c == '\U{1680}'
    || ('\U{2000}' <= c <= '\U{200A}')
    || c == '\U{2028}' || c == '\U{2029}' || c == '\U{202F}' || c == '\U{205F}'
    || c == '\U{3000}' || c == '\U{FEFF}'
  }

  predicate IsDigit(c: char) {
    '0' <= c <= '9'
  }

  /** `\w` of a JavaScript regular expression without the `u` flag. */
  predicate IsWordChar(c: char) {
    ('a' <= c <= 'z') || ('A' <= c <= 'Z') || IsDigit(c) || c == '_'
  }

  function LowerChar(c: char): (d: char)
    ensures !('A' <= d <= 'Z')
    ensures IsWordChar(d) <==> IsWordChar(c)
    ensures IsSpace(d) <==> IsSpace(c)
    ensures !('A' <= c <= 'Z') ==> d == c
  {
    if 'A' <= c <= 'Z' then (c as int + 32) as char else c
  }

  /** `toLowerCase`, restricted to the ASCII letters. */
  function Lower(s: string): (r: string)
    ensures |r| == |s|
    ensures forall i :: 0 <= i < |s| ==> r[i] == LowerChar(s[i])
  {
    seq(|s|, i requires 0 <= i < |s| => LowerChar(s[i]))
  }

  /** A character that UTF-16 writes as one code unit. */
  predicate InBmp(c: char) {
    c as int < 0x1_0000
  }

  /** `String.prototype.length`: the number of UTF-16 code units, two for each character
      outside the Basic Multilingual Plane. */
  function Utf16Length(s: string): (n: nat)
    ensures |s| <= n <= 2 * |s|
    ensures n == |s| <==> forall i :: 0 <= i < |s| ==> InBmp(s[i])
  {
    if s == [] then 0
    else
      var n := (if InBmp(s[0]) then 1 else 2) + Utf16Length(s[1..]);
      assert forall i :: 1 <= i < |s| ==> s[i] == s[1..][i - 1];
      n
  }

  predicate AllSpace(s: string) {
    forall i :: 0 <= i < |s| ==> IsSpace(s[i])
  }

  function TrimStart(s: string): (r: string)
    ensures |r| <= |s| && r == s[|s| - |r|..]
    ensures r == [] || !IsSpace(r[0])
    ensures AllSpace(s[..|s| - |r|])
  {
    if s != [] && IsSpace(s[0]) then TrimStart(s[1..]) else s
  }

  function TrimEnd(s: string): (r: string)
    ensures |r| <= |s| && r == s[..|r|]
    ensures r == [] || !IsSpace(r[|r| - 1])
    ensures AllSpace(s[|r|..])
  {
    if s != [] && IsSpace(s[|s| - 1]) then TrimEnd(s[..|s| - 1]) else s
  }

  /** `String.prototype.trim`. */
  function Trim(s: string): string {
    TrimEnd(TrimStart(s))
  }

  lemma {:induction false} TrimStartEmptyIff(s: string)
    ensures TrimStart(s) == [] <==> AllSpace(s)
  {
    if s != [] && IsSpace(s[0]) {
      TrimStartEmptyIff(s[1..]);
      if AllSpace(s[1..]) {
        forall i | 0 <= i < |s|
          ensures IsSpace(s[i])
        {
          if i > 0 {
            assert s[1..][i - 1] == s[i];
          }
        }
      }
    }
  }

  /** `!s.trim()` holds exactly when every character of `s` is white space. */
  lemma TrimEmptyIff(s: string)
    ensures Trim(s) == [] <==> AllSpace(s)
  {
    var t := TrimStart(s);
    TrimStartEmptyIff(s);
    if t != [] && |TrimEnd(t)| < |t| {
      assert t[|TrimEnd(t)|..][0] == t[|TrimEnd(t)|];
    }
  }

  ghost predicate OccursAt(hay: string, needle: string, i: int) {
    0 <= i && i + |needle| <= |hay| && hay[i..i + |needle|] == needle
  }

  /** `hay.includes(needle)`, scanning the start positions from `from` on. */
  function IncludesFrom(hay: string, needle: string, from: nat): (r: bool)
    ensures r <==> exists i :: from <= i && OccursAt(hay, needle, i)
    decreases |hay| - from
  {
    if from + |needle| > |hay| then false
    else if hay[from..from + |needle|] == needle then
      assert OccursAt(hay, needle, from);
      true
    else IncludesFrom(hay, needle, from + 1)
  }

  /** `String.prototype.includes`. */
  function Includes(hay: string, needle: string): (r: bool)
    ensures r <==> exists i :: OccursAt(hay, needle, i)
  {
    IncludesFrom(hay, needle, 0)
  }

  lemma IncludesEmpty(hay: string)
    ensures Includes(hay, "")
  {
  }

  /** JavaScript truthiness of a string that may be missing (`null`/`undefined`). */
  predicate Truthy(v: Option<string>) {
    v.Some? && v.value != ""
  }

  /** `v || fallback` on an optional string. */
  function OrElse(v: Option<string>, fallback: string): (r: string)
    ensures Truthy(v) ==> r == v.value
    ensures !Truthy(v) ==> r == fallback
  {
    if Truthy(v) then v.value else fallback
  }

  /** `String(v)`: what a template literal or `localStorage.setItem` makes of a value
      that may be `undefined`. */
  function JsString(v: Option<string>): string {
    if v.Some? then v.value else "undefined"
  }

  // ---------------------------------------------------------------- numbers

  /** Value of a digit in radices up to 36; 36 for every other character. */
  function CharValue(c: char): (n: nat)
    ensures n <= 36
    ensures IsDigit(c) <==> n < 10
  {
    if '0' <= c <= '9' then c as int - '0' as int
    else if 'a' <= c <= 'z' then c as int - 'a' as int + 10
    else if 'A' <= c <= 'Z' then c as int - 'A' as int + 10
    else 36
  }

  /** Value of a string of digits in the given radix, most significant first. */
  function RadixValue(ds: string, radix: nat): nat {
    if ds == [] then 0
    else RadixValue(ds[..|ds| - 1], radix) * radix + CharValue(ds[|ds| - 1])
  }

  function DigitChar(d: nat): (c: char)
    requires d < 10
    ensures IsDigit(c) && CharValue(c) == d
  {
    ('0' as int + d) as char
  }

  /** Decimal rendering of a non-negative integer, as a template literal gives it. */
  function NatToString(n: nat): (s: string)
    ensures s != []
    ensures forall i :: 0 <= i < |s| ==> IsDigit(s[i])
    ensures RadixValue(s, 10) == n
    ensures |s| > 1 ==> s[0] != '0'
  {
    if n < 10 then [DigitChar(n)]
    else
      var s := NatToString(n / 10) + [DigitChar(n % 10)];
      assert s[..|s| - 1] == NatToString(n / 10);
      s
  }

  /** The longest prefix of `s` made of digits of the radix. */
  function DigitPrefix(s: string, radix: nat): (p: string)
    ensures |p| <= |s| && p == s[..|p|]
    ensures forall i :: 0 <= i < |p| ==> CharValue(p[i]) < radix
    ensures |p| < |s| ==> CharValue(s[|p|]) >= radix
  {
    if s != [] && CharValue(s[0]) < radix then [s[0]] + DigitPrefix(s[1..], radix) else []
  }

  /** `parseInt(s)` without a radix argument: leading white space, an optional sign,
      a `0x` prefix selecting radix 16, then the longest run of digits; `None` is `NaN`. */
  function ParseInt(s: string): Option<int> {
    var t := TrimStart(s);
    var sign := if t != [] && t[0] == '-' then -1 else 1;
    var u := if t != [] && (t[0] == '-' || t[0] == '+') then t[1..] else t;
    match ParseDigits(u)
    case Some(n) => Some(sign * n)
    case None => None
  }

  /** What `parseInt` reads after the sign: a `0x` prefix selects radix 16, then the
      longest run of digits of the radix. */
  function ParseDigits(u: string): Option<nat> {
    var hex := |u| >= 2 && u[0] == '0' && (u[1] == 'x' || u[1] == 'X');
    var radix := if hex then 16 else 10;
    var ds := DigitPrefix(if hex then u[2..] else u, radix);
    if ds == [] then None else Some(RadixValue(ds, radix))
  }

  /** A non-empty run of decimal digits reads as its decimal value; a leading zero does
      not switch to another radix. */
  lemma ParseIntOfDigits(s: string)
    requires s != [] && forall i :: 0 <= i < |s| ==> IsDigit(s[i])
    ensures ParseInt(s) == Some(RadixValue(s, 10))
  {
    TrimStartOfDigit(s);
    ParseIntUnsigned(s);
    ParseDigitsOfDigits(s);
  }

  /** A digit in front is neither white space nor a sign. */
  lemma TrimStartOfDigit(s: string)
    requires s != [] && IsDigit(s[0])
    ensures TrimStart(s) == s && s[0] != '-' && s[0] != '+'
  {
    assert !IsSpace(s[0]);
  }

  /** Text with no white space or sign in front is read by `ParseDigits` alone. */
  lemma ParseIntUnsigned(s: string)
    requires s != [] && TrimStart(s) == s && s[0] != '-' && s[0] != '+'
    ensures ParseDigits(s).Some? ==> ParseInt(s) == Some(ParseDigits(s).value)
    ensures ParseDigits(s).None? ==> ParseInt(s).None?
  {
  }

  /** Without a `0x` prefix the digits are read in radix 10. */
  lemma ParseDigitsOfDigits(s: string)
    requires s != [] && forall i :: 0 <= i < |s| ==> IsDigit(s[i])
    ensures ParseDigits(s) == Some(RadixValue(s, 10))
  {
    var hex := |s| >= 2 && s[0] == '0' && (s[1] == 'x' || s[1] == 'X');
    assert !hex by {
      if |s| >= 2 {
        assert IsDigit(s[1]);
      }
    }
    DigitPrefixOfDigits(s);
    assert DigitPrefix(s, 10) == s;
  }

  lemma {:induction false} DigitPrefixOfDigits(s: string)
    requires forall i :: 0 <= i < |s| ==> IsDigit(s[i])
    ensures DigitPrefix(s, 10) == s
  {
    if s != [] {
      assert forall i :: 0 <= i < |s[1..]| ==> s[1..][i] == s[i + 1];
      DigitPrefixOfDigits(s[1..]);
    }
  }

  /** `NaN` for blank text and for text whose first visible character is neither a sign
      nor a digit; a negative result needs a leading minus sign. */
  lemma ParseIntNaN(s: string)
    ensures AllSpace(s) ==> ParseInt(s).None?
    ensures TrimStart(s) != [] && TrimStart(s)[0] != '+' && TrimStart(s)[0] != '-' && !IsDigit(TrimStart(s)[0]) ==>
              ParseInt(s).None?
    ensures ParseInt(s).Some? && ParseInt(s).value < 0 ==> TrimStart(s)[0] == '-'
  {
    TrimStartEmptyIff(s);
  }

  /** Reading back the decimal rendering of a number gives the number. */
  lemma ParseIntOfNatToString(n: nat)
    ensures ParseInt(NatToString(n)) == Some(n)
  {
    ParseIntOfDigits(NatToString(n));
  }
}
