/** The regular expressions the dashboard applies to a weather description, each written
    out as a matcher at one start position, and the leftmost-match search that
    `String.prototype.match` performs with them. Case-insensitive patterns compare
    ASCII-lower-cased text with a lower-case keyword. */
module WeatherPatterns {
  import opened JsText

  /** A match: where it starts, the number its capture group holds (`parseInt` of the
      captured digits) and where the whole match ends. */
  datatype Capture = Capture(start: nat, value: nat, end: nat)

  datatype Pattern =
    | KelvinNumber      // /\b(\d{3})\b/
    | CelsiusSuffix     // /\b(\d+)\s*°?C\b/i
    | DegreesWord       // /\b(\d+)\s*degrees?\b/i
    | TemperatureWord   // /temperature[^\d]*(\d+)/i
    | FahrenheitSuffix  // /\b(\d+)\s*F\b/i
    | ShortNumber       // /\b(\d{1,2})\b/g
    | CelsiusShort      // /(\d{1,2})°?C/i
    | CelsiusWordShort  // /(\d{1,2})\s*celsius/i
    | TempShort         // /temp[^\d]*(\d{1,2})/i

  predicate IsWordAt(s: string, p: int) {
    0 <= p < |s| && IsWordChar(s[p])
  }

  /** `\b` at position `p`: a word character on exactly one side. */
  predicate Boundary(s: string, p: int) {
    IsWordAt(s, p - 1) != IsWordAt(s, p)
  }

  /** The end of the run of digits starting at `i`. */
  function DigitRunEnd(s: string, i: nat): (j: nat)
    requires i <= |s|
    ensures i <= j <= |s|
    ensures forall k :: i <= k < j ==> IsDigit(s[k])
    ensures j == |s| || !IsDigit(s[j])
    decreases |s| - i
  {
    if i < |s| && IsDigit(s[i]) then DigitRunEnd(s, i + 1) else i
  }

  /** The end of the run of white space starting at `i`. */
  function SpaceRunEnd(s: string, i: nat): (j: nat)
    requires i <= |s|
    ensures i <= j <= |s|
    ensures forall k :: i <= k < j ==> IsSpace(s[k])
    ensures j == |s| || !IsSpace(s[j])
    decreases |s| - i
  {
    if i < |s| && IsSpace(s[i]) then SpaceRunEnd(s, i + 1) else i
  }

  /** The first digit at or after `i`, or `|s|` when there is none (`[^\d]*` followed by `\d`). */
  function FirstDigitFrom(s: string, i: nat): (j: nat)
    requires i <= |s|
    ensures i <= j <= |s|
    ensures forall k :: i <= k < j ==> !IsDigit(s[k])
    ensures j < |s| ==> IsDigit(s[j])
    decreases |s| - i
  {
    if i < |s| && !IsDigit(s[i]) then FirstDigitFrom(s, i + 1) else i
  }

  /** The lower-case `word` occurs at `i`, ignoring ASCII case. */
  predicate KeywordAt(s: string, i: nat, word: string) {
    i + |word| <= |s| && Lower(s[i..i + |word|]) == word
  }

  /** `parseInt` of the digits `s[i..j]`. */
  function Number(s: string, i: nat, j: nat): nat
    requires i <= j <= |s|
  {
    RadixValue(s[i..j], 10)
  }

  /** `\b(\d+)\s*` followed by a unit letter (`unit`, lower case), optionally preceded by
      `°` when `degreeSign` holds, and `\b`. Backtracking cannot help here: a shorter
      digit run is followed by a digit, a shorter space run by a space, so the greedy
      choice is the only candidate. */
  function UnitSuffixAt(s: string, i: nat, degreeSign: bool, unit: char): (r: Option<Capture>)
    requires i < |s|
    ensures r.Some? ==> r.value.start == i < r.value.end <= |s|
  {
    if Boundary(s, i) && IsDigit(s[i]) then
      var j := DigitRunEnd(s, i);
      var k := SpaceRunEnd(s, j);
      var u := if degreeSign && k < |s| && s[k] == '°' then k + 1 else k;
      if u < |s| && LowerChar(s[u]) == unit && Boundary(s, u + 1)
      then Some(Capture(i, Number(s, i, j), u + 1))
      else None
    else None
  }

  /** `\b(\d+)\s*degrees?\b`. */
  function DegreesAt(s: string, i: nat): (r: Option<Capture>)
    requires i < |s|
    ensures r.Some? ==> r.value.start == i < r.value.end <= |s|
  {
    if Boundary(s, i) && IsDigit(s[i]) then
      var j := DigitRunEnd(s, i);
      var k := SpaceRunEnd(s, j);
      if KeywordAt(s, k, "degree") then
        var m := k + 6;
        var e := if m < |s| && LowerChar(s[m]) == 's' then m + 1 else m;
        if Boundary(s, e) then Some(Capture(i, Number(s, i, j), e)) else None
      else None
    else None
  }

  /** `<word>[^\d]*(\d+)`, or with `(\d{1,2})` when `short` holds. */
  function KeywordNumberAt(s: string, i: nat, word: string, short: bool): (r: Option<Capture>)
    requires i < |s|
    ensures r.Some? ==> r.value.start == i < r.value.end <= |s|
  {
    if KeywordAt(s, i, word) then
      var d := FirstDigitFrom(s, i + |word|);
      if d < |s| then
        var e := if short then (if d + 1 < |s| && IsDigit(s[d + 1]) then d + 2 else d + 1)
                 else DigitRunEnd(s, d);
        Some(Capture(i, Number(s, d, e), e))
      else None
    else None
  }

  /** `\b(\d{1,2})\b`. */
  function ShortNumberAt(s: string, i: nat): (r: Option<Capture>)
    requires i < |s|
    ensures r.Some? ==> r.value.start == i < r.value.end <= |s|
  {
    if Boundary(s, i) && IsDigit(s[i]) then
      var j := DigitRunEnd(s, i);
      if j - i <= 2 && Boundary(s, j) then
        Some(Capture(i, Number(s, i, j), j))
      else None
    else None
  }

  /** What follows the digits in `(\d{1,2})°?C`: the end of `°?C` starting at `p`. */
  function CelsiusMarkEnd(s: string, p: nat): (e: Option<nat>)
    ensures e.Some? ==> p < e.value <= |s|
  {
    if p < |s| && s[p] == '°' then
      (if p + 1 < |s| && LowerChar(s[p + 1]) == 'c' then Some(p + 2) else None)
    else if p < |s| && LowerChar(s[p]) == 'c' then Some(p + 1)
    else None
  }

  /** What follows the digits in `(\d{1,2})\s*celsius`: the end of `\s*celsius` from `p`. */
  function CelsiusWordEnd(s: string, p: nat): (e: Option<nat>)
    requires p <= |s|
    ensures e.Some? ==> p < e.value <= |s|
  {
    var k := SpaceRunEnd(s, p);
    if KeywordAt(s, k, "celsius") then Some(k + 7) else None
  }

  /** `(\d{1,2})` followed by the unit text: two digits are tried first, then one. */
  function ShortDigitsThen(s: string, i: nat, word: bool): (r: Option<Capture>)
    requires i < |s|
    ensures r.Some? ==> r.value.start == i < r.value.end <= |s|
  {
    var two := if i + 1 < |s| && IsDigit(s[i]) && IsDigit(s[i + 1])
               then (if word then CelsiusWordEnd(s, i + 2) else CelsiusMarkEnd(s, i + 2))
               else None;
    var one := if IsDigit(s[i])
               then (if word then CelsiusWordEnd(s, i + 1) else CelsiusMarkEnd(s, i + 1))
               else None;
    if two.Some? then Some(Capture(i, Number(s, i, i + 2), two.value))
    else if one.Some? then Some(Capture(i, Number(s, i, i + 1), one.value))
    else None
  }

  /** Whether, and how, the pattern matches with its match starting at `i`. */
  function MatchAt(p: Pattern, s: string, i: nat): (r: Option<Capture>)
    ensures r.Some? ==> r.value.start == i < r.value.end <= |s|
  {
    if i >= |s| then None
    else match p
      case KelvinNumber =>
        if i + 3 <= |s| && Boundary(s, i) && IsDigit(s[i]) && IsDigit(s[i + 1]) && IsDigit(s[i + 2])
           && Boundary(s, i + 3)
        then Some(Capture(i, Number(s, i, i + 3), i + 3))
        else None
      case CelsiusSuffix => UnitSuffixAt(s, i, true, 'c')
      case DegreesWord => DegreesAt(s, i)
      case TemperatureWord => KeywordNumberAt(s, i, "temperature", false)
      case FahrenheitSuffix => UnitSuffixAt(s, i, false, 'f')
      case ShortNumber => ShortNumberAt(s, i)
      case CelsiusShort => ShortDigitsThen(s, i, false)
      case CelsiusWordShort => ShortDigitsThen(s, i, true)
      case TempShort => KeywordNumberAt(s, i, "temp", true)
  }

  /** `s.match(pattern)` for a pattern without the `g` flag, searching from `from`:
      the match with the leftmost start. */
  function FirstMatch(p: Pattern, s: string, from: nat): (r: Option<Capture>)
    ensures r.Some? ==> from <= r.value.start && MatchAt(p, s, r.value.start) == r
    ensures r.Some? ==> forall k :: from <= k < r.value.start ==> MatchAt(p, s, k).None?
    ensures r.None? ==> forall k :: from <= k ==> MatchAt(p, s, k).None?
    decreases |s| - from
  {
    if from >= |s| then None
    else
      var m := MatchAt(p, s, from);
      if m.Some? then m else FirstMatch(p, s, from + 1)
  }

  /** A matcher that, wherever it finds a match, finds one starting there and ending
      after it. */
  ghost predicate Advancing(at: nat -> Option<Capture>) {
    forall i: nat :: at(i).Some? ==> at(i).value.start == i < at(i).value.end
  }

  /** The matches of `at` among the start positions below `n`, left to right, each search
      resuming where the previous match ended. */
  function Scan(at: nat -> Option<Capture>, n: nat, from: nat): (r: seq<Capture>)
    requires Advancing(at)
    ensures forall k :: 0 <= k < |r| ==> from <= r[k].start && at(r[k].start) == Some(r[k])
    decreases n - from
  {
    if from >= n then []
    else match at(from)
      case Some(c) => [c] + Scan(at, n, c.end)
      case None => Scan(at, n, from + 1)
  }

  /** `at` finds nothing in `[lo, hi)`. */
  ghost predicate NoneIn(at: nat -> Option<Capture>, lo: nat, hi: nat) {
    forall j :: lo <= j < hi ==> at(j).None?
  }

  /** The scan is complete and runs left to right: nothing is found before the first
      match, between two consecutive matches or after the last one, and the matches do
      not overlap. */
  lemma {:induction false} ScanLeftToRight(at: nat -> Option<Capture>, n: nat, from: nat)
    requires Advancing(at)
    ensures Scan(at, n, from) == [] ==> NoneIn(at, from, n)
    ensures Scan(at, n, from) != [] ==> NoneIn(at, from, Scan(at, n, from)[0].start)
    ensures forall k :: 0 <= k < |Scan(at, n, from)| - 1 ==>
              Scan(at, n, from)[k].end <= Scan(at, n, from)[k + 1].start
              && NoneIn(at, Scan(at, n, from)[k].end, Scan(at, n, from)[k + 1].start)
    ensures Scan(at, n, from) != [] ==> NoneIn(at, Scan(at, n, from)[|Scan(at, n, from)| - 1].end, n)
    decreases n - from
  {
    if from < n {
      match at(from)
      case Some(c) =>
        ScanLeftToRight(at, n, c.end);
        var rest := Scan(at, n, c.end);
        var r := Scan(at, n, from);
        assert r == [c] + rest;
        forall k | 0 <= k < |r| - 1
          ensures r[k].end <= r[k + 1].start && NoneIn(at, r[k].end, r[k + 1].start)
        {
          if k > 0 {
            assert r[k] == rest[k - 1] && r[k + 1] == rest[k];
          }
        }
      case None =>
        ScanLeftToRight(at, n, from + 1);
    }
  }

  function Matcher(p: Pattern, s: string): (at: nat -> Option<Capture>)
    ensures Advancing(at)
  {
    (i: nat) => MatchAt(p, s, i)
  }

  /** `s.match(pattern)` for a pattern with the `g` flag: every match, left to right, each
      search resuming where the previous match ended. */
  function AllMatches(p: Pattern, s: string, from: nat): (r: seq<Capture>)
    ensures forall k :: 0 <= k < |r| ==> from <= r[k].start && MatchAt(p, s, r[k].start) == Some(r[k])
  {
    Scan(Matcher(p, s), |s|, from)
  }

  /** One step of the global search: a match at `from` is taken and the search resumes at
      its end; otherwise the search moves on by one position. */
  lemma AllMatchesStep(p: Pattern, s: string, from: nat)
    requires from < |s|
    ensures MatchAt(p, s, from).Some? ==>
              AllMatches(p, s, from) == [MatchAt(p, s, from).value] + AllMatches(p, s, MatchAt(p, s, from).value.end)
    ensures MatchAt(p, s, from).None? ==> AllMatches(p, s, from) == AllMatches(p, s, from + 1)
  {
    assert Matcher(p, s)(from) == MatchAt(p, s, from);
  }

  /** No match of `p` starts in `[lo, hi)`: `MatchAt(p, s, j)` is `None` there. */
  ghost predicate NoMatchIn(p: Pattern, s: string, lo: nat, hi: nat) {
    NoneIn(Matcher(p, s), lo, hi)
  }

  /** The global search misses no match: nothing matches before the first capture,
      between two consecutive captures or after the last one, and the captures do not
      overlap. */
  lemma AllMatchesLeftToRight(p: Pattern, s: string, from: nat)
    ensures AllMatches(p, s, from) == [] ==> NoMatchIn(p, s, from, |s|)
    ensures AllMatches(p, s, from) != [] ==> NoMatchIn(p, s, from, AllMatches(p, s, from)[0].start)
    ensures forall k :: 0 <= k < |AllMatches(p, s, from)| - 1 ==>
              AllMatches(p, s, from)[k].end <= AllMatches(p, s, from)[k + 1].start
              && NoMatchIn(p, s, AllMatches(p, s, from)[k].end, AllMatches(p, s, from)[k + 1].start)
    ensures AllMatches(p, s, from) != [] ==> NoMatchIn(p, s, AllMatches(p, s, from)[|AllMatches(p, s, from)| - 1].end, |s|)
  {
    ScanLeftToRight(Matcher(p, s), |s|, from);
  }

  /** A short number is a whole run of digits, so no other short number starts inside it. */
  lemma ShortNumberNoInner(s: string, i: nat, j: nat)
    requires MatchAt(ShortNumber, s, i).Some?
    requires i < j < MatchAt(ShortNumber, s, i).value.end
    ensures MatchAt(ShortNumber, s, j).None?
  {
    var e := DigitRunEnd(s, i);
    assert IsDigit(s[j - 1]) && IsDigit(s[j]);
    assert !Boundary(s, j);
  }

  function Values(cs: seq<Capture>): (vs: seq<nat>)
    ensures |vs| == |cs|
    ensures forall k :: 0 <= k < |cs| ==> vs[k] == cs[k].value
  {
    seq(|cs|, k requires 0 <= k < |cs| => cs[k].value)
  }
}
