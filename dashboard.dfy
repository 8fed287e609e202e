/** The dashboard's interpretation of a weather description (temperature, condition,
    icon) and its two request helpers, the authenticated one and the public one. */
module Dashboard {
  import opened JsText
  import opened Lists
  import opened WeatherPatterns
  import opened WebApi
  import opened BrowserStorage

  // ------------------------------------------------------------ temperature

  /** `Math.round(num / den)` for a positive denominator: the nearest integer, halves up. */
  function RoundDiv(num: int, den: int): int
    requires den > 0
  {
    (2 * num + den) / (2 * den)
  }

  /** `Math.round(k - 273.15)`, written over hundredths. */
  function KelvinToCelsius(k: int): (c: int)
    ensures c == k - 273
  {
    RoundDiv(100 * k - 27315, 100)
  }

  /** `Math.round((t - 32) * 5/9)`: the integer nearest to the Celsius value. */
  function FahrenheitToCelsius(t: int): (c: int)
    ensures 18 * c - 9 <= 10 * (t - 32) < 18 * c + 9
  {
    RoundDiv((t - 32) * 5, 9)
  }

  /** The text `pattern.toString()` yields for each regular expression of the page. */
  function RegexSource(p: Pattern): string {
    match p
    case KelvinNumber => "/\\b(\\d{3})\\b/"
    case CelsiusSuffix => "/\\b(\\d+)\\s*°?C\\b/i"
    case DegreesWord => "/\\b(\\d+)\\s*degrees?\\b/i"
    case TemperatureWord => "/temperature[^\\d]*(\\d+)/i"
    case FahrenheitSuffix => "/\\b(\\d+)\\s*F\\b/i"
    case ShortNumber => "/\\b(\\d{1,2})\\b/g"
    case CelsiusShort => "/(\\d{1,2})°?C/i"
    case CelsiusWordShort => "/(\\d{1,2})\\s*celsius/i"
    case TempShort => "/temp[^\\d]*(\\d{1,2})/i"
  }

  /** The patterns `extractTemperatureFromDescription` tries after the Kelvin check, in order. */
  const TemperaturePatterns: seq<Pattern> := [CelsiusSuffix, DegreesWord, TemperatureWord, FahrenheitSuffix]

  /** The patterns `extractRealisticTemperature` tries, in order. */
  const RealisticPatterns: seq<Pattern> := [CelsiusShort, CelsiusWordShort, TempShort]

  /** The conversion in the pattern loop: `pattern.toString().includes('F') && temp > 50`. */
  function Converted(p: Pattern, t: nat): int {
    if Includes(RegexSource(p), "F") && t > 50 then FahrenheitToCelsius(t) else t
  }

  /** A text without the letter `F` does not include "F". */
  lemma NoLetterF(src: string)
    requires forall i :: 0 <= i < |src| ==> src[i] != 'F'
    ensures !Includes(src, "F")
  {
    forall i
      ensures !OccursAt(src, "F", i)
    {
      if 0 <= i && i + 1 <= |src| {
        assert src[i..i + 1][0] == src[i];
      }
    }
  }

  /** Of the four patterns, the test on the pattern's text singles out the Fahrenheit one. */
  lemma OnlyFahrenheitMentionsF(p: Pattern)
    requires p in TemperaturePatterns
    ensures Includes(RegexSource(p), "F") <==> p == FahrenheitSuffix
  {
    var src := RegexSource(p);
    if p == FahrenheitSuffix {
      assert src[11..12] == "F";
      assert OccursAt(src, "F", 11);
    } else {
      assert forall i :: 0 <= i < |src| ==> src[i] != 'F';
      NoLetterF(src);
    }
  }

  /** The reading of a three-digit word-bounded number as Kelvin: only the first such
      number is looked at, and only a value strictly between 250 and 320 counts. */
  function KelvinReading(d: string): (r: Option<int>)
    ensures r.Some? ==> -22 <= r.value <= 46
  {
    match FirstMatch(KelvinNumber, d, 0)
    case Some(c) => if 250 < c.value < 320 then Some(KelvinToCelsius(c.value)) else None
    case None => None
  }

  /** What one pass of the pattern loop finds: the pattern, if it matches anywhere, with
      the number of its first match. */
  function PatternHit(d: string): Pattern -> Option<(Pattern, nat)> {
    p => if FirstMatch(p, d, 0).Some? then Some((p, FirstMatch(p, d, 0).value.value)) else None
  }

  /** The first pattern of `patterns` that matches anywhere decides; the loop converts its
      number and stops. */
  function PatternReading(patterns: seq<Pattern>, d: string): Option<(Pattern, nat)> {
    FirstHit(patterns, PatternHit(d), 0)
  }

  /** The filter of the fallback: `temp >= -20 && temp <= 50`. */
  predicate PlausibleTemperature(t: nat) {
    -20 <= t <= 50
  }

  /** `numberMatches.map(Number).filter(...)[0]`: the first plausible value, if any. */
  function FirstPlausible(cs: seq<Capture>): (r: Option<int>)
    ensures r.Some? ==> 0 <= r.value <= 50
  {
    var temps := Filter(Values(cs), PlausibleTemperature);
    if temps != [] then
      assert temps[0] in temps;
      Some(temps[0])
    else None
  }

  /** The value taken is the first one that is at most 50, and there is none exactly
      when every value is above 50. */
  lemma FirstPlausibleIsFirst(cs: seq<Capture>)
    ensures FirstPlausible(cs).Some? ==>
      exists i :: 0 <= i < |cs| && cs[i].value == FirstPlausible(cs).value && forall j :: 0 <= j < i ==> cs[j].value > 50
    ensures FirstPlausible(cs).None? <==> forall i :: 0 <= i < |cs| ==> cs[i].value > 50
  {
    var vs := Values(cs);
    var temps := Filter(vs, PlausibleTemperature);
    if temps != [] {
      FilterHead(vs, PlausibleTemperature);
      var i :| 0 <= i < |vs| && temps[0] == vs[i] && PlausibleTemperature(vs[i])
               && forall j :: 0 <= j < i ==> !PlausibleTemperature(vs[j]);
      assert cs[i].value == FirstPlausible(cs).value;
    } else {
      forall i | 0 <= i < |cs|
        ensures cs[i].value > 50
      {
        assert vs[i] in vs;
      }
    }
  }

  /** The last resort: the first one- or two-digit word-bounded number between -20 and 50. */
  function FallbackReading(d: string): (r: Option<int>)
    ensures r.Some? ==> 0 <= r.value <= 50
  {
    FirstPlausible(AllMatches(ShortNumber, d, 0))
  }

  /** A short number starts at `i` and the fallback's filter keeps its value. */
  predicate SmallShortAt(d: string, i: nat) {
    MatchAt(ShortNumber, d, i).Some? && MatchAt(ShortNumber, d, i).value.value <= 50
  }

  /** The fallback read position by position: the value of the first short number at or
      after `from` that is at most 50. */
  function FirstSmallNumber(d: string, from: nat): Option<int>
    decreases |d| - from
  {
    if from >= |d| then None
    else if SmallShortAt(d, from) then Some(MatchAt(ShortNumber, d, from).value.value)
    else FirstSmallNumber(d, from + 1)
  }

  lemma {:induction false} FirstSmallNumberIsFirst(d: string, from: nat)
    ensures FirstSmallNumber(d, from).None? <==> forall i :: from <= i < |d| ==> !SmallShortAt(d, i)
    ensures FirstSmallNumber(d, from).Some? ==>
      exists i :: from <= i < |d| && SmallShortAt(d, i) && MatchAt(ShortNumber, d, i).value.value == FirstSmallNumber(d, from).value
                  && forall j :: from <= j < i ==> !SmallShortAt(d, j)
    decreases |d| - from
  {
    if from < |d| {
      if !SmallShortAt(d, from) {
        FirstSmallNumberIsFirst(d, from + 1);
        if FirstSmallNumber(d, from).Some? {
          var i :| from + 1 <= i < |d| && SmallShortAt(d, i)
                   && MatchAt(ShortNumber, d, i).value.value == FirstSmallNumber(d, from).value
                   && forall j :: from + 1 <= j < i ==> !SmallShortAt(d, j);
          assert forall j :: from <= j < i ==> !SmallShortAt(d, j);
        }
      }
    }
  }

  /** Positions where no short number starts do not change the answer. */
  lemma {:induction false} FirstSmallNumberSkip(d: string, a: nat, b: nat)
    requires a <= b
    requires forall j :: a <= j < b ==> MatchAt(ShortNumber, d, j).None?
    ensures FirstSmallNumber(d, a) == FirstSmallNumber(d, b)
    decreases b - a
  {
    if a < b && a < |d| {
      FirstSmallNumberSkip(d, a + 1, b);
    }
  }

  lemma FirstPlausibleCons(c: Capture, rest: seq<Capture>)
    ensures FirstPlausible([c] + rest) == if c.value <= 50 then Some(c.value) else FirstPlausible(rest)
  {
    assert Values([c] + rest) == [c.value] + Values(rest);
    assert ([c.value] + Values(rest))[1..] == Values(rest);
  }

  lemma {:induction false} FallbackFrom(d: string, from: nat)
    ensures FirstPlausible(AllMatches(ShortNumber, d, from)) == FirstSmallNumber(d, from)
    decreases |d| - from
  {
    if from < |d| {
      var m := MatchAt(ShortNumber, d, from);
      AllMatchesStep(ShortNumber, d, from);
      if m.Some? {
        FallbackFrom(d, m.value.end);
        FirstPlausibleCons(m.value, AllMatches(ShortNumber, d, m.value.end));
        FirstSmallNumberAfterMatch(d, from);
      } else {
        FallbackFrom(d, from + 1);
      }
    }
  }

  /** A short number above 50 is passed over, digits and all. */
  lemma FirstSmallNumberAfterMatch(d: string, from: nat)
    requires MatchAt(ShortNumber, d, from).Some?
    ensures var c := MatchAt(ShortNumber, d, from).value;
      FirstSmallNumber(d, from) == if c.value <= 50 then Some(c.value) else FirstSmallNumber(d, c.end)
  {
    var c := MatchAt(ShortNumber, d, from).value;
    if c.value > 50 {
      forall j | from + 1 <= j < c.end
        ensures MatchAt(ShortNumber, d, j).None?
      {
        ShortNumberNoInner(d, from, j);
      }
      FirstSmallNumberSkip(d, from + 1, c.end);
    }
  }

  /** The fallback takes the first one- or two-digit word-bounded number of the text whose
      value is at most 50, and finds nothing exactly when there is none. */
  lemma FallbackReadingIsFirstSmall(d: string)
    ensures FallbackReading(d) == FirstSmallNumber(d, 0)
    ensures FallbackReading(d).None? <==> forall i :: 0 <= i < |d| ==> !SmallShortAt(d, i)
    ensures FallbackReading(d).Some? ==>
      exists i :: 0 <= i < |d| && SmallShortAt(d, i) && MatchAt(ShortNumber, d, i).value.value == FallbackReading(d).value
                  && forall j :: 0 <= j < i ==> !SmallShortAt(d, j)
  {
    FallbackFrom(d, 0);
    FirstSmallNumberIsFirst(d, 0);
  }

  /** Only the Fahrenheit pattern converts, and only a reading above 50. */
  lemma ConvertedOnlyFahrenheit(p: Pattern, t: nat)
    requires p in TemperaturePatterns
    ensures Converted(p, t) == if p == FahrenheitSuffix && t > 50 then FahrenheitToCelsius(t) else t
  {
    OnlyFahrenheitMentionsF(p);
  }

  /** The pattern loop reads nothing exactly when no pattern matches anywhere. */
  lemma PatternReadingNoneIff(ps: seq<Pattern>, d: string)
    ensures PatternReading(ps, d).None? <==> forall k :: 0 <= k < |ps| ==> FirstMatch(ps[k], d, 0).None?
  {
    FirstHitNoneIff(ps, PatternHit(d), 0);
  }

  /** The first pattern that matches decides, with the number of its first match. */
  lemma PatternReadingFirst(ps: seq<Pattern>, d: string, k: nat)
    requires k < |ps| && FirstMatch(ps[k], d, 0).Some?
    requires forall j :: 0 <= j < k ==> FirstMatch(ps[j], d, 0).None?
    ensures PatternReading(ps, d) == Some((ps[k], FirstMatch(ps[k], d, 0).value.value))
  {
    FirstHitIsFirst(ps, PatternHit(d), 0, k);
  }

  /** What `extractTemperatureFromDescription` returns: a Kelvin reading wins, then the
      first pattern that matches, then the first plausible short number, then 25. No
      reading is below -22. */
  function DescriptionTemperature(d: string): (t: int)
    ensures t >= -22
    ensures d == "" ==> t == 25
    ensures d != "" && KelvinReading(d).Some? ==> t == KelvinReading(d).value
    ensures d != "" && KelvinReading(d).None? && PatternReading(TemperaturePatterns, d).Some? ==>
              t == Converted(PatternReading(TemperaturePatterns, d).value.0, PatternReading(TemperaturePatterns, d).value.1)
    ensures d != "" && KelvinReading(d).None? && PatternReading(TemperaturePatterns, d).None? ==>
              t == (if FallbackReading(d).Some? then FallbackReading(d).value else 25)
  {
    if d == "" then 25
    else match KelvinReading(d)
      case Some(t) => t
      case None =>
        match PatternReading(TemperaturePatterns, d)
        case Some((p, t)) => Converted(p, t)
        case None =>
          match FallbackReading(d)
          case Some(t) => t
          case None => 25
  }

  method ExtractTemperatureFromDescription(description: string) returns (temp: int)
    ensures temp == DescriptionTemperature(description)
  {
    if description == "" {
      return 25;
    }
    var kelvinMatch := FirstMatch(KelvinNumber, description, 0);
    if kelvinMatch.Some? {
      var kelvinTemp := kelvinMatch.value.value;
      if 250 < kelvinTemp < 320 {
        return KelvinToCelsius(kelvinTemp);
      }
    }
    var patterns := TemperaturePatterns;
    for n := 0 to |patterns|
      invariant PatternReading(patterns, description) == FirstHit(patterns, PatternHit(description), n)
    {
      var m := FirstMatch(patterns[n], description, 0);
      if m.Some? {
        temp := m.value.value;
        if Includes(RegexSource(patterns[n]), "F") && temp > 50 {
          temp := FahrenheitToCelsius(temp);
        }
        return temp;
      }
    }
    var possibleTemps := FallbackReading(description);
    if possibleTemps.Some? {
      return possibleTemps.value;
    }
    return 25;
  }

  /** What one pass of the realistic loop finds: the number of the pattern's first match,
      if it lies in [-20, 50]. */
  function RealisticHit(d: string): Pattern -> Option<int> {
    p => if FirstMatch(p, d, 0).Some? && -20 <= FirstMatch(p, d, 0).value.value <= 50
         then Some(FirstMatch(p, d, 0).value.value) else None
  }

  /** The first pattern whose first match lies in [-20, 50] decides; a match out of that
      range passes on to the next pattern. */
  function RealisticReading(patterns: seq<Pattern>, d: string): (r: Option<int>)
    ensures r.Some? ==> -20 <= r.value <= 50
  {
    FirstHitFound(patterns, RealisticHit(d), 0);
    FirstHit(patterns, RealisticHit(d), 0)
  }

  predicate RealisticMatch(p: Pattern, d: string) {
    FirstMatch(p, d, 0).Some? && FirstMatch(p, d, 0).value.value <= 50
  }

  /** The realistic loop reads nothing exactly when no pattern's first match is in range. */
  lemma RealisticReadingNoneIff(ps: seq<Pattern>, d: string)
    ensures RealisticReading(ps, d).None? <==> forall k :: 0 <= k < |ps| ==> !RealisticMatch(ps[k], d)
  {
    FirstHitNoneIff(ps, RealisticHit(d), 0);
  }

  /** The first pattern whose first match is in range decides. */
  lemma RealisticReadingFirst(ps: seq<Pattern>, d: string, k: nat)
    requires k < |ps| && RealisticMatch(ps[k], d)
    requires forall j :: 0 <= j < k ==> !RealisticMatch(ps[j], d)
    ensures RealisticReading(ps, d) == Some(FirstMatch(ps[k], d, 0).value.value)
  {
    FirstHitIsFirst(ps, RealisticHit(d), 0, k);
  }

  /** What `extractRealisticTemperature` returns; `None` is `null`. */
  function RealisticTemperature(d: string): (r: Option<int>)
    ensures r.Some? ==> -20 <= r.value <= 50
  {
    if d == "" then Some(25) else RealisticReading(RealisticPatterns, d)
  }

  method ExtractRealisticTemperature(description: string) returns (temp: Option<int>)
    ensures temp == RealisticTemperature(description)
  {
    if description == "" {
      return Some(25);
    }
    var patterns := RealisticPatterns;
    for n := 0 to |patterns|
      invariant RealisticReading(patterns, description) == FirstHit(patterns, RealisticHit(description), n)
    {
      var m := FirstMatch(patterns[n], description, 0);
      if m.Some? {
        var t := m.value.value;
        if -20 <= t <= 50 {
          return Some(t);
        }
      }
    }
    return None;
  }

  /** The range check of `processWeatherResponse`: a reading outside [-50, 60] is replaced
      by `extractRealisticTemperature(description) || 25`. */
  function CheckedTemperature(temperature: int, d: string): (t: int)
    ensures -50 <= t <= 60
    ensures -50 <= temperature <= 60 ==> t == temperature
    ensures !(-50 <= temperature <= 60) && RealisticTemperature(d).Some? && RealisticTemperature(d).value != 0 ==>
              t == RealisticTemperature(d).value
    ensures !(-50 <= temperature <= 60) && (RealisticTemperature(d).None? || RealisticTemperature(d) == Some(0)) ==>
              t == 25
  {
    if temperature > 60 || temperature < -50 then
      match RealisticTemperature(d)
      case Some(v) => if v != 0 then v else 25
      case None => 25
    else temperature
  }

  // ------------------------------------------------------------ condition and icon

  /** `extractWeatherCondition`: `"Clear"` for an empty description, otherwise the label
      of the first rule, in priority order, one of whose keywords occurs in the
      lower-cased description. */
  function WeatherCondition(description: string): (condition: string)
    ensures condition in IconTable
    ensures description == "" ==> condition == "Clear"
    ensures description != "" ==> condition == FirstRuleLabel(ConditionRules, Lower(description))
  {
    LoweredConditionByPriority(Lower(description));
    if description == "" then "Clear" else LoweredCondition(Lower(description))
  }

  /** The keyword tests of `extractWeatherCondition` on the lower-cased description. */
  function LoweredCondition(desc: string): (condition: string)
    ensures condition in IconTable
  {
    if Includes(desc, "rain") || Includes(desc, "drizzle") || Includes(desc, "shower") then "Rainy"
    else if Includes(desc, "cloud") || Includes(desc, "overcast") then "Cloudy"
    else if Includes(desc, "sun") || Includes(desc, "clear") || Includes(desc, "fair") then "Sunny"
    else if Includes(desc, "snow") || Includes(desc, "flurries") || Includes(desc, "blizzard") then "Snow"
    else if Includes(desc, "storm") || Includes(desc, "thunder") || Includes(desc, "lightning") then "Thunderstorm"
    else if Includes(desc, "fog") || Includes(desc, "mist") || Includes(desc, "haze") then "Foggy"
    else if Includes(desc, "wind") || Includes(desc, "breezy") then "Windy"
    else "Clear"
  }

  /** The classifier's rules as a table, highest priority first. */
  const ConditionRules: seq<(string, seq<string>)> := [
    ("Rainy", ["rain", "drizzle", "shower"]),
    ("Cloudy", ["cloud", "overcast"]),
    ("Sunny", ["sun", "clear", "fair"]),
    ("Snow", ["snow", "flurries", "blizzard"]),
    ("Thunderstorm", ["storm", "thunder", "lightning"]),
    ("Foggy", ["fog", "mist", "haze"]),
    ("Windy", ["wind", "breezy"])
  ]

  predicate AnyKeyword(desc: string, keywords: seq<string>) {
    keywords != [] && (Includes(desc, keywords[0]) || AnyKeyword(desc, keywords[1..]))
  }

  /** The label of the first rule one of whose keywords occurs, `"Clear"` when none does. */
  function FirstRuleLabel(rules: seq<(string, seq<string>)>, desc: string): string {
    if rules == [] then "Clear"
    else if AnyKeyword(desc, rules[0].1) then rules[0].0
    else FirstRuleLabel(rules[1..], desc)
  }

  lemma AnyOfTwo(desc: string, a: string, b: string)
    ensures AnyKeyword(desc, [a, b]) <==> Includes(desc, a) || Includes(desc, b)
  {
    assert [a, b][1..] == [b];
    assert AnyKeyword(desc, [b]) <==> Includes(desc, b) by {
      assert [b][1..] == [];
    }
  }

  lemma AnyOfThree(desc: string, a: string, b: string, c: string)
    ensures AnyKeyword(desc, [a, b, c]) <==> Includes(desc, a) || Includes(desc, b) || Includes(desc, c)
  {
    assert [a, b, c][1..] == [b, c];
    AnyOfTwo(desc, b, c);
  }

  /** The classifier is the priority table read top to bottom on the lower-cased text. */
  lemma LoweredConditionByPriority(desc: string)
    ensures LoweredCondition(desc) == FirstRuleLabel(ConditionRules, desc)
  {
    var r0 := ConditionRules;
    var r1 := r0[1..];
    var r2 := r1[1..];
    var r3 := r2[1..];
    var r4 := r3[1..];
    var r5 := r4[1..];
    var r6 := r5[1..];
    assert r6[1..] == [];
    assert FirstRuleLabel(r6, desc) == if AnyKeyword(desc, r6[0].1) then "Windy" else "Clear";
    AnyOfTwo(desc, "wind", "breezy");
    assert FirstRuleLabel(r5, desc) == if AnyKeyword(desc, r5[0].1) then "Foggy" else FirstRuleLabel(r6, desc);
    AnyOfThree(desc, "fog", "mist", "haze");
    assert FirstRuleLabel(r4, desc) == if AnyKeyword(desc, r4[0].1) then "Thunderstorm" else FirstRuleLabel(r5, desc);
    AnyOfThree(desc, "storm", "thunder", "lightning");
    assert FirstRuleLabel(r3, desc) == if AnyKeyword(desc, r3[0].1) then "Snow" else FirstRuleLabel(r4, desc);
    AnyOfThree(desc, "snow", "flurries", "blizzard");
    assert FirstRuleLabel(r2, desc) == if AnyKeyword(desc, r2[0].1) then "Sunny" else FirstRuleLabel(r3, desc);
    AnyOfThree(desc, "sun", "clear", "fair");
    assert FirstRuleLabel(r1, desc) == if AnyKeyword(desc, r1[0].1) then "Cloudy" else FirstRuleLabel(r2, desc);
    AnyOfTwo(desc, "cloud", "overcast");
    assert FirstRuleLabel(r0, desc) == if AnyKeyword(desc, r0[0].1) then "Rainy" else FirstRuleLabel(r1, desc);
    AnyOfThree(desc, "rain", "drizzle", "shower");
  }

  /** Rain outranks thunder: the first rule that fires wins. */
  lemma RainOutranksThunder()
    ensures WeatherCondition("thunder and rain") == "Rainy"
  {
    var d := "thunder and rain";
    assert Lower(d) == d;
    assert d[12..16] == "rain";
    assert OccursAt(Lower(d), "rain", 12);
  }

  const Sun := "\U{2600}\U{FE0F}"

  /** The icon table of `getWeatherIcon`. */
  const IconTable: map<string, string> := map[
    "Sunny" := Sun,
    "Cloudy" := "\U{2601}\U{FE0F}",
    "Rainy" := "\U{1F327}\U{FE0F}",
    "Snow" := "\U{2744}\U{FE0F}",
    "Thunderstorm" := "\U{26C8}\U{FE0F}",
    "Foggy" := "\U{1F32B}\U{FE0F}",
    "Windy" := "\U{1F4A8}",
    "Clear" := Sun
  ]

  /** `icons[condition] || '☀️'`: every icon of the table is a non-empty string, so the
      fallback serves unknown conditions only. */
  function WeatherIcon(condition: string): (icon: string)
    ensures icon in IconTable.Values
    ensures condition in IconTable ==> icon == IconTable[condition]
  {
    if condition in IconTable then IconTable[condition]
    else
      assert IconTable["Clear"] == Sun;
      Sun
  }

  /** The sun is shown exactly for the two fair-weather labels and for unknown text. */
  lemma SunIconIff(condition: string)
    ensures WeatherIcon(condition) == Sun <==> condition !in {"Cloudy", "Rainy", "Snow", "Thunderstorm", "Foggy", "Windy"}
  {
  }

  // ------------------------------------------------------------ processWeatherResponse

  datatype CurrentWeather = CurrentWeather(description: string, condition: string, temperature: int, icon: string)
  datatype WeatherReport = WeatherReport(city: string, current: CurrentWeather)

  /** `processWeatherResponse`: `description` is `current_weather?.description`. */
  function ProcessWeatherResponse(description: Option<string>, city: string): (w: WeatherReport)
    ensures -50 <= w.current.temperature <= 60
    ensures w.city == city
    ensures w.current.description == OrElse(description, "")
    ensures w.current.condition in IconTable && w.current.icon == IconTable[w.current.condition]
    ensures w.current.temperature == CheckedTemperature(DescriptionTemperature(OrElse(description, "")), OrElse(description, ""))
    ensures w.current.condition == WeatherCondition(OrElse(description, ""))
  {
    var d := OrElse(description, "");
    var temperature := CheckedTemperature(DescriptionTemperature(d), d);
    var condition := WeatherCondition(d);
    WeatherReport(city, CurrentWeather(d, condition, temperature, WeatherIcon(condition)))
  }

  // ------------------------------------------------------------ request helpers

  const ApiBase := "http://127.0.0.1:8000"

  datatype RequestResult =
    | NoToken                 // thrown before any fetch
    | SessionExpired          // 401 on an authenticated call; the token keys are removed
    | HttpError(status: nat)  // any other status outside 200..299
    | Response(status: nat)   // `response` is returned

  /** The message of the error `makeAuthenticatedRequest` throws; empty when it returns. */
  function FailureMessage(r: RequestResult): (m: string)
    ensures m == "" <==> r.Response?
  {
    match r
    case NoToken => "No authentication token found. Please log in again."
    case SessionExpired => "Session expired. Please log in again."
    case HttpError(status) => StatusError(status)
    case Response(_) => ""
  }

  /** The thrown message tells the failures apart, down to the HTTP status. */
  lemma FailureMessageIdentifies(a: RequestResult, b: RequestResult)
    requires !a.Response? && !b.Response?
    requires FailureMessage(a) == FailureMessage(b)
    ensures a == b
  {
    var m := FailureMessage(a);
    if a.HttpError? || b.HttpError? {
      assert m[0] == 'H';
      assert a.HttpError? && b.HttpError?;
      assert Some(a.status) == ParseInt(m[20..]) == Some(b.status);
    }
  }

  /** The outcome `makeAuthenticatedRequest` reaches for a token (or none) and the status
      the server would answer with. */
  function AuthRequestResult(requiresAuth: bool, token: Option<string>, status: nat): (r: RequestResult)
    ensures r == NoToken <==> requiresAuth && token.None?
    ensures r == SessionExpired <==> requiresAuth && token.Some? && status == 401
    ensures r.Response? <==> (!requiresAuth || token.Some?) && IsOk(status)
    ensures r.HttpError? ==> !IsOk(status) && r.status == status
    ensures r.Response? ==> r.status == status
  {
    if requiresAuth && token.None? then NoToken
    else if requiresAuth && status == 401 then SessionExpired
    else if !IsOk(status) then HttpError(status)
    else Response(status)
  }

  /** The headers of the request the authenticated helper issues. */
  function RequestHeaders(optionHeaders: map<string, string>, requiresAuth: bool, token: Option<string>): (h: map<string, string>)
    requires requiresAuth ==> token.Some?
    ensures requiresAuth ==> "Authorization" in h && h["Authorization"] == "Bearer " + token.value
    ensures !requiresAuth ==> h == JsonHeaders(optionHeaders)
    ensures h.Keys == JsonHeaders(optionHeaders).Keys + (if requiresAuth then {"Authorization"} else {})
    ensures forall k :: k in h && k != "Authorization" ==> h[k] == JsonHeaders(optionHeaders)[k]
  {
    if requiresAuth then JsonHeaders(optionHeaders)["Authorization" := "Bearer " + token.value]
    else JsonHeaders(optionHeaders)
  }

  /** `makeAuthenticatedRequest(endpoint, options, requiresAuth)`; `status` is what the
      server would answer if the request were issued. */
  method MakeAuthenticatedRequest(storage: LocalStorage, endpoint: string, optionHeaders: map<string, string>,
                                  requiresAuth: bool, status: nat)
    returns (sent: Option<Fetch>, result: RequestResult)
    modifies storage
    ensures result == AuthRequestResult(requiresAuth, AuthToken(old(storage.items)), status)
    ensures sent.None? <==> result == NoToken
    ensures sent.Some? ==> sent.value == Fetch(ApiBase + endpoint, RequestHeaders(optionHeaders, requiresAuth, AuthToken(old(storage.items))))
    ensures storage.items == if result == SessionExpired then old(storage.items) - {"token", "access_token"} else old(storage.items)
  {
    var token := AuthToken(storage.items);
    var headers := JsonHeaders(optionHeaders);
    if requiresAuth {
      if token.None? {
        return None, NoToken;
      }
      headers := headers["Authorization" := "Bearer " + token.value];
    }
    sent := Some(Fetch(ApiBase + endpoint, headers));
    if requiresAuth && status == 401 {
      storage.RemoveItem("token");
      storage.RemoveItem("access_token");
      return sent, SessionExpired;
    }
    if !IsOk(status) {
      return sent, HttpError(status);
    }
    return sent, Response(status);
  }

  /** `makePublicRequest(endpoint, options)`: always issued, never with a token of its own. */
  method MakePublicRequest(endpoint: string, optionHeaders: map<string, string>, status: nat)
    returns (sent: Fetch, result: RequestResult)
    ensures sent.url == ApiBase + endpoint
    ensures ("Authorization" in sent.headers) <==> ("Authorization" in optionHeaders)
    ensures sent.headers == JsonHeaders(optionHeaders)
    ensures result == AuthRequestResult(false, None, status)
    ensures result.Response? <==> IsOk(status)
  {
    sent := Fetch(ApiBase + endpoint, JsonHeaders(optionHeaders));
    if !IsOk(status) {
      return sent, HttpError(status);
    }
    return sent, Response(status);
  }
}
