/**
 * The decoded weather payload (`WeatherResponse`, `ResponseData`, `WeatherResult`), the
 * wire-key tables of their coding keys, and the derived display fields of `WeatherResult`.
 *
 * Swift's `Double` is modelled as `real` (finite values only); `Int(x)` is truncation toward
 * zero; `"\(n)"` for an `Int` is its decimal text.
 */
module WeatherModels {

  // ---------------------------------------------------------------------------
  // Decimal text of integers, and truncation of reals
  // ---------------------------------------------------------------------------

  predicate IsDigit(c: char) {
    '0' <= c <= '9'
  }

  predicate AllDigits(s: string) {
    forall i :: 0 <= i < |s| ==> IsDigit(s[i])
  }

  function DigitChar(d: nat): char
    requires d < 10
  {
    ('0' as int + d) as char
  }

  function DigitValue(c: char): nat
    requires IsDigit(c)
  {
    c as int - '0' as int
  }

  /** Decimal digits of `n`, most significant first, without leading zeros. */
  function NatDigits(n: nat): (s: string)
    ensures |s| > 0 && AllDigits(s)
    ensures s[0] == '0' ==> n == 0 && |s| == 1
    decreases n
  {
    if n < 10 then [DigitChar(n)] else NatDigits(n / 10) + [DigitChar(n % 10)]
  }

  /** The text Swift's string interpolation produces for an `Int`. */
  function IntText(n: int): string {
    if n < 0 then "-" + NatDigits(-n) else NatDigits(n)
  }

  /** Digits as Swift prints a natural number: a lone "0", or a run that does not start with '0'. */
  predicate IsPlainDigits(s: string) {
    |s| > 0 && AllDigits(s) && (s[0] == '0' ==> |s| == 1)
  }

  /** The text of an integer: plain digits, or a minus sign before plain digits other than "0". */
  predicate IsIntText(s: string) {
    if |s| > 0 && s[0] == '-' then IsPlainDigits(s[1..]) && s[1] != '0' else IsPlainDigits(s)
  }

  /** Reads a run of decimal digits back as a number (the reference reading of `NatDigits`). */
  function ParseNat(s: string): nat
    requires AllDigits(s)
  {
    if s == [] then 0 else 10 * ParseNat(s[..|s| - 1]) + DigitValue(s[|s| - 1])
  }

  function ParseInt(s: string): int
    requires IsIntText(s)
  {
    if s[0] == '-' then -(ParseNat(s[1..]) as int) else ParseNat(s)
  }

  lemma {:induction false} NatDigitsRoundTrip(n: nat)
    ensures ParseNat(NatDigits(n)) == n
    decreases n
  {
    var s := NatDigits(n);
    if n >= 10 {
      NatDigitsRoundTrip(n / 10);
      assert s[..|s| - 1] == NatDigits(n / 10);
    }
  }

  /** The decimal text of an integer is well formed and reads back as that integer. */
  lemma IntTextRoundTrip(n: int)
    ensures IsIntText(IntText(n))
    ensures ParseInt(IntText(n)) == n
  {
    var s := IntText(n);
    if n < 0 {
      NatDigitsRoundTrip(-n);
      assert s[1..] == NatDigits(-n);
    } else {
      NatDigitsRoundTrip(n);
    }
  }

  /** Digits that do not start with '0' read as a positive number, and as at least 10 when there are two or more. */
  lemma {:induction false} LeadingDigitBound(s: string)
    requires |s| > 0 && AllDigits(s) && s[0] != '0'
    ensures ParseNat(s) > 0
    ensures |s| > 1 ==> ParseNat(s) >= 10
    decreases |s|
  {
    if |s| > 1 {
      var p := s[..|s| - 1];
      assert p[0] == s[0];
      LeadingDigitBound(p);
    } else {
      assert s[..0] == [];
    }
  }

  /** Plain digits are the only text `NatDigits` gives for the number they read as. */
  lemma {:induction false} PlainDigitsAreNatDigits(s: string)
    requires IsPlainDigits(s)
    ensures s == NatDigits(ParseNat(s))
    decreases |s|
  {
    var m := ParseNat(s);
    var p := s[..|s| - 1];
    if |s| == 1 {
      assert p == [] && ParseNat(p) == 0;
      assert m == DigitValue(s[0]);
    } else {
      LeadingDigitBound(s);
      assert p[0] == s[0];
      PlainDigitsAreNatDigits(p);
      assert m / 10 == ParseNat(p) && m % 10 == DigitValue(s[|s| - 1]);
      assert s == p + [s[|s| - 1]];
    }
  }

  /** The decimal text of an integer is the one well-formed text that reads back as it. */
  lemma IntTextUnique(s: string, n: int)
    ensures IsIntText(s) && ParseInt(s) == n <==> s == IntText(n)
  {
    IntTextRoundTrip(n);
    if IsIntText(s) && ParseInt(s) == n {
      if s[0] == '-' {
        var t := s[1..];
        LeadingDigitBound(t);
        PlainDigitsAreNatDigits(t);
        assert s == "-" + t;
      } else {
        PlainDigitsAreNatDigits(s);
      }
    }
  }

  /** `Int(x)` on a finite `Double`: the integer part, truncated toward zero. */
  function Truncate(x: real): (n: int)
    ensures 0.0 <= x ==> n as real <= x < n as real + 1.0
    ensures x < 0.0 ==> n as real - 1.0 < x <= n as real
  {
    if x >= 0.0 then x.Floor else -((-x).Floor)
  }

  // ---------------------------------------------------------------------------
  // Upper-casing, for the case-insensitive wind-direction table
  // ---------------------------------------------------------------------------

  function UpperChar(c: char): char {
    if 'a' <= c <= 'z' then (c as int - 32) as char else c
  }

  /** `String.uppercased()`, on ASCII letters. */
  function Uppercased(s: string): (r: string)
    ensures |r| == |s|
    ensures forall i :: 0 <= i < |s| ==> r[i] == UpperChar(s[i])
  {
    if s == [] then [] else [UpperChar(s[0])] + Uppercased(s[1..])
  }

  /** Two texts that differ at most in the case of their letters. */
  predicate SameIgnoringCase(a: string, b: string) {
    |a| == |b| && forall i :: 0 <= i < |a| ==> UpperChar(a[i]) == UpperChar(b[i])
  }

  // ---------------------------------------------------------------------------
  // The payload
  // ---------------------------------------------------------------------------

  datatype WeatherResponse = WeatherResponse(response: ResponseData)

  datatype ResponseData = ResponseData(status: bool, message: string, result: WeatherResult)

  /** The compass points that have an icon of their own ("S" is not one of them). */
  const IconPoints: set<string> :=
    {"N", "NE", "E", "SE", "SW", "W", "NW", "NNE", "ENE", "ESE", "SSE", "SSW", "WSW", "WNW", "NNW"}

  /** Every icon identifier the direction table can produce. */
  const IconNames: set<string> :=
    {"ic_N", "ic_NE", "ic_E", "ic_SE", "ic_SW", "ic_W", "ic_NW", "ic_NNE", "ic_ENE", "ic_ESE",
     "ic_SSE", "ic_SSW", "ic_WSW", "ic_WNW", "ic_NNW"}

  datatype WeatherResult = WeatherResult(
    city: string,
    dateTime: string,
    weatherIcon: string,
    temp: real,
    unit: string,
    weather: string,
    feelsLike: string,
    high: real,
    low: real,
    humidity: string,
    windDirection: string,
    windSpeed: real,
    windSpeedUnit: string)
  {
    /** The icon for the wind direction, looked up by the upper-cased direction. */
    function WindDirectionIcon(): (icon: string)
      ensures icon in IconNames
      ensures icon != "ic_S"
    {
      match Uppercased(windDirection)
      case "N" => "ic_N"
      case "NE" => "ic_NE"
      case "E" => "ic_E"
      case "SE" => "ic_SE"
      case "S" => "ic_N"
      case "SW" => "ic_SW"
      case "W" => "ic_W"
      case "NW" => "ic_NW"
      case "NNE" => "ic_NNE"
      case "ENE" => "ic_ENE"
      case "ESE" => "ic_ESE"
      case "SSE" => "ic_SSE"
      case "SSW" => "ic_SSW"
      case "WSW" => "ic_WSW"
      case "WNW" => "ic_WNW"
      case "NNW" => "ic_NNW"
      case _ => "ic_N"
    }

    /** The truncated temperature followed directly by the unit. */
    function FormattedTemp(): (r: string)
      ensures |unit| <= |r| && r[|r| - |unit|..] == unit
      ensures IsIntText(r[..|r| - |unit|]) && ParseInt(r[..|r| - |unit|]) == Truncate(temp)
    {
      var digits := IntText(Truncate(temp));
      IntTextRoundTrip(Truncate(temp));
      assert (digits + unit)[..|digits|] == digits;
      digits + unit
    }

    /** "H:<high>° L:<low>°" with both temperatures truncated. */
    function FormattedHighLow(): (r: string)
      ensures exists hi, lo ::
        && IsIntText(hi) && ParseInt(hi) == Truncate(high)
        && IsIntText(lo) && ParseInt(lo) == Truncate(low)
        && r == "H:" + hi + "° L:" + lo + "°"
    {
      IntTextRoundTrip(Truncate(high));
      IntTextRoundTrip(Truncate(low));
      "H:" + IntText(Truncate(high)) + "° L:" + IntText(Truncate(low)) + "°"
    }
  }

  /** The direction table, stated against the set of points that have an icon. */
  lemma WindDirectionIconTable(w: WeatherResult)
    ensures w.WindDirectionIcon() ==
      if Uppercased(w.windDirection) in IconPoints then "ic_" + Uppercased(w.windDirection) else "ic_N"
  {
  }

  /** "S", in either case, gets the north icon; so does every direction outside the table. */
  lemma SouthAndUnknownGetNorthIcon(w: WeatherResult)
    requires Uppercased(w.windDirection) == "S" || Uppercased(w.windDirection) !in IconPoints
    ensures w.WindDirectionIcon() == "ic_N"
  {
  }

  /** The icon depends on the direction only up to the case of its letters. */
  lemma WindDirectionIconIgnoresCase(w1: WeatherResult, w2: WeatherResult)
    requires SameIgnoringCase(w1.windDirection, w2.windDirection)
    ensures w1.WindDirectionIcon() == w2.WindDirectionIcon()
  {
    assert Uppercased(w1.windDirection) == Uppercased(w2.windDirection);
  }

  lemma FormattedTempExamples(w: WeatherResult)
    requires w.unit == "°C"
    ensures w.temp == 21.9 ==> w.FormattedTemp() == "21°C"
    ensures w.temp == -3.5 ==> w.FormattedTemp() == "-3°C"
  {
    if w.temp == 21.9 {
      assert Truncate(w.temp) == 21;
      assert NatDigits(21) == "21" by { assert NatDigits(2) == "2"; }
    }
    if w.temp == -3.5 {
      assert Truncate(w.temp) == -3;
      assert NatDigits(3) == "3";
    }
  }

  lemma FormattedHighLowExample(w: WeatherResult)
    requires w.high == 28.7 && w.low == 18.2
    ensures w.FormattedHighLow() == "H:28° L:18°"
  {
    assert Truncate(w.high) == 28 && Truncate(w.low) == 18;
    assert NatDigits(28) == "28" by { assert NatDigits(2) == "2"; }
    assert NatDigits(18) == "18" by { assert NatDigits(1) == "1"; }
  }

  // ---------------------------------------------------------------------------
  // Coding keys: property names and the wire keys they decode from
  // ---------------------------------------------------------------------------

  /** `WeatherResponse.CodingKeys`. */
  datatype ResponseKey = Response {
    function PropertyName(): string { "response" }
    function StringValue(): string { "Response" }
  }

  /** The keys Swift synthesizes for `ResponseData`: each is its property name. */
  datatype ResponseDataKey = Status | Message | Result {
    function PropertyName(): string {
      match this
      case Status => "status"
      case Message => "message"
      case Result => "result"
    }
    function StringValue(): string { PropertyName() }
  }

  /** `WeatherResult.CodingKeys`. */
  datatype ResultKey =
    | City | DateTime | WeatherIcon | Temp | Unit | Weather | FeelsLike
    | High | Low | Humidity | WindDirection | WindSpeed | WindSpeedUnit
  {
    function PropertyName(): string {
      match this
      case City => "city"
      case DateTime => "dateTime"
      case WeatherIcon => "weatherIcon"
      case Temp => "temp"
      case Unit => "unit"
      case Weather => "weather"
      case FeelsLike => "feelsLike"
      case High => "high"
      case Low => "low"
      case Humidity => "humidity"
      case WindDirection => "windDirection"
      case WindSpeed => "windSpeed"
      case WindSpeedUnit => "windSpeedUnit"
    }

    function StringValue(): string {
      match this
      case City => "city"
      case DateTime => "dateTime"
      case WeatherIcon => "weather_icon"
      case Temp => "temp"
      case Unit => "unit"
      case Weather => "weather"
      case FeelsLike => "feels_like"
      case High => "high"
      case Low => "low"
      case Humidity => "humi"
      case WindDirection => "wind_direction"
      case WindSpeed => "wind_speed"
      case WindSpeedUnit => "wind_speed_unit"
    }
  }

  /** The thirteen result keys in declaration order. */
  function AllResultKeys(): (keys: seq<ResultKey>)
    ensures |keys| == 13
    ensures forall i, j :: 0 <= i < j < |keys| ==> keys[i] != keys[j]
  {
    [City, DateTime, WeatherIcon, Temp, Unit, Weather, FeelsLike,
     High, Low, Humidity, WindDirection, WindSpeed, WindSpeedUnit]
  }

  lemma AllResultKeysComplete(k: ResultKey)
    ensures k in AllResultKeys()
  {
  }

  /** The wrapper is read from "Response"; `ResponseData` uses its property names. */
  lemma WrapperKeys(k: ResponseDataKey)
    ensures Response.StringValue() == "Response" && Response.StringValue() != Response.PropertyName()
    ensures k.StringValue() == k.PropertyName()
    ensures k.StringValue() in {"status", "message", "result"}
  {
  }

  /** No two result fields are read from the same wire key. */
  lemma ResultWireKeysDistinct(a: ResultKey, b: ResultKey)
    requires a != b
    ensures a.StringValue() != b.StringValue()
  {
  }

  /** Exactly six result fields are read from a key other than their own name. */
  lemma RenamedResultKeys()
    ensures (set k | k in AllResultKeys() && k.StringValue() != k.PropertyName())
         == {WeatherIcon, FeelsLike, Humidity, WindDirection, WindSpeed, WindSpeedUnit}
  {
  }
}
