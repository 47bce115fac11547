/** The pure mappings and the forecast assembly of weather/weather.go. The
    Open-Meteo request and its JSON decoding are outside the model: the
    forecast arrives as the decoded daily arrays. Temperatures and rainfall
    are carried as reals and never computed with. */
module Weather {
  import opened Wrappers

  // ---------------------------------------------------------------------------
  // Go integer division
  // ---------------------------------------------------------------------------

  /** Go's `%` on int: truncated, so the remainder takes the sign of `a`. */
  function GoRem(a: int, b: int): (r: int)
    requires b > 0
    ensures a >= 0 ==> 0 <= r < b
    ensures a < 0 ==> -b < r <= 0
  {
    if a >= 0 then a % b else -((-a) % b)
  }

  /** Go's `/` on int: truncated toward zero. */
  function GoQuot(a: int, b: int): (q: int)
    requires b > 0
    ensures a >= 0 ==> q >= 0 && q * b <= a < q * b + b
    ensures a < 0 ==> q <= 0 && q * b - b < a <= q * b
  {
    if a >= 0 then a / b else -((-a) / b)
  }

  // ---------------------------------------------------------------------------
  // WindDirectionStr
  // ---------------------------------------------------------------------------

  const Dirs: seq<string> := ["N", "NE", "E", "SE", "S", "SW", "W", "NW"]

  /** The index WindDirectionStr computes: ((deg + 22) % 360) / 45. */
  function SectorIndex(deg: int): int {
    GoQuot(GoRem(deg + 22, 360), 45)
  }

  /** WindDirectionStr. A negative index makes `dirs[idx]` panic in Go; the
      precondition excludes exactly those degrees (deg + 22 with a truncated
      remainder of -45 or less, such as -67). */
  function WindDirectionStr(deg: int): (r: string)
    requires SectorIndex(deg) >= 0
    ensures r in Dirs
  {
    var idx := SectorIndex(deg);
    if idx >= |Dirs| then "N" else Dirs[idx]
  }

  /** For deg >= 0 the index is a compass sector and the "N" fallback is never
      taken. */
  lemma CompassIndexInRange(deg: int)
    requires deg >= 0
    ensures 0 <= SectorIndex(deg) < |Dirs|
    ensures WindDirectionStr(deg) == Dirs[SectorIndex(deg)]
  {
  }

  /** Which degrees in [0, 360) give which sector: "N" covers [0, 22] and
      [338, 359], sector k of 1..7 covers [45k - 22, 45k + 22]. */
  lemma SectorBounds(deg: int, k: nat)
    requires 0 <= deg < 360 && k < |Dirs|
    ensures SectorIndex(deg) == 0 <==> deg <= 22 || deg >= 338
    ensures k > 0 ==> (SectorIndex(deg) == k <==> 45 * k - 22 <= deg <= 45 * k + 22)
  {
  }

  /** The named compass directions, for deg in [0, 360). */
  lemma NorthSpan(deg: int)
    requires 0 <= deg < 360
    ensures WindDirectionStr(deg) == "N" <==> deg <= 22 || deg >= 338
  {
    CompassIndexInRange(deg);
    SectorBounds(deg, 0);
  }

  /** A full turn names the same direction. */
  lemma FullTurn(deg: int)
    requires deg >= 0
    ensures SectorIndex(deg + 360) == SectorIndex(deg)
    ensures WindDirectionStr(deg + 360) == WindDirectionStr(deg)
  {
    assert (deg + 360 + 22) % 360 == (deg + 22) % 360;
  }

  /** The degrees for which the Go code panics, for example -67. */
  lemma NegativeDegreesCanPanic()
    ensures SectorIndex(-67) < 0
    ensures SectorIndex(-23) == 0
  {
  }

  // ---------------------------------------------------------------------------
  // wmoCodeToEmoji
  // ---------------------------------------------------------------------------

  /** The codes the table names. */
  predicate Listed(code: int) {
    || 0 <= code <= 3
    || 45 <= code <= 48
    || 51 <= code <= 57
    || 61 <= code <= 67
    || 71 <= code <= 77
    || 80 <= code <= 82
    || 95 <= code <= 99
  }

  /** wmoCodeToEmoji: (icon, description). */
  function WmoCodeToEmoji(code: int, isDay: bool): (r: (string, string))
    ensures r.0 != "" && r.1 != ""
  {
    if code == 0 then
      if isDay then ("☀️", "Clear sky") else ("\U{1F319}", "Clear night")
    else if code == 1 then ("\U{1F324}️", "Mainly clear")
    else if code == 2 then ("⛅", "Partly cloudy")
    else if code == 3 then ("☁️", "Overcast")
    else if 45 <= code <= 48 then ("\U{1F32B}️", "Fog")
    else if 51 <= code <= 57 then ("\U{1F326}️", "Drizzle")
    else if 61 <= code <= 67 then ("\U{1F327}️", "Rain")
    else if 71 <= code <= 77 then ("❄️", "Snow")
    else if 80 <= code <= 82 then ("\U{1F326}️", "Rain showers")
    else if code == 95 then ("⛈️", "Thunderstorm")
    else if 96 <= code <= 99 then ("⛈️", "Thunderstorm with hail")
    else ("\U{1F321}️", "Unknown")
  }

  /** isDay matters for code 0 only. */
  lemma DayMattersOnlyForClearSky(code: int)
    ensures code != 0 <==> WmoCodeToEmoji(code, true) == WmoCodeToEmoji(code, false)
  {
  }

  /** A code is described as "Unknown" exactly when the table does not list it. */
  lemma UnknownIffUnlisted(code: int, isDay: bool)
    ensures WmoCodeToEmoji(code, isDay).1 == "Unknown" <==> !Listed(code)
  {
  }

  // ---------------------------------------------------------------------------
  // Current conditions
  // ---------------------------------------------------------------------------

  /** The decoded `current` object of the response. */
  datatype Current = Current(
    temperature: real,
    humidity: int,
    apparentTemperature: real,
    isDay: int,
    weatherCode: int,
    windSpeed: real,
    windDirection: int,
    uvIndex: real,
    visibility: real)

  datatype Conditions = Conditions(
    city: string,
    tempC: real,
    feelsLikeC: real,
    humidity: int,
    windSpeedKmh: real,
    windDirection: int,
    description: string,
    icon: string,
    visibility: real,
    uvIndex: real,
    isDay: bool,
    updatedAt: int)

  /** The Conditions value Fetch builds: the icon follows the day flag, which
      is set only by is_day == 1. */
  function ConditionsOf(c: Current, city: string, now: int): (r: Conditions)
    ensures r.isDay <==> c.isDay == 1
    ensures (r.icon, r.description) == WmoCodeToEmoji(c.weatherCode, r.isDay)
    ensures r.city == city && r.updatedAt == now && r.windDirection == c.windDirection
  {
    var (icon, desc) := WmoCodeToEmoji(c.weatherCode, c.isDay == 1);
    Conditions(city, c.temperature, c.apparentTemperature, c.humidity, c.windSpeed, c.windDirection,
               desc, icon, c.visibility, c.uvIndex, c.isDay == 1, now)
  }

  // ---------------------------------------------------------------------------
  // Dates: time.Parse("2006-01-02", s)
  // ---------------------------------------------------------------------------

  datatype Date = Date(year: int, month: int, day: int)

  predicate IsDigit(c: char) {
    '0' <= c <= '9'
  }

  function DigitValue(c: char): int {
    c as int - '0' as int
  }

  predicate LeapYear(y: int) {
    y % 4 == 0 && (y % 100 != 0 || y % 400 == 0)
  }

  function DaysIn(month: int, year: int): int
    requires 1 <= month <= 12
  {
    if month == 2 then (if LeapYear(year) then 29 else 28)
    else if month == 4 || month == 6 || month == 9 || month == 11 then 30
    else 31
  }

  /** Layout "2006-01-02": four year digits, two month digits, two day digits,
      a known month, a day that exists in it, and nothing after. */
  function ParseDate(s: string): (r: Option<Date>)
    ensures r.Some? ==> |s| == 10 && 1 <= r.value.month <= 12 && 1 <= r.value.day <= DaysIn(r.value.month, r.value.year)
  {
    if |s| != 10 || s[4] != '-' || s[7] != '-' then None
    else if !(IsDigit(s[0]) && IsDigit(s[1]) && IsDigit(s[2]) && IsDigit(s[3])
              && IsDigit(s[5]) && IsDigit(s[6]) && IsDigit(s[8]) && IsDigit(s[9])) then None
    else
      var year := 1000 * DigitValue(s[0]) + 100 * DigitValue(s[1]) + 10 * DigitValue(s[2]) + DigitValue(s[3]);
      var month := 10 * DigitValue(s[5]) + DigitValue(s[6]);
      var day := 10 * DigitValue(s[8]) + DigitValue(s[9]);
      if month < 1 || month > 12 then None
      else if day < 1 || day > DaysIn(month, year) then None
      else Some(Date(year, month, day))
  }

  // ---------------------------------------------------------------------------
  // Forecast assembly
  // ---------------------------------------------------------------------------

  /** The decoded `daily` arrays; Go decodes each independently, so their
      lengths may differ. */
  datatype Daily = Daily(
    time: seq<string>,
    weatherCode: seq<int>,
    maxTemp: seq<real>,
    minTemp: seq<real>,
    precipitation: seq<real>)

  datatype DayForecast = DayForecast(date: Date, maxTempC: real, minTempC: real, rainMM: real, icon: string, desc: string)

  /** How many days the loop visits before `i >= len(WeatherCode)` breaks it. */
  function Visited(d: Daily): nat {
    if |d.time| < |d.weatherCode| then |d.time| else |d.weatherCode|
  }

  /** The loop reads Temperature2mMax[i] and Temperature2mMin[i] unguarded for
      every visited day whose date parses; shorter arrays make Go panic. */
  predicate TemperaturesCover(d: Daily) {
    forall i :: 0 <= i < Visited(d) && ParseDate(d.time[i]).Some? ==> i < |d.maxTemp| && i < |d.minTemp|
  }

  /** The forecast of day i. */
  function DayOf(d: Daily, i: nat, date: Date): DayForecast
    requires i < |d.weatherCode| && i < |d.maxTemp| && i < |d.minTemp|
  {
    var (icon, desc) := WmoCodeToEmoji(d.weatherCode[i], true);
    var rain := if i < |d.precipitation| then d.precipitation[i] else 0.0;
    DayForecast(date, d.maxTemp[i], d.minTemp[i], rain, icon, desc)
  }

  /** The forecasts of the first n visited days, in day order. */
  function ForecastsOf(d: Daily, n: nat): seq<DayForecast>
    requires n <= Visited(d) && TemperaturesCover(d)
  {
    if n == 0 then []
    else
      var date := ParseDate(d.time[n - 1]);
      if date.None? then ForecastsOf(d, n - 1)
      else ForecastsOf(d, n - 1) + [DayOf(d, n - 1, date.value)]
  }

  /** One loop turn: the forecast of day i, or None when its date does not parse. */
  method ForecastDay(d: Daily, i: nat) returns (f: Option<DayForecast>)
    requires i < Visited(d) && TemperaturesCover(d)
    ensures f.None? <==> ParseDate(d.time[i]).None?
    ensures f.Some? ==> f.value == DayOf(d, i, ParseDate(d.time[i]).value)
  {
    var t := ParseDate(d.time[i]);
    if t.None? {
      return None;
    }
    var (ico, dsc) := WmoCodeToEmoji(d.weatherCode[i], true);
    var rain := 0.0;
    if i < |d.precipitation| {
      rain := d.precipitation[i];
    }
    return Some(DayForecast(t.value, d.maxTemp[i], d.minTemp[i], rain, ico, dsc));
  }

  /** The daily loop of Fetch. */
  method AssembleForecasts(d: Daily) returns (forecasts: seq<DayForecast>)
    requires TemperaturesCover(d)
    ensures forecasts == ForecastsOf(d, Visited(d))
  {
    forecasts := [];
    var i := 0;
    while i < |d.time|
      invariant 0 <= i <= Visited(d)
      invariant forecasts == ForecastsOf(d, i)
    {
      if i >= |d.weatherCode| {
        break;
      }
      var f := ForecastDay(d, i);
      i := i + 1;
      if f.None? {
        continue;
      }
      forecasts := forecasts + [f.value];
    }
  }

  /** At most one forecast per visited day, and exactly one per day when
      every visited date parses. */
  lemma {:induction false} ForecastCount(d: Daily, n: nat)
    requires n <= Visited(d) && TemperaturesCover(d)
    ensures |ForecastsOf(d, n)| <= n
    ensures (forall i | 0 <= i < n :: ParseDate(d.time[i]).Some?) ==> |ForecastsOf(d, n)| == n
  {
    if n > 0 {
      ForecastCount(d, n - 1);
    }
  }

  /** Every forecast is the i-th day of some visited i with a parsable date:
      daytime icons, and no rain when the precipitation array is short. */
  lemma {:induction false} ForecastsAreDays(d: Daily, n: nat)
    requires n <= Visited(d) && TemperaturesCover(d)
    ensures forall f | f in ForecastsOf(d, n) ::
      (exists i :: 0 <= i < n && ParseDate(d.time[i]).Some? && f == DayOf(d, i, ParseDate(d.time[i]).value))
  {
    if n > 0 {
      ForecastsAreDays(d, n - 1);
    }
  }

  /** The day fields: daytime icon and description, rain 0 when the
      precipitation array ends before day i. */
  lemma DayFields(d: Daily, i: nat, date: Date)
    requires i < |d.weatherCode| && i < |d.maxTemp| && i < |d.minTemp|
    ensures (DayOf(d, i, date).icon, DayOf(d, i, date).desc) == WmoCodeToEmoji(d.weatherCode[i], true)
    ensures i >= |d.precipitation| ==> DayOf(d, i, date).rainMM == 0.0
    ensures i < |d.precipitation| ==> DayOf(d, i, date).rainMM == d.precipitation[i]
  {
  }
}
