/** The demand estimates of `Dashboard.tsx`: the hourly formula behind "Predict hourly
    demand" and the daily formula behind "Predict daily demand". Slider values are
    integers (every slider has step 1); the select values are the option strings. */
module Demand {

  /** The slider bounds, shared by the hourly and the daily form. */
  const MinTemperature := -10
  const MaxTemperature := 40
  const MinHumidity := 0
  const MaxHumidity := 100
  const MinWindspeed := 0
  const MaxWindspeed := 50

  predicate InSliderRange(temperature: int, humidity: int, windspeed: int) {
    && MinTemperature <= temperature <= MaxTemperature
    && MinHumidity <= humidity <= MaxHumidity
    && MinWindspeed <= windspeed <= MaxWindspeed
  }

  /** `Math.round`: the nearest integer, halves rounded up. */
  function Round(x: real): (r: int)
    ensures x - 0.5 < r as real <= x + 0.5
    ensures x == (x.Floor as real) ==> r == x.Floor
  {
    (x + 0.5).Floor
  }

  lemma RoundMonotone(x: real, y: real)
    requires x <= y
    ensures Round(x) <= Round(y)
  {
  }

  /** Half of an integer, rounded: `Math.round(m / 2)` is `(m + 1) div 2`. */
  lemma RoundHalf(m: int)
    ensures Round(m as real / 2.0) == (m + 1) / 2
  {
    var q := (m + 1) / 2;
    assert m + 1 == 2 * q + (m + 1) % 2;
  }

  function Max0(n: int): (r: int)
    ensures r >= 0 && r >= n && (r == 0 || r == n)
  {
    if n < 0 then 0 else n
  }

  // Hourly estimate

  function HourlySeasonFactor(season: string): (f: int)
    ensures f == 200 || f == 100 || f == 0
  {
    if season == "2" then 200 else if season == "3" then 100 else 0
  }

  function HourlyWeatherFactor(weather: string): (f: int)
    ensures f == 150 || f == 50 || f == -100
  {
    if weather == "1" then 150 else if weather == "2" then 50 else -100
  }

  /** The sum before rounding; the wind term `(50 - windspeed) * 1.5` makes it a
      half-integer. */
  function HourlyRaw(temperature: int, humidity: int, windspeed: int,
                     season: string, weather: string): real
  {
    500.0 + (temperature * 10) as real + ((100 - humidity) * 2) as real
      + (50 - windspeed) as real * 1.5
      + HourlySeasonFactor(season) as real + HourlyWeatherFactor(weather) as real
  }

  /** `handlePredict`: the rounded sum, never below zero. */
  function HourlyPrediction(temperature: int, humidity: int, windspeed: int,
                            season: string, weather: string): (r: int)
    ensures r >= 0
  {
    Max0(Round(HourlyRaw(temperature, humidity, windspeed, season, weather)))
  }

  /** The hourly estimate in integer arithmetic: twice the sum is an integer, and
      rounding it halves that integer plus one. */
  function HourlyDoubled(temperature: int, humidity: int, windspeed: int,
                         season: string, weather: string): int
  {
    2 * (500 + 10 * temperature + 2 * (100 - humidity)
         + HourlySeasonFactor(season) + HourlyWeatherFactor(weather))
      + 3 * (50 - windspeed)
  }

  lemma HourlyExact(temperature: int, humidity: int, windspeed: int, season: string, weather: string)
    ensures HourlyPrediction(temperature, humidity, windspeed, season, weather) ==
      Max0((HourlyDoubled(temperature, humidity, windspeed, season, weather) + 1) / 2)
  {
    var m := HourlyDoubled(temperature, humidity, windspeed, season, weather);
    assert HourlyRaw(temperature, humidity, windspeed, season, weather) == m as real / 2.0;
    RoundHalf(m);
  }

  /** Warmer, drier or calmer weather never lowers the hourly estimate. */
  lemma HourlyMonotone(t: int, h: int, w: int, t': int, h': int, w': int,
                       season: string, weather: string)
    requires t <= t' && h' <= h && w' <= w
    ensures HourlyPrediction(t, h, w, season, weather) <= HourlyPrediction(t', h', w', season, weather)
  {
    RoundMonotone(HourlyRaw(t, h, w, season, weather), HourlyRaw(t', h', w', season, weather));
  }

  /** Within the slider ranges the sum is at least 300, so the clamp at zero never fires,
      and the estimate lies between 300 and 1525. */
  lemma HourlyRange(temperature: int, humidity: int, windspeed: int, season: string, weather: string)
    requires InSliderRange(temperature, humidity, windspeed)
    ensures 300 <= Round(HourlyRaw(temperature, humidity, windspeed, season, weather))
    ensures 300 <= HourlyPrediction(temperature, humidity, windspeed, season, weather) <= 1525
  {
    HourlyExact(temperature, humidity, windspeed, season, weather);
    RoundHalf(HourlyDoubled(temperature, humidity, windspeed, season, weather));
    assert HourlyRaw(temperature, humidity, windspeed, season, weather) ==
      HourlyDoubled(temperature, humidity, windspeed, season, weather) as real / 2.0;
  }

  /** Both ends of the range are reached. */
  lemma HourlyExtremes()
    ensures HourlyPrediction(MinTemperature, MaxHumidity, MaxWindspeed, "1", "4") == 300
    ensures HourlyPrediction(MaxTemperature, MinHumidity, MinWindspeed, "2", "1") == 1525
  {
    HourlyExact(MinTemperature, MaxHumidity, MaxWindspeed, "1", "4");
    HourlyExact(MaxTemperature, MinHumidity, MinWindspeed, "2", "1");
  }

  /** Within the slider ranges, summer adds exactly 200 over spring or winter. */
  lemma HourlySummerBonus(temperature: int, humidity: int, windspeed: int, other: string, weather: string)
    requires InSliderRange(temperature, humidity, windspeed)
    requires other != "2" && other != "3"
    ensures HourlyPrediction(temperature, humidity, windspeed, "2", weather) ==
      HourlyPrediction(temperature, humidity, windspeed, other, weather) + 200
  {
    HourlyRange(temperature, humidity, windspeed, "2", weather);
    HourlyRange(temperature, humidity, windspeed, other, weather);
    HourlyExact(temperature, humidity, windspeed, "2", weather);
    HourlyExact(temperature, humidity, windspeed, other, weather);
  }

  // Daily estimate

  function DailySeasonFactor(season: string): (f: int)
    ensures f == 1500 || f == 800 || f == 600 || f == 0
  {
    if season == "2" then 1500 else if season == "3" then 800 else if season == "1" then 600 else 0
  }

  function DailyWeatherFactor(weather: string): (f: int)
    ensures f == 1200 || f == 400 || f == -800
  {
    if weather == "1" then 1200 else if weather == "2" then 400 else -800
  }

  /** `['0', '6'].includes(dayOfWeek)`: Sunday or Saturday. */
  predicate IsWeekend(dayOfWeek: string) {
    dayOfWeek == "0" || dayOfWeek == "6"
  }

  function WeekdayFactor(dayOfWeek: string): int {
    if IsWeekend(dayOfWeek) then 800 else 0
  }

  function HolidayFactor(isHoliday: string): int {
    if isHoliday == "1" then 500 else 0
  }

  /** The daily sum: every term is an integer. */
  function DailyRaw(temperature: int, humidity: int, windspeed: int, season: string,
                    weather: string, dayOfWeek: string, isHoliday: string): int
  {
    3500 + temperature * 80 + (100 - humidity) * 15 + (50 - windspeed) * 12
      + DailySeasonFactor(season) + DailyWeatherFactor(weather)
      + WeekdayFactor(dayOfWeek) + HolidayFactor(isHoliday)
  }

  /** `handleDailyPredict`: the rounded sum, never below zero. */
  function DailyPrediction(temperature: int, humidity: int, windspeed: int, season: string,
                           weather: string, dayOfWeek: string, isHoliday: string): (r: int)
    ensures r >= 0
  {
    Max0(Round(DailyRaw(temperature, humidity, windspeed, season, weather, dayOfWeek, isHoliday) as real))
  }

  /** Rounding an integer sum changes nothing: the daily estimate is the sum clamped at 0. */
  lemma DailyExact(temperature: int, humidity: int, windspeed: int, season: string,
                   weather: string, dayOfWeek: string, isHoliday: string)
    ensures DailyPrediction(temperature, humidity, windspeed, season, weather, dayOfWeek, isHoliday) ==
      Max0(DailyRaw(temperature, humidity, windspeed, season, weather, dayOfWeek, isHoliday))
  {
    var n := DailyRaw(temperature, humidity, windspeed, season, weather, dayOfWeek, isHoliday);
    assert (n as real).Floor == n;
  }

  /** Within the slider ranges the daily estimate lies between 1900 and 12800 and equals
      the unclamped sum. */
  lemma DailyRange(temperature: int, humidity: int, windspeed: int, season: string,
                   weather: string, dayOfWeek: string, isHoliday: string)
    requires InSliderRange(temperature, humidity, windspeed)
    ensures DailyPrediction(temperature, humidity, windspeed, season, weather, dayOfWeek, isHoliday) ==
      DailyRaw(temperature, humidity, windspeed, season, weather, dayOfWeek, isHoliday)
    ensures 1900 <= DailyPrediction(temperature, humidity, windspeed, season, weather, dayOfWeek, isHoliday) <= 12800
  {
    DailyExact(temperature, humidity, windspeed, season, weather, dayOfWeek, isHoliday);
  }

  /** Warmer, drier or calmer weather never lowers the daily estimate. */
  lemma DailyMonotone(t: int, h: int, w: int, t': int, h': int, w': int, season: string,
                      weather: string, dayOfWeek: string, isHoliday: string)
    requires t <= t' && h' <= h && w' <= w
    ensures DailyPrediction(t, h, w, season, weather, dayOfWeek, isHoliday) <=
      DailyPrediction(t', h', w', season, weather, dayOfWeek, isHoliday)
  {
    DailyExact(t, h, w, season, weather, dayOfWeek, isHoliday);
    DailyExact(t', h', w', season, weather, dayOfWeek, isHoliday);
  }

  /** Within the slider ranges a weekend day adds exactly 800 over a weekday, and a holiday
      exactly 500 over a non-holiday. */
  lemma DailyBonuses(temperature: int, humidity: int, windspeed: int, season: string,
                     weather: string, weekday: string, isHoliday: string, notHoliday: string)
    requires InSliderRange(temperature, humidity, windspeed)
    requires !IsWeekend(weekday) && notHoliday != "1"
    ensures DailyPrediction(temperature, humidity, windspeed, season, weather, "0", isHoliday) ==
      DailyPrediction(temperature, humidity, windspeed, season, weather, weekday, isHoliday) + 800
    ensures DailyPrediction(temperature, humidity, windspeed, season, weather, "6", isHoliday) ==
      DailyPrediction(temperature, humidity, windspeed, season, weather, weekday, isHoliday) + 800
    ensures DailyPrediction(temperature, humidity, windspeed, season, weather, weekday, "1") ==
      DailyPrediction(temperature, humidity, windspeed, season, weather, weekday, notHoliday) + 500
  {
    DailyRange(temperature, humidity, windspeed, season, weather, "0", isHoliday);
    DailyRange(temperature, humidity, windspeed, season, weather, "6", isHoliday);
    DailyRange(temperature, humidity, windspeed, season, weather, weekday, isHoliday);
    DailyRange(temperature, humidity, windspeed, season, weather, weekday, "1");
    DailyRange(temperature, humidity, windspeed, season, weather, weekday, notHoliday);
  }

  /** The page's initial values give 1203 per hour and 9091 per day. */
  lemma InitialEstimates()
    ensures HourlyPrediction(20, 50, 15, "2", "1") == 1203
    ensures DailyPrediction(22, 55, 12, "2", "1", "1", "0") == 9091
  {
    HourlyExact(20, 50, 15, "2", "1");
    DailyExact(22, 55, 12, "2", "1", "1", "0");
  }
}
