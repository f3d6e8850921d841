/**
 * Weather condition and air-quality classification (app.js sections 9 and 10):
 * the weather-code partition, the two dust-grade threshold ladders, the overall
 * severity and the one-line mask advisory chosen from it.
 */
module Weather {

  datatype Weather = Sunny | Cloudy | Rainy

  /** The Open-Meteo weather code partition of `mapCodeToWeatherText`. */
  function MapCodeToWeather(code: int): (w: Weather)
    ensures w == Sunny <==> code == 0 || code == 1
    ensures w == Cloudy <==> code == 2 || code == 3 || code == 45 || code == 48
    ensures w == Rainy <==> !(code in {0, 1, 2, 3, 45, 48})
  {
    if code in [0, 1] then Sunny
    else if code in [2, 3, 45, 48] then Cloudy
    else Rainy
  }

  /** A dust grade: the English text (`label`) shown to the user and its ordinal level. */
  datatype Grade = Grade(text: string, level: nat)

  function LevelLabel(level: nat): string
  {
    if level == 0 then "Good"
    else if level == 1 then "Moderate"
    else if level == 2 then "Unhealthy"
    else "Very Unhealthy"
  }

  /**
   * The shared threshold ladder: inclusive upper bounds t0 < t1 < t2 separate
   * the levels 0, 1, 2 and 3.
   */
  function GradeBy(v: int, t0: int, t1: int, t2: int): (g: Grade)
    requires t0 < t1 < t2
    ensures g.level <= 3
    ensures g.level == 0 <==> v <= t0
    ensures g.level <= 1 <==> v <= t1
    ensures g.level <= 2 <==> v <= t2
    ensures g.text == LevelLabel(g.level)
  {
    if v <= t0 then Grade("Good", 0)
    else if v <= t1 then Grade("Moderate", 1)
    else if v <= t2 then Grade("Unhealthy", 2)
    else Grade("Very Unhealthy", 3)
  }

  /** `gradePm10`: thresholds 30, 80 and 150 micrograms per cubic metre. */
  function GradePm10(v: int): (g: Grade)
    ensures g.level <= 3 && g.text == LevelLabel(g.level)
    ensures g.level == 0 <==> v <= 30
    ensures g.level <= 1 <==> v <= 80
    ensures g.level <= 2 <==> v <= 150
  {
    GradeBy(v, 30, 80, 150)
  }

  /** `gradePm25`: thresholds 15, 35 and 75 micrograms per cubic metre. */
  function GradePm25(v: int): (g: Grade)
    ensures g.level <= 3 && g.text == LevelLabel(g.level)
    ensures g.level == 0 <==> v <= 15
    ensures g.level <= 1 <==> v <= 35
    ensures g.level <= 2 <==> v <= 75
  {
    GradeBy(v, 15, 35, 75)
  }

  /** Both grades are monotone: a dirtier reading never gets a lower level. */
  lemma GradesMonotone(v1: int, v2: int)
    requires v1 <= v2
    ensures GradePm10(v1).level <= GradePm10(v2).level
    ensures GradePm25(v1).level <= GradePm25(v2).level
  {
  }

  /** The overall severity of `autoSetWeather`: the worse of the two grades. */
  function OverallLevel(pm10: int, pm25: int): (level: nat)
    ensures level <= 3
    ensures level >= GradePm10(pm10).level && level >= GradePm25(pm25).level
    ensures level == GradePm10(pm10).level || level == GradePm25(pm25).level
  {
    var l10 := GradePm10(pm10).level;
    var l25 := GradePm25(pm25).level;
    if l10 >= l25 then l10 else l25
  }

  const NoMaskMessage := "No mask needed. The air quality is clean today."
  const LightMaskMessage := "A light KF-AD mask is recommended if you are sensitive."
  const Kf80MaskMessage := "A KF80 or higher mask is recommended."
  const Kf94MaskMessage := "A KF94 mask is strongly recommended; limit outdoor activities."

  /** `maskMessageForLevel`: levels 0, 1 and 2 have their own line; every other level gets the KF94 line. */
  function MaskMessage(level: int): (m: string)
    ensures level == 0 ==> m == NoMaskMessage
    ensures level == 1 ==> m == LightMaskMessage
    ensures level == 2 ==> m == Kf80MaskMessage
    ensures !(level in {0, 1, 2}) ==> m == Kf94MaskMessage
  {
    if level == 0 then NoMaskMessage
    else if level == 1 then LightMaskMessage
    else if level == 2 then Kf80MaskMessage
    else Kf94MaskMessage
  }

  /** The four advisories are distinct, so the severity tier can be read back from the message. */
  lemma MaskMessageDetermined(l1: nat, l2: nat)
    requires l1 <= 3 && l2 <= 3
    requires MaskMessage(l1) == MaskMessage(l2)
    ensures l1 == l2
  {
  }

  /** What a successful detection shows: the condition, both grades, the severity and its advisory. */
  datatype WeatherReport = WeatherReport(
    condition: Weather, pm10: Grade, pm25: Grade, overall: nat, mask: string)

  /** The success path of `autoSetWeather`, on the already rounded PM readings. */
  function Report(code: int, pm10: int, pm25: int): (r: WeatherReport)
    ensures r.condition == MapCodeToWeather(code)
    ensures r.overall <= 3
    ensures r.overall >= r.pm10.level && r.overall >= r.pm25.level
    ensures r.overall == r.pm10.level || r.overall == r.pm25.level
    ensures r.pm10 == GradePm10(pm10) && r.pm25 == GradePm25(pm25)
    ensures r.mask == MaskMessage(r.overall)
  {
    var overall := OverallLevel(pm10, pm25);
    WeatherReport(MapCodeToWeather(code), GradePm10(pm10), GradePm25(pm25), overall, MaskMessage(overall))
  }

  /** pm10 = 100 and pm2.5 = 40 are both "Unhealthy", so the KF80 advisory is chosen. */
  lemma MediumMaskExample()
    ensures Report(1, 100, 40).pm10 == Grade("Unhealthy", 2)
    ensures Report(1, 100, 40).pm25 == Grade("Unhealthy", 2)
    ensures Report(1, 100, 40).overall == 2
    ensures Report(1, 100, 40).mask == Kf80MaskMessage
    ensures Report(1, 100, 40).condition == Sunny
  {
  }
}
