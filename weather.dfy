/** The weather scoring of the planner (tools/weather_tool.py): the per-day suitability
    score used by the extended forecast, the single-point viability score of the basic
    forecast, the score-to-label buckets, the extended forecast's day loop and mean, and
    the one rule that picks the canonical trip score. The HTTP calls that produce the
    current conditions and the forecast rows are not modelled: their results are inputs. */
module Weather {
  import opened Common

  /** The current-conditions record: the provider's error record, or the fields read with
      `.get` (any of which may be missing). */
  datatype CurrentWeather =
    | CurrentUnavailable(error: string)
    | Current(temperature: Option<real>, description: Option<string>, windSpeed: Option<real>)

  /** One row of the five-day forecast. */
  datatype ForecastEntry = ForecastEntry(
    temperature: Option<real>, description: Option<string>, windSpeed: Option<real>)

  /** Calendar facts about day `i` of the trip (`strftime` output, supplied from outside). */
  datatype CalendarDay = CalendarDay(date: string, dayName: string)

  datatype DailyForecast = DailyForecast(
    date: string,
    dayName: string,
    temperature: real,
    description: string,
    windSpeed: real,
    suitabilityScore: int,
    suitabilityLevel: string,
    recommendations: seq<string>)

  datatype ExtendedAnalysis = ExtendedAnalysis(
    dailyForecasts: Option<seq<DailyForecast>>,
    tripDuration: int,
    overallTripScore: Option<real>,
    overallRecommendation: Option<string>)

  /** The weather bundle: the `{"error": ...}` record or the forecast record. */
  datatype WeatherData =
    | WeatherFailure(error: string)
    | WeatherReport(
        city: string,
        current: CurrentWeather,
        forecast: seq<ForecastEntry>,
        weatherAnalysis: Option<string>,
        viabilityScore: Option<real>,
        viabilityReason: Option<string>,
        recommendations: Option<seq<string>>,
        extended: Option<ExtendedAnalysis>)

  // =================================================================================
  // Per-day suitability score
  // =================================================================================

  /** Temperature axis of the daily score, written as the five disjoint bands it induces. */
  function DailyTemperatureAdjustment(t: real): int {
    if t < 0.0 || 40.0 < t then -40
    else if (0.0 <= t < 5.0) || (35.0 < t <= 40.0) then -25
    else if (5.0 <= t < 10.0) || (30.0 < t <= 35.0) then -15
    else if 18.0 <= t <= 28.0 then 10
    else 0
  }

  /** Condition axis of the daily score: keyword rows in priority order, and their deltas. */
  const DailyConditionKeywords: seq<seq<string>> := [
    ["storm", "hurricane", "tornado"],
    ["heavy rain", "thunderstorm"],
    ["rain", "shower"],
    ["snow", "sleet"],
    ["clear", "sunny"],
    ["cloud"]
  ]
  const DailyConditionDeltas: seq<int> := [-50, -40, -20, -30, 15, 5]

  function DailyConditionAdjustment(description: string): int {
    var k := FirstMatch(DailyConditionKeywords, Lower(description));
    if k < |DailyConditionDeltas| then DailyConditionDeltas[k] else 0
  }

  function DailyWindAdjustment(w: real): int {
    if 25.0 < w then -20 else if 15.0 < w <= 25.0 then -10 else 0
  }

  /** The unclamped daily score: 100 plus one adjustment from each axis. */
  function RawDailyScore(temp: real, description: string, wind: real): int {
    100 + DailyTemperatureAdjustment(temp) + DailyConditionAdjustment(description) + DailyWindAdjustment(wind)
  }

  /** The daily suitability score: temperature, description and wind only, clamped. */
  function DailySuitability(temp: real, description: string, wind: real): (r: int)
    ensures 0 <= r <= 100
  {
    Clamp(0, 100, RawDailyScore(temp, description, wind))
  }

  /** The first-match `if/elif` chain over the condition keywords is the table lookup. */
  lemma DailyConditionChain(d: string)
    ensures DailyConditionAdjustment(d) ==
      var s := Lower(d);
      if AnyIn(["storm", "hurricane", "tornado"], s) then -50
      else if AnyIn(["heavy rain", "thunderstorm"], s) then -40
      else if AnyIn(["rain", "shower"], s) then -20
      else if AnyIn(["snow", "sleet"], s) then -30
      else if AnyIn(["clear", "sunny"], s) then 15
      else if Contains(s, "cloud") then 5
      else 0
  {
    var s := Lower(d);
    var t := DailyConditionKeywords;
    var k := FirstMatch(t, s);
    FirstMatchIsFirst(t, s);
    assert AnyIn(["cloud"], s) <==> Contains(s, "cloud") by {
      assert ["cloud"][0] == "cloud";
    }
    if k == 0 {
    } else if k == 1 {
      assert !AnyIn(t[0], s);
    } else if k == 2 {
      assert !AnyIn(t[0], s) && !AnyIn(t[1], s);
    } else if k == 3 {
      assert !AnyIn(t[0], s) && !AnyIn(t[1], s) && !AnyIn(t[2], s);
    } else if k == 4 {
      assert !AnyIn(t[0], s) && !AnyIn(t[1], s) && !AnyIn(t[2], s) && !AnyIn(t[3], s);
    } else if k == 5 {
      assert !AnyIn(t[0], s) && !AnyIn(t[1], s) && !AnyIn(t[2], s) && !AnyIn(t[3], s) && !AnyIn(t[4], s);
    } else {
      assert !AnyIn(t[0], s) && !AnyIn(t[1], s) && !AnyIn(t[2], s) && !AnyIn(t[3], s) && !AnyIn(t[4], s);
      assert !AnyIn(t[5], s);
    }
  }

  /** `_calculate_daily_suitability_score`: starts at 100, applies the first matching
      temperature band, the first matching condition row and the first matching wind band,
      then clamps. `rainProb` is accepted and ignored, as in the source. */
  method CalculateDailySuitabilityScore(temp: real, description: string, wind: real, rainProb: real)
    returns (score: int)
    ensures score == DailySuitability(temp, description, wind)
    ensures 0 <= score <= 100
  {
    score := 100;
    if temp < 0.0 || temp > 40.0 {
      score := score - 40;
    } else if temp < 5.0 || temp > 35.0 {
      score := score - 25;
    } else if temp < 10.0 || temp > 30.0 {
      score := score - 15;
    } else if 18.0 <= temp <= 28.0 {
      score := score + 10;
    }
    assert score == 100 + DailyTemperatureAdjustment(temp);

    var descLower := Lower(description);
    DailyConditionChain(description);
    if AnyIn(["storm", "hurricane", "tornado"], descLower) {
      score := score - 50;
    } else if AnyIn(["heavy rain", "thunderstorm"], descLower) {
      score := score - 40;
    } else if AnyIn(["rain", "shower"], descLower) {
      score := score - 20;
    } else if AnyIn(["snow", "sleet"], descLower) {
      score := score - 30;
    } else if AnyIn(["clear", "sunny"], descLower) {
      score := score + 15;
    } else if Contains(descLower, "cloud") {
      score := score + 5;
    }

    if wind > 25.0 {
      score := score - 20;
    } else if wind > 15.0 {
      score := score - 10;
    }

    score := if score > 100 then 100 else score;
    score := if score < 0 then 0 else score;
  }

  /** Before clamping the daily score lies between 100 - 110 and 100 + 25. */
  lemma RawDailyScoreBounds(temp: real, description: string, wind: real)
    ensures -10 <= RawDailyScore(temp, description, wind) <= 125
  {
    var k := FirstMatch(DailyConditionKeywords, Lower(description));
    assert forall i :: 0 <= i < |DailyConditionDeltas| ==> -50 <= DailyConditionDeltas[i] <= 15;
  }

  /** The description counts only through its lower-cased form. */
  lemma DailySuitabilityIgnoresCase(temp: real, description: string, wind: real)
    ensures DailySuitability(temp, description, wind) == DailySuitability(temp, Lower(description), wind)
  {
    LowerIdempotent(description);
  }

  /** A description mentioning "thunderstorm" also mentions "storm", so it takes the -50 row;
      the "thunderstorm" keyword of the -40 row can never fire. */
  lemma ThunderstormTakesStormRow(description: string)
    requires Contains(Lower(description), "thunderstorm")
    ensures DailyConditionAdjustment(description) == -50
  {
    var s := Lower(description);
    var i := IndexOf(s, "thunderstorm").value;
    assert s[i + 7..i + 12] == "thunderstorm"[7..12] == "storm";
    ContainsAt(s, "storm", i + 7);
    var row := DailyConditionKeywords[0];
    assert row[0] == "storm";
    assert AnyIn(row, s);
  }

  /** The -40 row is reached only through "heavy rain". */
  lemma HeavyRainRowNeedsHeavyRain(description: string)
    requires DailyConditionAdjustment(description) == -40
    ensures Contains(Lower(description), "heavy rain")
  {
    var s := Lower(description);
    var k := FirstMatch(DailyConditionKeywords, s);
    FirstMatchIsFirst(DailyConditionKeywords, s);
    assert k == 1;
    var row := DailyConditionKeywords[1];
    var j :| 0 <= j < |row| && Contains(s, row[j]);
    if j == 1 {
      ThunderstormTakesStormRow(description);
      assert false;
    }
  }

  /** "clear sky" has none of the keywords of the first four condition rows: each keyword
      has a letter that "clear sky" lacks. */
  lemma ClearSkyMissesRow0()
    ensures !AnyIn(DailyConditionKeywords[0], "clear sky")
  {
    var s := "clear sky";
    var row := DailyConditionKeywords[0];
    assert row == ["storm", "hurricane", "tornado"];
    forall k | 0 <= k < |row|
      ensures !Contains(s, row[k])
    {
      if k == 0 {
        MissingCharExcludes(s, "storm", 1);
      } else if k == 1 {
        MissingCharExcludes(s, "hurricane", 0);
      } else {
        MissingCharExcludes(s, "tornado", 0);
      }
    }
  }

  lemma ClearSkyMissesRow1()
    ensures !AnyIn(DailyConditionKeywords[1], "clear sky")
  {
    var s := "clear sky";
    var row := DailyConditionKeywords[1];
    assert row == ["heavy rain", "thunderstorm"];
    forall k | 0 <= k < |row|
      ensures !Contains(s, row[k])
    {
      if k == 0 {
        MissingCharExcludes(s, "heavy rain", 0);
      } else {
        MissingCharExcludes(s, "thunderstorm", 0);
      }
    }
  }

  lemma ClearSkyMissesRow2()
    ensures !AnyIn(DailyConditionKeywords[2], "clear sky")
  {
    var s := "clear sky";
    var row := DailyConditionKeywords[2];
    assert row == ["rain", "shower"];
    forall k | 0 <= k < |row|
      ensures !Contains(s, row[k])
    {
      if k == 0 {
        MissingCharExcludes(s, "rain", 2);
      } else {
        MissingCharExcludes(s, "shower", 1);
      }
    }
  }

  lemma ClearSkyMissesRow3()
    ensures !AnyIn(DailyConditionKeywords[3], "clear sky")
  {
    var s := "clear sky";
    var row := DailyConditionKeywords[3];
    assert row == ["snow", "sleet"];
    forall k | 0 <= k < |row|
      ensures !Contains(s, row[k])
    {
      if k == 0 {
        MissingCharExcludes(s, "snow", 2);
      } else {
        MissingCharExcludes(s, "sleet", 4);
      }
    }
  }

  /** Worked example: 25 degrees, clear sky, light wind: 100 + 10 + 15 clamps to 100. */
  lemma ClearWarmDayScoresFull()
    ensures DailySuitability(25.0, "clear sky", 5.0) == 100
  {
    var s := "clear sky";
    LowerOfLowerCase(s);
    ClearSkyMissesRow0();
    ClearSkyMissesRow1();
    ClearSkyMissesRow2();
    ClearSkyMissesRow3();
    ContainsAt(s, "clear", 0);
    assert AnyIn(DailyConditionKeywords[4], s) by {
      assert DailyConditionKeywords[4][0] == "clear";
    }
    assert FirstMatch(DailyConditionKeywords, s) == 4;
  }

  /** Worked example: -5 degrees with a thunderstorm scores 100 - 40 - 50 = 10. */
  lemma FreezingThunderstormScoresTen()
    ensures DailySuitability(-5.0, "thunderstorm", 10.0) == 10
  {
    var s := "thunderstorm";
    LowerOfLowerCase(s);
    ContainsAt(s, "thunderstorm", 0);
    ThunderstormTakesStormRow(s);
  }

  // =================================================================================
  // Score labels
  // =================================================================================

  /** `_get_suitability_level` */
  function SuitabilityLevel(score: real): string {
    if score >= 80.0 then "Excellent"
    else if score >= 60.0 then "Good"
    else if score >= 40.0 then "Fair"
    else if score >= 20.0 then "Poor"
    else "Very Poor"
  }

  /** Position of a label on the scale, 0 for "Very Poor" up to 4 for "Excellent". */
  function LevelRank(level: string): nat {
    if level == "Excellent" then 4
    else if level == "Good" then 3
    else if level == "Fair" then 2
    else if level == "Poor" then 1
    else 0
  }

  /** A higher score never gets a lower label. */
  lemma SuitabilityLevelMonotone(a: real, b: real)
    requires a <= b
    ensures LevelRank(SuitabilityLevel(a)) <= LevelRank(SuitabilityLevel(b))
  {
  }

  /** Each label covers exactly one band of scores. */
  lemma SuitabilityLevelBands(score: real)
    ensures SuitabilityLevel(score) == "Excellent" <==> score >= 80.0
    ensures SuitabilityLevel(score) == "Good" <==> 60.0 <= score < 80.0
    ensures SuitabilityLevel(score) == "Fair" <==> 40.0 <= score < 60.0
    ensures SuitabilityLevel(score) == "Poor" <==> 20.0 <= score < 40.0
    ensures SuitabilityLevel(score) == "Very Poor" <==> score < 20.0
  {
  }

  const ExcellentTrip: string := "Excellent weather conditions for your trip!"
  const GoodTrip: string := "Good weather conditions with minor considerations."
  const FairTrip: string := "Fair weather - some days may require alternative plans."
  const PoorTrip: string := "Poor weather conditions - consider rescheduling or indoor alternatives."

  /** `_get_overall_recommendation` */
  function OverallRecommendation(score: real): (r: string)
    ensures r == ExcellentTrip <==> SuitabilityLevel(score) == "Excellent"
    ensures r == GoodTrip <==> SuitabilityLevel(score) == "Good"
    ensures r == FairTrip <==> SuitabilityLevel(score) == "Fair"
    ensures r == PoorTrip <==> LevelRank(SuitabilityLevel(score)) <= 1
  {
    if score >= 80.0 then ExcellentTrip
    else if score >= 60.0 then GoodTrip
    else if score >= 40.0 then FairTrip
    else PoorTrip
  }

  const HeatAdvice: seq<string> := ["Stay hydrated", "Wear light clothing", "Seek shade during peak hours"]
  const ColdAdvice: seq<string> := ["Warm layers needed", "Limit outdoor exposure", "Hot beverages recommended"]
  const RainAdvice: seq<string> := ["Carry umbrella", "Waterproof footwear", "Have indoor backup plans"]
  const StormAdvice: seq<string> := ["Avoid outdoor activities", "Seek shelter if needed", "Check weather alerts"]
  const ClearAdvice: seq<string> :=
    ["Perfect for outdoor activities", "Sunscreen recommended", "Great for photography"]
  const NeutralAdvice: seq<string> := ["Generally good conditions for activities"]

  const RainyWords: seq<string> := ["rain", "drizzle"]
  const StormyWords: seq<string> := ["storm", "thunder"]
  const SunnyWords: seq<string> := ["clear", "sunny"]

  /** Whether the lower-cased description asks for a condition block. */
  predicate HasConditionAdvice(s: string) {
    AnyIn(RainyWords, s) || AnyIn(StormyWords, s) || AnyIn(SunnyWords, s)
  }

  /** `_get_daily_recommendations`: a temperature block (hot or cold), then one condition
      block (rain, else storm, else clear), or the single neutral line when neither applies. */
  function DailyRecommendations(temp: real, description: string): (r: seq<string>)
    ensures |r| in {1, 3, 6}
    ensures r == NeutralAdvice <==> |r| == 1
    ensures temp > 30.0 ==> |r| >= 3 && r[..3] == HeatAdvice
    ensures temp < 10.0 ==> |r| >= 3 && r[..3] == ColdAdvice
    ensures 10.0 <= temp <= 30.0 && AnyIn(RainyWords, Lower(description)) ==> r == RainAdvice
  {
    var s := Lower(description);
    var byTemp := if temp > 30.0 then HeatAdvice else if temp < 10.0 then ColdAdvice else [];
    var byCondition :=
      if AnyIn(RainyWords, s) then RainAdvice
      else if AnyIn(StormyWords, s) then StormAdvice
      else if AnyIn(SunnyWords, s) then ClearAdvice
      else [];
    var all := byTemp + byCondition;
    if all == [] then NeutralAdvice else all
  }
  /** The condition block of the daily advice: it ends with the rain advice for a rain or
      drizzle word, else the storm advice for a storm or thunder word, else the clear advice for
      a clear or sunny word. The advice has six lines exactly when both blocks apply, and is the
      neutral line alone exactly when the day is mild and no condition word occurs. */
  lemma DailyRecommendationsBlocks(temp: real, description: string)
    ensures var r := DailyRecommendations(temp, description);
      var s := Lower(description);
      && (|r| == 1 <==> 10.0 <= temp <= 30.0 && !HasConditionAdvice(s))
      && (|r| == 6 <==> (temp > 30.0 || temp < 10.0) && HasConditionAdvice(s))
      && (AnyIn(RainyWords, s) ==> |r| >= 3 && r[|r| - 3..] == RainAdvice)
      && (!AnyIn(RainyWords, s) && AnyIn(StormyWords, s) ==> |r| >= 3 && r[|r| - 3..] == StormAdvice)
      && (!AnyIn(RainyWords, s) && !AnyIn(StormyWords, s) && AnyIn(SunnyWords, s) ==>
            |r| >= 3 && r[|r| - 3..] == ClearAdvice)
  {
  }


  // =================================================================================
  // Single-point viability score
  // =================================================================================

  /** One axis's contribution: a score delta, an optional reason, an optional advice line. */
  datatype Adjustment = Adjustment(delta: int, reason: Option<string>, advice: Option<string>)

  const NoAdjustment := Adjustment(0, None, None)

  /** Temperature axis of the viability score, as the bands the `if/elif` chain induces. */
  function ViabilityTemperature(t: real): Adjustment {
    if 18.0 <= t <= 28.0 then Adjustment(10, Some("Perfect temperature"), None)
    else if (15.0 <= t < 18.0) || (28.0 < t <= 30.0) then Adjustment(5, Some("Good temperature"), None)
    else if t < 5.0 || 35.0 < t then
      Adjustment(-40, Some("Extreme temperature"), Some("Consider rescheduling due to extreme temperatures"))
    else if (5.0 <= t < 10.0) || (32.0 < t <= 35.0) then Adjustment(-20, Some("Uncomfortable temperature"), None)
    else NoAdjustment
  }

  const ViabilityConditionKeywords: seq<seq<string>> := [
    ["clear", "sunny", "fair"],
    ["cloud", "overcast"],
    ["drizzle", "light rain"],
    ["rain", "shower"],
    ["storm", "thunder"],
    ["snow", "ice"]
  ]
  const ViabilityConditionEffects: seq<Adjustment> := [
    Adjustment(20, Some("Excellent weather conditions"), None),
    Adjustment(5, Some("Cloudy but suitable"), None),
    Adjustment(-10, Some("Light rain expected"), Some("Carry umbrella or raincoat")),
    Adjustment(-25, Some("Rain expected"), Some("Plan indoor activities")),
    Adjustment(-50, Some("Storm conditions"), Some("Consider rescheduling - storm warning")),
    Adjustment(-30, Some("Snow conditions"), Some("Check travel advisories"))
  ]

  /** Condition axis of the viability score: the first matching keyword row. */
  function ViabilityCondition(loweredDescription: string): Adjustment {
    var k := FirstMatch(ViabilityConditionKeywords, loweredDescription);
    if k < |ViabilityConditionEffects| then ViabilityConditionEffects[k] else NoAdjustment
  }

  function ViabilityWind(w: real): Adjustment {
    if 20.0 < w then Adjustment(-15, Some("High winds"), Some("Secure outdoor items"))
    else if 15.0 < w <= 20.0 then Adjustment(-5, Some("Moderate winds"), None)
    else NoAdjustment
  }

  function Present(o: Option<string>): seq<string> {
    if o.Some? then [o.value] else []
  }

  datatype PointViability = PointViability(score: int, reason: string, recommendations: seq<string>)

  /** The viability record of one reading: 100 plus the three axes, clamped; the reasons
      joined by "; " and the advice lines in axis order. */
  function PointViabilityOf(temp: real, loweredDescription: string, wind: real): PointViability {
    var a := ViabilityTemperature(temp);
    var b := ViabilityCondition(loweredDescription);
    var c := ViabilityWind(wind);
    PointViability(
      Clamp(0, 100, 100 + a.delta + b.delta + c.delta),
      Join("; ", Present(a.reason) + Present(b.reason) + Present(c.reason)),
      Present(a.advice) + Present(b.advice) + Present(c.advice))
  }

  /** `_calculate_viability_score` as a value: 0 and "Weather data unavailable" for the
      error record; otherwise the reading with defaults 20 degrees, "" and wind 0. */
  function ViabilityOf(current: CurrentWeather): PointViability {
    match current
    case CurrentUnavailable(_) => PointViability(0, "Weather data unavailable", [])
    case Current(t, d, w) => PointViabilityOf(t.GetOr(20.0), Lower(d.GetOr("")), w.GetOr(0.0))
  }

  lemma ViabilityConditionChain(s: string)
    ensures ViabilityCondition(s) ==
      if AnyIn(["clear", "sunny", "fair"], s) then ViabilityConditionEffects[0]
      else if AnyIn(["cloud", "overcast"], s) then ViabilityConditionEffects[1]
      else if AnyIn(["drizzle", "light rain"], s) then ViabilityConditionEffects[2]
      else if AnyIn(["rain", "shower"], s) then ViabilityConditionEffects[3]
      else if AnyIn(["storm", "thunder"], s) then ViabilityConditionEffects[4]
      else if AnyIn(["snow", "ice"], s) then ViabilityConditionEffects[5]
      else NoAdjustment
  {
    var t := ViabilityConditionKeywords;
    var k := FirstMatch(t, s);
    FirstMatchIsFirst(t, s);
    if k == 0 {
    } else if k == 1 {
      assert !AnyIn(t[0], s);
    } else if k == 2 {
      assert !AnyIn(t[0], s) && !AnyIn(t[1], s);
    } else if k == 3 {
      assert !AnyIn(t[0], s) && !AnyIn(t[1], s) && !AnyIn(t[2], s);
    } else if k == 4 {
      assert !AnyIn(t[0], s) && !AnyIn(t[1], s) && !AnyIn(t[2], s) && !AnyIn(t[3], s);
    } else if k == 5 {
      assert !AnyIn(t[0], s) && !AnyIn(t[1], s) && !AnyIn(t[2], s) && !AnyIn(t[3], s) && !AnyIn(t[4], s);
    } else {
      assert !AnyIn(t[0], s) && !AnyIn(t[1], s) && !AnyIn(t[2], s) && !AnyIn(t[3], s) && !AnyIn(t[4], s);
      assert !AnyIn(t[5], s);
    }
  }

  /** The running state of the viability scorer: score, reasons and advice so far. */
  datatype Tally = Tally(score: int, reasons: seq<string>, advice: seq<string>)

  function Apply(t: Tally, a: Adjustment): Tally {
    Tally(t.score + a.delta, t.reasons + Present(a.reason), t.advice + Present(a.advice))
  }

  /** The temperature block of `_calculate_viability_score`. */
  method TemperatureAxis(tally: Tally, temp: real) returns (r: Tally)
    ensures r == Apply(tally, ViabilityTemperature(temp))
  {
    r := tally;
    if 18.0 <= temp <= 28.0 {
      r := Tally(r.score + 10, r.reasons + ["Perfect temperature"], r.advice);
    } else if 15.0 <= temp <= 30.0 {
      r := Tally(r.score + 5, r.reasons + ["Good temperature"], r.advice);
    } else if temp < 5.0 || temp > 35.0 {
      r := Tally(r.score - 40, r.reasons + ["Extreme temperature"],
                 r.advice + ["Consider rescheduling due to extreme temperatures"]);
    } else if temp < 10.0 || temp > 32.0 {
      r := Tally(r.score - 20, r.reasons + ["Uncomfortable temperature"], r.advice);
    }
  }

  /** The condition block of `_calculate_viability_score`, on the lower-cased description. */
  method ConditionAxis(tally: Tally, description: string) returns (r: Tally)
    ensures r == Apply(tally, ViabilityCondition(description))
  {
    ViabilityConditionChain(description);
    r := tally;
    if AnyIn(["clear", "sunny", "fair"], description) {
      r := Tally(r.score + 20, r.reasons + ["Excellent weather conditions"], r.advice);
    } else if AnyIn(["cloud", "overcast"], description) {
      r := Tally(r.score + 5, r.reasons + ["Cloudy but suitable"], r.advice);
    } else if AnyIn(["drizzle", "light rain"], description) {
      r := Tally(r.score - 10, r.reasons + ["Light rain expected"], r.advice + ["Carry umbrella or raincoat"]);
    } else if AnyIn(["rain", "shower"], description) {
      r := Tally(r.score - 25, r.reasons + ["Rain expected"], r.advice + ["Plan indoor activities"]);
    } else if AnyIn(["storm", "thunder"], description) {
      r := Tally(r.score - 50, r.reasons + ["Storm conditions"], r.advice + ["Consider rescheduling - storm warning"]);
    } else if AnyIn(["snow", "ice"], description) {
      r := Tally(r.score - 30, r.reasons + ["Snow conditions"], r.advice + ["Check travel advisories"]);
    }
  }

  /** The wind block of `_calculate_viability_score`. */
  method WindAxis(tally: Tally, windSpeed: real) returns (r: Tally)
    ensures r == Apply(tally, ViabilityWind(windSpeed))
  {
    r := tally;
    if windSpeed > 20.0 {
      r := Tally(r.score - 15, r.reasons + ["High winds"], r.advice + ["Secure outdoor items"]);
    } else if windSpeed > 15.0 {
      r := Tally(r.score - 5, r.reasons + ["Moderate winds"], r.advice);
    }
  }

  /** `_calculate_viability_score`: a running score from 100 that each axis adjusts in turn,
      with reasons and advice appended as it goes, then clamped. The forecast rows are
      passed but not read. */
  method CalculateViabilityScore(current: CurrentWeather, forecast: seq<ForecastEntry>)
    returns (v: PointViability)
    ensures v == ViabilityOf(current)
    ensures 0 <= v.score <= 100
    ensures current.CurrentUnavailable? ==>
      v.score == 0 && v.reason == "Weather data unavailable" && v.recommendations == []
  {
    if current.CurrentUnavailable? {
      return PointViability(0, "Weather data unavailable", []);
    }
    var temp := current.temperature.GetOr(20.0);
    var description := Lower(current.description.GetOr(""));
    var windSpeed := current.windSpeed.GetOr(0.0);

    var tally := Tally(100, [], []);
    tally := TemperatureAxis(tally, temp);
    tally := ConditionAxis(tally, description);
    tally := WindAxis(tally, windSpeed);

    var a, b, c := ViabilityTemperature(temp), ViabilityCondition(description), ViabilityWind(windSpeed);
    assert tally.reasons == Present(a.reason) + Present(b.reason) + Present(c.reason);
    assert tally.advice == Present(a.advice) + Present(b.advice) + Present(c.advice);
    var score := if tally.score > 100 then 100 else tally.score;
    score := if score < 0 then 0 else score;
    v := PointViability(score, Join("; ", tally.reasons), tally.advice);
  }

  /** In the viability scorer the rain row is checked before the storm row: a description
      with "rain" and "storm" but none of the earlier keywords scores -25, not -50. */
  lemma RainRowPrecedesStormRow(s: string)
    requires Contains(s, "rain") && Contains(s, "storm")
    requires !AnyIn(["clear", "sunny", "fair"], s) && !AnyIn(["cloud", "overcast"], s)
    requires !AnyIn(["drizzle", "light rain"], s)
    ensures ViabilityCondition(s).delta == -25
  {
    ViabilityConditionChain(s);
    assert ["rain", "shower"][0] == "rain";
  }

  // =================================================================================
  // Extended forecast
  // =================================================================================

  /** The (temperature, description, wind) used for day `i`: the forecast row when there is
      one, else the current conditions, with defaults 25 degrees, "clear sky" and 5. */
  function DayInputs(current: CurrentWeather, forecast: seq<ForecastEntry>, i: nat): (real, string, real) {
    var ct := if current.Current? then current.temperature else None;
    var cd := if current.Current? then current.description else None;
    var cw := if current.Current? then current.windSpeed else None;
    if i < |forecast| then
      (forecast[i].temperature.GetOr(ct.GetOr(25.0)),
       forecast[i].description.GetOr(cd.GetOr("clear sky")),
       forecast[i].windSpeed.GetOr(cw.GetOr(5.0)))
    else
      (ct.GetOr(25.0), cd.GetOr("clear sky"), cw.GetOr(5.0))
  }

  /** The entry the day loop appends for day `i`. */
  function DayEntry(current: CurrentWeather, forecast: seq<ForecastEntry>, i: nat, calendar: nat -> CalendarDay)
    : DailyForecast
  {
    var inputs := DayInputs(current, forecast, i);
    var score := DailySuitability(inputs.0, inputs.1, inputs.2);
    DailyForecast(calendar(i).date, calendar(i).dayName, inputs.0, inputs.1, inputs.2, score,
                  SuitabilityLevel(score as real), DailyRecommendations(inputs.0, inputs.1))
  }

  function SumScores(days: seq<DailyForecast>): int {
    if |days| == 0 then 0 else SumScores(days[..|days| - 1]) + days[|days| - 1].suitabilityScore
  }

  /** `sum(scores) / len(scores)` */
  function MeanScore(days: seq<DailyForecast>): real
    requires |days| > 0
  {
    SumScores(days) as real / |days| as real
  }

  lemma {:induction false} SumScoresBounds(days: seq<DailyForecast>)
    requires forall i :: 0 <= i < |days| ==> 0 <= days[i].suitabilityScore <= 100
    ensures 0 <= SumScores(days) <= 100 * |days|
  {
    if |days| > 0 {
      SumScoresBounds(days[..|days| - 1]);
    }
  }

  /** The trip score, a mean of daily scores, stays within the daily range. */
  lemma MeanScoreInRange(days: seq<DailyForecast>)
    requires |days| > 0
    requires forall i :: 0 <= i < |days| ==> 0 <= days[i].suitabilityScore <= 100
    ensures 0.0 <= MeanScore(days) <= 100.0
  {
    SumScoresBounds(days);
    var n := |days| as real;
    var s := SumScores(days) as real;
    assert s <= 100.0 * n;
    assert s / n <= 100.0 by {
      assert s / n * n == s;
    }
  }

  /** Daily scores 80, 60 and 40 give a trip score of 60. */
  lemma MeanScoreExample(a: DailyForecast, b: DailyForecast, c: DailyForecast)
    requires a.suitabilityScore == 80 && b.suitabilityScore == 60 && c.suitabilityScore == 40
    ensures MeanScore([a, b, c]) == 60.0
  {
    assert [a, b, c][..2] == [a, b];
    assert [a, b][..1] == [a];
    assert [a][..0] == [];
    assert SumScores([a]) == 80;
    assert SumScores([a, b]) == 140;
    assert SumScores([a, b, c]) == 180;
  }

  /** The body of the day loop: score day `i` with the daily scorer and label it. */
  method ScoreDay(current: CurrentWeather, forecast: seq<ForecastEntry>, i: nat, calendar: nat -> CalendarDay)
    returns (entry: DailyForecast)
    ensures entry == DayEntry(current, forecast, i, calendar)
  {
    var inputs := DayInputs(current, forecast, i);
    var score := CalculateDailySuitabilityScore(inputs.0, inputs.1, inputs.2, 0.0);
    entry := DailyForecast(calendar(i).date, calendar(i).dayName, inputs.0, inputs.1, inputs.2,
                           score, SuitabilityLevel(score as real), DailyRecommendations(inputs.0, inputs.1));
  }

  /** The entries for days 0 .. n-1, in order. */
  function DayEntries(current: CurrentWeather, forecast: seq<ForecastEntry>, n: nat, calendar: nat -> CalendarDay)
    : (r: seq<DailyForecast>)
    ensures |r| == n
  {
    if n == 0 then [] else DayEntries(current, forecast, n - 1, calendar) + [DayEntry(current, forecast, n - 1, calendar)]
  }

  lemma DayEntriesStep(current: CurrentWeather, forecast: seq<ForecastEntry>, n: nat, calendar: nat -> CalendarDay)
    ensures DayEntries(current, forecast, n + 1, calendar) ==
            DayEntries(current, forecast, n, calendar) + [DayEntry(current, forecast, n, calendar)]
  {
  }

  /** Every day of the built forecast scores within [0, 100]. */
  lemma {:induction false} DayEntriesScoresInRange(current: CurrentWeather, forecast: seq<ForecastEntry>, n: nat,
                                                  calendar: nat -> CalendarDay)
    ensures forall i :: 0 <= i < n ==> 0 <= DayEntries(current, forecast, n, calendar)[i].suitabilityScore <= 100
  {
    if n > 0 {
      DayEntriesScoresInRange(current, forecast, n - 1, calendar);
      var prefix := DayEntries(current, forecast, n - 1, calendar);
      var last := DayEntry(current, forecast, n - 1, calendar);
      var inputs := DayInputs(current, forecast, n - 1);
      assert last.suitabilityScore == DailySuitability(inputs.0, inputs.1, inputs.2);
      var all := DayEntries(current, forecast, n, calendar);
      assert all == prefix + [last];
      forall i | 0 <= i < n
        ensures 0 <= all[i].suitabilityScore <= 100
      {
        if i < n - 1 {
          assert all[i] == prefix[i];
        } else {
          assert all[i] == last;
        }
      }
    }
  }

  /** The day loop of `get_extended_weather_forecast`: one scored entry per trip day,
      none when `duration` is not positive. */
  method BuildDailyForecasts(current: CurrentWeather, forecast: seq<ForecastEntry>, duration: int,
                             calendar: nat -> CalendarDay)
    returns (days: seq<DailyForecast>)
    ensures days == DayEntries(current, forecast, if duration > 0 then duration else 0, calendar)
  {
    var n: nat := if duration > 0 then duration else 0;
    days := [];
    for day := 0 to n
      invariant days == DayEntries(current, forecast, day, calendar)
    {
      var entry := ScoreDay(current, forecast, day, calendar);
      DayEntriesStep(current, forecast, day, calendar);
      days := days + [entry];
    }
  }

  /** The record the extended forecast returns for a non-error bundle and its days. */
  function WithExtended(basic: WeatherData, duration: int, days: seq<DailyForecast>): WeatherData
    requires basic.WeatherReport?
  {
    var overall := if |days| > 0 then MeanScore(days) else basic.viabilityScore.GetOr(50.0);
    basic.(viabilityScore := Some(overall),
           extended := Some(ExtendedAnalysis(Some(days), duration, Some(overall), Some(OverallRecommendation(overall)))))
  }

  /** `get_extended_weather_forecast` after the HTTP call and date parsing: an error bundle is
      returned unchanged; otherwise one entry per trip day (none when the end precedes the
      start), each scored by the daily scorer, their mean written back as `viability_score`
      and as `overall_trip_score` (the basic score, default 50, when there are no days). */
  method ExtendedWeatherForecast(basic: WeatherData, duration: int, calendar: nat -> CalendarDay)
    returns (r: WeatherData)
    ensures basic.WeatherFailure? ==> r == basic
    ensures basic.WeatherReport? ==>
      r == WithExtended(basic, duration,
                        DayEntries(basic.current, basic.forecast, if duration > 0 then duration else 0, calendar))
  {
    if basic.WeatherFailure? {
      return basic;
    }
    var days := BuildDailyForecasts(basic.current, basic.forecast, duration, calendar);
    r := WithExtended(basic, duration, days);
  }

  /** The extended record keeps everything of the basic one except the score, which it
      overwrites with the trip score, and the new analysis, whose score is that same number. */
  lemma WithExtendedKeepsScoresInStep(basic: WeatherData, duration: int, days: seq<DailyForecast>)
    requires basic.WeatherReport?
    ensures var r := WithExtended(basic, duration, days);
      && r.WeatherReport? && r.city == basic.city && r.current == basic.current
      && r.forecast == basic.forecast && r.weatherAnalysis == basic.weatherAnalysis
      && r.viabilityReason == basic.viabilityReason && r.recommendations == basic.recommendations
      && r.extended.Some? && r.extended.value.overallTripScore == r.viabilityScore
      && CanonicalScore(r) == r.viabilityScore.value
      && r.extended.value.dailyForecasts == Some(days)
  {
  }

  /** The trip score of an extended forecast with at least one day lies in [0, 100]. */
  lemma ExtendedTripScoreInRange(basic: WeatherData, duration: int, calendar: nat -> CalendarDay)
    requires basic.WeatherReport? && duration > 0
    ensures var r := WithExtended(basic, duration, DayEntries(basic.current, basic.forecast, duration, calendar));
      0.0 <= r.viabilityScore.value <= 100.0
  {
    var days := DayEntries(basic.current, basic.forecast, duration, calendar);
    DayEntriesScoresInRange(basic.current, basic.forecast, duration, calendar);
    MeanScoreInRange(days);
  }

  // =================================================================================
  // The canonical score
  // =================================================================================

  /** The single canonical trip score of a non-error bundle: the extended analysis's
      `overall_trip_score` when there is one, else `viability_score`, default 50. */
  function CanonicalScore(w: WeatherData): real
    requires w.WeatherReport?
  {
    if w.extended.Some? && w.extended.value.overallTripScore.Some?
    then w.extended.value.overallTripScore.value
    else w.viabilityScore.GetOr(50.0)
  }

  /** The explanation that goes with the canonical score. */
  function CanonicalReason(w: WeatherData): string
    requires w.WeatherReport?
  {
    if w.extended.Some? && w.extended.value.overallTripScore.Some?
    then w.extended.value.overallRecommendation.GetOr("")
    else w.viabilityReason.GetOr("")
  }

  /** After the extended forecast with at least one day, the consistent scorer reads the mean
      of the daily scores, which is also the stored `viability_score`, and labels it. */
  lemma ExtendedScoresAgree(basic: WeatherData, n: nat, calendar: nat -> CalendarDay, showReal: real -> string)
    requires basic.WeatherReport? && n > 0
    ensures var days := DayEntries(basic.current, basic.forecast, n, calendar);
      var r := WithExtended(basic, n, days);
      var c := ConsistentWeatherScore(r, showReal);
      && c.score == MeanScore(days) == r.viabilityScore.value
      && c.level == SuitabilityLevel(MeanScore(days))
      && c.recommendation == OverallRecommendation(MeanScore(days))
  {
    var days := DayEntries(basic.current, basic.forecast, n, calendar);
    var r := WithExtended(basic, n, days);
    assert |days| > 0;
    assert r.extended.value.overallTripScore == Some(MeanScore(days));
    assert CanonicalScore(r) == MeanScore(days);
    assert CanonicalReason(r) == OverallRecommendation(MeanScore(days));
  }

  datatype ConsistentScore = ConsistentScore(
    score: real, level: string, recommendation: string, displayText: Option<string>)

  /** `get_consistent_weather_score`; `showReal` renders a float as Python's `str` does. */
  function ConsistentWeatherScore(w: WeatherData, showReal: real -> string): (r: ConsistentScore)
    ensures w.WeatherFailure? ==>
      r == ConsistentScore(0.0, "Unknown", "Weather data unavailable", None)
    ensures w.WeatherReport? ==>
      r.score == CanonicalScore(w) && r.level == SuitabilityLevel(r.score) &&
      r.recommendation == CanonicalReason(w)
  {
    match w
    case WeatherFailure(_) => ConsistentScore(0.0, "Unknown", "Weather data unavailable", None)
    case WeatherReport(_, _, _, _, _, _, _, _) =>
      var ext := w.extended;
      var (score, recommendation) :=
        if ext.Some? && ext.value.overallTripScore.Some?
        then (ext.value.overallTripScore.value, ext.value.overallRecommendation.GetOr(""))
        else (w.viabilityScore.GetOr(50.0), w.viabilityReason.GetOr(""));
      var level :=
        if score >= 80.0 then "Excellent"
        else if score >= 60.0 then "Good"
        else if score >= 40.0 then "Fair"
        else if score >= 20.0 then "Poor"
        else "Very Poor";
      ConsistentScore(score, level, recommendation, Some(showReal(score) + "/100 - " + level))
  }
}
