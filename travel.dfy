/** The data-collection facade (tools/travel_tools.py): it splits the date range, runs the
    weather, hotel, attraction and flight collaborators, and derives the weather-viability
    verdict from the one canonical trip score. The collaborators' external inputs (HTTP
    replies, search hits, random draws, calendar arithmetic) are bundled as `Outcomes`. */
module TravelTools {
  import opened Common
  import opened Weather
  import opened Flights
  import opened Search

  // =================================================================================
  // Date range
  // =================================================================================

  /** `dates.split(' to ')`: the first part is the start; the second, when there is one, the
      end; otherwise the start again. Parts after the second are ignored. */
  function DateRange(dates: string): (r: (string, string))
    ensures r.0 == Split(dates, " to ")[0]
  {
    var parts := Split(dates, " to ");
    (parts[0], if |parts| > 1 then parts[1] else parts[0])
  }

  /** A space-free string has no occurrence of " to " anywhere, even straddling into
      whatever follows it. */
  lemma NoSeparatorBefore(a: string, rest: string, j: nat)
    requires NoSpace(a) && j < |a|
    ensures !OccursAt(a + rest, " to ", j)
  {
    if j + 4 <= |a + rest| {
      assert (a + rest)[j..j + 4][0] == (a + rest)[j] == a[j];
    }
  }

  lemma SpaceFreeHasNoSeparator(b: string)
    requires NoSpace(b)
    ensures IndexOf(b, " to ").None?
  {
    forall j | 0 <= j && j + 4 <= |b|
      ensures !OccursAt(b, " to ", j)
    {
      assert b[j..j + 4][0] == b[j];
    }
  }

  /** "start to end" with two space-free dates splits back into those two dates. */
  lemma DateRangeOfTwo(a: string, b: string)
    requires NoSpace(a) && NoSpace(b)
    ensures DateRange(a + " to " + b) == (a, b)
  {
    var s := a + " to " + b;
    forall j | 0 <= j < |a|
      ensures !OccursAt(s, " to ", j)
    {
      assert s == a + (" to " + b);
      NoSeparatorBefore(a, " to " + b, j);
    }
    assert s[|a|..|a| + 4] == " to ";
    assert OccursAt(s, " to ", |a|);
    assert IndexOf(s, " to ") == Some(|a|);
    assert s[..|a|] == a;
    assert s[|a| + 4..] == b;
    SpaceFreeHasNoSeparator(b);
    assert Split(b, " to ") == [b];
    assert Split(s, " to ") == [a, b];
  }

  /** A single space-free date is both the start and the end. */
  lemma DateRangeOfOne(a: string)
    requires NoSpace(a)
    ensures DateRange(a) == (a, a)
  {
    SpaceFreeHasNoSeparator(a);
    assert Split(a, " to ") == [a];
  }

  // =================================================================================
  // Weather viability
  // =================================================================================

  datatype Viability = Viability(
    viable: bool, score: real, reason: string, warnings: seq<string>, recommendations: seq<string>)

  const NoWeatherViability: Viability := Viability(
    false, 0.0, "Weather data unavailable", ["Cannot verify weather conditions"], ["Check weather manually"])

  /** `check_weather_viability`: an error bundle gives the fixed unavailable verdict. Otherwise
      the score is the canonical trip score, viable exactly when it is at least 40, with one
      warning below 50 ("Poor" below 30, "Moderate" from 30) and none from 50 on. */
  function CheckWeatherViability(w: WeatherData): (v: Viability)
    ensures w.WeatherFailure? ==> v == NoWeatherViability
    ensures w.WeatherReport? ==>
      && v.score == CanonicalScore(w)
      && v.reason == CanonicalReason(w)
      && v.recommendations == w.recommendations.GetOr([])
      && (v.viable <==> v.score >= 40.0)
      && (v.score < 30.0 <==> v.warnings == ["Poor weather conditions expected"])
      && (30.0 <= v.score < 50.0 <==> v.warnings == ["Moderate weather conditions"])
      && (v.score >= 50.0 <==> v.warnings == [])
  {
    if w.WeatherFailure? then NoWeatherViability
    else
      var score := CanonicalScore(w);
      var warnings :=
        if score < 30.0 then ["Poor weather conditions expected"]
        else if score < 50.0 then ["Moderate weather conditions"]
        else [];
      Viability(score >= 40.0, score, CanonicalReason(w), warnings, w.recommendations.GetOr([]))
  }

  /** The viability check and `get_consistent_weather_score` read the same score and the same
      explanation, so the planner's routing and the displayed level never disagree. */
  lemma ViabilityAgreesWithConsistentScore(w: WeatherData, showReal: real -> string)
    ensures CheckWeatherViability(w).score == ConsistentWeatherScore(w, showReal).score
    ensures w.WeatherReport? ==>
      CheckWeatherViability(w).reason == ConsistentWeatherScore(w, showReal).recommendation
  {
  }

  /** A verdict that is not viable but scores at least 30 (the planner's "conditional" case)
      always carries the moderate warning. */
  lemma ConditionalCarriesModerateWarning(w: WeatherData)
    requires w.WeatherReport?
    requires !CheckWeatherViability(w).viable && CheckWeatherViability(w).score >= 30.0
    ensures CheckWeatherViability(w).warnings == ["Moderate weather conditions"]
  {
  }

  /** After an extended forecast with at least one day, the viability score is that forecast's
      trip score and lies in [0, 100]. */
  lemma ExtendedViabilityScoreInRange(basic: WeatherData, duration: int, calendar: nat -> CalendarDay)
    requires basic.WeatherReport? && duration > 0
    ensures var r := WithExtended(basic, duration, DayEntries(basic.current, basic.forecast, duration, calendar));
      && CheckWeatherViability(r).score == r.extended.value.overallTripScore.value
      && 0.0 <= CheckWeatherViability(r).score <= 100.0
  {
    var days := DayEntries(basic.current, basic.forecast, duration, calendar);
    WithExtendedKeepsScoresInStep(basic, duration, days);
    ExtendedTripScoreInRange(basic, duration, calendar);
  }

  // =================================================================================
  // Collecting everything
  // =================================================================================

  /** What the collaborators receive from outside: the basic forecast, the trip length the
      date arithmetic yields for the start and end dates (None when a date does not parse, with
      the parser's message), the calendar, the search hits and the random draws. */
  datatype Outcomes = Outcomes(
    basicWeather: WeatherData,
    tripDays: Option<int>,
    dateError: string,
    calendar: nat -> CalendarDay,
    hotelHits: seq<HotelHit>,
    hotelDraws: seq<HotelDraw>,
    attractionSearch: Option<seq<AttractionHit>>,
    attractionDraws: seq<AttractionDraw>,
    flightSearch: Option<seq<Option<Flight>>>,
    flightDraws: seq<MockDraw>,
    travelInfo: seq<SearchHit>)

  /** The result of `get_extended_weather_forecast`: an error bundle from the basic forecast
      is passed on, a date that does not parse becomes an error bundle, otherwise the basic
      bundle is extended with the day-by-day analysis. */
  function ExtendedForecast(o: Outcomes): (w: WeatherData)
    ensures o.basicWeather.WeatherFailure? ==> w == o.basicWeather
    ensures o.basicWeather.WeatherReport? && o.tripDays.None? ==>
      w == WeatherFailure("Extended weather forecast error: " + o.dateError)
  {
    if o.basicWeather.WeatherFailure? then o.basicWeather
    else if o.tripDays.None? then WeatherFailure("Extended weather forecast error: " + o.dateError)
    else
      var n := o.tripDays.value;
      WithExtended(o.basicWeather, n,
                   DayEntries(o.basicWeather.current, o.basicWeather.forecast, if n > 0 then n else 0, o.calendar))
  }

  /** The weather step of the collection: `get_extended_weather_forecast` on the two dates. */
  method CollectWeather(o: Outcomes) returns (weather: WeatherData)
    ensures weather == ExtendedForecast(o)
  {
    if o.basicWeather.WeatherFailure? {
      weather := o.basicWeather;
    } else if o.tripDays.None? {
      weather := WeatherFailure("Extended weather forecast error: " + o.dateError);
    } else {
      weather := ExtendedWeatherForecast(o.basicWeather, o.tripDays.value, o.calendar);
    }
  }

  /** `weather_data.get('weather_analysis', 'Weather information not available')` */
  function AnalysisText(w: WeatherData): string {
    if w.WeatherReport? then w.weatherAnalysis.GetOr("Weather information not available")
    else "Weather information not available"
  }

  datatype TravelData =
    | CollectionFailed(error: string)
    | Collected(
        weatherData: WeatherData,
        weatherAnalysis: string,
        weatherViability: Viability,
        hotelOptions: seq<Hotel>,
        attractionOptions: seq<Attraction>,
        flightOptions: seq<Flight>,
        searchResults: seq<SearchHit>,
        destination: string)

  /** Whether the flight search raises for these inputs: fewer than two usable web results
      and an origin with no words, so no route key for the mock generator. */
  predicate FlightSearchRaises(origin: string, destination: string, o: Outcomes) {
    |WebFlights(o.flightSearch)| < 2 && RouteKey(origin, destination).None?
  }

  /** The hotels `search_hotels` returns: at least three distinct valid web hotels, at most
      six of them, or else the destination's template hotels. */
  function HotelResults(destination: string, budget: real, o: Outcomes): seq<Hotel>
    requires |o.hotelDraws| == |UsedTemplates(destination)|
  {
    var found := Collect(ParsedHotels(o.hotelHits, destination, Some(budget)));
    if |found| >= 3 then Take(found, 6)
    else TemplateHotels(UsedTemplates(destination), destination, Some(budget), o.hotelDraws)
  }

  /** The attractions `search_attractions` returns: the database entries when the search
      fails, otherwise the distinct parsed ones, topped up from the database below four and
      cut at eight. */
  function AttractionResults(destination: string, o: Outcomes): seq<Attraction>
    requires |o.attractionDraws| == |AttractionDatabase(DestinationKey(destination))|
  {
    if o.attractionSearch.None? then DestinationAttractions(destination, o.attractionDraws)
    else
      var found := Unique(ParsedAttractions(o.attractionSearch.value));
      Take(if |found| < 4 then TopUp(found, DestinationAttractions(destination, o.attractionDraws)) else found, 8)
  }

  /** The flights `search_flights` returns when it does not raise: the web results when at
      least two survive, otherwise the sorted mock list. */
  function FlightResults(destination: string, budget: real, origin: string, startDate: string,
                         o: Outcomes): seq<Flight>
    requires !FlightSearchRaises(origin, destination, o)
  {
    if |WebFlights(o.flightSearch)| >= 2 then WebFlights(o.flightSearch)
    else SortedMockFlights(origin, destination, startDate, budget, o.flightDraws)
  }

  /** The three searches of the collection, in order: hotels, attractions, flights. */
  method SearchOptions(destination: string, budget: real, origin: string, startDate: string,
                       o: Outcomes)
    returns (hotels: seq<Hotel>, attractions: seq<Attraction>, flights: FlightSearch)
    requires |o.hotelDraws| == |UsedTemplates(destination)|
    requires |o.attractionDraws| == |AttractionDatabase(DestinationKey(destination))|
    requires |o.flightDraws| == 4
    ensures hotels == HotelResults(destination, budget, o)
    ensures |hotels| <= 6
    ensures forall i, j :: 0 <= i < j < |hotels| ==> hotels[i].name != hotels[j].name
    ensures attractions == AttractionResults(destination, o)
    ensures |attractions| <= 8
    ensures flights.FlightSearchRaised? <==> FlightSearchRaises(origin, destination, o)
    ensures flights.FlightSearchRaised? ==> flights.error == IndexErrorText
    ensures flights.FlightSearchResult? ==>
      flights.flights == FlightResults(destination, budget, origin, startDate, o) && 2 <= |flights.flights| <= 4
  {
    hotels := SearchHotels(destination, Some(budget), o.hotelHits, o.hotelDraws);
    attractions := SearchAttractions(destination, o.attractionSearch, o.attractionDraws);
    flights := SearchFlights(origin, destination, startDate, budget, o.flightSearch, o.flightDraws);
  }

  /** `get_comprehensive_travel_data`. The only collaborator that can raise is the flight
      search, and then the whole collection fails with its message. Otherwise the bundle holds
      the extended forecast, its analysis text (a fixed default when absent), the viability
      verdict derived from that same forecast, the hotel, attraction and flight lists within
      their caps, and the destination. */
  method GetComprehensiveTravelData(destination: string, dates: string, budget: real,
                                    origin: string, o: Outcomes) returns (r: TravelData)
    requires |o.hotelDraws| == |UsedTemplates(destination)|
    requires |o.attractionDraws| == |AttractionDatabase(DestinationKey(destination))|
    requires |o.flightDraws| == 4
    ensures r.CollectionFailed? <==> FlightSearchRaises(origin, destination, o)
    ensures r.CollectionFailed? ==> r.error == "Travel data collection failed: " + IndexErrorText
    ensures r.Collected? ==>
      && r.weatherData == ExtendedForecast(o)
      && r.weatherViability == CheckWeatherViability(r.weatherData)
      && r.weatherAnalysis == AnalysisText(r.weatherData)
      && r.hotelOptions == HotelResults(destination, budget, o)
      && |r.hotelOptions| <= 6
      && (forall i, j :: 0 <= i < j < |r.hotelOptions| ==> r.hotelOptions[i].name != r.hotelOptions[j].name)
      && r.attractionOptions == AttractionResults(destination, o)
      && |r.attractionOptions| <= 8
      && r.flightOptions == FlightResults(destination, budget, origin, DateRange(dates).0, o)
      && 2 <= |r.flightOptions| <= 4
      && r.searchResults == o.travelInfo
      && r.destination == destination
  {
    var (startDate, _) := DateRange(dates);
    var weather := CollectWeather(o);
    var analysis := AnalysisText(weather);
    var hotels, attractions, flightResult := SearchOptions(destination, budget, origin, startDate, o);
    if flightResult.FlightSearchRaised? {
      return CollectionFailed("Travel data collection failed: " + flightResult.error);
    }
    var viability := CheckWeatherViability(weather);
    r := Collected(weather, analysis, viability, hotels, attractions, flightResult.flights,
                   o.travelInfo, destination);
  }

}
