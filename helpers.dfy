/** The two helpers of the user interface: checking the trip request before planning
    (`validate_user_input`) and rendering a finished plan as text (`format_itinerary_display`).
    Floats are rendered by a `showReal` parameter, as in the other modules. */
module Helpers {
  import opened Common
  import opened Weather
  import opened TravelTools
  import opened Search
  import opened Flights

  // =================================================================================
  // Input validation
  // =================================================================================

  /** The fields of the request that the validator reads; `None` is an absent key. */
  datatype UserInput = UserInput(
    destination: Option<string>,
    travelDates: Option<string>,
    duration: Option<int>,
    budget: Option<int>)

  datatype Validation = Validation(valid: bool, errors: seq<string>)

  const DestinationError: string := "Destination is required"
  const DatesError: string := "Travel dates are required"
  const DurationError: string := "Duration must be at least 1 day"
  const BudgetError: string := "Budget must be at least $50"

  /** The messages, in the order the checks run. */
  const ErrorMessages: seq<string> := [DestinationError, DatesError, DurationError, BudgetError]

  /** `not d.get(key)` for a text field: absent or empty. */
  predicate MissingText(o: Option<string>) {
    o.None? || o.value == ""
  }

  /** `not d.get(key) or d.get(key, 0) < least` for a number: absent, zero or too small. */
  predicate TooSmall(o: Option<int>, least: int) {
    o.None? || o.value == 0 || o.value < least
  }

  /** Which of the four checks fail, in the order they run. */
  function Problems(u: UserInput): (r: seq<bool>)
    ensures |r| == 4
  {
    [MissingText(u.destination), MissingText(u.travelDates), TooSmall(u.duration, 1), TooSmall(u.budget, 50)]
  }

  /** The messages whose flag is set, keeping their order. */
  function Selected(flags: seq<bool>, msgs: seq<string>): (r: seq<string>)
    requires |flags| == |msgs|
    ensures |r| <= |msgs|
    ensures forall m :: m in r ==> m in msgs
  {
    if |flags| == 0 then []
    else (if flags[0] then [msgs[0]] else []) + Selected(flags[1..], msgs[1..])
  }

  /** With distinct messages, a message is selected exactly when its flag is set. */
  lemma {:induction false} SelectedHas(flags: seq<bool>, msgs: seq<string>, k: nat)
    requires |flags| == |msgs| && k < |msgs|
    requires forall i, j :: 0 <= i < j < |msgs| ==> msgs[i] != msgs[j]
    ensures msgs[k] in Selected(flags, msgs) <==> flags[k]
    decreases |msgs|
  {
    var rest := Selected(flags[1..], msgs[1..]);
    assert Selected(flags, msgs) == (if flags[0] then [msgs[0]] else []) + rest;
    if k == 0 {
      assert forall i :: 0 <= i < |msgs[1..]| ==> msgs[1..][i] == msgs[i + 1] != msgs[0];
      assert msgs[0] !in msgs[1..];
    } else {
      SelectedHas(flags[1..], msgs[1..], k - 1);
      assert msgs[1..][k - 1] == msgs[k];
    }
  }

  /** Nothing is selected exactly when no flag is set. */
  lemma {:induction false} SelectedEmpty(flags: seq<bool>, msgs: seq<string>)
    requires |flags| == |msgs|
    ensures Selected(flags, msgs) == [] <==> forall k :: 0 <= k < |flags| ==> !flags[k]
    decreases |flags|
  {
    if |flags| > 0 {
      SelectedEmpty(flags[1..], msgs[1..]);
      assert forall k :: 1 <= k < |flags| ==> flags[k] == flags[1..][k - 1];
    }
  }

  /** The error list `validate_user_input` should produce. */
  function ExpectedErrors(u: UserInput): seq<string> {
    Selected(Problems(u), ErrorMessages)
  }

  /** Selecting over one more flag adds its message at the end when the flag is set. */
  lemma {:induction false} SelectedSnoc(flags: seq<bool>, msgs: seq<string>, f: bool, x: string)
    requires |flags| == |msgs|
    ensures Selected(flags + [f], msgs + [x]) == Selected(flags, msgs) + (if f then [x] else [])
    decreases |flags|
  {
    if |flags| == 0 {
      assert Selected([f], [x]) == (if f then [x] else []) + Selected([], []);
    } else {
      assert (flags + [f])[1..] == flags[1..] + [f];
      assert (msgs + [x])[1..] == msgs[1..] + [x];
      SelectedSnoc(flags[1..], msgs[1..], f, x);
    }
  }

  /** The expected errors, check by check, in the order the checks run. */
  lemma ExpectedErrorsInOrder(u: UserInput)
    ensures ExpectedErrors(u) ==
      (if MissingText(u.destination) then [DestinationError] else []) +
      (if MissingText(u.travelDates) then [DatesError] else []) +
      (if TooSmall(u.duration, 1) then [DurationError] else []) +
      (if TooSmall(u.budget, 50) then [BudgetError] else [])
  {
    var p := Problems(u);
    var m := ErrorMessages;
    SelectedSnoc([], [], p[0], m[0]);
    assert [] + [p[0]] == [p[0]] && [] + [m[0]] == [m[0]];
    SelectedSnoc([p[0]], [m[0]], p[1], m[1]);
    assert [p[0]] + [p[1]] == [p[0], p[1]] && [m[0]] + [m[1]] == [m[0], m[1]];
    SelectedSnoc([p[0], p[1]], [m[0], m[1]], p[2], m[2]);
    assert [p[0], p[1]] + [p[2]] == [p[0], p[1], p[2]] && [m[0], m[1]] + [m[2]] == [m[0], m[1], m[2]];
    SelectedSnoc([p[0], p[1], p[2]], [m[0], m[1], m[2]], p[3], m[3]);
    assert [p[0], p[1], p[2]] + [p[3]] == p && [m[0], m[1], m[2]] + [m[3]] == m;
  }

  /** `validate_user_input`: each failing check appends its message, in the order
      destination, dates, duration, budget; the input is valid when none was appended. */
  method ValidateUserInput(u: UserInput) returns (v: Validation)
    ensures v.errors == ExpectedErrors(u)
    ensures v.valid <==> v.errors == []
  {
    var errors: seq<string> := [];
    if MissingText(u.destination) {
      errors := errors + [DestinationError];
    }
    if MissingText(u.travelDates) {
      errors := errors + [DatesError];
    }
    if TooSmall(u.duration, 1) {
      errors := errors + [DurationError];
    }
    if TooSmall(u.budget, 50) {
      errors := errors + [BudgetError];
    }
    ExpectedErrorsInOrder(u);
    v := Validation(|errors| == 0, errors);
  }

  /** What the validator's verdict means: each message is reported exactly when its field
      fails, and the input is accepted exactly when the destination and dates are given,
      the duration is at least one day and the budget at least 50. */
  lemma ValidationMeaning(u: UserInput)
    ensures DestinationError in ExpectedErrors(u) <==> MissingText(u.destination)
    ensures DatesError in ExpectedErrors(u) <==> MissingText(u.travelDates)
    ensures DurationError in ExpectedErrors(u) <==> TooSmall(u.duration, 1)
    ensures BudgetError in ExpectedErrors(u) <==> TooSmall(u.budget, 50)
    ensures ExpectedErrors(u) == [] <==>
      && !MissingText(u.destination) && !MissingText(u.travelDates)
      && u.duration.Some? && u.duration.value >= 1
      && u.budget.Some? && u.budget.value >= 50
  {
    var p := Problems(u);
    SelectedHas(p, ErrorMessages, 0);
    SelectedHas(p, ErrorMessages, 1);
    SelectedHas(p, ErrorMessages, 2);
    SelectedHas(p, ErrorMessages, 3);
    SelectedEmpty(p, ErrorMessages);
  }

  // =================================================================================
  // Title case
  // =================================================================================

  predicate IsLetter(c: char) {
    'a' <= c <= 'z' || 'A' <= c <= 'Z'
  }

  /** `s.title()` on ASCII letters: a letter that follows a letter is lower-cased, any
      other letter is upper-cased; other characters are kept. */
  function Title(s: string): (r: string)
    ensures |r| == |s|
    ensures forall i :: 0 <= i < |s| && !IsLetter(s[i]) ==> r[i] == s[i]
    ensures forall i :: 0 <= i < |s| && IsLetter(s[i]) && (i == 0 || !IsLetter(s[i - 1])) ==>
              'A' <= r[i] <= 'Z'
    ensures forall i :: 0 < i < |s| && IsLetter(s[i]) && IsLetter(s[i - 1]) ==> 'a' <= r[i] <= 'z'
  {
    seq(|s|, i requires 0 <= i < |s| =>
      if i > 0 && IsLetter(s[i - 1]) then LowerChar(s[i]) else UpperChar(s[i]))
  }

  /** Title-casing changes only the case of letters: lower-cased, the two are equal. */
  lemma TitleKeepsLetters(s: string)
    ensures Lower(Title(s)) == Lower(s)
  {
    var r := Title(s);
    forall i | 0 <= i < |s|
      ensures Lower(r)[i] == Lower(s)[i]
    {
      assert LowerChar(UpperChar(s[i])) == LowerChar(s[i]);
      assert LowerChar(LowerChar(s[i])) == LowerChar(s[i]);
    }
  }

  /** Title-casing twice changes nothing more. */
  lemma TitleIdempotent(s: string)
    ensures Title(Title(s)) == Title(s)
  {
    var t := Title(s);
    forall i | 0 <= i < |s|
      ensures Title(t)[i] == t[i]
    {
      if i > 0 {
        assert IsLetter(t[i - 1]) == IsLetter(s[i - 1]);
      }
    }
  }

  lemma BudgetTitle()
    ensures Title("budget") == "Budget"
  {
  }

  lemma MidRangeTitle()
    ensures Title("mid-range") == "Mid-Range"
  {
    assert !IsLetter('-');
  }

  lemma LuxuryTitle()
    ensures Title("luxury") == "Luxury"
  {
  }

  /** The hotel price categories come out as "Budget", "Mid-Range" and "Luxury". */
  lemma PriceRangeTitles()
    ensures Title(Category.Budget.Name()) == "Budget"
    ensures Title(Category.MidRange.Name()) == "Mid-Range"
    ensures Title(Category.Luxury.Name()) == "Luxury"
  {
    BudgetTitle();
    MidRangeTitle();
    LuxuryTitle();
  }

  // =================================================================================
  // Itinerary display
  // =================================================================================

  /** The fields of a finished plan that the display reads; `None` is an absent key. */
  datatype DisplayInput = DisplayInput(
    itinerary: Option<string>,
    destination: Option<string>,
    duration: Option<int>,
    travelType: Option<string>,
    weatherData: Option<WeatherData>,
    weatherAnalysis: Option<string>,
    hotelOptions: Option<seq<Hotel>>,
    flightOptions: Option<seq<Flight>>,
    alternativeSuggestions: Option<seq<string>>)

  const NoItinerary: string := "No itinerary generated."

  const HeaderLead: string :=
    "    \U{1F5FA}\U{FE0F} TRAVEL ITINERARY\n    ===================\n    \n    Destination: "
  const DurationLabel: string := "\n    Duration: "
  const TravelTypeLabel: string := " days\n    Travel Type: "
  const ItineraryLabel: string := "\n    \n    \U{1F4CB} ITINERARY:\n    "
  const HeaderClose: string := "\n    \n    "

  function DurationText(o: Option<int>): string {
    if o.Some? then IntToString(o.value) else "Unknown"
  }

  /** The opening block: the destination after its label, the duration and travel type, and
      the itinerary text under its heading. */
  function Header(d: DisplayInput): (r: string)
    requires d.itinerary.Some?
    ensures |r| > 0 && r[0] == '\n'
    ensures Contains(r, HeaderLead + d.destination.GetOr("Unknown"))
    ensures Contains(r, DurationLabel + DurationText(d.duration) + TravelTypeLabel + d.travelType.GetOr("Leisure"))
    ensures Contains(r, ItineraryLabel + d.itinerary.value)
  {
    var destination := HeaderLead + d.destination.GetOr("Unknown");
    var facts := DurationLabel + DurationText(d.duration) + TravelTypeLabel + d.travelType.GetOr("Leisure");
    var body := ItineraryLabel + d.itinerary.value;
    ContainsHalves("\n", destination);
    ContainsLeft("\n" + destination, facts, destination);
    ContainsLeft("\n" + destination + facts, body, destination);
    ContainsLeft("\n" + destination + facts + body, HeaderClose, destination);
    ContainsHalves("\n" + destination, facts);
    ContainsLeft("\n" + destination + facts, body, facts);
    ContainsLeft("\n" + destination + facts + body, HeaderClose, facts);
    ContainsHalves("\n" + destination + facts, body);
    ContainsLeft("\n" + destination + facts + body, HeaderClose, body);
    "\n" + destination + facts + body + HeaderClose
  }

  // ---------------------------------------------------------------------------------
  // Weather
  // ---------------------------------------------------------------------------------

  /** The marker the weather analysis writes before its own score. */
  const ScoreMarker: string := "Weather viability score:"

  /** `weather_analysis.split('Weather viability score:')[0].strip()` */
  function CleanAnalysis(a: string): (r: string)
    ensures !Contains(r, ScoreMarker)
  {
    var head := Split(a, ScoreMarker)[0];
    SplitPiecesFree(a, ScoreMarker);
    StripKeepsOut(head, ScoreMarker);
    Strip(head)
  }

  /** Text without the marker is only stripped. */
  lemma CleanWithoutMarker(a: string)
    requires !Contains(a, ScoreMarker)
    ensures CleanAnalysis(a) == Strip(a)
  {
    IndexOfFindsContains(a, ScoreMarker);
    SplitFirst(a, ScoreMarker);
  }

  /** The marker's only colon is its last character, so no proper suffix of it is also a
      prefix of it. */
  lemma MarkerColonLast()
    ensures ScoreMarker[|ScoreMarker| - 1] == ':'
    ensures forall p :: 0 <= p < |ScoreMarker| - 1 ==> ScoreMarker[p] != ':'
  {
  }

  /** A marker cannot start inside a text that lacks it and end inside the marker after it. */
  lemma NoEarlierMarker(a: string, rest: string, k: nat)
    requires !Contains(a, ScoreMarker) && k < |a|
    ensures !OccursAt(a + ScoreMarker + rest, ScoreMarker, k)
  {
    var s := a + ScoreMarker + rest;
    var m := |ScoreMarker|;
    if k + m <= |s| {
      if k + m <= |a| {
        NotContains(a, ScoreMarker, k);
        assert s[k..k + m] == a[k..k + m];
      } else {
        var p := k + m - 1 - |a|;
        MarkerColonLast();
        assert s[k..k + m][m - 1] == ScoreMarker[p];
        assert s[k..k + m][m - 1] != ScoreMarker[m - 1];
      }
    }
  }

  /** Everything from the first marker on is cut off. */
  lemma CleanCutsAtMarker(a: string, rest: string)
    requires !Contains(a, ScoreMarker)
    ensures CleanAnalysis(a + ScoreMarker + rest) == Strip(a)
  {
    var s := a + ScoreMarker + rest;
    assert s[|a|..|a| + |ScoreMarker|] == ScoreMarker;
    ContainsAt(s, ScoreMarker, |a|);
    IndexOfFindsContains(s, ScoreMarker);
    FirstOccurrenceBound(s, ScoreMarker, |a|);
    forall j | 0 <= j < |a|
      ensures !OccursAt(s, ScoreMarker, j)
    {
      NoEarlierMarker(a, rest, j);
    }
    assert IndexOf(s, ScoreMarker) == Some(|a|);
    SplitFirst(s, ScoreMarker);
    assert s[..|a|] == a;
  }

  /** The score and the explanation the display picks: the extended analysis's trip score and
      recommendation when it has a trip score, else the basic viability score (default 50)
      and reason. */
  function ScoreSource(w: WeatherData): (real, string)
    requires w.WeatherReport?
  {
    var ext := w.extended;
    if ext.Some? && ext.value.overallTripScore.Some?
    then (ext.value.overallTripScore.value, ext.value.overallRecommendation.GetOr(""))
    else (w.viabilityScore.GetOr(50.0), w.viabilityReason.GetOr(""))
  }

  /** The display shows the same score and explanation as the viability check and as
      `get_consistent_weather_score`. */
  lemma DisplayedScoreIsCanonical(w: WeatherData, showReal: real -> string)
    requires w.WeatherReport?
    ensures ScoreSource(w).0 == CanonicalScore(w) == CheckWeatherViability(w).score
    ensures ScoreSource(w).0 == ConsistentWeatherScore(w, showReal).score
    ensures ScoreSource(w).1 == CanonicalReason(w) == CheckWeatherViability(w).reason
  {
  }

  const WeatherLead: string := "\n    \U{1F324}\U{FE0F} WEATHER ANALYSIS:\n    "
  const ScoreLabel: string := "\n    \n    Overall Weather Score: "
  const ScoreSeparator: string := "/100 - "
  const WeatherClose: string := "\n    "

  /** The score line. The basic `viability_score` is a Python `int` (rendered without a
      fractional part) while the trip score is a `float`; both are rendered here by the one
      `showReal` parameter, so the `int` case is not distinguished. */
  function ScoreLine(score: real, recommendation: string, showReal: real -> string): string {
    ScoreLabel + showReal(score) + ScoreSeparator + recommendation
  }

  function WeatherBlock(analysis: string, score: real, recommendation: string, showReal: real -> string): string {
    WeatherLead + analysis + ScoreLine(score, recommendation, showReal) + WeatherClose
  }

  const DailyHeading: string := "\n    \U{1F4C5} DAILY WEATHER FORECAST:\n"
  const Bullet: string := "    \U{2022} "

  function DailyLine(day: DailyForecast, showReal: real -> string): string {
    Bullet + day.dayName + ": " + Title(day.description) + ", " + showReal(day.temperature) + "°C (" +
    day.suitabilityLevel + ")\n"
  }

  function DailyTexts(days: seq<DailyForecast>, showReal: real -> string): (r: seq<string>)
    ensures |r| == |days|
  {
    seq(|days|, k requires 0 <= k < |days| => DailyLine(days[k], showReal))
  }

  lemma DailyTextsStep(days: seq<DailyForecast>, k: nat, showReal: real -> string)
    requires k < |days|
    ensures Concat(DailyTexts(days[..k + 1], showReal)) ==
            Concat(DailyTexts(days[..k], showReal)) + DailyLine(days[k], showReal)
  {
    assert DailyTexts(days[..k + 1], showReal) == DailyTexts(days[..k], showReal) + [DailyLine(days[k], showReal)];
    ConcatStep(DailyTexts(days[..k], showReal), DailyLine(days[k], showReal));
  }

  /** The day-by-day list, present when the extended analysis has daily forecasts. */
  function DailySection(w: WeatherData, showReal: real -> string): (r: string)
    requires w.WeatherReport?
    ensures r == "" <==> w.extended.None? || w.extended.value.dailyForecasts.None?
  {
    var ext := w.extended;
    if ext.Some? && ext.value.dailyForecasts.Some?
    then DailyHeading + Concat(DailyTexts(ext.value.dailyForecasts.value, showReal))
    else ""
  }

  /** The weather part of the display: present exactly when a weather bundle without an
      error was passed. */
  function WeatherSection(d: DisplayInput, showReal: real -> string): (r: string)
    ensures r == "" <==> d.weatherData.None? || d.weatherData.value.WeatherFailure?
  {
    match d.weatherData
    case None => ""
    case Some(w) =>
      if w.WeatherFailure? then ""
      else
        var (score, recommendation) := ScoreSource(w);
        WeatherBlock(CleanAnalysis(d.weatherAnalysis.GetOr("")), score, recommendation, showReal) +
        DailySection(w, showReal)
  }

  // ---------------------------------------------------------------------------------
  // Hotels, flights and alternatives
  // ---------------------------------------------------------------------------------

  /** A numbered line, numbering from 1: `f"    {i}. {text}\n"`. */
  function NumberLine(i: nat, text: string): string {
    "    " + NatToString(i) + ". " + text + "\n"
  }

  const HotelsHeading: string := "\n    \U{1F3E8} ACCOMMODATION OPTIONS:\n"
  const MaxHotels: nat := 4
  const MaxAmenities: nat := 3

  /** The amenity line: the first three amenities, or nothing when there are none. */
  function AmenityLine(amenities: seq<string>): (r: string)
    ensures r == "" <==> amenities == []
  {
    var shown := Take(amenities, MaxAmenities);
    if shown == [] then "" else "       \U{2705} " + Join(", ", shown) + "\n"
  }

  /** The amenity line names each of the first three amenities. */
  lemma AmenityLineShowsFirstThree(amenities: seq<string>, j: nat)
    requires j < |amenities| && j < MaxAmenities
    ensures Contains(AmenityLine(amenities), amenities[j])
  {
    var shown := Take(amenities, MaxAmenities);
    JoinContains(", ", shown, j);
    ContainsInContext("       \U{2705} ", Join(", ", shown), "\n", amenities[j]);
  }

  /** Price and rating, distance to the centre, and the price category. */
  function HotelFacts(h: Hotel, showReal: real -> string): string {
    "       \U{1F4B0} $" + IntToString(h.pricePerNight) + "/night | \U{2B50} " + showReal(h.rating) + "/5\n" +
    "       \U{1F4CD} " + h.distanceCenter + " from center\n" +
    "       \U{1F3F7}\U{FE0F} " + Title(h.priceRange) + "\n"
  }

  function HotelDetails(h: Hotel, showReal: real -> string): string {
    HotelFacts(h, showReal) + AmenityLine(h.amenities) + "\n"
  }

  function HotelEntry(i: nat, h: Hotel, showReal: real -> string): string {
    NumberLine(i, h.name) + HotelDetails(h, showReal)
  }

  function HotelTexts(hs: seq<Hotel>, showReal: real -> string): (r: seq<string>)
    ensures |r| == |hs|
  {
    seq(|hs|, k requires 0 <= k < |hs| => HotelEntry(k + 1, hs[k], showReal))
  }

  lemma HotelTextsStep(hs: seq<Hotel>, k: nat, showReal: real -> string)
    requires k < |hs|
    ensures Concat(HotelTexts(hs[..k + 1], showReal)) ==
            Concat(HotelTexts(hs[..k], showReal)) + HotelEntry(k + 1, hs[k], showReal)
  {
    assert HotelTexts(hs[..k + 1], showReal) == HotelTexts(hs[..k], showReal) + [HotelEntry(k + 1, hs[k], showReal)];
    ConcatStep(HotelTexts(hs[..k], showReal), HotelEntry(k + 1, hs[k], showReal));
  }

  /** The hotel list: at most four hotels, numbered from 1; nothing when there is none. */
  function HotelSection(hotels: seq<Hotel>, showReal: real -> string): (r: string)
    ensures r == "" <==> hotels == []
  {
    if hotels == [] then "" else HotelsHeading + Concat(HotelTexts(Take(hotels, MaxHotels), showReal))
  }

  /** Each of the first four hotels appears under its number, and its entry has at most
      three amenities, each of them shown. */
  lemma HotelsShown(hotels: seq<Hotel>, k: nat, showReal: real -> string)
    requires k < |hotels| && k < MaxHotels
    ensures Contains(HotelSection(hotels, showReal), NumberLine(k + 1, hotels[k].name))
    ensures forall j :: 0 <= j < |hotels[k].amenities| && j < MaxAmenities ==>
              Contains(HotelSection(hotels, showReal), hotels[k].amenities[j])
  {
    var shown := Take(hotels, MaxHotels);
    var texts := HotelTexts(shown, showReal);
    var entry := HotelEntry(k + 1, hotels[k], showReal);
    var section := HotelSection(hotels, showReal);
    assert texts[k] == entry;
    ConcatContains(texts, k);
    ContainsHalves(HotelsHeading, Concat(texts));
    ContainsTrans(section, Concat(texts), entry);
    ContainsHalves(NumberLine(k + 1, hotels[k].name), HotelDetails(hotels[k], showReal));
    ContainsTrans(section, entry, NumberLine(k + 1, hotels[k].name));
    forall j | 0 <= j < |hotels[k].amenities| && j < MaxAmenities
      ensures Contains(section, hotels[k].amenities[j])
    {
      var h := hotels[k];
      AmenityLineShowsFirstThree(h.amenities, j);
      ContainsInContext(HotelFacts(h, showReal), AmenityLine(h.amenities), "\n", h.amenities[j]);
      ContainsTrans(entry, HotelDetails(h, showReal), h.amenities[j]);
      ContainsTrans(section, entry, h.amenities[j]);
    }
  }

  const FlightsHeading: string := "    \U{2708}\U{FE0F} FLIGHT OPTIONS:\n"
  const MaxFlights: nat := 3

  /** The stop count after the flight duration: nothing for a direct flight, "1 stop" for one,
      "N stops" for more. */
  function LayoverSuffix(layovers: int): (r: string)
    ensures r == "" <==> layovers <= 0
    ensures layovers > 0 ==> Contains(r, IntToString(layovers))
    ensures layovers > 0 ==> (r[|r| - 1] == 's' <==> layovers > 1)
  {
    if layovers > 0 then
      var lead := " | \U{1F6D1} ";
      var tail := " stop" + (if layovers > 1 then "s" else "");
      ContainsAt(IntToString(layovers), IntToString(layovers), 0);
      ContainsInContext(lead, IntToString(layovers), tail, IntToString(layovers));
      lead + IntToString(layovers) + tail
    else ""
  }

  function FlightDetails(f: Flight): string {
    "       \U{1F552} " + f.departureTime + " to " + f.arrivalTime + "\n" +
    "       \U{23F1}\U{FE0F} " + f.duration + LayoverSuffix(f.layovers) + "\n\n"
  }

  function FlightEntry(i: nat, f: Flight): string {
    NumberLine(i, f.airline + " - $" + IntToString(f.price)) + FlightDetails(f)
  }

  function FlightTexts(fs: seq<Flight>): (r: seq<string>)
    ensures |r| == |fs|
  {
    seq(|fs|, k requires 0 <= k < |fs| => FlightEntry(k + 1, fs[k]))
  }

  lemma FlightTextsPrefix(fs: seq<Flight>, k: nat)
    requires k < |fs|
    ensures FlightTexts(fs[..k + 1]) == FlightTexts(fs[..k]) + [FlightEntry(k + 1, fs[k])]
  {
    var longer := FlightTexts(fs[..k + 1]);
    var shorter := FlightTexts(fs[..k]);
    forall j | 0 <= j < k ensures longer[j] == shorter[j] {
      assert fs[..k + 1][j] == fs[..k][j];
    }
    assert longer[k] == FlightEntry(k + 1, fs[k]) by {
      assert fs[..k + 1][k] == fs[k];
    }
    assert longer == shorter + [FlightEntry(k + 1, fs[k])];
  }

  lemma FlightTextsStep(fs: seq<Flight>, k: nat)
    requires k < |fs|
    ensures Concat(FlightTexts(fs[..k + 1])) == Concat(FlightTexts(fs[..k])) + FlightEntry(k + 1, fs[k])
  {
    FlightTextsPrefix(fs, k);
    ConcatStep(FlightTexts(fs[..k]), FlightEntry(k + 1, fs[k]));
  }

  /** The flight list: at most three flights, numbered from 1; nothing when there is none. */
  function FlightSection(flights: seq<Flight>): (r: string)
    ensures r == "" <==> flights == []
  {
    if flights == [] then "" else FlightsHeading + Concat(FlightTexts(Take(flights, MaxFlights)))
  }

  /** Each of the first three flights appears under its number with its airline and price. */
  lemma FlightsShown(flights: seq<Flight>, k: nat)
    requires k < |flights| && k < MaxFlights
    ensures Contains(FlightSection(flights),
                     NumberLine(k + 1, flights[k].airline + " - $" + IntToString(flights[k].price)))
  {
    var texts := FlightTexts(Take(flights, MaxFlights));
    var line := NumberLine(k + 1, flights[k].airline + " - $" + IntToString(flights[k].price));
    assert texts[k] == FlightEntry(k + 1, flights[k]);
    ConcatContains(texts, k);
    ContainsHalves(FlightsHeading, Concat(texts));
    ContainsTrans(FlightSection(flights), Concat(texts), texts[k]);
    ContainsHalves(line, FlightDetails(flights[k]));
    ContainsTrans(FlightSection(flights), texts[k], line);
  }

  const AlternativesHeading: string := "    \U{1F4A1} ALTERNATIVE SUGGESTIONS:\n"

  function AlternativeTexts(alts: seq<string>): (r: seq<string>)
    ensures |r| == |alts|
  {
    seq(|alts|, k requires 0 <= k < |alts| => NumberLine(k + 1, alts[k]))
  }

  lemma AlternativeTextsStep(alts: seq<string>, k: nat)
    requires k < |alts|
    ensures Concat(AlternativeTexts(alts[..k + 1])) == Concat(AlternativeTexts(alts[..k])) + NumberLine(k + 1, alts[k])
  {
    assert AlternativeTexts(alts[..k + 1]) == AlternativeTexts(alts[..k]) + [NumberLine(k + 1, alts[k])];
    ConcatStep(AlternativeTexts(alts[..k]), NumberLine(k + 1, alts[k]));
  }

  /** The alternative suggestions: all of them, numbered from 1; nothing when there is none. */
  function AlternativeSection(alts: seq<string>): (r: string)
    ensures r == "" <==> alts == []
  {
    if alts == [] then "" else AlternativesHeading + Concat(AlternativeTexts(alts))
  }

  /** No suggestion is dropped: each one appears under its own number. */
  lemma AlternativesShown(alts: seq<string>, k: nat)
    requires k < |alts|
    ensures Contains(AlternativeSection(alts), NumberLine(k + 1, alts[k]))
  {
    var texts := AlternativeTexts(alts);
    ConcatContains(texts, k);
    ContainsHalves(AlternativesHeading, Concat(texts));
    ContainsTrans(AlternativeSection(alts), Concat(texts), texts[k]);
  }

  // ---------------------------------------------------------------------------------
  // The whole display
  // ---------------------------------------------------------------------------------

  predicate HasItinerary(d: DisplayInput) {
    d.itinerary.Some? && d.itinerary.value != ""
  }

  /** The text `format_itinerary_display` returns: the fixed message when there is no
      itinerary, else the header followed by the weather, hotel, flight and alternative
      parts, each of which may be empty. */
  function DisplayText(d: DisplayInput, showReal: real -> string): (r: string)
    ensures r == NoItinerary <==> !HasItinerary(d)
  {
    if !HasItinerary(d) then NoItinerary
    else
      var r := Header(d) + WeatherSection(d, showReal) + HotelSection(d.hotelOptions.GetOr([]), showReal) +
               FlightSection(d.flightOptions.GetOr([])) + AlternativeSection(d.alternativeSuggestions.GetOr([]));
      assert r[0] == '\n';
      r
  }

  /** Every part of the display occurs in it. */
  lemma DisplayContainsSections(d: DisplayInput, showReal: real -> string)
    requires HasItinerary(d)
    ensures Contains(DisplayText(d, showReal), WeatherSection(d, showReal))
    ensures Contains(DisplayText(d, showReal), HotelSection(d.hotelOptions.GetOr([]), showReal))
    ensures Contains(DisplayText(d, showReal), FlightSection(d.flightOptions.GetOr([])))
    ensures Contains(DisplayText(d, showReal), AlternativeSection(d.alternativeSuggestions.GetOr([])))
  {
    var h := Header(d);
    var w := WeatherSection(d, showReal);
    var hs := HotelSection(d.hotelOptions.GetOr([]), showReal);
    var fs := FlightSection(d.flightOptions.GetOr([]));
    var a := AlternativeSection(d.alternativeSuggestions.GetOr([]));
    var t := DisplayText(d, showReal);
    ContainsHalves(h + w + hs + fs, a);
    ContainsHalves(h + w + hs, fs);
    ContainsHalves(h + w, hs);
    ContainsHalves(h, w);
    ContainsTrans(t, h + w + hs + fs, fs);
    ContainsTrans(t, h + w + hs + fs, h + w + hs);
    ContainsTrans(t, h + w + hs, hs);
    ContainsTrans(t, h + w + hs, h + w);
    ContainsTrans(t, h + w, w);
  }

  /** A display with an itinerary shows the itinerary text under its heading and the
      destination ("Unknown" when absent) after its label. */
  lemma DisplayShowsItinerary(d: DisplayInput, showReal: real -> string)
    requires HasItinerary(d)
    ensures Contains(DisplayText(d, showReal), ItineraryLabel + d.itinerary.value)
    ensures Contains(DisplayText(d, showReal), d.itinerary.value)
    ensures Contains(DisplayText(d, showReal), HeaderLead + d.destination.GetOr("Unknown"))
    ensures Contains(DisplayText(d, showReal), d.destination.GetOr("Unknown"))
  {
    var h := Header(d);
    var w := WeatherSection(d, showReal);
    var hs := HotelSection(d.hotelOptions.GetOr([]), showReal);
    var fs := FlightSection(d.flightOptions.GetOr([]));
    var a := AlternativeSection(d.alternativeSuggestions.GetOr([]));
    var t := DisplayText(d, showReal);
    ContainsHalves(h, w);
    ContainsLeft(h + w, hs, h);
    ContainsLeft(h + w + hs, fs, h);
    ContainsLeft(h + w + hs + fs, a, h);
    var body := ItineraryLabel + d.itinerary.value;
    var destination := HeaderLead + d.destination.GetOr("Unknown");
    ContainsTrans(t, h, body);
    ContainsTrans(t, h, destination);
    ContainsHalves(ItineraryLabel, d.itinerary.value);
    ContainsHalves(HeaderLead, d.destination.GetOr("Unknown"));
    ContainsTrans(t, body, d.itinerary.value);
    ContainsTrans(t, destination, d.destination.GetOr("Unknown"));
  }

  /** With a weather bundle, the display states the canonical trip score and its explanation. */
  lemma DisplayShowsCanonicalScore(d: DisplayInput, showReal: real -> string)
    requires HasItinerary(d) && d.weatherData.Some? && d.weatherData.value.WeatherReport?
    ensures Contains(DisplayText(d, showReal),
                     ScoreLine(CanonicalScore(d.weatherData.value), CanonicalReason(d.weatherData.value), showReal))
  {
    var w := d.weatherData.value;
    var line := ScoreLine(CanonicalScore(w), CanonicalReason(w), showReal);
    var analysis := CleanAnalysis(d.weatherAnalysis.GetOr(""));
    var block := WeatherBlock(analysis, CanonicalScore(w), CanonicalReason(w), showReal);
    DisplayedScoreIsCanonical(w, showReal);
    ContainsAt(line, line, 0);
    ContainsInContext(WeatherLead + analysis, line, WeatherClose, line);
    ContainsHalves(block, DailySection(w, showReal));
    ContainsTrans(WeatherSection(d, showReal), block, line);
    DisplayContainsSections(d, showReal);
    ContainsTrans(DisplayText(d, showReal), WeatherSection(d, showReal), line);
  }

  // ---------------------------------------------------------------------------------
  // The display, built the way the source builds it
  // ---------------------------------------------------------------------------------

  method AppendDaily(text: string, days: seq<DailyForecast>, showReal: real -> string) returns (r: string)
    ensures r == text + Concat(DailyTexts(days, showReal))
  {
    r := text;
    for k := 0 to |days|
      invariant r == text + Concat(DailyTexts(days[..k], showReal))
    {
      DailyTextsStep(days, k, showReal);
      ConcatAssoc(text, Concat(DailyTexts(days[..k], showReal)), DailyLine(days[k], showReal));
      r := r + DailyLine(days[k], showReal);
    }
    assert days[..|days|] == days;
  }

  method AppendHotels(text: string, hs: seq<Hotel>, showReal: real -> string) returns (r: string)
    ensures r == text + Concat(HotelTexts(hs, showReal))
  {
    r := text;
    for k := 0 to |hs|
      invariant r == text + Concat(HotelTexts(hs[..k], showReal))
    {
      HotelTextsStep(hs, k, showReal);
      ConcatAssoc(text, Concat(HotelTexts(hs[..k], showReal)), HotelEntry(k + 1, hs[k], showReal));
      r := r + HotelEntry(k + 1, hs[k], showReal);
    }
    assert hs[..|hs|] == hs;
  }

  method AppendFlights(text: string, fs: seq<Flight>) returns (r: string)
    ensures r == text + Concat(FlightTexts(fs))
  {
    r := text;
    for k := 0 to |fs|
      invariant r == text + Concat(FlightTexts(fs[..k]))
    {
      FlightTextsStep(fs, k);
      ConcatAssoc(text, Concat(FlightTexts(fs[..k])), FlightEntry(k + 1, fs[k]));
      r := r + FlightEntry(k + 1, fs[k]);
    }
    assert fs[..|fs|] == fs;
  }

  method AppendAlternatives(text: string, alts: seq<string>) returns (r: string)
    ensures r == text + Concat(AlternativeTexts(alts))
  {
    r := text;
    for k := 0 to |alts|
      invariant r == text + Concat(AlternativeTexts(alts[..k]))
    {
      AlternativeTextsStep(alts, k);
      ConcatAssoc(text, Concat(AlternativeTexts(alts[..k])), NumberLine(k + 1, alts[k]));
      r := r + NumberLine(k + 1, alts[k]);
    }
    assert alts[..|alts|] == alts;
  }

  /** The weather part: the block with the cleaned analysis and the chosen score, then the
      day-by-day list when there is one. */
  method AppendWeather(text: string, d: DisplayInput, showReal: real -> string) returns (r: string)
    ensures r == text + WeatherSection(d, showReal)
  {
    r := text;
    if d.weatherData.Some? && d.weatherData.value.WeatherReport? {
      var w := d.weatherData.value;
      var (score, recommendation) := ScoreSource(w);
      var analysis := CleanAnalysis(d.weatherAnalysis.GetOr(""));
      var block := WeatherBlock(analysis, score, recommendation, showReal);
      r := r + block;
      if w.extended.Some? && w.extended.value.dailyForecasts.Some? {
        var days := w.extended.value.dailyForecasts.value;
        r := AppendDaily(r + DailyHeading, days, showReal);
        ConcatAssoc(text + block, DailyHeading, Concat(DailyTexts(days, showReal)));
      }
      ConcatAssoc(text, block, DailySection(w, showReal));
    }
  }

  method AppendHotelSection(text: string, hotels: seq<Hotel>, showReal: real -> string) returns (r: string)
    ensures r == text + HotelSection(hotels, showReal)
  {
    r := text;
    if |hotels| > 0 {
      r := AppendHotels(r + HotelsHeading, Take(hotels, MaxHotels), showReal);
      ConcatAssoc(text, HotelsHeading, Concat(HotelTexts(Take(hotels, MaxHotels), showReal)));
    }
  }

  method AppendFlightSection(text: string, flights: seq<Flight>) returns (r: string)
    ensures r == text + FlightSection(flights)
  {
    r := text;
    if |flights| > 0 {
      r := AppendFlights(r + FlightsHeading, Take(flights, MaxFlights));
      ConcatAssoc(text, FlightsHeading, Concat(FlightTexts(Take(flights, MaxFlights))));
    }
  }

  method AppendAlternativeSection(text: string, alts: seq<string>) returns (r: string)
    ensures r == text + AlternativeSection(alts)
  {
    r := text;
    if |alts| > 0 {
      r := AppendAlternatives(r + AlternativesHeading, alts);
      ConcatAssoc(text, AlternativesHeading, Concat(AlternativeTexts(alts)));
    }
  }

  /** `format_itinerary_display` */
  method FormatItineraryDisplay(d: DisplayInput, showReal: real -> string) returns (output: string)
    ensures output == DisplayText(d, showReal)
  {
    if !HasItinerary(d) {
      return NoItinerary;
    }
    output := Header(d);
    output := AppendWeather(output, d, showReal);
    output := AppendHotelSection(output, d.hotelOptions.GetOr([]), showReal);
    output := AppendFlightSection(output, d.flightOptions.GetOr([]));
    output := AppendAlternativeSection(output, d.alternativeSuggestions.GetOr([]));
  }
}
