/** The itinerary chain (chains/itinerary_chain.py): what `generate_itinerary` reads from the
    travel-data dictionary and puts into the language-model prompt, the template itinerary it
    falls back to when the model call fails, and `generate_alternative_suggestions` with its
    reply parser and fixed fallback. The model call itself is a parameter. */
module ItineraryChain {
  import opened Common
  import opened Weather
  import opened Search
  import opened Flights

  // =================================================================================
  // The language model and the preference list
  // =================================================================================

  /** What a model call yields: the reply text, or an exception (any error is handled the
      same way). */
  datatype LlmReply = Replied(content: string) | LlmFailed

  /** One entry of the `preferences` list: a string, or a value of another type, which makes
      `', '.join(preferences)` raise. */
  datatype PrefItem = PrefText(text: string) | PrefOther(typeName: string)

  /** Index of the first entry that is not a string (`|prefs|` when all are). */
  function FirstNonText(prefs: seq<PrefItem>): (k: nat)
    ensures k <= |prefs|
    ensures forall j :: 0 <= j < k ==> prefs[j].PrefText?
    ensures k < |prefs| ==> prefs[k].PrefOther?
  {
    if |prefs| == 0 || prefs[0].PrefOther? then 0 else 1 + FirstNonText(prefs[1..])
  }

  function Texts(prefs: seq<PrefItem>): (r: seq<string>)
    requires forall j :: 0 <= j < |prefs| ==> prefs[j].PrefText?
    ensures |r| == |prefs|
  {
    if |prefs| == 0 then [] else [prefs[0].text] + Texts(prefs[1..])
  }

  datatype Joined = Joined(text: string) | JoinRaised(message: string)

  const JoinItemPrefix: string := "sequence item "
  const JoinItemMiddle: string := ": expected str instance, "
  const JoinItemSuffix: string := " found"

  /** `', '.join(preferences)`: the joined text, or the `TypeError` naming the first entry
      that is not a string. */
  function JoinPreferences(prefs: seq<PrefItem>): (r: Joined)
    ensures r.JoinRaised? <==> exists j :: 0 <= j < |prefs| && prefs[j].PrefOther?
    ensures r.JoinRaised? ==> StartsWith(r.message, JoinItemPrefix)
  {
    var k := FirstNonText(prefs);
    if k == |prefs| then Joined(Join(", ", Texts(prefs)))
    else
      var m := JoinItemPrefix + NatToString(k) + JoinItemMiddle + prefs[k].typeName + JoinItemSuffix;
      assert m[..|JoinItemPrefix|] == JoinItemPrefix;
      JoinRaised(m)
  }

  // =================================================================================
  // Alternative suggestions
  // =================================================================================

  const AlternativeHeading: string := "Alternative"

  /** One line of the model's reply, at 1-based position `n` of the raw split: dropped when
      blank or a heading starting "Alternative"; otherwise stripped, and with its first three
      characters cut when it starts with its own position number and a dot. */
  function LineAlternative(n: nat, line: string): (r: Option<string>)
    ensures r.None? <==> Strip(line) == [] || StartsWith(Strip(line), AlternativeHeading)
    ensures r.Some? ==> exists k :: 0 <= k <= |Strip(line)| && r.value == Strip(line)[k..]
  {
    var s := Strip(line);
    if s == [] || StartsWith(s, AlternativeHeading) then None
    else if StartsWith(s, NatToString(n) + ".") then
      assert Drop(s, 3) == s[if 3 < |s| then 3 else |s|..];
      Some(Drop(s, 3))
    else
      assert s == s[0..];
      Some(s)
  }

  /** The comprehension over `enumerate(content.split('\n'))`, positions counted from `n`. */
  function LineAlternatives(lines: seq<string>, n: nat): (r: seq<string>)
    ensures |r| <= |lines|
  {
    if |lines| == 0 then []
    else
      var head := LineAlternative(n, lines[0]);
      (if head.Some? then [head.value] else []) + LineAlternatives(lines[1..], n + 1)
  }

  /** `[alt for alt in alternatives if alt]` */
  function NonEmpty(xs: seq<string>): (r: seq<string>)
    ensures |r| <= |xs|
    ensures forall k :: 0 <= k < |r| ==> r[k] != [] && r[k] in xs
  {
    if |xs| == 0 then []
    else (if xs[0] != [] then [xs[0]] else []) + NonEmpty(xs[1..])
  }

  /** The reply parser: at most three non-empty suggestions. */
  function ParseAlternatives(content: string): (r: seq<string>)
    ensures |r| <= 3
    ensures forall k :: 0 <= k < |r| ==> r[k] != []
  {
    Take(NonEmpty(LineAlternatives(Split(content, "\n"), 1)), 3)
  }

  /** `v` is the tail of some stripped line. */
  predicate TailOfLine(v: string, lines: seq<string>) {
    exists j, k :: 0 <= j < |lines| && 0 <= k <= |Strip(lines[j])| && v == Strip(lines[j])[k..]
  }

  lemma {:induction false} LineAlternativesFromLines(lines: seq<string>, n: nat)
    ensures forall v :: v in LineAlternatives(lines, n) ==> TailOfLine(v, lines)
  {
    if |lines| > 0 {
      LineAlternativesFromLines(lines[1..], n + 1);
      var head := LineAlternative(n, lines[0]);
      forall v | v in LineAlternatives(lines, n)
        ensures TailOfLine(v, lines)
      {
        if head.Some? && v == head.value {
          var k :| 0 <= k <= |Strip(lines[0])| && v == Strip(lines[0])[k..];
          assert 0 <= 0 < |lines|;
        } else {
          assert v in LineAlternatives(lines[1..], n + 1);
          assert TailOfLine(v, lines[1..]);
          var j, k :| 0 <= j < |lines[1..]| && 0 <= k <= |Strip(lines[1..][j])| && v == Strip(lines[1..][j])[k..];
          assert lines[1..][j] == lines[j + 1];
        }
      }
    }
  }

  /** Nothing is invented: every suggestion is the tail of one stripped line of the reply. */
  lemma AlternativesComeFromReply(content: string)
    ensures forall v :: v in ParseAlternatives(content) ==> TailOfLine(v, Split(content, "\n"))
  {
    LineAlternativesFromLines(Split(content, "\n"), 1);
  }

  /** A text with no whitespace at either end and no line break. */
  predicate CleanLine(a: string) {
    |a| > 0 && !IsSpace(a[0]) && !IsSpace(a[|a| - 1]) && '\n' !in a
  }

  /** A numbered line "n. a" at raw position n loses its number. */
  lemma NumberedLineAlternative(n: nat, a: string)
    requires 1 <= n <= 9 && CleanLine(a)
    ensures LineAlternative(n, [DigitChar(n)] + ". " + a) == Some(a)
  {
    var line := [DigitChar(n)] + ". " + a;
    StripNoSpace(line);
    assert NatToString(n) + "." == line[..2];
    assert line[0] != 'A';
    assert Drop(line, 3) == a;
  }

  /** Three lines without line breaks, joined by line breaks, split back into themselves. */
  lemma SplitThreeLines(la: string, lb: string, lc: string)
    requires '\n' !in la && '\n' !in lb && '\n' !in lc
    ensures Split(la + "\n" + lb + "\n" + lc, "\n") == [la, lb, lc]
  {
    SplitWithoutSeparator(lc, "\n");
    SplitAfterPiece(lb, "\n", lc);
    SplitAfterPiece(la, "\n", lb + "\n" + lc);
    ConcatAssoc(la + "\n", lb, "\n");
    ConcatAssoc(la + "\n", lb + "\n", lc);
  }

  lemma ThreeAlternatives(la: string, lb: string, lc: string, a: string, b: string, c: string)
    requires LineAlternative(1, la) == Some(a) && LineAlternative(2, lb) == Some(b)
    requires LineAlternative(3, lc) == Some(c)
    requires a != [] && b != [] && c != []
    ensures Take(NonEmpty(LineAlternatives([la, lb, lc], 1)), 3) == [a, b, c]
  {
    var lines := [la, lb, lc];
    assert lines[1..][1..][1..] == [];
    assert LineAlternatives(lines[1..][1..], 3) == [c];
    assert LineAlternatives(lines[1..], 2) == [b, c];
    assert LineAlternatives(lines, 1) == [a, b, c];
    assert NonEmpty([c]) == [c];
    assert NonEmpty([b, c]) == [b, c];
    assert NonEmpty([a, b, c]) == [a, b, c];
  }

  /** A three-line numbered reply parses back into its three items. */
  lemma NumberedReplyRoundTrip(a: string, b: string, c: string)
    requires CleanLine(a) && CleanLine(b) && CleanLine(c)
    ensures ParseAlternatives(("1. " + a) + "\n" + ("2. " + b) + "\n" + ("3. " + c)) == [a, b, c]
  {
    var la, lb, lc := [DigitChar(1)] + ". " + a, [DigitChar(2)] + ". " + b, [DigitChar(3)] + ". " + c;
    assert la == "1. " + a && lb == "2. " + b && lc == "3. " + c;
    assert '\n' !in la && '\n' !in lb && '\n' !in lc;
    SplitThreeLines(la, lb, lc);
    NumberedLineAlternative(1, a);
    NumberedLineAlternative(2, b);
    NumberedLineAlternative(3, c);
    ThreeAlternatives(la, lb, lc, a, b, c);
  }

  /** A clean line at position n that starts neither with the heading "Alternative" nor with
      its own number and a dot is kept whole. */
  lemma PlainLineAlternative(n: nat, line: string)
    requires CleanLine(line) && !StartsWith(line, AlternativeHeading)
    requires !StartsWith(line, NatToString(n) + ".")
    ensures LineAlternative(n, line) == Some(line)
  {
    StripNoSpace(line);
  }

  /** A text whose first character differs from that of `p` does not start with `p`. */
  lemma LeadDiffers(line: string, p: string)
    requires |line| > 0 && |p| > 0 && line[0] != p[0]
    ensures !StartsWith(line, p)
  {
    if |p| <= |line| {
      assert line[..|p|][0] == line[0];
    }
  }

  /** Only the whole word "Alternative" at the head drops a line: a suggestion that merely
      starts with "A" is kept. */
  lemma CapitalAIsKept()
    ensures LineAlternative(1, "Add a day in Goa") == Some("Add a day in Goa")
  {
    var line := "Add a day in Goa";
    assert line[1] != AlternativeHeading[1];
    assert line[..|AlternativeHeading|] != AlternativeHeading by {
      assert line[..|AlternativeHeading|][1] != AlternativeHeading[1];
    }
    assert NatToString(1) + "." == "1.";
    assert line[..2] != "1." by { assert line[..2][0] != '1'; }
    PlainLineAlternative(1, line);
  }

  lemma TwoAlternatives(lh: string, la: string)
    requires LineAlternative(1, lh) == Some(lh) && LineAlternative(2, la) == Some(la)
    requires lh != [] && la != []
    ensures Take(NonEmpty(LineAlternatives([lh, la], 1)), 3) == [lh, la]
  {
    var lines := [lh, la];
    assert lines[1..][1..] == [];
    assert LineAlternatives(lines[1..], 2) == [la];
    assert LineAlternatives(lines, 1) == [lh, la];
    assert NonEmpty([la]) == [la];
    assert NonEmpty([lh, la]) == [lh, la];
  }

  /** A preamble line shifts every position by one, so the numbers of the items that follow
      no longer match and stay in the suggestions, and the preamble itself becomes one. */
  lemma PreambleKeepsNumbers(h: string, a: string)
    requires CleanLine(h) && CleanLine(a) && h[0] != 'A' && h[0] != '1'
    ensures ParseAlternatives(h + "\n" + ("1. " + a)) == [h, "1. " + a]
  {
    var la := "1. " + a;
    assert '\n' !in la;
    SplitWithoutSeparator(la, "\n");
    SplitAfterPiece(h, "\n", la);
    PreambleLineKept(h);
    ShiftedItemKept(a);
    TwoAlternatives(h, la);
  }

  /** A preamble at position 1 that starts with neither "A" nor "1" is kept whole. */
  lemma PreambleLineKept(h: string)
    requires CleanLine(h) && h[0] != 'A' && h[0] != '1'
    ensures LineAlternative(1, h) == Some(h)
  {
    assert NatToString(1) + "." == "1.";
    LeadDiffers(h, AlternativeHeading);
    LeadDiffers(h, "1.");
    PlainLineAlternative(1, h);
  }

  /** The item "1. a" pushed to position 2 keeps its number. */
  lemma ShiftedItemKept(a: string)
    requires CleanLine(a)
    ensures LineAlternative(2, "1. " + a) == Some("1. " + a)
  {
    var la := "1. " + a;
    assert NatToString(2) + "." == "2.";
    LeadDiffers(la, AlternativeHeading);
    LeadDiffers(la, "2.");
    PlainLineAlternative(2, la);
  }

  const DifferentDatesLead: string := "Consider visiting "
  const DifferentDatesTail: string := " during different dates with better weather"
  const IndoorLead: string := "Explore indoor activities and museums in "
  const NearbySuggestion: string := "Look for nearby destinations with better weather conditions"
  const AlternativesErrorLead: string := "Could not generate alternatives due to error: "

  /** The fixed suggestions used when the model call fails. */
  function FallbackAlternatives(destination: string): (r: seq<string>)
    ensures |r| == 3
    ensures Contains(r[0], destination) && Contains(r[1], destination)
    ensures r[2] == NearbySuggestion
  {
    ContainsAt(destination, destination, 0);
    ContainsInContext(DifferentDatesLead, destination, DifferentDatesTail, destination);
    ContainsInContext(IndoorLead, destination, "", destination);
    assert IndoorLead + destination + "" == IndoorLead + destination;
    [DifferentDatesLead + destination + DifferentDatesTail, IndoorLead + destination, NearbySuggestion]
  }

  /** `generate_alternative_suggestions`. Building the prompt can raise only in the join of
      the preferences, giving a single error suggestion; a failed model call gives the fixed
      three; otherwise the reply is parsed. The issue text only feeds the prompt. */
  function GenerateAlternativeSuggestions(destination: string, issue: string, prefs: seq<PrefItem>,
                                          llm: string -> LlmReply): (r: seq<string>)
    ensures JoinPreferences(prefs).JoinRaised? ==>
      r == [AlternativesErrorLead + JoinPreferences(prefs).message]
    ensures JoinPreferences(prefs).Joined? ==>
      var reply := llm(AlternativesPrompt(destination, issue, JoinPreferences(prefs).text));
      && (reply.LlmFailed? ==> r == FallbackAlternatives(destination))
      && (reply.Replied? ==> r == ParseAlternatives(reply.content))
    ensures 1 <= |r| <= 3 || (JoinPreferences(prefs).Joined? && |r| == 0)
  {
    match JoinPreferences(prefs)
    case JoinRaised(message) => [AlternativesErrorLead + message]
    case Joined(text) =>
      match llm(AlternativesPrompt(destination, issue, text))
      case LlmFailed => FallbackAlternatives(destination)
      case Replied(content) => ParseAlternatives(content)
  }

  /** The prompt handed to the model: only the three values it is built from are kept. */
  function AlternativesPrompt(destination: string, issue: string, preferences: string): string {
    destination + "\n" + issue + "\n" + preferences
  }

  // =================================================================================
  // The travel-data dictionary and the prompt context
  // =================================================================================

  /** A value stored in the travel-data dictionary. */
  datatype Entry =
    | Text(text: string)
    | HotelList(hotels: seq<Hotel>)
    | AttractionList(attractions: seq<Attraction>)
    | FlightList(flights: seq<Flight>)
    | WeatherBundle(weather: WeatherData)

  type TravelPayload = map<string, Entry>

  const HotelsKey: string := "hotel_options"
  const AttractionsKey: string := "attraction_options"
  const FlightsKey: string := "flight_options"
  const WeatherKey: string := "weather_data"
  const AnalysisKey: string := "weather_analysis"
  const DestinationField: string := "destination"

  const NoWeatherInformation: string := "Weather information not available"
  const UnknownDestination: string := "Unknown"

  function TextOr(p: TravelPayload, key: string, default: string): string {
    if key in p && p[key].Text? then p[key].text else default
  }

  /** `travel_data.get('hotel_options', [])` */
  function HotelsOf(p: TravelPayload): (r: seq<Hotel>)
    ensures HotelsKey !in p ==> r == []
  {
    if HotelsKey in p && p[HotelsKey].HotelList? then p[HotelsKey].hotels else []
  }

  /** `travel_data.get('attraction_options', [])` */
  function AttractionsOf(p: TravelPayload): (r: seq<Attraction>)
    ensures AttractionsKey !in p ==> r == []
  {
    if AttractionsKey in p && p[AttractionsKey].AttractionList? then p[AttractionsKey].attractions else []
  }

  /** `travel_data.get('flight_options', [])` */
  function FlightsOf(p: TravelPayload): (r: seq<Flight>)
    ensures FlightsKey !in p ==> r == []
  {
    if FlightsKey in p && p[FlightsKey].FlightList? then p[FlightsKey].flights else []
  }

  /** `weather_data.get('extended_analysis', {}).get('daily_forecasts', [])`, with an absent
      bundle and the error bundle both reading as empty. */
  function DailyForecastsOf(p: TravelPayload): (r: seq<DailyForecast>)
    ensures WeatherKey !in p ==> r == []
  {
    if WeatherKey in p && p[WeatherKey].WeatherBundle? then
      var w := p[WeatherKey].weather;
      if w.WeatherReport? && w.extended.Some? && w.extended.value.dailyForecasts.Some?
      then w.extended.value.dailyForecasts.value
      else []
    else []
  }

  const HotelWord: string := "hotel"
  const NoHotelInformation: string := "No " + HotelWord + " information available"
  const NoAttractionInformation: string := "No attraction information available"
  const NoFlightInformation: string := "No flight information available"
  const LinePrefix: string := "- "
  const Ellipsis: string := "..."

  function HotelPromptLines(hotels: seq<Hotel>): (r: seq<string>)
    ensures |r| == |hotels|
    ensures forall k :: 0 <= k < |r| ==> StartsWith(r[k], LinePrefix)
  {
    if |hotels| == 0 then []
    else
      var line := LinePrefix + hotels[0].name + ": " + Take(hotels[0].description, 100) + Ellipsis;
      assert line[..|LinePrefix|] == LinePrefix;
      [line] + HotelPromptLines(hotels[1..])
  }

  function AttractionPromptLines(attractions: seq<Attraction>): (r: seq<string>)
    ensures |r| == |attractions|
    ensures forall k :: 0 <= k < |r| ==> StartsWith(r[k], LinePrefix)
  {
    if |attractions| == 0 then []
    else
      var a := attractions[0];
      var line := LinePrefix + a.name + " (" + a.category + "): " + Take(a.description, 100) + Ellipsis;
      assert line[..|LinePrefix|] == LinePrefix;
      [line] + AttractionPromptLines(attractions[1..])
  }

  function FlightPromptLines(flights: seq<Flight>): (r: seq<string>)
    ensures |r| == |flights|
    ensures forall k :: 0 <= k < |r| ==> StartsWith(r[k], LinePrefix)
  {
    if |flights| == 0 then []
    else
      var f := flights[0];
      var line := LinePrefix + f.airline + ": $" + IntToString(f.price) + " - " + f.departureTime + " to " + f.arrivalTime;
      assert line[..|LinePrefix|] == LinePrefix;
      [line] + FlightPromptLines(flights[1..])
  }

  /** A section of the prompt: the lines joined, or the placeholder when there are none. */
  function Section(lines: seq<string>, placeholder: string): (r: string)
    requires forall k :: 0 <= k < |lines| ==> StartsWith(lines[k], LinePrefix)
    requires |placeholder| > 0 && placeholder[0] != '-'
    ensures r == placeholder <==> lines == []
  {
    if lines == [] then placeholder
    else
      assert StartsWith(lines[0], LinePrefix);
      assert lines[0][0] == LinePrefix[0];
      JoinHead("\n", lines);
      Join("\n", lines)
  }

  /** What `generate_itinerary` puts into the prompt besides its fixed wording. */
  datatype PromptContext = PromptContext(
    destination: string,
    travelType: string,
    preferences: string,
    duration: int,
    weatherInfo: string,
    dailyWeather: string,
    flightInfo: string,
    hotelList: string,
    attractionList: string)

  /** The three list sections of the prompt: at most three hotels, five attractions and two
      flights, each section falling back to its placeholder exactly when its list is empty. */
  function HotelSection(p: TravelPayload): (r: string)
    ensures r == NoHotelInformation <==> HotelsOf(p) == []
  {
    Section(HotelPromptLines(Take(HotelsOf(p), 3)), NoHotelInformation)
  }

  function AttractionSection(p: TravelPayload): (r: string)
    ensures r == NoAttractionInformation <==> AttractionsOf(p) == []
  {
    Section(AttractionPromptLines(Take(AttractionsOf(p), 5)), NoAttractionInformation)
  }

  function FlightSection(p: TravelPayload): (r: string)
    ensures r == NoFlightInformation <==> FlightsOf(p) == []
  {
    Section(FlightPromptLines(Take(FlightsOf(p), 2)), NoFlightInformation)
  }

  const DailyPromptHeading: string := "\n\nDAILY WEATHER FORECAST:\n"
  const Degrees: string := "°C"

  function DailyPromptLine(d: DailyForecast, showReal: real -> string): string {
    LinePrefix + d.dayName + " (" + d.date + "): " + d.description + ", " + showReal(d.temperature) +
    Degrees + " - " + d.suitabilityLevel + "\n"
  }

  function DailyPromptLines(days: seq<DailyForecast>, showReal: real -> string): string {
    if |days| == 0 then "" else DailyPromptLines(days[..|days| - 1], showReal) + DailyPromptLine(days[|days| - 1], showReal)
  }

  /** The prompt's day-by-day weather section: empty without forecasts, otherwise a heading
      and one line per forecast day. */
  function DailyWeatherInfo(days: seq<DailyForecast>, showReal: real -> string): string {
    if days == [] then "" else DailyPromptHeading + DailyPromptLines(days, showReal)
  }

  lemma DailyPromptLinesStep(days: seq<DailyForecast>, i: nat, showReal: real -> string)
    requires i < |days|
    ensures DailyPromptHeading + DailyPromptLines(days[..i + 1], showReal) ==
            DailyPromptHeading + DailyPromptLines(days[..i], showReal) + DailyPromptLine(days[i], showReal)
  {
    assert days[..i + 1][..i] == days[..i];
    ConcatAssoc(DailyPromptHeading, DailyPromptLines(days[..i], showReal), DailyPromptLine(days[i], showReal));
  }

  /** The loop building the prompt's day-by-day weather section. */
  method BuildDailyWeatherInfo(days: seq<DailyForecast>, showReal: real -> string) returns (info: string)
    ensures info == DailyWeatherInfo(days, showReal)
    ensures days == [] <==> info == ""
  {
    info := "";
    if days != [] {
      info := DailyPromptHeading;
      for i := 0 to |days|
        invariant info == DailyPromptHeading + DailyPromptLines(days[..i], showReal)
      {
        DailyPromptLinesStep(days, i, showReal);
        info := info + DailyPromptLine(days[i], showReal);
      }
      assert days[..|days|] == days;
    }
  }

  /** The prompt context: the destination and analysis read with their defaults, and the
      sections built from the three lists and the forecast days. */
  method BuildPromptContext(p: TravelPayload, duration: int, preferences: string, travelType: string,
                            showReal: real -> string) returns (c: PromptContext)
    ensures c.destination == TextOr(p, DestinationField, UnknownDestination)
    ensures c.weatherInfo == TextOr(p, AnalysisKey, NoWeatherInformation)
    ensures c.dailyWeather == DailyWeatherInfo(DailyForecastsOf(p), showReal)
    ensures c.hotelList == HotelSection(p) && c.attractionList == AttractionSection(p) && c.flightInfo == FlightSection(p)
    ensures c.preferences == preferences && c.travelType == travelType && c.duration == duration
  {
    var daily := BuildDailyWeatherInfo(DailyForecastsOf(p), showReal);
    c := PromptContext(TextOr(p, DestinationField, UnknownDestination), travelType, preferences, duration,
                       TextOr(p, AnalysisKey, NoWeatherInformation), daily, FlightSection(p), HotelSection(p),
                       AttractionSection(p));
  }

  // =================================================================================
  // The template itinerary
  // =================================================================================

  /** A line break followed by the eight-space indentation of the template. */
  const Nl: string := "\n        "
  const TitleTail: string := " TRAVEL ITINERARY ("
  const DaysClose: string := " Days)"
  const Rule: string := "==========================================="
  const DestinationLabel: string := "Destination: "
  const DurationLabel: string := "Duration: "
  const DaysWord: string := " days"
  const TravelTypeLabel: string := "Travel Type: "
  const PreferencesLabel: string := "Preferences: "
  const WeatherHeading: string := "WEATHER ANALYSIS:"

  function FallbackHeader(destination: string, duration: int, preferences: string, travelType: string,
                          weatherInfo: string): string {
    Nl + Upper(destination) + TitleTail + IntToString(duration) + DaysClose +
    Nl + Rule + Nl +
    Nl + DestinationLabel + destination +
    Nl + DurationLabel + IntToString(duration) + DaysWord +
    Nl + TravelTypeLabel + travelType +
    Nl + PreferencesLabel + preferences + Nl +
    Nl + WeatherHeading +
    Nl + weatherInfo + Nl + Nl
  }

  const ForecastHeading: string := "DAILY WEATHER FORECAST:\n"

  function ForecastLine(d: DailyForecast, showReal: real -> string): string {
    LinePrefix + d.dayName + ": " + d.description + ", " + showReal(d.temperature) + Degrees +
    " (" + d.suitabilityLevel + ")\n"
  }

  function ForecastLines(days: seq<DailyForecast>, showReal: real -> string): string {
    if |days| == 0 then "" else ForecastLines(days[..|days| - 1], showReal) + ForecastLine(days[|days| - 1], showReal)
  }

  /** The day-by-day weather block: absent without forecasts. */
  function ForecastBlock(days: seq<DailyForecast>, showReal: real -> string): string {
    if days == [] then "" else ForecastHeading + ForecastLines(days, showReal) + "\n"
  }

  const AccommodationsHeading: string := "RECOMMENDED ACCOMMODATIONS:"

  function HotelLines(names: seq<string>): seq<string> {
    seq(|names|, k requires 0 <= k < |names| => LinePrefix + names[k])
  }

  function AccommodationBlock(hotelNames: seq<string>): string {
    Nl + AccommodationsHeading +
    Nl + (if hotelNames == [] then NoHotelInformation else Join("\n", HotelLines(hotelNames))) + Nl + Nl
  }

  /** What the template says about one day of the trip. */
  datatype DayPlan = DayPlan(day: nat, weather: string, attraction: string, recommendations: string)

  const UnknownWeather: string := "Unknown"
  const LocalLandmarks: string := "local landmarks"
  const CheckWeatherUpdates: string := "Check weather updates"

  /** Day `day` (from 1): the forecast of that day when there is one, and the attraction at
      index `day % len`. */
  function PlanDay(day: nat, daily: seq<DailyForecast>, names: seq<string>): DayPlan
    requires day >= 1
  {
    DayPlan(day,
            if day <= |daily| then daily[day - 1].description else UnknownWeather,
            if names != [] then names[day % |names|] else LocalLandmarks,
            if day <= |daily| then Join(", ", daily[day - 1].recommendations) else CheckWeatherUpdates)
  }

  /** The plans of days 1 to `n`, day `k + 1` at position `k`. */
  function DayPlans(n: nat, daily: seq<DailyForecast>, names: seq<string>): (r: seq<DayPlan>)
    ensures |r| == n
  {
    seq(n, k requires 0 <= k < n => PlanDay(k + 1, daily, names))
  }

  /** The plans of one more day are the earlier plans followed by that day's plan. */
  lemma DayPlansStep(n: nat, daily: seq<DailyForecast>, names: seq<string>)
    requires n >= 1
    ensures DayPlans(n, daily, names) == DayPlans(n - 1, daily, names) + [PlanDay(n, daily, names)]
  {
    assert forall k :: 0 <= k < n - 1 ==> DayPlans(n, daily, names)[k] == DayPlans(n - 1, daily, names)[k];
  }

  lemma DayPlanAt(n: nat, daily: seq<DailyForecast>, names: seq<string>, k: nat)
    requires k < n
    ensures DayPlans(n, daily, names)[k] == PlanDay(k + 1, daily, names)
  {
  }

  lemma DayPlansInOrder(n: nat, daily: seq<DailyForecast>, names: seq<string>)
    ensures forall k :: 0 <= k < n ==>
      && DayPlans(n, daily, names)[k].day == k + 1
      && DayPlans(n, daily, names)[k].weather == (if k < |daily| then daily[k].description else UnknownWeather)
      && DayPlans(n, daily, names)[k].attraction == (if names != [] then names[(k + 1) % |names|] else LocalLandmarks)
      && DayPlans(n, daily, names)[k].recommendations ==
           (if k < |daily| then Join(", ", daily[k].recommendations) else CheckWeatherUpdates)
  {
    forall k | 0 <= k < n {
      DayPlanAt(n, daily, names, k);
    }
  }

  /** Some day of the plans goes to attraction `x`. */
  predicate Visits(plans: seq<DayPlan>, x: string) {
    exists k :: 0 <= k < |plans| && plans[k].attraction == x
  }

  /** A trip at least as long as the attraction list visits every listed attraction, even
      though day `d` takes index `d % len` and so the first day skips the first attraction. */
  lemma EveryAttractionVisited(n: nat, daily: seq<DailyForecast>, names: seq<string>)
    requires 0 < |names| <= n
    ensures forall j :: 0 <= j < |names| ==> Visits(DayPlans(n, daily, names), names[j])
  {
    var plans := DayPlans(n, daily, names);
    forall j | 0 <= j < |names|
      ensures Visits(plans, names[j])
    {
      var m := |names|;
      var k := if j == 0 then m - 1 else j - 1;
      if j == 0 {
        ModOfSelf(m);
      } else {
        ModOfSmall(j, m);
      }
      assert (k + 1) % m == j;
      DayPlanAt(n, daily, names, k);
      assert plans[k].attraction == names[(k + 1) % m];
    }
  }

  /** With two or more attractions the first day is sent to the second one. */
  lemma FirstDaySkipsFirstAttraction(n: nat, daily: seq<DailyForecast>, names: seq<string>)
    requires n >= 1 && |names| >= 2
    ensures DayPlans(n, daily, names)[0].attraction == names[1]
  {
    DayPlansInOrder(n, daily, names);
  }

  const DayWord: string := "DAY "
  const DayRule: string := "---------"
  const WeatherLabel: string := "Weather: "
  const MorningWord: string := "Morning"
  const MorningLine: string := MorningWord + ": Explore local attractions and get familiar with the area"
  const AfternoonLabel: string := "Afternoon: Visit "
  const EveningLine: string := "Evening: Enjoy local cuisine and relax"
  const RecommendationsLabel: string := "Recommendations: "

  /** The heading of a day block, "DAY d:". */
  function DayHeading(day: nat): string {
    DayWord + NatToString(day) + ":"
  }

  /** The lines of a day block before the morning line. */
  function DayIntro(plan: DayPlan): string {
    Nl + DayRule + Nl + WeatherLabel + plan.weather + Nl + Nl
  }

  /** The lines of a day block after the morning line. */
  function DayOutro(plan: DayPlan): string {
    Nl + AfternoonLabel + plan.attraction + Nl + EveningLine + Nl + Nl +
    RecommendationsLabel + plan.recommendations + Nl + Nl
  }

  function DayBody(plan: DayPlan): string {
    DayIntro(plan) + MorningLine + DayOutro(plan)
  }

  function DayBlock(plan: DayPlan): string {
    Nl + DayHeading(plan.day) + DayBody(plan)
  }

  /** A day block carries its "DAY d:" heading and the morning line. */
  lemma DayBlockParts(plan: DayPlan)
    ensures Contains(DayBlock(plan), DayHeading(plan.day)) && Contains(DayBlock(plan), MorningLine)
  {
    ContainsHalves(Nl, DayHeading(plan.day));
    ContainsHalves(Nl + DayHeading(plan.day), DayBody(plan));
    ContainsTrans(DayBlock(plan), Nl + DayHeading(plan.day), DayHeading(plan.day));
    ContainsHalves(DayIntro(plan), MorningLine);
    ContainsHalves(DayIntro(plan) + MorningLine, DayOutro(plan));
    ContainsTrans(DayBody(plan), DayIntro(plan) + MorningLine, MorningLine);
    ContainsTrans(DayBlock(plan), DayBody(plan), MorningLine);
  }

  /** The blocks of the given plans, in order. */
  function DayTexts(plans: seq<DayPlan>): (r: seq<string>)
    ensures |r| == |plans|
  {
    seq(|plans|, k requires 0 <= k < |plans| => DayBlock(plans[k]))
  }

  function DayBlocks(plans: seq<DayPlan>): string {
    Concat(DayTexts(plans))
  }

  lemma DayBlocksStep(plans: seq<DayPlan>, plan: DayPlan)
    ensures DayBlocks(plans + [plan]) == DayBlocks(plans) + DayBlock(plan)
  {
    assert DayTexts(plans + [plan]) == DayTexts(plans) + [DayBlock(plan)];
    ConcatStep(DayTexts(plans), DayBlock(plan));
  }

  /** Each plan's block is part of the concatenated day blocks. */
  lemma DayBlocksContain(plans: seq<DayPlan>, k: nat)
    requires k < |plans|
    ensures Contains(DayBlocks(plans), DayBlock(plans[k]))
  {
    ConcatContains(DayTexts(plans), k);
  }

  const GeneralTipsHeading: string := "GENERAL TRAVEL TIPS:"
  const WeatherTip: string := "- Check weather forecast daily and dress appropriately"
  const EmergencyTip: string := "- Keep local emergency numbers handy"
  const HydrationTip: string := "- Stay hydrated and take breaks"
  const CuisineTip: string := "- Try local specialties and cuisine"
  const CustomsTip: string := "- Respect local customs and culture"
  const BudgetTipsHeading: string := "BUDGET TIPS:"
  const TransportTip: string := "- Consider public transportation"
  const ActivitiesWord: string := "activities"
  const RestaurantsWord: string := "restaurants"
  const FreeActivitiesTip: string := "- Look for free attractions and " + ActivitiesWord
  const RestaurantTip: string := "- Eat at local " + RestaurantsWord + " away from tourist areas"
  const BookingTip: string := "- Book accommodations in advance for better rates"

  /** The closing block of travel and budget tips. */
  const TipsBlock: string :=
    Nl + GeneralTipsHeading + Nl + WeatherTip + Nl + EmergencyTip + Nl + HydrationTip + Nl + CuisineTip +
    Nl + CustomsTip + Nl + Nl + BudgetTipsHeading + Nl + TransportTip + Nl + FreeActivitiesTip +
    Nl + RestaurantTip + Nl + BookingTip + Nl

  /** Names read for the template: at most two hotels and five attractions. */
  function TemplateHotelNames(hotels: seq<Hotel>): (r: seq<string>)
    ensures |r| <= 2
  {
    var hs := Take(hotels, 2);
    seq(|hs|, k requires 0 <= k < |hs| => hs[k].name)
  }

  function TemplateAttractionNames(attractions: seq<Attraction>): (r: seq<string>)
    ensures |r| <= 5
  {
    var xs := Take(attractions, 5);
    seq(|xs|, k requires 0 <= k < |xs| => xs[k].name)
  }

  /** The number of days `range(1, duration + 1)` runs through. */
  function TripDays(duration: int): (n: nat)
    ensures duration > 0 ==> n == duration
    ensures duration <= 0 ==> n == 0
  {
    if duration > 0 then duration else 0
  }

  /** The template up to the day blocks: header, forecast block, accommodations. */
  function FallbackFront(destination: string, duration: int, preferences: string, travelType: string,
                         weatherInfo: string, daily: seq<DailyForecast>, hotels: seq<Hotel>,
                         showReal: real -> string): string {
    FallbackHeader(destination, duration, preferences, travelType, weatherInfo) +
    ForecastBlock(daily, showReal) +
    AccommodationBlock(TemplateHotelNames(hotels))
  }

  /** The whole template itinerary. */
  function FallbackText(destination: string, duration: int, preferences: string, travelType: string,
                        weatherInfo: string, daily: seq<DailyForecast>, hotels: seq<Hotel>,
                        attractions: seq<Attraction>, showReal: real -> string): string {
    FallbackFront(destination, duration, preferences, travelType, weatherInfo, daily, hotels, showReal) +
    DayBlocks(DayPlans(TripDays(duration), daily, TemplateAttractionNames(attractions))) +
    TipsBlock
  }

  lemma BlocksHaveHeadings(plans: seq<DayPlan>, k: nat)
    requires k < |plans|
    ensures Contains(DayBlocks(plans), DayHeading(plans[k].day))
  {
    DayBlocksContain(plans, k);
    DayBlockParts(plans[k]);
    ContainsTrans(DayBlocks(plans), DayBlock(plans[k]), DayHeading(plans[k].day));
  }

  lemma DayHeadingInDays(n: nat, daily: seq<DailyForecast>, names: seq<string>, d: nat)
    requires 1 <= d <= n
    ensures Contains(DayBlocks(DayPlans(n, daily, names)), DayHeading(d))
  {
    DayPlanAt(n, daily, names, d - 1);
    BlocksHaveHeadings(DayPlans(n, daily, names), d - 1);
  }

  /** The template names every day of the trip: "DAY d:" occurs for each d from 1 to the
      duration. */
  lemma FallbackHasEveryDay(destination: string, duration: int, preferences: string, travelType: string,
                            weatherInfo: string, daily: seq<DailyForecast>, hotels: seq<Hotel>,
                            attractions: seq<Attraction>, showReal: real -> string, d: nat)
    requires 1 <= d <= duration
    ensures Contains(FallbackText(destination, duration, preferences, travelType, weatherInfo, daily,
                                  hotels, attractions, showReal), DayHeading(d))
  {
    var n := TripDays(duration);
    DayHeadingInDays(n, daily, TemplateAttractionNames(attractions), d);
    ContainsInContext(FallbackFront(destination, duration, preferences, travelType, weatherInfo, daily, hotels, showReal),
                      DayBlocks(DayPlans(n, daily, TemplateAttractionNames(attractions))), TipsBlock, DayHeading(d));
  }

  lemma ForecastLinesStep(text: string, daily: seq<DailyForecast>, i: nat, showReal: real -> string)
    requires i < |daily|
    ensures text + ForecastLines(daily[..i + 1], showReal) ==
            text + ForecastLines(daily[..i], showReal) + ForecastLine(daily[i], showReal)
  {
    assert daily[..i + 1][..i] == daily[..i];
    ConcatAssoc(text, ForecastLines(daily[..i], showReal), ForecastLine(daily[i], showReal));
  }

  /** The forecast loop of the template: the heading, one line per day, a blank line. */
  method AppendForecast(text: string, daily: seq<DailyForecast>, showReal: real -> string) returns (r: string)
    ensures r == text + ForecastBlock(daily, showReal)
  {
    r := text;
    if daily != [] {
      r := r + ForecastHeading;
      for i := 0 to |daily|
        invariant r == text + ForecastHeading + ForecastLines(daily[..i], showReal)
      {
        ForecastLinesStep(text + ForecastHeading, daily, i, showReal);
        r := r + ForecastLine(daily[i], showReal);
      }
      assert daily[..|daily|] == daily;
      r := r + "\n";
      ForecastBlockAfter(text, daily, showReal);
    }
  }

  lemma ForecastBlockAfter(text: string, daily: seq<DailyForecast>, showReal: real -> string)
    requires daily != []
    ensures text + ForecastHeading + ForecastLines(daily, showReal) + "\n" == text + ForecastBlock(daily, showReal)
  {
    var lines := ForecastLines(daily, showReal);
    ConcatAssoc(text, ForecastHeading, lines);
    ConcatAssoc(text, ForecastHeading + lines, "\n");
  }

  /** The day loop of the template: `for day in range(1, duration + 1)`. */
  lemma AppendDayStep(text: string, day: nat, daily: seq<DailyForecast>, names: seq<string>)
    requires day >= 1
    ensures text + DayBlocks(DayPlans(day, daily, names)) ==
            text + DayBlocks(DayPlans(day - 1, daily, names)) + DayBlock(PlanDay(day, daily, names))
  {
    DayPlansStep(day, daily, names);
    DayBlocksStep(DayPlans(day - 1, daily, names), PlanDay(day, daily, names));
    ConcatAssoc(text, DayBlocks(DayPlans(day - 1, daily, names)), DayBlock(PlanDay(day, daily, names)));
  }

  method AppendDays(text: string, duration: int, daily: seq<DailyForecast>, names: seq<string>)
    returns (r: string)
    ensures r == text + DayBlocks(DayPlans(TripDays(duration), daily, names))
  {
    var n := TripDays(duration);
    r := text;
    for day: nat := 1 to n + 1
      invariant r == text + DayBlocks(DayPlans(day - 1, daily, names))
    {
      AppendDayStep(text, day, daily, names);
      r := r + DayBlock(PlanDay(day, daily, names));
    }
  }

  /** `_generate_fallback_itinerary` */
  method GenerateFallbackItinerary(destination: string, duration: int, preferences: string, travelType: string,
                                   weatherInfo: string, daily: seq<DailyForecast>, hotels: seq<Hotel>,
                                   attractions: seq<Attraction>, showReal: real -> string)
    returns (itinerary: string)
    ensures itinerary == FallbackText(destination, duration, preferences, travelType, weatherInfo, daily,
                                      hotels, attractions, showReal)
  {
    itinerary := FallbackHeader(destination, duration, preferences, travelType, weatherInfo);
    itinerary := AppendForecast(itinerary, daily, showReal);
    itinerary := itinerary + AccommodationBlock(TemplateHotelNames(hotels));
    itinerary := AppendDays(itinerary, duration, daily, TemplateAttractionNames(attractions));
    itinerary := itinerary + TipsBlock;
  }

  // =================================================================================
  // generate_itinerary
  // =================================================================================

  const ItineraryErrorLead: string := "Error generating itinerary: "

  /** The prompt context `generate_itinerary` builds from the payload. */
  function ContextOf(p: TravelPayload, duration: int, preferences: string, travelType: string,
                     showReal: real -> string): PromptContext {
    PromptContext(TextOr(p, DestinationField, UnknownDestination), travelType, preferences, duration,
                  TextOr(p, AnalysisKey, NoWeatherInformation), DailyWeatherInfo(DailyForecastsOf(p), showReal),
                  FlightSection(p), HotelSection(p), AttractionSection(p))
  }

  /** The text `generate_itinerary` returns, as a function of its inputs and of the model's
      reply to the prompt. */
  function ItineraryOutcome(p: TravelPayload, duration: int, prefs: seq<PrefItem>, travelType: string,
                            llm: PromptContext -> LlmReply, showReal: real -> string): (r: string)
    ensures JoinPreferences(prefs).JoinRaised? ==> r == ItineraryErrorLead + JoinPreferences(prefs).message
    ensures JoinPreferences(prefs).Joined? ==>
      var reply := llm(ContextOf(p, duration, JoinPreferences(prefs).text, travelType, showReal));
      reply.Replied? ==> r == reply.content
  {
    match JoinPreferences(prefs)
    case JoinRaised(message) => ItineraryErrorLead + message
    case Joined(text) =>
      match llm(ContextOf(p, duration, text, travelType, showReal))
      case Replied(content) => content
      case LlmFailed =>
        FallbackText(TextOr(p, DestinationField, UnknownDestination), duration, text, travelType,
                     TextOr(p, AnalysisKey, NoWeatherInformation), DailyForecastsOf(p),
                     HotelsOf(p), AttractionsOf(p), showReal)
  }

  /** `generate_itinerary`: a preference list that cannot be joined gives the error text; a
      model reply is returned as it is; a failed call gives the template itinerary, built
      from the same destination, analysis, forecasts and lists the prompt was built from. */
  method GenerateItinerary(p: TravelPayload, duration: int, prefs: seq<PrefItem>, travelType: string,
                           llm: PromptContext -> LlmReply, showReal: real -> string)
    returns (itinerary: string)
    ensures itinerary == ItineraryOutcome(p, duration, prefs, travelType, llm, showReal)
  {
    var joined := JoinPreferences(prefs);
    if joined.JoinRaised? {
      return ItineraryErrorLead + joined.message;
    }
    var c := BuildPromptContext(p, duration, joined.text, travelType, showReal);
    assert c == ContextOf(p, duration, joined.text, travelType, showReal);
    var reply := llm(c);
    if reply.Replied? {
      itinerary := reply.content;
    } else {
      itinerary := GenerateFallbackItinerary(c.destination, duration, joined.text, travelType, c.weatherInfo,
                                             DailyForecastsOf(p), HotelsOf(p), AttractionsOf(p), showReal);
    }
  }

  /** When the model call fails, the itinerary returned is the template, built from the
      same destination, analysis, forecasts and lists the prompt was built from. */
  lemma FailedCallGivesTemplate(p: TravelPayload, duration: int, prefs: seq<PrefItem>, travelType: string,
                                llm: PromptContext -> LlmReply, showReal: real -> string)
    requires JoinPreferences(prefs).Joined?
    requires llm(ContextOf(p, duration, JoinPreferences(prefs).text, travelType, showReal)).LlmFailed?
    ensures ItineraryOutcome(p, duration, prefs, travelType, llm, showReal) ==
      FallbackText(TextOr(p, DestinationField, UnknownDestination), duration, JoinPreferences(prefs).text,
                   travelType, TextOr(p, AnalysisKey, NoWeatherInformation), DailyForecastsOf(p),
                   HotelsOf(p), AttractionsOf(p), showReal)
  {
  }

  /** So a failed model call still yields an itinerary that names every day of the trip. */
  lemma FailedCallNamesEveryDay(p: TravelPayload, duration: int, prefs: seq<PrefItem>, travelType: string,
                                llm: PromptContext -> LlmReply, showReal: real -> string, d: nat)
    requires JoinPreferences(prefs).Joined?
    requires llm(ContextOf(p, duration, JoinPreferences(prefs).text, travelType, showReal)).LlmFailed?
    requires 1 <= d <= duration
    ensures Contains(ItineraryOutcome(p, duration, prefs, travelType, llm, showReal), DayHeading(d))
  {
    FailedCallGivesTemplate(p, duration, prefs, travelType, llm, showReal);
    FallbackHasEveryDay(TextOr(p, DestinationField, UnknownDestination), duration, JoinPreferences(prefs).text,
                        travelType, TextOr(p, AnalysisKey, NoWeatherInformation), DailyForecastsOf(p),
                        HotelsOf(p), AttractionsOf(p), showReal, d);
  }


  /** The dictionary the planner hands over uses the keys "hotels", "attractions" and
      "flights" and carries no weather bundle, so every list the chain reads is empty: the
      prompt shows the three placeholders and no day-by-day weather. */
  lemma PlannerKeysReachNoLists(p: TravelPayload, showReal: real -> string)
    requires p.Keys <= {DestinationField, AnalysisKey, "hotels", "attractions", "flights"}
    ensures HotelsOf(p) == [] && AttractionsOf(p) == [] && FlightsOf(p) == [] && DailyForecastsOf(p) == []
    ensures HotelSection(p) == NoHotelInformation && AttractionSection(p) == NoAttractionInformation
    ensures FlightSection(p) == NoFlightInformation && DailyWeatherInfo(DailyForecastsOf(p), showReal) == ""
  {
    assert HotelsKey !in p && AttractionsKey !in p && FlightsKey !in p && WeatherKey !in p;
  }
}
