/** Flight options (tools/flight_tools.py): the airline tables, the validity filter, the
    duration parser, INR conversion, the mock generator with its budget clamp and price sort,
    the best-option picks and the choice between web results and mock data. Web search,
    regular-expression scanning and the random draws are outside the model: their outcomes
    are inputs. */
module Flights {
  import opened Common

  datatype Flight = Flight(
    id: string,
    airline: string,
    flightNumber: string,
    aircraft: string,
    origin: string,
    destination: string,
    date: string,
    price: int,
    departureTime: string,
    arrivalTime: string,
    duration: string,
    layovers: int,
    rating: real,
    reviews: int,
    amenities: seq<string>,
    bookingUrl: string,
    emissions: string,
    source: string)

  const IndianAirlines: seq<string> := ["IndiGo", "Air India", "SpiceJet", "Vistara", "AirAsia India", "Akasa Air"]
  const Aircraft: seq<string> := ["A320", "B737", "A321", "A319", "ATR 72"]
  const FullService: seq<string> := ["Air India", "Vistara"]
  const LowCost: seq<string> := ["IndiGo", "SpiceJet", "Go First", "AirAsia India", "Akasa Air"]

  // =================================================================================
  // Airline tables
  // =================================================================================

  const AirlineCodes: map<string, string> := map[
    "IndiGo" := "6E",
    "Air India" := "AI",
    "SpiceJet" := "SG",
    "Vistara" := "UK",
    "Go First" := "G8",
    "AirAsia India" := "I5",
    "Akasa Air" := "QP"
  ]

  /** `_get_airline_code`: the IATA code of a listed airline, "IN" for any other. */
  function AirlineCode(airline: string): (code: string)
    ensures airline in AirlineCodes ==> code == AirlineCodes[airline]
    ensures airline !in AirlineCodes ==> code == "IN"
  {
    if airline in AirlineCodes then AirlineCodes[airline] else "IN"
  }

  /** No listed airline is coded "IN", and no two share a code: the code identifies the
      listed airline, and "IN" means the airline is not listed. */
  lemma AirlineCodeIdentifies(a: string, b: string)
    ensures AirlineCode(a) == "IN" <==> a !in AirlineCodes
    ensures a in AirlineCodes && b in AirlineCodes && AirlineCode(a) == AirlineCode(b) ==> a == b
  {
  }

  /** `_get_flight_amenities` */
  function FlightAmenities(airline: string): (r: seq<string>)
    ensures |r| >= 2 && r[0] == "In-flight entertainment"
    ensures airline in LowCost ==> |r| == 3
    ensures airline in FullService ==> |r| == 4
    ensures airline !in LowCost && airline !in FullService ==> r == ["In-flight entertainment", "Refreshments"]
  {
    var base := ["In-flight entertainment"];
    if airline in LowCost then base + ["Buy-on-board meals", "Seat selection"]
    else if airline in FullService then base + ["Complimentary meals", "Extra legroom option", "Priority boarding"]
    else base + ["Refreshments"]
  }

  /** Every airline the generator draws from gets more than the bare two amenities. */
  lemma IndianAirlinesHaveRicherAmenities(airline: string)
    requires airline in IndianAirlines
    ensures |FlightAmenities(airline)| >= 3
  {
  }

  // =================================================================================
  // Validity, price extraction, duration
  // =================================================================================

  /** `_is_valid_flight`, with Python truthiness: an empty string or a zero price is falsy. */
  predicate IsValidFlight(f: Flight) {
    if f.airline == "" || f.price == 0 then false
    else if f.price < 20 || f.price > 1000 then false
    else if f.departureTime == "" || f.arrivalTime == "" then false
    else true
  }

  /** The truthiness test on the price is subsumed by the range test. */
  lemma IsValidFlightIff(f: Flight)
    ensures IsValidFlight(f) <==>
      f.airline != "" && 20 <= f.price <= 1000 && f.departureTime != "" && f.arrivalTime != ""
  {
  }

  /** The INR-to-USD rule: whole dollars at 83 rupees each, never below $30. */
  function InrToUsd(inr: nat): (usd: int)
    ensures usd >= 30
    ensures usd == 30 || usd == inr / 83
    ensures inr >= 30 * 83 ==> usd == inr / 83
  {
    if inr / 83 > 30 then inr / 83 else 30
  }

  lemma InrToUsdMonotone(a: nat, b: nat)
    requires a <= b
    ensures InrToUsd(a) <= InrToUsd(b)
  {
    assert a / 83 <= b / 83;
  }

  /** `_extract_price_from_text` after pattern matching: a dollar amount wins over a rupee
      amount; with neither, a draw from [50, 200]. */
  function ExtractPrice(usdAmount: Option<nat>, inrAmount: Option<nat>, draw: nat): (price: int)
    ensures usdAmount.Some? ==> price == usdAmount.value
    ensures usdAmount.None? && inrAmount.Some? ==> price == InrToUsd(inrAmount.value) && price >= 30
    ensures usdAmount.None? && inrAmount.None? ==> 50 <= price <= 200
  {
    if usdAmount.Some? then usdAmount.value
    else if inrAmount.Some? then InrToUsd(inrAmount.value)
    else RandInt(50, 200, draw)
  }

  /** `_parse_duration`: `"Xh Ym"` in minutes; 150 whenever the text does not parse. */
  function ParseDuration(s: string): (minutes: int)
    ensures Words(s) == [] ==> minutes == 150
  {
    var parts := Words(s);
    if |parts| == 0 then 150
    else
      var hours := ParseInt(RemoveChar(parts[0], 'h'));
      var mins := if |parts| > 1 then ParseInt(RemoveChar(parts[1], 'm')) else Some(0);
      if hours.None? || mins.None? then 150
      else hours.value * 60 + mins.value
  }

  lemma NatToStringNoSpace(n: nat)
    ensures NoSpace(NatToString(n))
    ensures forall i :: 0 <= i < |NatToString(n)| ==> NatToString(n)[i] != 'h' && NatToString(n)[i] != 'm'
  {
  }

  /** Rendering hours and minutes as `"Xh Ym"` and parsing it back gives 60X + Y minutes. */
  lemma ParseDurationRoundTrip(h: nat, m: nat)
    ensures ParseDuration(NatToString(h) + "h " + NatToString(m) + "m") == 60 * h + m
  {
    var x := NatToString(h);
    var y := NatToString(m);
    NatToStringNoSpace(h);
    NatToStringNoSpace(m);
    var p := x + "h" + " ";
    assert "h " == "h" + " ";
    ConcatAssoc(x, "h", " ");
    ConcatAssoc(p, y, "m");
    assert x + "h " + y + "m" == p + (y + "m");
    WordsOfTwo(x + "h", y + "m");
    assert p + (y + "m") == (x + "h") + " " + (y + "m");
    RemoveCharSuffix(x, 'h');
    RemoveCharSuffix(y, 'm');
    ParseIntOfNatToString(h);
    ParseIntOfNatToString(m);
    ParseDurationOfParts(x + "h " + y + "m", x + "h", y + "m", h, m);
  }

  lemma ParseDurationOfParts(s: string, a: string, b: string, h: nat, m: nat)
    requires Words(s) == [a, b]
    requires ParseInt(RemoveChar(a, 'h')) == Some(h) && ParseInt(RemoveChar(b, 'm')) == Some(m)
    ensures ParseDuration(s) == 60 * h + m
  {
  }

  /** A single `"Xh"` part counts no minutes. */
  lemma ParseDurationHoursOnly(h: nat)
    ensures ParseDuration(NatToString(h) + "h") == 60 * h
  {
    var a := NatToString(h) + "h";
    NatToStringNoSpace(h);
    WordsOfOne(a);
    RemoveCharSuffix(NatToString(h), 'h');
    ParseIntOfNatToString(h);
  }

  // =================================================================================
  // Mock generation
  // =================================================================================

  datatype TimeSlot = TimeSlot(departure: string, arrival: string, duration: string)

  const TimeSlots: seq<TimeSlot> := [
    TimeSlot("06:00", "08:15", "2h 15m"),
    TimeSlot("09:30", "11:45", "2h 15m"),
    TimeSlot("12:00", "14:20", "2h 20m"),
    TimeSlot("15:45", "18:00", "2h 15m"),
    TimeSlot("18:30", "20:45", "2h 15m"),
    TimeSlot("21:00", "23:15", "2h 15m")
  ]
  const PreferredSlots: seq<nat> := [0, 1, 4, 5]

  /** `_generate_flight_details`: a random slot, redrawn among the morning and evening slots
      for full-service carriers. */
  function FlightSlot(airline: string, slotDraw: nat, preferredDraw: nat): (slot: TimeSlot)
    ensures slot in TimeSlots
    ensures airline in FullService ==> slot != TimeSlots[2] && slot != TimeSlots[3]
  {
    var first := Choice(TimeSlots, slotDraw);
    if airline in FullService then TimeSlots[Choice(PreferredSlots, preferredDraw)] else first
  }

  /** A route's price band in dollars. */
  datatype PriceRange = PriceRange(low: int, high: int)

  const BasePrices: map<string, PriceRange> := map[
    "bangalore-goa" := PriceRange(60, 150),
    "delhi-goa" := PriceRange(80, 200),
    "mumbai-goa" := PriceRange(70, 180),
    "chennai-goa" := PriceRange(75, 190),
    "kolkata-goa" := PriceRange(90, 220),
    "default" := PriceRange(65, 170)
  ]

  /** `f"{origin.lower().split()[0]}-{destination.lower()}"`; an origin with no word raises. */
  function RouteKey(origin: string, destination: string): Option<string> {
    var words := Words(Lower(origin));
    if |words| == 0 then None else Some(words[0] + "-" + Lower(destination))
  }

  function RoutePrices(key: string): (r: PriceRange)
    ensures 0 <= r.low <= r.high
  {
    if key in BasePrices then BasePrices[key] else BasePrices["default"]
  }

  /** The random outcomes one generated flight consumes. */
  datatype MockDraw = MockDraw(
    airline: nat, basePrice: nat, premium: nat, slot: nat, preferredSlot: nat,
    id: nat, number: nat, aircraft: nat, rating: real, reviews: nat, emissions: nat)

  /** The drawn price of one generated flight: a draw in the route band, plus a 10-30 premium
      for full-service carriers. */
  function DrawnPrice(range: PriceRange, airline: string, d: MockDraw): (price: int)
    requires 0 <= range.low <= range.high
    ensures airline !in FullService ==> range.low <= price <= range.high
    ensures airline in FullService ==> range.low + 10 <= price <= range.high + 30
  {
    var base := RandInt(range.low, range.high, d.basePrice);
    if airline in FullService then base + RandInt(10, 30, d.premium) else base
  }

  /** The price of one generated flight: the drawn price, cut to max(low, int(0.6 * budget))
      when a non-zero budget is exceeded by more than 70%. */
  function MockPrice(range: PriceRange, airline: string, d: MockDraw, budget: real): (price: int)
    requires 0 <= range.low <= range.high
    ensures price >= range.low
    ensures budget != 0.0 ==> price as real <= 0.7 * budget || price == range.low
    ensures budget == 0.0 || DrawnPrice(range, airline, d) as real <= 0.7 * budget ==>
      price == DrawnPrice(range, airline, d)
    ensures budget != 0.0 && DrawnPrice(range, airline, d) as real > 0.7 * budget ==>
      var cut := TruncateReal(0.6 * budget);
      price >= range.low && price >= cut && (price == range.low || price == cut)
  {
    var drawn := DrawnPrice(range, airline, d);
    if budget != 0.0 && drawn as real > budget * 0.7 then
      var cut := TruncateReal(budget * 0.6);
      if range.low > cut then range.low else cut
    else drawn
  }

  /** One generated flight, before sorting. */
  function MockFlight(origin: string, destination: string, date: string, range: PriceRange, d: MockDraw,
                      budget: real): (f: Flight)
    requires 0 <= range.low <= range.high
    ensures f.airline in IndianAirlines && f.price >= range.low && f.source == "enhanced_mock"
    ensures f.layovers == 0 && f.amenities == FlightAmenities(f.airline)
    ensures budget != 0.0 ==> f.price as real <= 0.7 * budget || f.price == range.low
  {
    var airline := Choice(IndianAirlines, d.airline);
    var price := MockPrice(range, airline, d, budget);
    var slot := FlightSlot(airline, d.slot, d.preferredSlot);
    Flight(
      "IN" + IntToString(RandInt(1000, 9999, d.id)),
      airline,
      AirlineCode(airline) + IntToString(RandInt(100, 999, d.number)),
      Choice(Aircraft, d.aircraft),
      origin, destination, date, price,
      slot.departure, slot.arrival, slot.duration, 0,
      d.rating, RandInt(50, 500, d.reviews),
      FlightAmenities(airline),
      "https://" + RemoveChar(Lower(airline), ' ') + ".com/book",
      IntToString(RandInt(80, 150, d.emissions)) + " kg CO2",
      "enhanced_mock")
  }

  predicate SortedByPrice(fs: seq<Flight>) {
    forall i, j :: 0 <= i < j < |fs| ==> fs[i].price <= fs[j].price
  }

  /** Insert `f` after every entry whose price does not exceed its own. */
  function InsertByPrice(f: Flight, sorted: seq<Flight>): (r: seq<Flight>)
    ensures multiset(r) == multiset(sorted) + multiset{f}
    ensures |r| == |sorted| + 1
  {
    if sorted == [] then [f]
    else if f.price < sorted[0].price then [f] + sorted
    else
      assert sorted == [sorted[0]] + sorted[1..];
      [sorted[0]] + InsertByPrice(f, sorted[1..])
  }

  /** Every flight in `fs` costs at least `floor`. */
  predicate PricedFrom(fs: seq<Flight>, floor: int) {
    forall k :: 0 <= k < |fs| ==> fs[k].price >= floor
  }

  lemma {:induction false} InsertByPriceFloor(f: Flight, sorted: seq<Flight>, floor: int)
    requires PricedFrom(sorted, floor) && f.price >= floor
    ensures PricedFrom(InsertByPrice(f, sorted), floor)
  {
    if sorted != [] && f.price >= sorted[0].price {
      InsertByPriceFloor(f, sorted[1..], floor);
      var rest := InsertByPrice(f, sorted[1..]);
      assert InsertByPrice(f, sorted) == [sorted[0]] + rest;
    }
  }

  lemma {:induction false} InsertByPriceSorted(f: Flight, sorted: seq<Flight>)
    requires SortedByPrice(sorted)
    ensures SortedByPrice(InsertByPrice(f, sorted))
  {
    if sorted != [] && f.price >= sorted[0].price {
      InsertByPriceSorted(f, sorted[1..]);
      InsertByPriceFloor(f, sorted[1..], sorted[0].price);
      var rest := InsertByPrice(f, sorted[1..]);
      assert InsertByPrice(f, sorted) == [sorted[0]] + rest;
    }
  }

  /** A stable sort by ascending price, as `list.sort(key=price)`. */
  function SortByPrice(fs: seq<Flight>): (r: seq<Flight>)
    ensures |r| == |fs|
  {
    if fs == [] then [] else InsertByPrice(fs[|fs| - 1], SortByPrice(fs[..|fs| - 1]))
  }

  /** The sort returns flights ordered by price. */
  lemma {:induction false} SortByPriceSorted(fs: seq<Flight>)
    ensures SortedByPrice(SortByPrice(fs))
  {
    if fs != [] {
      SortByPriceSorted(fs[..|fs| - 1]);
      InsertByPriceSorted(fs[|fs| - 1], SortByPrice(fs[..|fs| - 1]));
    }
  }

  /** The sort returns the same flights. */
  lemma {:induction false} SortByPricePermutes(fs: seq<Flight>)
    ensures multiset(SortByPrice(fs)) == multiset(fs)
  {
    if fs != [] {
      var init := fs[..|fs| - 1];
      SortByPricePermutes(init);
      assert fs == init + [fs[|fs| - 1]];
    }
  }

  /** A flight of the sorted list is a flight of the input. */
  lemma SortByPriceMember(fs: seq<Flight>, f: Flight)
    requires f in SortByPrice(fs)
    ensures f in fs
  {
    SortByPricePermutes(fs);
    assert f in multiset(SortByPrice(fs));
  }

  /** `flights.sort(key=lambda x: x["price"])` */
  method SortFlightsByPrice(flights: seq<Flight>) returns (sorted: seq<Flight>)
    ensures sorted == SortByPrice(flights)
    ensures SortedByPrice(sorted) && multiset(sorted) == multiset(flights)
  {
    sorted := [];
    var i := 0;
    while i < |flights|
      invariant 0 <= i <= |flights|
      invariant sorted == SortByPrice(flights[..i])
    {
      assert flights[..i + 1][..i] == flights[..i];
      sorted := InsertByPrice(flights[i], sorted);
      i := i + 1;
    }
    assert flights[..i] == flights;
    SortByPriceSorted(flights);
    SortByPricePermutes(flights);
  }

  /** The four flights in draw order. */
  function MockFlights(origin: string, destination: string, date: string, range: PriceRange,
                       draws: seq<MockDraw>, budget: real): (r: seq<Flight>)
    requires 0 <= range.low <= range.high
    ensures |r| == |draws|
  {
    if draws == [] then []
    else MockFlights(origin, destination, date, range, draws[..|draws| - 1], budget)
         + [MockFlight(origin, destination, date, range, draws[|draws| - 1], budget)]
  }

  /** Flight `k` is the one built from draw `k`. */
  lemma {:induction false} MockFlightsAt(origin: string, destination: string, date: string,
                                         range: PriceRange, draws: seq<MockDraw>, budget: real, k: nat)
    requires 0 <= range.low <= range.high && k < |draws|
    ensures MockFlights(origin, destination, date, range, draws, budget)[k]
         == MockFlight(origin, destination, date, range, draws[k], budget)
    decreases |draws|
  {
    if k < |draws| - 1 {
      MockFlightsAt(origin, destination, date, range, draws[..|draws| - 1], budget, k);
    }
  }

  /** One more round of the generating loop appends the flight of the next draw. */
  lemma MockFlightsPrefix(origin: string, destination: string, date: string, range: PriceRange,
                          draws: seq<MockDraw>, budget: real, i: nat)
    requires 0 <= range.low <= range.high && i < |draws|
    ensures MockFlights(origin, destination, date, range, draws[..i + 1], budget)
         == MockFlights(origin, destination, date, range, draws[..i], budget)
            + [MockFlight(origin, destination, date, range, draws[i], budget)]
  {
    assert draws[..i + 1][..i] == draws[..i];
  }

  /** `_generate_realistic_indian_flights`: four drawn flights, sorted by price. The route key
      needs a word in the origin; without one the generator raises. */
  method GenerateMockFlights(origin: string, destination: string, date: string, budget: real,
                             draws: seq<MockDraw>)
    returns (r: Option<seq<Flight>>)
    requires |draws| == 4
    ensures RouteKey(origin, destination).None? <==> r.None?
    ensures r.Some? ==>
      var range := RoutePrices(RouteKey(origin, destination).value);
      && |r.value| == 4
      && SortedByPrice(r.value)
      && multiset(r.value) == multiset(MockFlights(origin, destination, date, range, draws, budget))
      && r.value == SortByPrice(MockFlights(origin, destination, date, range, draws, budget))
  {
    var key := RouteKey(origin, destination);
    if key.None? {
      return None;
    }
    var range := RoutePrices(key.value);
    var flights := DrawMockFlights(origin, destination, date, range, draws, budget);
    var sorted := SortFlightsByPrice(flights);
    r := Some(sorted);
  }

  /** The generating loop: one flight per draw, in draw order. */
  method DrawMockFlights(origin: string, destination: string, date: string, range: PriceRange,
                         draws: seq<MockDraw>, budget: real) returns (flights: seq<Flight>)
    requires 0 <= range.low <= range.high
    ensures flights == MockFlights(origin, destination, date, range, draws, budget)
  {
    flights := [];
    for i := 0 to |draws|
      invariant flights == MockFlights(origin, destination, date, range, draws[..i], budget)
    {
      MockFlightsPrefix(origin, destination, date, range, draws, budget, i);
      flights := flights + [MockFlight(origin, destination, date, range, draws[i], budget)];
    }
    assert draws[..|draws|] == draws;
  }

  /** Every generated flight is priced at or above its route's floor and, under a non-zero
      budget, at or below 70% of the budget unless that floor is higher. */
  lemma MockFlightsWithinBudget(origin: string, destination: string, date: string, range: PriceRange,
                                draws: seq<MockDraw>, budget: real, f: Flight)
    requires 0 <= range.low <= range.high
    requires f in SortByPrice(MockFlights(origin, destination, date, range, draws, budget))
    ensures f.price >= range.low
    ensures budget != 0.0 ==> f.price as real <= 0.7 * budget || f.price == range.low
  {
    var fs := MockFlights(origin, destination, date, range, draws, budget);
    SortByPriceMember(fs, f);
    var k :| 0 <= k < |fs| && fs[k] == f;
    MockFlightsAt(origin, destination, date, range, draws, budget, k);
  }

  // =================================================================================
  // Best options
  // =================================================================================

  /** Index of the first entry with the smallest key (Python's `min` with `key=`). */
  function FirstMin(keys: seq<int>): (i: nat)
    requires |keys| > 0
    ensures i < |keys|
    ensures forall j :: 0 <= j < |keys| ==> keys[i] <= keys[j]
    ensures forall j :: 0 <= j < i ==> keys[j] > keys[i]
  {
    if |keys| == 1 then 0
    else
      var k := 1 + FirstMin(keys[1..]);
      if keys[k] < keys[0] then k else 0
  }

  /** Index of the first entry with the largest key (Python's `max` with `key=`). */
  function FirstMax(keys: seq<real>): (i: nat)
    requires |keys| > 0
    ensures i < |keys|
    ensures forall j :: 0 <= j < |keys| ==> keys[j] <= keys[i]
    ensures forall j :: 0 <= j < i ==> keys[j] < keys[i]
  {
    if |keys| == 1 then 0
    else
      var k := 1 + FirstMax(keys[1..]);
      if keys[k] > keys[0] then k else 0
  }

  function Prices(fs: seq<Flight>): (r: seq<int>)
    ensures |r| == |fs| && forall i :: 0 <= i < |fs| ==> r[i] == fs[i].price
  {
    seq(|fs|, i requires 0 <= i < |fs| => fs[i].price)
  }

  function Ratings(fs: seq<Flight>): (r: seq<real>)
    ensures |r| == |fs| && forall i :: 0 <= i < |fs| ==> r[i] == fs[i].rating
  {
    seq(|fs|, i requires 0 <= i < |fs| => fs[i].rating)
  }

  function Durations(fs: seq<Flight>): (r: seq<int>)
    ensures |r| == |fs| && forall i :: 0 <= i < |fs| ==> r[i] == ParseDuration(fs[i].duration)
  {
    seq(|fs|, i requires 0 <= i < |fs| => ParseDuration(fs[i].duration))
  }

  datatype Recommendations =
    | NoFlights(analysis: string)
    | BestOptions(bestBudget: Flight, bestRated: Flight, quickest: Flight)

  /** `_get_flight_recommendations` without the prose analysis. */
  function FlightRecommendations(fs: seq<Flight>): (r: Recommendations)
    ensures fs == [] <==> r.NoFlights?
    ensures fs == [] ==> r.analysis == "No flights available"
    ensures r.BestOptions? ==>
      && r.bestBudget in fs && r.bestRated in fs && r.quickest in fs
      && (forall f :: f in fs ==> r.bestBudget.price <= f.price)
      && (forall f :: f in fs ==> f.rating <= r.bestRated.rating)
      && (forall f :: f in fs ==> ParseDuration(r.quickest.duration) <= ParseDuration(f.duration))
  {
    if fs == [] then NoFlights("No flights available")
    else
      var p := Prices(fs);
      var q := Ratings(fs);
      var d := Durations(fs);
      BestOptions(fs[FirstMin(p)], fs[FirstMax(q)], fs[FirstMin(d)])
  }

  /** On a price-sorted list the cheapest pick is the first flight. */
  lemma CheapestOfSortedIsFirst(fs: seq<Flight>)
    requires fs != [] && SortedByPrice(fs)
    ensures FlightRecommendations(fs).bestBudget == fs[0]
  {
  }

  // =================================================================================
  // Web results versus mock data
  // =================================================================================

  /** The kept web results: the valid parsed ones, in order. */
  function ValidResults(parsed: seq<Option<Flight>>): (r: seq<Flight>)
    ensures forall f :: f in r ==> IsValidFlight(f)
    ensures |r| <= |parsed|
  {
    if parsed == [] then []
    else
      var rest := ValidResults(parsed[1..]);
      if parsed[0].Some? && IsValidFlight(parsed[0].value) then [parsed[0].value] + rest else rest
  }

  /** `_search_real_flights` after the search call: keep the valid parsed results in order,
      at most four; a failed search yields none. */
  method SearchRealFlights(search: Option<seq<Option<Flight>>>) returns (flights: seq<Flight>)
    ensures search.None? ==> flights == []
    ensures search.Some? ==> flights == Take(ValidResults(search.value), 4)
    ensures |flights| <= 4 && forall f :: f in flights ==> IsValidFlight(f)
  {
    if search.None? {
      return [];
    }
    var parsed := search.value;
    var kept: seq<Flight> := [];
    var i := |parsed|;
    while i > 0
      invariant 0 <= i <= |parsed|
      invariant kept == ValidResults(parsed[i..])
    {
      i := i - 1;
      assert parsed[i..][1..] == parsed[i + 1..];
      if parsed[i].Some? && IsValidFlight(parsed[i].value) {
        kept := [parsed[i].value] + kept;
      }
    }
    assert parsed[0..] == parsed;
    flights := Take(kept, 4);
    assert forall f :: f in flights ==> f in kept;
  }

  /** The web results `search_flights` can use: the valid parsed results, at most four. */
  function WebFlights(search: Option<seq<Option<Flight>>>): (fs: seq<Flight>)
    ensures |fs| <= 4 && forall f :: f in fs ==> IsValidFlight(f)
  {
    if search.Some? then Take(ValidResults(search.value), 4) else []
  }

  /** The mock list `search_flights` falls back to: the generated flights sorted by price. */
  function SortedMockFlights(origin: string, destination: string, date: string, budget: real,
                             draws: seq<MockDraw>): (fs: seq<Flight>)
    requires RouteKey(origin, destination).Some?
    ensures |fs| == |draws| && SortedByPrice(fs)
  {
    var range := RoutePrices(RouteKey(origin, destination).value);
    SortByPriceSorted(MockFlights(origin, destination, date, range, draws, budget));
    SortByPrice(MockFlights(origin, destination, date, range, draws, budget))
  }

  datatype FlightSearch =
    | FlightSearchRaised(error: string)
    | FlightSearchResult(status: string, totalFlights: int, priceRange: string, flights: seq<Flight>,
                         recommendations: Recommendations)

  /** `"$min - $max"` over a non-empty list. */
  function PriceRangeText(fs: seq<Flight>): string
    requires fs != []
  {
    var p := Prices(fs);
    "$" + IntToString(p[FirstMin(p)]) + " - $" + IntToString(MaxPrice(fs))
  }

  function MaxPrice(fs: seq<Flight>): (m: int)
    requires fs != []
    ensures exists i :: 0 <= i < |fs| && fs[i].price == m
    ensures forall i :: 0 <= i < |fs| ==> fs[i].price <= m
  {
    if |fs| == 1 then fs[0].price
    else
      var rest := MaxPrice(fs[1..]);
      assert forall i :: 1 <= i < |fs| ==> fs[i] == fs[1..][i - 1];
      if fs[0].price >= rest then fs[0].price else rest
  }

  /** The text of the `IndexError` that indexing the empty origin split raises. */
  const IndexErrorText: string := "list index out of range"

  /** `search_flights`: web results when at least two survive, otherwise the mock list. When
      mock generation raises, the handler retries it, so the failure escapes. */
  method SearchFlights(origin: string, destination: string, date: string, budget: real,
                       search: Option<seq<Option<Flight>>>, draws: seq<MockDraw>)
    returns (r: FlightSearch)
    requires |draws| == 4
    ensures r.FlightSearchRaised? <==> |WebFlights(search)| < 2 && RouteKey(origin, destination).None?
    ensures r.FlightSearchRaised? ==> r.error == IndexErrorText
    ensures |WebFlights(search)| >= 2 ==> r.FlightSearchResult? && r.flights == WebFlights(search)
    ensures |WebFlights(search)| < 2 && r.FlightSearchResult? ==>
      r.flights == SortedMockFlights(origin, destination, date, budget, draws)
    ensures r.FlightSearchResult? ==>
      && r.status == "success"
      && r.totalFlights == |r.flights|
      && 2 <= |r.flights| <= 4
      && r.recommendations == FlightRecommendations(r.flights)
  {
    var web := SearchRealFlights(search);
    var flights: seq<Flight>;
    if |web| >= 2 {
      flights := web;
    } else {
      var mock := GenerateMockFlights(origin, destination, date, budget, draws);
      if mock.None? {
        return FlightSearchRaised(IndexErrorText);
      }
      flights := mock.value;
    }
    r := FlightSearchResult("success", |flights|, PriceRangeText(flights), flights,
                            FlightRecommendations(flights));
  }
}
