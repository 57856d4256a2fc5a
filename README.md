# Weather-aware trip planner, modelled in Dafny

This project models the decision-making core of a trip-planning assistant. It covers how the
assistant scores the weather, chooses between web results and generated data, builds and
grades an itinerary, and routes a planning request through its state machine.

The modules follow the program's own files:

- `Common` (common.dfy): the pieces of Python behaviour the other modules rely on. These are
  an Option type, ASCII lower-casing, substring search, `strip`, `split`, `join`, decimal
  `int()` and integer rendering. It also holds the first-match keyword tables, and random
  draws passed in as parameters.
- `Weather` (weather.dfy, tools/weather_tool.py) models:
  - the per-day suitability score and the single-point viability score, each an additive
    table of first-match adjustments clamped to 0..100;
  - the score-to-label buckets and the day-by-day recommendations;
  - the extended forecast's day loop and its mean trip score;
  - the rule that picks the one canonical trip score.
- `TravelTools` (travel.dfy, tools/travel_tools.py) models:
  - the viability verdict and its warning ladder;
  - the date-range split;
  - the success and error envelope of the collection of weather, hotels, attractions and
    flights.
- `Flights` (flights.dfy, tools/flight_tools.py) models:
  - the airline code and amenity tables, the validity filter and the duration parser;
  - INR conversion, and the mock generator with its budget clamp and price sort;
  - the cheapest, best-rated and quickest picks;
  - the choice between web results and mock data.
- `Search` (search.dfy, tools/search_tool.py) models:
  - the attraction categoriser, the title cleaner and the hotel validity filter;
  - the price category and its bands, the amenity lists and the template hotels;
  - the de-duplicating merges of the hotel and attraction searches.
- `ItineraryChain` (chain.dfy, chains/itinerary_chain.py) models:
  - what the itinerary chain reads from its travel-data dictionary;
  - the template itinerary it falls back to when the language model fails;
  - the parser and fixed fallback of the alternative suggestions.
- `Helpers` (helpers.dfy, utils/helpers.py) models:
  - the request validator;
  - the text rendering of a finished plan.
- `Planner` (planner.dfy, agents/trip_planner.py) models the LangGraph agent:
  - the nine nodes, each a patch merged into the shared state;
  - the edge table and its routing functions;
  - the itinerary quality score;
  - `plan_trip`.
  `TripPlannerAgent` is a class whose `Step`, `Run` and `PlanTrip` methods update the state
  in place. They are proved against the run function `RunFrom`, and the reachability and
  termination facts are lemmas about that function.

Outside effects are parameters of the model: the weather HTTP replies, web search hits, the
language-model replies, random draws, calendar arithmetic and the rendering of floats.

## Model

| member | source | states |
|---|---|---|
| Weather.DailySuitability | tools/weather_tool.py:294-329 | the daily suitability score always lies in [0, 100] |
| Weather.DailyConditionChain | tools/weather_tool.py:308-321 | the six-branch keyword chain over the lower-cased description is the first-match lookup in the keyword and delta table |
| Weather.CalculateDailySuitabilityScore | tools/weather_tool.py:294-329 | the step-by-step scorer returns the daily suitability of temperature, description and wind, ignores the rain probability, and stays in [0, 100] |
| Weather.RawDailyScoreBounds | tools/weather_tool.py:296-327 | before clamping, 100 plus the three adjustments lies in [-10, 125] |
| Weather.DailySuitabilityIgnoresCase | tools/weather_tool.py:309 | the description counts only through its lower-cased form |
| Weather.ThunderstormTakesStormRow | tools/weather_tool.py:310-313 | a description containing "thunderstorm" always takes the -50 "storm" row, never the -40 row that lists "thunderstorm" |
| Weather.HeavyRainRowNeedsHeavyRain | tools/weather_tool.py:312-313 | the -40 adjustment is reached only when the description contains "heavy rain" |
| Weather.ClearSkyMissesRow0 | tools/weather_tool.py:310-311 | "clear sky" matches no keyword of the storm row |
| Weather.ClearSkyMissesRow1 | tools/weather_tool.py:312-313 | "clear sky" matches no keyword of the heavy-rain row |
| Weather.ClearSkyMissesRow2 | tools/weather_tool.py:314-315 | "clear sky" matches no keyword of the rain row |
| Weather.ClearSkyMissesRow3 | tools/weather_tool.py:316-317 | "clear sky" matches no keyword of the snow row |
| Weather.ClearWarmDayScoresFull | tools/weather_tool.py:296-329 | 25 degrees, "clear sky", wind 5 scores 100 (110 + 15 clamped) |
| Weather.FreezingThunderstormScoresTen | tools/weather_tool.py:296-329 | -5 degrees with "thunderstorm" and wind 10 scores 10 |
| Weather.SuitabilityLevelMonotone | tools/weather_tool.py:331-342 | a higher score never receives a lower label |
| Weather.SuitabilityLevelBands | tools/weather_tool.py:331-342 | each of the five labels is given exactly on its score band (both directions) |
| Weather.OverallRecommendation | tools/weather_tool.py:363-372 | the trip message is the "excellent" one exactly when the label is Excellent, the "good" one exactly when it is Good, the "fair" one exactly when it is Fair, and the "poor" one exactly when the label is Poor or Very Poor |
| Weather.DailyRecommendations | tools/weather_tool.py:344-361 | the advice has 1, 3 or 6 lines; it is the neutral line exactly when it has one line; hot and cold days start with the heat or cold advice; a mild rainy or drizzly day gets exactly the rain advice |
| Weather.DailyRecommendationsBlocks | tools/weather_tool.py:344-361 | a rain or drizzle word ends the advice with the rain advice, else a storm or thunder word with the storm advice, else a clear or sunny word with the clear advice; six lines exactly when both a temperature block and a condition block apply; the neutral line alone exactly when the temperature is in [10, 30] and no condition word occurs |
| Weather.ViabilityConditionChain | tools/weather_tool.py:164-186 | the six-branch condition chain of the viability score is the first-match lookup in its keyword and effect table |
| Weather.TemperatureAxis | tools/weather_tool.py:149-162 | the temperature block adds its band's delta, reason and advice to the running tally |
| Weather.ConditionAxis | tools/weather_tool.py:164-186 | the condition block adds the first matching row's delta, reason and advice to the running tally |
| Weather.WindAxis | tools/weather_tool.py:188-195 | the wind block adds its band's delta, reason and advice to the running tally |
| Weather.CalculateViabilityScore | tools/weather_tool.py:136-204 | the running scorer equals the viability of the current reading, stays in [0, 100], and gives score 0, "Weather data unavailable" and no advice for an error reading |
| Weather.RainRowPrecedesStormRow | tools/weather_tool.py:171-182 | a description with both "rain" and "storm" (and no earlier keyword) is scored as rain (-25), never as a storm |
| Weather.SumScoresBounds | tools/weather_tool.py:116-117 | the sum of n daily scores in [0, 100] lies in [0, 100 n] |
| Weather.MeanScoreInRange | tools/weather_tool.py:115-117 | the trip score, the mean of the daily scores, lies in [0, 100] |
| Weather.MeanScoreExample | tools/weather_tool.py:116-117 | daily scores 80, 60 and 40 give a trip score of 60 |
| Weather.ScoreDay | tools/weather_tool.py:90-113 | the loop body builds day i's entry: the forecast row when there is one, else the current reading (with defaults 25, "clear sky", 5), scored and labelled |
| Weather.DayEntries | tools/weather_tool.py:86-113 | the day list has one entry per trip day |
| Weather.DayEntriesStep | tools/weather_tool.py:86-113 | the entries of n + 1 days are those of n days followed by day n's entry |
| Weather.DayEntriesScoresInRange | tools/weather_tool.py:101-113 | every built day scores within [0, 100] |
| Weather.BuildDailyForecasts | tools/weather_tool.py:82-113 | the day loop yields exactly the entries for days 0 .. duration - 1, none when the duration is not positive |
| Weather.ExtendedWeatherForecast | tools/weather_tool.py:66-130 | an error bundle is returned unchanged; otherwise the bundle gains the day entries, and their mean (or the basic score, default 50, when there are no days) becomes both the viability score and the trip score |
| Weather.WithExtendedKeepsScoresInStep | tools/weather_tool.py:115-130 | the extended record keeps every basic field but the score, and its stored viability score equals its trip score and the canonical score |
| Weather.ExtendedTripScoreInRange | tools/weather_tool.py:115-127 | the trip score of a forecast with at least one day lies in [0, 100] |
| Weather.ExtendedScoresAgree | tools/weather_tool.py:374-387 | after an extended forecast of one or more days, the consistent scorer returns the mean of the daily scores, which equals the stored viability score, with that mean's level and overall recommendation |
| Weather.ConsistentWeatherScore | tools/weather_tool.py:374-406 | an error bundle gives 0, "Unknown" and "Weather data unavailable"; otherwise the score is the canonical one (trip score first, basic score as fallback), the level is that score's label and the recommendation is the matching reason |
| TravelTools.DateRange | tools/travel_tools.py:25-27 | the start date is the first piece of the split on " to "; the end is the second piece when there is one, else the start |
| TravelTools.NoSeparatorBefore | tools/travel_tools.py:25 | no " to " separator can begin inside a space-free date, even one running into the text after it |
| TravelTools.SpaceFreeHasNoSeparator | tools/travel_tools.py:25 | a space-free date holds no " to " separator |
| TravelTools.DateRangeOfTwo | tools/travel_tools.py:25-27 | "start to end" with space-free dates splits back into exactly (start, end) |
| TravelTools.DateRangeOfOne | tools/travel_tools.py:25-27 | a single space-free date is both the start and the end |
| TravelTools.CheckWeatherViability | tools/travel_tools.py:68-105 | an error bundle gives the fixed unavailable verdict; otherwise the score and reason are the canonical ones, the trip is viable exactly when the score is at least 40, and the warning is "Poor" exactly below 30, "Moderate" exactly in [30, 50) and absent exactly from 50 |
| TravelTools.ViabilityAgreesWithConsistentScore | tools/travel_tools.py:81-89 | the viability check and the consistent weather scorer read the same score and the same explanation |
| TravelTools.ConditionalCarriesModerateWarning | tools/travel_tools.py:91-103 | a verdict that is not viable yet scores at least 30 always carries the moderate warning |
| TravelTools.ExtendedViabilityScoreInRange | tools/travel_tools.py:82-86 | after an extended forecast with days, the viability score is its trip score and lies in [0, 100] |
| TravelTools.ExtendedForecast | tools/weather_tool.py:66-134 | a failed basic forecast is passed on, an unparsable date becomes the "Extended weather forecast error" bundle, otherwise the bundle is extended with the day entries |
| TravelTools.CollectWeather | tools/travel_tools.py:29-30 | the weather step yields the extended forecast of the collected outcomes |
| TravelTools.SearchOptions | tools/travel_tools.py:33-41 | the hotels are the search's result: at most six distinct-named valid web hotels when three or more are found, else the destination's templates; the attractions are the parsed distinct ones topped up from the database below four and cut at eight, or the database entries when the search fails; the flight search raises exactly when there are too few web results and no route key, and otherwise returns the web results when at least two survive, else the price-sorted mock list |
| TravelTools.GetComprehensiveTravelData | tools/travel_tools.py:15-66 | the collection fails, with "Travel data collection failed: " and the flight search's message, exactly when the flight search raises; otherwise it holds the extended forecast, its analysis text, the viability verdict of that same forecast, the hotel and attraction lists the searches return, the web-or-mock flight list for the start date of the split range, the search hits and the destination |
| Flights.AirlineCode | tools/flight_tools.py:285-296 | a listed airline gets its IATA code, any other airline "IN" |
| Flights.AirlineCodeIdentifies | tools/flight_tools.py:285-296 | the code is "IN" exactly for unlisted airlines, and two listed airlines with the same code are the same airline |
| Flights.FlightAmenities | tools/flight_tools.py:298-307 | every list starts with in-flight entertainment; low-cost carriers get three entries, full-service carriers four, anyone else exactly entertainment and refreshments |
| Flights.IndianAirlinesHaveRicherAmenities | tools/flight_tools.py:298-307 | every airline the generator draws from gets at least three amenities |
| Flights.IsValidFlightIff | tools/flight_tools.py:309-320 | a flight is valid exactly when it has an airline, a price in [20, 1000] and both times (the truthiness test on the price adds nothing) |
| Flights.InrToUsd | tools/flight_tools.py:185-187 | the converted price is never below 30, is either 30 or the whole number of 83-rupee units, and is the latter from 2490 rupees up |
| Flights.InrToUsdMonotone | tools/flight_tools.py:185-187 | a larger rupee amount never converts to fewer dollars |
| Flights.ExtractPrice | tools/flight_tools.py:169-190 | a dollar amount is taken as is; a rupee amount alone converts to max(30, inr div 83); with neither the price is a draw in [50, 200] |
| Flights.ParseDuration | tools/flight_tools.py:341-349 | text with no words falls back to 150 minutes |
| Flights.NatToStringNoSpace | tools/flight_tools.py:344-346 | a rendered number holds no space, "h" or "m", so it survives the split and the suffix removal |
| Flights.ParseDurationRoundTrip | tools/flight_tools.py:341-349 | parsing "Xh Ym" gives 60 X + Y minutes |
| Flights.ParseDurationOfParts | tools/flight_tools.py:344-347 | two words whose stripped forms parse as h and m give 60 h + m minutes |
| Flights.ParseDurationHoursOnly | tools/flight_tools.py:346-347 | a lone "Xh" counts no minutes: 60 X |
| Flights.FlightSlot | tools/flight_tools.py:192-217 | the slot is one of the six listed, and a full-service carrier never gets the two midday slots |
| Flights.RoutePrices | tools/flight_tools.py:224-234 | every route band, default included, has 0 <= low <= high |
| Flights.DrawnPrice | tools/flight_tools.py:241-244 | the drawn price lies in the route band, raised by 10 to 30 for a full-service carrier |
| Flights.MockPrice | tools/flight_tools.py:240-249 | a generated price is the drawn price (the route band draw plus the 10-30 premium for full-service carriers) when the budget is zero or not exceeded by more than 70%; otherwise it is max(route floor, int(0.6 * budget)), so it is never below the floor |
| Flights.MockFlight | tools/flight_tools.py:237-279 | each generated flight has a listed Indian airline, a price at or above the floor (and within the budget rule), no layovers, that airline's amenities and the "enhanced_mock" source |
| Flights.InsertByPrice | tools/flight_tools.py:282 | insertion adds exactly the new flight to the multiset |
| Flights.InsertByPriceFloor | tools/flight_tools.py:282 | insertion keeps every flight at or above a common price floor |
| Flights.InsertByPriceSorted | tools/flight_tools.py:282 | inserting into a price-sorted list keeps it sorted |
| Flights.SortByPrice | tools/flight_tools.py:282 | the sort keeps the length |
| Flights.SortByPriceSorted | tools/flight_tools.py:282 | the sort orders the flights by ascending price |
| Flights.SortByPricePermutes | tools/flight_tools.py:282 | the sort returns a permutation of its input |
| Flights.SortByPriceMember | tools/flight_tools.py:282 | every sorted flight comes from the input |
| Flights.SortFlightsByPrice | tools/flight_tools.py:281-282 | the sort step returns a price-ordered permutation of the flights |
| Flights.MockFlights | tools/flight_tools.py:237-279 | one flight per draw |
| Flights.MockFlightsAt | tools/flight_tools.py:237-279 | flight k is the one built from draw k |
| Flights.MockFlightsPrefix | tools/flight_tools.py:237-279 | one more round of the loop appends the next draw's flight |
| Flights.DrawMockFlights | tools/flight_tools.py:221-279 | the generating loop yields the flights of the draws in draw order |
| Flights.GenerateMockFlights | tools/flight_tools.py:219-283 | generation fails exactly when the origin has no word; otherwise it yields four flights, sorted by price, that are a permutation of the drawn ones |
| Flights.MockFlightsWithinBudget | tools/flight_tools.py:240-249 | after the sort every flight still obeys the floor and the budget rule |
| Flights.FirstMin | tools/flight_tools.py:328-332 | Python's `min` with a key: the first index holding the smallest key |
| Flights.FirstMax | tools/flight_tools.py:329 | Python's `max` with a key: the first index holding the largest key |
| Flights.Prices | tools/flight_tools.py:328 | the price of each flight, in order |
| Flights.Ratings | tools/flight_tools.py:329 | the rating of each flight, in order |
| Flights.Durations | tools/flight_tools.py:332 | the parsed duration of each flight, in order |
| Flights.FlightRecommendations | tools/flight_tools.py:322-339 | no flights gives "No flights available"; otherwise the three picks come from the list and are the cheapest, the best rated and the quickest of all flights |
| Flights.CheapestOfSortedIsFirst | tools/flight_tools.py:328 | on a price-sorted list the cheapest pick is the first flight |
| Flights.ValidResults | tools/flight_tools.py:76-79 | every kept web result is valid, and there are no more kept than parsed |
| Flights.SearchRealFlights | tools/flight_tools.py:69-85 | a failed search yields no flights; otherwise the first four valid results, in order |
| Flights.WebFlights | tools/flight_tools.py:69-85 | the usable web results number at most four and are all valid |
| Flights.SortedMockFlights | tools/flight_tools.py:27-31 | the fallback mock list has one flight per draw and is sorted by price |
| Flights.MaxPrice | tools/flight_tools.py:38 | the largest price of a non-empty list, attained by one of its flights |
| Flights.SearchFlights | tools/flight_tools.py:18-67 | the search raises (the mock generator's IndexError, re-raised by the handler) exactly when fewer than two web results survive and the origin has no word; with two or more web results they are the flights returned, otherwise the price-sorted mock list is; a success carries status "success", the matching count, two to four flights and their recommendations |
| Search.Slug | tools/search_tool.py:261 | the URL slug has the length of the name it is made from |
| Search.CategorizeAttraction | tools/search_tool.py:371-390 | the category is one of the seven listed ones or "General" |
| Search.CategorizeAttractionIsFirstMatch | tools/search_tool.py:371-390 | category i is chosen exactly when row i has a keyword in the lower-cased description and no earlier row has; "General" exactly when no row has |
| Search.PartyPlaceIsCultural | tools/search_tool.py:377-378 | matching is by substring: "party hub" contains "art" and is filed as Cultural |
| Search.BeachBeforeFort | tools/search_tool.py:375-386 | earlier rows win: "beach by the fort" is a Beach, not Historical |
| Search.SliceOfSlice | tools/search_tool.py:332-334 | a slice of a slice is a slice of the original |
| Search.CleanStepFacts | tools/search_tool.py:334 | one round keeps a slice of its input, with no occurrence of the removal string and no whitespace at either end |
| Search.StripSliceFacts | tools/search_tool.py:334 | stripping keeps a slice and introduces no occurrence of the removal string |
| Search.CleanWithFacts | tools/search_tool.py:329-335 | the cleaned name is a slice of the title, contains none of the removal strings, and is stripped |
| Search.CleanWithPrefix | tools/search_tool.py:333-334 | one more round of the loop applies the next removal string to the result so far |
| Search.CleanAttractionName | tools/search_tool.py:329-335 | the cleaning loop returns a stripped slice of the title free of every removal string |
| Search.IsValidHotelChecks | tools/search_tool.py:201-212 | a name shorter than 3 characters, a nightly price outside 10..1000 or an empty description each reject the hotel, and a hotel passing all three checks is accepted |
| Search.DestinationPrices | tools/search_tool.py:125-154 | every price band of every destination is non-empty and inside the 10..1000 validity window |
| Search.HotelCategory | tools/search_tool.py:156-170 | luxury exactly when the name has a luxury indicator or a truthy budget exceeds 150; budget exactly when not luxury and the name has a budget indicator or a truthy budget is below 50; mid-range otherwise |
| Search.ZeroBudgetIsNoBudget | tools/search_tool.py:162-165 | a budget of 0.0 is falsy and categorises exactly like no budget; a negative budget counts as a small one |
| Search.HotelCategoryMonotone | tools/search_tool.py:156-170 | among non-zero budgets a larger budget never gives a lower category |
| Search.RealisticPricing | tools/search_tool.py:122-177 | the price lies in the band of the chosen category for the destination, hence in [10, 1000] |
| Search.RealisticPricingCoversBand | tools/search_tool.py:172 | every price of the band is the outcome of some draw |
| Search.HotelAmenities | tools/search_tool.py:179-189 | the two base amenities come first, then the category's own: 5, 7 or 10 entries in all |
| Search.HotelDescription | tools/search_tool.py:191-199 | the description is never empty and names the destination |
| Search.ParsedHotel | tools/search_tool.py:55-97 | a hit yields a hotel exactly when its title has no skip indicator and the extracted name has at least three characters; such a hotel carries that name and passes the validity check |
| Search.DestinationHotels | tools/search_tool.py:216-246 | every template name has at least three characters |
| Search.DestinationHotelsNamed | tools/search_tool.py:216-243 | no template list repeats a name |
| Search.TemplateHotel | tools/search_tool.py:250-266 | a template record carries the template's name and passes the validity check |
| Search.TemplateHotels | tools/search_tool.py:248-269 | one record per template |
| Search.TemplateHotelsFacts | tools/search_tool.py:248-269 | record i carries template i's name and is valid |
| Search.UsedTemplates | tools/search_tool.py:245-249 | at most six templates are used |
| Search.UsedTemplatesNamed | tools/search_tool.py:245-249 | every used template name has at least three characters |
| Search.TemplateHotelsPrefix | tools/search_tool.py:249-267 | one more round of the loop appends the next template's record |
| Search.GenerateDestinationSpecificHotels | tools/search_tool.py:214-269 | one valid record per used template (at most six), in order and under the template's name, so the names are pairwise distinct |
| Search.BuildTemplateHotels | tools/search_tool.py:248-269 | the generating loop yields the template records in order, each named after its template and valid |
| Search.TemplateNamesDistinct | tools/search_tool.py:245-249 | the used templates have pairwise-distinct names |
| Search.NovotelGoaIsPricedAsLuxury | tools/search_tool.py:221-250 | the template type is never read: "Novotel Goa Resort" is listed mid-range but priced as luxury because of "resort" |
| Search.Names | tools/search_tool.py:37 | one name per hotel |
| Search.NamesAppend | tools/search_tool.py:37-38 | appending a hotel appends its name |
| Search.ParsedHotels | tools/search_tool.py:33-34 | one parse outcome per hit |
| Search.Collect | tools/search_tool.py:29-42 | the kept hotels have pairwise-distinct names, are valid and were found, and every valid hotel found is represented by its name |
| Search.ParsedHotelsStep | tools/search_tool.py:33-34 | the outcomes of one more hit extend the outcomes so far |
| Search.CollectStep | tools/search_tool.py:35-38 | one more outcome is kept exactly when it is a valid hotel whose name is not yet kept |
| Search.CollectHotels | tools/search_tool.py:29-38 | the loop keeps exactly what `Collect` keeps from the parsed hits: valid hotels, in order, each name once |
| Search.SearchHotels | tools/search_tool.py:15-53 | with three or more distinct valid hotels the first six of them, otherwise the template hotels; either way at most six valid hotels with pairwise-distinct names |
| Search.ShortDescription | tools/search_tool.py:315 | at most 203 characters; a short description is kept, a long one keeps its first 200 and gains "..." |
| Search.ParsedAttraction | tools/search_tool.py:298-327 | a hit yields an attraction exactly when its title has no skip indicator and its cleaned name has at least three characters; the description is cut to at most 203 characters |
| Search.AttractionDatabase | tools/search_tool.py:339-358 | at most six database entries per destination |
| Search.DatabaseAttraction | tools/search_tool.py:360-367 | a completed entry keeps its name and category and is marked as coming from the database |
| Search.DestinationAttractions | tools/search_tool.py:337-369 | one record per database entry of the lower-cased destination, in order and under the entry's name |
| Search.AttractionNames | tools/search_tool.py:289 | one name per attraction |
| Search.AttractionNamesAppend | tools/search_tool.py:289-290 | appending an attraction appends its name |
| Search.ParsedAttractions | tools/search_tool.py:280-281 | one parse outcome per hit |
| Search.Unique | tools/search_tool.py:279-283 | the kept records are pairwise different, were found, and every parsed record is kept |
| Search.TopUp | tools/search_tool.py:286-290 | the list keeps its prefix, gains only database records whose names were absent, and afterwards holds every database name |
| Search.ParsedAttractionsStep | tools/search_tool.py:280-281 | the outcomes of one more hit extend the outcomes so far |
| Search.UniqueStep | tools/search_tool.py:282-283 | one more outcome is kept exactly when it is a record not yet kept |
| Search.CollectAttractions | tools/search_tool.py:279-283 | the first loop yields the distinct parsed records in order |
| Search.AddDefaults | tools/search_tool.py:287-290 | the top-up loop yields the top-up of the found records by the database records |
| Search.SearchAttractions | tools/search_tool.py:271-296 | a failed search gives the database records; otherwise the distinct parsed records, topped up from the database only when fewer than four, capped at eight |
| ItineraryChain.FirstNonText | chains/itinerary_chain.py:59 | the index of the first preference that is not a string: every earlier entry is a string |
| ItineraryChain.Texts | chains/itinerary_chain.py:59 | one text per preference |
| ItineraryChain.JoinPreferences | chains/itinerary_chain.py:59 | the join raises exactly when some preference is not a string, and its message then starts with the `TypeError` wording |
| ItineraryChain.LineAlternative | chains/itinerary_chain.py:215-219 | a reply line is dropped exactly when it is blank or starts with "Alternative"; a kept line is a tail of the stripped line |
| ItineraryChain.LineAlternatives | chains/itinerary_chain.py:215-219 | no more suggestions than lines |
| ItineraryChain.NonEmpty | chains/itinerary_chain.py:221 | the filter keeps only non-empty entries of its input |
| ItineraryChain.ParseAlternatives | chains/itinerary_chain.py:214-221 | the parser returns at most three non-empty suggestions |
| ItineraryChain.LineAlternativesFromLines | chains/itinerary_chain.py:215-219 | every suggestion is the tail of some stripped line |
| ItineraryChain.AlternativesComeFromReply | chains/itinerary_chain.py:214-221 | nothing is invented: every suggestion is the tail of one stripped line of the reply |
| ItineraryChain.NumberedLineAlternative | chains/itinerary_chain.py:216 | a line "n. a" at position n loses exactly its number |
| ItineraryChain.SplitThreeLines | chains/itinerary_chain.py:217 | three lines without breaks, joined by breaks, split back into themselves |
| ItineraryChain.ThreeAlternatives | chains/itinerary_chain.py:215-221 | three kept lines give exactly their three suggestions |
| ItineraryChain.NumberedReplyRoundTrip | chains/itinerary_chain.py:214-221 | a reply "1. a", "2. b", "3. c" parses back into [a, b, c] |
| ItineraryChain.PlainLineAlternative | chains/itinerary_chain.py:215-218 | a clean line at position n that starts neither with "Alternative" nor with "n." is kept whole |
| ItineraryChain.CapitalAIsKept | chains/itinerary_chain.py:218 | only the word "Alternative" at the head drops a line: "Add a day in Goa" is kept whole |
| ItineraryChain.TwoAlternatives | chains/itinerary_chain.py:215-221 | two kept lines give exactly their two suggestions |
| ItineraryChain.PreambleKeepsNumbers | chains/itinerary_chain.py:215-219 | a preamble line shifts the positions, so the following item keeps its number and the preamble becomes a suggestion |
| ItineraryChain.PreambleLineKept | chains/itinerary_chain.py:215-218 | a clean preamble at position 1 starting with neither "A" nor "1" is kept whole |
| ItineraryChain.ShiftedItemKept | chains/itinerary_chain.py:215-218 | an item "1. a" at position 2 does not match "2." and keeps its number |
| ItineraryChain.FallbackAlternatives | chains/itinerary_chain.py:223-229 | three fixed suggestions; the first two name the destination, the third is the constant "nearby destinations" text |
| ItineraryChain.GenerateAlternativeSuggestions | chains/itinerary_chain.py:188-232 | a preference list that cannot be joined gives the single error suggestion; a failed model call gives the three fixed ones; a reply is parsed; so one to three suggestions, or none when every reply line is dropped |
| ItineraryChain.HotelsOf | chains/itinerary_chain.py:27 | an absent hotel list reads as empty |
| ItineraryChain.AttractionsOf | chains/itinerary_chain.py:28 | an absent attraction list reads as empty |
| ItineraryChain.FlightsOf | chains/itinerary_chain.py:29 | an absent flight list reads as empty |
| ItineraryChain.DailyForecastsOf | chains/itinerary_chain.py:23-25 | without a weather bundle there are no forecast days |
| ItineraryChain.HotelPromptLines | chains/itinerary_chain.py:32-35 | one "- " line per hotel shown |
| ItineraryChain.AttractionPromptLines | chains/itinerary_chain.py:37-40 | one "- " line per attraction shown |
| ItineraryChain.FlightPromptLines | chains/itinerary_chain.py:42-45 | one "- " line per flight shown |
| ItineraryChain.Section | chains/itinerary_chain.py:32-45 | a section is its placeholder exactly when it has no lines |
| ItineraryChain.HotelSection | chains/itinerary_chain.py:32-35 | the hotel section is the placeholder exactly when there are no hotels |
| ItineraryChain.AttractionSection | chains/itinerary_chain.py:37-40 | the attraction section is the placeholder exactly when there are no attractions |
| ItineraryChain.FlightSection | chains/itinerary_chain.py:42-45 | the flight section is the placeholder exactly when there are no flights |
| ItineraryChain.DailyPromptLinesStep | chains/itinerary_chain.py:51-52 | one more forecast day appends its line |
| ItineraryChain.BuildDailyWeatherInfo | chains/itinerary_chain.py:48-52 | the loop builds the day-by-day weather section, which is empty exactly when there are no forecast days |
| ItineraryChain.BuildPromptContext | chains/itinerary_chain.py:21-86 | the prompt carries the destination and analysis with their defaults, the day-by-day section, the three list sections and the caller's preferences, travel type and duration |
| ItineraryChain.DayPlans | chains/itinerary_chain.py:154-169 | one plan per trip day |
| ItineraryChain.DayPlansStep | chains/itinerary_chain.py:154-169 | the plans of one more day append that day's plan |
| ItineraryChain.DayPlanAt | chains/itinerary_chain.py:154-169 | position k holds the plan of day k + 1 |
| ItineraryChain.DayPlansInOrder | chains/itinerary_chain.py:154-169 | day k + 1 shows forecast k's description and advice when there is one ("Unknown" and "Check weather updates" otherwise) and attraction (k + 1) mod the count, or "local landmarks" |
| ItineraryChain.EveryAttractionVisited | chains/itinerary_chain.py:164 | a trip at least as long as the attraction list visits every listed attraction |
| ItineraryChain.FirstDaySkipsFirstAttraction | chains/itinerary_chain.py:164 | with two or more attractions, day 1 is sent to the second one |
| ItineraryChain.DayBlockParts | chains/itinerary_chain.py:158-169 | a day block carries its "DAY d:" heading and the morning line |
| ItineraryChain.DayTexts | chains/itinerary_chain.py:154-169 | one block per plan |
| ItineraryChain.DayBlocksStep | chains/itinerary_chain.py:158 | one more plan appends its block |
| ItineraryChain.DayBlocksContain | chains/itinerary_chain.py:154-169 | each plan's block is part of the day blocks |
| ItineraryChain.TemplateHotelNames | chains/itinerary_chain.py:123 | the template names at most two hotels |
| ItineraryChain.TemplateAttractionNames | chains/itinerary_chain.py:124 | the template names at most five attractions |
| ItineraryChain.TripDays | chains/itinerary_chain.py:154 | `range(1, duration + 1)` covers the duration's days, none for a non-positive duration |
| ItineraryChain.BlocksHaveHeadings | chains/itinerary_chain.py:158-159 | the day blocks contain each plan's heading |
| ItineraryChain.DayHeadingInDays | chains/itinerary_chain.py:154-159 | the day blocks contain "DAY d:" for every d from 1 to n |
| ItineraryChain.FallbackHasEveryDay | chains/itinerary_chain.py:117-186 | the template itinerary names every day of the trip |
| ItineraryChain.ForecastLinesStep | chains/itinerary_chain.py:143-144 | one more forecast day appends its line |
| ItineraryChain.AppendForecast | chains/itinerary_chain.py:140-145 | the forecast loop appends the heading, one line per day and a blank line, nothing without forecasts |
| ItineraryChain.ForecastBlockAfter | chains/itinerary_chain.py:141-145 | the heading, the lines and the closing blank line make up the forecast block |
| ItineraryChain.AppendDayStep | chains/itinerary_chain.py:154-169 | one more round of the day loop appends that day's block |
| ItineraryChain.AppendDays | chains/itinerary_chain.py:153-169 | the day loop appends the blocks of days 1 to the duration |
| ItineraryChain.GenerateFallbackItinerary | chains/itinerary_chain.py:117-186 | the imperative template builder yields the template itinerary of its inputs |
| ItineraryChain.ItineraryOutcome | chains/itinerary_chain.py:15-115 | a preference list that cannot be joined gives "Error generating itinerary: " and the message; a model reply is returned unchanged |
| ItineraryChain.GenerateItinerary | chains/itinerary_chain.py:15-115 | the imperative chain returns the itinerary outcome of its inputs and the model's reply |
| ItineraryChain.FailedCallGivesTemplate | chains/itinerary_chain.py:101-112 | a failed model call yields the template built from the same destination, analysis, forecasts and lists the prompt was built from |
| ItineraryChain.FailedCallNamesEveryDay | chains/itinerary_chain.py:101-112 | a failed model call still yields an itinerary naming every day of the trip |
| ItineraryChain.PlannerKeysReachNoLists | chains/itinerary_chain.py:22-29 | a payload with only the planner's keys ("hotels", "attractions", "flights") yields empty lists, the three placeholders and no day-by-day weather |
| Helpers.Problems | utils/helpers.py:102-112 | one flag per check, four in all |
| Helpers.Selected | utils/helpers.py:100-112 | only the listed messages are selected, at most one each |
| Helpers.SelectedHas | utils/helpers.py:100-112 | with distinct messages, a message is selected exactly when its flag is set |
| Helpers.SelectedEmpty | utils/helpers.py:114-117 | nothing is selected exactly when no flag is set |
| Helpers.SelectedSnoc | utils/helpers.py:100-112 | one more check appends its message at the end exactly when it fails |
| Helpers.ExpectedErrorsInOrder | utils/helpers.py:100-112 | the expected errors are the failing checks' messages in the order destination, dates, duration, budget |
| Helpers.ValidateUserInput | utils/helpers.py:98-117 | the validator reports exactly the expected errors and accepts exactly when there are none |
| Helpers.ValidationMeaning | utils/helpers.py:98-117 | each message is reported exactly when its field fails; the input is accepted exactly when destination and dates are given, the duration is at least 1 and the budget at least 50 |
| Helpers.Title | utils/helpers.py:54-64 | title-casing keeps the length and every non-letter, upper-cases a letter that starts a word and lower-cases one that continues a word |
| Helpers.TitleKeepsLetters | utils/helpers.py:54-64 | title-casing changes only the case: lower-cased, the two texts are equal |
| Helpers.TitleIdempotent | utils/helpers.py:54-64 | title-casing twice changes nothing more |
| Helpers.PriceRangeTitles | utils/helpers.py:64 | the hotel categories are shown as "Budget", "Mid-Range" and "Luxury" |
| Helpers.Header | utils/helpers.py:10-21 | the opening block shows the destination ("Unknown" when absent) after its label, the duration and travel type ("Leisure" when absent), and the itinerary text under the "ITINERARY:" heading |
| Helpers.CleanAnalysis | utils/helpers.py:41 | the cleaned analysis never contains the "Weather viability score:" marker |
| Helpers.CleanWithoutMarker | utils/helpers.py:41 | an analysis without the marker is only stripped |
| Helpers.MarkerColonLast | utils/helpers.py:41 | the marker's only colon is its last character |
| Helpers.NoEarlierMarker | utils/helpers.py:41 | no marker can start inside a marker-free text and end inside the marker after it |
| Helpers.CleanCutsAtMarker | utils/helpers.py:41 | everything from the first marker on is cut off and the rest stripped |
| Helpers.DisplayedScoreIsCanonical | utils/helpers.py:26-36 | the display shows the same score and explanation as the viability check and the consistent weather scorer |
| Helpers.DailyTexts | utils/helpers.py:53-54 | one line per forecast day |
| Helpers.DailyTextsStep | utils/helpers.py:53-54 | one more forecast day appends its line |
| Helpers.DailySection | utils/helpers.py:50-54 | the day-by-day list is absent exactly when the extended analysis or its daily forecasts are |
| Helpers.WeatherSection | utils/helpers.py:24-54 | the weather part is absent exactly when no weather bundle, or the error bundle, was passed |
| Helpers.AmenityLine | utils/helpers.py:66-69 | the amenity line is absent exactly when the hotel has no amenities |
| Helpers.AmenityLineShowsFirstThree | utils/helpers.py:66-69 | each of the first three amenities is shown |
| Helpers.HotelTexts | utils/helpers.py:60-71 | one entry per hotel shown |
| Helpers.HotelTextsStep | utils/helpers.py:60-71 | one more hotel appends its numbered entry |
| Helpers.HotelSection | utils/helpers.py:56-71 | the hotel part is absent exactly when there are no hotels |
| Helpers.HotelsShown | utils/helpers.py:56-71 | each of the first four hotels appears under its number, with its first three amenities |
| Helpers.LayoverSuffix | utils/helpers.py:82-85 | nothing for a direct flight; otherwise the stop count, with a plural "s" exactly for more than one stop |
| Helpers.FlightTexts | utils/helpers.py:77-87 | one entry per flight shown |
| Helpers.FlightTextsPrefix | utils/helpers.py:77-87 | the entries of one more flight append its numbered entry |
| Helpers.FlightTextsStep | utils/helpers.py:77-87 | one more flight appends its numbered entry to the text |
| Helpers.FlightSection | utils/helpers.py:73-87 | the flight part is absent exactly when there are no flights |
| Helpers.FlightsShown | utils/helpers.py:73-87 | each of the first three flights appears under its number with its airline and price |
| Helpers.AlternativeTexts | utils/helpers.py:93-94 | one line per suggestion |
| Helpers.AlternativeTextsStep | utils/helpers.py:93-94 | one more suggestion appends its numbered line |
| Helpers.AlternativeSection | utils/helpers.py:89-94 | the suggestion part is absent exactly when there are no suggestions |
| Helpers.AlternativesShown | utils/helpers.py:89-94 | no suggestion is dropped: each appears under its own number |
| Helpers.DisplayText | utils/helpers.py:5-96 | the display is "No itinerary generated." exactly when there is no itinerary |
| Helpers.DisplayContainsSections | utils/helpers.py:5-96 | the weather, hotel, flight and suggestion parts all occur in the display |
| Helpers.DisplayShowsCanonicalScore | utils/helpers.py:26-48 | with a weather bundle, the display states the canonical trip score and its explanation |
| Helpers.DisplayShowsItinerary | utils/helpers.py:7-21 | a display with an itinerary contains the itinerary text under its heading and the destination after its label |
| Helpers.AppendDaily | utils/helpers.py:53-54 | the day loop appends the day lines |
| Helpers.AppendHotels | utils/helpers.py:60-71 | the hotel loop appends the hotel entries |
| Helpers.AppendFlights | utils/helpers.py:77-87 | the flight loop appends the flight entries |
| Helpers.AppendAlternatives | utils/helpers.py:93-94 | the suggestion loop appends the numbered suggestions |
| Helpers.AppendWeather | utils/helpers.py:24-54 | the weather step appends the weather part |
| Helpers.AppendHotelSection | utils/helpers.py:56-71 | the hotel step appends the hotel part |
| Helpers.AppendFlightSection | utils/helpers.py:73-87 | the flight step appends the flight part |
| Helpers.AppendAlternativeSection | utils/helpers.py:89-94 | the suggestion step appends the suggestion part |
| Helpers.FormatItineraryDisplay | utils/helpers.py:5-96 | the step-by-step formatter returns the display text of the plan |
| Planner.MissingFlags | agents/trip_planner.py:118-122 | one truthiness flag per required field, four in all |
| Planner.MissingFieldsMeaning | agents/trip_planner.py:118-122 | each of destination, travel_dates, duration and budget is reported missing exactly when it is absent or falsy, and nothing is reported exactly when all four are present and truthy |
| Planner.CollectStep | agents/trip_planner.py:110-144 | with a field missing, input is required, the missing list is exactly those fields and one "Need information" message naming them is logged; with none missing, input is no longer required and the step moves to data collection; no request field and no error changes |
| Planner.GatherStep | agents/trip_planner.py:146-190 | the collection is asked with the default origin "New York"; on a collected bundle the forecast, analysis, hotels, attractions, flights and search hits are stored, the viability is recomputed from the stored forecast, the step becomes weather analysis and a success note is logged; on a failed collection only the error and the error-handling step are stored, every gathered field is kept, and the error is logged |
| Planner.AnalyzeStep | agents/trip_planner.py:192-225 | the score note is appended to the analysis; a viable verdict goes on to the accommodation search, an unviable one stores the three fixed weather alternatives |
| Planner.AccommodationsStep | agents/trip_planner.py:227-245 | the kept hotels are a prefix of the found ones, at most three of them, and their count is logged |
| Planner.FlightLookupStep | agents/trip_planner.py:247-258 | the flight and hotel lists are unchanged and the flight count is logged |
| Planner.Quality | agents/trip_planner.py:427-446 | 0 exactly for an empty text, otherwise between 50 and 100; a non-empty text reaches 70 exactly when it is longer than 500 characters or has a structure marker, and scores 100 exactly when it has all three bonuses |
| Planner.Payload | agents/trip_planner.py:266-272 | the dictionary handed to the chain has only the destination, weather analysis, hotels, attractions and flights keys |
| Planner.GenerateStep | agents/trip_planner.py:260-289 | the node stores the chain's text for the state (the template when the call fails) and its quality score, moves to finalization, and changes neither the request fields, the error nor the weather fields |
| Planner.WithItinerary | agents/trip_planner.py:278-289 | the itinerary is stored with its quality score, and the recommendation note quotes that score |
| Planner.AlternativesStep | agents/trip_planner.py:299-325 | the suggestions are those the alternatives chain gives for the destination with the stored error (or the default issue) as the problem, and the run moves to finalization |
| Planner.FinalizeStep | agents/trip_planner.py:327-348 | the completed record gathers the itinerary, suggestions, score (0 when never scored), analysis, hotels and flights; input is not required and the run stops continuing |
| Planner.FeedbackAction | agents/trip_planner.py:350-366 | weather words name a weather recheck; otherwise stay words name a new search; otherwise the itinerary is regenerated |
| Planner.FeedbackStep | agents/trip_planner.py:350-371 | the current step becomes the action named for the lower-cased feedback |
| Planner.ApplyNode | agents/trip_planner.py:110-371 | no node changes a request field, and only data collection changes the stored error |
| Planner.DecideAfterInput | agents/trip_planner.py:374-380 | "error" exactly when an error message is stored; "complete" exactly when there is none and `requires_input` is false; "incomplete" exactly when there is none and `requires_input` is true or absent |
| Planner.DecideAfterData | agents/trip_planner.py:382-388 | "error" exactly when an error message is stored; "weather_check" exactly when there is none and a non-error forecast bundle is stored; "direct_planning" exactly when there is none and the bundle is absent or the error bundle |
| Planner.DecideAfterWeather | agents/trip_planner.py:390-397 | "favorable" exactly when the stored verdict is viable; "unfavorable" exactly when it is not and the score (default 0) is below 30; "conditional" exactly when it is not and the score is at least 30 |
| Planner.DecideAfterItinerary | agents/trip_planner.py:399-405 | "error" exactly when an error message is stored; "success" exactly when there is none and a quality score of at least 70 is stored; "needs_improvement" exactly when there is none and the score is absent or below 70 |
| Planner.DecideAfterFinalization | agents/trip_planner.py:407-410 | the finalized plan is never sent back for revision or rejected |
| Planner.DecideAfterFeedback | agents/trip_planner.py:412-420 | "weather_recheck" exactly when the lower-cased feedback has "weather" or "rain"; "new_search" exactly when it has neither but has "hotel" or "flight"; "regenerate" exactly when it has none of the four |
| Planner.Successor | agents/trip_planner.py:43-106 | no edge leads to `handle_feedback`; `END` follows exactly finalization and `END` itself; only the input step loops to itself; only itinerary generation and the alternatives lead to finalization; with an error stored, the input, data and itinerary steps all lead to the alternatives |
| Planner.FeedbackUnreachable | agents/trip_planner.py:43-106 | no edge leads to `handle_feedback` |
| Planner.CollectRoutes | agents/trip_planner.py:374-380 | after the input step the run moves to data collection exactly when no error is stored and no field is missing, and stays in the input step exactly when a field is missing and no error is stored |
| Planner.GatherRoutes | agents/trip_planner.py:146-190 | after data collection the run goes to the alternatives exactly when the collection failed or an error was stored before; to the weather analysis exactly when it succeeded with no stored error and a forecast bundle; to the flight search exactly when it succeeded with no stored error and the error bundle |
| Planner.WeatherRouteBands | agents/trip_planner.py:390-397 | with the viability computed from a forecast, the route is favorable from score 40 up, unfavorable below 30 and conditional in between; the error bundle is unfavorable |
| Planner.FeedbackReadersDisagree | agents/trip_planner.py:350-420 | the feedback "storm" makes the feedback node name a weather recheck while the router regenerates |
| Planner.RunFrom | agents/trip_planner.py:24-106 | a run visits at most `fuel` nodes, and a finished run either started at `END` or visited its start node |
| Planner.Unfold | agents/trip_planner.py:24-106 | one engine step: visit the node, merge its patch and run on from the successor |
| Planner.Halted | agents/trip_planner.py:24-106 | with no budget left, or at `END`, nothing more is visited |
| Planner.Extend | agents/trip_planner.py:24-106 | prepending a visit other than finalization and feedback keeps a run done with one more visit allowed |
| Planner.BranchEdges | agents/trip_planner.py:53-84 | where data collection, weather analysis and itinerary generation can lead |
| Planner.FromFinalize | agents/trip_planner.py:86-94 | from finalization the run ends within one visit |
| Planner.FromAlternatives | agents/trip_planner.py:106 | from the alternatives the run ends within two visits |
| Planner.FromGenerate | agents/trip_planner.py:76-84 | from itinerary generation the run ends within three visits |
| Planner.FromFlightLookup | agents/trip_planner.py:74 | from the flight search the run ends within four visits |
| Planner.FromAccommodations | agents/trip_planner.py:73 | from the accommodation search the run ends within five visits |
| Planner.FromAnalyze | agents/trip_planner.py:63-71 | from weather analysis the run ends within six visits |
| Planner.FromGather | agents/trip_planner.py:53-61 | from data collection the run ends within seven visits |
| Planner.CompleteRunFinishes | agents/trip_planner.py:40-106 | once the input step lets the run through, it reaches `END` within 8 visits, finalizes exactly once and never handles feedback |
| Planner.IncompleteRunLoops | agents/trip_planner.py:110-144 | with a field missing and no stored error, the input step routes back to itself and the run never reaches `END`, whatever the budget |
| Planner.LastVisitFinalizes | agents/trip_planner.py:327-348 | a run that reached `END` ends in the completed record, marked completed and no longer continuing |
| Planner.VisitsAssoc | agents/trip_planner.py:24-106 | regrouping the visit list around one node leaves it unchanged |
| Planner.StepsAreNodes | agents/trip_planner.py:26-38 | the graph's input and finalization nodes are the modelled steps |
| Planner.Initial | agents/trip_planner.py:451-460 | the defaults leave no error, no missing list and `should_continue` set, and the request's fields override them |
| Planner.PlanOutcome | agents/trip_planner.py:448-478 | the plan succeeds exactly when the run reaches `END` within the budget; otherwise the error record carries the engine's message, the fixed advice and one logged error |
| Planner.PlanTripOutcome | agents/trip_planner.py:448-478 | a request with all four required fields is planned to completion with the completed record once 8 visits are allowed; a request missing one always ends in the error record |
| Planner.PlanIgnoresOrigin | agents/trip_planner.py:150-157 | two requests differing only in their origin are planned alike, because the state schema has no origin key and the collection always uses "New York" |
| Planner.ValidatedRequestIsComplete | agents/trip_planner.py:118-122 | a request that passes `validate_user_input` has no missing field |
| Planner.TemplateQuality | agents/trip_planner.py:427-446 | the template itinerary without hotels or attractions scores at least 80, and 100 with at least one day |
| Planner.MentionsOfParts | agents/trip_planner.py:427-446 | a template whose front names a hotel earns the topic and length bonuses, and the structure bonus when its days have a morning line |
| Planner.DaysMentionMorning | chains/itinerary_chain.py:153-169 | every day block has a "Morning" line |
| Planner.TipsMentions | chains/itinerary_chain.py:171-184 | the closing tips name activities and restaurants and are longer than 500 characters |
| Planner.FrontMentionsHotel | chains/itinerary_chain.py:147-151 | without hotels the accommodations block still names a hotel |
| Planner.PlannerFallbackIsTemplate | agents/trip_planner.py:265-276 | on the planner's path a failed model call gives the bare template for the stored destination, duration, preferences, travel type and analysis |
| Planner.GateFromQuality | agents/trip_planner.py:399-405 | with no stored error, the stored text routes to finalization exactly when it scores at least 70, and to the alternatives exactly when it scores below 70 |
| Planner.PlannerFallbackPassesGate | agents/trip_planner.py:260-297 | that template scores at least 80, so the run goes on to finalization |
| Planner.TemplatePassesGate | agents/trip_planner.py:399-405 | the bare template scores at least 80 and passes the gate |
| Planner.TripPlannerAgent.constructor | agents/trip_planner.py:16-22 | the agent holds its collaborators and the compiled graph's node functions, and has not started |
| Planner.TripPlannerAgent.Step | agents/trip_planner.py:24-106 | the current node's patch is merged, the node is recorded as visited and the edge is followed |
| Planner.TripPlannerAgent.Run | agents/trip_planner.py:24-106 | the loop ends in the state, verdict and visits of the run function for the same budget |
| Planner.TripPlannerAgent.PlanTrip | agents/trip_planner.py:448-478 | the result is the plan outcome for the request, so it inherits the completion and failure properties above |

## Left out

- The OpenWeather HTTP calls (`get_weather_forecast`, `_get_current_weather`, `_get_5day_forecast`) are not modelled. Their replies, current conditions and forecast rows are inputs.
- The prose of `analyze_weather_conditions` is not modelled. The analysis text is an input. Only its "Weather viability score:" marker, which the display helper cuts at, is modelled.
- The DuckDuckGo searches, `search_travel_info` included, are not modelled. Their hits are inputs.
- The regular-expression scans are not modelled: the price patterns, `_extract_real_hotel_name` and `_extract_airline_from_text`. Their matches are inputs. The USD-before-INR order and the INR conversion applied to a match are modelled.
- The prose of `_parse_flight_search_result` and `_analyze_flight_options` is not modelled. Only the fields the rest of the program reads are.
- The language-model calls are parameters. The prompt is modelled as the structured context the chain builds, not as its wording.
- The LangGraph engine is modelled as a budget of node visits. Running out of that budget stands for the engine's recursion-limit error, whose text is a parameter of `plan_trip`.
- The random draws (`random.randint`, `random.choice`, `random.uniform`) are parameters. So is the date arithmetic of the extended forecast and the `strftime` names of its days.
- Python's `str(float)` is a `showReal` parameter. Integers are rendered exactly. The basic `viability_score` fallback is a Python `int` but is also rendered by `showReal`, so the display of that case does not drop the fractional part as Python does.
- The trip budget is a whole number of dollars: the value of the interface's budget slider (500 to 5000 in steps of 100, app.py:161), not the arbitrary `float` that agents/state.py:11 allows. Every budget comparison of the core gives the same answer on those values.
- Lower-casing and upper-casing cover ASCII letters only. Unicode case mapping is not modelled.
- Logging, the Streamlit interface (app.py), the settings module and the `messages` key of the state are not modelled. None of them takes part in a decision.
- `create_sample_itinerary` and `get_system_metrics` are not modelled. They are demonstration helpers that nothing on the planning path calls.
- Several `except` branches are not modelled because no input can reach them once the external calls are parameters. Among them is the error branch of `generate_itinerary` in the planner: the chain catches every failure itself.
- A key present with the value `None` is the same as an absent key in this model. So a `None` destination reads as the chain's "Unknown" default.
- Planner.AccommodationsStep: the budget check `_is_within_budget` accepts every hotel, and no hotel record carries an "error" key. The filter therefore keeps the first three hotels, and the model states exactly that.
- Planner.AnalyzeStep: no node writes `weather_score`, so the appended note always reads a score of 0.
- ItineraryChain.GenerateAlternativeSuggestions: the third fixed fallback suggestion does not mention the destination, because the code's string has no placeholder. The code is followed.
- Planner.FeedbackReadersDisagree: `handle_feedback` and the feedback router use different keyword lists. The lemma exhibits a feedback text that makes the two disagree. The node is unreachable, so the mismatch has no effect on a run.
- Planner.TripPlannerAgent.Step: the engine step applies the node function it is given. The imperative form of the itinerary node is modelled separately, by `ItineraryChain.GenerateItinerary`.
- Flights.ParseDuration: its own contract states only the fallback for text with no words. The parsed cases are stated by `Flights.ParseDurationRoundTrip`, `Flights.ParseDurationHoursOnly` and `Flights.ParseDurationOfParts`.
- ItineraryChain.ItineraryOutcome: its own contract leaves out the failed-call case. That case is stated by `ItineraryChain.FailedCallGivesTemplate`.
