/** The planning state machine of `TripPlannerAgent`: nine nodes, each a map from the shared
    state to a patch that is merged into it, the routing functions that pick the next node
    from the merged state, the itinerary quality score, and `plan_trip`, which runs the graph
    from `collect_user_input` and turns an engine failure into an error record.

    The graph engine is modelled as a step budget (`fuel`): a run that has not reached `END`
    when the budget is spent counts as the engine's recursion-limit error. The collaborators
    the nodes call (the travel-data collection and the two model calls) are parameters. */
module Planner {
  import opened Common
  import opened Weather
  import opened Search
  import opened Flights
  import opened TravelTools
  import opened ItineraryChain
  import Helpers

  // =================================================================================
  // State
  // =================================================================================

  datatype Node =
    | Collect | Gather | Analyze | Accommodations | FlightLookup | Generate | Alternatives
    | Finalize | Feedback | End

  /** One entry of `conversation_history`. */
  datatype Message = Message(role: string, content: string)

  /** `final_recommendation`: a one-line note, or the record `finalize_recommendation` builds. */
  datatype Recommendation =
    | Note(text: string)
    | Completed(itinerary: Option<string>, alternatives: seq<string>, qualityScore: int,
                weatherAnalysis: Option<string>, hotels: seq<Hotel>, flights: seq<Flight>)

  /** The keys of `TripPlannerState` the nodes read or write; `None` is an absent key. An
      absent `preferences`, `user_feedback` or `current_step` reads as its default (empty). */
  datatype PlannerState = PlannerState(
    destination: Option<string>,
    travelDates: Option<string>,
    duration: Option<int>,
    budget: Option<int>,
    preferences: seq<PrefItem>,
    travelType: Option<string>,
    userFeedback: string,
    currentStep: string,
    requiresInput: Option<bool>,
    history: seq<Message>,
    missingInformation: seq<string>,
    weatherData: Option<WeatherData>,
    weatherAnalysis: Option<string>,
    weatherViability: Option<Viability>,
    hotelOptions: seq<Hotel>,
    attractionOptions: seq<Attraction>,
    flightOptions: seq<Flight>,
    searchResults: seq<SearchHit>,
    itinerary: Option<string>,
    qualityScore: Option<int>,
    alternativeSuggestions: seq<string>,
    finalRecommendation: Option<Recommendation>,
    shouldContinue: bool,
    maxIterations: int,
    currentIteration: int,
    errorMessage: Option<string>,
    retryCount: int)

  /** The request fields of a state, which no node writes. */
  datatype Inputs = Inputs(
    destination: Option<string>, travelDates: Option<string>, duration: Option<int>, budget: Option<int>,
    preferences: seq<PrefItem>, travelType: Option<string>, userFeedback: string)

  function InputsOf(s: PlannerState): Inputs {
    Inputs(s.destination, s.travelDates, s.duration, s.budget, s.preferences, s.travelType, s.userFeedback)
  }

  /** The collaborators: the travel-data collection (destination, dates, budget, origin), the
      itinerary model call, the alternatives model call, and the rendering of floats. */
  datatype Env = Env(
    collect: (string, string, real, string) -> TravelData,
    itineraryLlm: PromptContext -> LlmReply,
    alternativesLlm: string -> LlmReply,
    showReal: real -> string)

  /** `conversation_history + [{"role": "system", "content": text}]` */
  function Logged(s: PlannerState, text: string): seq<Message> {
    s.history + [Message("system", text)]
  }

  /** `if state.get('error_message')`: present and not empty. */
  predicate ErrorSet(s: PlannerState) {
    s.errorMessage.Some? && s.errorMessage.value != ""
  }

  // =================================================================================
  // collect_user_input
  // =================================================================================

  const RequiredFields: seq<string> := ["destination", "travel_dates", "duration", "budget"]
  const NeedInformationLead: string := "Need information: "

  /** `not value` for a number: absent or zero. */
  predicate Falsy(o: Option<int>) {
    o.None? || o.value == 0
  }

  function MissingFlags(s: PlannerState): (r: seq<bool>)
    ensures |r| == 4
  {
    [Helpers.MissingText(s.destination), Helpers.MissingText(s.travelDates), Falsy(s.duration), Falsy(s.budget)]
  }

  /** The required fields that are absent or falsy, in the order they are checked. */
  function MissingFields(s: PlannerState): seq<string> {
    Helpers.Selected(MissingFlags(s), RequiredFields)
  }

  /** A required field is reported missing exactly when it is absent or falsy, and nothing is
      reported exactly when all four are present and truthy. */
  lemma MissingFieldsMeaning(s: PlannerState)
    ensures "destination" in MissingFields(s) <==> Helpers.MissingText(s.destination)
    ensures "travel_dates" in MissingFields(s) <==> Helpers.MissingText(s.travelDates)
    ensures "duration" in MissingFields(s) <==> Falsy(s.duration)
    ensures "budget" in MissingFields(s) <==> Falsy(s.budget)
    ensures MissingFields(s) == [] <==>
      !Helpers.MissingText(s.destination) && !Helpers.MissingText(s.travelDates) && !Falsy(s.duration) &&
      !Falsy(s.budget)
  {
    var f := MissingFlags(s);
    assert forall i, j :: 0 <= i < j < |RequiredFields| ==> RequiredFields[i] != RequiredFields[j];
    Helpers.SelectedHas(f, RequiredFields, 0);
    Helpers.SelectedHas(f, RequiredFields, 1);
    Helpers.SelectedHas(f, RequiredFields, 2);
    Helpers.SelectedHas(f, RequiredFields, 3);
    Helpers.SelectedEmpty(f, RequiredFields);
  }

  /** `collect_user_input`. With a field missing: input is required, the missing list is
      exactly those fields and one message naming them is logged. With none missing: input
      is no longer required, and the old missing list is cleared only when it was already
      empty (otherwise it is left as it was). */
  function CollectStep(s: PlannerState): (r: PlannerState)
    ensures InputsOf(r) == InputsOf(s) && r.errorMessage == s.errorMessage
    ensures r.requiresInput == Some(MissingFields(s) != [])
    ensures MissingFields(s) != [] ==>
      && r.missingInformation == MissingFields(s)
      && r.history == s.history + [Message("system", NeedInformationLead + Join(", ", MissingFields(s)))]
      && r.currentStep == "input_collection"
    ensures MissingFields(s) == [] ==>
      && r.missingInformation == s.missingInformation
      && r.history == s.history
      && r.currentStep == "data_collection"
  {
    var missing := MissingFields(s);
    if missing == [] && s.missingInformation == [] then
      s.(currentStep := "data_collection", requiresInput := Some(false), missingInformation := [])
    else if missing != [] then
      s.(currentStep := "input_collection", requiresInput := Some(true), missingInformation := missing,
         history := Logged(s, NeedInformationLead + Join(", ", missing)))
    else
      s.(currentStep := "data_collection", requiresInput := Some(false))
  }

  // =================================================================================
  // gather_travel_data
  // =================================================================================

  const DefaultBudget: int := 1000
  const DefaultOrigin: string := "New York"
  const CollectedNote: string := "Travel data collected successfully"
  const DataErrorLead: string := "Data collection error: "

  /** What `gather_travel_data` asks the collection for. The state schema declares no
      `origin_city` key, so the graph never carries one and the origin is always the default. */
  function Collection(s: PlannerState, env: Env): TravelData {
    env.collect(s.destination.GetOr(""), s.travelDates.GetOr(""), s.budget.GetOr(DefaultBudget) as real,
                DefaultOrigin)
  }

  /** `gather_travel_data`. On success the bundle's forecast, analysis and lists are stored, and
      the viability is recomputed from the stored forecast; on failure only the error is
      stored. Either way one message is logged. */
  function GatherStep(s: PlannerState, env: Env): (r: PlannerState)
    ensures InputsOf(r) == InputsOf(s)
    ensures var td := Collection(s, env);
      && (td.Collected? ==>
            && r.weatherData == Some(td.weatherData)
            && r.weatherViability == Some(CheckWeatherViability(td.weatherData))
            && r.weatherAnalysis == Some(td.weatherAnalysis)
            && r.hotelOptions == td.hotelOptions && r.flightOptions == td.flightOptions
            && r.attractionOptions == td.attractionOptions && r.searchResults == td.searchResults
            && r.errorMessage == s.errorMessage && r.currentStep == "weather_analysis"
            && r.history == s.history + [Message("system", CollectedNote)])
      && (td.CollectionFailed? ==>
            && r.errorMessage == Some(td.error) && r.currentStep == "error_handling"
            && r.weatherData == s.weatherData && r.weatherAnalysis == s.weatherAnalysis
            && r.weatherViability == s.weatherViability
            && r.hotelOptions == s.hotelOptions && r.attractionOptions == s.attractionOptions
            && r.flightOptions == s.flightOptions && r.searchResults == s.searchResults
            && r.history == s.history + [Message("system", DataErrorLead + td.error)])
  {
    match Collection(s, env)
    case Collected(weather, analysis, _, hotels, attractions, flights, hits, _) =>
      s.(weatherData := Some(weather), weatherAnalysis := Some(analysis),
         weatherViability := Some(CheckWeatherViability(weather)), hotelOptions := hotels,
         attractionOptions := attractions, flightOptions := flights, searchResults := hits,
         currentStep := "weather_analysis", history := Logged(s, CollectedNote))
    case CollectionFailed(error) =>
      s.(errorMessage := Some(error), currentStep := "error_handling",
         history := Logged(s, DataErrorLead + error))
  }

  // =================================================================================
  // analyze_weather
  // =================================================================================

  /** No node writes `weather_score`, so the appended score always reads its default 0. */
  const ScoreNote: string := "\nWeather Viability Score: 0/100"
  const FavorableNote: string := "Weather conditions favorable"
  const UnfavorableNote: string := "Weather conditions unfavorable, generating alternatives"
  const WeatherAlternatives: seq<string> :=
    ["Consider alternative dates", "Look for nearby destinations", "Plan indoor activities"]

  /** `viability.get('viable', False)` */
  predicate Viable(s: PlannerState) {
    s.weatherViability.Some? && s.weatherViability.value.viable
  }

  /** `analyze_weather`: the score note is appended to the analysis; an unviable verdict also
      stores the three fixed alternatives. */
  function AnalyzeStep(s: PlannerState): (r: PlannerState)
    ensures InputsOf(r) == InputsOf(s) && r.errorMessage == s.errorMessage
    ensures r.weatherViability == s.weatherViability
    ensures r.weatherAnalysis == Some(s.weatherAnalysis.GetOr("") + ScoreNote)
    ensures Viable(s) ==> r.alternativeSuggestions == s.alternativeSuggestions && r.currentStep == "accommodation_search"
    ensures !Viable(s) ==> r.alternativeSuggestions == WeatherAlternatives && r.currentStep == "alternative_planning"
  {
    var analysis := s.weatherAnalysis.GetOr("") + ScoreNote;
    if Viable(s) then
      s.(currentStep := "accommodation_search", weatherAnalysis := Some(analysis),
         history := Logged(s, FavorableNote))
    else
      s.(currentStep := "alternative_planning", weatherAnalysis := Some(analysis),
         alternativeSuggestions := WeatherAlternatives, history := Logged(s, UnfavorableNote))
  }

  // =================================================================================
  // search_accommodations and search_flights
  // =================================================================================

  const MaxKeptHotels: nat := 3

  /** `search_accommodations`: the budget check accepts every hotel and no hotel record
      carries an error, so the first three hotels are kept, in order. */
  function AccommodationsStep(s: PlannerState): (r: PlannerState)
    ensures InputsOf(r) == InputsOf(s) && r.errorMessage == s.errorMessage
    ensures r.hotelOptions <= s.hotelOptions
    ensures |r.hotelOptions| == if |s.hotelOptions| < MaxKeptHotels then |s.hotelOptions| else MaxKeptHotels
    ensures r.history == s.history +
      [Message("system", "Found " + IntToString(|r.hotelOptions|) + " accommodation options")]
  {
    var kept := Take(s.hotelOptions, MaxKeptHotels);
    s.(hotelOptions := kept, currentStep := "flight_search",
       history := Logged(s, "Found " + IntToString(|kept|) + " accommodation options"))
  }

  /** `search_flights`: the flight list is stored back unchanged and its size logged. */
  function FlightLookupStep(s: PlannerState): (r: PlannerState)
    ensures InputsOf(r) == InputsOf(s) && r.errorMessage == s.errorMessage
    ensures r.flightOptions == s.flightOptions && r.hotelOptions == s.hotelOptions
    ensures r.history == s.history + [Message("system", "Found " + IntToString(|s.flightOptions|) + " flight options")]
  {
    s.(currentStep := "itinerary_generation",
       history := Logged(s, "Found " + IntToString(|s.flightOptions|) + " flight options"))
  }

  // =================================================================================
  // Itinerary quality
  // =================================================================================

  const StructureMarkers: seq<string> := ["Day 1", "Day 2", "Morning", "Afternoon"]
  const TopicWords: seq<string> := ["hotel", "activities", "restaurant"]

  predicate AllIn(words: seq<string>, text: string) {
    forall k :: 0 <= k < |words| ==> Contains(text, words[k])
  }

  /** `_calculate_itinerary_quality`: 0 for an empty text; otherwise 50, plus 20 for more than
      500 characters, plus 20 for a structure marker, plus 10 when all three topic words
      occur. The gate of 70 is passed exactly by a long or structured text, and 100 needs
      all three bonuses. */
  function Quality(text: string): (q: int)
    ensures q == 0 <==> text == ""
    ensures q == 0 || 50 <= q <= 100
    ensures text != "" ==> (q >= 70 <==> |text| > 500 || AnyIn(StructureMarkers, text))
    ensures q == 100 <==> text != "" && |text| > 500 && AnyIn(StructureMarkers, text) && AllIn(TopicWords, text)
  {
    if text == "" then 0
    else
      var score := 50 + (if |text| > 500 then 20 else 0) + (if AnyIn(StructureMarkers, text) then 20 else 0) +
                   (if AllIn(TopicWords, text) then 10 else 0);
      if score < 100 then score else 100
  }

  // =================================================================================
  // generate_itinerary
  // =================================================================================

  const DefaultDuration: int := 3
  const DefaultTravelType: string := "leisure"
  const GeneratedNote: string := "Itinerary generated successfully"
  const QualityLead: string := "Trip plan generated with quality score: "

  /** The dictionary `generate_itinerary` hands to the chain. A destination that is absent is
      left out of it. */
  function Payload(s: PlannerState): (p: TravelPayload)
    ensures p.Keys <= {DestinationField, AnalysisKey, "hotels", "attractions", "flights"}
  {
    var lists := map[AnalysisKey := Text(s.weatherAnalysis.GetOr("")), "hotels" := HotelList(s.hotelOptions),
                     "attractions" := AttractionList(s.attractionOptions), "flights" := FlightList(s.flightOptions)];
    if s.destination.Some? then lists[DestinationField := Text(s.destination.value)] else lists
  }

  /** The chain's answer for this state. */
  function ItineraryFor(s: PlannerState, env: Env): string {
    ItineraryOutcome(Payload(s), s.duration.GetOr(DefaultDuration), s.preferences,
                     s.travelType.GetOr(DefaultTravelType), env.itineraryLlm, env.showReal)
  }

  /** The patch of `generate_itinerary` for a text the chain returned. */
  function WithItinerary(s: PlannerState, text: string): (r: PlannerState)
    ensures InputsOf(r) == InputsOf(s) && r.errorMessage == s.errorMessage
    ensures r.itinerary == Some(text) && r.qualityScore == Some(Quality(text))
    ensures r.finalRecommendation == Some(Note(QualityLead + IntToString(Quality(text)) + "/100"))
  {
    var q := Quality(text);
    s.(itinerary := Some(text), qualityScore := Some(q), currentStep := "finalization",
       finalRecommendation := Some(Note(QualityLead + IntToString(q) + "/100")),
       history := Logged(s, GeneratedNote))
  }

  /** `generate_itinerary`: the chain's text (the template when its call fails) is stored with
      its quality score; nothing else the routers read changes. */
  function GenerateStep(s: PlannerState, env: Env): (r: PlannerState)
    ensures InputsOf(r) == InputsOf(s) && r.errorMessage == s.errorMessage
    ensures r.weatherViability == s.weatherViability && r.weatherData == s.weatherData
    ensures r.itinerary == Some(ItineraryFor(s, env))
    ensures r.qualityScore == Some(Quality(ItineraryFor(s, env)))
    ensures r.currentStep == "finalization"
  {
    WithItinerary(s, ItineraryFor(s, env))
  }

  // =================================================================================
  // provide_alternatives, finalize_recommendation, handle_feedback
  // =================================================================================

  const DefaultIssue: string := "Planning constraints encountered"
  const AlternativesNote: string := "Alternative travel suggestions provided"

  /** `provide_alternatives`: the chain is asked with the stored error as the issue. */
  function AlternativesStep(s: PlannerState, env: Env): (r: PlannerState)
    ensures InputsOf(r) == InputsOf(s) && r.errorMessage == s.errorMessage
    ensures r.alternativeSuggestions ==
      GenerateAlternativeSuggestions(s.destination.GetOr(""), s.errorMessage.GetOr(DefaultIssue), s.preferences,
                                     env.alternativesLlm)
    ensures r.finalRecommendation == Some(Note(AlternativesNote)) && r.currentStep == "finalization"
  {
    var alternatives := GenerateAlternativeSuggestions(s.destination.GetOr(""), s.errorMessage.GetOr(DefaultIssue),
                                                       s.preferences, env.alternativesLlm);
    s.(alternativeSuggestions := alternatives, currentStep := "finalization",
       finalRecommendation := Some(Note(AlternativesNote)), history := Logged(s, "Generated alternative suggestions"))
  }

  /** `finalize_recommendation`: the completed record gathers the itinerary, suggestions,
      score (0 when never scored), analysis and lists, and the run is marked as done. */
  function FinalizeStep(s: PlannerState): (r: PlannerState)
    ensures InputsOf(r) == InputsOf(s) && r.errorMessage == s.errorMessage
    ensures r.finalRecommendation == Some(Completed(s.itinerary, s.alternativeSuggestions, s.qualityScore.GetOr(0),
                                                    s.weatherAnalysis, s.hotelOptions, s.flightOptions))
    ensures r.currentStep == "completed" && r.requiresInput == Some(false) && !r.shouldContinue
  {
    s.(currentStep := "completed", requiresInput := Some(false), shouldContinue := false,
       finalRecommendation := Some(Completed(s.itinerary, s.alternativeSuggestions, s.qualityScore.GetOr(0),
                                             s.weatherAnalysis, s.hotelOptions, s.flightOptions)),
       history := Logged(s, "Recommendation finalized"))
  }

  const WeatherWords: seq<string> := ["weather", "rain", "storm"]
  const StayWords: seq<string> := ["hotel", "accommodation", "stay"]

  /** The next action `handle_feedback` names for a lower-cased feedback text. */
  function FeedbackAction(feedback: string): (action: string)
    ensures AnyIn(WeatherWords, feedback) ==> action == "weather_recheck"
    ensures !AnyIn(WeatherWords, feedback) && AnyIn(StayWords, feedback) ==> action == "new_search"
    ensures !AnyIn(WeatherWords, feedback) && !AnyIn(StayWords, feedback) ==> action == "regenerate"
  {
    if AnyIn(WeatherWords, feedback) then "weather_recheck"
    else if AnyIn(StayWords, feedback) then "new_search"
    else "regenerate"
  }

  function FeedbackStep(s: PlannerState): (r: PlannerState)
    ensures InputsOf(r) == InputsOf(s) && r.errorMessage == s.errorMessage
    ensures r.currentStep == FeedbackAction(Lower(s.userFeedback))
  {
    var action := FeedbackAction(Lower(s.userFeedback));
    s.(currentStep := action, history := Logged(s, "Processing feedback, next action: " + action))
  }

  /** The state after a node's patch is merged. */
  function ApplyNode(node: Node, s: PlannerState, env: Env): (r: PlannerState)
    ensures InputsOf(r) == InputsOf(s)
    ensures node != Gather ==> r.errorMessage == s.errorMessage
  {
    match node
    case Collect => CollectStep(s)
    case Gather => GatherStep(s, env)
    case Analyze => AnalyzeStep(s)
    case Accommodations => AccommodationsStep(s)
    case FlightLookup => FlightLookupStep(s)
    case Generate => GenerateStep(s, env)
    case Alternatives => AlternativesStep(s, env)
    case Finalize => FinalizeStep(s)
    case Feedback => FeedbackStep(s)
    case End => s
  }

  // =================================================================================
  // Routing
  // =================================================================================

  datatype InputRoute = InputComplete | InputIncomplete | InputError
  datatype DataRoute = WeatherCheck | DirectPlanning | DataError
  datatype WeatherRoute = Favorable | Unfavorable | Conditional
  datatype ItineraryRoute = ItinerarySuccess | NeedsImprovement | ItineraryError
  datatype FinalRoute = Accepted | NeedsRevision | Rejected
  datatype FeedbackRoute = Regenerate | NewSearch | WeatherRecheck

  /** `decide_after_input_collection`: an error first, then `requires_input` (default true). */
  function DecideAfterInput(s: PlannerState): (r: InputRoute)
    ensures r == InputError <==> ErrorSet(s)
    ensures r == InputComplete <==> !ErrorSet(s) && s.requiresInput == Some(false)
    ensures r == InputIncomplete <==> !ErrorSet(s) && s.requiresInput != Some(false)
  {
    if ErrorSet(s) then InputError
    else if !s.requiresInput.GetOr(true) then InputComplete
    else InputIncomplete
  }

  /** A forecast bundle counts when it is present and is not the error bundle. */
  function DecideAfterData(s: PlannerState): (r: DataRoute)
    ensures r == DataError <==> ErrorSet(s)
    ensures r == WeatherCheck <==> !ErrorSet(s) && s.weatherData.Some? && s.weatherData.value.WeatherReport?
    ensures r == DirectPlanning <==> !ErrorSet(s) && (s.weatherData.None? || s.weatherData.value.WeatherFailure?)
  {
    if ErrorSet(s) then DataError
    else if s.weatherData.Some? && s.weatherData.value.WeatherReport? then WeatherCheck
    else DirectPlanning
  }

  /** `viability.get('score', 0)` */
  function ViabilityScore(s: PlannerState): real {
    if s.weatherViability.Some? then s.weatherViability.value.score else 0.0
  }

  /** `decide_after_weather_analysis`: the verdict first, then the score (default 0). */
  function DecideAfterWeather(s: PlannerState): (r: WeatherRoute)
    ensures r == Favorable <==> Viable(s)
    ensures r == Unfavorable <==> !Viable(s) && ViabilityScore(s) < 30.0
    ensures r == Conditional <==> !Viable(s) && ViabilityScore(s) >= 30.0
  {
    if Viable(s) then Favorable
    else if ViabilityScore(s) < 30.0 then Unfavorable
    else Conditional
  }

  /** `decide_after_itinerary`: an error first, then the quality score (default 0) against 70. */
  function DecideAfterItinerary(s: PlannerState): (r: ItineraryRoute)
    ensures r == ItineraryError <==> ErrorSet(s)
    ensures r == ItinerarySuccess <==> !ErrorSet(s) && s.qualityScore.Some? && s.qualityScore.value >= 70
    ensures r == NeedsImprovement <==> !ErrorSet(s) && (s.qualityScore.None? || s.qualityScore.value < 70)
  {
    if ErrorSet(s) then ItineraryError
    else if s.qualityScore.GetOr(0) >= 70 then ItinerarySuccess
    else NeedsImprovement
  }

  /** The finalized plan is always accepted. */
  function DecideAfterFinalization(s: PlannerState): (r: FinalRoute)
    ensures r != NeedsRevision && r != Rejected
  {
    Accepted
  }

  const RecheckWords: seq<string> := ["weather", "rain"]
  const SearchWords: seq<string> := ["hotel", "flight"]

  /** `decide_after_feedback`: keyword presence in the lower-cased feedback, weather words first. */
  function DecideAfterFeedback(s: PlannerState): (r: FeedbackRoute)
    ensures r == WeatherRecheck <==> AnyIn(RecheckWords, Lower(s.userFeedback))
    ensures r == NewSearch <==> !AnyIn(RecheckWords, Lower(s.userFeedback)) && AnyIn(SearchWords, Lower(s.userFeedback))
    ensures r == Regenerate <==>
      !AnyIn(RecheckWords, Lower(s.userFeedback)) && !AnyIn(SearchWords, Lower(s.userFeedback))
  {
    var feedback := Lower(s.userFeedback);
    if AnyIn(RecheckWords, feedback) then WeatherRecheck
    else if AnyIn(SearchWords, feedback) then NewSearch
    else Regenerate
  }

  /** The edge table: the node that follows `node` once its patch has given `s`. */
  function Successor(node: Node, s: PlannerState): (next: Node)
    ensures next != Feedback
    ensures next == End <==> node == Finalize || node == End
    ensures next == Collect ==> node == Collect
    ensures next == Finalize ==> node == Generate || node == Alternatives
    ensures ErrorSet(s) && (node == Collect || node == Gather || node == Generate) ==> next == Alternatives
  {
    match node
    case Collect =>
      (match DecideAfterInput(s) case InputComplete => Gather case InputIncomplete => Collect
                                 case InputError => Alternatives)
    case Gather =>
      (match DecideAfterData(s) case WeatherCheck => Analyze case DirectPlanning => FlightLookup
                                case DataError => Alternatives)
    case Analyze =>
      (match DecideAfterWeather(s) case Favorable => Accommodations case Unfavorable => Alternatives
                                   case Conditional => FlightLookup)
    case Accommodations => FlightLookup
    case FlightLookup => Generate
    case Generate =>
      (match DecideAfterItinerary(s) case ItinerarySuccess => Finalize case NeedsImprovement => Alternatives
                                     case ItineraryError => Alternatives)
    case Finalize =>
      (match DecideAfterFinalization(s) case Accepted => End case NeedsRevision => Feedback
                                        case Rejected => Alternatives)
    case Feedback =>
      (match DecideAfterFeedback(s) case Regenerate => Generate case NewSearch => Gather
                                    case WeatherRecheck => Analyze)
    case Alternatives => Finalize
    case End => End
  }

  /** `handle_feedback` is unreachable: no edge leads to it. */
  lemma FeedbackUnreachable(node: Node, s: PlannerState)
    ensures Successor(node, s) != Feedback
  {
  }

  /** After the input step the run moves on to data collection exactly when no error is
      stored and no required field is missing; it stays in the input step exactly when a
      field is missing and no error is stored. */
  lemma CollectRoutes(s: PlannerState)
    ensures Successor(Collect, CollectStep(s)) == Gather <==> !ErrorSet(s) && MissingFields(s) == []
    ensures Successor(Collect, CollectStep(s)) == Collect <==> !ErrorSet(s) && MissingFields(s) != []
  {
  }

  /** With the verdict `check_weather_viability` gives for a forecast, the weather route is
      "favorable" from the canonical score 40 up, "unfavorable" below 30 and "conditional" in
      between; the error bundle is "unfavorable". */
  lemma WeatherRouteBands(s: PlannerState, w: WeatherData)
    requires s.weatherViability == Some(CheckWeatherViability(w))
    ensures w.WeatherReport? ==>
      && (DecideAfterWeather(s) == Favorable <==> CanonicalScore(w) >= 40.0)
      && (DecideAfterWeather(s) == Unfavorable <==> CanonicalScore(w) < 30.0)
      && (DecideAfterWeather(s) == Conditional <==> 30.0 <= CanonicalScore(w) < 40.0)
    ensures w.WeatherFailure? ==> DecideAfterWeather(s) == Unfavorable
  {
  }

  /** The three routes out of data collection. A failed collection, or an error stored
      before, leads to the alternatives; otherwise a forecast bundle leads to the weather
      analysis and the error bundle to the flight search. */
  lemma GatherRoutes(s: PlannerState, env: Env)
    requires Collection(s, env).CollectionFailed? ==> Collection(s, env).error != ""
    ensures var td := Collection(s, env);
      && (Successor(Gather, GatherStep(s, env)) == Alternatives <==> td.CollectionFailed? || ErrorSet(s))
      && (Successor(Gather, GatherStep(s, env)) == Analyze <==>
            td.Collected? && !ErrorSet(s) && td.weatherData.WeatherReport?)
      && (Successor(Gather, GatherStep(s, env)) == FlightLookup <==>
            td.Collected? && !ErrorSet(s) && td.weatherData.WeatherFailure?)
  {
  }

  /** The two feedback readers disagree: "storm" makes `handle_feedback` name a weather
      recheck, while the router sends the run to regenerate the itinerary. */
  lemma FeedbackReadersDisagree(s: PlannerState)
    requires s.userFeedback == "storm"
    ensures FeedbackStep(s).currentStep == "weather_recheck"
    ensures DecideAfterFeedback(FeedbackStep(s)) == Regenerate
  {
    assert Lower("storm") == "storm";
    ContainsAt("storm", "storm", 0);
    assert Contains("storm", WeatherWords[2]);
    MissingCharExcludes("storm", "weather", 0);
    MissingCharExcludes("storm", "rain", 1);
    MissingCharExcludes("storm", "hotel", 0);
    MissingCharExcludes("storm", "flight", 0);
  }

  // =================================================================================
  // Runs
  // =================================================================================

  /** Where a run ended, the nodes it visited in order, and whether it reached `END`. */
  datatype Trace = Trace(final: PlannerState, visited: seq<Node>, finished: bool)

  /** What the engine runs at each node: the state after the node's patch is merged. */
  type StepFn = (Node, PlannerState) -> PlannerState

  /** The nodes of `TripPlannerAgent`, with their collaborators. */
  function Steps(env: Env): StepFn {
    (node, s) => ApplyNode(node, s, env)
  }

  /** The engine loop with a budget of `fuel` node visits. */
  function RunFrom(step: StepFn, node: Node, s: PlannerState, fuel: nat): (t: Trace)
    ensures |t.visited| <= fuel
    ensures t.finished ==> (node == End || node in t.visited)
    decreases fuel
  {
    if node == End then Trace(s, [], true)
    else if fuel == 0 then Trace(s, [], false)
    else
      var next := step(node, s);
      var rest := RunFrom(step, Successor(node, next), next, fuel - 1);
      Trace(rest.final, [node] + rest.visited, rest.finished)
  }

  /** A run that reached `END` within `k` visits, finalized once and never handled feedback. */
  predicate Done(t: Trace, k: nat) {
    t.finished && |t.visited| <= k && multiset(t.visited)[Finalize] == 1 && Feedback !in t.visited
  }

  /** One step of a run: visit the node, then run on from its successor. */
  lemma Unfold(step: StepFn, node: Node, s: PlannerState, fuel: nat)
    requires node != End && fuel > 0
    ensures var next := step(node, s);
      var rest := RunFrom(step, Successor(node, next), next, fuel - 1);
      RunFrom(step, node, s, fuel) == Trace(rest.final, [node] + rest.visited, rest.finished)
  {
  }

  /** With no budget left, or at `END`, the run visits nothing more. */
  lemma Halted(step: StepFn, node: Node, s: PlannerState, fuel: nat)
    requires fuel == 0 || node == End
    ensures RunFrom(step, node, s, fuel) == Trace(s, [], node == End)
  {
  }

  /** Prepending a visit of a node other than `finalize_recommendation` and `handle_feedback`
      keeps a run done, with one more visit allowed. */
  lemma Extend(t: Trace, node: Node, k: nat)
    requires Done(t, k) && node != Finalize && node != Feedback
    ensures Done(Trace(t.final, [node] + t.visited, t.finished), k + 1)
  {
    assert multiset([node] + t.visited) == multiset{node} + multiset(t.visited);
  }

  /* From every node after the input step the run is done within a fixed number of visits,
     whatever the nodes compute: every route leads forward to `finalize_recommendation`,
     which always ends the run. */

  /** Where the branching nodes on the way to `END` can lead. */
  lemma BranchEdges(s: PlannerState)
    ensures Successor(Gather, s) == Analyze || Successor(Gather, s) == FlightLookup
         || Successor(Gather, s) == Alternatives
    ensures Successor(Analyze, s) == Accommodations || Successor(Analyze, s) == Alternatives
         || Successor(Analyze, s) == FlightLookup
    ensures Successor(Generate, s) == Finalize || Successor(Generate, s) == Alternatives
  {
  }

  lemma FromFinalize(step: StepFn, s: PlannerState, fuel: nat)
    requires fuel >= 1
    ensures Done(RunFrom(step, Finalize, s, fuel), 1)
  {
    Unfold(step, Finalize, s, fuel);
    assert multiset([Finalize])[Finalize] == 1;
  }

  lemma FromAlternatives(step: StepFn, s: PlannerState, fuel: nat)
    requires fuel >= 2
    ensures Done(RunFrom(step, Alternatives, s, fuel), 2)
  {
    var next := step(Alternatives, s);
    Unfold(step, Alternatives, s, fuel);
    FromFinalize(step, next, fuel - 1);
    Extend(RunFrom(step, Finalize, next, fuel - 1), Alternatives, 1);
  }

  lemma FromGenerate(step: StepFn, s: PlannerState, fuel: nat)
    requires fuel >= 3
    ensures Done(RunFrom(step, Generate, s, fuel), 3)
  {
    var next := step(Generate, s);
    var after := Successor(Generate, next);
    var rest := RunFrom(step, after, next, fuel - 1);
    Unfold(step, Generate, s, fuel);
    BranchEdges(next);
    if after == Finalize {
      FromFinalize(step, next, fuel - 1);
    } else {
      FromAlternatives(step, next, fuel - 1);
    }
    assert Done(rest, 2);
    Extend(rest, Generate, 2);
  }

  lemma FromFlightLookup(step: StepFn, s: PlannerState, fuel: nat)
    requires fuel >= 4
    ensures Done(RunFrom(step, FlightLookup, s, fuel), 4)
  {
    var next := step(FlightLookup, s);
    Unfold(step, FlightLookup, s, fuel);
    FromGenerate(step, next, fuel - 1);
    Extend(RunFrom(step, Generate, next, fuel - 1), FlightLookup, 3);
  }

  lemma FromAccommodations(step: StepFn, s: PlannerState, fuel: nat)
    requires fuel >= 5
    ensures Done(RunFrom(step, Accommodations, s, fuel), 5)
  {
    var next := step(Accommodations, s);
    Unfold(step, Accommodations, s, fuel);
    FromFlightLookup(step, next, fuel - 1);
    Extend(RunFrom(step, FlightLookup, next, fuel - 1), Accommodations, 4);
  }

  lemma FromAnalyze(step: StepFn, s: PlannerState, fuel: nat)
    requires fuel >= 6
    ensures Done(RunFrom(step, Analyze, s, fuel), 6)
  {
    var next := step(Analyze, s);
    var after := Successor(Analyze, next);
    var rest := RunFrom(step, after, next, fuel - 1);
    assert Done(rest, 5) by {
      BranchEdges(next);
      if after == Accommodations {
        FromAccommodations(step, next, fuel - 1);
      } else if after == Alternatives {
        FromAlternatives(step, next, fuel - 1);
      } else {
        FromFlightLookup(step, next, fuel - 1);
      }
    }
    Unfold(step, Analyze, s, fuel);
    Extend(rest, Analyze, 5);
  }

  lemma FromGather(step: StepFn, s: PlannerState, fuel: nat)
    requires fuel >= 7
    ensures Done(RunFrom(step, Gather, s, fuel), 7)
  {
    var next := step(Gather, s);
    var after := Successor(Gather, next);
    var rest := RunFrom(step, after, next, fuel - 1);
    assert Done(rest, 6) by {
      BranchEdges(next);
      if after == Analyze {
        FromAnalyze(step, next, fuel - 1);
      } else if after == FlightLookup {
        FromFlightLookup(step, next, fuel - 1);
      } else {
        FromAlternatives(step, next, fuel - 1);
      }
    }
    Unfold(step, Gather, s, fuel);
    Extend(rest, Gather, 6);
  }

  /** Once the input step lets the run through to data collection, the run reaches `END`
      within 8 node visits, finalizes exactly once and never handles feedback. */
  lemma CompleteRunFinishes(step: StepFn, s: PlannerState, fuel: nat)
    requires fuel >= 8 && step(Collect, s) == CollectStep(s)
    requires !ErrorSet(s) && MissingFields(s) == []
    ensures Done(RunFrom(step, Collect, s, fuel), 8)
  {
    var next := step(Collect, s);
    Unfold(step, Collect, s, fuel);
    assert Successor(Collect, next) == Gather;
    FromGather(step, next, fuel - 1);
    Extend(RunFrom(step, Gather, next, fuel - 1), Collect, 7);
  }

  /** With a required field missing and no stored error, the input step routes back to
      itself forever: the run never reaches `END`, whatever the budget. */
  lemma {:induction false} IncompleteRunLoops(step: StepFn, s: PlannerState, fuel: nat)
    requires forall t :: step(Collect, t) == CollectStep(t)
    requires !ErrorSet(s) && MissingFields(s) != []
    ensures !RunFrom(step, Collect, s, fuel).finished
    ensures forall k :: 0 <= k < |RunFrom(step, Collect, s, fuel).visited| ==>
      RunFrom(step, Collect, s, fuel).visited[k] == Collect
    decreases fuel
  {
    if fuel > 0 {
      var next := step(Collect, s);
      Unfold(step, Collect, s, fuel);
      assert MissingFields(next) == MissingFields(s) by {
        assert InputsOf(next) == InputsOf(s);
      }
      IncompleteRunLoops(step, next, fuel - 1);
    }
  }

  /** A run that reached `END` from a real node last visited `finalize_recommendation`, whose
      patch leaves the completed record. */
  lemma {:induction false} LastVisitFinalizes(step: StepFn, node: Node, s: PlannerState, fuel: nat)
    requires forall t :: step(Finalize, t) == FinalizeStep(t)
    requires node != End && RunFrom(step, node, s, fuel).finished
    ensures var t := RunFrom(step, node, s, fuel);
      && t.final.finalRecommendation.Some? && t.final.finalRecommendation.value.Completed?
      && t.final.currentStep == "completed" && !t.final.shouldContinue
    decreases fuel
  {
    assert fuel > 0;
    var next := step(node, s);
    Unfold(step, node, s, fuel);
    if Successor(node, next) != End {
      LastVisitFinalizes(step, Successor(node, next), next, fuel - 1);
    } else {
      assert node == Finalize;
    }
  }

  lemma VisitsAssoc(before: seq<Node>, node: Node, after: seq<Node>)
    ensures before + ([node] + after) == (before + [node]) + after
  {
  }

  /** The agent's nodes are the input and finalization steps modelled above. */
  lemma StepsAreNodes(env: Env)
    ensures forall t :: Steps(env)(Collect, t) == CollectStep(t)
    ensures forall t :: Steps(env)(Finalize, t) == FinalizeStep(t)
  {
  }

  // =================================================================================
  // plan_trip
  // =================================================================================

  /** The keys of `initial_state` the interface passes; `None` is an absent key. */
  datatype Request = Request(
    destination: Option<string>,
    originCity: Option<string>,
    travelDates: Option<string>,
    duration: Option<int>,
    budget: Option<int>,
    preferences: seq<PrefItem>,
    travelType: Option<string>,
    history: Option<seq<Message>>)

  const MaxIterations: int := 10

  /** The defaults merged under the request. The request's origin has no key in the state
      schema, so it does not reach the state. */
  function Initial(req: Request): (s: PlannerState)
    ensures s.errorMessage.None? && s.missingInformation == [] && s.shouldContinue
    ensures s.destination == req.destination && s.travelDates == req.travelDates
    ensures s.duration == req.duration && s.budget == req.budget
  {
    PlannerState(req.destination, req.travelDates, req.duration, req.budget, req.preferences, req.travelType,
                 "", "", None, req.history.GetOr([]), [], None, None, None, [], [], [], [],
                 None, None, [], None, true, MaxIterations, 0, None, 0)
  }

  datatype PlanResult =
    | Planned(state: PlannerState)
    | PlanFailed(errorMessage: string, finalRecommendation: string, history: seq<Message>)

  const FailureLead: string := "Trip planning failed: "
  const FailureAdvice: string := "Unable to generate travel plan. Please try again."
  const ProcessErrorLead: string := "Planning process error: "

  /** `plan_trip`: the final state of a run that reaches `END` within `limit` visits, and the
      error record otherwise, `engineError` being the engine's message. */
  function PlanOutcome(req: Request, env: Env, limit: nat, engineError: string): (r: PlanResult)
    ensures RunFrom(Steps(env), Collect, Initial(req), limit).finished <==> r.Planned?
    ensures r.PlanFailed? ==>
      && r.errorMessage == FailureLead + engineError
      && r.finalRecommendation == FailureAdvice
      && r.history == Initial(req).history + [Message("system", ProcessErrorLead + engineError)]
  {
    var t := RunFrom(Steps(env), Collect, Initial(req), limit);
    if t.finished then Planned(t.final)
    else PlanFailed(FailureLead + engineError, FailureAdvice, Logged(Initial(req), ProcessErrorLead + engineError))
  }

  /** A request with the four required fields present and truthy is planned to completion
      once the budget allows 8 visits, with the completed record as its final recommendation;
      a request missing one of them always ends in the error record. */
  lemma PlanTripOutcome(req: Request, env: Env, limit: nat, engineError: string)
    ensures MissingFields(Initial(req)) == [] && limit >= 8 ==>
      var r := PlanOutcome(req, env, limit, engineError);
      r.Planned? && r.state.finalRecommendation.Some? && r.state.finalRecommendation.value.Completed? &&
      r.state.currentStep == "completed" && !r.state.shouldContinue
    ensures MissingFields(Initial(req)) != [] ==> PlanOutcome(req, env, limit, engineError).PlanFailed?
  {
    var s := Initial(req);
    StepsAreNodes(env);
    if MissingFields(s) == [] && limit >= 8 {
      CompleteRunFinishes(Steps(env), s, limit);
      LastVisitFinalizes(Steps(env), Collect, s, limit);
    }
    if MissingFields(s) != [] {
      IncompleteRunLoops(Steps(env), s, limit);
    }
  }

  /** Two requests that differ only in their origin are planned alike: the collection is
      always asked about flights from the default origin. */
  lemma PlanIgnoresOrigin(req: Request, origin: Option<string>, env: Env, limit: nat, engineError: string)
    ensures PlanOutcome(req.(originCity := origin), env, limit, engineError) == PlanOutcome(req, env, limit, engineError)
  {
    assert Initial(req.(originCity := origin)) == Initial(req);
  }

  /** A request that passes `validate_user_input` has no missing field: the validator is
      stricter than the planner's own check. */
  lemma ValidatedRequestIsComplete(u: Helpers.UserInput, req: Request)
    requires req.destination == u.destination && req.travelDates == u.travelDates
    requires req.duration == u.duration && req.budget == u.budget
    requires Helpers.ExpectedErrors(u) == []
    ensures MissingFields(Initial(req)) == []
  {
    var p := Helpers.Problems(u);
    Helpers.SelectedEmpty(p, Helpers.ErrorMessages);
    assert !p[0] && !p[1] && !p[2] && !p[3];
    assert MissingFlags(Initial(req)) == [false, false, false, false];
    Helpers.SelectedEmpty(MissingFlags(Initial(req)), RequiredFields);
  }

  // =================================================================================
  // The itinerary on the planner's path
  // =================================================================================

  /** The template itinerary, built without hotels or attractions as on the planner's path,
      names a hotel, activities and restaurants and is longer than 500 characters, so it
      scores at least 80; with at least one day it also has a "Morning" line and scores 100. */
  lemma TemplateQuality(destination: string, duration: int, preferences: string, travelType: string,
                        weatherInfo: string, daily: seq<DailyForecast>, showReal: real -> string)
    ensures var t := FallbackText(destination, duration, preferences, travelType, weatherInfo, daily, [], [], showReal);
      && Quality(t) >= 80
      && (duration >= 1 ==> Quality(t) == 100)
  {
    var front := FallbackFront(destination, duration, preferences, travelType, weatherInfo, daily, [], showReal);
    var days := DayBlocks(DayPlans(TripDays(duration), daily, TemplateAttractionNames([])));
    var t := FallbackText(destination, duration, preferences, travelType, weatherInfo, daily, [], [], showReal);
    assert t == front + days + TipsBlock;
    FrontMentionsHotel(destination, duration, preferences, travelType, weatherInfo, daily, showReal);
    if duration >= 1 {
      DaysMentionMorning(TripDays(duration), daily, TemplateAttractionNames([]));
    }
    MentionsOfParts(front, days, duration >= 1);
  }

  /** A template whose front names a hotel earns the topic bonus and the length bonus, and
      the structure bonus too when its day blocks have a morning line. */
  lemma MentionsOfParts(front: string, days: string, hasMorning: bool)
    requires Contains(front, HotelWord)
    requires hasMorning ==> Contains(days, MorningWord)
    ensures Quality(front + days + TipsBlock) >= 80
    ensures hasMorning ==> Quality(front + days + TipsBlock) == 100
  {
    var t := front + days + TipsBlock;
    TipsMentions();
    ContainsRight(front + days, TipsBlock, ActivitiesWord);
    ContainsRight(front + days, TipsBlock, RestaurantsWord);
    ContainsLeft(front, days, HotelWord);
    ContainsLeft(front + days, TipsBlock, HotelWord);
    ContainsAt(RestaurantsWord, "restaurant", 0);
    ContainsTrans(t, RestaurantsWord, "restaurant");
    assert Contains(t, TopicWords[0]) && Contains(t, TopicWords[1]) && Contains(t, TopicWords[2]);
    if hasMorning {
      ContainsInContext(front, days, TipsBlock, MorningWord);
      assert Contains(t, StructureMarkers[2]);
    }
  }

  /** Every day block has a morning line. */
  lemma DaysMentionMorning(n: nat, daily: seq<DailyForecast>, names: seq<string>)
    requires n >= 1
    ensures Contains(DayBlocks(DayPlans(n, daily, names)), MorningWord)
  {
    var plans := DayPlans(n, daily, names);
    DayBlocksContain(plans, 0);
    DayBlockParts(plans[0]);
    ContainsHalves(MorningWord, ": Explore local attractions and get familiar with the area");
    ContainsTrans(DayBlock(plans[0]), MorningLine, MorningWord);
    ContainsTrans(DayBlocks(plans), DayBlock(plans[0]), MorningWord);
  }

  /** The closing tips name activities and restaurants. */
  lemma TipsMentions()
    ensures Contains(TipsBlock, ActivitiesWord) && Contains(TipsBlock, RestaurantsWord)
    ensures |TipsBlock| > 500
  {
    var lead := Nl + GeneralTipsHeading + Nl + WeatherTip + Nl + EmergencyTip + Nl + HydrationTip + Nl + CuisineTip +
                Nl + CustomsTip + Nl + Nl + BudgetTipsHeading + Nl + TransportTip + Nl;
    assert TipsBlock == lead + FreeActivitiesTip + Nl + RestaurantTip + Nl + BookingTip + Nl;
    ContainsHalves("- Look for free attractions and ", ActivitiesWord);
    ContainsRight(lead, FreeActivitiesTip, ActivitiesWord);
    ContainsLeft(lead + FreeActivitiesTip, Nl, ActivitiesWord);
    ContainsLeft(lead + FreeActivitiesTip + Nl, RestaurantTip, ActivitiesWord);
    ContainsLeft(lead + FreeActivitiesTip + Nl + RestaurantTip, Nl, ActivitiesWord);
    ContainsLeft(lead + FreeActivitiesTip + Nl + RestaurantTip + Nl, BookingTip, ActivitiesWord);
    ContainsLeft(lead + FreeActivitiesTip + Nl + RestaurantTip + Nl + BookingTip, Nl, ActivitiesWord);
    ContainsAt(RestaurantsWord, RestaurantsWord, 0);
    ContainsInContext("- Eat at local ", RestaurantsWord, " away from tourist areas", RestaurantsWord);
    ContainsRight(lead + FreeActivitiesTip + Nl, RestaurantTip, RestaurantsWord);
    ContainsLeft(lead + FreeActivitiesTip + Nl + RestaurantTip, Nl, RestaurantsWord);
    ContainsLeft(lead + FreeActivitiesTip + Nl + RestaurantTip + Nl, BookingTip, RestaurantsWord);
    ContainsLeft(lead + FreeActivitiesTip + Nl + RestaurantTip + Nl + BookingTip, Nl, RestaurantsWord);
  }

  /** Without hotels, the accommodations block of the template says so, naming a hotel. */
  lemma FrontMentionsHotel(destination: string, duration: int, preferences: string, travelType: string,
                           weatherInfo: string, daily: seq<DailyForecast>, showReal: real -> string)
    ensures Contains(FallbackFront(destination, duration, preferences, travelType, weatherInfo, daily, [], showReal),
                     HotelWord)
  {
    ContainsAt(HotelWord, HotelWord, 0);
    ContainsInContext("No ", HotelWord, " information available", HotelWord);
    assert TemplateHotelNames([]) == [];
    var lead := Nl + AccommodationsHeading + Nl;
    assert AccommodationBlock([]) == lead + NoHotelInformation + Nl + Nl;
    ContainsRight(lead, NoHotelInformation, HotelWord);
    ContainsLeft(lead + NoHotelInformation, Nl, HotelWord);
    ContainsLeft(lead + NoHotelInformation + Nl, Nl, HotelWord);
    ContainsRight(FallbackHeader(destination, duration, preferences, travelType, weatherInfo) +
                  ForecastBlock(daily, showReal), AccommodationBlock([]), HotelWord);
  }

  /** On the planner's path the chain reads no hotels, attractions, flights or forecasts (the
      dictionary uses other key names), so when the model call fails the itinerary is the bare
      template for the stored destination, duration, preferences, travel type and analysis. */
  lemma PlannerFallbackIsTemplate(s: PlannerState, env: Env)
    requires JoinPreferences(s.preferences).Joined?
    requires env.itineraryLlm(ContextOf(Payload(s), s.duration.GetOr(DefaultDuration),
                                        JoinPreferences(s.preferences).text, s.travelType.GetOr(DefaultTravelType),
                                        env.showReal)).LlmFailed?
    ensures ItineraryFor(s, env) ==
      FallbackText(s.destination.GetOr(UnknownDestination), s.duration.GetOr(DefaultDuration),
                   JoinPreferences(s.preferences).text, s.travelType.GetOr(DefaultTravelType),
                   s.weatherAnalysis.GetOr(""), [], [], [], env.showReal)
  {
    var p := Payload(s);
    var duration := s.duration.GetOr(DefaultDuration);
    var text := JoinPreferences(s.preferences).text;
    var travelType := s.travelType.GetOr(DefaultTravelType);
    PlannerKeysReachNoLists(p, env.showReal);
    assert TextOr(p, DestinationField, UnknownDestination) == s.destination.GetOr(UnknownDestination);
    assert TextOr(p, AnalysisKey, NoWeatherInformation) == s.weatherAnalysis.GetOr("");
    assert ItineraryFor(s, env) == ItineraryOutcome(p, duration, s.preferences, travelType, env.itineraryLlm, env.showReal);
    assert ItineraryOutcome(p, duration, s.preferences, travelType, env.itineraryLlm, env.showReal) ==
      FallbackText(TextOr(p, DestinationField, UnknownDestination), duration, text, travelType,
                   TextOr(p, AnalysisKey, NoWeatherInformation), DailyForecastsOf(p), HotelsOf(p), AttractionsOf(p),
                   env.showReal);
  }

  /** With no stored error, the stored text routes the run to the final step exactly when it
      scores at least 70, and to the alternatives otherwise. */
  lemma GateFromQuality(s: PlannerState, text: string)
    requires !ErrorSet(s)
    ensures DecideAfterItinerary(WithItinerary(s, text)) == ItinerarySuccess <==> Quality(text) >= 70
    ensures Successor(Generate, WithItinerary(s, text)) == Finalize <==> Quality(text) >= 70
    ensures Successor(Generate, WithItinerary(s, text)) == Alternatives <==> Quality(text) < 70
  {
  }

  /** That template passes the quality gate, so with no stored error the run goes on to the
      final step rather than to the alternatives. */
  lemma PlannerFallbackPassesGate(s: PlannerState, env: Env)
    requires JoinPreferences(s.preferences).Joined?
    requires env.itineraryLlm(ContextOf(Payload(s), s.duration.GetOr(DefaultDuration),
                                        JoinPreferences(s.preferences).text, s.travelType.GetOr(DefaultTravelType),
                                        env.showReal)).LlmFailed?
    requires !ErrorSet(s)
    ensures Quality(ItineraryFor(s, env)) >= 80
    ensures DecideAfterItinerary(WithItinerary(s, ItineraryFor(s, env))) == ItinerarySuccess
  {
    PlannerFallbackIsTemplate(s, env);
    TemplatePassesGate(s, ItineraryFor(s, env), s.destination.GetOr(UnknownDestination),
                       s.duration.GetOr(DefaultDuration), JoinPreferences(s.preferences).text,
                       s.travelType.GetOr(DefaultTravelType), s.weatherAnalysis.GetOr(""), env.showReal);
  }

  lemma TemplatePassesGate(s: PlannerState, t: string, destination: string, duration: int, preferences: string,
                           travelType: string, weatherInfo: string, showReal: real -> string)
    requires t == FallbackText(destination, duration, preferences, travelType, weatherInfo, [], [], [], showReal)
    requires !ErrorSet(s)
    ensures Quality(t) >= 80
    ensures DecideAfterItinerary(WithItinerary(s, t)) == ItinerarySuccess
  {
    TemplateQuality(destination, duration, preferences, travelType, weatherInfo, [], showReal);
    GateFromQuality(s, t);
  }

  // =================================================================================
  // The agent
  // =================================================================================

  /** `TripPlannerAgent`: the shared state, the node about to run, the nodes visited so far,
      and the collaborators. */
  class TripPlannerAgent {
    var state: PlannerState
    var node: Node
    var visited: seq<Node>
    const env: Env
    /** The compiled graph's node functions. */
    const step: StepFn

    constructor(env: Env)
      ensures this.env == env && step == Steps(env) && node == End && visited == []
    {
      this.env := env;
      step := Steps(env);
      state := Initial(Request(None, None, None, None, None, [], None, None));
      node := End;
      visited := [];
    }

    /** One engine step: run the current node, merge its patch, follow the edge. */
    method Step()
      requires node != End
      modifies this
      ensures state == step(old(node), old(state))
      ensures node == Successor(old(node), state)
      ensures visited == old(visited) + [old(node)]
    {
      state := step(node, state);
      visited := visited + [node];
      node := Successor(node, state);
    }

    /** Steps until `END` or until `fuel` steps have run. */
    method Run(fuel: nat) returns (finished: bool)
      modifies this
      ensures var t := RunFrom(step, old(node), old(state), fuel);
        && finished == t.finished && state == t.final && visited == old(visited) + t.visited
    {
      ghost var t0 := RunFrom(step, node, state, fuel);
      ghost var start := visited;
      var left: nat := fuel;
      while left > 0 && node != End
        invariant RunFrom(step, node, state, left).final == t0.final
        invariant RunFrom(step, node, state, left).finished == t0.finished
        invariant start + t0.visited == visited + RunFrom(step, node, state, left).visited
        decreases left
      {
        ghost var before := visited;
        ghost var current := node;
        ghost var next := step(node, state);
        ghost var rest := RunFrom(step, Successor(node, next), next, left - 1);
        Unfold(step, node, state, left);
        Step();
        VisitsAssoc(before, current, rest.visited);
        left := left - 1;
      }
      Halted(step, node, state, left);
      finished := node == End;
    }

    /** `plan_trip`: merge the defaults under the request, run from `collect_user_input`, and
        return the final state, or the error record when the budget runs out. */
    method PlanTrip(req: Request, limit: nat, engineError: string) returns (result: PlanResult)
      requires step == Steps(env)
      modifies this
      ensures result == PlanOutcome(req, env, limit, engineError)
    {
      state := Initial(req);
      node := Collect;
      visited := [];
      var finished := Run(limit);
      if finished {
        result := Planned(state);
      } else {
        result := PlanFailed(FailureLead + engineError, FailureAdvice,
                             Logged(Initial(req), ProcessErrorLead + engineError));
      }
    }
  }
}
