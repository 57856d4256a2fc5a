/** Hotel and attraction search (tools/search_tool.py): the attraction categoriser, the
    title cleaner, the hotel validity filter, the price-category choice and its price bands,
    the amenity and description tables, the template fallback hotels, the de-duplicating
    merges of `search_hotels` and `search_attractions`, and the description cut of a parsed
    attraction. The web search, the regular-expression hotel-name extraction and the random
    draws are outside the model: their outcomes are inputs. */
module Search {
  import opened Common

  /** One web-search hit: its `title`, `body` and `href`, each read with `.get(.., '')`. */
  datatype SearchHit = SearchHit(title: string, body: string, href: string)

  /** The three price categories. The source keys its tables by the category's name. */
  datatype Category = Budget | MidRange | Luxury {
    function Name(): string {
      match this
      case Budget => "budget"
      case MidRange => "mid-range"
      case Luxury => "luxury"
    }
    function Rank(): nat {
      match this
      case Budget => 0
      case MidRange => 1
      case Luxury => 2
    }
  }

  datatype Hotel = Hotel(
    name: string,
    description: string,
    pricePerNight: int,
    priceRange: string,
    rating: real,
    reviews: int,
    amenities: seq<string>,
    location: string,
    url: string,
    kind: string,
    sustainability: string,
    distanceCenter: string,
    source: string)

  datatype Attraction = Attraction(
    name: string,
    description: string,
    category: string,
    rating: real,
    priceRange: string,
    duration: string,
    url: string,
    source: string)

  /** `destination.lower()` as a table key. */
  function DestinationKey(destination: string): string {
    Lower(destination)
  }

  /** `s.replace(' ', '-').lower()`, the slug used in the example URLs. */
  function Slug(s: string): (r: string)
    ensures |r| == |s|
  {
    seq(|s|, i requires 0 <= i < |s| => LowerChar(if s[i] == ' ' then '-' else s[i]))
  }

  // =================================================================================
  // Attraction categories
  // =================================================================================

  const AttractionKeywords: seq<seq<string>> := [
    ["beach", "coast", "shore"],
    ["museum", "gallery", "art"],
    ["park", "garden", "nature", "falls", "waterfall"],
    ["shopping", "mall", "market"],
    ["temple", "church", "mosque", "religious"],
    ["fort", "palace", "historical", "heritage"],
    ["restaurant", "food", "cuisine"]
  ]

  const AttractionCategories: seq<string> :=
    ["Beach", "Cultural", "Nature", "Shopping", "Religious", "Historical", "Food"]

  /** `_categorize_attraction`: the category of the first keyword row with a keyword
      occurring in the lower-cased description, "General" when none does. */
  function CategorizeAttraction(description: string): (r: string)
    ensures r in AttractionCategories || r == "General"
  {
    var k := FirstMatch(AttractionKeywords, Lower(description));
    if k < |AttractionCategories| then AttractionCategories[k] else "General"
  }

  /** Category `i` is chosen exactly when row `i` matches and no earlier row does, and
      "General" exactly when no row matches. */
  lemma CategorizeAttractionIsFirstMatch(description: string, i: nat)
    requires i < |AttractionCategories|
    ensures CategorizeAttraction(description) == AttractionCategories[i] <==>
      && AnyIn(AttractionKeywords[i], Lower(description))
      && forall j :: 0 <= j < i ==> !AnyIn(AttractionKeywords[j], Lower(description))
    ensures CategorizeAttraction(description) == "General" <==>
      forall j :: 0 <= j < |AttractionKeywords| ==> !AnyIn(AttractionKeywords[j], Lower(description))
  {
    var s := Lower(description);
    var k := FirstMatch(AttractionKeywords, s);
    FirstMatchIsFirst(AttractionKeywords, s);
    assert forall a, b :: 0 <= a < b < |AttractionCategories| ==>
      AttractionCategories[a] != AttractionCategories[b];
    assert "General" !in AttractionCategories;
    if AnyIn(AttractionKeywords[i], s) && forall j :: 0 <= j < i ==> !AnyIn(AttractionKeywords[j], s) {
      assert k == i;
    }
  }

  /** Matching is by substring, not by word: "party" contains "art", so a description
      of a party place is filed as Cultural. */
  lemma PartyPlaceIsCultural()
    ensures CategorizeAttraction("party hub") == "Cultural"
  {
    var s := "party hub";
    LowerOfLowerCase(s);
    var row := AttractionKeywords[0];
    assert row == ["beach", "coast", "shore"];
    forall k | 0 <= k < |row|
      ensures !Contains(s, row[k])
    {
      if k == 0 {
        MissingCharExcludes(s, "beach", 1);
      } else if k == 1 {
        MissingCharExcludes(s, "coast", 0);
      } else {
        MissingCharExcludes(s, "shore", 0);
      }
    }
    ContainsAt(s, "art", 1);
    assert AttractionKeywords[1][2] == "art";
    assert AnyIn(AttractionKeywords[1], s);
  }

  /** Earlier rows win: a beach next to a fort is a Beach, not Historical. */
  lemma BeachBeforeFort()
    ensures CategorizeAttraction("beach by the fort") == "Beach"
  {
    var s := "beach by the fort";
    LowerOfLowerCase(s);
    ContainsAt(s, "beach", 0);
    assert AttractionKeywords[0][0] == "beach";
    assert AnyIn(AttractionKeywords[0], s);
  }

  // =================================================================================
  // Cleaning an attraction title
  // =================================================================================

  const NameRemovals: seq<string> :=
    ["- tripadvisor", "- wikipedia", "|", "...", "things to do in", "attractions in"]

  predicate NonEmptyAll(removals: seq<string>) {
    forall k :: 0 <= k < |removals| ==> |removals[k]| > 0
  }

  /** `r` is a contiguous slice of `s`. */
  predicate IsSliceOf(r: string, s: string) {
    exists i, j :: 0 <= i <= j <= |s| && r == s[i..j]
  }

  /** A string with no whitespace at either end. */
  predicate Stripped(s: string) {
    s != [] ==> !IsSpace(s[0]) && !IsSpace(s[|s| - 1])
  }

  /** One round of the cleaning loop: `name.split(removal)[0].strip()`. */
  function CleanStep(name: string, removal: string): string
    requires |removal| > 0
  {
    Strip(Split(name, removal)[0])
  }

  /** The cleaning loop run over `removals` in order. */
  function CleanWith(title: string, removals: seq<string>): string
    requires NonEmptyAll(removals)
  {
    if removals == [] then title
    else CleanStep(CleanWith(title, removals[..|removals| - 1]), removals[|removals| - 1])
  }

  /** `_clean_attraction_name` as a value. */
  function CleanName(title: string): string {
    CleanWith(title, NameRemovals)
  }

  lemma SliceOfSlice(r: string, m: string, s: string)
    requires IsSliceOf(r, m) && IsSliceOf(m, s)
    ensures IsSliceOf(r, s)
  {
    var i, j :| 0 <= i <= j <= |m| && r == m[i..j];
    var a, b :| 0 <= a <= b <= |s| && m == s[a..b];
    SubSlice(s, a, b, i, j);
    assert r == s[a + i..a + j];
  }

  /** One round keeps a slice of its input, removes every occurrence of the removal
      string, and leaves no whitespace at either end. */
  lemma CleanStepFacts(name: string, removal: string)
    requires |removal| > 0
    ensures IsSliceOf(CleanStep(name, removal), name)
    ensures !Contains(CleanStep(name, removal), removal)
    ensures Stripped(CleanStep(name, removal))
  {
    var p := Split(name, removal)[0];
    SplitFirstPrefix(name, removal);
    assert IsSliceOf(p, name) by {
      assert p == name[0..|p|];
    }
    StripSliceFacts(p, removal);
    SliceOfSlice(Strip(p), p, name);
  }

  lemma StripSliceFacts(p: string, removal: string)
    requires !Contains(p, removal)
    ensures IsSliceOf(Strip(p), p) && !Contains(Strip(p), removal)
  {
    StripIsSlice(p);
    var i, j :| 0 <= i <= j <= |p| && Strip(p) == p[i..j];
    NotContainsSlice(p, removal, i, j);
  }

  /** The loop's result is a slice of the title with no whitespace at either end that
      contains none of the removal strings (matching is case-sensitive). */
  lemma {:induction false} CleanWithFacts(title: string, removals: seq<string>)
    requires NonEmptyAll(removals)
    ensures IsSliceOf(CleanWith(title, removals), title)
    ensures forall k :: 0 <= k < |removals| ==> !Contains(CleanWith(title, removals), removals[k])
    ensures removals != [] ==> Stripped(CleanWith(title, removals))
  {
    if removals == [] {
      assert title == title[0..|title|];
    } else {
      var front := removals[..|removals| - 1];
      var last := removals[|removals| - 1];
      var m := CleanWith(title, front);
      CleanWithFacts(title, front);
      CleanStepFacts(m, last);
      var r := CleanStep(m, last);
      SliceOfSlice(r, m, title);
      forall k | 0 <= k < |removals|
        ensures !Contains(r, removals[k])
      {
        if k < |removals| - 1 {
          assert removals[k] == front[k];
          var i, j :| 0 <= i <= j <= |m| && r == m[i..j];
          NotContainsSlice(m, removals[k], i, j);
        }
      }
    }
  }

  /** One more round of the loop extends the prefix of removals by one. */
  lemma CleanWithPrefix(title: string, removals: seq<string>, i: nat)
    requires NonEmptyAll(removals) && i < |removals|
    ensures NonEmptyAll(removals[..i]) && NonEmptyAll(removals[..i + 1])
    ensures CleanWith(title, removals[..i + 1])
         == CleanStep(CleanWith(title, removals[..i]), removals[i])
  {
    assert removals[..i + 1][..i] == removals[..i];
  }

  /** `_clean_attraction_name`: each removal string, in order, cuts the name at its first
      occurrence and the rest is stripped. */
  method CleanAttractionName(title: string) returns (name: string)
    ensures name == CleanName(title)
    ensures IsSliceOf(name, title) && Stripped(name)
    ensures forall k :: 0 <= k < |NameRemovals| ==> !Contains(name, NameRemovals[k])
  {
    var removals := NameRemovals;
    assert NonEmptyAll(removals);
    name := title;
    for i := 0 to |removals|
      invariant name == CleanWith(title, removals[..i])
    {
      CleanWithPrefix(title, removals, i);
      name := Strip(Split(name, removals[i])[0]);
    }
    assert removals[..|removals|] == removals;
    CleanWithFacts(title, removals);
  }

  // =================================================================================
  // Hotel validity, price category, amenities, description
  // =================================================================================

  /** `_is_valid_hotel` */
  predicate IsValidHotel(h: Hotel) {
    |h.name| >= 3 && 10 <= h.pricePerNight <= 1000 && h.description != ""
  }

  /** Each of the three checks of `_is_valid_hotel` rejects on its own, and a hotel passing
      all three is accepted. */
  lemma IsValidHotelChecks(h: Hotel)
    ensures |h.name| < 3 ==> !IsValidHotel(h)
    ensures h.pricePerNight < 10 || h.pricePerNight > 1000 ==> !IsValidHotel(h)
    ensures h.description == "" ==> !IsValidHotel(h)
    ensures |h.name| >= 3 && 10 <= h.pricePerNight <= 1000 && h.description != "" ==> IsValidHotel(h)
  {
  }

  datatype PriceBand = PriceBand(low: int, high: int)
  datatype PriceBands = PriceBands(budget: PriceBand, midRange: PriceBand, luxury: PriceBand) {
    function Band(c: Category): PriceBand {
      match c
      case Budget => budget
      case MidRange => midRange
      case Luxury => luxury
    }
  }

  /** The nightly price bands (USD) by destination key, "default" for any other key. Every
      band is a non-empty range inside the validity window 10..1000. */
  function DestinationPrices(key: string): (p: PriceBands)
    ensures forall c: Category :: 10 <= p.Band(c).low <= p.Band(c).high <= 1000
  {
    if key == "goa" then PriceBands(PriceBand(25, 60), PriceBand(60, 120), PriceBand(120, 300))
    else if key == "bangalore" then PriceBands(PriceBand(20, 50), PriceBand(50, 100), PriceBand(100, 250))
    else if key == "delhi" then PriceBands(PriceBand(15, 45), PriceBand(45, 90), PriceBand(90, 200))
    else if key == "mumbai" then PriceBands(PriceBand(25, 65), PriceBand(65, 130), PriceBand(130, 350))
    else PriceBands(PriceBand(20, 55), PriceBand(55, 110), PriceBand(110, 280))
  }

  const LuxuryIndicators: seq<string> :=
    ["taj", "oberoi", "itc", "leela", "hyatt", "marriott", "radisson", "resort", "palace"]
  const BudgetIndicators: seq<string> := ["lodging", "inn", "guesthouse", "hostel", "budget"]

  /** Python truthiness of the optional `budget` argument: absent and 0.0 are false. */
  predicate Truthy(budget: Option<real>) {
    budget.Some? && budget.value != 0.0
  }

  /** The category choice of `_get_realistic_pricing`. */
  function HotelCategory(name: string, budget: Option<real>): (c: Category)
    ensures c == Luxury <==>
      AnyIn(LuxuryIndicators, Lower(name)) || (Truthy(budget) && budget.value > 150.0)
    ensures c == Budget <==>
      && !AnyIn(LuxuryIndicators, Lower(name)) && !(Truthy(budget) && budget.value > 150.0)
      && (AnyIn(BudgetIndicators, Lower(name)) || (Truthy(budget) && budget.value < 50.0))
  {
    var n := Lower(name);
    if AnyIn(LuxuryIndicators, n) || (Truthy(budget) && budget.value > 150.0) then Luxury
    else if AnyIn(BudgetIndicators, n) || (Truthy(budget) && budget.value < 50.0) then Budget
    else MidRange
  }

  /** A budget of 0.0 is falsy, so it behaves exactly like no budget at all (while any
      negative budget counts as a small one). */
  lemma ZeroBudgetIsNoBudget(name: string)
    ensures HotelCategory(name, Some(0.0)) == HotelCategory(name, None)
    ensures HotelCategory(name, Some(-1.0)) == Luxury || HotelCategory(name, Some(-1.0)) == Budget
  {
  }

  /** Among non-zero budgets, a larger budget never gives a lower category. */
  lemma HotelCategoryMonotone(name: string, b1: real, b2: real)
    requires b1 != 0.0 && b2 != 0.0 && b1 <= b2
    ensures HotelCategory(name, Some(b1)).Rank() <= HotelCategory(name, Some(b2)).Rank()
  {
  }

  datatype PriceInfo = PriceInfo(price: int, category: Category)

  /** `_get_realistic_pricing`, with the `randint` draw supplied as `seed`. */
  function RealisticPricing(destination: string, budget: Option<real>, name: string, seed: nat)
    : (p: PriceInfo)
    ensures var band := DestinationPrices(DestinationKey(destination)).Band(p.category);
      band.low <= p.price <= band.high
    ensures 10 <= p.price <= 1000
  {
    var category := HotelCategory(name, budget);
    var band := DestinationPrices(DestinationKey(destination)).Band(category);
    PriceInfo(RandInt(band.low, band.high, seed), category)
  }

  /** Every price of the band is the outcome of some draw. */
  lemma RealisticPricingCoversBand(destination: string, budget: Option<real>, name: string, v: int)
    requires var band := DestinationPrices(DestinationKey(destination)).Band(HotelCategory(name, budget));
      band.low <= v <= band.high
    ensures exists seed: nat :: RealisticPricing(destination, budget, name, seed).price == v
  {
    var band := DestinationPrices(DestinationKey(destination)).Band(HotelCategory(name, budget));
    RandIntCovers(band.low, band.high, v);
    assert RealisticPricing(destination, budget, name, (v - band.low) as nat).price == v;
  }

  const BaseAmenities: seq<string> := ["Free WiFi", "Air Conditioning"]
  const BudgetAmenities: seq<string> := BaseAmenities + ["TV", "24/7 Front Desk", "Housekeeping"]
  const MidRangeAmenities: seq<string> :=
    BaseAmenities + ["Swimming Pool", "Restaurant", "Room Service", "Fitness Center", "Parking"]
  const LuxuryAmenities: seq<string> :=
    BaseAmenities + ["Spa", "Fine Dining", "Concierge", "Business Center",
    "Luxury Toiletries", "Poolside Bar", "Airport Transfer", "Butler Service"]

  /** `_generate_realistic_amenities`: the two base amenities, then the category's own. */
  function HotelAmenities(c: Category): (r: seq<string>)
    ensures |r| >= 2 && r[..2] == BaseAmenities
    ensures |r| == match c case Budget => 5 case MidRange => 7 case Luxury => 10
  {
    match c
    case Budget => BudgetAmenities
    case MidRange => MidRangeAmenities
    case Luxury => LuxuryAmenities
  }

  const BudgetLead: string := "Comfortable and affordable accommodation in "
  const MidRangeLead: string := "Excellent mid-range hotel in "
  const LuxuryLead: string := "Luxurious 5-star experience in "
  const BudgetTail: string :=
    ". Perfect for budget-conscious travelers looking for clean, basic amenities and convenient location."
  const MidRangeTail: string :=
    " offering great value. Features modern amenities, comfortable rooms, and quality service for both business and leisure travelers."
  const LuxuryTail: string :=
    ". Offers premium amenities, exquisite dining, and exceptional service in a prime location. Perfect for discerning travelers."

  /** `_generate_hotel_description`: never empty, and it names the destination. Its `.get`
      default is unreachable: the category is always one of the three keys. */
  function HotelDescription(name: string, destination: string, c: Category): (r: string)
    ensures |r| > |destination|
    ensures Contains(r, destination)
  {
    var lead := match c case Budget => BudgetLead case MidRange => MidRangeLead case Luxury => LuxuryLead;
    var tail := match c case Budget => BudgetTail case MidRange => MidRangeTail case Luxury => LuxuryTail;
    assert OccursAt(destination, destination, 0);
    ContainsInContext(lead, destination, tail, destination);
    lead + destination + tail
  }

  // =================================================================================
  // Parsing a hotel hit
  // =================================================================================

  /** The random draws of one hotel record. */
  datatype HotelDraw = HotelDraw(price: nat, rating: nat, reviews: nat, sustainability: nat, distance: nat)

  const SustainabilityLabels: seq<string> := ["Eco-friendly", "Green certified", "Standard"]

  const HotelSkipIndicators: seq<string> :=
    ["booking.com", "tripadvisor", "agoda", "make my trip", "yatra", "expedia"]

  /** One hit of the hotel search with the name the regular-expression extractor produced
      for it (None when it produced none) and the draws for its random fields. */
  datatype HotelHit = HotelHit(hit: SearchHit, extractedName: Option<string>, draw: HotelDraw)

  /** `_parse_hotel_search_result`: None for a booking-site title or a missing or short
      name; otherwise a hotel record, which always passes `_is_valid_hotel`. */
  function ParsedHotel(h: HotelHit, destination: string, budget: Option<real>): (r: Option<Hotel>)
    ensures r.Some? <==>
      !AnyIn(HotelSkipIndicators, Lower(h.hit.title)) && h.extractedName.Some? && |h.extractedName.value| >= 3
    ensures r.Some? ==> IsValidHotel(r.value) && r.value.name == h.extractedName.value
  {
    if AnyIn(HotelSkipIndicators, Lower(h.hit.title)) then None
    else if h.extractedName.None? || |h.extractedName.value| < 3 then None
    else
      var name := h.extractedName.value;
      var info := RealisticPricing(destination, budget, name, h.draw.price);
      Some(Hotel(
        name := name,
        description := HotelDescription(name, destination, info.category),
        pricePerNight := info.price,
        priceRange := info.category.Name(),
        rating := RandInt(38, 47, h.draw.rating) as real / 10.0,
        reviews := RandInt(50, 2000, h.draw.reviews),
        amenities := HotelAmenities(info.category),
        location := destination,
        url := h.hit.href,
        kind := "Hotel",
        sustainability := Choice(SustainabilityLabels, h.draw.sustainability),
        distanceCenter := IntToString(RandInt(1, 12, h.draw.distance)) + " km",
        source := "web_search"))
  }

  // =================================================================================
  // Template hotels
  // =================================================================================

  /** A template's `type` is never read: the category is recomputed from the name. */
  datatype HotelTemplate = HotelTemplate(baseName: string, kind: Category)

  const GoaHotels: seq<HotelTemplate> := [
    HotelTemplate("Taj Fort Aguada Resort", Luxury),
    HotelTemplate("The Leela Goa", Luxury),
    HotelTemplate("Alila Diwa Goa", Luxury),
    HotelTemplate("Novotel Goa Resort", MidRange),
    HotelTemplate("Goa Marriott Resort", MidRange),
    HotelTemplate("Coconut Grove Beach Resort", MidRange),
    HotelTemplate("Sea Princess Beach Hotel", Budget),
    HotelTemplate("Casa Britona", Budget)]
  const BangaloreHotels: seq<HotelTemplate> := [
    HotelTemplate("ITC Gardenia", Luxury),
    HotelTemplate("The Oberoi Bengaluru", Luxury),
    HotelTemplate("Taj West End", Luxury),
    HotelTemplate("Radisson Blu Bengaluru", MidRange),
    HotelTemplate("Lemon Tree Premier", MidRange),
    HotelTemplate("Ibis Bengaluru", MidRange),
    HotelTemplate("Hotel Royal Orchid", Budget),
    HotelTemplate("Treebo Trend Stay", Budget)]
  const DefaultHotels: seq<HotelTemplate> := [
    HotelTemplate("Grand Plaza Hotel", Luxury),
    HotelTemplate("Royal Heritage Stay", MidRange),
    HotelTemplate("City Center Inn", MidRange),
    HotelTemplate("Comfort Suites", Budget)]

  /** The hotel templates by destination key, the default list for any other key. */
  function DestinationHotels(key: string): (r: seq<HotelTemplate>)
    ensures forall i :: 0 <= i < |r| ==> |r[i].baseName| >= 3
  {
    if key == "goa" then GoaHotels
    else if key == "bangalore" then BangaloreHotels
    else DefaultHotels
  }

  /** No template list repeats a name. */
  lemma DestinationHotelsNamed(key: string)
    ensures forall i, j :: 0 <= i < j < |DestinationHotels(key)| ==>
      DestinationHotels(key)[i].baseName != DestinationHotels(key)[j].baseName
  {
  }

  /** One record built from a template. */
  function TemplateHotel(t: HotelTemplate, destination: string, budget: Option<real>, d: HotelDraw)
    : (h: Hotel)
    requires |t.baseName| >= 3
    ensures h.name == t.baseName && IsValidHotel(h)
  {
    var info := RealisticPricing(destination, budget, t.baseName, d.price);
    Hotel(
      name := t.baseName,
      description := HotelDescription(t.baseName, destination, info.category),
      pricePerNight := info.price,
      priceRange := info.category.Name(),
      rating := RandInt(39, 48, d.rating) as real / 10.0,
      reviews := RandInt(100, 2500, d.reviews),
      amenities := HotelAmenities(info.category),
      location := destination,
      url := "https://example.com/" + Slug(t.baseName),
      kind := "Hotel",
      sustainability := Choice(SustainabilityLabels, d.sustainability),
      distanceCenter := IntToString(RandInt(1, 10, d.distance)) + " km",
      source := "enhanced_mock")
  }

  /** The template records, in template order. */
  function TemplateHotels(ts: seq<HotelTemplate>, destination: string, budget: Option<real>,
                          draws: seq<HotelDraw>): (r: seq<Hotel>)
    requires |draws| == |ts|
    requires forall i :: 0 <= i < |ts| ==> |ts[i].baseName| >= 3
    ensures |r| == |ts|
  {
    if ts == [] then []
    else
      TemplateHotels(ts[..|ts| - 1], destination, budget, draws[..|draws| - 1])
      + [TemplateHotel(ts[|ts| - 1], destination, budget, draws[|draws| - 1])]
  }

  /** Record `i` carries template `i`'s name and is valid. */
  lemma {:induction false} TemplateHotelsFacts(ts: seq<HotelTemplate>, destination: string,
                                               budget: Option<real>, draws: seq<HotelDraw>)
    requires |draws| == |ts|
    requires forall i :: 0 <= i < |ts| ==> |ts[i].baseName| >= 3
    ensures var r := TemplateHotels(ts, destination, budget, draws);
      forall i :: 0 <= i < |r| ==> r[i].name == ts[i].baseName && IsValidHotel(r[i])
  {
    if ts != [] {
      var n := |ts| - 1;
      TemplateHotelsFacts(ts[..n], destination, budget, draws[..n]);
      var front := TemplateHotels(ts[..n], destination, budget, draws[..n]);
      var last := TemplateHotel(ts[n], destination, budget, draws[n]);
      var r := TemplateHotels(ts, destination, budget, draws);
      assert r == front + [last];
      forall i | 0 <= i < |r|
        ensures r[i].name == ts[i].baseName && IsValidHotel(r[i])
      {
        if i < n {
          assert r[i] == front[i];
          assert ts[..n][i] == ts[i];
        } else {
          assert r[i] == last;
        }
      }
    }
  }

  /** The templates `_generate_destination_specific_hotels` uses: the first six for the
      lower-cased destination, or the default list. */
  function UsedTemplates(destination: string): (r: seq<HotelTemplate>)
    ensures |r| <= 6
  {
    Take(DestinationHotels(DestinationKey(destination)), 6)
  }

  lemma UsedTemplatesNamed(destination: string)
    ensures forall i :: 0 <= i < |UsedTemplates(destination)| ==>
      |UsedTemplates(destination)[i].baseName| >= 3
  {
    var all := DestinationHotels(DestinationKey(destination));
    var ts := UsedTemplates(destination);
    forall i | 0 <= i < |ts| ensures |ts[i].baseName| >= 3 {
      assert ts[i] == all[i];
    }
  }

  /** One more round of the generating loop appends the next template's record. */
  lemma TemplateHotelsPrefix(ts: seq<HotelTemplate>, destination: string, budget: Option<real>,
                             draws: seq<HotelDraw>, i: nat)
    requires |draws| == |ts| && i < |ts|
    requires forall k :: 0 <= k < |ts| ==> |ts[k].baseName| >= 3
    ensures TemplateHotels(ts[..i + 1], destination, budget, draws[..i + 1])
         == TemplateHotels(ts[..i], destination, budget, draws[..i])
            + [TemplateHotel(ts[i], destination, budget, draws[i])]
  {
    assert ts[..i + 1][..i] == ts[..i];
    assert draws[..i + 1][..i] == draws[..i];
  }

  /** `_generate_destination_specific_hotels`: one valid record per used template, in
      order and under the template's name, so the names are pairwise distinct. */
  method GenerateDestinationSpecificHotels(destination: string, budget: Option<real>,
                                           draws: seq<HotelDraw>) returns (hotels: seq<Hotel>)
    requires |draws| == |UsedTemplates(destination)|
    ensures hotels == TemplateHotels(UsedTemplates(destination), destination, budget, draws)
    ensures |hotels| == |UsedTemplates(destination)| <= 6
    ensures forall i :: 0 <= i < |hotels| ==>
      hotels[i].name == UsedTemplates(destination)[i].baseName && IsValidHotel(hotels[i])
    ensures forall i, j :: 0 <= i < j < |hotels| ==> hotels[i].name != hotels[j].name
  {
    var templates := UsedTemplates(destination);
    UsedTemplatesNamed(destination);
    hotels := BuildTemplateHotels(templates, destination, budget, draws);
    TemplateNamesDistinct(destination);
  }

  /** The generating loop: one record per template, in order. */
  method BuildTemplateHotels(templates: seq<HotelTemplate>, destination: string, budget: Option<real>,
                             draws: seq<HotelDraw>) returns (hotels: seq<Hotel>)
    requires |draws| == |templates|
    requires forall k :: 0 <= k < |templates| ==> |templates[k].baseName| >= 3
    ensures hotels == TemplateHotels(templates, destination, budget, draws)
    ensures forall i :: 0 <= i < |hotels| ==> hotels[i].name == templates[i].baseName && IsValidHotel(hotels[i])
  {
    hotels := [];
    for i := 0 to |templates|
      invariant hotels == TemplateHotels(templates[..i], destination, budget, draws[..i])
    {
      TemplateHotelsPrefix(templates, destination, budget, draws, i);
      hotels := hotels + [TemplateHotel(templates[i], destination, budget, draws[i])];
    }
    assert templates[..|templates|] == templates;
    assert draws[..|draws|] == draws;
    TemplateHotelsFacts(templates, destination, budget, draws);
  }

  lemma TemplateNamesDistinct(destination: string)
    ensures forall i, j :: 0 <= i < j < |UsedTemplates(destination)| ==>
      UsedTemplates(destination)[i].baseName != UsedTemplates(destination)[j].baseName
  {
    var all := DestinationHotels(DestinationKey(destination));
    var ts := UsedTemplates(destination);
    DestinationHotelsNamed(DestinationKey(destination));
    assert ts <= all;
    forall i, j | 0 <= i < j < |ts| ensures ts[i].baseName != ts[j].baseName {
      assert ts[i] == all[i] && ts[j] == all[j];
    }
  }

  /** The template's `type` is ignored: "Novotel Goa Resort" is listed as mid-range, but
      "resort" is a luxury indicator, so it is priced in the luxury band. */
  lemma NovotelGoaIsPricedAsLuxury(budget: Option<real>)
    ensures DestinationHotels("goa")[3].kind == MidRange
    ensures HotelCategory(DestinationHotels("goa")[3].baseName, budget) == Luxury
  {
    var n := "Novotel Goa Resort";
    var s := Lower(n);
    assert s[12..18] == "resort";
    ContainsAt(s, "resort", 12);
    assert LuxuryIndicators[7] == "resort";
  }

  // =================================================================================
  // search_hotels
  // =================================================================================

  function Names(hs: seq<Hotel>): (r: seq<string>)
    ensures |r| == |hs|
  {
    seq(|hs|, i requires 0 <= i < |hs| => hs[i].name)
  }

  lemma NamesAppend(hs: seq<Hotel>, h: Hotel)
    ensures Names(hs + [h]) == Names(hs) + [h.name]
  {
  }

  /** The parse outcomes of the hits, in order. */
  function ParsedHotels(hits: seq<HotelHit>, destination: string, budget: Option<real>)
    : (r: seq<Option<Hotel>>)
    ensures |r| == |hits|
  {
    if hits == [] then []
    else ParsedHotels(hits[..|hits| - 1], destination, budget)
         + [ParsedHotel(hits[|hits| - 1], destination, budget)]
  }

  /** The collection loop of `search_hotels`: keep a parsed, valid record unless a record
      of the same name is already kept. Names are pairwise distinct, every kept record
      is valid and was found, and every valid record found is represented by its name. */
  function Collect(found: seq<Option<Hotel>>): (r: seq<Hotel>)
    ensures forall i, j :: 0 <= i < j < |r| ==> r[i].name != r[j].name
    ensures forall i :: 0 <= i < |r| ==> IsValidHotel(r[i]) && Some(r[i]) in found
    ensures forall k :: 0 <= k < |found| && found[k].Some? && IsValidHotel(found[k].value) ==>
      found[k].value.name in Names(r)
    ensures |r| <= |found|
  {
    if found == [] then []
    else
      var front := found[..|found| - 1];
      var acc := Collect(front);
      var c := found[|found| - 1];
      assert forall k :: 0 <= k < |front| ==> front[k] == found[k];
      assert forall x :: x in front ==> x in found;
      if c.Some? && IsValidHotel(c.value) && c.value.name !in Names(acc) then
        NamesAppend(acc, c.value);
        acc + [c.value]
      else acc
  }

  lemma ParsedHotelsStep(hits: seq<HotelHit>, i: nat, destination: string, budget: Option<real>)
    requires i < |hits|
    ensures ParsedHotels(hits[..i + 1], destination, budget)
         == ParsedHotels(hits[..i], destination, budget) + [ParsedHotel(hits[i], destination, budget)]
  {
    assert hits[..i + 1][..i] == hits[..i];
  }

  lemma CollectStep(front: seq<Option<Hotel>>, x: Option<Hotel>)
    ensures Collect(front + [x]) ==
      if x.Some? && IsValidHotel(x.value) && x.value.name !in Names(Collect(front)) then
        Collect(front) + [x.value]
      else Collect(front)
  {
    assert (front + [x])[..|front|] == front;
  }

  /** The collection loop of `search_hotels`: each hit is parsed in turn and kept under the
      rule of `Collect`. */
  method CollectHotels(destination: string, budget: Option<real>, hits: seq<HotelHit>)
    returns (collected: seq<Hotel>)
    ensures collected == Collect(ParsedHotels(hits, destination, budget))
  {
    collected := [];
    for i := 0 to |hits|
      invariant collected == Collect(ParsedHotels(hits[..i], destination, budget))
    {
      var hotel := ParsedHotel(hits[i], destination, budget);
      ParsedHotelsStep(hits, i, destination, budget);
      CollectStep(ParsedHotels(hits[..i], destination, budget), hotel);
      if hotel.Some? && IsValidHotel(hotel.value) && hotel.value.name !in Names(collected) {
        collected := collected + [hotel.value];
      }
    }
    assert hits[..|hits|] == hits;
  }

  /** `search_hotels` given the hits of its first two queries, in order (a failing query
      contributes no hit) and the draws for the template fallback. With three or more
      distinct valid hotels it returns the first six of them, otherwise the template
      hotels; either way at most six valid hotels with pairwise-distinct names. */
  method SearchHotels(destination: string, budget: Option<real>, hits: seq<HotelHit>,
                      draws: seq<HotelDraw>) returns (hotels: seq<Hotel>)
    requires |draws| == |UsedTemplates(destination)|
    ensures var found := Collect(ParsedHotels(hits, destination, budget));
      hotels == if |found| >= 3 then Take(found, 6)
                else TemplateHotels(UsedTemplates(destination), destination, budget, draws)
    ensures |hotels| <= 6
    ensures forall i :: 0 <= i < |hotels| ==> IsValidHotel(hotels[i])
    ensures forall i, j :: 0 <= i < j < |hotels| ==> hotels[i].name != hotels[j].name
  {
    var collected := CollectHotels(destination, budget, hits);
    if |collected| >= 3 {
      hotels := Take(collected, 6);
    } else {
      hotels := GenerateDestinationSpecificHotels(destination, budget, draws);
    }
  }

  // =================================================================================
  // Attractions
  // =================================================================================

  /** `description[:200] + "..." if len(description) > 200 else description`: at most 203
      characters, a long description keeps its first 200. */
  function ShortDescription(d: string): (r: string)
    ensures |r| <= 203
    ensures |d| <= 200 ==> r == d
    ensures |d| > 200 ==> |r| == 203 && d[..200] <= r
  {
    if |d| > 200 then d[..200] + "..." else d
  }

  datatype AttractionDraw = AttractionDraw(rating: nat, priceRange: nat, duration: nat)

  const PriceLabels: seq<string> := ["Free", "$", "$$"]

  const AttractionSkipIndicators: seq<string> :=
    ["tripadvisor", "booking.com", "search results", "wikipedia"]

  datatype AttractionHit = AttractionHit(hit: SearchHit, draw: AttractionDraw)

  /** `_parse_attraction_result`: None for a skipped title or a cleaned name shorter than
      three characters. The category is taken from the full description. */
  function ParsedAttraction(h: AttractionHit): (r: Option<Attraction>)
    ensures r.Some? <==>
      !AnyIn(AttractionSkipIndicators, Lower(h.hit.title)) && |CleanName(h.hit.title)| >= 3
    ensures r.Some? ==> |r.value.description| <= 203
  {
    if AnyIn(AttractionSkipIndicators, Lower(h.hit.title)) then None
    else
      var name := CleanName(h.hit.title);
      if |name| < 3 then None
      else Some(Attraction(
        name := name,
        description := ShortDescription(h.hit.body),
        category := CategorizeAttraction(h.hit.body),
        rating := RandInt(38, 49, h.draw.rating) as real / 10.0,
        priceRange := Choice(PriceLabels, h.draw.priceRange),
        duration := IntToString(RandInt(1, 4, h.draw.duration)) + " hours",
        url := h.hit.href,
        source := "web_search"))
  }

  datatype AttractionEntry = AttractionEntry(name: string, category: string, description: string)

  const GoaAttractions: seq<AttractionEntry> := [
    AttractionEntry("Calangute Beach", "Beach", "Queen of beaches in Goa, famous for water sports and beach shacks"),
    AttractionEntry("Basilica of Bom Jesus", "Historical", "UNESCO World Heritage site with Baroque architecture and St. Francis Xavier's tomb"),
    AttractionEntry("Dudhsagar Falls", "Nature", "Majestic four-tiered waterfall on Mandovi River in the jungle"),
    AttractionEntry("Fort Aguada", "Historical", "17th-century Portuguese fort with lighthouse overlooking Arabian Sea"),
    AttractionEntry("Anjuna Flea Market", "Shopping", "Famous Wednesday flea market with clothes, jewelry and handicrafts"),
    AttractionEntry("Palolem Beach", "Beach", "Scenic crescent-shaped beach in South Goa with silent parties")]
  const BangaloreAttractions: seq<AttractionEntry> := [
    AttractionEntry("Lalbagh Botanical Garden", "Nature", "Famous botanical garden with glass house and rare plant species"),
    AttractionEntry("Bangalore Palace", "Historical", "Royal palace inspired by England's Windsor Castle"),
    AttractionEntry("Cubbon Park", "Nature", "Historic park in city center perfect for walking and relaxation"),
    AttractionEntry("ISKCON Temple", "Cultural", "Beautiful Hindu temple dedicated to Lord Krishna"),
    AttractionEntry("Vidhana Soudha", "Architecture", "Magnificent building housing Karnataka's legislative assembly"),
    AttractionEntry("Commercial Street", "Shopping", "Popular shopping destination for clothes and accessories")]

  /** The attraction database by destination key; other keys have no entries. */
  function AttractionDatabase(key: string): (r: seq<AttractionEntry>)
    ensures |r| <= 6
  {
    if key == "goa" then GoaAttractions
    else if key == "bangalore" then BangaloreAttractions
    else []
  }

  /** One database entry completed with its random fields. The URL uses the destination
      as given, not lower-cased. */
  function DatabaseAttraction(e: AttractionEntry, destination: string, d: AttractionDraw): (a: Attraction)
    ensures a.name == e.name && a.category == e.category && a.source == "destination_database"
  {
    Attraction(
      name := e.name,
      description := e.description,
      category := e.category,
      rating := RandInt(40, 48, d.rating) as real / 10.0,
      priceRange := Choice(PriceLabels, d.priceRange),
      duration := IntToString(RandInt(1, 3, d.duration)) + " hours",
      url := "https://example.com/" + destination + "-" + Slug(e.name),
      source := "destination_database")
  }

  /** `_get_destination_specific_attractions` */
  function DestinationAttractions(destination: string, draws: seq<AttractionDraw>): (r: seq<Attraction>)
    requires |draws| == |AttractionDatabase(DestinationKey(destination))|
    ensures |r| == |AttractionDatabase(DestinationKey(destination))| <= 6
    ensures forall i :: 0 <= i < |r| ==> r[i].name == AttractionDatabase(DestinationKey(destination))[i].name
  {
    var db := AttractionDatabase(DestinationKey(destination));
    seq(|db|, i requires 0 <= i < |db| => DatabaseAttraction(db[i], destination, draws[i]))
  }

  function AttractionNames(xs: seq<Attraction>): (r: seq<string>)
    ensures |r| == |xs|
  {
    seq(|xs|, i requires 0 <= i < |xs| => xs[i].name)
  }

  lemma AttractionNamesAppend(xs: seq<Attraction>, x: Attraction)
    ensures AttractionNames(xs + [x]) == AttractionNames(xs) + [x.name]
  {
  }

  /** The parse outcomes of the hits, in order. */
  function ParsedAttractions(hits: seq<AttractionHit>): (r: seq<Option<Attraction>>)
    ensures |r| == |hits|
  {
    if hits == [] then []
    else ParsedAttractions(hits[..|hits| - 1]) + [ParsedAttraction(hits[|hits| - 1])]
  }

  /** The first loop of `search_attractions`: keep each parsed record not already kept.
      Records are compared whole, so two records with the same name but different fields
      are both kept. */
  function Unique(found: seq<Option<Attraction>>): (r: seq<Attraction>)
    ensures forall i, j :: 0 <= i < j < |r| ==> r[i] != r[j]
    ensures forall i :: 0 <= i < |r| ==> Some(r[i]) in found
    ensures forall k :: 0 <= k < |found| && found[k].Some? ==> found[k].value in r
    ensures |r| <= |found|
  {
    if found == [] then []
    else
      var front := found[..|found| - 1];
      var acc := Unique(front);
      var c := found[|found| - 1];
      assert forall k :: 0 <= k < |front| ==> front[k] == found[k];
      assert forall x :: x in front ==> x in found;
      if c.Some? && c.value !in acc then acc + [c.value] else acc
  }

  /** The top-up loop: append each database record whose name is not yet present. The
      list keeps its prefix, and afterwards every database name is present. */
  function TopUp(acc: seq<Attraction>, defaults: seq<Attraction>): (r: seq<Attraction>)
    ensures acc <= r
    ensures forall i :: 0 <= i < |defaults| ==> defaults[i].name in AttractionNames(r)
    ensures forall i :: |acc| <= i < |r| ==> r[i] in defaults && r[i].name !in AttractionNames(acc)
  {
    if defaults == [] then acc
    else
      var front := TopUp(acc, defaults[..|defaults| - 1]);
      var d := defaults[|defaults| - 1];
      assert forall i :: 0 <= i < |defaults| - 1 ==> defaults[..|defaults| - 1][i] == defaults[i];
      assert forall x :: x in defaults[..|defaults| - 1] ==> x in defaults;
      if d.name in AttractionNames(front) then front
      else
        AttractionNamesAppend(front, d);
        assert AttractionNames(acc) <= AttractionNames(front);
        front + [d]
  }

  lemma ParsedAttractionsStep(hits: seq<AttractionHit>, i: nat)
    requires i < |hits|
    ensures ParsedAttractions(hits[..i + 1]) == ParsedAttractions(hits[..i]) + [ParsedAttraction(hits[i])]
  {
    assert hits[..i + 1][..i] == hits[..i];
  }

  lemma UniqueStep(front: seq<Option<Attraction>>, x: Option<Attraction>)
    ensures Unique(front + [x]) ==
      if x.Some? && x.value !in Unique(front) then Unique(front) + [x.value] else Unique(front)
  {
    assert (front + [x])[..|front|] == front;
  }

  /** The first loop of `search_attractions`. */
  method CollectAttractions(hits: seq<AttractionHit>) returns (found: seq<Attraction>)
    ensures found == Unique(ParsedAttractions(hits))
  {
    found := [];
    for i := 0 to |hits|
      invariant found == Unique(ParsedAttractions(hits[..i]))
    {
      var a := ParsedAttraction(hits[i]);
      ParsedAttractionsStep(hits, i);
      UniqueStep(ParsedAttractions(hits[..i]), a);
      if a.Some? && a.value !in found {
        found := found + [a.value];
      }
    }
    assert hits[..|hits|] == hits;
  }

  /** The top-up loop of `search_attractions`. */
  method AddDefaults(found: seq<Attraction>, defaults: seq<Attraction>) returns (merged: seq<Attraction>)
    ensures merged == TopUp(found, defaults)
  {
    merged := found;
    for i := 0 to |defaults|
      invariant merged == TopUp(found, defaults[..i])
    {
      assert defaults[..i + 1][..i] == defaults[..i];
      if defaults[i].name !in AttractionNames(merged) {
        merged := merged + [defaults[i]];
      }
    }
    assert defaults[..|defaults|] == defaults;
  }

  /** `search_attractions`, given the search outcome (None when the search raised) and the
      draws for the database records. It tops up from the database only when fewer than four
      distinct records were parsed, and caps the list at eight. */
  method SearchAttractions(destination: string, search: Option<seq<AttractionHit>>,
                           draws: seq<AttractionDraw>) returns (attractions: seq<Attraction>)
    requires |draws| == |AttractionDatabase(DestinationKey(destination))|
    ensures search.None? ==> attractions == DestinationAttractions(destination, draws)
    ensures search.Some? ==>
      var found := Unique(ParsedAttractions(search.value));
      attractions == Take(if |found| < 4 then TopUp(found, DestinationAttractions(destination, draws))
                          else found, 8)
    ensures |attractions| <= 8
  {
    if search.None? {
      return DestinationAttractions(destination, draws);
    }
    var found := CollectAttractions(search.value);
    if |found| < 4 {
      found := AddDefaults(found, DestinationAttractions(destination, draws));
    }
    attractions := Take(found, 8);
  }
}
