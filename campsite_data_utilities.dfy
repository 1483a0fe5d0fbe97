/** The campsite helpers of HandsUpSOS/CampsiteDataUtilities.swift: the
    validator, the formatters that list amenities and emergency details, and
    the aggregation of search suggestions and filter options over a list of
    campsites. */
module CampsiteDataUtilities {
  import opened Options
  import opened Sequences
  import opened Text
  import opened CampsiteModel
  import opened CampsiteStore

  // ---------------------------------------------------------------------------
  // Validation
  // ---------------------------------------------------------------------------

  const NameRequired := "Campsite name is required"
  const AddressRequired := "Address is required"
  const RatingOutOfRange := "Rating must be between 1 and 5"
  const OccupancyTooSmall := "Maximum occupancy must be at least 1"

  /** The four messages in the order the checks run. */
  const ValidationMessages: seq<string> :=
    [NameRequired, AddressRequired, RatingOutOfRange, OccupancyTooSmall]

  /** Which of the four checks fail. */
  function ValidationFailures(c: Campsite): (flags: seq<bool>)
    ensures |flags| == 4
  {
    [ Trim(c.name) == "",
      Trim(c.address) == "",
      c.rating < 1 || c.rating > 5,
      c.maxOccupancy.Some? && c.maxOccupancy.value < 1 ]
  }

  /** A campsite the validator accepts. */
  predicate IsValid(c: Campsite) {
    && !IsBlank(c.name)
    && !IsBlank(c.address)
    && 1 <= c.rating <= 5
    && (c.maxOccupancy.None? || c.maxOccupancy.value >= 1)
  }

  /** The messages of the failing checks: each message at most once, in the
      order name, address, rating, occupancy, and none exactly when the
      campsite is valid. */
  function ValidationErrors(c: Campsite): (errors: seq<string>)
    ensures SubseqOf(errors, ValidationMessages) && Distinct(errors)
    ensures errors == [] <==> IsValid(c)
    ensures NameRequired in errors <==> IsBlank(c.name)
    ensures AddressRequired in errors <==> IsBlank(c.address)
    ensures RatingOutOfRange in errors <==> !(1 <= c.rating <= 5)
    ensures OccupancyTooSmall in errors <==> c.maxOccupancy.Some? && c.maxOccupancy.value < 1
  {
    var flags := ValidationFailures(c);
    var errors := Select(ValidationMessages, flags);
    SelectSpec(ValidationMessages, flags);
    EmbeddingKeepsDistinct(TrueIndices(flags), errors, ValidationMessages);
    TrimEmptyIffBlank(c.name);
    TrimEmptyIffBlank(c.address);
    SelectMembership(ValidationMessages, flags, 0);
    SelectMembership(ValidationMessages, flags, 1);
    SelectMembership(ValidationMessages, flags, 2);
    SelectMembership(ValidationMessages, flags, 3);
    errors
  }

  /** `validateCampsiteData`: one conditional append per check. */
  method ValidateCampsiteData(c: Campsite) returns (errors: seq<string>)
    ensures errors == ValidationErrors(c)
  {
    var flags := ValidationFailures(c);
    errors := [];
    if Trim(c.name) == "" {
      errors := errors + [NameRequired];
    }
    if Trim(c.address) == "" {
      errors := errors + [AddressRequired];
    }
    if c.rating < 1 || c.rating > 5 {
      errors := errors + [RatingOutOfRange];
    }
    if c.maxOccupancy.Some? && c.maxOccupancy.value < 1 {
      errors := errors + [OccupancyTooSmall];
    }
    SelectOfFour(ValidationMessages, flags);
  }

  /** A campsite made by the clamping initialiser never fails the rating
      check. */
  lemma NewCampsitePassesRatingCheck(
    id: CampsiteId, now: Timestamp, name: string, location: Coordinate,
    notes: string, category: CampsiteCategory, rating: int)
    ensures RatingOutOfRange !in ValidationErrors(NewCampsite(id, now, name, location, notes, category, rating))
  {
    var c := NewCampsite(id, now, name, location, notes, category, rating);
    assert 1 <= c.rating <= 5;
  }

  // ---------------------------------------------------------------------------
  // Amenities
  // ---------------------------------------------------------------------------

  datatype AmenityType = Water | Electricity | Toilets | Showers | FirePit | BBQ | Parking {
    function Label(): string {
      match this
      case Water => "Water"
      case Electricity => "Electricity"
      case Toilets => "Toilets"
      case Showers => "Showers"
      case FirePit => "Fire Pit"
      case BBQ => "BBQ"
      case Parking => "Parking"
    }
  }

  /** `AmenityType.allCases`, in the order of the campsite's flags. */
  const AllAmenityTypes: seq<AmenityType> :=
    [Water, Electricity, Toilets, Showers, FirePit, BBQ, Parking]

  lemma AllAmenityTypesComplete()
    ensures forall a: AmenityType :: a in AllAmenityTypes
  {
    forall a: AmenityType ensures a in AllAmenityTypes {
      match a
      case Water => assert AllAmenityTypes[0] == a;
      case Electricity => assert AllAmenityTypes[1] == a;
      case Toilets => assert AllAmenityTypes[2] == a;
      case Showers => assert AllAmenityTypes[3] == a;
      case FirePit => assert AllAmenityTypes[4] == a;
      case BBQ => assert AllAmenityTypes[5] == a;
      case Parking => assert AllAmenityTypes[6] == a;
    }
  }

  /** The campsite's flag for amenity `a`. */
  predicate HasAmenity(c: Campsite, a: AmenityType) {
    match a
    case Water => c.hasWater
    case Electricity => c.hasElectricity
    case Toilets => c.hasToilets
    case Showers => c.hasShowers
    case FirePit => c.hasFirePit
    case BBQ => c.hasBBQ
    case Parking => c.hasParking
  }

  /** The entries `formatAmenities` appends, in the order of the flags. */
  const WaterEntry := "💧 Water"
  const ElectricityEntry := "⚡ Electricity"
  const ToiletsEntry := "🚽 Toilets"
  const ShowersEntry := "🚿 Showers"
  const FirePitEntry := "🔥 Fire Pit"
  const BBQEntry := "🍖 BBQ"
  const ParkingEntry := "🅿️ Parking"
  const AmenityEntries: seq<string> :=
    [WaterEntry, ElectricityEntry, ToiletsEntry, ShowersEntry, FirePitEntry, BBQEntry, ParkingEntry]

  lemma AmenityEntriesDistinct()
    ensures Distinct(AmenityEntries)
  {
  }

  /** Some amenity flag is set (`CampsiteRowView.hasAnyAmenities`). */
  predicate HasAnyAmenities(c: Campsite) {
    c.hasWater || c.hasElectricity || c.hasToilets || c.hasShowers
    || c.hasFirePit || c.hasBBQ || c.hasParking
  }

  lemma AnyAmenityFlag(c: Campsite)
    ensures HasAnyAmenities(c) <==> exists k :: 0 <= k < 7 && AmenityFlags(c)[k]
  {
    var flags := AmenityFlags(c);
    if HasAnyAmenities(c) {
      if c.hasWater { assert flags[0]; }
      else if c.hasElectricity { assert flags[1]; }
      else if c.hasToilets { assert flags[2]; }
      else if c.hasShowers { assert flags[3]; }
      else if c.hasFirePit { assert flags[4]; }
      else if c.hasBBQ { assert flags[5]; }
      else { assert flags[6]; }
    }
  }

  /** The entries of the campsite's set flags: one per set flag, in flag
      order, and none exactly when the campsite has no amenity. */
  function AmenityList(entries: seq<string>, c: Campsite): (r: seq<string>)
    requires |entries| == 7
    ensures |r| <= 7 && SubseqOf(r, entries)
    ensures r == [] <==> !HasAnyAmenities(c)
    ensures Distinct(entries) ==> Distinct(r)
    ensures Distinct(entries) ==> forall k :: 0 <= k < 7 ==> (entries[k] in r <==> AmenityFlags(c)[k])
  {
    var flags := AmenityFlags(c);
    SelectSpec(entries, flags);
    SelectFromDistinct(entries, flags);
    AnyAmenityFlag(c);
    Select(entries, flags)
  }

  /** One `if flag { list.append(entry) }` step. */
  method AppendWhen(list: seq<string>, flag: bool, entry: string) returns (r: seq<string>)
    ensures r == AppendIf(list, flag, entry)
  {
    r := list;
    if flag {
      r := r + [entry];
    }
  }

  /** `formatAmenities`: one conditional append per flag. */
  method FormatAmenities(c: Campsite) returns (amenities: seq<string>)
    ensures amenities == AmenityList(AmenityEntries, c)
  {
    var flags := AmenityFlags(c);
    amenities := [];
    amenities := AppendWhen(amenities, c.hasWater, WaterEntry);
    amenities := AppendWhen(amenities, c.hasElectricity, ElectricityEntry);
    amenities := AppendWhen(amenities, c.hasToilets, ToiletsEntry);
    amenities := AppendWhen(amenities, c.hasShowers, ShowersEntry);
    amenities := AppendWhen(amenities, c.hasFirePit, FirePitEntry);
    amenities := AppendWhen(amenities, c.hasBBQ, BBQEntry);
    amenities := AppendWhen(amenities, c.hasParking, ParkingEntry);
    SelectOfSeven(AmenityEntries, flags);
  }

  // ---------------------------------------------------------------------------
  // Accessibility, emergency and season lines
  // ---------------------------------------------------------------------------

  const AccessibleText := "♿ Wheelchair Accessible"
  const NotAccessibleText := "⚠️ Not wheelchair accessible"

  /** `formatAccessibilityInfo`: one of two fixed lines, chosen by the
      accessibility flag. */
  function FormatAccessibilityInfo(c: Campsite): (r: string)
    ensures r == AccessibleText || r == NotAccessibleText
    ensures r == AccessibleText <==> c.isAccessible
  {
    if c.isAccessible then AccessibleText else NotAccessibleText
  }

  const EmergencyPrefix := "🚨 Emergency: "
  const HospitalPrefix := "🏥 Hospital: "
  const PolicePrefix := "👮 Police: "
  const NotesPrefix := "📝 Notes: "

  /** The four lines `formatEmergencyInfo` may append, in order. */
  function EmergencyLines(c: Campsite): seq<string> {
    [ EmergencyPrefix + c.emergencyContact.GetOr(""),
      HospitalPrefix + c.nearestHospital.GetOr(""),
      PolicePrefix + c.nearestPolice.GetOr(""),
      NotesPrefix + c.emergencyNotes ]
  }

  /** Which of those lines are appended. */
  function EmergencyFlags(c: Campsite): seq<bool> {
    [c.emergencyContact.Some?, c.nearestHospital.Some?, c.nearestPolice.Some?, c.emergencyNotes != ""]
  }

  /** The emergency details of a campsite, one line per detail present, in
      the order contact, hospital, police, notes; empty exactly when the
      campsite has no emergency information. */
  function EmergencyInfo(c: Campsite): (r: seq<string>)
    ensures |r| <= 4 && SubseqOf(r, EmergencyLines(c))
    ensures r == [] <==> !HasEmergencyInfo(c)
    ensures c.emergencyContact.Some? <==> EmergencyPrefix + c.emergencyContact.GetOr("") in r
    ensures c.nearestHospital.Some? <==> HospitalPrefix + c.nearestHospital.GetOr("") in r
    ensures c.nearestPolice.Some? <==> PolicePrefix + c.nearestPolice.GetOr("") in r
    ensures c.emergencyNotes != "" <==> NotesPrefix + c.emergencyNotes in r
  {
    var lines, flags := EmergencyLines(c), EmergencyFlags(c);
    var r := Select(lines, flags);
    SelectSpec(lines, flags);
    assert lines[0][0] == '🚨' && lines[1][0] == '🏥' && lines[2][0] == '👮' && lines[3][0] == '📝';
    assert Distinct(lines);
    SelectMembership(lines, flags, 0);
    SelectMembership(lines, flags, 1);
    SelectMembership(lines, flags, 2);
    SelectMembership(lines, flags, 3);
    r
  }

  /** `formatEmergencyInfo`: one conditional append per detail. */
  method FormatEmergencyInfo(c: Campsite) returns (info: seq<string>)
    ensures info == EmergencyInfo(c)
  {
    var lines, flags := EmergencyLines(c), EmergencyFlags(c);
    info := [];
    if c.emergencyContact.Some? {
      info := info + [EmergencyPrefix + c.emergencyContact.value];
    }
    if c.nearestHospital.Some? {
      info := info + [HospitalPrefix + c.nearestHospital.value];
    }
    if c.nearestPolice.Some? {
      info := info + [PolicePrefix + c.nearestPolice.value];
    }
    if c.emergencyNotes != "" {
      info := info + [NotesPrefix + c.emergencyNotes];
    }
    SelectOfFour(lines, flags);
  }

  /** The emergency lines are empty exactly for the campsites the store's
      emergency query leaves out. */
  lemma EmergencyInfoAgreesWithQuery(m: CampsiteManager, c: Campsite)
    requires c in m.campsites
    ensures EmergencyInfo(c) != [] <==> c in m.GetCampsitesWithEmergencyInfo()
  {
    FilterSelects(m.campsites, (x: Campsite) => HasEmergencyInfo(x));
  }

  const AvailablePrefix := "📅 Available: "

  function SeasonLabels(seasons: seq<Season>): (labels: seq<string>)
    ensures |labels| == |seasons|
    ensures forall k :: 0 <= k < |seasons| ==> labels[k] == seasons[k].Label()
  {
    seq(|seasons|, k requires 0 <= k < |seasons| => seasons[k].Label())
  }

  lemma SeasonLabelsInJoin(seasons: seq<Season>, prefix: string)
    ensures forall s :: s in seasons ==> IsInfix(s.Label(), prefix + Join(SeasonLabels(seasons), ", "))
  {
    var labels := SeasonLabels(seasons);
    forall s | s in seasons ensures IsInfix(s.Label(), prefix + Join(labels, ", ")) {
      var k :| 0 <= k < |seasons| && seasons[k] == s;
      JoinContainsParts(labels, ", ", k);
      InfixAfterPrefix(labels[k], Join(labels, ", "), prefix);
    }
  }

  /** The season names a reader gets back from an availability text: what
      follows the prefix, split at the commas and trimmed; none when nothing
      follows the prefix. */
  function ListedSeasons(text: string): seq<string>
    requires AvailablePrefix <= text
  {
    var rest := text[|AvailablePrefix|..];
    if rest == "" then [] else TrimEach(Split(rest, ','))
  }

  /** Season labels hold no comma and no surrounding whitespace, and no two
      seasons share one. */
  lemma SeasonLabelsPlain()
    ensures forall s: Season :: ',' !in s.Label() && Trim(s.Label()) == s.Label() && s.Label() != ""
    ensures forall a: Season, b: Season :: a.Label() == b.Label() ==> a == b
  {
    forall s: Season ensures ',' !in s.Label() && Trim(s.Label()) == s.Label() && s.Label() != "" {
      var l := s.Label();
      assert !IsWhitespace(l[0]) && !IsWhitespace(l[|l| - 1]);
      assert TrimStart(l) == l;
    }
  }

  /** A season's label is among the labels of a season list exactly when the
      season is in the list. */
  lemma SeasonLabelsMembership(seasons: seq<Season>)
    ensures forall s: Season :: s.Label() in SeasonLabels(seasons) <==> s in seasons
  {
    var labels := SeasonLabels(seasons);
    SeasonLabelsPlain();
    forall s: Season ensures s.Label() in labels <==> s in seasons {
      if s.Label() in labels {
        var k :| 0 <= k < |labels| && labels[k] == s.Label();
        assert seasons[k] == s;
      }
      if s in seasons {
        var k :| 0 <= k < |seasons| && seasons[k] == s;
        assert labels[k] == s.Label();
      }
    }
  }

  /** The availability text reads back as exactly the campsite's season
      labels, in order. */
  lemma SeasonListReadsBack(seasons: seq<Season>)
    ensures AvailablePrefix <= AvailablePrefix + Join(SeasonLabels(seasons), ", ")
    ensures ListedSeasons(AvailablePrefix + Join(SeasonLabels(seasons), ", ")) == SeasonLabels(seasons)
  {
    var labels := SeasonLabels(seasons);
    var joined := Join(labels, ", ");
    assert (AvailablePrefix + joined)[|AvailablePrefix|..] == joined;
    if seasons != [] {
      assert forall k :: 0 <= k < |labels| ==> ',' !in labels[k] && Trim(labels[k]) == labels[k] by {
        SeasonLabelsPlain();
      }
      assert joined != "" by {
        SeasonLabelsPlain();
        assert labels[0] != "" && labels[0] <= joined;
      }
      assert ", " == [','] + " ";
      SplitJoinList(labels, ',');
    }
  }

  /** `formatSeasonAvailability`: the prefix, then the season labels joined
      by ", ". Every season of the campsite is named in it, and reading the
      list back gives exactly the campsite's seasons in order. */
  function FormatSeasonAvailability(c: Campsite): (r: string)
    ensures AvailablePrefix <= r
    ensures forall s :: s in c.seasonAvailability ==> IsInfix(s.Label(), r)
    ensures ListedSeasons(r) == SeasonLabels(c.seasonAvailability)
    ensures forall s: Season :: s.Label() in ListedSeasons(r) <==> s in c.seasonAvailability
  {
    var labels := SeasonLabels(c.seasonAvailability);
    var joined := Join(labels, ", ");
    SeasonLabelsInJoin(c.seasonAvailability, AvailablePrefix);
    SeasonListReadsBack(c.seasonAvailability);
    SeasonLabelsMembership(c.seasonAvailability);
    AvailablePrefix + joined
  }

  // ---------------------------------------------------------------------------
  // Search suggestions
  // ---------------------------------------------------------------------------

  /** The trimmed parts longer than two characters. */
  function LongTrimmedParts(parts: seq<string>): set<string> {
    if parts == [] then {}
    else
      var n := |parts| - 1;
      var t := Trim(parts[n]);
      LongTrimmedParts(parts[..n]) + (if |t| > 2 then {t} else {})
  }

  /** The trimmed form of every part longer than two characters is among
      them, and nothing else is. */
  lemma {:induction false} LongTrimmedPartsSpec(parts: seq<string>)
    ensures forall k :: 0 <= k < |parts| && |Trim(parts[k])| > 2 ==> Trim(parts[k]) in LongTrimmedParts(parts)
    ensures forall t :: t in LongTrimmedParts(parts) ==>
              |t| > 2 && exists k :: 0 <= k < |parts| && Trim(parts[k]) == t
  {
    if parts != [] {
      var n := |parts| - 1;
      var init := parts[..n];
      LongTrimmedPartsSpec(init);
      forall k | 0 <= k < |parts| && |Trim(parts[k])| > 2 ensures Trim(parts[k]) in LongTrimmedParts(parts) {
        if k < n {
          assert init[k] == parts[k];
        }
      }
      forall t | t in LongTrimmedParts(parts)
        ensures |t| > 2 && exists k :: 0 <= k < |parts| && Trim(parts[k]) == t
      {
        if t in LongTrimmedParts(init) {
          var k :| 0 <= k < n && Trim(init[k]) == t;
          assert parts[k] == init[k];
        } else {
          assert Trim(parts[n]) == t;
        }
      }
    }
  }

  /** What one campsite contributes: its name, its category and camping type
      labels, and the comma-separated parts of its address that are longer
      than two characters once trimmed. */
  function CampsiteSuggestions(c: Campsite): set<string> {
    {c.name, c.category.Label(), c.campingType.Label()} + LongTrimmedParts(Split(c.address, ','))
  }

  /** The suggestions of a list of campsites: what the campsites
      contribute, and nothing else. */
  function SuggestionsOf(campsites: seq<Campsite>): set<string> {
    UnionOf(campsites, CampsiteSuggestions)
  }

  /** Everything a campsite contributes is suggested, and everything
      suggested is contributed by some campsite. */
  lemma SuggestionsOfSpec(campsites: seq<Campsite>)
    ensures forall c :: c in campsites ==> CampsiteSuggestions(c) <= SuggestionsOf(campsites)
    ensures forall s :: s in SuggestionsOf(campsites) ==>
              exists c :: c in campsites && s in CampsiteSuggestions(c)
  {
    UnionOfSpec(campsites, CampsiteSuggestions);
  }

  /** The two nested loops of `getSearchSuggestions`, which insert each
      campsite's suggestions into a set. */
  method CollectSuggestions(campsites: seq<Campsite>) returns (found: set<string>)
    ensures found == SuggestionsOf(campsites)
  {
    found := {};
    var i := 0;
    while i < |campsites|
      invariant 0 <= i <= |campsites|
      invariant found == UnionOf(campsites[..i], CampsiteSuggestions)
    {
      var c := campsites[i];
      found := found + {c.name};
      found := found + {c.category.Label()};
      found := found + {c.campingType.Label()};
      var components := Split(c.address, ',');
      var j := 0;
      while j < |components|
        invariant 0 <= j <= |components|
        invariant found == UnionOf(campsites[..i], CampsiteSuggestions)
                           + {c.name, c.category.Label(), c.campingType.Label()}
                           + LongTrimmedParts(components[..j])
      {
        var trimmed := Trim(components[j]);
        assert components[..j + 1][..j] == components[..j];
        if |trimmed| > 2 {
          found := found + {trimmed};
        }
        j := j + 1;
      }
      assert components[..j] == components;
      UnionOfStep(campsites, CampsiteSuggestions, i);
      i := i + 1;
    }
    assert campsites[..i] == campsites;
  }

  /** `Array(set).sorted()`: the set's elements in some order, then sorted
      with `<`. The result lists every element once, in strictly increasing
      order. */
  method SortedElements(elements: set<string>) returns (sorted: seq<string>)
    ensures forall s :: s in sorted <==> s in elements
    ensures forall i, j :: 0 <= i < j < |sorted| ==> StrLess(sorted[i], sorted[j])
    ensures Distinct(sorted)
  {
    var listed: seq<string> := [];
    var pool := elements;
    while pool != {}
      invariant Distinct(listed)
      invariant pool <= elements
      invariant forall s :: s in listed <==> s in elements && s !in pool
      decreases |pool|
    {
      var s :| s in pool;
      listed := listed + [s];
      pool := pool - {s};
    }
    sorted := SortBy(listed, StrLessEq);
    StrLessEqTotalPreorder();
    SortBySorted(listed, StrLessEq);
    DistinctPermutation(listed, sorted);
    assert forall s :: s in sorted <==> s in listed by {
      forall s ensures s in sorted <==> s in listed {
        assert s in sorted <==> multiset(sorted)[s] > 0;
        assert s in listed <==> multiset(listed)[s] > 0;
      }
    }
    forall i, j | 0 <= i < j < |sorted| ensures StrLess(sorted[i], sorted[j]) {
      StrLessConnected(sorted[i], sorted[j]);
    }
  }

  /** `getSearchSuggestions`: every suggestion of the campsites once, in
      increasing order. */
  method GetSearchSuggestions(campsites: seq<Campsite>) returns (suggestions: seq<string>)
    ensures forall s :: s in suggestions <==> s in SuggestionsOf(campsites)
    ensures forall i, j :: 0 <= i < j < |suggestions| ==> StrLess(suggestions[i], suggestions[j])
  {
    var found := CollectSuggestions(campsites);
    suggestions := SortedElements(found);
  }

  // ---------------------------------------------------------------------------
  // Filter options
  // ---------------------------------------------------------------------------

  /** `CampsiteFilterOptions` */
  datatype FilterOptions = FilterOptions(
    availableCategories: set<CampsiteCategory>,
    availableCampingTypes: set<CampingType>,
    availableSeasons: set<Season>,
    availableAmenities: set<AmenityType>,
    availableCellReception: set<CellReceptionLevel>,
    hasAccessibleCampsites: bool)

  /** `CampsiteFilterOptions()`: nothing available. */
  const NoFilterOptions := FilterOptions({}, {}, {}, {}, {}, false)

  function AmenitiesOf(c: Campsite): set<AmenityType> {
    set a | a in AllAmenityTypes && HasAmenity(c, a)
  }

  function SeasonsOf(c: Campsite): set<Season> {
    set s | s in c.seasonAvailability
  }

  /** Some campsite is accessible. */
  predicate SomeAccessible(campsites: seq<Campsite>) {
    exists c :: c in campsites && c.isAccessible
  }

  /** The options offered for a list of campsites. */
  function FilterOptionsOf(campsites: seq<Campsite>): FilterOptions {
    FilterOptions(
      UnionOf(campsites, (c: Campsite) => {c.category}),
      UnionOf(campsites, (c: Campsite) => {c.campingType}),
      UnionOf(campsites, SeasonsOf),
      UnionOf(campsites, AmenitiesOf),
      UnionOf(campsites, (c: Campsite) => {c.cellReception}),
      SomeAccessible(campsites))
  }

  /** The category set holds exactly the categories of the campsites. */
  lemma FilterOptionsOfCategories(campsites: seq<Campsite>)
    ensures forall x :: x in FilterOptionsOf(campsites).availableCategories <==>
              exists c :: c in campsites && c.category == x
  {
    UnionOfSpec(campsites, (c: Campsite) => {c.category});
  }

  /** The camping-type set holds exactly the camping types of the
      campsites. */
  lemma FilterOptionsOfCampingTypes(campsites: seq<Campsite>)
    ensures forall x :: x in FilterOptionsOf(campsites).availableCampingTypes <==>
              exists c :: c in campsites && c.campingType == x
  {
    UnionOfSpec(campsites, (c: Campsite) => {c.campingType});
  }

  /** The reception set holds exactly the reception levels of the
      campsites. */
  lemma FilterOptionsOfCellReception(campsites: seq<Campsite>)
    ensures forall x :: x in FilterOptionsOf(campsites).availableCellReception <==>
              exists c :: c in campsites && c.cellReception == x
  {
    UnionOfSpec(campsites, (c: Campsite) => {c.cellReception});
  }

  /** The season set holds exactly the seasons some campsite is available
      in. */
  lemma FilterOptionsOfSeasons(campsites: seq<Campsite>)
    ensures forall x :: x in FilterOptionsOf(campsites).availableSeasons <==>
              exists c :: c in campsites && x in c.seasonAvailability
  {
    UnionOfSpec(campsites, SeasonsOf);
  }

  /** The amenity set holds exactly the amenities some campsite has. */
  lemma FilterOptionsOfAmenities(campsites: seq<Campsite>)
    ensures forall x :: x in FilterOptionsOf(campsites).availableAmenities <==>
              exists c :: c in campsites && HasAmenity(c, x)
  {
    UnionOfSpec(campsites, AmenitiesOf);
    AllAmenityTypesComplete();
  }

  /** No campsites give no options. */
  lemma NoCampsitesNoOptions()
    ensures FilterOptionsOf([]) == NoFilterOptions
  {
  }

  /** `s` with `x` added when `cond` holds: one `if cond { s.insert(x) }`. */
  function InsertIf<X>(s: set<X>, cond: bool, x: X): set<X> {
    if cond then s + {x} else s
  }

  /** The seven conditional inserts of one campsite add exactly its
      amenities. */
  lemma AmenityInserts(c: Campsite, s: set<AmenityType>)
    ensures InsertIf(InsertIf(InsertIf(InsertIf(InsertIf(InsertIf(InsertIf(s,
              c.hasWater, Water), c.hasElectricity, Electricity), c.hasToilets, Toilets),
              c.hasShowers, Showers), c.hasFirePit, FirePit), c.hasBBQ, BBQ), c.hasParking, Parking)
            == s + AmenitiesOf(c)
  {
    AllAmenityTypesComplete();
  }

  /** The amenity inserts of one campsite. */
  method InsertAmenities(c: Campsite, amenities: set<AmenityType>) returns (r: set<AmenityType>)
    ensures r == amenities + AmenitiesOf(c)
  {
    r := amenities;
    if c.hasWater { r := r + {Water}; }
    if c.hasElectricity { r := r + {Electricity}; }
    if c.hasToilets { r := r + {Toilets}; }
    if c.hasShowers { r := r + {Showers}; }
    if c.hasFirePit { r := r + {FirePit}; }
    if c.hasBBQ { r := r + {BBQ}; }
    if c.hasParking { r := r + {Parking}; }
    AmenityInserts(c, amenities);
  }

  /** `getFilterOptions`: the options struct updated once per campsite. */
  method GetFilterOptions(campsites: seq<Campsite>) returns (options: FilterOptions)
    ensures options == FilterOptionsOf(campsites)
  {
    options := NoFilterOptions;
    var i := 0;
    while i < |campsites|
      invariant 0 <= i <= |campsites|
      invariant options == FilterOptionsOf(campsites[..i])
    {
      var c := campsites[i];
      UnionOfStep(campsites, (c: Campsite) => {c.category}, i);
      UnionOfStep(campsites, (c: Campsite) => {c.campingType}, i);
      UnionOfStep(campsites, SeasonsOf, i);
      UnionOfStep(campsites, AmenitiesOf, i);
      UnionOfStep(campsites, (c: Campsite) => {c.cellReception}, i);
      assert campsites[..i + 1] == campsites[..i] + [c];
      options := options.(availableCategories := options.availableCategories + {c.category});
      options := options.(availableCampingTypes := options.availableCampingTypes + {c.campingType});
      options := options.(availableSeasons := options.availableSeasons + SeasonsOf(c));
      var amenities := InsertAmenities(c, options.availableAmenities);
      options := options.(availableAmenities := amenities);
      options := options.(availableCellReception := options.availableCellReception + {c.cellReception});
      if c.isAccessible {
        options := options.(hasAccessibleCampsites := true);
      }
      i := i + 1;
    }
    assert campsites[..i] == campsites;
  }
}
