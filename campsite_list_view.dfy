/** The logic behind the campsite list screen (HandsUpSOS/CampsiteListView.swift):
    the search, category and sort pipeline that decides which campsites are
    listed and in what order, and the amenity icons shown on each row. */
module CampsiteListView {
  import opened Options
  import opened Sequences
  import opened Text
  import opened CampsiteModel
  import opened CampsiteStore
  import opened CampsiteDataUtilities

  // ---------------------------------------------------------------------------
  // Sort options
  // ---------------------------------------------------------------------------

  datatype SortOption = ByName | ByDateAdded | ByRating | ByCategory {
    function Label(): string {
      match this
      case ByName => "Name"
      case ByDateAdded => "Date Added"
      case ByRating => "Rating"
      case ByCategory => "Category"
    }
  }

  /** The list opens sorted by date added. */
  const DefaultSortOption := ByDateAdded

  /** The comparator the list hands to `sort` for each option: names and
      category labels ascending, dates and ratings descending. */
  predicate Before(option: SortOption, a: Campsite, b: Campsite) {
    match option
    case ByName => StrLess(a.name, b.name)
    case ByDateAdded => a.dateAdded > b.dateAdded
    case ByRating => a.rating > b.rating
    case ByCategory => StrLess(a.category.Label(), b.category.Label())
  }

  /** `a` may stay in front of `b` once sorted: `b` does not come strictly
      before `a`. */
  function Order(option: SortOption): (Campsite, Campsite) -> bool {
    (a: Campsite, b: Campsite) => !Before(option, b, a)
  }

  /** Each comparator is a strict weak order, so "not after" is a total
      preorder and a sort by it is well defined up to ties. */
  lemma OrderIsTotalPreorder(option: SortOption)
    ensures Transitive(Order(option)) && Total(Order(option))
  {
    var le := Order(option);
    if option.ByName? || option.ByCategory? {
      StrLessEqTotalPreorder();
      forall a: Campsite, b: Campsite, c: Campsite | le(a, b) && le(b, c) ensures le(a, c) {
        if option.ByName? {
          assert StrLessEq(a.name, b.name) && StrLessEq(b.name, c.name);
        } else {
          assert StrLessEq(a.category.Label(), b.category.Label());
          assert StrLessEq(b.category.Label(), c.category.Label());
        }
      }
      forall a: Campsite, b: Campsite ensures le(a, b) || le(b, a) {
        if option.ByName? {
          assert StrLessEq(a.name, b.name) || StrLessEq(b.name, a.name);
        } else {
          assert StrLessEq(a.category.Label(), b.category.Label()) || StrLessEq(b.category.Label(), a.category.Label());
        }
      }
    }
  }

  /** `campsites.sort(by:)` with the option's comparator: a rearrangement of
      the campsites in which no campsite comes before one it should follow.
      The order among ties is not specified by Swift; insertion sort picks
      one. */
  function SortCampsites(campsites: seq<Campsite>, option: SortOption): (r: seq<Campsite>)
    ensures multiset(r) == multiset(campsites) && |r| == |campsites|
    ensures SortedBy(r, Order(option))
  {
    assert |multiset(campsites)| == |campsites|;
    OrderIsTotalPreorder(option);
    SortBySorted(campsites, Order(option));
    SortBy(campsites, Order(option))
  }

  /** What a list sorted for each option looks like: names and category
      labels never decrease, dates added and ratings never increase. */
  lemma SortedOrderMeaning(s: seq<Campsite>, option: SortOption)
    requires SortedBy(s, Order(option))
    ensures option == ByName ==>
              forall i, j :: 0 <= i < j < |s| ==> StrLessEq(s[i].name, s[j].name)
    ensures option == ByDateAdded ==>
              forall i, j :: 0 <= i < j < |s| ==> s[i].dateAdded >= s[j].dateAdded
    ensures option == ByRating ==>
              forall i, j :: 0 <= i < j < |s| ==> s[i].rating >= s[j].rating
    ensures option == ByCategory ==>
              forall i, j :: 0 <= i < j < |s| ==> StrLessEq(s[i].category.Label(), s[j].category.Label())
  {
    forall i, j | 0 <= i < j < |s| ensures Order(option)(s[i], s[j]) {
    }
  }

  /** With the default option the list shows the most recently added
      campsites first. */
  lemma DefaultListIsNewestFirst(campsites: seq<Campsite>)
    ensures var r := SortCampsites(campsites, DefaultSortOption);
            forall i, j :: 0 <= i < j < |r| ==> r[i].dateAdded >= r[j].dateAdded
  {
    SortedOrderMeaning(SortCampsites(campsites, DefaultSortOption), DefaultSortOption);
  }

  // ---------------------------------------------------------------------------
  // filteredCampsites
  // ---------------------------------------------------------------------------

  /** `filteredCampsites`: search when there is search text, then replace the
      list by the selected category's campsites, then sort. A selected
      category re-filters the whole stored list, so it discards the search. */
  method FilteredCampsites(
    manager: CampsiteManager,
    searchText: string,
    selectedCategory: Option<CampsiteCategory>,
    sortOption: SortOption)
    returns (campsites: seq<Campsite>)
    ensures SortedBy(campsites, Order(sortOption))
    ensures |campsites| <= |manager.campsites|
    ensures searchText == [] && selectedCategory.None? ==>
              multiset(campsites) == multiset(manager.campsites)
    ensures searchText != [] && selectedCategory.None? ==>
              forall c :: multiset(campsites)[c] ==
                if MatchesQuery(c, searchText) then multiset(manager.campsites)[c] else 0
    ensures selectedCategory.Some? ==>
              forall c :: multiset(campsites)[c] ==
                if c.category == selectedCategory.value then multiset(manager.campsites)[c] else 0
  {
    campsites := manager.campsites;
    if searchText != [] {
      campsites := manager.SearchCampsites(searchText);
    }
    if selectedCategory.Some? {
      campsites := manager.FilterCampsites(selectedCategory);
    }
    campsites := SortCampsites(campsites, sortOption);
  }

  // ---------------------------------------------------------------------------
  // Amenity icons of a row
  // ---------------------------------------------------------------------------

  const WaterIcon := "💧"
  const ElectricityIcon := "⚡"
  const ToiletsIcon := "🚽"
  const ShowersIcon := "🚿"
  const FirePitIcon := "🔥"
  const BBQIcon := "🍖"
  const ParkingIcon := "🅿️"
  const AmenityIcons: seq<string> :=
    [WaterIcon, ElectricityIcon, ToiletsIcon, ShowersIcon, FirePitIcon, BBQIcon, ParkingIcon]

  /** `getAmenityIcons`: the icons of the set flags, in flag order. */
  method GetAmenityIcons(c: Campsite) returns (icons: seq<string>)
    ensures icons == AmenityList(AmenityIcons, c)
  {
    var flags := AmenityFlags(c);
    icons := [];
    icons := AppendWhen(icons, c.hasWater, WaterIcon);
    icons := AppendWhen(icons, c.hasElectricity, ElectricityIcon);
    icons := AppendWhen(icons, c.hasToilets, ToiletsIcon);
    icons := AppendWhen(icons, c.hasShowers, ShowersIcon);
    icons := AppendWhen(icons, c.hasFirePit, FirePitIcon);
    icons := AppendWhen(icons, c.hasBBQ, BBQIcon);
    icons := AppendWhen(icons, c.hasParking, ParkingIcon);
    SelectOfSeven(AmenityIcons, flags);
  }

  /** A row shows at most seven icons, each icon exactly when its flag is
      set, and none exactly when `hasAnyAmenities` is false. */
  lemma AmenityIconsSpec(c: Campsite)
    ensures |AmenityList(AmenityIcons, c)| <= 7
    ensures AmenityList(AmenityIcons, c) != [] <==> HasAnyAmenities(c)
    ensures forall k :: 0 <= k < 7 ==> (AmenityIcons[k] in AmenityList(AmenityIcons, c) <==> AmenityFlags(c)[k])
  {
    assert Distinct(AmenityIcons);
  }

  /** A row shows as many icons as the detail screen lists amenities, one
      for each set flag. */
  lemma IconsMatchAmenities(c: Campsite)
    ensures |AmenityList(AmenityIcons, c)| == |AmenityList(AmenityEntries, c)| == CountTrue(AmenityFlags(c))
  {
    SelectSpec(AmenityIcons, AmenityFlags(c));
    SelectSpec(AmenityEntries, AmenityFlags(c));
  }
}
