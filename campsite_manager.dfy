/** The campsite store (HandsUpSOS/CampsiteManager.swift): the list of saved
    campsites, changed in place by add, update and delete, and the read-only
    search and filter queries over it. Saving to and loading from the
    device's key-value store is not modelled; the constructor takes what a
    load produced. */
module CampsiteStore {
  import opened Options
  import opened Sequences
  import opened Text
  import opened CampsiteModel

  /** The query occurs, ignoring case, in the name, the notes, the category
      label or the address. */
  predicate MatchesQuery(c: Campsite, query: string) {
    || ContainsIgnoringCase(c.name, query)
    || ContainsIgnoringCase(c.notes, query)
    || ContainsIgnoringCase(c.category.Label(), query)
    || ContainsIgnoringCase(c.address, query)
  }

  /** The optional arguments of `filterCampsitesByAmenities`: `None` leaves a
      flag unconstrained. */
  datatype AmenityCriteria = AmenityCriteria(
    hasWater: Option<bool>,
    hasElectricity: Option<bool>,
    hasToilets: Option<bool>,
    hasShowers: Option<bool>,
    hasFirePit: Option<bool>,
    hasBBQ: Option<bool>,
    hasParking: Option<bool>)

  /** The call with every argument left at its default. */
  const NoAmenityCriteria := AmenityCriteria(None, None, None, None, None, None, None)

  predicate Agrees(wanted: Option<bool>, actual: bool) {
    wanted.None? || wanted.value == actual
  }

  /** Every flag the criteria constrain has the wanted value. */
  predicate MatchesAmenities(c: Campsite, f: AmenityCriteria) {
    && Agrees(f.hasWater, c.hasWater)
    && Agrees(f.hasElectricity, c.hasElectricity)
    && Agrees(f.hasToilets, c.hasToilets)
    && Agrees(f.hasShowers, c.hasShowers)
    && Agrees(f.hasFirePit, c.hasFirePit)
    && Agrees(f.hasBBQ, c.hasBBQ)
    && Agrees(f.hasParking, c.hasParking)
  }

  /** `matches`, narrowed by one criterion: one `if let wanted { matches =
      matches && actual == wanted }`. */
  function Narrow(matches: bool, wanted: Option<bool>, actual: bool): bool {
    if wanted.Some? then matches && actual == wanted.value else matches
  }

  /** One `if let wanted = wanted { matches = matches && actual == wanted }`
      block of the closure of `filterCampsitesByAmenities`. */
  method NarrowBy(matches: bool, wanted: Option<bool>, actual: bool) returns (r: bool)
    ensures r == Narrow(matches, wanted, actual)
    ensures r <==> matches && Agrees(wanted, actual)
  {
    r := matches;
    if wanted.Some? {
      r := r && actual == wanted.value;
    }
  }

  /** The closure of `filterCampsitesByAmenities`: `matches` starts true and
      each of the seven blocks narrows it by one criterion. */
  method MatchAmenities(c: Campsite, f: AmenityCriteria) returns (matches: bool)
    ensures matches <==> MatchesAmenities(c, f)
  {
    matches := true;
    matches := NarrowBy(matches, f.hasWater, c.hasWater);
    matches := NarrowBy(matches, f.hasElectricity, c.hasElectricity);
    matches := NarrowBy(matches, f.hasToilets, c.hasToilets);
    matches := NarrowBy(matches, f.hasShowers, c.hasShowers);
    matches := NarrowBy(matches, f.hasFirePit, c.hasFirePit);
    matches := NarrowBy(matches, f.hasBBQ, c.hasBBQ);
    matches := NarrowBy(matches, f.hasParking, c.hasParking);
  }

  /** Filtering by amenities keeps exactly the matching campsites, in
      order, and keeps everything when no criterion is given. */
  lemma AmenityFilterSpec(s: seq<Campsite>, f: AmenityCriteria)
    ensures Selects(Filter(s, (c: Campsite) => MatchesAmenities(c, f)), s, (c: Campsite) => MatchesAmenities(c, f))
    ensures f == NoAmenityCriteria ==> Filter(s, (c: Campsite) => MatchesAmenities(c, f)) == s
  {
    var p := (c: Campsite) => MatchesAmenities(c, f);
    FilterSelects(s, p);
    if f == NoAmenityCriteria {
      FilterAll(s, p);
    }
  }

  /** A campsite counts as free when its cost is "Free" or not given. */
  predicate IsFree(c: Campsite) {
    c.cost.None? || c.cost.value == "Free"
  }

  /** Some emergency detail is recorded: a contact, a hospital, a police
      station or non-empty emergency notes. */
  predicate HasEmergencyInfo(c: Campsite) {
    || c.emergencyContact.Some?
    || c.nearestHospital.Some?
    || c.nearestPolice.Some?
    || c.emergencyNotes != ""
  }

  /** The index `firstIndex(where: { $0.id == id })` returns. */
  function FirstIndexWithId(s: seq<Campsite>, id: CampsiteId): (r: Option<nat>)
    ensures r.None? <==> forall k :: 0 <= k < |s| ==> s[k].id != id
    ensures r.Some? ==> r.value < |s| && s[r.value].id == id
    ensures r.Some? ==> forall k :: 0 <= k < r.value ==> s[k].id != id
  {
    if s == [] then None
    else if s[0].id == id then Some(0)
    else match FirstIndexWithId(s[1..], id)
      case None => None
      case Some(i) => Some(i + 1)
  }

  class CampsiteManager {
    var campsites: seq<Campsite>

    /** `init()`: the list a load from storage produced, or an empty list when
        nothing was stored or it did not decode. */
    constructor(loaded: Option<seq<Campsite>>)
      ensures campsites == loaded.GetOr([])
    {
      campsites := loaded.GetOr([]);
    }

    // -------------------------------------------------------------------------
    // Changes
    // -------------------------------------------------------------------------

    /** `addCampsite`: appends, whatever the id. */
    method AddCampsite(campsite: Campsite)
      modifies this
      ensures campsites == old(campsites) + [campsite]
    {
      campsites := campsites + [campsite];
    }

    /** `updateCampsite`: replaces the first campsite with the same id and
        does nothing when there is none. */
    method UpdateCampsite(campsite: Campsite)
      modifies this
      ensures |campsites| == |old(campsites)|
      ensures (forall k :: 0 <= k < |old(campsites)| ==> old(campsites)[k].id != campsite.id)
              ==> campsites == old(campsites)
      ensures forall i ::
                (0 <= i < |old(campsites)| && old(campsites)[i].id == campsite.id
                 && (forall k :: 0 <= k < i ==> old(campsites)[k].id != campsite.id))
                ==> campsites == old(campsites)[i := campsite]
    {
      var index := FirstIndexWithId(campsites, campsite.id);
      if index.Some? {
        campsites := campsites[index.value := campsite];
      }
    }

    /** `deleteCampsite(_:)`: removes every campsite with the same id and
        keeps the others in order. */
    method DeleteCampsite(campsite: Campsite)
      modifies this
      ensures campsites == Filter(old(campsites), (c: Campsite) => c.id != campsite.id)
      ensures forall c :: c in campsites ==> c.id != campsite.id
      ensures forall c :: c in old(campsites) && c.id != campsite.id ==> c in campsites
      ensures (forall c :: c in old(campsites) ==> c.id != campsite.id) ==> campsites == old(campsites)
    {
      var keep := (c: Campsite) => c.id != campsite.id;
      FilterSelects(campsites, keep);
      if forall c :: c in campsites ==> c.id != campsite.id {
        FilterAll(campsites, keep);
      }
      campsites := Filter(campsites, keep);
    }

    /** `deleteCampsite(at:)`: removes the campsites at the given positions,
        all of which must be valid, and keeps the rest in order. */
    method DeleteCampsites(offsets: set<nat>)
      requires forall i :: i in offsets ==> i < |campsites|
      modifies this
      ensures campsites == RemoveAtOffsets(old(campsites), offsets)
      ensures |campsites| == |old(campsites)| - |offsets|
    {
      RemoveAtOffsetsLength(campsites, offsets);
      campsites := RemoveAtOffsets(campsites, offsets);
    }

    // -------------------------------------------------------------------------
    // Queries
    // -------------------------------------------------------------------------

    /** `searchCampsites(query:)`: everything for an empty query, otherwise
        the campsites matching it, in order. */
    function SearchCampsites(query: string): (r: seq<Campsite>)
      reads this
      ensures query == "" ==> r == campsites
      ensures |r| <= |campsites|
      ensures query != "" ==> Selects(r, campsites, (c: Campsite) => MatchesQuery(c, query))
    {
      if query == "" then campsites
      else
        var p := (c: Campsite) => MatchesQuery(c, query);
        FilterSelects(campsites, p);
        Filter(campsites, p)
    }

    /** `filterCampsites(by:)`: everything for no category, otherwise the
        campsites of that category, in order. */
    function FilterCampsites(category: Option<CampsiteCategory>): (r: seq<Campsite>)
      reads this
      ensures category.None? ==> r == campsites
      ensures |r| <= |campsites|
      ensures category.Some? ==> Selects(r, campsites, (c: Campsite) => c.category == category.value)
    {
      if category.None? then campsites
      else
        var p := (c: Campsite) => c.category == category.value;
        FilterSelects(campsites, p);
        Filter(campsites, p)
    }

    /** `getCampsitesNearby(coordinate:radius:)`, with the great-circle
        distance in kilometres given as `dist`. */
    function GetCampsitesNearby(coordinate: Coordinate, dist: (Coordinate, Coordinate) -> real, radius: real := 50.0): (r: seq<Campsite>)
      reads this
      ensures Selects(r, campsites, (c: Campsite) => dist(coordinate, c.location) <= radius)
    {
      var p := (c: Campsite) => dist(coordinate, c.location) <= radius;
      FilterSelects(campsites, p);
      Filter(campsites, p)
    }

    /** `filterCampsitesByAmenities`, one campsite at a time. */
    method FilterCampsitesByAmenities(f: AmenityCriteria) returns (r: seq<Campsite>)
      ensures r == Filter(campsites, (c: Campsite) => MatchesAmenities(c, f))
      ensures Selects(r, campsites, (c: Campsite) => MatchesAmenities(c, f))
      ensures f == NoAmenityCriteria ==> r == campsites
    {
      var p := (c: Campsite) => MatchesAmenities(c, f);
      r := [];
      var i := 0;
      while i < |campsites|
        invariant 0 <= i <= |campsites|
        invariant r == Filter(campsites[..i], p)
      {
        var matches := MatchAmenities(campsites[i], f);
        assert campsites[..i + 1][..i] == campsites[..i];
        if matches {
          r := r + [campsites[i]];
        }
        i := i + 1;
      }
      assert campsites[..i] == campsites;
      AmenityFilterSpec(campsites, f);
    }

    function FilterCampsitesByAccessibility(isAccessible: bool): (r: seq<Campsite>)
      reads this
      ensures Selects(r, campsites, (c: Campsite) => c.isAccessible == isAccessible)
    {
      var p := (c: Campsite) => c.isAccessible == isAccessible;
      FilterSelects(campsites, p);
      Filter(campsites, p)
    }

    function FilterCampsitesByCellReception(level: CellReceptionLevel): (r: seq<Campsite>)
      reads this
      ensures Selects(r, campsites, (c: Campsite) => c.cellReception == level)
    {
      var p := (c: Campsite) => c.cellReception == level;
      FilterSelects(campsites, p);
      Filter(campsites, p)
    }

    function FilterCampsitesByCampingType(campingType: CampingType): (r: seq<Campsite>)
      reads this
      ensures Selects(r, campsites, (c: Campsite) => c.campingType == campingType)
    {
      var p := (c: Campsite) => c.campingType == campingType;
      FilterSelects(campsites, p);
      Filter(campsites, p)
    }

    function FilterCampsitesBySeason(season: Season): (r: seq<Campsite>)
      reads this
      ensures Selects(r, campsites, (c: Campsite) => season in c.seasonAvailability)
    {
      var p := (c: Campsite) => season in c.seasonAvailability;
      FilterSelects(campsites, p);
      Filter(campsites, p)
    }

    /** `filterCampsitesByCost(maxCost:isFree:)`: `maxCost` is ignored; with
        no `isFree` every campsite is returned. */
    function FilterCampsitesByCost(maxCost: Option<string>, isFree: Option<bool>): (r: seq<Campsite>)
      reads this
      ensures isFree.None? ==> r == campsites
      ensures isFree == Some(true) ==> Selects(r, campsites, (c: Campsite) => IsFree(c))
      ensures isFree == Some(false) ==> Selects(r, campsites, (c: Campsite) => !IsFree(c))
    {
      if isFree.None? then campsites
      else if isFree.value then
        var p := (c: Campsite) => IsFree(c);
        FilterSelects(campsites, p);
        Filter(campsites, p)
      else
        var p := (c: Campsite) => !IsFree(c);
        FilterSelects(campsites, p);
        Filter(campsites, p)
    }

    function GetCampsitesWithEmergencyInfo(): (r: seq<Campsite>)
      reads this
      ensures Selects(r, campsites, (c: Campsite) => HasEmergencyInfo(c))
    {
      var p := (c: Campsite) => HasEmergencyInfo(c);
      FilterSelects(campsites, p);
      Filter(campsites, p)
    }

    function GetCampsitesByAccessibilityFeatures(): (r: seq<Campsite>)
      reads this
      ensures Selects(r, campsites, (c: Campsite) => c.isAccessible)
    {
      var p := (c: Campsite) => c.isAccessible;
      FilterSelects(campsites, p);
      Filter(campsites, p)
    }
  }

  /** The free and the not-free campsites split the store between them:
      every campsite is in exactly one of the two results. */
  lemma CostFiltersPartition(m: CampsiteManager, maxCost: Option<string>)
    ensures multiset(m.FilterCampsitesByCost(maxCost, Some(true)))
          + multiset(m.FilterCampsitesByCost(maxCost, Some(false))) == multiset(m.campsites)
    ensures forall c :: !(c in m.FilterCampsitesByCost(maxCost, Some(true))
                          && c in m.FilterCampsitesByCost(maxCost, Some(false)))
  {
    FilterPartition(m.campsites, (c: Campsite) => IsFree(c), (c: Campsite) => !IsFree(c));
  }

  /** Adding a campsite and then deleting it by id gives back the earlier
      list when no campsite in it had that id. */
  lemma DeleteUndoesAdd(s: seq<Campsite>, campsite: Campsite)
    requires forall c :: c in s ==> c.id != campsite.id
    ensures Filter(s + [campsite], (c: Campsite) => c.id != campsite.id) == s
  {
    var keep := (c: Campsite) => c.id != campsite.id;
    FilterAll(s, keep);
    assert (s + [campsite])[..|s|] == s;
  }
}
