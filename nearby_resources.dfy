/** The nearby-resources panel of the home screen
    (HandsUpSOS/NearbyResourcesSection.swift): which stored campsites count
    as nearby, in what order, and which of them are displayed. */
module NearbyResources {
  import opened Options
  import opened Sequences
  import opened CampsiteModel
  import opened CampsiteListView

  /** Campsites this many kilometres away or closer are nearby. */
  const NearbyRadius: real := 50.0

  /** The panel shows at most this many campsites. */
  const DisplayLimit: nat := 3

  /** The closure `nearbyCampsites` filters with: false while the location
      is unknown, otherwise whether the campsite is within the radius.
      `dist` is the great-circle distance in kilometres. */
  function IsNear(currentLocation: Option<Coordinate>, dist: (Coordinate, Coordinate) -> real): Campsite -> bool {
    (c: Campsite) => currentLocation.Some? && dist(currentLocation.value, c.location) <= NearbyRadius
  }

  /** `nearbyCampsites`: nothing without location permission, otherwise the
      nearby campsites sorted best rated first. */
  function NearbyCampsites(
    campsites: seq<Campsite>,
    hasPermission: bool,
    currentLocation: Option<Coordinate>,
    dist: (Coordinate, Coordinate) -> real): (r: seq<Campsite>)
    ensures SortedBy(r, Order(ByRating))
  {
    if !hasPermission then []
    else SortCampsites(Filter(campsites, IsNear(currentLocation, dist)), ByRating)
  }

  /** Without permission, or while the location is unknown, nothing is
      nearby. */
  lemma NearbyNeedsPermissionAndLocation(
    campsites: seq<Campsite>,
    hasPermission: bool,
    currentLocation: Option<Coordinate>,
    dist: (Coordinate, Coordinate) -> real)
    requires !hasPermission || currentLocation.None?
    ensures NearbyCampsites(campsites, hasPermission, currentLocation, dist) == []
  {
    if hasPermission {
      FilterNone(campsites, IsNear(currentLocation, dist));
    }
  }

  /** With permission and a location, the nearby campsites are exactly the
      stored ones within the radius, each as often as it is stored. */
  lemma NearbyWithinRadius(
    campsites: seq<Campsite>,
    currentLocation: Coordinate,
    dist: (Coordinate, Coordinate) -> real)
    ensures forall c :: multiset(NearbyCampsites(campsites, true, Some(currentLocation), dist))[c] ==
              if dist(currentLocation, c.location) <= NearbyRadius then multiset(campsites)[c] else 0
  {
    FilterSelects(campsites, IsNear(Some(currentLocation), dist));
  }

  /** `nearbyCampsites.prefix(3)`: what the panel lists. */
  function Displayed(nearby: seq<Campsite>): (shown: seq<Campsite>)
    ensures |shown| == if |nearby| < DisplayLimit then |nearby| else DisplayLimit
    ensures shown <= nearby
  {
    if |nearby| <= DisplayLimit then nearby else nearby[..DisplayLimit]
  }

  /** The listed campsites are rated at least as well as every nearby
      campsite left off the panel. */
  lemma DisplayedAreBestRated(
    campsites: seq<Campsite>,
    hasPermission: bool,
    currentLocation: Option<Coordinate>,
    dist: (Coordinate, Coordinate) -> real)
    ensures var nearby := NearbyCampsites(campsites, hasPermission, currentLocation, dist);
            forall x, y :: x in Displayed(nearby) && y in nearby[|Displayed(nearby)|..] ==> x.rating >= y.rating
  {
    var nearby := NearbyCampsites(campsites, hasPermission, currentLocation, dist);
    var shown := Displayed(nearby);
    PrefixDominates(nearby, Order(ByRating), |shown|);
    assert shown == nearby[..|shown|];
    forall x, y | x in shown && y in nearby[|shown|..] ensures x.rating >= y.rating {
      assert Order(ByRating)(x, y);
    }
  }
}
