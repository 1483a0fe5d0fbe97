/** The emergency warning feed (HandsUpSOS/EmergencyWarningService.swift):
    warning records with their severity order, the service object that holds
    the active warnings, its refresh and its mock load, and the two queries
    the screens make of it. */
module EmergencyWarnings {
  import opened Options
  import opened Sequences
  import opened CampsiteModel

  // ---------------------------------------------------------------------------
  // Warning records
  // ---------------------------------------------------------------------------

  datatype WarningType = Fire | SevereWeather | Flood | Storm | Heatwave | Medical | OtherWarning {
    function Label(): string {
      match this
      case Fire => "Fire"
      case SevereWeather => "Severe Weather"
      case Flood => "Flood"
      case Storm => "Storm"
      case Heatwave => "Heatwave"
      case Medical => "Medical Emergency"
      case OtherWarning => "Other"
    }
  }

  datatype WarningSeverity = Low | Moderate | High | Severe | Critical {
    function Label(): string {
      match this
      case Low => "Low"
      case Moderate => "Moderate"
      case High => "High"
      case Severe => "Severe"
      case Critical => "Critical"
    }

    /** `priority`: one for low up to five for critical. */
    function Priority(): (p: int)
      ensures 1 <= p <= 5
    {
      match this
      case Low => 1
      case Moderate => 2
      case High => 3
      case Severe => 4
      case Critical => 5
    }
  }

  /** `<` on severities compares priorities. */
  predicate SeverityLess(a: WarningSeverity, b: WarningSeverity) {
    a.Priority() < b.Priority()
  }

  /** `>=`, which `Comparable` derives as "not `<`". */
  predicate SeverityAtLeast(a: WarningSeverity, b: WarningSeverity) {
    !SeverityLess(a, b)
  }

  /** Different severities have different priorities, so `<` is a strict
      total order on severities. */
  lemma SeverityOrderIsStrictTotal()
    ensures forall a: WarningSeverity, b: WarningSeverity :: a.Priority() == b.Priority() ==> a == b
    ensures forall a: WarningSeverity :: !SeverityLess(a, a)
    ensures forall a: WarningSeverity, b: WarningSeverity, c: WarningSeverity ::
              SeverityLess(a, b) && SeverityLess(b, c) ==> SeverityLess(a, c)
    ensures forall a: WarningSeverity, b: WarningSeverity :: a != b ==> SeverityLess(a, b) || SeverityLess(b, a)
  {
    forall a: WarningSeverity, b: WarningSeverity | a.Priority() == b.Priority() ensures a == b {
      match a
      case Low => assert b.Low?;
      case Moderate => assert b.Moderate?;
      case High => assert b.High?;
      case Severe => assert b.Severe?;
      case Critical => assert b.Critical?;
    }
  }

  /** The severities at or above severe are severe and critical. */
  lemma AtLeastSevere(s: WarningSeverity)
    ensures SeverityAtLeast(s, Severe) <==> s == Severe || s == Critical
  {
  }

  datatype EmergencyWarning = EmergencyWarning(
    id: nat,
    warningType: WarningType,
    severity: WarningSeverity,
    title: string,
    description: string,
    location: string,
    coordinates: Option<Coordinate>,
    issuedDate: Timestamp,
    expiresDate: Option<Timestamp>,
    source: string)

  /** A warning without coordinates is shown wherever the user is; one with
      coordinates only within this many kilometres. */
  const WarningRadius: real := 100.0

  const SecondsPerHour: int := 3600
  const SecondsPerDay: int := 86400

  const BushfireTitle := "Bushfire Warning - Blue Mountains"
  const BushfireDescription :=
    "Extreme fire danger in Blue Mountains National Park. Evacuate immediately if in affected areas."
  const BushfireLocation := "Blue Mountains, NSW"
  const BushfireSource := "NSW Rural Fire Service"

  const StormTitle := "Severe Storm Warning - Sydney Region"
  const StormDescription :=
    "Heavy rainfall, damaging winds, and large hail expected across Sydney metropolitan area."
  const StormLocation := "Sydney Region, NSW"

  const HeatwaveTitle := "Heatwave Warning - Victoria"
  const HeatwaveDescription :=
    "Extended period of hot weather expected across Victoria with temperatures above 35°C."
  const HeatwaveLocation := "Victoria"

  const BureauOfMeteorology := "Bureau of Meteorology"

  /** The critical bushfire warning, expiring six hours after `now`. */
  function BushfireWarning(id: nat, now: Timestamp): EmergencyWarning {
    EmergencyWarning(
      id, Fire, Critical, BushfireTitle, BushfireDescription, BushfireLocation,
      Some(Coordinate(-33.7128, 150.3119)), now, Some(now + 6 * SecondsPerHour), BushfireSource)
  }

  /** The high storm warning, expiring three hours after `now`. */
  function StormWarning(id: nat, now: Timestamp): EmergencyWarning {
    EmergencyWarning(
      id, SevereWeather, High, StormTitle, StormDescription, StormLocation,
      Some(Coordinate(-33.8688, 151.2093)), now, Some(now + 3 * SecondsPerHour), BureauOfMeteorology)
  }

  /** The moderate heatwave warning, expiring three days after `now`. */
  function HeatwaveWarning(id: nat, now: Timestamp): EmergencyWarning {
    EmergencyWarning(
      id, Heatwave, Moderate, HeatwaveTitle, HeatwaveDescription, HeatwaveLocation,
      Some(Coordinate(-37.8136, 144.9631)), now, Some(now + 3 * SecondsPerDay), BureauOfMeteorology)
  }

  /** The three warnings `loadMockWarnings` installs, issued at `now`, with
      the identifiers `UUID()` would have drawn given as parameters. */
  function MockWarnings(ids: (nat, nat, nat), now: Timestamp): seq<EmergencyWarning> {
    [BushfireWarning(ids.0, now), StormWarning(ids.1, now), HeatwaveWarning(ids.2, now)]
  }

  /** The mock feed holds three warnings, all issued at `now` and expiring
      later, and exactly one of them, the first, is critical. */
  lemma MockWarningsShape(ids: (nat, nat, nat), now: Timestamp)
    ensures |MockWarnings(ids, now)| == 3
    ensures forall w :: w in MockWarnings(ids, now) ==>
              w.issuedDate == now && w.expiresDate.Some? && w.expiresDate.value > now
    ensures forall k :: 0 <= k < 3 ==> (MockWarnings(ids, now)[k].severity == Critical <==> k == 0)
  {
  }

  // ---------------------------------------------------------------------------
  // The service
  // ---------------------------------------------------------------------------

  /** `EmergencyWarningService`: the active warnings, whether a refresh is in
      progress, when the warnings were last refreshed and the last error. */
  class EmergencyWarningService {
    var activeWarnings: seq<EmergencyWarning>
    var isLoading: bool
    var lastUpdated: Option<Timestamp>
    var errorMessage: Option<string>

    /** `init()`: starts with no warnings and then loads the mock feed. */
    constructor(ids: (nat, nat, nat), now: Timestamp)
      ensures activeWarnings == MockWarnings(ids, now)
      ensures !isLoading && lastUpdated == Some(now) && errorMessage == None
    {
      activeWarnings := [];
      isLoading := false;
      lastUpdated := None;
      errorMessage := None;
      new;
      LoadMockWarnings(ids, now);
    }

    /** `loadMockWarnings`: replaces the active warnings wholesale and stamps
        the update time; the loading flag and the error are untouched. */
    method LoadMockWarnings(ids: (nat, nat, nat), now: Timestamp)
      modifies this
      ensures activeWarnings == MockWarnings(ids, now)
      ensures lastUpdated == Some(now)
      ensures isLoading == old(isLoading) && errorMessage == old(errorMessage)
    {
      activeWarnings := MockWarnings(ids, now);
      lastUpdated := Some(now);
    }

    /** `fetchEmergencyWarnings`, with the simulated network delay left out:
        the error is cleared, loading is switched on and off again, the
        update time is stamped and the warnings stay as they were. */
    method FetchEmergencyWarnings(now: Timestamp)
      modifies this
      ensures activeWarnings == old(activeWarnings)
      ensures !isLoading && errorMessage == None && lastUpdated == Some(now)
    {
      isLoading := true;
      errorMessage := None;
      isLoading := false;
      lastUpdated := Some(now);
    }

    /** `getCriticalWarnings`: the active warnings of severity severe or
        critical, in order; none exactly when no active warning is. */
    function GetCriticalWarnings(): (r: seq<EmergencyWarning>)
      reads this
      ensures Selects(r, activeWarnings, (w: EmergencyWarning) => SeverityAtLeast(w.severity, Severe))
      ensures forall w :: w in r <==> w in activeWarnings && (w.severity == Severe || w.severity == Critical)
      ensures r == [] <==> forall w :: w in activeWarnings ==> w.severity != Severe && w.severity != Critical
    {
      var p := (w: EmergencyWarning) => SeverityAtLeast(w.severity, Severe);
      FilterSelects(activeWarnings, p);
      Filter(activeWarnings, p)
    }

    /** `getWarningsForLocation`: the active warnings, in order, that either
        have no coordinates or lie within the warning radius of `location`;
        `dist` is the great-circle distance in kilometres. */
    function GetWarningsForLocation(location: Coordinate, dist: (Coordinate, Coordinate) -> real): (r: seq<EmergencyWarning>)
      reads this
      ensures Selects(r, activeWarnings, (w: EmergencyWarning) =>
                w.coordinates.None? || dist(location, w.coordinates.value) <= WarningRadius)
      ensures forall w :: w in activeWarnings && w.coordinates.None? ==> w in r
      ensures forall w :: w in activeWarnings && w.coordinates.Some? ==>
                (w in r <==> dist(location, w.coordinates.value) <= WarningRadius)
    {
      var p := (w: EmergencyWarning) =>
        w.coordinates.None? || dist(location, w.coordinates.value) <= WarningRadius;
      FilterSelects(activeWarnings, p);
      Filter(activeWarnings, p)
    }
  }

  /** After the mock load, the critical warnings are exactly the bushfire
      warning. */
  lemma MockCriticalWarnings(service: EmergencyWarningService, ids: (nat, nat, nat), now: Timestamp)
    requires service.activeWarnings == MockWarnings(ids, now)
    ensures service.GetCriticalWarnings() == [MockWarnings(ids, now)[0]]
  {
    var ws := MockWarnings(ids, now);
    var p := (w: EmergencyWarning) => SeverityAtLeast(w.severity, Severe);
    assert !p(ws[1]) && !p(ws[2]) && p(ws[0]);
    assert ws[..1][..0] == [];
    assert Filter(ws[..1], p) == [ws[0]];
    assert ws[..2][..1] == ws[..1];
    assert Filter(ws[..2], p) == [ws[0]];
    assert ws[..2] == ws[..|ws| - 1];
  }
}
