/** A campsite record as the app stores it (HandsUpSOS/CampsiteModel.swift),
    with the fields the rest of the app reads from it, and its initialiser. */
module CampsiteModel {
  import opened Options
  import opened Sequences

  /** A latitude/longitude pair in degrees (`CLLocationCoordinate2D`). */
  datatype Coordinate = Coordinate(latitude: real, longitude: real)

  /** Campsites are identified by a UUID fixed when the record is made. */
  type CampsiteId = nat

  /** Seconds since the reference date (`Date`). */
  type Timestamp = int

  datatype CampsiteCategory =
    | BushCamping
    | CaravanPark
    | FreeCamping
    | NationalPark
    | PrivateProperty
    | Other
  {
    /** The category's raw value, which is also what the app shows and
        searches. */
    function Label(): string {
      match this
      case BushCamping => "Bush Camping"
      case CaravanPark => "Caravan Park"
      case FreeCamping => "Free Camping"
      case NationalPark => "National Park"
      case PrivateProperty => "Private Property"
      case Other => "Other"
    }
  }

  /** `CampsiteCategory.allCases`, in declaration order. */
  const AllCategories: seq<CampsiteCategory> :=
    [BushCamping, CaravanPark, FreeCamping, NationalPark, PrivateProperty, Other]

  datatype CellReceptionLevel = Excellent | Good | Fair | Poor | NoReception | Unknown {
    function Label(): string {
      match this
      case Excellent => "Excellent"
      case Good => "Good"
      case Fair => "Fair"
      case Poor => "Poor"
      case NoReception => "None"
      case Unknown => "Unknown"
    }
  }

  datatype CampingType = Tent | Caravan | Motorhome | Cabin | Glamping | Hammock | Bivouac | OtherType {
    function Label(): string {
      match this
      case Tent => "Tent"
      case Caravan => "Caravan"
      case Motorhome => "Motorhome"
      case Cabin => "Cabin"
      case Glamping => "Glamping"
      case Hammock => "Hammock"
      case Bivouac => "Bivouac"
      case OtherType => "Other"
    }
  }

  datatype Season = Spring | Summer | Autumn | Winter {
    function Label(): string {
      match this
      case Spring => "Spring"
      case Summer => "Summer"
      case Autumn => "Autumn"
      case Winter => "Winter"
    }
  }

  /** Every field any part of the app reads from a campsite. */
  datatype Campsite = Campsite(
    id: CampsiteId,
    name: string,
    location: Coordinate,
    address: string,
    notes: string,
    category: CampsiteCategory,
    rating: int,
    dateAdded: Timestamp,
    photos: seq<string>,
    phoneNumber: Option<string>,
    website: Option<string>,
    cost: Option<string>,
    maxOccupancy: Option<int>,
    hasWater: bool,
    hasElectricity: bool,
    hasToilets: bool,
    hasShowers: bool,
    hasFirePit: bool,
    hasBBQ: bool,
    hasParking: bool,
    isAccessible: bool,
    emergencyContact: Option<string>,
    nearestHospital: Option<string>,
    nearestPolice: Option<string>,
    cellReception: CellReceptionLevel,
    accessibilityNotes: string,
    emergencyNotes: string,
    campingType: CampingType,
    seasonAvailability: seq<Season>)

  /** The seven amenity flags in the order the app lists them: water,
      electricity, toilets, showers, fire pit, BBQ, parking. */
  function AmenityFlags(c: Campsite): (flags: seq<bool>)
    ensures |flags| == 7
  {
    [c.hasWater, c.hasElectricity, c.hasToilets, c.hasShowers, c.hasFirePit, c.hasBBQ, c.hasParking]
  }

  /** `max(1, min(5, rating))`: the initialiser's clamp into one to five
      stars. */
  function ClampRating(rating: int): (stars: int)
    ensures 1 <= stars <= 5
    ensures 1 <= rating <= 5 ==> stars == rating
    ensures rating > 5 ==> stars == 5
    ensures rating < 1 ==> stars == 1
  {
    var capped := if 5 < rating then 5 else rating;
    if capped < 1 then 1 else capped
  }

  /** `Campsite.init(name:location:notes:category:rating:)`. The identifier and
      the creation time, which the app takes from `UUID()` and `Date()`, are
      parameters. The fields this initialiser does not take start at the
      add-campsite form's initial values. */
  function NewCampsite(
    id: CampsiteId,
    now: Timestamp,
    name: string,
    location: Coordinate,
    notes: string := "",
    category: CampsiteCategory := BushCamping,
    rating: int := 3): (c: Campsite)
    ensures c.id == id && c.dateAdded == now
    ensures c.name == name && c.location == location && c.notes == notes && c.category == category
    ensures 1 <= c.rating <= 5
    ensures 1 <= rating <= 5 ==> c.rating == rating
    ensures c.photos == []
  {
    Campsite(
      id, name, location, "", notes, category, ClampRating(rating), now, [],
      None, None, None, None,
      false, false, false, false, false, false, false,
      false, None, None, None,
      Unknown, "", "", Tent, [Spring, Summer, Autumn, Winter])
  }

  /** Leaving out notes, category and rating gives an empty note, bush
      camping and three stars. */
  lemma NewCampsiteDefaults(id: CampsiteId, now: Timestamp, name: string, location: Coordinate)
    ensures NewCampsite(id, now, name, location).notes == ""
    ensures NewCampsite(id, now, name, location).category == BushCamping
    ensures NewCampsite(id, now, name, location).rating == 3
  {
  }

  /** Out-of-range ratings are clamped to the nearer end of one to five. */
  lemma NewCampsiteClampsRating(id: CampsiteId, now: Timestamp, name: string, location: Coordinate, rating: int)
    ensures rating > 5 ==> NewCampsite(id, now, name, location, rating := rating).rating == 5
    ensures rating < 1 ==> NewCampsite(id, now, name, location, rating := rating).rating == 1
  {
  }

  /** There are six categories, every category is one of them, and no two
      share a label. */
  lemma CategoriesAreSixWithDistinctLabels()
    ensures |AllCategories| == 6 && Distinct(AllCategories)
    ensures forall c: CampsiteCategory :: c in AllCategories
    ensures forall a: CampsiteCategory, b: CampsiteCategory :: a.Label() == b.Label() ==> a == b
  {
    forall c: CampsiteCategory ensures c in AllCategories {
      match c
      case BushCamping => assert AllCategories[0] == c;
      case CaravanPark => assert AllCategories[1] == c;
      case FreeCamping => assert AllCategories[2] == c;
      case NationalPark => assert AllCategories[3] == c;
      case PrivateProperty => assert AllCategories[4] == c;
      case Other => assert AllCategories[5] == c;
    }
  }
}
