/** Local-business search: turning place records from the places API into
    comparison results, and the column list for each kind of business. */
module GooglePlaces {
  import opened Wrappers
  import opened Strings
  import opened Json
  import opened Schema

  datatype OpeningHours = OpeningHours(openNow: bool, weekdayText: Option<seq<string>>)

  /** A place record as the text-search or the details endpoint returns it. */
  datatype Place = Place(
    placeId: string,
    name: string,
    formattedAddress: string,
    rating: Option<real>,
    priceLevel: Option<int>,
    openingHours: Option<OpeningHours>,
    website: Option<string>,
    phoneNumber: Option<string>,
    types: seq<string>,
    businessStatus: string)

  /** What the text-search request yields: a decoded body, or the message of
      the exception raised while fetching or decoding it. */
  datatype SearchReply = Answered(status: string, results: seq<Place>) | FetchFailed(message: string)

  datatype Badge = Badge(text: string, color: string)

  const CommonFeatures: seq<string> :=
    ["Address", "Price Range", "Currently Open", "Phone Number", "Business Status"]
  const MissingKeyMessage := "Google Places API key not available"
  const AccessDeniedMessage :=
    "Google Places API access denied. Please ensure the API key has Places API enabled and proper billing configured in Google Cloud Console."
  const MapsPlacePrefix := "https://www.google.com/maps/place/?q=place_id:"

  function Min(a: int, b: int): int { if a <= b then a else b }

  /** `place.price_level || 2`: a missing or zero level counts as 2. */
  function PriceLevel(level: Option<int>): int
  {
    if level.Some? && level.value != 0 then level.value else 2
  }

  /** The price table lookup with its `"$$"` fallback. */
  function PriceRange(level: int): string
  {
    match level
    case 1 => "$"
    case 2 => "$$"
    case 3 => "$$$"
    case 4 => "$$$$"
    case _ => "$$"
  }

  /** A run of `k` dollar signs. */
  function Dollars(k: nat): (r: string)
    ensures |r| == k
    ensures forall i :: 0 <= i < k ==> r[i] == '$'
  {
    seq(k, _ => '$')
  }

  /** The price string is one dollar sign per level for levels 1 to 4, and two
      dollar signs for a missing, zero or unmapped level. */
  lemma PricingIsDollarSigns(level: Option<int>)
    ensures PriceRange(PriceLevel(level)) ==
            if level.Some? && 1 <= level.value <= 4 then Dollars(level.value) else Dollars(2)
  {
    var p := PriceRange(PriceLevel(level));
    var k := if level.Some? && 1 <= level.value <= 4 then level.value else 2;
    assert |p| == k;
    assert forall i :: 0 <= i < k ==> p[i] == '$';
  }

  /** The badge: a fixed priority chain over the rating, then the price level. */
  function ChooseBadge(rating: Option<real>, level: int): (b: Badge)
    ensures rating.Some? && rating.value >= 4.5 ==> b == Badge("Highly Rated", "green")
    ensures rating.Some? && 4.0 <= rating.value < 4.5 ==> b == Badge("Well Rated", "blue")
    ensures !(rating.Some? && rating.value >= 4.0) ==>
              b == (if level == 1 then Badge("Budget Friendly", "orange")
                    else if level == 4 then Badge("Premium", "purple")
                    else Badge("Local Business", "blue"))
    ensures b.color in {"green", "blue", "orange", "purple"}
  {
    if rating.Some? && rating.value != 0.0 && rating.value >= 4.5 then Badge("Highly Rated", "green")
    else if rating.Some? && rating.value != 0.0 && rating.value >= 4.0 then Badge("Well Rated", "blue")
    else if level == 1 then Badge("Budget Friendly", "orange")
    else if level == 4 then Badge("Premium", "purple")
    else Badge("Local Business", "blue")
  }

  /** `s || fallback` for an optional string. */
  function OrElse(s: Option<string>, fallback: string): string
  {
    if s.Some? && s.value != "" then s.value else fallback
  }

  predicate IsRestaurant(place: Place)
  {
    "restaurant" in place.types || "food" in place.types
  }

  predicate IsCoffeeShop(place: Place)
  {
    "cafe" in place.types || Contains(Lower(place.name), "coffee") || Contains(Lower(place.name), "cafe")
  }

  function Pricing(place: Place): string
  {
    PriceRange(PriceLevel(place.priceLevel))
  }

  /** The five features every place gets. */
  function CommonFeatureValues(place: Place): seq<(string, Value)>
  {
    [ ("Address", Str(if place.formattedAddress != "" then place.formattedAddress else "Address not available")),
      ("Price Range", Str(Pricing(place))),
      ("Currently Open", Str(if place.openingHours.Some? && place.openingHours.value.openNow then "Yes" else "No")),
      ("Phone Number", Str(OrElse(place.phoneNumber, "Not available"))),
      ("Business Status", Str(if place.businessStatus == "OPERATIONAL" then "Open" else "Status unknown")) ]
  }

  /** The two features for a coffee shop or, failing that, a restaurant. */
  function KindFeatureValues(place: Place): seq<(string, Value)>
  {
    if IsCoffeeShop(place) then
      [("Specialties", Str("Coffee & beverages")), ("Atmosphere", Str("Cafe environment"))]
    else if IsRestaurant(place) then
      [("Cuisine", Str("Various dishes")), ("Dining Experience", Str("Restaurant experience"))]
    else
      []
  }

  /** "Operating Hours", present when the place reports weekday text. */
  function HoursFeatureValue(place: Place): seq<(string, Value)>
  {
    if place.openingHours.Some? && place.openingHours.value.weekdayText.Some? then
      var text := place.openingHours.value.weekdayText.value;
      [("Operating Hours", Str(if |text| > 0 && text[0] != "" then text[0] else "Hours not available"))]
    else
      []
  }

  lemma GetInPrefix(a: seq<(string, Value)>, b: seq<(string, Value)>, key: string)
    requires key in Keys(a)
    ensures Get(a + b, key) == Get(a, key)
  {
    if a[0].0 != key {
      assert (a + b)[1..] == a[1..] + b;
      assert Keys(a) == [a[0].0] + Keys(a[1..]);
      GetInPrefix(a[1..], b, key);
    }
  }

  /** The feature object built for a place, in insertion order. */
  function PlaceFeatures(place: Place): seq<(string, Value)>
  {
    CommonFeatureValues(place) + KindFeatureValues(place) + HoursFeatureValue(place)
  }

  lemma KeysAppend(a: seq<(string, Value)>, b: seq<(string, Value)>)
    ensures Keys(a + b) == Keys(a) + Keys(b)
  {
  }

  /** The keys the kind-specific step inserts. */
  function KindKeys(place: Place): seq<string>
  {
    if IsCoffeeShop(place) then ["Specialties", "Atmosphere"]
    else if IsRestaurant(place) then ["Cuisine", "Dining Experience"]
    else []
  }

  /** The key the opening-hours step inserts, if any. */
  function HoursKeys(place: Place): seq<string>
  {
    if place.openingHours.Some? && place.openingHours.value.weekdayText.Some? then ["Operating Hours"] else []
  }

  /** The keys of the feature object: the common ones, then the kind-specific
      ones, then "Operating Hours". */
  lemma FeatureKeysInOrder(place: Place)
    ensures Keys(PlaceFeatures(place)) == CommonFeatures + KindKeys(place) + HoursKeys(place)
  {
    var common, kind, hours := CommonFeatureValues(place), KindFeatureValues(place), HoursFeatureValue(place);
    KeysAppend(kind, hours);
    KeysAppend(common, kind + hours);
    assert Keys(common) == CommonFeatures;
    assert Keys(kind) == KindKeys(place);
    assert Keys(hours) == HoursKeys(place);
  }

  /** The feature object always opens with the five common keys. */
  lemma FeaturesStartWithCommonKeys(place: Place)
    ensures |PlaceFeatures(place)| >= 5
    ensures Keys(PlaceFeatures(place))[..5] == CommonFeatures
  {
    FeatureKeysInOrder(place);
  }

  /** The "Price Range" feature is the pricing string, and "Currently Open"
      says "Yes" exactly when the place reports that it is open now. */
  lemma CommonFeatureValuesAgree(place: Place)
    ensures Get(PlaceFeatures(place), "Price Range") == Some(Str(Pricing(place)))
    ensures Get(PlaceFeatures(place), "Currently Open") ==
            Some(Str(if place.openingHours.Some? && place.openingHours.value.openNow then "Yes" else "No"))
  {
    var common := CommonFeatureValues(place);
    var rest := KindFeatureValues(place) + HoursFeatureValue(place);
    assert PlaceFeatures(place) == common + rest;
    assert Keys(common) == CommonFeatures;
    GetInPrefix(common, rest, "Price Range");
    GetInPrefix(common, rest, "Currently Open");
    assert common[0].0 == "Address";
    assert common[1..][0].0 == "Price Range";
    assert common[1..][1..] == common[2..];
    assert common[2..][0].0 == "Currently Open";
    assert Get(common, "Currently Open") == Get(common[1..], "Currently Open");
    assert Get(common[1..], "Currently Open") == Get(common[2..], "Currently Open");
  }

  /** "Operating Hours" is a key exactly when the place reports weekday text. */
  lemma OperatingHoursPresence(place: Place)
    ensures "Operating Hours" in Keys(PlaceFeatures(place)) <==>
            place.openingHours.Some? && place.openingHours.value.weekdayText.Some?
  {
    FeatureKeysInOrder(place);
    assert "Operating Hours" !in CommonFeatures;
    assert "Operating Hours" !in KindKeys(place);
  }

  /** A coffee shop gets the coffee-shop keys, even when it is also a
      restaurant; a restaurant that is not a coffee shop gets the restaurant
      keys; any other place gets neither. */
  lemma KindKeysPrecedence(place: Place)
    ensures IsCoffeeShop(place) ==>
              "Specialties" in Keys(PlaceFeatures(place)) && "Atmosphere" in Keys(PlaceFeatures(place))
              && "Cuisine" !in Keys(PlaceFeatures(place)) && "Dining Experience" !in Keys(PlaceFeatures(place))
    ensures !IsCoffeeShop(place) && IsRestaurant(place) ==>
              "Cuisine" in Keys(PlaceFeatures(place)) && "Dining Experience" in Keys(PlaceFeatures(place))
              && "Specialties" !in Keys(PlaceFeatures(place)) && "Atmosphere" !in Keys(PlaceFeatures(place))
    ensures !IsCoffeeShop(place) && !IsRestaurant(place) ==>
              Keys(PlaceFeatures(place)) == CommonFeatures + HoursKeys(place)
  {
    FeatureKeysInOrder(place);
    assert "Cuisine" !in CommonFeatures && "Dining Experience" !in CommonFeatures;
    assert "Specialties" !in CommonFeatures && "Atmosphere" !in CommonFeatures;
  }

  /** No feature key is inserted twice. */
  lemma FeatureKeysDistinct(place: Place)
    ensures DistinctKeys(PlaceFeatures(place))
  {
    FeatureKeysInOrder(place);
    var ks := Keys(PlaceFeatures(place));
    var all := ["Address", "Price Range", "Currently Open", "Phone Number", "Business Status",
                "Specialties", "Atmosphere", "Cuisine", "Dining Experience", "Operating Hours"];
    assert forall i, j :: 0 <= i < j < |all| ==> all[i] != all[j];
    forall i, j | 0 <= i < j < |ks| ensures ks[i] != ks[j] {
      if IsCoffeeShop(place) {
      } else if IsRestaurant(place) {
      } else {
      }
    }
  }

  /** `formatAsComparisonResult`: one place record as a comparison result. */
  function FormatAsComparisonResult(place: Place): (r: ComparisonResult)
    ensures r.name == Some(Str(place.name))
    ensures r.rating == None && r.logoUrl == Some(Null)
    ensures r.pricing == Some(Str(Pricing(place)))
    ensures r.description == Some(Str("Located at " + place.formattedAddress))
    ensures r.features == Some(Obj(PlaceFeatures(place)))
    ensures r.website == Some(Str(OrElse(place.website, MapsPlacePrefix + place.placeId)))
    ensures r.badge == Some(Str(ChooseBadge(place.rating, PriceLevel(place.priceLevel)).text))
    ensures r.badgeColor == Some(Str(ChooseBadge(place.rating, PriceLevel(place.priceLevel)).color))
  {
    var badge := ChooseBadge(place.rating, PriceLevel(place.priceLevel));
    ComparisonResult(
      name := Some(Str(place.name)),
      description := Some(Str("Located at " + place.formattedAddress)),
      pricing := Some(Str(Pricing(place))),
      rating := None,
      website := Some(Str(OrElse(place.website, MapsPlacePrefix + place.placeId))),
      logoUrl := Some(Null),
      features := Some(Obj(PlaceFeatures(place))),
      badge := Some(Str(badge.text)),
      badgeColor := Some(Str(badge.color)))
  }

  /** The "Price Range" feature of a formatted place always equals its pricing field. */
  lemma PriceRangeFeatureIsPricing(place: Place)
    ensures var r := FormatAsComparisonResult(place);
            Get(r.features.value.members, "Price Range") == r.pricing
  {
    CommonFeatureValuesAgree(place);
  }

  /** `getLocalBusinessFeatures`: the comparison columns for a business type. */
  function GetLocalBusinessFeatures(businessType: string): (r: seq<string>)
    ensures |r| == if Contains(businessType, "coffee") || Contains(businessType, "cafe") || Contains(businessType, "restaurant") then 8 else 7
    ensures r[..5] == CommonFeatures
    ensures "Operating Hours" in r
    ensures Contains(businessType, "coffee") || Contains(businessType, "cafe") ==>
              r[5..] == ["Specialties", "Atmosphere", "Operating Hours"]
    ensures !Contains(businessType, "coffee") && !Contains(businessType, "cafe") && Contains(businessType, "restaurant") ==>
              r[5..] == ["Cuisine", "Dining Experience", "Operating Hours"]
    ensures !Contains(businessType, "coffee") && !Contains(businessType, "cafe") && !Contains(businessType, "restaurant") ==>
              r[5..] == ["Operating Hours", "Services"]
  {
    if Contains(businessType, "coffee") || Contains(businessType, "cafe") then
      CommonFeatures + ["Specialties", "Atmosphere", "Operating Hours"]
    else if Contains(businessType, "restaurant") then
      CommonFeatures + ["Cuisine", "Dining Experience", "Operating Hours"]
    else
      CommonFeatures + ["Operating Hours", "Services"]
  }

  /** Every feature key the formatter produces for a place is a column of the
      list for a business type of the same kind. */
  lemma FeatureKeysAreListed(place: Place, businessType: string)
    requires IsCoffeeShop(place) <==> (Contains(businessType, "coffee") || Contains(businessType, "cafe"))
    requires !IsCoffeeShop(place) ==> (IsRestaurant(place) <==> Contains(businessType, "restaurant"))
    ensures forall k :: k in Keys(PlaceFeatures(place)) ==> k in GetLocalBusinessFeatures(businessType)
  {
    FeatureKeysInOrder(place);
  }

  /** The record a result is formatted from: the details when the lookup
      succeeds, the search hit itself otherwise. */
  function Resolve(place: Place, details: string -> Option<Place>): Place
  {
    match details(place.placeId)
    case Some(d) => d
    case None => place
  }

  /** `searchLocalBusinesses`, with the search request and the per-place
      details request given as oracles. */
  method SearchLocalBusinesses(apiKey: Option<string>, reply: SearchReply, details: string -> Option<Place>)
    returns (r: Result<seq<ComparisonResult>>)
    ensures (apiKey.None? || apiKey.value == "") ==> r == Failure(MissingKeyMessage)
    ensures apiKey.Some? && apiKey.value != "" && reply.FetchFailed? ==> r == Failure(reply.message)
    ensures apiKey.Some? && apiKey.value != "" && reply.Answered? && reply.status == "REQUEST_DENIED" ==>
              r == Failure(AccessDeniedMessage)
    ensures apiKey.Some? && apiKey.value != "" && reply.Answered?
            && reply.status != "OK" && reply.status != "ZERO_RESULTS" && reply.status != "REQUEST_DENIED" ==>
              r == Failure("Google Places API error: " + reply.status)
    ensures r.Success? <==>
              apiKey.Some? && apiKey.value != "" && reply.Answered? && (reply.status == "OK" || reply.status == "ZERO_RESULTS")
    ensures r.Success? ==> |r.value| == Min(3, |reply.results|)
    ensures r.Success? ==> forall i :: 0 <= i < |r.value| ==>
              r.value[i] == FormatAsComparisonResult(Resolve(reply.results[i], details))
  {
    if apiKey.None? || apiKey.value == "" {
      return Failure(MissingKeyMessage);
    }
    if reply.FetchFailed? {
      return Failure(reply.message);
    }
    if reply.status != "OK" && reply.status != "ZERO_RESULTS" {
      if reply.status == "REQUEST_DENIED" {
        return Failure(AccessDeniedMessage);
      }
      return Failure("Google Places API error: " + reply.status);
    }
    if |reply.results| == 0 {
      return Success([]);
    }
    var topResults := reply.results[..Min(3, |reply.results|)];
    var detailedResults: seq<ComparisonResult> := [];
    for i := 0 to |topResults|
      invariant |detailedResults| == i
      invariant forall k :: 0 <= k < i ==>
                  detailedResults[k] == FormatAsComparisonResult(Resolve(topResults[k], details))
    {
      var place := topResults[i];
      var looked := details(place.placeId);
      if looked.Some? {
        detailedResults := detailedResults + [FormatAsComparisonResult(looked.value)];
      } else {
        detailedResults := detailedResults + [FormatAsComparisonResult(place)];
      }
    }
    return Success(detailedResults);
  }
}
