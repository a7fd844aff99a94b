/** The decisions a product card makes: its gradient, its badge colour, the
    rating line when there is no rating, which features it lists and the icon
    each gets. Rendering itself is not modelled. */
module ProductCard {
  import opened Wrappers
  import opened Strings
  import opened Json
  import opened Schema
  import ComparisonTable
  import GooglePlaces

  datatype StarsView = NoRatingData | Stars(rating: real)

  const IconSize := 16
  const Gradients: seq<string> := ["gradient-primary", "gradient-blue", "gradient-green"]
  const BadgeColors: map<string, string> := map[
    "green" := "bg-green-100 text-green-800",
    "blue" := "bg-blue-100 text-blue-800",
    "orange" := "bg-orange-100 text-orange-800",
    "purple" := "bg-purple-100 text-purple-800"]
  const DefaultBadgeClass := "bg-blue-100 text-blue-800"

  /** `gradients[index] || "gradient-primary"`: the card's position picks its
      gradient; past the third card the first one is used again. */
  function Gradient(index: int): (r: string)
    ensures 0 <= index < |Gradients| ==> r == Gradients[index]
    ensures !(0 <= index < |Gradients|) ==> r == "gradient-primary"
    ensures r in Gradients
  {
    if 0 <= index < |Gradients| then Gradients[index] else "gradient-primary"
  }

  /** The badge's colour classes: a known colour name gets its own pair, any
      other or missing value the blue pair. */
  function BadgeColorClass(badgeColor: Field): (r: string)
    ensures badgeColor.Some? && badgeColor.value.Str? && badgeColor.value.s in BadgeColors ==>
              r == BadgeColors[badgeColor.value.s]
    ensures !(badgeColor.Some? && badgeColor.value.Str? && badgeColor.value.s in BadgeColors) ==>
              r == DefaultBadgeClass
    ensures r in BadgeColors.Values
  {
    assert BadgeColors["blue"] == DefaultBadgeClass;
    if badgeColor.Some? && badgeColor.value.Str? && badgeColor.value.s in BadgeColors then
      BadgeColors[badgeColor.value.s]
    else
      DefaultBadgeClass
  }

  /** Every badge a place result carries has a colour of its own in the card's
      table, and is shown. */
  lemma PlaceBadgesAreShownInTheirColour(place: GooglePlaces.Place)
    ensures var r := GooglePlaces.FormatAsComparisonResult(place);
            && r.badgeColor.value.s in BadgeColors
            && BadgeColorClass(r.badgeColor) == BadgeColors[r.badgeColor.value.s]
            && ShowsBadge(r.badge)
  {
    var b := GooglePlaces.ChooseBadge(place.rating, GooglePlaces.PriceLevel(place.priceLevel));
    assert b.text != "";
  }

  /** `renderStars`: a null rating reads "No rating data". Unlike the table,
      a zero rating is still drawn as stars. */
  function StarsOf(rating: Option<real>): (view: StarsView)
    ensures view.NoRatingData? <==> rating.None?
    ensures view.Stars? ==> view.rating == rating.value
  {
    if rating.None? then NoRatingData else Stars(rating.value)
  }

  /** `Object.entries(value)`: an object's own properties in order; an array's
      or a string's elements under their decimal indices; nothing for a
      boolean or a number; and a thrown error for undefined or null. */
  function Entries(value: Field): (r: Result<seq<(string, Value)>>)
    ensures r.Success? <==> value.Some? && !value.value.Null?
    ensures value.Some? && value.value.Obj? ==> r == Success(value.value.members)
    ensures value.Some? && value.value.Arr? ==> r.Success? && |r.value| == |value.value.items|
  {
    match value
    case None => Failure("Cannot convert undefined or null to object")
    case Some(Null) => Failure("Cannot convert undefined or null to object")
    case Some(Bool(_)) => Success([])
    case Some(Num(_)) => Success([])
    case Some(Str(s)) => Success(seq(|s|, i requires 0 <= i < |s| => (NatToString(i), Str([s[i]]))))
    case Some(Arr(items)) => Success(seq(|items|, i requires 0 <= i < |items| => (NatToString(i), items[i])))
    case Some(Obj(members)) => Success(members)
  }

  /** The features listed on a card: the first two entries of the feature
      object, in insertion order. */
  function TopFeatures(features: Field): (r: Result<seq<(string, Value)>>)
    ensures r.Success? <==> Entries(features).Success?
    ensures r.Success? ==> |r.value| == GooglePlaces.Min(2, |Entries(features).value|)
    ensures r.Success? ==> r.value == Entries(features).value[..|r.value|]
  {
    match Entries(features)
    case Failure(e) => Failure(e)
    case Success(entries) => Success(entries[..GooglePlaces.Min(2, |entries|)])
  }

  /** A place result lists its "Address" and "Price Range" features. */
  lemma PlaceCardShowsAddressAndPrice(place: GooglePlaces.Place)
    ensures var top := TopFeatures(GooglePlaces.FormatAsComparisonResult(place).features);
            top.Success? && |top.value| == 2
            && top.value[0].0 == "Address" && top.value[1] == ("Price Range", Str(GooglePlaces.Pricing(place)))
  {
    GooglePlaces.FeaturesStartWithCommonKeys(place);
  }

  /** The card's `getFeatureIcon`: the table's classification at the card's size. */
  function FeatureIcon(value: Field): (icon: ComparisonTable.Icon)
    ensures icon.size == IconSize
  {
    match value
    case Some(Bool(b)) =>
      if b then ComparisonTable.Icon(ComparisonTable.Check, "text-green-500", IconSize)
      else ComparisonTable.Icon(ComparisonTable.Cross, "text-red-400", IconSize)
    case Some(Str(s)) =>
      if Contains(Lower(s), "limited") || Contains(Lower(s), "partial") then
        ComparisonTable.Icon(ComparisonTable.Minus, "text-yellow-500", IconSize)
      else
        ComparisonTable.Icon(ComparisonTable.Check, "text-green-500", IconSize)
    case _ => ComparisonTable.Icon(ComparisonTable.Minus, "text-gray-400", IconSize)
  }

  /** Card and table classify every value the same way; only the size differs. */
  lemma SameClassificationAsTable(value: Field)
    ensures FeatureIcon(value) == ComparisonTable.FeatureIcon(value).(size := IconSize)
  {
  }

  /** The badge is rendered only when its text is truthy. */
  predicate ShowsBadge(badge: Field)
  {
    Truthy(badge)
  }
}
