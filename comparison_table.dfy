/** The decisions the comparison table makes for each cell: which icon a
    feature value gets, whether its text is shown, which feature rows exist,
    and what the rating cell says. Rendering itself is not modelled. */
module ComparisonTable {
  import opened Wrappers
  import opened Strings
  import opened Json

  datatype Glyph = Check | Cross | Minus

  /** An icon: its glyph, its colour class and its pixel size. */
  datatype Icon = Icon(glyph: Glyph, className: string, size: nat)

  datatype RatingCell = NoData | RatingValue(rating: real)

  const IconSize := 20
  const KeyFeatures: seq<string> := ["Pricing", "User Rating"]

  /** A string value that signals only partial support. */
  predicate MentionsLimitation(s: string)
  {
    Contains(Lower(s), "limited") || Contains(Lower(s), "partial")
  }

  /** `getFeatureIcon`: booleans give a check or a cross, strings a check or,
      when they mention a limitation, a yellow minus; anything else, including
      a missing value, a grey minus. */
  function FeatureIcon(value: Field): (icon: Icon)
    ensures icon.size == IconSize
    ensures icon.glyph == Cross <==> value == Some(Bool(false))
    ensures icon.glyph == Check <==>
              value == Some(Bool(true)) || (value.Some? && value.value.Str? && !MentionsLimitation(value.value.s))
    ensures icon.className == "text-yellow-500" <==>
              value.Some? && value.value.Str? && MentionsLimitation(value.value.s)
    ensures icon.className == "text-gray-400" <==> value.None? || !(value.value.Bool? || value.value.Str?)
    ensures icon.glyph == Minus <==> icon.className in {"text-yellow-500", "text-gray-400"}
    ensures icon.glyph == Check ==> icon.className == "text-green-500"
    ensures icon.glyph == Cross ==> icon.className == "text-red-400"
  {
    match value
    case Some(Bool(b)) => if b then Icon(Check, "text-green-500", IconSize) else Icon(Cross, "text-red-400", IconSize)
    case Some(Str(s)) =>
      if MentionsLimitation(s) then Icon(Minus, "text-yellow-500", IconSize) else Icon(Check, "text-green-500", IconSize)
    case _ => Icon(Minus, "text-gray-400", IconSize)
  }

  /** A string too short to hold "limited" or "partial", such as "false",
      "true", "Yes" or "No", always gets the green check. */
  lemma ShortStringsGetCheck(s: string)
    requires |s| < 7
    ensures FeatureIcon(Some(Str(s))) == Icon(Check, "text-green-500", IconSize)
  {
    assert !MentionsLimitation(s) by {
      assert forall i :: !OccursAt(Lower(s), "limited", i);
      assert forall i :: !OccursAt(Lower(s), "partial", i);
    }
  }

  /** The text of a string value is shown beside its icon unless it reads
      "true" or "false" in any letter case. */
  predicate ShowsTextLabel(value: Field)
  {
    value.Some? && value.value.Str? && Lower(value.value.s) != "true" && Lower(value.value.s) != "false"
  }

  /** A cell that shows a text label has a string value, so its icon is a
      green check or a yellow minus, never a cross or a grey minus. */
  lemma LabelledCellIcon(value: Field)
    requires ShowsTextLabel(value)
    ensures FeatureIcon(value).className in {"text-green-500", "text-yellow-500"}
    ensures value.value.Str?
  {
  }

  /** `getFeatureValue`: `product.features[feature]`. Indexing a missing or
      null feature object throws. */
  function FeatureValue(features: Field, feature: string): (r: Result<Field>)
    ensures r.Success? <==> features.Some? && !features.value.Null?
    ensures features.Some? && features.value.Obj? ==> r == Success(Get(features.value.members, feature))
    ensures features.Some? && !features.value.Null? && !features.value.Obj? ==> r == Success(None)
  {
    if features.None? || features.value.Null? then
      Failure("Cannot read properties of " + (if features.None? then "undefined" else "null")
              + " (reading '" + feature + "')")
    else
      Success(Property(features.value, feature))
  }

  /** `otherFeatures`: the feature names without the key-information rows,
      in their original order. */
  function OtherFeatures(features: seq<string>): (r: seq<string>)
    ensures forall f :: f in r <==> f in features && f !in KeyFeatures
    ensures |r| <= |features|
    ensures (forall i :: 0 <= i < |features| ==> features[i] !in KeyFeatures) ==> r == features
  {
    if |features| == 0 then []
    else
      var rest := OtherFeatures(features[1..]);
      assert forall f :: f in features <==> f == features[0] || f in features[1..];
      if features[0] in KeyFeatures then rest else [features[0]] + rest
  }

  /** Filtering distributes over concatenation, so every kept name stays in
      its place relative to the others. */
  lemma {:induction false} OtherFeaturesAppend(a: seq<string>, b: seq<string>)
    ensures OtherFeatures(a + b) == OtherFeatures(a) + OtherFeatures(b)
  {
    if |a| == 0 {
      assert a + b == b;
    } else {
      assert (a + b)[1..] == a[1..] + b;
      OtherFeaturesAppend(a[1..], b);
    }
  }

  /** The "Additional Features" header appears exactly when some feature name
      is not a key-information row. */
  predicate ShowsAdditionalFeatures(features: seq<string>)
  {
    |OtherFeatures(features)| > 0
  }

  lemma AdditionalFeaturesHeader(features: seq<string>)
    ensures ShowsAdditionalFeatures(features) <==> exists i :: 0 <= i < |features| && features[i] !in KeyFeatures
  {
    var r := OtherFeatures(features);
    if |r| > 0 {
      assert r[0] in r;
    } else if exists i :: 0 <= i < |features| && features[i] !in KeyFeatures {
      var i :| 0 <= i < |features| && features[i] !in KeyFeatures;
      assert features[i] in r;
    }
  }

  /** The user-rating cell: a missing or zero rating reads "No data". */
  function RatingCellOf(rating: Option<real>): (cell: RatingCell)
    ensures cell.NoData? <==> rating.None? || rating.value == 0.0
    ensures cell.RatingValue? ==> cell.rating == rating.value
  {
    if rating.Some? && rating.value != 0.0 then RatingValue(rating.value) else NoData
  }
}
