/** What the server does with the LLM's JSON answer once it has been parsed:
    checking its shape, filling in defaults, and rewriting every product so
    that it carries no rating. The LLM itself is an oracle. */
module OpenAi {
  import opened Wrappers
  import opened Json
  import opened Schema

  /** What a chat-completion request yields: the call or `JSON.parse` threw
      (with that message), the message content was missing or empty (so
      `"{}"` is parsed), or the content parsed to a value. */
  datatype Completion = Errored(message: string) | Empty | Parsed(value: Value)

  const InvalidFormat := "Invalid response format from OpenAI"
  const NoProductsMessage :=
    "No products found matching your search criteria. Please try a different search term."
  const ComparisonFailurePrefix := "Failed to generate product comparison: "
  const InvalidExamples := "Invalid response format from OpenAI for placeholder examples"
  /** What reading a property of `null` throws (V8's wording). */
  const NullPropertyMessage := "Cannot read properties of null (reading 'name')"
  const NullExamplesMessage := "Cannot read properties of null (reading 'examples')"

  /** The parsed value the code goes on with. */
  function ParsedValue(c: Completion): Value
    requires !c.Errored?
  {
    if c.Empty? then Obj([]) else c.value
  }

  /** One product as the comparison passes it on: every field copied as the
      model sent it, `rating` forced to null. */
  function RewriteProduct(product: Value): (r: ComparisonResult)
    requires !product.Null?
    ensures r.rating == None
    ensures r.name == Property(product, "name") && r.description == Property(product, "description")
    ensures r.pricing == Property(product, "pricing") && r.website == Property(product, "website")
    ensures r.logoUrl == Property(product, "logoUrl") && r.features == Property(product, "features")
    ensures r.badge == Property(product, "badge") && r.badgeColor == Property(product, "badgeColor")
  {
    ComparisonResult(
      name := Property(product, "name"),
      description := Property(product, "description"),
      pricing := Property(product, "pricing"),
      rating := None,
      website := Property(product, "website"),
      logoUrl := Property(product, "logoUrl"),
      features := Property(product, "features"),
      badge := Property(product, "badge"),
      badgeColor := Property(product, "badgeColor"))
  }

  /** `products.map(...)`: rewrites every product, in order, and throws on the
      first one that is null. */
  function RewriteProducts(products: seq<Value>): (r: Result<seq<ComparisonResult>>)
    ensures r.Success? <==> Null !in products
    ensures r.Failure? ==> r.error == NullPropertyMessage
    ensures r.Success? ==> |r.value| == |products|
    ensures r.Success? ==> forall i :: 0 <= i < |products| ==> r.value[i] == RewriteProduct(products[i])
  {
    if |products| == 0 then Success([])
    else if products[0].Null? then Failure(NullPropertyMessage)
    else
      match RewriteProducts(products[1..])
      case Failure(e) => Failure(e)
      case Success(rest) =>
        assert products == [products[0]] + products[1..];
        Success([RewriteProduct(products[0])] + rest)
  }

  /** The checks and defaults applied to the parsed answer; a failure carries
      the message of the error thrown inside the `try`. */
  function Normalize(result: Value): (r: Result<ComparisonResponse>)
  {
    if !Truthy(Some(result)) || !IsObjectType(result) then Failure(InvalidFormat)
    else
      var given := Property(result, "products");
      var products := if Truthy(given) then given.value else Arr([]);
      if !products.Arr? then Failure(InvalidFormat)
      else if |products.items| == 0 then
        var message := Property(result, "message");
        Success(ComparisonResponse([], Arr([]), if Truthy(message) then message else Some(Str(NoProductsMessage))))
      else
        match RewriteProducts(products.items)
        case Failure(e) => Failure(e)
        case Success(rewritten) =>
          var features := Property(result, "features");
          Success(ComparisonResponse(rewritten, if Truthy(features) then features.value else Arr([]),
                                     Property(result, "message")))
  }

  /** `compareProducts` after the completion request: every error is rethrown
      with the same prefix. */
  function CompareProducts(c: Completion): (r: Result<ComparisonResponse>)
    ensures c.Errored? ==> r == Failure(ComparisonFailurePrefix + c.message)
    ensures r.Failure? ==> |r.error| >= |ComparisonFailurePrefix|
                           && r.error[..|ComparisonFailurePrefix|] == ComparisonFailurePrefix
  {
    if c.Errored? then Failure(ComparisonFailurePrefix + c.message)
    else
      match Normalize(ParsedValue(c))
      case Failure(e) => Failure(ComparisonFailurePrefix + e)
      case Success(response) => Success(response)
  }

  /** A parsed answer that is null or not an object is rejected. */
  lemma RejectsNonObjects(v: Value)
    requires !v.Arr? && !v.Obj?
    ensures CompareProducts(Parsed(v)) == Failure(ComparisonFailurePrefix + InvalidFormat)
  {
  }

  /** Missing or falsy `products`, or an empty product array, means no
      products: the answer is empty and carries the model's message or the
      fixed one. */
  lemma MissingProductsIsEmpty(members: seq<(string, Value)>)
    requires !Truthy(Get(members, "products")) || Get(members, "products") == Some(Arr([]))
    ensures var message := Get(members, "message");
            CompareProducts(Parsed(Obj(members))) ==
              Success(ComparisonResponse([], Arr([]), if Truthy(message) then message else Some(Str(NoProductsMessage))))
  {
  }

  /** An answer that is itself an array passes the object check, has no
      `products` and no `message`, and so yields the default empty answer. */
  lemma ArrayAnswerIsEmpty(items: seq<Value>)
    ensures CompareProducts(Parsed(Arr(items))) ==
            Success(ComparisonResponse([], Arr([]), Some(Str(NoProductsMessage))))
  {
  }

  /** Present but non-array `products` is rejected. */
  lemma NonArrayProductsRejected(members: seq<(string, Value)>)
    requires Truthy(Get(members, "products")) && !Get(members, "products").value.Arr?
    ensures CompareProducts(Parsed(Obj(members))) == Failure(ComparisonFailurePrefix + InvalidFormat)
  {
  }

  /** Empty content is parsed as `{}` and yields the default empty answer. */
  lemma EmptyContentIsDefault()
    ensures CompareProducts(Empty) ==
            Success(ComparisonResponse([], Arr([]), Some(Str(NoProductsMessage))))
  {
  }

  /** With a non-empty product array the answer keeps every product, in order
      and without truncation, copies every field but `rating`, which becomes
      null; `features` defaults to an empty array and `message` passes through.
      A null product aborts the whole comparison. */
  lemma ProductsPreserved(members: seq<(string, Value)>)
    requires Get(members, "products").Some? && Get(members, "products").value.Arr?
    requires |Get(members, "products").value.items| > 0
    ensures var items := Get(members, "products").value.items;
            var r := CompareProducts(Parsed(Obj(members)));
            && (r.Success? <==> Null !in items)
            && (r.Failure? ==> r.error == ComparisonFailurePrefix + NullPropertyMessage)
            && (r.Success? ==>
                  && |r.value.products| == |items|
                  && (forall i :: 0 <= i < |items| ==>
                        r.value.products[i] == RewriteProduct(items[i]) && r.value.products[i].rating == None)
                  && r.value.features == (if Truthy(Get(members, "features")) then Get(members, "features").value else Arr([]))
                  && r.value.message == Get(members, "message"))
  {
  }

  /** The check in `generatePlaceholderExamples`: the answer must hold an
      `examples` array of exactly three entries. */
  function PlaceholderExamples(c: Completion): (r: Result<seq<Value>>)
    ensures c.Errored? ==> r == Failure(c.message)
    ensures r.Success? <==>
              !c.Errored? && Property(ParsedValue(c), "examples").Some?
              && Property(ParsedValue(c), "examples").value.Arr?
              && |Property(ParsedValue(c), "examples").value.items| == 3
    ensures r.Success? ==> r.value == Property(ParsedValue(c), "examples").value.items && |r.value| == 3
    ensures c == Parsed(Null) ==> r == Failure(NullExamplesMessage)
  {
    if c.Errored? then Failure(c.message)
    else
      var result := ParsedValue(c);
      if result.Null? then Failure(NullExamplesMessage)
      else
        var examples := Property(result, "examples");
        if Truthy(examples) && examples.value.Arr? && |examples.value.items| == 3 then Success(examples.value.items)
        else Failure(InvalidExamples)
  }
}
