/** The shapes exchanged between server and client. */
module Schema {
  import opened Wrappers
  import opened Json

  /** One candidate shown to the user. Every field except `rating` is whatever
      the producer put there (the LLM path copies fields without checking
      them), so each is a JSON value or `undefined`; `rating` is a number or
      null (None). */
  datatype ComparisonResult = ComparisonResult(
    name: Field,
    description: Field,
    pricing: Field,
    rating: Option<real>,
    website: Field,
    logoUrl: Field,
    features: Field,
    badge: Field,
    badgeColor: Field)

  /** What the client submits. */
  datatype InsertSearchRequest = InsertSearchRequest(searchQuery: string)

  /** A stored submission; `results` is null (None) until a comparison is attached. */
  datatype SearchRequest = SearchRequest(
    id: int,
    searchQuery: string,
    results: Option<seq<ComparisonResult>>,
    createdAt: string)

  /** The comparison sent back to the client. */
  datatype ComparisonResponse = ComparisonResponse(
    products: seq<ComparisonResult>,
    features: Value,
    message: Field)
}
