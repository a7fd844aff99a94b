# Pick3 core, modelled in Dafny

Pick3 answers a shopping question ("best budget noise-cancelling
headphones", "coffee shops in Austin") with a few candidates and a
feature-by-feature comparison. The comparison route sends every question,
local businesses included, to an LLM. Its JSON answer is checked and
normalised before it is passed on. The prompt asks for three candidates, but
the code does not cap the count. The server also has a Google Places client:
a text search whose first three hits are turned into comparison results by
`formatAsComparisonResult`, and a list of feature columns per business type.
None of the routes shown calls them. Search requests live in an in-memory
store keyed by an increasing id. On the client, a product card and
a comparison table choose icons, colours and labels for each result. An
end-to-end test script fact-checks responses against expectations written
by hand.

The model has one module per source file, plus three support modules:

- `Wrappers`: `Option` and `Result`.
- `Strings`: ASCII lower-casing, substring search and decimal rendering.
- `Json`: parsed JSON values, where JavaScript `undefined` is `None`.
  It also models property lookup and truthiness.

`Schema` holds the shared record shapes. The remaining modules follow the
source files:

- `GooglePlaces` (`server/google-places.ts`): pure formatting functions.
  The search loop is a method. The search reply and the per-place details
  lookup are given as oracles.
- `Storage` (`server/storage.ts`): the `MemStorage` class. Its fields are
  the request table (a `map`) and the id counter. Its methods update them in
  place and keep the invariant `Valid()`.
- `OpenAi` (`server/openai.ts`): what happens to the parsed completion. It
  models the object check, the `products` default and array check, the
  empty answer, the per-product rewrite that nulls `rating`, and the
  error prefix. It also models the placeholder-examples check.
- `ComparisonTable` (`client/src/components/comparison-table.tsx`): icon
  choice, feature lookup, the filter that drops the key-information rows,
  the section header and text-label conditions, and the rating cell.
- `ProductCard` (`client/src/components/product-card.tsx`): the gradient
  and badge-colour lookups, the null-rating branch of the stars, the first
  two feature entries, and the card's icon choice. It is tied to the
  table's icon choice by a lemma.
- `FactCheck` (`test-cases.js`): `performFactCheck`. Each of the six check
  blocks is a method that appends to the issue list. The composed method
  is proved against the function `IssuesFor`. Lemmas show that issues
  appear once per failing check and in check order.

## Model

| member | source | states |
|---|---|---|
| GooglePlaces.PricingIsDollarSigns | server/google-places.ts:89-95 | the price string is one `$` per level for levels 1 to 4 and `$$` for a missing, zero or other level |
| GooglePlaces.ChooseBadge | server/google-places.ts:121-137 | rating at least 4.5 gives green "Highly Rated"; rating in [4.0, 4.5) gives blue "Well Rated"; otherwise level 1 gives orange "Budget Friendly", level 4 gives purple "Premium", and anything else gives blue "Local Business"; the colour is always one of the four |
| GooglePlaces.FeatureKeysInOrder | server/google-places.ts:101-119 | the feature keys are the five common keys, then the kind-specific keys, then "Operating Hours" when weekday text is present |
| GooglePlaces.FeaturesStartWithCommonKeys | server/google-places.ts:101-107 | every feature object opens with Address, Price Range, Currently Open, Phone Number, Business Status |
| GooglePlaces.CommonFeatureValuesAgree | server/google-places.ts:103-104 | "Price Range" equals the pricing string; "Currently Open" is "Yes" exactly when the place reports open now |
| GooglePlaces.OperatingHoursPresence | server/google-places.ts:117-119 | "Operating Hours" is a key if and only if the opening hours carry weekday text |
| GooglePlaces.KindKeysPrecedence | server/google-places.ts:98-115 | a coffee shop gets Specialties and Atmosphere and never the restaurant keys, even when it is also a restaurant; a restaurant that is not a coffee shop gets Cuisine and Dining Experience; any other place gets only the common keys and the hours key |
| GooglePlaces.FeatureKeysDistinct | server/google-places.ts:101-119 | no feature key is inserted twice |
| GooglePlaces.FormatAsComparisonResult | server/google-places.ts:88-150 | the result has the place's name, a null rating and logo, a description "Located at" its address, pricing from the price level, the feature object `PlaceFeatures` (whose keys and values the lemmas above describe), the place's website or else the Maps link for its id, and the badge and colour chosen above |
| GooglePlaces.PriceRangeFeatureIsPricing | server/google-places.ts:101-142 | the "Price Range" feature of a formatted place equals its `pricing` field |
| GooglePlaces.GetLocalBusinessFeatures | server/google-places.ts:152-161 | eight columns for coffee/cafe types (the coffee list wins over restaurant) and for restaurants, seven otherwise; the five common ones come first, "Operating Hours" is always there, and the tail depends on the type |
| GooglePlaces.FeatureKeysAreListed | server/google-places.ts:98-161 | for a business type of the same kind as the place, every feature key of the formatted place is one of the listed columns |
| GooglePlaces.SearchLocalBusinesses | server/google-places.ts:24-72 | a missing or empty key fails with the key message; a failed fetch fails with its message; REQUEST_DENIED fails with the access message; any other status except OK and ZERO_RESULTS fails with the status; otherwise the result has the first min(3, n) hits, each formatted from its details, or from the hit itself when the details lookup fails |
| Storage.MemStorage.constructor | server/storage.ts:13-16 | the store starts empty with the counter at 1 and satisfies the invariant |
| Storage.MemStorage.CreateSearchRequest | server/storage.ts:18-28 | the request gets the old counter as id, which was unused; it has null results; the counter goes up by one; only that entry is added; the invariant is kept |
| Storage.MemStorage.UpdateSearchRequestResults | server/storage.ts:30-37 | an unknown id returns undefined and changes nothing; a known id has only its results replaced and keeps its id; the counter does not change |
| Storage.MemStorage.GetSearchRequest | server/storage.ts:39-41 | a request is found if and only if its id is stored, and it carries that id |
| Storage.CreateUpdateGet | server/storage.ts:18-41 | a client sequence keeps the invariant: ids increase, a created request can be read back, an update leaves other entries alone, and an unused id is not updated |
| OpenAi.RewriteProducts | server/openai.ts:117-127 | succeeds if and only if no product is null; keeps every product in order; copies every field and sets rating to null |
| OpenAi.CompareProducts | server/openai.ts:89-138 | every failure, thrown or raised by validation, carries the "Failed to generate product comparison: " prefix |
| OpenAi.RejectsNonObjects | server/openai.ts:92-94 | a parsed answer that is null or not an object is rejected as an invalid format |
| OpenAi.MissingProductsIsEmpty | server/openai.ts:96-114 | missing or falsy `products`, or an empty product array, yields an empty answer with empty features and the model's message or the fixed message |
| OpenAi.ArrayAnswerIsEmpty | server/openai.ts:89-114 | an answer that is itself an array passes the object check and yields the default empty answer with the fixed message |
| OpenAi.NonArrayProductsRejected | server/openai.ts:101-103 | truthy non-array `products` is rejected as an invalid format |
| OpenAi.EmptyContentIsDefault | server/openai.ts:89-114 | empty content parses as `{}` and yields the default empty answer |
| OpenAi.ProductsPreserved | server/openai.ts:116-133 | a non-empty product array is passed on whole and in order, with ratings nulled, features defaulting to an empty array and the message passed through; a null product fails the comparison |
| OpenAi.PlaceholderExamples | server/openai.ts:159-165 | succeeds if and only if `examples` is an array of exactly three entries, and then returns them; a null answer throws |
| ComparisonTable.FeatureIcon | client/src/components/comparison-table.tsx:10-27 | true gives a green check and false a red cross; a string gives a yellow minus when it mentions "limited" or "partial" in any case, else a green check; anything else gives a grey minus; size 20 |
| ComparisonTable.ShortStringsGetCheck | client/src/components/comparison-table.tsx:19-23 | any string shorter than seven characters, such as "Yes", "No" or "false", gets the green check |
| ComparisonTable.LabelledCellIcon | client/src/components/comparison-table.tsx:112-117 | a cell with a text label has a string value, so its icon is a green check or a yellow minus |
| ComparisonTable.FeatureValue | client/src/components/comparison-table.tsx:29-31 | a missing or null features object throws; an object gives the first property with that name or undefined |
| ComparisonTable.OtherFeatures | client/src/components/comparison-table.tsx:33-35 | keeps exactly the names that are not "Pricing" or "User Rating", never adds any, and keeps a list without them unchanged |
| ComparisonTable.OtherFeaturesAppend | client/src/components/comparison-table.tsx:35 | the filter distributes over concatenation, so relative order is kept |
| ComparisonTable.AdditionalFeaturesHeader | client/src/components/comparison-table.tsx:94-100 | the "Additional Features" header shows if and only if some name is not a key-information row |
| ComparisonTable.RatingCellOf | client/src/components/comparison-table.tsx:82-89 | "No data" if and only if the rating is null or zero; otherwise the rating itself |
| ProductCard.Gradient | client/src/components/product-card.tsx:12-26 | cards 0, 1 and 2 get their own gradient; any other index gets "gradient-primary" |
| ProductCard.BadgeColorClass | client/src/components/product-card.tsx:18-27 | a known colour name gets its own classes; anything else gets the blue pair |
| ProductCard.PlaceBadgesAreShownInTheirColour | client/src/components/product-card.tsx:84-89 | every badge from a place result is shown, in the classes of its own colour |
| ProductCard.StarsOf | client/src/components/product-card.tsx:29-34 | "No rating data" if and only if the rating is null |
| ProductCard.Entries | client/src/components/product-card.tsx:104 | `Object.entries` throws for undefined or null; an object gives its properties in order; an array gives one entry per element |
| ProductCard.TopFeatures | client/src/components/product-card.tsx:104 | the card lists the first min(2, n) feature entries, in order |
| ProductCard.PlaceCardShowsAddressAndPrice | client/src/components/product-card.tsx:104 | a place result's card lists Address and then Price Range with its pricing |
| ProductCard.SameClassificationAsTable | client/src/components/product-card.tsx:56-73 | the card's icon is the table's icon at size 16 |
| FactCheck.CheckProductCount | test-cases.js:108-113 | passes if and only if there are one to three products; otherwise records the count issue |
| FactCheck.CheckFeatureCount | test-cases.js:115-120 | passes if and only if the feature count lies in the test case's range; otherwise records the issue |
| FactCheck.CheckBrands | test-cases.js:122-133 | passes if and only if products exist and every name contains a listed brand, ignoring case; records the issue only when products exist |
| FactCheck.CheckWebsites | test-cases.js:135-146 | passes if and only if products exist and every lower-cased website contains a listed site as written; records the issue only when products exist |
| FactCheck.CheckPrices | test-cases.js:148-158 | passes if and only if products exist and every parsed price lies in the range, and an unparsable price never does; records the issue only when products exist |
| FactCheck.CheckSpecs | test-cases.js:160-174 | passes when no specs are required or there are no products; otherwise passes if and only if some product's serialised text mentions a required spec |
| FactCheck.PerformFactCheck | test-cases.js:96-194 | each of the six checks holds exactly under its condition; the verdict passes if and only if all six do; the issues are those `IssuesFor` gives for the outcomes |
| FactCheck.IssuesForReportsFailures | test-cases.js:106-174 | each issue is present if and only if its check failed; the brand, website and price issues also need products to be present |
| FactCheck.IssuesForInCheckOrder | test-cases.js:106-174 | issues appear in the order the checks run, at most one per check |
| FactCheck.IssuesForCount | test-cases.js:106-174 | when products are present there is exactly one issue per failing check |
| FactCheck.RankedConcat | test-cases.js:106-174 | two issue lists ranked in consecutive bands concatenate to a ranked list |
| Json.GetFindsFirst | client/src/components/comparison-table.tsx:29-31 | a property lookup finds a value if and only if the key is present, and returns the value of the first such property |
| Strings.Contains | client/src/components/comparison-table.tsx:20 | `includes` is true if and only if the substring occurs at some position |

## Left out

- Lower-casing is ASCII-only. `toLowerCase` folds every Unicode letter, and the model does not.
- Price levels are integers. A fractional `price_level` is not modelled.
- The details oracle is a function of the place id. Repeated ids therefore get the same details.
- URL building, `encodeURIComponent`, `fetch`, the console logging and the Places API key's environment lookup are not modelled. The key is a parameter.
- `getPlaceDetails` is reduced to its outcome, found or failed. Its status check is part of the oracle.
- Prompt construction and the LLM calls are not modelled. A completion is given as thrown, empty or parsed.
- Object keys keep insertion order. JavaScript's reordering of integer-like keys is not modelled, and neither are duplicate keys in parsed JSON (`JSON.parse` keeps the last one, but `Get` returns the first).
- Property lookups on prototype members and on array or string indices read as undefined. For example, `badgeColors["toString"]` would be a function, and `features["0"]` on an array would be an element.
- The star arithmetic of `renderStars` and `toFixed` are not modelled, and an `undefined` rating reaching `renderStars` is not modelled. Both producers send a number or null.
- `parseFloat(pricing.replace(...))` and `JSON.stringify(product)` are function parameters of the fact check. The serialiser sees the whole product, including its other properties, but how it writes them out is not modelled.
- `runTest`, `runAllTests` and the console report of the test script are not modelled.
- The script throws for products whose name, website or pricing is not a string. The fact check's product record has string fields.
- The issue texts the fact check pushes are not modelled as strings. Each issue is a value that names its check and carries the numbers its text shows.
- `createdAt` is a parameter, since it is a clock reading. The HTTP routes and NaN ids are not modelled.
- JSX rendering itself is not modelled. Only the decisions that feed it are.
- ProductCard.FeatureIcon: its own contract states only the icon size. What it classifies is stated by ProductCard.SameClassificationAsTable.
- The LLM path does not cap products at three; only the prompt asks for that. The model passes every product on, as the code does.
- `shared/schema.ts` types `rating` as a number and has no `logoUrl`, but both producers emit a null rating and the Places path a null `logoUrl`. The model follows the code.
- `getLocalBusinessFeatures` lists a "Services" column that the formatter never fills. The table then shows a grey minus in that column. This is modelled as written.
