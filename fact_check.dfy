/** The result validator of the end-to-end test script: six checks over one
    comparison response, the issues found, and the verdict. Parsing a price
    out of its text and serialising a product are given as functions. */
module FactCheck {
  import opened Wrappers
  import opened Strings
  import Json

  /** One product of a response: the three fields the checks read, and the
      product's other properties (description, features and so on) as
      parsed, which its serialised text also contains. */
  datatype Product = Product(name: string, website: string, pricing: string, others: seq<(string, Json.Value)>)

  /** A response; `products` and `features` may be missing (None). */
  datatype Response = Response(products: Option<seq<Product>>, features: Option<seq<string>>)

  /** The parts of a test case the checks read. */
  datatype TestCase = TestCase(
    minFeatures: nat,
    maxFeatures: nat,
    priceMin: real,
    priceMax: real,
    realBrands: seq<string>,
    validWebsites: seq<string>,
    requiredSpecs: Option<seq<string>>)

  datatype Checks = Checks(
    productCount: bool,
    featureCount: bool,
    brandAuthenticity: bool,
    websiteValidity: bool,
    priceRealism: bool,
    specAuthenticity: bool)

  /** One recorded issue: the message the script pushes, kept as the check
      it comes from and the numbers its text shows. */
  datatype Issue =
    | ProductCountIssue(got: nat)
    | FeatureCountIssue(min: nat, max: nat, got: nat)
    | BrandIssue
    | WebsiteIssue
    | PriceIssue(low: real, high: real)
    | SpecIssue

  datatype Report = Report(passed: bool, checks: Checks, issues: seq<Issue>)

  /** The position of an issue's check in the sequence of checks. */
  function Rank(issue: Issue): nat
  {
    match issue
    case ProductCountIssue(_) => 0
    case FeatureCountIssue(_, _, _) => 1
    case BrandIssue => 2
    case WebsiteIssue => 3
    case PriceIssue(_, _) => 4
    case SpecIssue => 5
  }

  function AllPass(c: Checks): bool
  {
    c.productCount && c.featureCount && c.brandAuthenticity && c.websiteValidity
    && c.priceRealism && c.specAuthenticity
  }

  function Failing(c: Checks): nat
  {
    (if c.productCount then 0 else 1) + (if c.featureCount then 0 else 1)
    + (if c.brandAuthenticity then 0 else 1) + (if c.websiteValidity then 0 else 1)
    + (if c.priceRealism then 0 else 1) + (if c.specAuthenticity then 0 else 1)
  }

  /** `realBrands.some(...)` for one product name, compared case-insensitively. */
  predicate NamesBrand(name: string, brands: seq<string>)
  {
    exists j :: 0 <= j < |brands| && Contains(Lower(name), Lower(brands[j]))
  }

  /** `validWebsites.some(...)`: the website is lowercased, the listed site is not. */
  predicate OnListedSite(website: string, sites: seq<string>)
  {
    exists j :: 0 <= j < |sites| && Contains(Lower(website), sites[j])
  }

  /** The parsed price lies in the range; a price that does not parse (NaN)
      lies in no range. */
  predicate PriceInRange(price: Option<real>, low: real, high: real)
  {
    price.Some? && low <= price.value <= high
  }

  /** `requiredSpecs.some(...)` over one product's serialised, lowercased text. */
  predicate MentionsSpec(text: string, specs: seq<string>)
  {
    exists j :: 0 <= j < |specs| && Contains(Lower(text), Lower(specs[j]))
  }

  /** The issue recorded when a check fails. */
  function IssueIf(ok: bool, issue: Issue): seq<Issue>
  {
    if ok then [] else [issue]
  }

  function ProductsGot(result: Response): nat
  {
    if result.products.Some? then |result.products.value| else 0
  }

  function FeaturesGot(result: Response): nat
  {
    if result.features.Some? then |result.features.value| else 0
  }

  /** The issues the script records for given check outcomes: one per failing
      check, in check order, except that the brand, website and price checks
      record nothing when the response has no products. */
  function IssuesFor(result: Response, testCase: TestCase, c: Checks): seq<Issue>
  {
    IssueIf(c.productCount, ProductCountIssue(ProductsGot(result)))
    + IssueIf(c.featureCount, FeatureCountIssue(testCase.minFeatures, testCase.maxFeatures, FeaturesGot(result)))
    + ProductIssues(result, testCase, c)
    + IssueIf(c.specAuthenticity, SpecIssue)
  }

  /** The issues of the three checks that look at each product; none when
      the response has no products. */
  function ProductIssues(result: Response, testCase: TestCase, c: Checks): seq<Issue>
  {
    if result.products.Some? then
      IssueIf(c.brandAuthenticity, BrandIssue) + IssueIf(c.websiteValidity, WebsiteIssue)
      + IssueIf(c.priceRealism, PriceIssue(testCase.priceMin, testCase.priceMax))
    else []
  }

  /** Every failing check is reported, and nothing else: the brand, website
      and price checks only when the response has products. */
  lemma IssuesForReportsFailures(result: Response, testCase: TestCase, c: Checks)
    ensures var issues := IssuesFor(result, testCase, c);
            && (ProductCountIssue(ProductsGot(result)) in issues <==> !c.productCount)
            && (FeatureCountIssue(testCase.minFeatures, testCase.maxFeatures, FeaturesGot(result)) in issues
                <==> !c.featureCount)
            && (BrandIssue in issues <==> result.products.Some? && !c.brandAuthenticity)
            && (WebsiteIssue in issues <==> result.products.Some? && !c.websiteValidity)
            && (PriceIssue(testCase.priceMin, testCase.priceMax) in issues
                <==> result.products.Some? && !c.priceRealism)
            && (SpecIssue in issues <==> !c.specAuthenticity)
  {
    var a := IssueIf(c.productCount, ProductCountIssue(ProductsGot(result)));
    var b := IssueIf(c.featureCount, FeatureCountIssue(testCase.minFeatures, testCase.maxFeatures, FeaturesGot(result)));
    var m := ProductIssues(result, testCase, c);
    var d := IssueIf(c.specAuthenticity, SpecIssue);
    assert IssuesFor(result, testCase, c) == a + b + m + d;
    assert forall x :: x in a + b + m + d <==> x in a || x in b || x in m || x in d;
  }

  /** The ranks of `s` increase strictly and lie in [lo, hi). */
  ghost predicate RankedWithin(s: seq<Issue>, lo: nat, hi: nat)
  {
    && (forall i :: 0 <= i < |s| ==> lo <= Rank(s[i]) < hi)
    && (forall i, j :: 0 <= i < j < |s| ==> Rank(s[i]) < Rank(s[j]))
  }

  lemma {:induction false} RankedConcat(s: seq<Issue>, t: seq<Issue>, lo: nat, mid: nat, hi: nat)
    requires lo <= mid <= hi
    requires RankedWithin(s, lo, mid) && RankedWithin(t, mid, hi)
    ensures RankedWithin(s + t, lo, hi)
  {
    var u := s + t;
    forall i | 0 <= i < |u| ensures lo <= Rank(u[i]) < hi {
      if i < |s| { assert u[i] == s[i]; } else { assert u[i] == t[i - |s|]; }
    }
    forall i, j | 0 <= i < j < |u| ensures Rank(u[i]) < Rank(u[j]) {
      if j < |s| {
        assert u[i] == s[i] && u[j] == s[j];
      } else if i < |s| {
        assert u[i] == s[i] && u[j] == t[j - |s|];
      } else {
        assert u[i] == t[i - |s|] && u[j] == t[j - |s|];
      }
    }
  }

  lemma IssueIfRanked(ok: bool, issue: Issue)
    ensures RankedWithin(IssueIf(ok, issue), Rank(issue), Rank(issue) + 1)
  {
  }

  lemma ProductIssuesRanked(result: Response, testCase: TestCase, c: Checks)
    ensures RankedWithin(ProductIssues(result, testCase, c), 2, 5)
  {
    if result.products.Some? {
      var m1 := IssueIf(c.brandAuthenticity, BrandIssue);
      var m2 := IssueIf(c.websiteValidity, WebsiteIssue);
      var m3 := IssueIf(c.priceRealism, PriceIssue(testCase.priceMin, testCase.priceMax));
      IssueIfRanked(c.brandAuthenticity, BrandIssue);
      IssueIfRanked(c.websiteValidity, WebsiteIssue);
      IssueIfRanked(c.priceRealism, PriceIssue(testCase.priceMin, testCase.priceMax));
      RankedConcat(m1, m2, 2, 3, 4);
      RankedConcat(m1 + m2, m3, 2, 4, 5);
    }
  }

  /** The issues are listed in the order the checks run, each check at most once. */
  lemma IssuesForInCheckOrder(result: Response, testCase: TestCase, c: Checks)
    ensures var issues := IssuesFor(result, testCase, c);
            forall i, j :: 0 <= i < j < |issues| ==> Rank(issues[i]) < Rank(issues[j])
  {
    var a := IssueIf(c.productCount, ProductCountIssue(ProductsGot(result)));
    var b := IssueIf(c.featureCount, FeatureCountIssue(testCase.minFeatures, testCase.maxFeatures, FeaturesGot(result)));
    var m := ProductIssues(result, testCase, c);
    var d := IssueIf(c.specAuthenticity, SpecIssue);
    IssueIfRanked(c.productCount, ProductCountIssue(ProductsGot(result)));
    IssueIfRanked(c.featureCount, FeatureCountIssue(testCase.minFeatures, testCase.maxFeatures, FeaturesGot(result)));
    ProductIssuesRanked(result, testCase, c);
    IssueIfRanked(c.specAuthenticity, SpecIssue);
    RankedConcat(a, b, 0, 1, 2);
    RankedConcat(a + b, m, 0, 2, 5);
    RankedConcat(a + b + m, d, 0, 5, 6);
  }

  /** With products present there is exactly one issue per failing check. */
  lemma IssuesForCount(result: Response, testCase: TestCase, c: Checks)
    requires result.products.Some?
    ensures |IssuesFor(result, testCase, c)| == Failing(c)
  {
  }

  /** The product-count block: one to three products pass. */
  method CheckProductCount(result: Response, issues: seq<Issue>) returns (ok: bool, issues': seq<Issue>)
    ensures ok <==> result.products.Some? && 1 <= |result.products.value| <= 3
    ensures issues' == issues + IssueIf(ok, ProductCountIssue(ProductsGot(result)))
  {
    ok, issues' := false, issues;
    if result.products.Some? && |result.products.value| > 0 && |result.products.value| <= 3 {
      ok := true;
    } else {
      issues' := issues' + [ProductCountIssue(ProductsGot(result))];
    }
  }

  /** The feature-count block: the number of features lies in the test case's range. */
  method CheckFeatureCount(result: Response, testCase: TestCase, issues: seq<Issue>) returns (ok: bool, issues': seq<Issue>)
    ensures ok <==> result.features.Some? && testCase.minFeatures <= |result.features.value| <= testCase.maxFeatures
    ensures issues' == issues
                       + IssueIf(ok, FeatureCountIssue(testCase.minFeatures, testCase.maxFeatures, FeaturesGot(result)))
  {
    ok, issues' := false, issues;
    if result.features.Some? && |result.features.value| >= testCase.minFeatures
       && |result.features.value| <= testCase.maxFeatures {
      ok := true;
    } else {
      issues' := issues' + [FeatureCountIssue(testCase.minFeatures, testCase.maxFeatures, FeaturesGot(result))];
    }
  }

  /** The brand block: every product name mentions a known brand. Without
      products the check stays false and nothing is recorded. */
  method CheckBrands(result: Response, testCase: TestCase, issues: seq<Issue>) returns (ok: bool, issues': seq<Issue>)
    ensures ok <==> result.products.Some? && forall p :: p in result.products.value ==> NamesBrand(p.name, testCase.realBrands)
    ensures issues' == issues + if result.products.Some? then IssueIf(ok, BrandIssue) else []
  {
    ok, issues' := false, issues;
    if result.products.Some? {
      var brandCheck := forall p :: p in result.products.value ==> NamesBrand(p.name, testCase.realBrands);
      ok := brandCheck;
      if !brandCheck {
        issues' := issues' + [BrandIssue];
      }
    }
  }

  /** The website block: every website lies on a listed domain. */
  method CheckWebsites(result: Response, testCase: TestCase, issues: seq<Issue>) returns (ok: bool, issues': seq<Issue>)
    ensures ok <==> result.products.Some? && forall p :: p in result.products.value ==> OnListedSite(p.website, testCase.validWebsites)
    ensures issues' == issues + if result.products.Some? then IssueIf(ok, WebsiteIssue) else []
  {
    ok, issues' := false, issues;
    if result.products.Some? {
      var websiteCheck := forall p :: p in result.products.value ==> OnListedSite(p.website, testCase.validWebsites);
      ok := websiteCheck;
      if !websiteCheck {
        issues' := issues' + [WebsiteIssue];
      }
    }
  }

  /** The price block: every parsed price lies in the test case's range. */
  method CheckPrices(result: Response, testCase: TestCase, parsePrice: string -> Option<real>, issues: seq<Issue>)
    returns (ok: bool, issues': seq<Issue>)
    ensures ok <==> result.products.Some? && forall p :: p in result.products.value ==>
                      PriceInRange(parsePrice(p.pricing), testCase.priceMin, testCase.priceMax)
    ensures issues' == issues + if result.products.Some? then IssueIf(ok, PriceIssue(testCase.priceMin, testCase.priceMax)) else []
  {
    ok, issues' := false, issues;
    if result.products.Some? {
      var priceCheck := forall p :: p in result.products.value ==>
                          PriceInRange(parsePrice(p.pricing), testCase.priceMin, testCase.priceMax);
      ok := priceCheck;
      if !priceCheck {
        issues' := issues' + [PriceIssue(testCase.priceMin, testCase.priceMax)];
      }
    }
  }

  /** The specification block: some product (not every one) mentions a
      required spec; it passes outright when the test case lists no specs or
      the response has no products. */
  method CheckSpecs(result: Response, testCase: TestCase, serialize: Product -> string, issues: seq<Issue>)
    returns (ok: bool, issues': seq<Issue>)
    ensures ok <==> testCase.requiredSpecs.None? || result.products.None?
                    || exists p :: p in result.products.value && MentionsSpec(serialize(p), testCase.requiredSpecs.value)
    ensures issues' == issues + IssueIf(ok, SpecIssue)
  {
    issues' := issues;
    if testCase.requiredSpecs.Some? && result.products.Some? {
      var specs := testCase.requiredSpecs.value;
      var specCheck := exists p :: p in result.products.value && MentionsSpec(serialize(p), specs);
      ok := specCheck;
      if !specCheck {
        issues' := issues' + [SpecIssue];
      }
    } else {
      ok := true;
    }
  }

  /** `performFactCheck`: the six checks in order, the issues they record, and
      the verdict, which passes exactly when every check does. */
  method PerformFactCheck(result: Response, testCase: TestCase,
                          parsePrice: string -> Option<real>, serialize: Product -> string)
    returns (report: Report)
    ensures report.checks.productCount <==> result.products.Some? && 1 <= |result.products.value| <= 3
    ensures report.checks.featureCount <==>
              result.features.Some? && testCase.minFeatures <= |result.features.value| <= testCase.maxFeatures
    ensures report.checks.brandAuthenticity <==>
              result.products.Some? && forall p :: p in result.products.value ==> NamesBrand(p.name, testCase.realBrands)
    ensures report.checks.websiteValidity <==>
              result.products.Some? && forall p :: p in result.products.value ==> OnListedSite(p.website, testCase.validWebsites)
    ensures report.checks.priceRealism <==>
              result.products.Some? && forall p :: p in result.products.value ==>
                PriceInRange(parsePrice(p.pricing), testCase.priceMin, testCase.priceMax)
    ensures report.checks.specAuthenticity <==>
              testCase.requiredSpecs.None? || result.products.None?
              || exists p :: p in result.products.value && MentionsSpec(serialize(p), testCase.requiredSpecs.value)
    ensures report.passed <==> AllPass(report.checks)
    ensures report.issues == IssuesFor(result, testCase, report.checks)
  {
    var issues: seq<Issue> := [];
    var productCount, featureCount, brandAuthenticity, websiteValidity, priceRealism, specAuthenticity;
    productCount, issues := CheckProductCount(result, issues);
    featureCount, issues := CheckFeatureCount(result, testCase, issues);
    ghost var counted := issues;
    brandAuthenticity, issues := CheckBrands(result, testCase, issues);
    websiteValidity, issues := CheckWebsites(result, testCase, issues);
    priceRealism, issues := CheckPrices(result, testCase, parsePrice, issues);
    ghost var scored := issues;
    specAuthenticity, issues := CheckSpecs(result, testCase, serialize, issues);

    var checks := Checks(productCount, featureCount, brandAuthenticity, websiteValidity, priceRealism, specAuthenticity);
    assert scored == counted + ProductIssues(result, testCase, checks) by {
      if result.products.Some? {
        assert scored == counted + IssueIf(brandAuthenticity, BrandIssue) + IssueIf(websiteValidity, WebsiteIssue)
                         + IssueIf(priceRealism, PriceIssue(testCase.priceMin, testCase.priceMax));
      }
    }
    assert issues == IssuesFor(result, testCase, checks) by {
      ghost var a := IssueIf(productCount, ProductCountIssue(ProductsGot(result)));
      ghost var b := IssueIf(featureCount, FeatureCountIssue(testCase.minFeatures, testCase.maxFeatures, FeaturesGot(result)));
      assert counted == a + b;
    }
    report := Report(AllPass(checks), checks, issues);
  }
}
