/** The detail enricher (`scrapeImagesAndDescriptionFromUrls`): visits each stub's
    page in order, adds its images, description and state, stops after ten, and on
    the first page that cannot be read gives up while keeping what it has. */
module Enrichment {
  import opened Wrappers
  import opened Text
  import opened Listing

  /** What the browser reports on visiting one product page: whether navigation
      succeeded, the `src` attributes of the carousel's slot images in DOM order
      (`None` when the `wallapop-carousel` element never appears), and the text
      of the description and additional-specifications elements (`None` when the
      element never appears). */
  datatype DetailPage = DetailPage(
    navigated: bool,
    carousel: Option<seq<Option<string>>>,
    description: Option<string>,
    specifications: Option<string>)

  /** `{...product, description, state, images}`. */
  datatype Product = Product(
    uuid: string, name: Option<string>, url: Option<string>, price: string,
    description: string, state: string, images: seq<Option<string>>)

  /** One visit of the loop: the product enriched from its page, or `None` when
      any step throws (a null url or a failed navigation, a missing carousel,
      description or specifications element). */
  function Enrich(stub: Stub, page: DetailPage): (r: Option<Product>)
    ensures r.Some? <==>
      stub.url.Some? && page.navigated && page.carousel.Some?
      && page.description.Some? && page.specifications.Some?
    ensures r.Some? ==>
      && r.value.uuid == stub.uuid && r.value.name == stub.name
      && r.value.url == stub.url && r.value.price == stub.price
      && r.value.images == page.carousel.value
      && r.value.description == Trim(page.description.value)
      && r.value.state == Trim(page.specifications.value)
  {
    if stub.url.None? || !page.navigated then None
    else match (page.carousel, page.description, page.specifications)
      case (Some(images), Some(description), Some(specifications)) =>
        Some(Product(stub.uuid, stub.name, stub.url, stub.price,
                     Trim(description), Trim(specifications), images))
      case _ => None
  }

  /** Whether the visit of the i-th product succeeds; `visit(i)` is the page the
      browser shows on the i-th navigation. */
  predicate Succeeds(products: seq<Stub>, visit: nat -> DetailPage, i: nat)
    requires i < |products|
  {
    Enrich(products[i], visit(i)).Some?
  }

  /** The index of the first product, from `from` on, whose visit fails, or
      `|products|` when none does. */
  function FirstFailureFrom(products: seq<Stub>, visit: nat -> DetailPage, from: nat): (k: nat)
    requires from <= |products|
    ensures from <= k <= |products|
    ensures forall i :: from <= i < k ==> Succeeds(products, visit, i)
    ensures k < |products| ==> !Succeeds(products, visit, k)
    decreases |products| - from
  {
    if from == |products| || !Succeeds(products, visit, from) then from
    else FirstFailureFrom(products, visit, from + 1)
  }

  function FirstFailure(products: seq<Stub>, visit: nat -> DetailPage): (k: nat)
    ensures k <= |products|
    ensures forall i :: 0 <= i < k ==> Succeeds(products, visit, i)
    ensures k < |products| ==> !Succeeds(products, visit, k)
  {
    FirstFailureFrom(products, visit, 0)
  }

  /** The loop's result, defined declaratively: the enrichments of the products
      before the first failing one, at most ten of them. */
  function Enriched(products: seq<Stub>, visit: nat -> DetailPage): (r: seq<Product>)
    ensures |r| <= MaxProducts && |r| <= |products|
    ensures forall i :: 0 <= i < |r| ==> Enrich(products[i], visit(i)) == Some(r[i])
  {
    var n := Min(MaxProducts, FirstFailure(products, visit));
    var r := seq(n, i requires 0 <= i < n =>
      assert Succeeds(products, visit, i);
      Enrich(products[i], visit(i)).value);
    assert forall i :: 0 <= i < n ==> Succeeds(products, visit, i) && r[i] == Enrich(products[i], visit(i)).value;
    r
  }

  /** The number of pages the loop navigates to: those it enriched, plus the one
      that failed when it stopped on a failure rather than at the cap or the end. */
  function Visited(products: seq<Stub>, visit: nat -> DetailPage): nat {
    var n := |Enriched(products, visit)|;
    if n < MaxProducts && n < |products| then n + 1 else n
  }

  /** `scrapeImagesAndDescriptionFromUrls`, step by step: the accumulator grows by
      one product per successful visit; a failing step ends the loop (the caught
      exception) and the `break` ends it at ten. `visited` counts navigations. */
  method ScrapeImagesAndDescriptionFromUrls(products: seq<Stub>, visit: nat -> DetailPage)
    returns (enriched: seq<Product>, ghost visited: nat)
    ensures enriched == Enriched(products, visit)
    ensures visited == Visited(products, visit)
  {
    enriched := [];
    visited := 0;
    var i := 0;
    while i < |products|
      invariant i <= |products| && i < MaxProducts
      invariant visited == i == |enriched|
      invariant forall j :: 0 <= j < i ==> Succeeds(products, visit, j)
      invariant forall j :: 0 <= j < i ==> Some(enriched[j]) == Enrich(products[j], visit(j))
    {
      var product := products[i];
      var page := visit(i);
      visited := visited + 1;
      if product.url.None? || !page.navigated {
        return;
      }
      if page.carousel.None? {
        return;
      }
      var images := page.carousel.value;
      if page.description.None? {
        return;
      }
      var description := Trim(page.description.value);
      if page.specifications.None? {
        return;
      }
      var state := Trim(page.specifications.value);
      enriched := enriched + [Product(product.uuid, product.name, product.url, product.price,
                                      description, state, images)];
      if |enriched| >= MaxProducts {
        return;
      }
      i := i + 1;
    }
  }

  /** The first failure is the failing index all of whose predecessors succeed. */
  lemma FirstFailureIs(products: seq<Stub>, visit: nat -> DetailPage, k: nat)
    requires k <= |products|
    requires k < |products| ==> !Succeeds(products, visit, k)
    requires forall j :: 0 <= j < k ==> Succeeds(products, visit, j)
    ensures FirstFailure(products, visit) == k
  {
  }

  /** If product `k` is the first whose visit fails, the result is exactly the
      enrichments of the products before it (at most ten), and no product after it
      is visited. */
  lemma AbortKeepsPrefix(products: seq<Stub>, visit: nat -> DetailPage, k: nat)
    requires k < |products|
    requires forall j :: 0 <= j < k ==> Succeeds(products, visit, j)
    requires !Succeeds(products, visit, k)
    ensures |Enriched(products, visit)| == Min(k, MaxProducts)
    ensures forall i :: 0 <= i < |Enriched(products, visit)| ==>
      Some(Enriched(products, visit)[i]) == Enrich(products[i], visit(i))
    ensures Visited(products, visit) == Min(k + 1, MaxProducts)
  {
  }

  /** When every visit succeeds, the loop keeps all products up to the cap of ten
      and visits exactly those. */
  lemma AllSucceedKeepsAll(products: seq<Stub>, visit: nat -> DetailPage)
    requires forall j :: 0 <= j < |products| ==> Succeeds(products, visit, j)
    ensures |Enriched(products, visit)| == Min(MaxProducts, |products|)
    ensures Visited(products, visit) == Min(MaxProducts, |products|)
  {
  }

  /** When the third page lacks its carousel, the
      result is the first two products, enriched. */
  lemma ThirdCarouselMissing(products: seq<Stub>, visit: nat -> DetailPage)
    requires |products| >= 3
    requires Succeeds(products, visit, 0) && Succeeds(products, visit, 1)
    requires visit(2).carousel.None?
    ensures Enriched(products, visit) ==
      [Enrich(products[0], visit(0)).value, Enrich(products[1], visit(1)).value]
  {
  }

  /** A page without its specifications element ends the loop like any other
      missing element: the product is not enriched and nothing after it is. */
  lemma MissingSpecificationsAborts(products: seq<Stub>, visit: nat -> DetailPage, k: nat)
    requires k < |products|
    requires visit(k).specifications.None?
    ensures |Enriched(products, visit)| <= k
  {
  }

  /** The stub a product was enriched from: its first four fields. */
  function StubOf(p: Product): Stub {
    Stub(p.uuid, p.name, p.url, p.price)
  }

  function StubsOf(ps: seq<Product>): (stubs: seq<Stub>)
    ensures |stubs| == |ps|
    ensures forall i :: 0 <= i < |ps| ==> stubs[i] == StubOf(ps[i])
  {
    if ps == [] then [] else [StubOf(ps[0])] + StubsOf(ps[1..])
  }

  /** Enrichment only adds fields: forgetting them gives back the input stubs,
      unchanged, in order, as a prefix of the input. */
  lemma EnrichedIsPrefixOfStubs(products: seq<Stub>, visit: nat -> DetailPage)
    ensures StubsOf(Enriched(products, visit)) == products[..|Enriched(products, visit)|]
  {
  }

  /** More products never change what is produced for the first ones: the result
      for a list is a prefix of the result for any extension of it. */
  lemma EnrichedPrefixOfExtension(products: seq<Stub>, more: seq<Stub>, visit: nat -> DetailPage)
    ensures Enriched(products, visit) <= Enriched(products + more, visit)
  {
  }
}
