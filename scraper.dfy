/** The pipeline of `main`: collect the stubs, and only when there are some,
    enrich them and write the result. Reading the command line, the results
    directory and the JSON file itself are not modelled; the outcome says
    whether, and what, would be written. */
module Scraper {
  import opened Wrappers
  import opened Listing
  import opened Enrichment

  /** `Write(products)`: the products are saved to the results file;
      `NoData`: "No data to save" is reported and nothing is written. */
  datatype Outcome = Write(products: seq<Product>) | NoData

  /** The write decision of `main`, given the collected stubs and the
      enrichment it runs on them. */
  function Decide(stubs: seq<Stub>, enriched: seq<Product>): (outcome: Outcome)
    ensures outcome.NoData? <==> stubs == []
    ensures outcome.Write? ==> outcome.products == enriched
  {
    if |stubs| > 0 then Write(enriched) else NoData
  }

  /** One run of the scraper on a results page, the identifier generator and the
      product pages the browser would show. */
  method Run(page: ResultsPage, uuids: nat -> string, visit: nat -> DetailPage)
    returns (outcome: Outcome)
    ensures outcome.NoData? <==> page.None? || page.value == []
    ensures outcome.Write? ==> outcome.products == Enriched(ScrapePage(page, uuids), visit)
  {
    var stubs := ScrapePage(page, uuids);
    if |stubs| > 0 {
      var enriched, _ := ScrapeImagesAndDescriptionFromUrls(stubs, visit);
      outcome := Decide(stubs, enriched);
    } else {
      outcome := Decide(stubs, []);
    }
  }

  /** What is written traces back to the results page: at most ten products, no
      more than there were cards, the i-th carrying the i-th card's title, link and
      price and the generator's i-th identifier. */
  lemma WrittenProductsTraceToCards(cards: seq<Card>, uuids: nat -> string, visit: nat -> DetailPage)
    ensures var written := Enriched(ScrapePage(Some(cards), uuids), visit);
      && |written| <= Min(MaxProducts, |cards|)
      && forall i :: 0 <= i < |written| ==>
        && written[i].uuid == uuids(i)
        && written[i].name == cards[i].title
        && written[i].url == cards[i].href
        && written[i].price == PriceOf(cards[i])
  {
  }
}
