# Marketplace scraper: listing collection, detail enrichment and the write decision

This project models the sequential logic of `scrape.js`, a scraper that reads a
marketplace search-results page, visits each listing's own page to add its
images, description and state, and saves the result as JSON. The browser is
replaced by the data it would report:

- the results page is `Option<seq<Card>>`. `None` means anything inside
  `scrapePage`'s try threw: navigation, the wait for `.ItemCardList__item`,
  the in-page evaluation or closing the browser. A `Card` has its `title` and `href`
  attributes and the text of its `.ItemCard__price` element, each optional;
- the i-th product page visited is `visit(i)`. It holds a navigation flag and
  three optional elements: the carousel's ordered image `src` values, the
  description text and the additional-specifications text;
- the i-th call of `crypto.randomUUID` is `uuids(i)`.

Modules:

- `Text`: JavaScript's `String.prototype.trim`, with ECMAScript's whitespace set.
- `Listing`: `scrapePage`. It keeps the first ten cards in DOM order and maps
  each to `{uuid, name, url, price}`. Any failure gives the empty list.
- `Enrichment`: `scrapeImagesAndDescriptionFromUrls`. It is a method with a
  loop, an accumulator and early returns. It is proved equal to `Enriched`, a
  declarative definition: the enrichments of the products before the first one
  whose visit fails, at most ten of them.
- `Scraper`: `main`'s branch. The results are written only when the stub list
  is non-empty.

Behaviour of `scrape.js` that the model keeps as written:

- the wait for the specifications element (scrape.js:77-79) is a hard failure
  with the default timeout, like the carousel and description waits: it ends
  the loop (`MissingSpecificationsAborts`);
- an enriched product has exactly the fields `uuid`, `name`, `url`, `price`,
  `description`, `state` and `images` (scrape.js:92-97);
- an empty stub list writes no file at all (scrape.js:128, 145-146);
- a non-empty stub list whose first visit fails writes an empty array
  (scrape.js:128-143).

`page.goto(null)` throws, so a stub without a link counts as a failed
navigation.

## Model

| member | source | states |
|---|---|---|
| Text.Trim | scrape.js:24 | the trimmed text is no longer than the input and has no whitespace at either end |
| Text.TrimIsSlice | scrape.js:24 | trimming only cuts whitespace off the two ends: the result is a contiguous slice whose removed prefix and suffix are all whitespace |
| Text.TrimUnique | scrape.js:24 | any trimmed slice got by cutting whitespace off both ends is the trim, so the trim is fully characterised |
| Text.TrimTrimmed | scrape.js:24 | a general property of the trim applied at lines 24, 72 and 87: a string without surrounding whitespace is left unchanged |
| Text.TrimIdempotent | scrape.js:24 | a general property of the trim applied at lines 24, 72 and 87: trimming twice equals trimming once |
| Listing.PriceOf | scrape.js:23-24 | the price is "" without a price element, otherwise the trimmed price text |
| Listing.PriceIsTrimmedText | scrape.js:23-24 | a present price has no surrounding whitespace and is the price text with only whitespace cut from its ends |
| Listing.StubsFrom | scrape.js:20-27 | one stub per card, in order; the i-th gets the i-th card's title, href and price and the generator's next identifier |
| Listing.ScrapePage | scrape.js:6-38 | at most ten stubs; none when the page failed; otherwise exactly min(10, cards), the i-th built from the i-th card with identifier uuids(i) |
| Listing.ExtraCardsIgnored | scrape.js:17-20 | cards after the tenth have no effect on the stubs |
| Enrichment.Enrich | scrape.js:47-98 | a visit succeeds exactly when the link is present, navigation works and the carousel, description and specifications all appear; then the stub's four fields are kept and images, trimmed description and trimmed state are added |
| Enrichment.FirstFailureFrom | scrape.js:46-105 | the first failing visit from a given index on, with every visit before it succeeding |
| Enrichment.FirstFailure | scrape.js:46-105 | the index of the first failing visit, or the list length when none fails |
| Enrichment.Enriched | scrape.js:43-111 | at most ten results, no more than the input, the i-th being the successful enrichment of product i |
| Enrichment.ScrapeImagesAndDescriptionFromUrls | scrape.js:40-112 | the loop returns exactly Enriched, and visits exactly the products it returns plus the failing one if it stopped on a failure |
| Enrichment.FirstFailureIs | scrape.js:46-105 | the first failure is the failing index whose predecessors all succeed |
| Enrichment.AbortKeepsPrefix | scrape.js:50-111 | if product k fails first, the output is exactly the enrichments of products 0..k-1 (capped at ten) and nothing after k is visited |
| Enrichment.AllSucceedKeepsAll | scrape.js:46-103 | when every visit succeeds, exactly min(10, products) are enriched and exactly that many pages are visited |
| Enrichment.ThirdCarouselMissing | scrape.js:53 | a missing carousel on the third page leaves exactly the first two products |
| Enrichment.MissingSpecificationsAborts | scrape.js:77-79 | a missing specifications element ends the output before that product |
| Enrichment.StubsOf | scrape.js:92-93 | projecting products back to stubs keeps order and length |
| Enrichment.EnrichedIsPrefixOfStubs | scrape.js:92-98 | enrichment only adds fields: the stubs behind the output are a prefix of the input, unchanged |
| Enrichment.EnrichedPrefixOfExtension | scrape.js:46-103 | adding products to the input never changes the output for the earlier ones |
| Scraper.Decide | scrape.js:128-147 | the results are written exactly when the stub list is non-empty, and then they are the enriched products |
| Scraper.Run | scrape.js:125-147 | "No data to save" exactly when the page failed or had no cards; otherwise the written products are the enrichment of the collected stubs |
| Scraper.WrittenProductsTraceToCards | scrape.js:126-143 | the written products number at most min(10, cards), and the i-th carries the i-th card's title, link and price and identifier uuids(i) |

## Left out

- The browser: launching and closing Chromium, `page.goto`, `waitForSelector` timeouts and `page.evaluate`. Their results are inputs. Closing the browser on every path is resource handling.
- Failures of the browser plumbing itself. A throw from `page.evaluate` or `browser.close` inside `scrapePage`'s try (scrape.js:16, 31) also yields no stubs; the model folds it into `None`. A failure of `chromium.launch` or `newPage` (scrape.js:7-8, 41-42), or of `browser.close` in the enrichment's `finally` (scrape.js:108), reaches `main`'s catch (scrape.js:148-150): the process exits with status 1 and writes nothing. `Run` does not model this; it promises a `Write` whenever the stub list is non-empty.
- `crypto.randomUUID`: identifiers are injected as `uuids`. Nothing is claimed about their distinctness, because the code guarantees none beyond randomness.
- The description and state fallbacks to "" (scrape.js:72, 87): after a successful wait the element exists. The fallback could only fire if the page changed in between, and that is not modelled.
- The `innerText` versus `textContent` distinction: both are given strings.
- Filesystem work (`existsSync`, `mkdirSync`, `writeFileSync`, path joins) and `JSON.stringify` formatting: the outcome `Write(products)` stands for the file write.
- Reading the command line, `process.exit` and all console logging.
- Whether a page can appear with zero cards after the wait for `.ItemCardList__item` succeeds. The model allows `Some([])` and treats it like the code would.
