/** The listing collector (`scrapePage`): reads the cards of one search-results
    page and turns the first ten into product stubs. The browser is replaced by
    the data it would report. */
module Listing {
  import opened Wrappers
  import opened Text

  /** Most stubs ever collected from one results page. */
  const MaxProducts: nat := 10

  /** One `.ItemCardList__item` element: its `title` and `href` attributes
      (`getAttribute` yields null when absent) and the text of its nested
      `.ItemCard__price` element, if there is one. */
  datatype Card = Card(title: Option<string>, href: Option<string>, priceText: Option<string>)

  /** `{uuid, name, url, price}` as built for each card. */
  datatype Stub = Stub(uuid: string, name: Option<string>, url: Option<string>, price: string)

  /** What the browser reports for the results page: `None` when navigation or the
      wait for the listing container failed, otherwise the cards in DOM order. */
  type ResultsPage = Option<seq<Card>>

  function Min(a: nat, b: nat): (m: nat)
    ensures m <= a && m <= b && (m == a || m == b)
  {
    if a <= b then a else b
  }

  /** The price shown on a card: its price text trimmed, or "" without a price element. */
  function PriceOf(card: Card): (price: string)
    ensures card.priceText.None? ==> price == ""
    ensures card.priceText.Some? ==> |price| <= |card.priceText.value| && IsTrimmed(price)
  {
    match card.priceText
    case Some(text) => Trim(text)
    case None => ""
  }

  /** A present price is the price text with surrounding whitespace cut off. */
  lemma PriceIsTrimmedText(card: Card)
    requires card.priceText.Some?
    ensures IsTrimmed(PriceOf(card))
    ensures exists i: nat, j: nat :: IsWhitespaceTrimOf(card.priceText.value, PriceOf(card), i, j)
  {
    TrimIsSlice(card.priceText.value);
  }

  /** The stubs for `cards`, the first of which receives the identifier the
      generator hands out on its `first`-th call. */
  function StubsFrom(cards: seq<Card>, uuids: nat -> string, first: nat): (stubs: seq<Stub>)
    ensures |stubs| == |cards|
    ensures forall i :: 0 <= i < |cards| ==>
      && stubs[i].uuid == uuids(first + i)
      && stubs[i].name == cards[i].title
      && stubs[i].url == cards[i].href
      && stubs[i].price == PriceOf(cards[i])
  {
    if cards == [] then []
    else
      var card := cards[0];
      [Stub(uuids(first), card.title, card.href, PriceOf(card))] + StubsFrom(cards[1..], uuids, first + 1)
  }

  /** `scrapePage`: on failure no stubs; otherwise the first ten cards, in DOM
      order, each mapped to a stub whose identifier is the generator's i-th token. */
  function ScrapePage(page: ResultsPage, uuids: nat -> string): (stubs: seq<Stub>)
    ensures |stubs| <= MaxProducts
    ensures page.None? ==> stubs == []
    ensures page.Some? ==> |stubs| == Min(MaxProducts, |page.value|)
    ensures page.Some? ==> forall i :: 0 <= i < |stubs| ==>
      && stubs[i].uuid == uuids(i)
      && stubs[i].name == page.value[i].title
      && stubs[i].url == page.value[i].href
      && stubs[i].price == PriceOf(page.value[i])
  {
    match page
    case None => []
    case Some(cards) => StubsFrom(cards[..Min(MaxProducts, |cards|)], uuids, 0)
  }

  /** A page with more than ten cards yields exactly ten stubs, the first ten cards'. */
  lemma ExtraCardsIgnored(cards: seq<Card>, more: seq<Card>, uuids: nat -> string)
    requires |cards| == MaxProducts
    ensures ScrapePage(Some(cards + more), uuids) == ScrapePage(Some(cards), uuids)
  {
  }
}
