/**
 * The listing loop: Section -> Subcategory -> Page -> Card. Each card becomes
 * one row; a page with no cards, or a failure to advance, ends the section;
 * an optional per-subcategory cap cuts a page's card loop short.
 *
 * The browser is replaced by what it shows: for every section, the listing
 * pages in order (each after scrolling, with what `click_next_page` would
 * observe on it), and for deep scraping the product pages by URL.
 */
module Scraper {
  import opened Wrappers
  import opened Normalize
  import opened Selectors
  import opened Navigator
  import opened Enricher

  const MaxPagesPerSubcat := 3
  const DeepScrapeEnabled := false
  const MaxProductsPerSubcat: Option<int> := None

  /** The configured sections, in the order they are visited. */
  const BaseSections: seq<(string, string)> := [
    ("Accessories", "https://www.snapdeal.com/search?keyword=accessories&sort=rlvncy"),
    ("Footwear", "https://www.snapdeal.com/search?keyword=footwear&sort=rlvncy"),
    ("Kids' Fashion", "https://www.snapdeal.com/search?keyword=kids%20fashion&sort=rlvncy"),
    ("Men's Clothing", "https://www.snapdeal.com/search?keyword=men%20clothing&sort=rlvncy"),
    ("Women's Clothing", "https://www.snapdeal.com/search?keyword=women%20clothing&sort=rlvncy")
  ]

  /** The one subcategory every section has: the section's own listing. */
  const AllSubcategory := "(All)"

  const PrimaryCardSelector := "div.product-tuple-listing"
  const SecondaryCardSelector := "div.product-tuple"
  const TitleSelectors: seq<string> := ["p.product-title"]
  const PriceSelectors: seq<string> := ["span.product-price"]
  const LinkSelectors: seq<string> := ["a.dp-widget-link"]

  /** The run's settings: the page cap, the deep-scrape switch and the optional product cap. */
  datatype Config = Config(maxPages: int, deepScrape: bool, cap: Option<int>)

  const DefaultConfig := Config(MaxPagesPerSubcat, DeepScrapeEnabled, MaxProductsPerSubcat)

  /**
   * One listing page as the loop sees it: the DOM once scrolled to the bottom,
   * and what `click_next_page` observes there (see `Navigator.NextPageMoved`).
   */
  datatype PageView = PageView(listing: Scope, current: Option<string>, landing: map<string, string>)

  /** A section: its name, its listing URL, and the pages its listing shows, page 1 first. */
  datatype SectionVisit = SectionVisit(name: string, url: string, pages: seq<PageView>)

  /** One output row (the capture timestamp is not modelled). */
  datatype Row = Row(
    section: string,
    subcategory: string,
    name: string,
    price: nat,
    url: string,
    details: Details,
    page: nat)

  /** Product pages by URL; a URL that is absent is one whose loading raises. */
  type Catalog = map<string, Scope>

  function CatalogPage(catalog: Catalog, url: string): Option<Scope> {
    if url in catalog then Some(catalog[url]) else None
  }

  /** Page `p` of a listing; past the pages given, an empty page (no cards, no next control). */
  function PageAt(pages: seq<PageView>, p: nat): PageView
    requires p >= 1
  {
    if p - 1 < |pages| then pages[p - 1] else PageView(map[], None, map[])
  }

  /** `find_all(primary) or find_all(secondary)`: the cards of a listing page. */
  function ListingCards(listing: Scope): (cards: seq<Element>)
    ensures cards == [] <==> FindAll(listing, PrimaryCardSelector) == [] && FindAll(listing, SecondaryCardSelector) == []
    ensures FindAll(listing, PrimaryCardSelector) != [] ==> cards == FindAll(listing, PrimaryCardSelector)
    ensures FindAll(listing, PrimaryCardSelector) == [] ==> cards == FindAll(listing, SecondaryCardSelector)
  {
    var primary := FindAll(listing, PrimaryCardSelector);
    if primary != [] then primary else FindAll(listing, SecondaryCardSelector)
  }

  /** `if MAX_PRODUCTS_PER_SUBCAT and total_this_sub >= MAX_PRODUCTS_PER_SUBCAT`: a cap of `None` or 0 never fires. */
  predicate CapReached(cap: Option<int>, total: nat) {
    cap.Some? && cap.value != 0 && total >= cap.value
  }

  /** How the card loop turns a card found on a given page into a row. */
  type CardReader = (nat, Element) -> Row

  /** The row assembled for one card found on page `page` of `section`. */
  function CardRow(cfg: Config, section: string, page: nat, card: Element, catalog: Catalog, convert: string -> string): Row {
    var url := Resolve(LinkSelectors, card.inner, Some("href"));
    Row(
      section := section,
      subcategory := AllSubcategory,
      name := Resolve(TitleSelectors, card.inner, None),
      price := CleanInt(Some(Resolve(PriceSelectors, card.inner, None))),
      url := url,
      details := if cfg.deepScrape && url != "" then ProductDetails(url, CatalogPage(catalog, url), convert) else NoDetails,
      page := page)
  }

  /** The card reader of one section's listing. */
  function Reader(cfg: Config, section: string, catalog: Catalog, convert: string -> string): CardReader {
    (page: nat, card: Element) => CardRow(cfg, section, page, card, catalog, convert)
  }

  /** The rows the cards would give, one per card, in order. */
  function Candidates(read: CardReader, page: nat, cards: seq<Element>): (rows: seq<Row>)
    ensures |rows| == |cards|
  {
    seq(|cards|, j requires 0 <= j < |cards| => read(page, cards[j]))
  }

  /**
   * How many of a page's `n` cards the card loop keeps when `total` products
   * were already counted: with a truthy cap `c`, it stops right after the
   * append that brings the count to `c`, so at least one card is always kept.
   */
  function CapCount(cap: Option<int>, n: nat, total: nat): (k: nat)
    ensures k <= n
  {
    if n == 0 || !(cap.Some? && cap.value != 0) then n
    else if cap.value - total <= 1 then 1
    else if cap.value - total < n then cap.value - total
    else n
  }

  /** Rows the card loop appends for the cards of page `page`. */
  function CardRows(cap: Option<int>, read: CardReader, page: nat, cards: seq<Element>, total: nat): seq<Row> {
    Candidates(read, page, cards[..CapCount(cap, |cards|, total)])
  }

  /** The cards of page `p` of a listing. */
  function PageCards(pages: seq<PageView>, p: nat): seq<Element>
    requires p >= 1
  {
    ListingCards(PageAt(pages, p).listing)
  }

  /** Whether `click_next_page` on page `p` reaches another page. */
  predicate PageMoves(pages: seq<PageView>, p: nat)
    requires p >= 1
  {
    NextPageMoved(PageAt(pages, p).listing, PageAt(pages, p).current, PageAt(pages, p).landing)
  }

  /** Rows the page loop appends from page `p` on, `total` products having been counted on earlier pages. */
  function PageRows(cfg: Config, read: CardReader, pages: seq<PageView>, p: nat, total: nat): seq<Row>
    requires p >= 1
    decreases cfg.maxPages - p
  {
    if p > cfg.maxPages || PageCards(pages, p) == [] then []
    else
      var here := CardRows(cfg.cap, read, p, PageCards(pages, p), total);
      if PageMoves(pages, p) then here + PageRows(cfg, read, pages, p + 1, total + |here|)
      else here
  }

  /** The rows one section contributes: its single subcategory, from page 1 with a fresh count. */
  function SectionRows(cfg: Config, s: SectionVisit, catalog: Catalog, convert: string -> string): seq<Row> {
    PageRows(cfg, Reader(cfg, s.name, catalog, convert), s.pages, 1, 0)
  }

  /** All rows of a run over `sections`, in visiting order. */
  function RunRows(cfg: Config, sections: seq<SectionVisit>, catalog: Catalog, convert: string -> string): seq<Row> {
    if sections == [] then []
    else RunRows(cfg, sections[..|sections| - 1], catalog, convert) + SectionRows(cfg, sections[|sections| - 1], catalog, convert)
  }

  lemma ConcatAssoc(a: seq<Row>, b: seq<Row>, c: seq<Row>)
    ensures a + (b + c) == (a + b) + c
  {
  }

  /** Scraping one more card appends its row. */
  lemma CandidatesSnoc(read: CardReader, page: nat, cards: seq<Element>, i: nat)
    requires i < |cards|
    ensures Candidates(read, page, cards[..i + 1]) == Candidates(read, page, cards[..i]) + [read(page, cards[i])]
  {
    assert cards[..i + 1] == cards[..i] + [cards[i]];
  }

  /** Past the page cap, or at a page without cards, the loop appends nothing more. */
  lemma PageRowsEnd(cfg: Config, read: CardReader, pages: seq<PageView>, p: nat, total: nat)
    requires p >= 1
    requires p > cfg.maxPages || PageCards(pages, p) == []
    ensures PageRows(cfg, read, pages, p, total) == []
  {
  }

  /** A page within the cap whose `cards` are scraped and whose next control moves on: the loop goes on to the next page. */
  lemma PageRowsNext(cfg: Config, read: CardReader, pages: seq<PageView>, p: nat, total: nat, cards: seq<Element>)
    requires 1 <= p <= cfg.maxPages
    requires cards == PageCards(pages, p) && cards != [] && PageMoves(pages, p)
    ensures PageRows(cfg, read, pages, p, total)
      == CardRows(cfg.cap, read, p, cards, total) + PageRows(cfg, read, pages, p + 1, total + |CardRows(cfg.cap, read, p, cards, total)|)
  {
  }

  /** A page within the cap whose `cards` are scraped but whose next control does not move: the section ends with it. */
  lemma PageRowsLast(cfg: Config, read: CardReader, pages: seq<PageView>, p: nat, total: nat, cards: seq<Element>)
    requires 1 <= p <= cfg.maxPages
    requires cards == PageCards(pages, p) && cards != [] && !PageMoves(pages, p)
    ensures PageRows(cfg, read, pages, p, total) == CardRows(cfg.cap, read, p, cards, total)
  {
  }

  /**
   * `CapCount` is the card loop's append-then-check: with a truthy cap the
   * loop keeps at least one card, none of the appends before the last one
   * reaches the cap, and it leaves cards behind only when the last append
   * did; a cap of `None` or 0 keeps every card.
   */
  lemma CapCountStops(cap: Option<int>, n: nat, total: nat)
    ensures n > 0 ==> CapCount(cap, n, total) >= 1
    ensures forall t :: total < t < total + CapCount(cap, n, total) ==> !CapReached(cap, t)
    ensures CapCount(cap, n, total) < n ==> CapReached(cap, total + CapCount(cap, n, total))
    ensures !(cap.Some? && cap.value != 0) ==> CapCount(cap, n, total) == n
  {
  }

  /** Without a truthy cap a page contributes the rows of all its cards. */
  lemma UncappedPageKeepsAll(cap: Option<int>, read: CardReader, page: nat, cards: seq<Element>, total: nat)
    requires !(cap.Some? && cap.value != 0)
    ensures CardRows(cap, read, page, cards, total) == Candidates(read, page, cards)
  {
    assert cards[..|cards|] == cards;
  }

  /**
   * Once the count has reached a truthy cap, a page with cards still
   * appends exactly one row: the row of its first card.
   */
  lemma CapOvershoot(cap: Option<int>, read: CardReader, page: nat, cards: seq<Element>, total: nat)
    requires CapReached(cap, total)
    requires cards != []
    ensures CardRows(cap, read, page, cards, total) == [read(page, cards[0])]
  {
    assert CapCount(cap, |cards|, total) == 1;
  }

  /** What every row of one section carries: the section, "(All)", a page in `lo..hi`, and no details unless deep scraping is on. */
  predicate Labelled(r: Row, cfg: Config, section: string, lo: int, hi: int) {
    r.section == section && r.subcategory == AllSubcategory && lo <= r.page <= hi
    && (!cfg.deepScrape ==> r.details == NoDetails)
  }

  predicate AllLabelled(rows: seq<Row>, cfg: Config, section: string, lo: int, hi: int) {
    forall i :: 0 <= i < |rows| ==> Labelled(rows[i], cfg, section, lo, hi)
  }

  /** A reader that labels every card's row with the section and the card's page. */
  ghost predicate LabelsRows(read: CardReader, cfg: Config, section: string) {
    forall page: nat, card :: Labelled(read(page, card), cfg, section, page, page)
  }

  /** The section's own reader labels its rows: section name, "(All)", the page, and no details unless deep scraping is on. */
  lemma ReaderLabels(cfg: Config, section: string, catalog: Catalog, convert: string -> string)
    ensures LabelsRows(Reader(cfg, section, catalog, convert), cfg, section)
  {
  }

  lemma LabelledConcat(a: seq<Row>, b: seq<Row>, cfg: Config, section: string, lo: int, mid: int, hi: int)
    requires lo <= mid
    requires AllLabelled(a, cfg, section, lo, hi) && AllLabelled(b, cfg, section, mid, hi)
    ensures AllLabelled(a + b, cfg, section, lo, hi)
  {
    assert forall i :: |a| <= i < |a + b| ==> (a + b)[i] == b[i - |a|];
  }

  /** Every row appended from page `p` on is labelled with the section and a page between `p` and the page cap. */
  lemma {:induction false} PageRowsLabelled(cfg: Config, read: CardReader, section: string, pages: seq<PageView>, p: nat, total: nat)
    requires p >= 1
    requires LabelsRows(read, cfg, section)
    ensures AllLabelled(PageRows(cfg, read, pages, p, total), cfg, section, p, cfg.maxPages)
    decreases cfg.maxPages - p
  {
    if p > cfg.maxPages || PageCards(pages, p) == [] {
      PageRowsEnd(cfg, read, pages, p, total);
    } else {
      var here := CardRows(cfg.cap, read, p, PageCards(pages, p), total);
      if PageMoves(pages, p) {
        PageRowsNext(cfg, read, pages, p, total, PageCards(pages, p));
        PageRowsLabelled(cfg, read, section, pages, p + 1, total + |here|);
        LabelledConcat(here, PageRows(cfg, read, pages, p + 1, total + |here|), cfg, section, p, p + 1, cfg.maxPages);
      } else {
        PageRowsLast(cfg, read, pages, p, total, PageCards(pages, p));
      }
    }
  }

  /** A reader that gives every card's row the page the card was found on. */
  ghost predicate KeepsPage(read: CardReader) {
    forall page: nat, card :: read(page, card).page == page
  }

  lemma LabelsKeepPage(read: CardReader, cfg: Config, section: string)
    requires LabelsRows(read, cfg, section)
    ensures KeepsPage(read)
  {
    forall page: nat, card
      ensures read(page, card).page == page
    {
      assert Labelled(read(page, card), cfg, section, page, page);
    }
  }

  predicate OnPage(rows: seq<Row>, p: int) {
    forall i :: 0 <= i < |rows| ==> rows[i].page == p
  }

  predicate PagesFrom(rows: seq<Row>, p: int) {
    forall i :: 0 <= i < |rows| ==> rows[i].page >= p
  }

  /** Rows come page by page: the page numbers never decrease. */
  predicate PagesAscending(rows: seq<Row>) {
    forall i :: 0 < i < |rows| ==> rows[i - 1].page <= rows[i].page
  }

  lemma CardRowsOnPage(cap: Option<int>, read: CardReader, p: nat, cards: seq<Element>, total: nat)
    requires KeepsPage(read)
    ensures OnPage(CardRows(cap, read, p, cards, total), p)
  {
  }

  lemma AscendingConcat(a: seq<Row>, b: seq<Row>, p: int)
    requires OnPage(a, p) && PagesFrom(b, p + 1) && PagesAscending(b)
    ensures PagesFrom(a + b, p) && PagesAscending(a + b)
  {
    assert forall i :: |a| <= i < |a + b| ==> (a + b)[i] == b[i - |a|];
  }

  /** The pages are visited in increasing order: from page `p` on, rows come page by page. */
  lemma {:induction false} PageRowsAscending(cfg: Config, read: CardReader, pages: seq<PageView>, p: nat, total: nat)
    requires p >= 1
    requires KeepsPage(read)
    ensures PagesFrom(PageRows(cfg, read, pages, p, total), p)
    ensures PagesAscending(PageRows(cfg, read, pages, p, total))
    decreases cfg.maxPages - p
  {
    if p > cfg.maxPages || PageCards(pages, p) == [] {
      PageRowsEnd(cfg, read, pages, p, total);
    } else {
      var here := CardRows(cfg.cap, read, p, PageCards(pages, p), total);
      CardRowsOnPage(cfg.cap, read, p, PageCards(pages, p), total);
      if PageMoves(pages, p) {
        PageRowsNext(cfg, read, pages, p, total, PageCards(pages, p));
        PageRowsAscending(cfg, read, pages, p + 1, total + |here|);
        AscendingConcat(here, PageRows(cfg, read, pages, p + 1, total + |here|), p);
      } else {
        PageRowsLast(cfg, read, pages, p, total, PageCards(pages, p));
        AscendingConcat(here, [], p);
        assert here + [] == here;
      }
    }
  }

  /** Page `k` had cards and its next control moved on, so the loop went on to page `k + 1`. */
  predicate MovedOn(pages: seq<PageView>, k: nat)
    requires k >= 1
  {
    PageCards(pages, k) != [] && PageMoves(pages, k)
  }

  /** Every page from `p` up to `q - 1` had cards and moved on. */
  predicate ReachedFrom(pages: seq<PageView>, p: nat, q: int)
    requires p >= 1
  {
    forall k :: p <= k < q ==> MovedOn(pages, k)
  }

  predicate AllReached(rows: seq<Row>, pages: seq<PageView>, p: nat)
    requires p >= 1
  {
    forall i :: 0 <= i < |rows| ==> ReachedFrom(pages, p, rows[i].page)
  }

  lemma ReachedConcat(a: seq<Row>, b: seq<Row>, pages: seq<PageView>, p: nat)
    requires p >= 1 && MovedOn(pages, p)
    requires OnPage(a, p) && AllReached(b, pages, p + 1)
    ensures AllReached(a + b, pages, p)
  {
    forall i | 0 <= i < |a + b|
      ensures ReachedFrom(pages, p, (a + b)[i].page)
    {
      if i >= |a| {
        assert (a + b)[i] == b[i - |a|];
        assert ReachedFrom(pages, p + 1, b[i - |a|].page);
      }
    }
  }

  /**
   * A page is scraped only when reached: a row of page `q` means that every
   * page from `p` up to `q - 1` had cards and moved on to the next.
   */
  lemma {:induction false} PageRowsReached(cfg: Config, read: CardReader, pages: seq<PageView>, p: nat, total: nat)
    requires p >= 1
    requires KeepsPage(read)
    ensures AllReached(PageRows(cfg, read, pages, p, total), pages, p)
    decreases cfg.maxPages - p
  {
    if p > cfg.maxPages || PageCards(pages, p) == [] {
      PageRowsEnd(cfg, read, pages, p, total);
    } else {
      var here := CardRows(cfg.cap, read, p, PageCards(pages, p), total);
      CardRowsOnPage(cfg.cap, read, p, PageCards(pages, p), total);
      if PageMoves(pages, p) {
        PageRowsNext(cfg, read, pages, p, total, PageCards(pages, p));
        PageRowsReached(cfg, read, pages, p + 1, total + |here|);
        ReachedConcat(here, PageRows(cfg, read, pages, p + 1, total + |here|), pages, p);
      } else {
        PageRowsLast(cfg, read, pages, p, total, PageCards(pages, p));
      }
    }
  }

  function Max(a: int, b: int): int {
    if a < b then b else a
  }

  /**
   * With a truthy cap `c`, the rows appended from page `p` on overshoot
   * `c - 1` by at most one row per remaining page: the cap is checked only
   * after an append and the count is not reset between pages.
   */
  lemma {:induction false} PageRowsCapBound(cfg: Config, read: CardReader, pages: seq<PageView>, p: nat, total: nat)
    requires p >= 1
    requires cfg.cap.Some? && cfg.cap.value != 0
    ensures total + |PageRows(cfg, read, pages, p, total)| <= Max(total, cfg.cap.value - 1) + Max(0, cfg.maxPages - p + 1)
    decreases cfg.maxPages - p
  {
    if p > cfg.maxPages || PageCards(pages, p) == [] {
      PageRowsEnd(cfg, read, pages, p, total);
    } else {
      var here := CardRows(cfg.cap, read, p, PageCards(pages, p), total);
      if PageMoves(pages, p) {
        PageRowsNext(cfg, read, pages, p, total, PageCards(pages, p));
        PageRowsCapBound(cfg, read, pages, p + 1, total + |here|);
      } else {
        PageRowsLast(cfg, read, pages, p, total, PageCards(pages, p));
      }
    }
  }

  /** A section's rows under a truthy cap `c`: at most `c - 1` plus one per page. */
  lemma SectionCapBound(cfg: Config, s: SectionVisit, catalog: Catalog, convert: string -> string)
    requires cfg.cap.Some? && cfg.cap.value != 0
    ensures |SectionRows(cfg, s, catalog, convert)| <= Max(0, cfg.cap.value - 1) + Max(0, cfg.maxPages)
  {
    PageRowsCapBound(cfg, Reader(cfg, s.name, catalog, convert), s.pages, 1, 0);
  }

  /**
   * A section's rows come page by page in increasing page order, and a row of
   * page `q` means that pages 1 to `q - 1` all had cards and moved on.
   */
  lemma SectionRowsInOrder(cfg: Config, s: SectionVisit, catalog: Catalog, convert: string -> string)
    ensures PagesAscending(SectionRows(cfg, s, catalog, convert))
    ensures AllReached(SectionRows(cfg, s, catalog, convert), s.pages, 1)
  {
    var read := Reader(cfg, s.name, catalog, convert);
    ReaderLabels(cfg, s.name, catalog, convert);
    LabelsKeepPage(read, cfg, s.name);
    PageRowsAscending(cfg, read, s.pages, 1, 0);
    PageRowsReached(cfg, read, s.pages, 1, 0);
  }

  /**
   * The cap is not a hard bound: with a cap of 1, two pages with cards,
   * the first moving on to the second, give two rows or more.
   */
  lemma CapNotHardBound(cfg: Config, s: SectionVisit, catalog: Catalog, convert: string -> string)
    requires cfg.cap == Some(1) && cfg.maxPages >= 2
    requires MovedOn(s.pages, 1) && PageCards(s.pages, 2) != []
    ensures |SectionRows(cfg, s, catalog, convert)| >= 2
  {
    var read := Reader(cfg, s.name, catalog, convert);
    PageRowsNext(cfg, read, s.pages, 1, 0, PageCards(s.pages, 1));
    var first := CardRows(cfg.cap, read, 1, PageCards(s.pages, 1), 0);
    assert |first| == 1;
    CapOvershoot(cfg.cap, read, 2, PageCards(s.pages, 2), 1);
    if PageMoves(s.pages, 2) {
      PageRowsNext(cfg, read, s.pages, 2, 1, PageCards(s.pages, 2));
    } else {
      PageRowsLast(cfg, read, s.pages, 2, 1, PageCards(s.pages, 2));
    }
  }

  /** The row belongs to one of `sections`: labelled with its name, "(All)" and a page from 1 to the page cap. */
  predicate FromSections(r: Row, cfg: Config, sections: seq<SectionVisit>) {
    exists j :: 0 <= j < |sections| && Labelled(r, cfg, sections[j].name, 1, cfg.maxPages)
  }

  /** Every row of a run comes from one of the visited sections. */
  lemma {:induction false} RunRowsLabelled(cfg: Config, sections: seq<SectionVisit>, catalog: Catalog, convert: string -> string)
    ensures forall r :: r in RunRows(cfg, sections, catalog, convert) ==> FromSections(r, cfg, sections)
  {
    if sections != [] {
      var n := |sections| - 1;
      var init := sections[..n];
      RunRowsLabelled(cfg, init, catalog, convert);
      ReaderLabels(cfg, sections[n].name, catalog, convert);
      PageRowsLabelled(cfg, Reader(cfg, sections[n].name, catalog, convert), sections[n].name, sections[n].pages, 1, 0);
      var back := SectionRows(cfg, sections[n], catalog, convert);
      forall r | r in RunRows(cfg, init, catalog, convert) + back
        ensures FromSections(r, cfg, sections)
      {
        if r in back {
          var i :| 0 <= i < |back| && back[i] == r;
          assert Labelled(r, cfg, sections[n].name, 1, cfg.maxPages);
        } else {
          assert FromSections(r, cfg, init);
          var j :| 0 <= j < |init| && Labelled(r, cfg, init[j].name, 1, cfg.maxPages);
          assert init[j] == sections[j];
        }
      }
    }
  }

  /** The visits follow `BaseSections`: same names and URLs, in the same order. */
  predicate FollowsBaseSections(sections: seq<SectionVisit>) {
    |sections| == |BaseSections|
    && forall i :: 0 <= i < |sections| ==> sections[i].name == BaseSections[i].0 && sections[i].url == BaseSections[i].1
  }

  /**
   * A run over the configured sections with the default settings: every row
   * names one of the five configured sections, lies on pages 1 to 3, and
   * carries no product details, since deep scraping is off.
   */
  lemma DefaultRunRows(sections: seq<SectionVisit>, catalog: Catalog, convert: string -> string)
    requires FollowsBaseSections(sections)
    ensures forall r :: r in RunRows(DefaultConfig, sections, catalog, convert) ==>
      (exists j :: 0 <= j < |BaseSections| && r.section == BaseSections[j].0)
      && r.subcategory == AllSubcategory && 1 <= r.page <= MaxPagesPerSubcat && r.details == NoDetails
  {
    RunRowsLabelled(DefaultConfig, sections, catalog, convert);
    forall r | r in RunRows(DefaultConfig, sections, catalog, convert)
      ensures exists j :: 0 <= j < |BaseSections| && r.section == BaseSections[j].0
    {
      var j :| 0 <= j < |sections| && Labelled(r, DefaultConfig, sections[j].name, 1, DefaultConfig.maxPages);
      assert r.section == BaseSections[j].0;
    }
  }

  /** The field extraction for one card: name, price, link and, when enabled, the product's details. */
  method ScrapeCard(cfg: Config, section: string, page: nat, card: Element, catalog: Catalog, convert: string -> string) returns (row: Row)
    ensures row == CardRow(cfg, section, page, card, catalog, convert)
  {
    var name := FindFirst(TitleSelectors, card.inner, None);
    var priceText := FindFirst(PriceSelectors, card.inner, None);
    var price := CleanInt(Some(priceText));
    var url := FindFirst(LinkSelectors, card.inner, Some("href"));
    var extra := NoDetails;
    if cfg.deepScrape && url != "" {
      extra := DeepScrapeProduct(url, CatalogPage(catalog, url), convert);
    }
    row := Row(section, AllSubcategory, name, price, url, extra, page);
  }

  /**
   * The card loop of one page, appending to `allRows` and counting in `total`:
   * stops right after the append that brings the count to the cap.
   */
  method ScrapePage(cfg: Config, section: string, page: nat, cards: seq<Element>, catalog: Catalog, convert: string -> string,
                    allRows: seq<Row>, total: nat)
    returns (rowsAfter: seq<Row>, totalAfter: nat)
    ensures rowsAfter == allRows + CardRows(cfg.cap, Reader(cfg, section, catalog, convert), page, cards, total)
    ensures totalAfter == total + |CardRows(cfg.cap, Reader(cfg, section, catalog, convert), page, cards, total)|
  {
    ghost var read := Reader(cfg, section, catalog, convert);
    ghost var keep := CapCount(cfg.cap, |cards|, total);
    rowsAfter, totalAfter := allRows, total;
    var ci := 0;
    while ci < |cards|
      invariant ci <= keep
      invariant ci < |cards| ==> ci < keep
      invariant rowsAfter == allRows + Candidates(read, page, cards[..ci])
      invariant totalAfter == total + ci
    {
      var row := ScrapeCard(cfg, section, page, cards[ci], catalog, convert);
      CandidatesSnoc(read, page, cards, ci);
      ConcatAssoc(allRows, Candidates(read, page, cards[..ci]), [row]);
      rowsAfter := rowsAfter + [row];
      totalAfter := totalAfter + 1;
      ci := ci + 1;
      if cfg.cap.Some? && cfg.cap.value != 0 && totalAfter >= cfg.cap.value {
        break;
      }
    }
  }

  /**
   * The page loop of one section's subcategory, appending to `allRows`: pages
   * 1 to the page cap, each page's cards in order until the product cap fires,
   * stopping at a page without cards or when the next page cannot be reached.
   */
  method ScrapeSubcategory(cfg: Config, section: SectionVisit, catalog: Catalog, convert: string -> string, allRows: seq<Row>)
    returns (rowsAfter: seq<Row>)
    ensures rowsAfter == allRows + SectionRows(cfg, section, catalog, convert)
  {
    ghost var read := Reader(cfg, section.name, catalog, convert);
    rowsAfter := allRows;
    var totalThisSub: nat := 0;
    var page: nat := 1;
    while page <= cfg.maxPages
      invariant page >= 1
      invariant rowsAfter + PageRows(cfg, read, section.pages, page, totalThisSub) == allRows + SectionRows(cfg, section, catalog, convert)
      decreases cfg.maxPages - page
    {
      var view := PageAt(section.pages, page);
      var cards := ListingCards(view.listing);
      assert cards == PageCards(section.pages, page);
      if cards == [] {
        PageRowsEnd(cfg, read, section.pages, page, totalThisSub);
        break;
      }
      ghost var before, t0 := rowsAfter, totalThisSub;
      rowsAfter, totalThisSub := ScrapePage(cfg, section.name, page, cards, catalog, convert, rowsAfter, totalThisSub);
      var moved := ClickNextPage(view.listing, view.current, view.landing);
      assert moved == PageMoves(section.pages, page);
      if !moved {
        PageRowsLast(cfg, read, section.pages, page, t0, cards);
        break;
      }
      PageRowsNext(cfg, read, section.pages, page, t0, cards);
      ghost var here := CardRows(cfg.cap, read, page, cards, t0);
      ghost var rest := PageRows(cfg, read, section.pages, page + 1, totalThisSub);
      ConcatAssoc(before, here, rest);
      page := page + 1;
    }
    if page > cfg.maxPages {
      PageRowsEnd(cfg, read, section.pages, page, totalThisSub);
    }
  }

  /**
   * The main loop over the sections. `convert` stands for the rating
   * conversion of `parse_rating_from_style`.
   */
  method Run(cfg: Config, sections: seq<SectionVisit>, catalog: Catalog, convert: string -> string) returns (allRows: seq<Row>)
    ensures allRows == RunRows(cfg, sections, catalog, convert)
  {
    allRows := [];
    for si := 0 to |sections|
      invariant allRows == RunRows(cfg, sections[..si], catalog, convert)
    {
      assert sections[..si + 1][..si] == sections[..si];
      allRows := ScrapeSubcategory(cfg, sections[si], catalog, convert, allRows);
    }
    assert sections[..|sections|] == sections;
  }
}
