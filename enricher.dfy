/**
 * The product detail enricher, `deep_scrape_product`: visits a product page
 * and fills a record of extended fields, each resolved independently through
 * the selector fallback chains, with soft defaults.
 */
module Enricher {
  import opened Wrappers
  import opened Text
  import opened Normalize
  import opened Selectors

  /** The extended fields of a product record; `reviews` is the integer "Reviews Count". */
  datatype Details = Details(
    brand: string,
    description: string,
    seller: string,
    availability: string,
    rating: string,
    reviews: nat,
    breadcrumb: string,
    images: string)

  /** The record before any field is filled, and also what a card without deep scraping gets. */
  const NoDetails := Details("", "", "", "", "", 0, "", "")

  const BrandSelectors: seq<string> := ["span[itemprop='brand']", "a#brand", ".pdp-e-i-brand a"]
  const RatingSelectors: seq<string> := ["span[itemprop='ratingValue']", ".pdp-e-i-rating"]
  const StarsSelectors: seq<string> := [".filled-stars"]
  const ReviewSelectors: seq<string> := ["span[itemprop='reviewCount']", ".pdp-review-count"]
  const AvailabilitySelectors: seq<string> := [".sold-out-err", ".availability-msg"]
  const SellerSelectors: seq<string> := ["#sellerName", ".pdp-seller-info a"]
  const DescriptionSelectors: seq<string> := ["#description", ".product-desc"]
  const CrumbSelector := "ul.breadcrumb li"
  const ImageSelector := "img"

  /** The availability recorded when the page shows no availability message. */
  const InStock := "In Stock"

  /** The longest image string a record keeps. */
  const MaxImageChars := 2000

  /**
   * `parse_rating_from_style(style)`: `""` for an empty style; otherwise the
   * conversion of the bar width to a rating, which works on binary floating
   * point and is supplied as `convert`.
   */
  function RatingFromStyle(style: string, convert: string -> string): (r: string)
    ensures style == "" ==> r == ""
  {
    if style == "" then "" else convert(style)
  }

  /** `[safe_text(li) for li in crumbs if safe_text(li)]`. */
  function CrumbTexts(crumbs: seq<Element>): (r: seq<string>)
    ensures |r| <= |crumbs|
    ensures forall t :: t in r ==> t != ""
    ensures forall t :: t in r <==> exists i :: 0 <= i < |crumbs| && SafeText(crumbs[i]) == t && t != ""
  {
    if crumbs == [] then []
    else
      var rest := CrumbTexts(crumbs[1..]);
      assert forall i :: 0 <= i < |crumbs[1..]| ==> crumbs[1..][i] == crumbs[i + 1];
      var t := SafeText(crumbs[0]);
      if t != "" then [t] + rest else rest
  }

  /** The crumb texts keep document order and repetitions: the texts of two runs of crumbs are those of the first, then those of the second. */
  lemma {:induction false} CrumbTextsConcat(a: seq<Element>, b: seq<Element>)
    ensures CrumbTexts(a + b) == CrumbTexts(a) + CrumbTexts(b)
  {
    if a != [] {
      assert (a + b)[0] == a[0];
      assert (a + b)[1..] == a[1..] + b;
      CrumbTextsConcat(a[1..], b);
    } else {
      assert a + b == b;
    }
  }

  /** The breadcrumb field: the non-empty crumb texts joined by `" > "`. */
  function Breadcrumb(crumbs: seq<Element>): string {
    Join(" > ", CrumbTexts(crumbs))
  }

  /** The breadcrumb is empty exactly when no crumb has any text. */
  lemma BreadcrumbEmptyIff(crumbs: seq<Element>)
    ensures Breadcrumb(crumbs) == "" <==> forall i :: 0 <= i < |crumbs| ==> SafeText(crumbs[i]) == ""
  {
    var texts := CrumbTexts(crumbs);
    JoinEmptyIff(" > ", texts);
    if texts != [] {
      assert texts[0] in texts;
    } else {
      forall i | 0 <= i < |crumbs| ensures SafeText(crumbs[i]) == "" {
        assert SafeText(crumbs[i]) !in texts;
      }
    }
  }

  /** The `src` of an image element, `""` when it has none (`img.get_attribute("src") or ""`). */
  function Source(img: Element): string {
    if "src" in img.attrs then img.attrs["src"] else ""
  }

  /** `[img.get_attribute("src") for img in imgs if (...).startswith("http")]`, in document order. */
  function HttpSources(imgs: seq<Element>): (r: seq<string>)
    ensures forall x :: x in r ==> StartsWith(x, "http")
    ensures forall x :: x in r <==> exists i :: 0 <= i < |imgs| && Source(imgs[i]) == x && StartsWith(x, "http")
  {
    if imgs == [] then []
    else
      var rest := HttpSources(imgs[1..]);
      assert forall i :: 0 <= i < |imgs[1..]| ==> imgs[1..][i] == imgs[i + 1];
      var src := Source(imgs[0]);
      if StartsWith(src, "http") then [src] + rest else rest
  }

  /** The `http` sources keep the page's `<img>` order and repetitions. */
  lemma {:induction false} HttpSourcesConcat(a: seq<Element>, b: seq<Element>)
    ensures HttpSources(a + b) == HttpSources(a) + HttpSources(b)
  {
    if a != [] {
      assert (a + b)[0] == a[0];
      assert (a + b)[1..] == a[1..] + b;
      HttpSourcesConcat(a[1..], b);
    } else {
      assert a + b == b;
    }
  }

  /** The position of the first image on the page whose `src` is `x`, or `|imgs|` if there is none. */
  function FirstSourceAt(imgs: seq<Element>, x: string): (i: nat)
    ensures i <= |imgs|
    ensures i < |imgs| ==> Source(imgs[i]) == x
    ensures forall k :: 0 <= k < i ==> Source(imgs[k]) != x
  {
    if imgs == [] then 0
    else if Source(imgs[0]) == x then 0
    else 1 + FirstSourceAt(imgs[1..], x)
  }

  /**
   * Filtering the sources keeps first-seen order: a value seen first earlier
   * in the `http` sources is seen first earlier among the page's images.
   */
  lemma {:induction false} HttpSourcesFirstSeen(imgs: seq<Element>, x: string, y: string)
    requires x in HttpSources(imgs) && y in HttpSources(imgs)
    requires FirstIndex(HttpSources(imgs), x) < FirstIndex(HttpSources(imgs), y)
    ensures FirstSourceAt(imgs, x) < FirstSourceAt(imgs, y) < |imgs|
  {
    var hs := HttpSources(imgs);
    var rest := HttpSources(imgs[1..]);
    var src := Source(imgs[0]);
    if StartsWith(src, "http") {
      assert hs == [src] + rest;
      if x != src {
        assert y != src;
        assert hs[1..] == rest;
        HttpSourcesFirstSeen(imgs[1..], x, y);
      } else {
        var i :| 0 <= i < |imgs| && Source(imgs[i]) == y && StartsWith(y, "http");
        assert FirstSourceAt(imgs, y) <= i;
      }
    } else {
      assert hs == rest;
      assert StartsWith(x, "http") && StartsWith(y, "http");
      HttpSourcesFirstSeen(imgs[1..], x, y);
    }
  }

  predicate NoDuplicates(xs: seq<string>) {
    forall i, j :: 0 <= i < j < |xs| ==> xs[i] != xs[j]
  }

  /** `list(dict.fromkeys(xs))`: the distinct values of `xs`, each kept where it first occurs. */
  function Dedup(xs: seq<string>): (r: seq<string>)
    ensures NoDuplicates(r)
    ensures forall x :: x in r <==> x in xs
  {
    if xs == [] then []
    else
      var d := Dedup(xs[..|xs| - 1]);
      var x := xs[|xs| - 1];
      assert forall y :: y in xs <==> y in xs[..|xs| - 1] || y == x;
      if x in d then d else d + [x]
  }

  /** Where `x` first occurs in `xs`. */
  function FirstIndex(xs: seq<string>, x: string): (i: nat)
    requires x in xs
    ensures i < |xs| && xs[i] == x
    ensures forall k :: 0 <= k < i ==> xs[k] != x
  {
    if xs[0] == x then 0 else 1 + FirstIndex(xs[1..], x)
  }

  lemma FirstIndexInPrefix(xs: seq<string>, n: nat, x: string)
    requires n <= |xs| && x in xs[..n]
    ensures FirstIndex(xs, x) == FirstIndex(xs[..n], x)
  {
    var i, j := FirstIndex(xs, x), FirstIndex(xs[..n], x);
    assert xs[..n][j] == xs[j];
    assert i < n ==> xs[..n][i] == xs[i];
  }

  /** Deduplication keeps first-seen order: earlier in the result means first seen earlier in the input. */
  lemma {:induction false} DedupFirstSeenOrder(xs: seq<string>, i: nat, j: nat)
    requires i < j < |Dedup(xs)|
    ensures Dedup(xs)[i] in xs && Dedup(xs)[j] in xs
    ensures FirstIndex(xs, Dedup(xs)[i]) < FirstIndex(xs, Dedup(xs)[j])
  {
    var n := |xs| - 1;
    var p, x := xs[..n], xs[n];
    var d := Dedup(p);
    assert d[i] in p;
    FirstIndexInPrefix(xs, n, d[i]);
    if j < |d| {
      assert d[j] in p;
      FirstIndexInPrefix(xs, n, d[j]);
      DedupFirstSeenOrder(p, i, j);
    } else {
      assert x !in p;
      assert forall k :: 0 <= k < n ==> xs[k] == p[k];
    }
  }

  /** The image field: the distinct `http` sources, joined by `", "` and cut to `MaxImageChars` characters. */
  function ImageField(imgs: seq<Element>): (r: string)
    ensures |r| <= MaxImageChars
    ensures StartsWith(Join(", ", Dedup(HttpSources(imgs))), r)
    ensures |Join(", ", Dedup(HttpSources(imgs)))| <= MaxImageChars ==> r == Join(", ", Dedup(HttpSources(imgs)))
    ensures |Join(", ", Dedup(HttpSources(imgs)))| > MaxImageChars ==> |r| == MaxImageChars
  {
    Truncate(Join(", ", Dedup(HttpSources(imgs))), MaxImageChars)
  }

  /**
   * The images a record lists are exactly the `http` sources of the page, each
   * once, in the order in which they first appear on the page.
   */
  lemma ImageListSpec(imgs: seq<Element>)
    ensures var list := Dedup(HttpSources(imgs));
      && NoDuplicates(list)
      && (forall x :: x in list ==> StartsWith(x, "http") && FirstSourceAt(imgs, x) < |imgs|)
      && (forall i :: 0 <= i < |imgs| && StartsWith(Source(imgs[i]), "http") ==> Source(imgs[i]) in list)
      && (forall i, j :: 0 <= i < j < |list| ==> FirstSourceAt(imgs, list[i]) < FirstSourceAt(imgs, list[j]))
  {
    var hs := HttpSources(imgs);
    var list := Dedup(hs);
    forall x | x in list
      ensures FirstSourceAt(imgs, x) < |imgs|
    {
      var i :| 0 <= i < |imgs| && Source(imgs[i]) == x && StartsWith(x, "http");
      assert FirstSourceAt(imgs, x) <= i;
    }
    forall i, j | 0 <= i < j < |list|
      ensures FirstSourceAt(imgs, list[i]) < FirstSourceAt(imgs, list[j])
    {
      DedupFirstSeenOrder(hs, i, j);
      HttpSourcesFirstSeen(imgs, list[i], list[j]);
    }
  }

  /**
   * What `deep_scrape_product(url)` returns. `page` is the product page once
   * loaded, or `None` when loading it raises, in which case the exception
   * handler returns the record as it stood: every field still at its default.
   */
  function ProductDetails(url: string, page: Option<Scope>, convert: string -> string): (d: Details)
    ensures url == "" || page.None? ==> d == NoDetails
    ensures url != "" && page.Some? ==> d.availability != ""
    ensures url != "" && page.Some? && Resolve(AvailabilitySelectors, page.value, None) == "" ==> d.availability == InStock
    ensures |d.images| <= MaxImageChars
  {
    if url == "" then NoDetails
    else match page
      case None => NoDetails
      case Some(p) =>
        var rating := Resolve(RatingSelectors, p, None);
        var availability := Resolve(AvailabilitySelectors, p, None);
        Details(
          brand := Resolve(BrandSelectors, p, None),
          description := Resolve(DescriptionSelectors, p, None),
          seller := Resolve(SellerSelectors, p, None),
          availability := if availability != "" then availability else InStock,
          rating := if rating != "" then rating else RatingFromStyle(Resolve(StarsSelectors, p, Some("style")), convert),
          reviews := CleanInt(Some(Resolve(ReviewSelectors, p, None))),
          breadcrumb := Breadcrumb(FindAll(p, CrumbSelector)),
          images := ImageField(FindAll(p, ImageSelector)))
  }

  /** `deep_scrape_product(url)`: fills the record field by field. */
  method DeepScrapeProduct(url: string, page: Option<Scope>, convert: string -> string) returns (data: Details)
    ensures data == ProductDetails(url, page, convert)
  {
    data := NoDetails;
    if url == "" {
      return;
    }
    if page.None? {
      return;
    }
    var p := page.value;
    var brand := FindFirst(BrandSelectors, p, None);
    data := data.(brand := brand);
    var ratingVal := FindFirst(RatingSelectors, p, None);
    if ratingVal == "" {
      var style := FindFirst(StarsSelectors, p, Some("style"));
      ratingVal := RatingFromStyle(style, convert);
    }
    data := data.(rating := ratingVal);
    var reviewText := FindFirst(ReviewSelectors, p, None);
    data := data.(reviews := CleanInt(Some(reviewText)));
    var availability := FindFirst(AvailabilitySelectors, p, None);
    data := data.(availability := if availability != "" then availability else InStock);
    var seller := FindFirst(SellerSelectors, p, None);
    data := data.(seller := seller);
    var description := FindFirst(DescriptionSelectors, p, None);
    data := data.(description := description);
    var crumbs := FindAll(p, CrumbSelector);
    if crumbs != [] {
      data := data.(breadcrumb := Breadcrumb(crumbs));
    }
    data := data.(images := ImageField(FindAll(p, ImageSelector)));
  }
}
