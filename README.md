# Snapdeal listing scraper: a verified model

`snapdeal.py` walks Snapdeal's search listings and writes one CSV row per product card. It has five top-level sections. For each one it opens the section's single "(All)" subcategory. It then visits pages 1 to `MAX_PAGES_PER_SUBCAT`, scrolling each page and reading every product card. There is an optional per-subcategory product cap. When deep scraping is on, it also opens each product page for brand, rating, reviews, seller, availability, description, breadcrumb and images.

This project models that core in Dafny, with the browser replaced by what it shows:

- A page, or an element, is a **scope**: a map from CSS selector to the elements it matches, in document order. A selector absent from the map matches nothing, or its lookup raised; the source treats both alike.
- An **element** carries:
  - its text (`None` when reading `.text` raises);
  - its attributes;
  - the scope of the elements inside it.
- Each listing page is given as it looks after scrolling to the bottom, together with two observations for `click_next_page`:
  - the URL read before clicking (`None` when reading it raises);
  - for each next-page control, the URL read after clicking it and the wait succeeding.
- Product pages are given by URL. A URL with no page is one whose loading raises.
- Scroll heights are an oracle from scroll count to height.
- The float conversion in `parse_rating_from_style` is a function parameter.

The modules follow the source's helpers:

- `Text`: `str.strip`, `" > ".join` and `[:2000]`.
- `Normalize`: `clean_int`.
- `Selectors`: `find_first`, `find_all` and `safe_text`.
- `Navigator`: `scroll_to_bottom` and `click_next_page`.
- `Enricher`: `deep_scrape_product`.
- `Scraper`: the main loop.

The loops of the source are methods. `ScrollToBottom`'s contract describes the scrolls it issues directly. Every other method is proved equal to a specification function, and the properties are proved about those functions.

## Model

| member | source | states |
|---|---|---|
| Text.TrimLeftSpec | snapdeal.py:83 | stripping on the left removes only leading whitespace (Python's `str.isspace` set), leaves a suffix, and the result does not start with whitespace |
| Text.TrimRightSpec | snapdeal.py:83 | stripping on the right removes only trailing whitespace, leaves a prefix, and the result does not end with whitespace |
| Text.StripSpec | snapdeal.py:83 | `strip()` returns a slice `s[i..j]` of its input with only whitespace cut on either side and no whitespace at either end |
| Text.StripIdempotent | snapdeal.py:92 | stripping an already stripped string changes nothing |
| Text.JoinEmptyIff | snapdeal.py:154 | a join with a non-empty separator is empty exactly when there are no items or one empty item |
| Text.Truncate | snapdeal.py:156 | `s[:n]` is a prefix of `s`: all of `s` when it has at most `n` characters, otherwise exactly its first `n` |
| Normalize.FirstDigitAt | snapdeal.py:69 | the scan for `\d+` finds the first digit: none before it, a digit at it (unless the end) |
| Normalize.RunEnd | snapdeal.py:69 | a `\d+` match is maximal: all digits up to its end and a non-digit (or the end) after |
| Normalize.CleanInt | snapdeal.py:64-72 | `clean_int` gives 0 for `None` or `""` and 0 for text without digits; the result is never negative |
| Normalize.OverlongRunIsZero | snapdeal.py:70-72 | a first run of 4301 digits makes `int()` raise, and the `except` branch returns 0 |
| Normalize.CleanIntIsFirstRun | snapdeal.py:69-72 | for any text whose first maximal digit run is `s[i..j]`, `clean_int` is the decimal value of that run when it has at most 4300 digits, and 0 (the `except` branch) when it is longer |
| Normalize.Decimal | snapdeal.py:70 | the decimal spelling of a number is a non-empty run of digits |
| Normalize.DigitsValueDecimal | snapdeal.py:70 | `int()` of a number's decimal spelling gives the number back |
| Normalize.CleanIntReadsDecimal | snapdeal.py:69-72 | text made of a digit-free prefix, a number and a suffix not starting with a digit cleans to that number, or to 0 when the number has more than 4300 digits |
| Normalize.SeparatorEndsRun | snapdeal.py:69-70 | `clean_int("Rs. 1,234")` is 1: the comma ends the first run |
| Selectors.FindAll | snapdeal.py:97-102 | `find_all` of a selector with no match (or whose lookup raises) is the empty list |
| Selectors.FindFirst | snapdeal.py:87-95 | the selector loop with early return yields exactly `Resolve`: the first selector whose lookup and read succeed |
| Selectors.ResolveFirstSuccess | snapdeal.py:89-92 | when every selector before `k` fails and `k` succeeds, the result is selector `k`'s stripped text or attribute |
| Selectors.ResolveAllFail | snapdeal.py:93-95 | when every selector fails (no match, absent attribute, unreadable text) the result is `""` |
| Selectors.ResolveIgnoresLater | snapdeal.py:89-94 | once a selector succeeds, selectors after it are never consulted |
| Selectors.ResolveIsStripped | snapdeal.py:92 | the value returned is already stripped |
| Selectors.SafeText | snapdeal.py:81-85 | `safe_text` gives `""` when reading the element's text raises |
| Navigator.ScrollToBottom | snapdeal.py:53-62 | at most `max_scrolls` scrolls (none when it is not positive, at least one otherwise); every scroll before the last changed the height, and stopping early means the last scroll left the height unchanged |
| Navigator.ClickNextPage | snapdeal.py:104-127 | the loop over the four next-page selectors returns exactly `NextPageMoved` |
| Navigator.NextPageMovedIff | snapdeal.py:106-127 | a move is reported iff the current URL was readable and some present control, once clicked, led to a different URL |
| Navigator.AdvancesIff | snapdeal.py:117-127 | trying controls in order succeeds iff some control in the list moves the page |
| Enricher.RatingFromStyle | snapdeal.py:76-77 | an empty style gives an empty rating |
| Enricher.CrumbTexts | snapdeal.py:154 | the kept crumb texts are non-empty and are exactly the non-empty `safe_text` values of the crumbs |
| Enricher.CrumbTextsConcat | snapdeal.py:154 | the comprehension keeps the crumbs' document order and repetitions: the texts of `a + b` are those of `a` followed by those of `b` |
| Enricher.BreadcrumbEmptyIff | snapdeal.py:152-154 | the breadcrumb is empty iff every crumb's text is empty |
| Enricher.HttpSources | snapdeal.py:155 | the image list holds exactly the `src` values starting with `"http"` |
| Enricher.HttpSourcesConcat | snapdeal.py:155 | the filtered sources keep the page's `<img>` order and repetitions: those of `a + b` are those of `a` followed by those of `b` |
| Enricher.FirstSourceAt | snapdeal.py:155 | the position found is that of the first image on the page whose `src` is the value, none before it having it |
| Enricher.HttpSourcesFirstSeen | snapdeal.py:155 | a value first seen earlier among the `http` sources is first seen earlier among the page's images |
| Enricher.Dedup | snapdeal.py:156 | `dict.fromkeys` keeps each value once and loses none |
| Enricher.DedupFirstSeenOrder | snapdeal.py:156 | deduplicated values keep the order of their first occurrence |
| Enricher.ImageField | snapdeal.py:156 | the image field is a prefix of the `", "`-join: the whole join when it has at most 2000 characters, otherwise exactly its first 2000 |
| Enricher.ImageListSpec | snapdeal.py:155-156 | the listed images are distinct, each starts with `"http"` and is the `src` of an image on the page, every `http` source of the page is listed, and they come in the order of their first appearance on the page |
| Enricher.ProductDetails | snapdeal.py:129-161 | an empty URL (or a page that fails to load) gives the all-default record; otherwise availability is never empty and is `"In Stock"` when both availability selectors yield `""`; images fit in 2000 characters |
| Enricher.DeepScrapeProduct | snapdeal.py:129-161 | filling the record field by field yields exactly `ProductDetails` |
| Scraper.ListingCards | snapdeal.py:189 | the page's cards are the primary matches when there are any, else exactly the secondary ones; empty iff both are |
| Scraper.Candidates | snapdeal.py:193-217 | one row per card |
| Scraper.CapCount | snapdeal.py:218-221 | the card loop never keeps more cards than the page has |
| Scraper.CapCountStops | snapdeal.py:218-221 | with a truthy cap the card loop keeps at least one card, no earlier append reaches the cap, and cards are left only when the last append reached it; a cap of `None` or 0 keeps all cards |
| Scraper.UncappedPageKeepsAll | snapdeal.py:220 | without a truthy cap a page contributes the rows of all its cards |
| Scraper.CapOvershoot | snapdeal.py:186-221 | once the count has reached the cap, a later page with cards still appends exactly one row, its first card's |
| Scraper.PageRowsEnd | snapdeal.py:187-191 | past the page cap, or at a page without cards, nothing more is appended |
| Scraper.PageRowsNext | snapdeal.py:193-226 | a page with cards whose next control moves contributes its card rows and then the next page's rows, the count carried over |
| Scraper.PageRowsLast | snapdeal.py:193-226 | a page with cards whose next control does not move contributes its card rows and ends the subcategory |
| Scraper.ReaderLabels | snapdeal.py:201-215 | every card's row carries the section name, `"(All)"`, the page it was found on, and no details unless deep scraping is on |
| Scraper.PageRowsLabelled | snapdeal.py:186-226 | every row from page `p` on carries the section, `"(All)"` and a page between `p` and the page cap |
| Scraper.PageRowsAscending | snapdeal.py:187-215 | rows come page by page in increasing page order |
| Scraper.PageRowsReached | snapdeal.py:187-226 | a row of page `q` means every earlier page had cards and its next control moved |
| Scraper.PageRowsCapBound | snapdeal.py:186-226 | with a truthy cap `c`, the count overshoots `c - 1` by at most one row per remaining page |
| Scraper.SectionCapBound | snapdeal.py:186-226 | a subcategory yields at most `c - 1` plus one row per page under a truthy cap `c` |
| Scraper.SectionRowsInOrder | snapdeal.py:186-226 | a subcategory's rows come in increasing page order, and a row of page `q` means pages 1 to `q - 1` all had cards and moved on |
| Scraper.CapNotHardBound | snapdeal.py:186-226 | with cap 1, two reachable pages with cards give two rows or more: the cap is not a hard bound |
| Scraper.RunRowsLabelled | snapdeal.py:167-226 | every row of a run comes from one visited section, labelled with its name, `"(All)"` and a page from 1 to the page cap |
| Scraper.DefaultRunRows | snapdeal.py:20-30 | under the default settings every row names a configured section, lies on pages 1 to 3 and has no product details |
| Scraper.ScrapeCard | snapdeal.py:193-215 | the field extraction of one card yields exactly `CardRow` |
| Scraper.ScrapePage | snapdeal.py:193-222 | the card loop appends exactly `CardRows` and counts each append |
| Scraper.ScrapeSubcategory | snapdeal.py:186-226 | the page loop appends exactly the section's `SectionRows` |
| Scraper.Run | snapdeal.py:166-226 | the section loop appends each section's rows in visiting order, exactly `RunRows` |

## Left out

- Selenium set-up, driver options, `ChromeDriverManager`, `driver.quit()`: foreign library calls.
- `human_sleep` and all waits: timing has no effect on the rows.
- `print` logging, the `datetime.now()` "Scraped At" column, and the pandas/CSV flush in `finally`: I/O and clock reads.
- `parse_rating_from_style`: its float division and `round` are left to the `convert` parameter. Only the empty-style case is modelled.
- `clean_int` matches ASCII digits only. Python's `\d` also matches other Unicode decimal digits.
- `clean_int`'s digit limit is CPython's default of 4300 (3.11 on). Interpreters without the limit would read longer runs in full.
- `find_first`'s `by` argument is not modelled. Every call in the core uses CSS selectors; the XPath next control of `click_next_page` is a key of the same observation map.
- Reading an image's `src` is assumed not to raise. Where it would raise, the source abandons the rest of the record.
- `deep_scrape_product` navigates back to the listing afterwards (lines 139, 160). The model does not capture that this can leave the remaining listing cards stale. Rows are computed as though the listing were still in view.
- `scroll_to_bottom` is modelled on its own. The main loop takes each listing page as it stands after scrolling, so `Scraper.Run` does not call it.
- The subcategory list always holds the single "(All)" entry (line 175), so the subcategory loop is not modelled as a loop. Each section visit is that one subcategory.
- `Scraper.Run` takes the sections to visit as its input. `BASE_SECTIONS` is the constant `BaseSections`, and `Scraper.DefaultRunRows` states what a run over those sections gives.
- Listing pages beyond those given are treated as empty pages, so the loop stops there.
- Several browser calls sit outside any handler: `execute_script` in `scroll_to_bottom` (lines 55, 57, 59), `driver.current_url` (line 139), the `driver.get` in `finally` (line 160), and the `driver.get` calls of the main loop (lines 169, 180). If one raises, the run ends early with the rows collected so far. The model assumes these calls succeed, so `Scraper.Run` always yields all of `RunRows`.
- Enricher.RatingFromStyle: states only the empty-style case, because the non-empty case depends on Python float rounding.
