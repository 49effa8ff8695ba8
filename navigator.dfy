/**
 * The page navigator: `scroll_to_bottom` and `click_next_page`. The browser
 * is replaced by what it would report: the successive page heights, and for
 * each "next" control the URL read after clicking it.
 */
module Navigator {
  import opened Wrappers
  import opened Selectors

  /**
   * `scroll_to_bottom(max_scrolls)`. `height(k)` is the page height read after
   * `k` scrolls (`height(0)` before the first). Returns how many scrolls were
   * issued: at most `max_scrolls`, each of which but the last grew the page,
   * and fewer than `max_scrolls` only when the last one left the height unchanged.
   */
  method ScrollToBottom(height: nat -> int, maxScrolls: int) returns (scrolls: nat)
    ensures maxScrolls <= 0 ==> scrolls == 0
    ensures maxScrolls > 0 ==> 1 <= scrolls <= maxScrolls
    ensures forall k :: 1 <= k < scrolls ==> height(k) != height(k - 1)
    ensures 0 < scrolls < maxScrolls ==> height(scrolls) == height(scrolls - 1)
  {
    var lastHeight := height(0);
    scrolls := 0;
    while scrolls < maxScrolls
      invariant maxScrolls <= 0 ==> scrolls == 0
      invariant maxScrolls > 0 ==> scrolls <= maxScrolls
      invariant lastHeight == height(scrolls)
      invariant forall k :: 1 <= k <= scrolls ==> height(k) != height(k - 1)
    {
      var newHeight := height(scrolls + 1);
      scrolls := scrolls + 1;
      if newHeight == lastHeight {
        break;
      }
      lastHeight := newHeight;
    }
  }

  /** The "next page" controls, in the order they are tried; the last is an XPath expression. */
  const NextPageSelectors: seq<string> := [
    "a[rel='next']",
    "a.pagination-number.next",
    "a.next",
    "//a[contains(translate(., 'NEXT', 'next'),'next')]"
  ]

  /**
   * Whether the control `sel` moves the browser off `before`: it matches an
   * element of the listing, and `landing` gives the URL read after clicking it
   * and waiting for a change (absent when the click raises or the wait times out),
   * which differs from `before`.
   */
  predicate ControlMoves(listing: Scope, sel: string, before: string, landing: map<string, string>) {
    FindAll(listing, sel) != [] && sel in landing && landing[sel] != before
  }

  /**
   * Whether trying `selectors` in order moves the browser off `before`.
   */
  function Advances(selectors: seq<string>, listing: Scope, before: string, landing: map<string, string>): bool {
    if selectors == [] then false
    else
      ControlMoves(listing, selectors[0], before, landing)
      || Advances(selectors[1..], listing, before, landing)
  }

  /** `click_next_page()`'s result; `current` is `None` when reading the current URL raises. */
  function NextPageMoved(listing: Scope, current: Option<string>, landing: map<string, string>): bool {
    current.Some? && Advances(NextPageSelectors, listing, current.value, landing)
  }

  /** `click_next_page()`: tries each control in order, returning true at the first that changes the URL. */
  method ClickNextPage(listing: Scope, current: Option<string>, landing: map<string, string>) returns (moved: bool)
    ensures moved == NextPageMoved(listing, current, landing)
  {
    if current.None? {
      return false;
    }
    var currUrl := current.value;
    var selectors := NextPageSelectors;
    var i := 0;
    while i < |selectors|
      invariant 0 <= i <= |selectors|
      invariant Advances(selectors[i..], listing, currUrl, landing) == Advances(selectors, listing, currUrl, landing)
    {
      var sel := selectors[i];
      assert selectors[i..][1..] == selectors[i + 1..];
      if sel in listing && listing[sel] != [] && sel in landing {
        if landing[sel] != currUrl {
          return true;
        }
      }
      i := i + 1;
    }
    return false;
  }

  /**
   * `click_next_page()` reports a move exactly when the current URL could be
   * read and some control that is present, once clicked, leads to a different URL.
   */
  lemma NextPageMovedIff(listing: Scope, current: Option<string>, landing: map<string, string>)
    ensures NextPageMoved(listing, current, landing) <==>
      (current.Some? && exists k :: 0 <= k < |NextPageSelectors| && ControlMoves(listing, NextPageSelectors[k], current.value, landing))
  {
    if current.Some? {
      AdvancesIff(NextPageSelectors, listing, current.value, landing);
    }
  }

  lemma {:induction false} AdvancesIff(selectors: seq<string>, listing: Scope, before: string, landing: map<string, string>)
    ensures Advances(selectors, listing, before, landing) <==>
      (exists k :: 0 <= k < |selectors| && ControlMoves(listing, selectors[k], before, landing))
  {
    if selectors != [] {
      AdvancesIff(selectors[1..], listing, before, landing);
      if Advances(selectors[1..], listing, before, landing) {
        var k :| 0 <= k < |selectors[1..]| && ControlMoves(listing, selectors[1..][k], before, landing);
        assert selectors[k + 1] == selectors[1..][k];
      }
      if exists k :: 0 <= k < |selectors| && ControlMoves(listing, selectors[k], before, landing) {
        var k :| 0 <= k < |selectors| && ControlMoves(listing, selectors[k], before, landing);
        if k > 0 {
          assert selectors[1..][k - 1] == selectors[k];
        }
      }
    }
  }
}
