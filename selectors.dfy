/**
 * The selector resolver: `find_first`, `find_all` and `safe_text`, over an
 * abstract DOM. A scope (the whole page, or one element) maps each selector
 * to the elements it matches, in document order; a selector absent from the
 * map matches nothing (or its lookup raised, which the source treats alike).
 */
module Selectors {
  import opened Wrappers
  import opened Text

  /**
   * A located element: its visible text (`None` when reading `.text` raises),
   * its attributes, and the scope of the elements inside it.
   */
  datatype Element = Element(text: Option<string>, attrs: map<string, string>, inner: map<string, seq<Element>>)

  type Scope = map<string, seq<Element>>

  /** `find_all(selector, in_el)`: the matches, or `[]` when there are none or the lookup raises. */
  function FindAll(scope: Scope, sel: string): (r: seq<Element>)
    ensures sel !in scope ==> r == []
  {
    if sel in scope then scope[sel] else []
  }

  /** Whether `find_first` reads an attribute: Python's `if attr` (an empty name means text). */
  predicate ReadsAttribute(attr: Option<string>) {
    attr.Some? && attr.value != ""
  }

  /**
   * One pass of `find_first`'s loop body: `None` when it raises (no match,
   * the attribute is absent so `None.strip()` fails, or reading the text
   * fails) and so moves on to the next selector, else the stripped value.
   */
  function Probe(scope: Scope, sel: string, attr: Option<string>): Option<string> {
    var found := FindAll(scope, sel);
    if found == [] then None
    else if ReadsAttribute(attr) then
      if attr.value in found[0].attrs then Some(Strip(found[0].attrs[attr.value])) else None
    else
      match found[0].text
      case Some(t) => Some(Strip(t))
      case None => None
  }

  /** What `find_first` returns: the first selector's probe that succeeds, else `""`. */
  function Resolve(selectors: seq<string>, scope: Scope, attr: Option<string>): string {
    if selectors == [] then ""
    else
      match Probe(scope, selectors[0], attr)
      case Some(v) => v
      case None => Resolve(selectors[1..], scope, attr)
  }

  /** `find_first(selectors, in_el, attr)`: tries each selector in order and returns at the first success. */
  method FindFirst(selectors: seq<string>, scope: Scope, attr: Option<string>) returns (r: string)
    ensures r == Resolve(selectors, scope, attr)
  {
    var i := 0;
    while i < |selectors|
      invariant 0 <= i <= |selectors|
      invariant Resolve(selectors[i..], scope, attr) == Resolve(selectors, scope, attr)
    {
      var sel := selectors[i];
      assert selectors[i..][1..] == selectors[i + 1..];
      if sel in scope && scope[sel] != [] {
        var el := scope[sel][0];
        if ReadsAttribute(attr) {
          if attr.value in el.attrs {
            return Strip(el.attrs[attr.value]);
          }
        } else if el.text.Some? {
          return Strip(el.text.value);
        }
      }
      i := i + 1;
    }
    return "";
  }

  /**
   * The fallback chain: the result is the value of selector `k` exactly when
   * `k` succeeds and every earlier selector failed.
   */
  lemma {:induction false} ResolveFirstSuccess(selectors: seq<string>, scope: Scope, attr: Option<string>, k: nat)
    requires k < |selectors| && Probe(scope, selectors[k], attr).Some?
    requires forall i :: 0 <= i < k ==> Probe(scope, selectors[i], attr).None?
    ensures Resolve(selectors, scope, attr) == Probe(scope, selectors[k], attr).value
  {
    if k > 0 {
      ResolveFirstSuccess(selectors[1..], scope, attr, k - 1);
    }
  }

  /** When every selector fails the result is `""`. */
  lemma {:induction false} ResolveAllFail(selectors: seq<string>, scope: Scope, attr: Option<string>)
    requires forall i :: 0 <= i < |selectors| ==> Probe(scope, selectors[i], attr).None?
    ensures Resolve(selectors, scope, attr) == ""
  {
    if selectors != [] {
      ResolveAllFail(selectors[1..], scope, attr);
    }
  }

  /** Selectors after the first success are never consulted: appending more changes nothing. */
  lemma {:induction false} ResolveIgnoresLater(selectors: seq<string>, later: seq<string>, scope: Scope, attr: Option<string>, k: nat)
    requires k < |selectors| && Probe(scope, selectors[k], attr).Some?
    ensures Resolve(selectors + later, scope, attr) == Resolve(selectors, scope, attr)
  {
    if Probe(scope, selectors[0], attr).None? {
      assert (selectors + later)[1..] == selectors[1..] + later;
      ResolveIgnoresLater(selectors[1..], later, scope, attr, k - 1);
    }
  }

  /** The result is always stripped: no whitespace at either end. */
  lemma {:induction false} ResolveIsStripped(selectors: seq<string>, scope: Scope, attr: Option<string>)
    ensures Strip(Resolve(selectors, scope, attr)) == Resolve(selectors, scope, attr)
  {
    if selectors != [] {
      var found := FindAll(scope, selectors[0]);
      if found != [] {
        if ReadsAttribute(attr) && attr.value in found[0].attrs {
          StripIdempotent(found[0].attrs[attr.value]);
        } else if !ReadsAttribute(attr) && found[0].text.Some? {
          StripIdempotent(found[0].text.value);
        }
      }
      ResolveIsStripped(selectors[1..], scope, attr);
    }
  }

  /** `safe_text(el)`: the stripped text, or `""` when reading it raises. */
  function SafeText(el: Element): (r: string)
    ensures el.text.None? ==> r == ""
  {
    match el.text
    case Some(t) => Strip(t)
    case None => ""
  }
}
