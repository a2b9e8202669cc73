/**
 * Point lookups: every search screen calls `Array.prototype.find`, which
 * returns the first element, in catalog order, that satisfies the test.
 */
module Lookup {
  import opened Wrappers
  import opened JsValues
  import opened Text
  import opened Records

  /** `i` is the position `find` stops at: the first element that passes `p`. */
  ghost predicate IsFirstMatch<T>(xs: seq<T>, p: T -> bool, i: int)
  {
    0 <= i < |xs| && p(xs[i]) && forall j :: 0 <= j < i ==> !p(xs[j])
  }

  /** The position of the first element of `xs` that passes `p`, if any. */
  function FirstIndex<T>(xs: seq<T>, p: T -> bool): (r: Option<nat>)
    ensures r.None? <==> forall i :: 0 <= i < |xs| ==> !p(xs[i])
    ensures r.Some? ==> IsFirstMatch(xs, p, r.value)
  {
    if xs == [] then None
    else if p(xs[0]) then Some(0)
    else match FirstIndex(xs[1..], p)
      case None => None
      case Some(k) => Some(k + 1)
  }

  /** Array `find`: the first element that passes `p`, if any. */
  function Find<T>(xs: seq<T>, p: T -> bool): (r: Option<T>)
    ensures r.None? <==> forall i :: 0 <= i < |xs| ==> !p(xs[i])
    ensures r.Some? ==> exists i :: IsFirstMatch(xs, p, i) && r.value == xs[i]
  {
    match FirstIndex(xs, p)
    case None => None
    case Some(i) => Some(xs[i])
  }

  /** Duplicated keys: the element found is the one at the first matching position. */
  lemma FindFirstOfDuplicates<T>(xs: seq<T>, p: T -> bool, i: nat)
    requires IsFirstMatch(xs, p, i)
    ensures Find(xs, p) == Some(xs[i])
  {
    var r := FirstIndex(xs, p);
    assert r.Some?;
  }

  /** `find` looks at the head first and otherwise searches the tail. */
  lemma FindStep<T>(xs: seq<T>, p: T -> bool)
    requires xs != []
    ensures Find(xs, p) == if p(xs[0]) then Some(xs[0]) else Find(xs[1..], p)
  {
    if !p(xs[0]) {
      match FirstIndex(xs[1..], p)
      case None =>
      case Some(k) => assert xs[1..][k] == xs[k + 1];
    }
  }

  /** Two tests that agree on every element find the same element. */
  lemma FindAgrees<T>(xs: seq<T>, p: T -> bool, q: T -> bool)
    requires forall x :: p(x) == q(x)
    ensures Find(xs, p) == Find(xs, q)
  {
    if Find(xs, p).Some? {
      var i :| IsFirstMatch(xs, p, i) && Find(xs, p).value == xs[i];
      FindFirstOfDuplicates(xs, q, i);
    }
  }

  /** When exactly one element passes the test, `find` returns that element. */
  lemma FindUnique<T>(xs: seq<T>, p: T -> bool, i: nat)
    requires i < |xs| && p(xs[i])
    requires forall j :: 0 <= j < |xs| && p(xs[j]) ==> j == i
    ensures Find(xs, p) == Some(xs[i])
  {
    FindFirstOfDuplicates(xs, p, i);
  }

  // ----- OrderScreen.handleSearch and InventoryScreen.handleSearch -----

  /** A product answers a code query when its code, lower-cased, equals the trimmed, lower-cased query. */
  predicate CodeMatches(query: string, p: Product)
  {
    ToLower(p.codigo) == ToLower(Trim(query))
  }

  /** The first product whose lower-cased code equals the trimmed, lower-cased query. */
  function FindByCode(products: seq<Product>, query: string): (r: Option<Product>)
    ensures r.None? <==> forall i :: 0 <= i < |products| ==> !CodeMatches(query, products[i])
    ensures r.Some? ==> exists i :: IsFirstMatch(products, p => CodeMatches(query, p), i) && r.value == products[i]
    ensures r.Some? ==> r.value in products && ToLower(r.value.codigo) == ToLower(Trim(query))
  {
    Find(products, p => CodeMatches(query, p))
  }

  /** Upper/lower case and surrounding blanks in the query make no difference to the code search. */
  lemma FindByCodeIgnoresCaseAndBlanks(products: seq<Product>, query: string, other: string)
    requires ToLower(Trim(query)) == ToLower(Trim(other))
    ensures FindByCode(products, query) == FindByCode(products, other)
  {
    FindAgrees(products, p => CodeMatches(query, p), p => CodeMatches(other, p));
  }

  // ----- Inventory.handleSearch -----

  /** An inventory item answers a query equal to its code or to its EAN, exactly. */
  predicate ItemKeyMatches(query: string, item: InventoryItem)
  {
    item.codigo == query || item.ean == query
  }

  /** The first inventory item whose code or EAN equals the query exactly. */
  function FindItemByKey(inventory: seq<InventoryItem>, query: string): (r: Option<InventoryItem>)
    ensures r.None? <==> forall i :: 0 <= i < |inventory| ==> !ItemKeyMatches(query, inventory[i])
    ensures r.Some? ==> exists i :: IsFirstMatch(inventory, x => ItemKeyMatches(query, x), i) && r.value == inventory[i]
    ensures r.Some? ==> r.value in inventory && (r.value.codigo == query || r.value.ean == query)
  {
    Find(inventory, x => ItemKeyMatches(query, x))
  }

  // ----- Consultation.handleSearch -----

  /** A catalog entry answers a query equal to its code or to its EAN, exactly. */
  predicate EntryKeyMatches(query: string, e: CatalogEntry)
  {
    e.codigo == query || e.ean == query
  }

  /** The first catalog entry whose code or EAN equals the query exactly. */
  function FindEntryByKey(entries: seq<CatalogEntry>, query: string): (r: Option<CatalogEntry>)
    ensures r.None? <==> forall i :: 0 <= i < |entries| ==> !EntryKeyMatches(query, entries[i])
    ensures r.Some? ==> exists i :: IsFirstMatch(entries, x => EntryKeyMatches(query, x), i) && r.value == entries[i]
    ensures r.Some? ==> r.value in entries && (r.value.codigo == query || r.value.ean == query)
  {
    Find(entries, x => EntryKeyMatches(query, x))
  }
}
