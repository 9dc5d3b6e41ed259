/** The stock screen's search: a product is listed when its name, brand,
    category or barcode contains the query ignoring letter case, or one of
    its unsold serial numbers contains the query exactly as typed. */
module Inventory {
  import opened Types
  import opened Collections
  import opened Text
  import Billing

  /** The search test; an empty search and a product's exact barcode always match. */
  predicate ProductMatches(p: Product, search: string)
    ensures search == "" ==> ProductMatches(p, search)
    ensures p.barcode == Some(search) ==> ProductMatches(p, search)
  {
    ContainsEmpty(Lower(p.name));
    var q := Lower(search);
    || Contains(Lower(p.name), q)
    || Contains(Lower(p.brand), q)
    || Contains(Lower(p.category), q)
    || (p.barcode.Some? && Contains(Lower(p.barcode.value), q))
    || Billing.SomeImeiContains(p.availableImeis, search)
  }

  /** `products.filter(...)`: the matching products in catalogue order. */
  function FilterProducts(ps: seq<Product>, search: string): (r: seq<Product>)
    ensures IsSubsequence(r, ps)
    ensures forall p :: p in r <==> p in ps && ProductMatches(p, search)
  {
    Filter(ps, (p: Product) => ProductMatches(p, search))
  }

  /** An empty search shows the whole catalogue. */
  lemma EmptySearchKeepsAll(ps: seq<Product>)
    ensures FilterProducts(ps, "") == ps
  {
    forall i | 0 <= i < |ps| ensures ProductMatches(ps[i], "") {
      ContainsEmpty(Lower(ps[i].name));
    }
    FilterKeepsAll(ps, (p: Product) => ProductMatches(p, ""));
  }

  /** Without a barcode and without a serial pool, only name, brand and
      category can match. */
  lemma MissingFieldsNeverMatch(p: Product, search: string)
    requires p.barcode.None? && p.availableImeis.None?
    ensures ProductMatches(p, search) <==>
      var q := Lower(search);
      Contains(Lower(p.name), q) || Contains(Lower(p.brand), q) || Contains(Lower(p.category), q)
  {
  }

  /** Serial numbers are matched against the query as typed: a product whose
      only serial holds an upper-case letter is found by typing that serial,
      while the serial test of the billing screen's suggestion list, which
      lower-cases the query first, does not find it. */
  lemma SerialSearchIsCaseSensitive(p: Product, serial: string)
    requires p.availableImeis == Some([serial]) && Lower(serial) != serial
    ensures ProductMatches(p, serial)
    ensures !Billing.SomeImeiContains(p.availableImeis, Lower(serial))
  {
    assert StartsWith(serial, serial);
    assert Contains(p.availableImeis.value[0], serial);
    ContainsSameLength(serial, Lower(serial));
  }
}
