/** The customer directory's search: a customer is listed when its name
    contains the query ignoring letter case, or its mobile number contains
    the query exactly as typed. The billing screen's customer dropdown filters
    with the same predicate. */
module Customers {
  import opened Types
  import opened Collections
  import opened Text

  /** The search test; an empty query and the exact mobile number always match. */
  predicate CustomerMatches(c: Customer, query: string)
    ensures query == "" ==> CustomerMatches(c, query)
    ensures c.mobile == query ==> CustomerMatches(c, query)
  {
    ContainsEmpty(Lower(c.name));
    assert StartsWith(c.mobile, c.mobile);
    Contains(Lower(c.name), Lower(query)) || Contains(c.mobile, query)
  }

  /** `customers.filter(...)`: the matching customers in directory order. */
  function FilterCustomers(cs: seq<Customer>, query: string): (r: seq<Customer>)
    ensures IsSubsequence(r, cs)
    ensures forall c :: c in r <==> c in cs && CustomerMatches(c, query)
  {
    Filter(cs, (c: Customer) => CustomerMatches(c, query))
  }

  /** An empty search shows the whole directory. */
  lemma EmptyQueryKeepsAll(cs: seq<Customer>)
    ensures FilterCustomers(cs, "") == cs
  {
    forall i | 0 <= i < |cs| ensures CustomerMatches(cs[i], "") {
      ContainsEmpty(Lower(cs[i].name));
    }
    FilterKeepsAll(cs, (c: Customer) => CustomerMatches(c, ""));
  }

  /** The name test ignores case: typing the query in lower case finds every
      customer the query finds by name. */
  lemma NameMatchIgnoresCase(c: Customer, query: string)
    ensures Contains(Lower(c.name), Lower(query)) <==> Contains(Lower(c.name), Lower(Lower(query)))
    ensures Contains(Lower(c.name), Lower(query)) ==> CustomerMatches(c, Lower(query))
  {
    LowerIdempotent(query);
  }

  /** The mobile test is case-sensitive: a customer stored with mobile
      "ext9" and a name that does not match is found by "ext9" but not by "EXT9". */
  lemma MobileMatchIsCaseSensitive()
    ensures var c := Customer("c9", "Asha", "ext9", "", "", None);
      CustomerMatches(c, "ext9") && !CustomerMatches(c, "EXT9")
  {
    var c := Customer("c9", "Asha", "ext9", "", "", None);
    assert StartsWith(c.mobile, "ext9");
    assert Lower("EXT9") == "ext9";
    assert Lower("Asha") == "asha";
    ContainsSameLength("asha", "ext9");
    ContainsSameLength("ext9", "EXT9");
  }
}
