/**
 * Search and sort of the property list, as the listings page (src/App.jsx)
 * and the tenant view (src/components/TenantView.js) compute what they show.
 * Both filter, then sort a copy of the filtered list with a price comparator;
 * the copy is sorted by a stable sort, modelled here as insertion sort.
 */
module Search {
  import opened Results
  import opened Text
  import opened Records
  import opened Seqs

  /** The search term as both views compare it: trimmed, then lower-cased. */
  function Query(term: string): (q: string)
    ensures |q| == |Trim(term)| <= |term|
    ensures forall k :: 0 <= k < |q| ==> q[k] == LowerChar(Trim(term)[k])
    ensures forall k :: 0 <= k < |q| ==> !('A' <= q[k] <= 'Z')
  {
    var t := Trim(term);
    forall k | 0 <= k < |t| ensures !('A' <= LowerChar(t[k]) <= 'Z') {
      LowerCharNotUpper(t[k]);
    }
    ToLower(t)
  }

  /** `field?.toLowerCase().includes(q)`: an absent field never matches. */
  predicate FieldMatches(field: Option<string>, q: string) {
    field.Some? && Contains(ToLower(field.value), q)
  }

  /** The listings page looks for the term in the title, the type or the location. */
  predicate ListingMatches(p: Property, term: string) {
    var q := Query(term);
    FieldMatches(p.title, q) || FieldMatches(p.propertyType, q) || FieldMatches(p.location, q)
  }

  /** The tenant view looks for the term in the title or the location only. */
  predicate TenantMatches(p: Property, term: string) {
    var q := Query(term);
    FieldMatches(p.title, q) || FieldMatches(p.location, q)
  }

  /** The listings page's search: which properties match the term (the order is SearchListingsSpec). */
  function SearchListings(ps: seq<Property>, term: string): (r: seq<Property>)
    ensures |r| <= |ps|
    ensures forall p :: p in r <==> p in ps && ListingMatches(p, term)
  {
    Filter(ps, p => ListingMatches(p, term))
  }

  /** The tenant view's search over title and location. */
  function SearchTenant(ps: seq<Property>, term: string): (r: seq<Property>)
    ensures |r| <= |ps|
    ensures forall p :: p in r <==> p in ps && TenantMatches(p, term)
  {
    Filter(ps, p => TenantMatches(p, term))
  }

  /** The price a comparator subtracts; JavaScript turns a null price into 0 in `a.price - b.price`. */
  function PriceKey(p: Property): (k: int)
    ensures p.price.None? ==> k == 0
    ensures p.price.Some? ==> k == p.price.value
  {
    p.price.GetOr(0)
  }

  /** The comparator of both views: negative puts `a` first, 0 keeps the two in input order. */
  function Compare(option: string, a: Property, b: Property): (c: int)
    ensures c == 0 <==> (option != "low" && option != "high") || PriceKey(a) == PriceKey(b)
    ensures option == "low" ==> (c < 0 <==> PriceKey(a) < PriceKey(b))
    ensures option == "high" ==> (c < 0 <==> PriceKey(a) > PriceKey(b))
  {
    if option == "low" then PriceKey(a) - PriceKey(b)
    else if option == "high" then PriceKey(b) - PriceKey(a)
    else 0
  }

  /** Every earlier element compares at most 0 against every later one. */
  ghost predicate Ordered(option: string, s: seq<Property>) {
    forall i, j :: 0 <= i < j < |s| ==> Compare(option, s[i], s[j]) <= 0
  }

  ghost predicate AscendingPrice(s: seq<Property>) {
    forall i, j :: 0 <= i < j < |s| ==> PriceKey(s[i]) <= PriceKey(s[j])
  }

  ghost predicate DescendingPrice(s: seq<Property>) {
    forall i, j :: 0 <= i < j < |s| ==> PriceKey(s[i]) >= PriceKey(s[j])
  }

  /** The comparator is antisymmetric and transitive: a total preorder. */
  lemma CompareIsPreorder(option: string, a: Property, b: Property, c: Property)
    ensures Compare(option, b, a) == -Compare(option, a, b)
    ensures Compare(option, a, b) <= 0 && Compare(option, b, c) <= 0 ==> Compare(option, a, c) <= 0
  {
  }

  /**
   * Puts `x`, which came before every element of `t` in the input, in front of
   * the first element it does not compare above, so equal elements keep their
   * input order (InsertStable).
   */
  function Insert(option: string, x: Property, t: seq<Property>): (r: seq<Property>)
    ensures multiset(r) == multiset(t) + multiset{x}
  {
    if t == [] then [x]
    else
      assert t == [t[0]] + t[1..];
      if Compare(option, x, t[0]) > 0 then [t[0]] + Insert(option, x, t[1..]) else [x] + t
  }

  /** Inserting into an ordered list keeps it ordered. */
  lemma {:induction false} InsertOrdered(option: string, x: Property, t: seq<Property>)
    requires Ordered(option, t)
    ensures Ordered(option, Insert(option, x, t))
  {
    if t == [] {
    } else if Compare(option, x, t[0]) > 0 {
      TailOrdered(option, t);
      InsertOrdered(option, x, t[1..]);
      forall k | 0 <= k < |t[1..]| ensures Compare(option, t[0], t[1..][k]) <= 0 {
        assert t[1..][k] == t[k + 1];
      }
      CompareIsPreorder(option, x, t[0], t[0]);
      InsertKeepsBound(option, t[0], x, t[1..]);
      ConsOrdered(option, t[0], Insert(option, x, t[1..]));
    } else {
      forall k | 0 <= k < |t| ensures Compare(option, x, t[k]) <= 0 {
        if k > 0 {
          CompareIsPreorder(option, x, t[0], t[k]);
        }
      }
      ConsOrdered(option, x, t);
    }
  }

  lemma TailOrdered(option: string, t: seq<Property>)
    requires t != [] && Ordered(option, t)
    ensures Ordered(option, t[1..])
  {
    forall i, j | 0 <= i < j < |t[1..]| ensures Compare(option, t[1..][i], t[1..][j]) <= 0 {
      assert t[1..][i] == t[i + 1] && t[1..][j] == t[j + 1];
    }
  }

  /** An element that compares at most 0 against every element of an ordered list may lead it. */
  lemma ConsOrdered(option: string, a: Property, s: seq<Property>)
    requires Ordered(option, s)
    requires forall k :: 0 <= k < |s| ==> Compare(option, a, s[k]) <= 0
    ensures Ordered(option, [a] + s)
  {
    var r := [a] + s;
    forall i, j | 0 <= i < j < |r| ensures Compare(option, r[i], r[j]) <= 0 {
      if i == 0 {
        assert r[j] == s[j - 1];
      } else {
        assert r[i] == s[i - 1] && r[j] == s[j - 1];
      }
    }
  }

  /** A bound below every element of `s` and below `x` stays below every element once `x` is inserted. */
  lemma InsertKeepsBound(option: string, a: Property, x: Property, s: seq<Property>)
    requires forall k :: 0 <= k < |s| ==> Compare(option, a, s[k]) <= 0
    requires Compare(option, a, x) <= 0
    ensures forall k :: 0 <= k < |Insert(option, x, s)| ==> Compare(option, a, Insert(option, x, s)[k]) <= 0
  {
    var r := Insert(option, x, s);
    forall k | 0 <= k < |r| ensures Compare(option, a, r[k]) <= 0 {
      assert r[k] in multiset(r);
      if r[k] != x {
        assert r[k] in multiset(s);
        var j :| 0 <= j < |s| && s[j] == r[k];
      }
    }
  }

  /** `[...s].sort(comparator)`: a stable sort of a copy of `s` (SortByStable). */
  function SortBy(option: string, s: seq<Property>): (r: seq<Property>)
    ensures multiset(r) == multiset(s)
  {
    if s == [] then []
    else
      assert s == [s[0]] + s[1..];
      Insert(option, s[0], SortBy(option, s[1..]))
  }

  /** The sorted copy is ordered by the comparator. */
  lemma {:induction false} SortByOrdered(option: string, s: seq<Property>)
    ensures Ordered(option, SortBy(option, s))
  {
    if s != [] {
      SortByOrdered(option, s[1..]);
      InsertOrdered(option, s[0], SortBy(option, s[1..]));
    }
  }

  /**
   * With any option other than "low" and "high" the comparator always returns
   * 0, and the stable sort returns its input in its original order.
   */
  lemma {:induction false} SortByOtherKeepsOrder(option: string, s: seq<Property>)
    requires option != "low" && option != "high"
    ensures SortBy(option, s) == s
  {
    if s != [] {
      SortByOtherKeepsOrder(option, s[1..]);
      assert s == [s[0]] + s[1..];
    }
  }

  /** The listings whose comparator key is `k`. */
  function PricedAt(k: int): Property -> bool {
    p => PriceKey(p) == k
  }

  /** `keep` selects listings of one price only. */
  ghost predicate OnePrice(keep: Property -> bool) {
    forall p, q :: keep(p) && keep(q) ==> PriceKey(p) == PriceKey(q)
  }

  /**
   * Inserting `x` puts it in front of every element of `t` with the same
   * price: among the listings of one price, `x` comes first.
   */
  lemma {:induction false} InsertStable(option: string, x: Property, t: seq<Property>, keep: Property -> bool)
    requires OnePrice(keep)
    ensures Filter(Insert(option, x, t), keep) == Filter([x], keep) + Filter(t, keep)
  {
    if t == [] {
      assert [x] + t == [x];
    } else if Compare(option, x, t[0]) > 0 {
      var y, u := t[0], t[1..];
      assert t == [y] + u;
      InsertStable(option, x, u, keep);
      // A listing that compares above `y` has a different price, so at most
      // one of the two is kept.
      assert !(keep(x) && keep(y));
      PassKept(x, y, u, Insert(option, x, u), keep);
    } else {
      FilterAppend([x], t, keep);
    }
  }

  /** Moving `x` past `y` does not change a filter that keeps at most one of them. */
  lemma PassKept(x: Property, y: Property, u: seq<Property>, r: seq<Property>, keep: Property -> bool)
    requires !(keep(x) && keep(y))
    requires Filter(r, keep) == Filter([x], keep) + Filter(u, keep)
    ensures Filter([y] + r, keep) == Filter([x], keep) + Filter([y] + u, keep)
  {
    var fx, fy, fu := Filter([x], keep), Filter([y], keep), Filter(u, keep);
    FilterAppend([y], r, keep);
    FilterAppend([y], u, keep);
    FilterSingleton(x, keep);
    FilterSingleton(y, keep);
    assert fx == [] || fy == [];
    SwapEmpty(fx, fy, fu);
  }

  lemma SwapEmpty(a: seq<Property>, b: seq<Property>, c: seq<Property>)
    requires a == [] || b == []
    ensures b + (a + c) == a + (b + c)
  {
    if a == [] {
      assert a + c == c;
      assert a + (b + c) == b + c;
    } else {
      assert b + (a + c) == a + c;
      assert b + c == c;
    }
  }

  lemma FilterSingleton(x: Property, keep: Property -> bool)
    ensures Filter([x], keep) == if keep(x) then [x] else []
  {
    assert [x][1..] == [];
  }

  /**
   * The sort is stable: for every price, the listings at that price appear in
   * the sorted copy in the order they have in the input.
   */
  lemma {:induction false} SortByStable(option: string, s: seq<Property>, k: int)
    ensures Filter(SortBy(option, s), PricedAt(k)) == Filter(s, PricedAt(k))
  {
    if s != [] {
      var x, u := s[0], s[1..];
      assert s == [x] + u;
      SortByStable(option, u, k);
      InsertStable(option, x, SortBy(option, u), PricedAt(k));
      FilterAppend([x], u, PricedAt(k));
    }
  }

  /** "low" sorts by ascending price and "high" by descending price; both are permutations. */
  lemma SortByPrice(s: seq<Property>)
    ensures AscendingPrice(SortBy("low", s)) && multiset(SortBy("low", s)) == multiset(s)
    ensures DescendingPrice(SortBy("high", s)) && multiset(SortBy("high", s)) == multiset(s)
  {
    SortByOrdered("low", s);
    SortByOrdered("high", s);
  }

  /** What the listings page shows for a search term and a sort option (src/App.jsx). */
  function ListingsPageResult(ps: seq<Property>, term: string, option: string): (r: seq<Property>)
    ensures multiset(r) == multiset(SearchListings(ps, term))
  {
    SortBy(option, SearchListings(ps, term))
  }

  /** What the tenant view shows for a search term and a sort option (src/components/TenantView.js). */
  function TenantViewResult(ps: seq<Property>, term: string, option: string): (r: seq<Property>)
    ensures multiset(r) == multiset(SearchTenant(ps, term))
  {
    SortBy(option, SearchTenant(ps, term))
  }

  /** Independent reading of a field match: the lower-cased field has an occurrence of `q`. */
  ghost predicate Mentions(field: Option<string>, q: string) {
    field.Some? && exists i :: OccursAt(ToLower(field.value), q, i)
  }

  lemma FieldMatchesIff(field: Option<string>, q: string)
    ensures FieldMatches(field, q) <==> Mentions(field, q)
  {
    if field.Some? {
      ContainsIff(ToLower(field.value), q);
    }
  }

  /** The listings search's reading of the term, against the independent `Mentions`. */
  ghost predicate MentionedInListing(p: Property, q: string) {
    Mentions(p.title, q) || Mentions(p.propertyType, q) || Mentions(p.location, q)
  }

  /** The tenant search's reading of the term, against the independent `Mentions`. */
  ghost predicate MentionedInTitleOrLocation(p: Property, q: string) {
    Mentions(p.title, q) || Mentions(p.location, q)
  }

  lemma MatchesIff(p: Property, term: string)
    ensures ListingMatches(p, term) <==> MentionedInListing(p, Query(term))
    ensures TenantMatches(p, term) <==> MentionedInTitleOrLocation(p, Query(term))
  {
    FieldMatchesIff(p.title, Query(term));
    FieldMatchesIff(p.propertyType, Query(term));
    FieldMatchesIff(p.location, Query(term));
  }

  /**
   * The listings search keeps exactly the properties of which the title, the
   * type or the location contains the trimmed, lower-cased term, each as often
   * as in the input and in input order.
   */
  lemma SearchListingsSpec(ps: seq<Property>, term: string)
    ensures forall p :: p in SearchListings(ps, term) <==> p in ps && MentionedInListing(p, Query(term))
    ensures IsSubsequence(SearchListings(ps, term), ps)
  {
    forall p | p in ps ensures ListingMatches(p, term) <==> MentionedInListing(p, Query(term)) {
      MatchesIff(p, term);
    }
    FilterIsSubsequence(ps, p => ListingMatches(p, term));
  }

  /**
   * A term that trims to nothing keeps exactly the properties with a title, a
   * type or a location; one with all three absent is dropped even then.
   */
  lemma SearchListingsBlankTerm(ps: seq<Property>, term: string)
    requires Trim(term) == ""
    ensures forall p :: p in SearchListings(ps, term) <==>
      p in ps && (p.title.Some? || p.propertyType.Some? || p.location.Some?)
  {
    forall p | p in ps ensures ListingMatches(p, term) <==> (p.title.Some? || p.propertyType.Some? || p.location.Some?) {
      if p.title.Some? { ContainsEmpty(ToLower(p.title.value)); }
      if p.propertyType.Some? { ContainsEmpty(ToLower(p.propertyType.value)); }
      if p.location.Some? { ContainsEmpty(ToLower(p.location.value)); }
    }
  }

  lemma LowerCharKeepsWhitespace(c: char)
    ensures IsWhitespace(LowerChar(c)) <==> IsWhitespace(c)
  {
  }

  lemma {:induction false} TrimStartToLower(s: string)
    ensures TrimStart(ToLower(s)) == ToLower(TrimStart(s))
  {
    if s != [] {
      LowerCharKeepsWhitespace(s[0]);
      assert ToLower(s)[1..] == ToLower(s[1..]);
      TrimStartToLower(s[1..]);
    }
  }

  lemma {:induction false} TrimEndToLower(s: string)
    ensures TrimEnd(ToLower(s)) == ToLower(TrimEnd(s))
  {
    if s != [] {
      var n := |s| - 1;
      LowerCharKeepsWhitespace(s[n]);
      assert ToLower(s)[..n] == ToLower(s[..n]);
      TrimEndToLower(s[..n]);
    }
  }

  /** The search ignores the case of the term: lower-casing it first changes nothing. */
  lemma QueryIgnoresCase(term: string)
    ensures Query(ToLower(term)) == Query(term)
  {
    TrimStartToLower(term);
    TrimEndToLower(TrimStart(term));
    ToLowerIdempotent(Trim(term));
  }

  lemma SearchIgnoresCase(ps: seq<Property>, term: string)
    ensures SearchListings(ps, ToLower(term)) == SearchListings(ps, term)
    ensures SearchTenant(ps, ToLower(term)) == SearchTenant(ps, term)
  {
    QueryIgnoresCase(term);
    FilterEquivalent(ps, p => ListingMatches(p, ToLower(term)), p => ListingMatches(p, term));
    FilterEquivalent(ps, p => TenantMatches(p, ToLower(term)), p => TenantMatches(p, term));
  }

  /**
   * The tenant search keeps exactly the properties of which the title or the
   * location (never the type) contains the trimmed, lower-cased term.
   */
  lemma SearchTenantSpec(ps: seq<Property>, term: string)
    ensures forall p :: p in SearchTenant(ps, term) <==> p in ps && MentionedInTitleOrLocation(p, Query(term))
    ensures forall p :: p in ps && p.title.None? && p.location.None? ==> p !in SearchTenant(ps, term)
  {
    forall p | p in ps ensures TenantMatches(p, term) <==> MentionedInTitleOrLocation(p, Query(term)) {
      MatchesIff(p, term);
    }
  }

  /**
   * What the tenant view shows is a permutation of a subsequence of its input
   * whose elements all match; "low" and "high" order it by price and any other
   * option leaves the filtered order alone.
   */
  lemma TenantViewShape(ps: seq<Property>, term: string, option: string)
    ensures var r := TenantViewResult(ps, term, option);
      exists sub :: IsSubsequence(sub, ps) && multiset(r) == multiset(sub)
        && (forall p :: p in sub ==> TenantMatches(p, term))
    ensures option == "low" ==> AscendingPrice(TenantViewResult(ps, term, option))
    ensures option == "high" ==> DescendingPrice(TenantViewResult(ps, term, option))
    ensures option != "low" && option != "high" ==> TenantViewResult(ps, term, option) == SearchTenant(ps, term)
  {
    var sub := SearchTenant(ps, term);
    FilterIsSubsequence(ps, p => TenantMatches(p, term));
    SortByOrdered(option, sub);
    if option != "low" && option != "high" {
      SortByOtherKeepsOrder(option, sub);
    }
  }

  /** The listings page: the same shape, over the title/type/location search. */
  lemma ListingsPageShape(ps: seq<Property>, term: string, option: string)
    ensures multiset(ListingsPageResult(ps, term, option)) == multiset(SearchListings(ps, term))
    ensures option == "low" ==> AscendingPrice(ListingsPageResult(ps, term, option))
    ensures option == "high" ==> DescendingPrice(ListingsPageResult(ps, term, option))
    ensures option != "low" && option != "high" ==> ListingsPageResult(ps, term, option) == SearchListings(ps, term)
  {
    SortByOrdered(option, SearchListings(ps, term));
    if option != "low" && option != "high" {
      SortByOtherKeepsOrder(option, SearchListings(ps, term));
    }
  }

  lemma TrimPaddedFlat()
    ensures Trim(" flat ") == "flat"
  {
    TrimStartPadded();
    TrimEndPadded();
  }

  lemma TrimStartPadded()
    ensures TrimStart(" flat ") == "flat "
  {
    var t := " flat ";
    assert IsWhitespace(t[0]) && t[1..] == "flat ";
    TrimStartNoLeadingSpace("flat ");
  }

  lemma TrimEndPadded()
    ensures TrimEnd("flat ") == "flat"
  {
    var u := "flat ";
    assert IsWhitespace(u[4]) && u[..4] == "flat";
    TrimEndNoTrailingSpace("flat");
  }

  lemma QueryPaddedFlat()
    ensures Query(" flat ") == "flat"
  {
    TrimPaddedFlat();
    LowerFlat();
  }

  lemma LowerFlat()
    ensures ToLower("flat") == "flat"
  {
    var t := "flat";
    assert forall i :: 0 <= i < |t| ==> !('A' <= t[i] <= 'Z');
    ToLowerKeepsLower(t);
  }

  lemma LowerCapitalFlat()
    ensures ToLower("Flat") == "flat"
  {
    var l := ToLower("Flat");
    assert l[0] == LowerChar('F') == 'f';
    assert l == [l[0]] + l[1..] && l[1..] == ToLower("lat");
    LowerLat();
  }

  lemma LowerLat()
    ensures ToLower("lat") == "lat"
  {
    var t := "lat";
    assert forall i :: 0 <= i < |t| ==> !('A' <= t[i] <= 'Z');
    ToLowerKeepsLower(t);
  }

  /** Without a title and a location, only the type can match: on the listings page, never in the tenant view. */
  lemma TypeOnlyMatches(p: Property, term: string)
    requires p.title.None? && p.location.None?
    ensures FieldMatches(p.propertyType, Query(term)) ==> ListingMatches(p, term)
    ensures !TenantMatches(p, term)
  {
  }

  /**
   * The two searches differ on the type: a property known only by its type is
   * found by the listings page and never by the tenant view.
   */
  lemma TypeOnlyListingsPage(p: Property)
    requires p.title.None? && p.location.None? && p.propertyType == Some("Flat")
    ensures ListingMatches(p, " flat ") && !TenantMatches(p, " flat ")
  {
    TypeOnlyMatches(p, " flat ");
    QueryPaddedFlat();
    LowerCapitalFlat();
    assert FieldMatches(Some("Flat"), "flat") by {
      assert "flat" <= "flat";
    }
  }
}
