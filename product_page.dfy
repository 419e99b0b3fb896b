/** The product listing page's filter pipeline: the fetched products are
    narrowed by category, by a search term and by a price range, then ordered by
    the chosen sort key. The three filters together select exactly the products
    that pass every criterion; a sort key only permutes that selection. */
module ProductPage {
  import opened Common
  import opened StableSort

  datatype Listing = Listing(
    id: ProductId, name: string, description: string, category: string,
    price: real, rating: real, numReviews: int)

  /** `toLowerCase`, on the ASCII letters. */
  function Lower(s: string): (r: string)
    ensures |r| == |s|
    ensures forall i :: 0 <= i < |s| ==> r[i] == LowerChar(s[i])
  {
    seq(|s|, i requires 0 <= i < |s| => LowerChar(s[i]))
  }

  function LowerChar(c: char): (d: char)
    ensures 'A' <= c <= 'Z' ==> d as int == c as int + 32
    ensures !('A' <= c <= 'Z') ==> d == c
  {
    if 'A' <= c <= 'Z' then (c as int + 32) as char else c
  }

  /** `t` occurs in `s` starting at position `i`. */
  predicate OccursAt(s: string, t: string, i: int)
  {
    0 <= i <= |s| - |t| && s[i..i + |t|] == t
  }

  /** `s.includes(t)`. */
  predicate Contains(s: string, t: string)
  {
    exists i :: 0 <= i <= |s| - |t| && OccursAt(s, t, i)
  }

  /** The category filter applies to any category other than the empty one and `'all'`. */
  predicate CategoryActive(category: string)
  {
    category != "" && category != "all"
  }

  predicate CategoryOk(p: Listing, category: string)
  {
    !CategoryActive(category) || Lower(p.category) == Lower(category)
  }

  predicate SearchOk(p: Listing, search: string)
  {
    search == "" || Contains(Lower(p.name), Lower(search)) || Contains(Lower(p.description), Lower(search))
  }

  predicate PriceOk(p: Listing, lo: real, hi: real)
  {
    lo <= p.price <= hi
  }

  /** The criteria of the three filters together. */
  predicate Passes(p: Listing, category: string, search: string, lo: real, hi: real)
  {
    CategoryOk(p, category) && SearchOk(p, search) && PriceOk(p, lo, hi)
  }

  /** The filters as the predicates the pipeline hands to `filter`; each is
      spelled once so that every use denotes the same function. */
  function ByCategory(category: string): Listing -> bool
  {
    (p: Listing) => Lower(p.category) == Lower(category)
  }

  function BySearch(search: string): Listing -> bool
  {
    (p: Listing) => Contains(Lower(p.name), Lower(search)) || Contains(Lower(p.description), Lower(search))
  }

  function ByPrice(lo: real, hi: real): Listing -> bool
  {
    (p: Listing) => PriceOk(p, lo, hi)
  }

  function ByAll(category: string, search: string, lo: real, hi: real): Listing -> bool
  {
    (p: Listing) => Passes(p, category, search, lo, hi)
  }

  /** The reference selection: the products passing every criterion, in their
      original order. */
  function Selected(products: seq<Listing>, category: string, search: string, lo: real, hi: real): (r: seq<Listing>)
    ensures forall i :: 0 <= i < |r| ==> Passes(r[i], category, search, lo, hi)
    ensures forall i :: 0 <= i < |products| && Passes(products[i], category, search, lo, hi) ==> products[i] in r
  {
    Filter(products, ByAll(category, search, lo, hi))
  }

  /** The sort keys, as the numeric comparators `(a, b) => key(a) - key(b)`
      of the page; `'newest'` compares ids by their position in the locale's
      collation order, which is given as `collation`. */
  function SortKey(sort: string, collation: ProductId -> real): (r: Option<Listing -> real>)
    ensures r.Some? <==> sort in ["price-low", "price-high", "newest", "rating", "trending"]
  {
    if sort == "price-low" then Some((p: Listing) => p.price)
    else if sort == "price-high" then Some((p: Listing) => -p.price)
    else if sort == "newest" then Some((p: Listing) => -collation(p.id))
    else if sort == "rating" then Some((p: Listing) => -p.rating)
    else if sort == "trending" then Some((p: Listing) => -(p.rating * p.numReviews as real))
    else None
  }

  /** The order each sort key promises: ascending price for `'price-low'`,
      descending price, collation rank, rating, or rating times review count for
      `'price-high'`, `'newest'`, `'rating'` and `'trending'`; any other key
      promises no order. */
  predicate OrderedFor(s: seq<Listing>, sort: string, collation: ProductId -> real)
  {
    (sort == "price-low" ==> forall i, j :: 0 <= i < j < |s| ==> s[i].price <= s[j].price) &&
    (sort == "price-high" ==> forall i, j :: 0 <= i < j < |s| ==> s[i].price >= s[j].price) &&
    (sort == "newest" ==> forall i, j :: 0 <= i < j < |s| ==> collation(s[i].id) >= collation(s[j].id)) &&
    (sort == "rating" ==> forall i, j :: 0 <= i < j < |s| ==> s[i].rating >= s[j].rating) &&
    (sort == "trending" ==> forall i, j :: 0 <= i < j < |s| ==>
       s[i].rating * s[i].numReviews as real >= s[j].rating * s[j].numReviews as real)
  }

  /** Sorting by a key puts the listings in the order the sort promises, and a
      sort without a key promises none. */
  lemma SortKeyOrders(s: seq<Listing>, sort: string, collation: ProductId -> real)
    requires SortKey(sort, collation).None? || SortedByKey(s, SortKey(sort, collation).value)
    ensures OrderedFor(s, sort, collation)
  {
  }

  /** `filterProducts`. An empty product list produces nothing. Otherwise the
      result holds exactly the selected products (as a multiset), ordered by the
      sort key; `'featured'` and unknown keys keep the selection's order. */
  method FilterProducts(products: seq<Listing>, category: string, search: string, sort: string,
                        lo: real, hi: real, collation: ProductId -> real)
    returns (result: Option<seq<Listing>>)
    ensures products == [] ==> result == None
    ensures products != [] ==>
      result.Some? && multiset(result.value) == multiset(Selected(products, category, search, lo, hi))
    ensures result.Some? ==> forall i :: 0 <= i < |result.value| ==> Passes(result.value[i], category, search, lo, hi)
    ensures result.Some? ==> OrderedFor(result.value, sort, collation)
    ensures result.Some? && SortKey(sort, collation).None? ==> result.value == Selected(products, category, search, lo, hi)
  {
    if |products| == 0 {
      return None;
    }
    ghost var byCategory: Listing -> bool := (p: Listing) => CategoryOk(p, category);
    ghost var bySearch: Listing -> bool := (p: Listing) => CategoryOk(p, category) && SearchOk(p, search);
    var r := products;
    if CategoryActive(category) {
      r := Filter(r, ByCategory(category));
      assert r == Filter(products, byCategory) by {
        FilterSame(products, ByCategory(category), byCategory);
      }
    } else {
      assert r == Filter(products, byCategory) by {
        FilterKeepsAll(products, byCategory);
      }
    }
    if search != "" {
      r := Filter(r, BySearch(search));
      assert r == Filter(products, bySearch) by {
        FilterFilter(products, byCategory, BySearch(search), bySearch);
      }
    } else {
      assert r == Filter(products, bySearch) by {
        FilterSame(products, byCategory, bySearch);
      }
    }
    r := Filter(r, ByPrice(lo, hi));
    assert r == Selected(products, category, search, lo, hi) by {
      FilterFilter(products, bySearch, ByPrice(lo, hi), ByAll(category, search, lo, hi));
    }

    var key := SortKey(sort, collation);
    if key.Some? {
      r := SortByKey(r, key.value);
      SortKeyOrders(r, sort, collation);
    }
    result := Some(r);
    PermutedSelectionPasses(r, products, category, search, lo, hi);
  }

  /** Any reordering of the selection passes every criterion. */
  lemma PermutedSelectionPasses(r: seq<Listing>, products: seq<Listing>, category: string, search: string, lo: real, hi: real)
    requires multiset(r) == multiset(Selected(products, category, search, lo, hi))
    ensures forall i :: 0 <= i < |r| ==> Passes(r[i], category, search, lo, hi)
  {
    var sel := Selected(products, category, search, lo, hi);
    forall i | 0 <= i < |r| ensures Passes(r[i], category, search, lo, hi) {
      assert r[i] in multiset(sel);
      var k :| 0 <= k < |sel| && sel[k] == r[i];
    }
  }

  /** With the category `'all'`, no search term and a range holding every price,
      nothing is filtered out. */
  lemma SelectedEverything(products: seq<Listing>, lo: real, hi: real)
    requires forall i :: 0 <= i < |products| ==> lo <= products[i].price <= hi
    ensures Selected(products, "all", "", lo, hi) == products
  {
    FilterKeepsAll(products, ByAll("all", "", lo, hi));
  }

  /** Lower-casing makes the category filter case-blind: two category names that
      differ only in the case of their letters select the same products. */
  lemma CategoryIgnoresCase(p: Listing, a: string, b: string)
    requires CategoryActive(a) && CategoryActive(b) && Lower(a) == Lower(b)
    ensures CategoryOk(p, a) <==> CategoryOk(p, b)
  {
  }
}
