/** The product endpoints: the price-history bookkeeping of create, update and
    price update, review aggregation, the pagination arithmetic of the listing,
    and the history gate in front of the forecaster. The document store is a map
    from product id to product record; loading, assigning fields and saving
    become reading the entry, updating the record and writing it back. */
module ProductController {
  import opened Common
  import opened PricePredictor

  datatype Review = Review(name: string, rating: real, comment: string, user: UserId)

  /** The catalogue fields that create and update copy from the request verbatim. */
  datatype Details = Details(
    name: string, description: string, image: string, brand: string, category: string,
    countInStock: int, features: seq<string>, specifications: map<string, string>)

  datatype Product = Product(
    owner: UserId, details: Details, price: real, priceHistory: seq<PricePoint>,
    reviews: seq<Review>, numReviews: int, rating: real, predictedPrice: real)

  datatype Status = Done | NotFound | AlreadyReviewed | NotEnoughHistory(currentPrice: real)

  function Ratings(reviews: seq<Review>): (r: seq<real>)
    ensures |r| == |reviews|
    ensures forall i :: 0 <= i < |r| ==> r[i] == reviews[i].rating
  {
    seq(|reviews|, i requires 0 <= i < |reviews| => reviews[i].rating)
  }

  /** The rating summary agrees with the reviews: their count, and their mean once
      there is at least one. */
  predicate ReviewsAggregated(p: Product)
  {
    p.numReviews == |p.reviews| && (|p.reviews| > 0 ==> p.rating == Mean(Ratings(p.reviews)))
  }

  /** The newest history entry records the current price. */
  predicate PriceRecorded(p: Product)
  {
    |p.priceHistory| > 0 && p.priceHistory[|p.priceHistory| - 1].price == p.price
  }

  predicate HasReviewed(reviews: seq<Review>, user: UserId)
  {
    exists i :: 0 <= i < |reviews| && reviews[i].user == user
  }

  /** When every review rating lies in [lo, hi] (say, one to five stars), so does the
      aggregated rating. */
  lemma RatingWithinScale(p: Product, lo: real, hi: real)
    requires ReviewsAggregated(p) && |p.reviews| > 0
    requires forall i :: 0 <= i < |p.reviews| ==> lo <= p.reviews[i].rating <= hi
    ensures lo <= p.rating <= hi
  {
    MeanWithin(Ratings(p.reviews), lo, hi);
  }

  /** Adding a review to an aggregated product: the new mean is the old total plus
      the new rating, over one more review. */
  lemma RatingAfterReview(p: Product, r: Review)
    requires ReviewsAggregated(p)
    ensures var reviews := p.reviews + [r];
      Mean(Ratings(reviews)) == (p.rating * |p.reviews| as real + r.rating) / (|p.reviews| + 1) as real
  {
    var reviews := p.reviews + [r];
    var total := Sum(Ratings(p.reviews));
    var n := |p.reviews| as real;
    assert Ratings(reviews) == Ratings(p.reviews) + [r.rating];
    SumSnoc(Ratings(p.reviews), r.rating);
    assert Sum(Ratings(reviews)) == total + r.rating;
    assert |Ratings(reviews)| as real == n + 1.0 == (|p.reviews| + 1) as real;
    assert Mean(Ratings(reviews)) == (total + r.rating) / (n + 1.0);
    if |p.reviews| > 0 {
      assert p.rating == total / n;
      assert p.rating * n == total;
      assert p.rating * |p.reviews| as real + r.rating == total + r.rating;
    } else {
      assert Ratings(p.reviews) == [];
      assert total == 0.0;
      assert (p.rating * |p.reviews| as real + r.rating) / (|p.reviews| + 1) as real == (total + r.rating) / (n + 1.0);
    }
  }

  /** Storing a forecast touches neither the reviews nor the price history. */
  lemma ForecastKeepsSummary(p: Product, q: Product)
    requires ReviewsAggregated(p) && PriceRecorded(p)
    requires q == p.(predictedPrice := q.predictedPrice)
    ensures ReviewsAggregated(q) && PriceRecorded(q)
  {
    assert q.reviews == p.reviews && q.priceHistory == p.priceHistory;
  }

  class Catalog {
    var products: map<ProductId, Product>

    /** Every stored product keeps its rating summary and its latest price entry. */
    predicate Valid()
      reads this
    {
      forall id :: id in products ==> ReviewsAggregated(products[id]) && PriceRecorded(products[id])
    }

    constructor ()
      ensures products == map[] && Valid()
    {
      products := map[];
    }

    /** `createProduct`: a new product whose history holds one entry, its price at
        creation time, and which has no reviews. The id is the store's fresh id. */
    method CreateProduct(id: ProductId, owner: UserId, details: Details, price: real, now: int)
      requires id !in products && Valid()
      modifies this
      ensures Valid()
      ensures products == old(products)[id := Product(owner, details, price, [PricePoint(price, now)], [], 0, 0.0, 0.0)]
    {
      var product := Product(owner, details, price, [PricePoint(price, now)], [], 0, 0.0, 0.0);
      products := products[id := product];
    }

    /** `updateProduct`: copies the details; appends a history entry and sets the
        price only when the price differs from the stored one. */
    method UpdateProduct(id: ProductId, details: Details, price: real, now: int) returns (status: Status)
      requires Valid()
      modifies this
      ensures Valid()
      ensures id !in old(products) ==> status == NotFound && products == old(products)
      ensures id in old(products) ==> status == Done && id in products
      ensures id in old(products) ==>
        var before := old(products)[id];
        products == old(products)[id := products[id]] &&
        products[id] == before.(
          details := details,
          price := price,
          priceHistory := if price != before.price then before.priceHistory + [PricePoint(price, now)]
                          else before.priceHistory)
    {
      if id !in products {
        return NotFound;
      }
      var product := products[id];
      product := product.(details := details);
      if price != product.price {
        product := product.(price := price);
        product := product.(priceHistory := product.priceHistory + [PricePoint(price, now)]);
      }
      products := products[id := product];
      status := Done;
    }

    /** `updateProductPrice`: always sets the price and appends a history entry,
        even when the price is unchanged. */
    method UpdateProductPrice(id: ProductId, price: real, now: int) returns (status: Status)
      requires Valid()
      modifies this
      ensures Valid()
      ensures id !in old(products) ==> status == NotFound && products == old(products)
      ensures id in old(products) ==> status == Done && products == old(products)[id :=
        old(products)[id].(price := price, priceHistory := old(products)[id].priceHistory + [PricePoint(price, now)])]
    {
      if id !in products {
        return NotFound;
      }
      var product := products[id];
      product := product.(price := price);
      product := product.(priceHistory := product.priceHistory + [PricePoint(price, now)]);
      products := products[id := product];
      status := Done;
    }

    /** `createProductReview`: one review per user; a second one is refused and
        nothing changes. Otherwise the review is appended and the count and mean
        rating are recomputed from all reviews. */
    method CreateProductReview(id: ProductId, user: UserId, userName: string, rating: real, comment: string)
      returns (status: Status)
      requires Valid()
      modifies this
      ensures Valid()
      ensures id !in old(products) ==> status == NotFound && products == old(products)
      ensures id in old(products) && HasReviewed(old(products)[id].reviews, user) ==>
        status == AlreadyReviewed && products == old(products)
      ensures id in old(products) && !HasReviewed(old(products)[id].reviews, user) ==>
        var before := old(products)[id];
        var reviews := before.reviews + [Review(userName, rating, comment, user)];
        status == Done &&
        products == old(products)[id := before.(reviews := reviews, numReviews := |reviews|,
                                                 rating := Mean(Ratings(reviews)))]
    {
      if id !in products {
        return NotFound;
      }
      var product := products[id];
      if HasReviewed(product.reviews, user) {
        return AlreadyReviewed;
      }
      product := product.(reviews := product.reviews + [Review(userName, rating, comment, user)]);
      product := product.(numReviews := |product.reviews|);
      product := product.(rating := Sum(Ratings(product.reviews)) / |product.reviews| as real);
      products := products[id := product];
      status := Done;
    }

    /** `predictProductPrice`: refuses histories shorter than five entries without
        saving anything; otherwise stores and returns the forecast. */
    method PredictProductPrice(id: ProductId, seasonDraw: real, jitterDraw: real)
      returns (status: Status, predicted: Option<int>)
      requires Valid() && IsDraw(seasonDraw) && IsDraw(jitterDraw)
      modifies this
      ensures Valid()
      ensures id !in old(products) ==> status == NotFound && predicted == None && products == old(products)
      ensures id in old(products) && |old(products)[id].priceHistory| < MinHistory ==>
        status == NotEnoughHistory(old(products)[id].price) && predicted == None && products == old(products)
      ensures id in old(products) && |old(products)[id].priceHistory| >= MinHistory ==>
        var before := old(products)[id];
        status == Done &&
        predicted == PredictPrice(Some(before.priceHistory), seasonDraw, jitterDraw) && predicted.Some? &&
        products == old(products)[id := before.(predictedPrice := predicted.value as real)]
    {
      if id !in products {
        return NotFound, None;
      }
      var product := products[id];
      if |product.priceHistory| < MinHistory {
        return NotEnoughHistory(product.price), None;
      }
      predicted := PredictPrice(Some(product.priceHistory), seasonDraw, jitterDraw);
      var updated := product.(predictedPrice := predicted.value as real);
      ForecastKeepsSummary(product, updated);
      products := products[id := updated];
      status := Done;
    }
  }

  /** The listing's paging parameters, after defaulting. */
  datatype Paging = Paging(pageSize: int, page: int, skip: int, pages: int)

  /** `Number(q) || fallback` for a numeric query value, where None stands for a
      missing or non-numeric value (NaN); 0 is falsy as well. */
  function NumberOr(query: Option<int>, fallback: int): (r: int)
    ensures query.None? || query.value == 0 ==> r == fallback
    ensures query.Some? && query.value != 0 ==> r == query.value
  {
    if query.None? || query.value == 0 then fallback else query.value
  }

  /** `Math.ceil`. */
  function Ceil(x: real): (r: int)
    ensures x <= r as real < x + 1.0
  {
    -((-x).Floor)
  }

  /** The paging arithmetic of `getProducts`: page size 10 and page 1 by default,
      `skip = pageSize * (page - 1)` and `pages = ceil(count / pageSize)`. For a
      positive page size, the pages are the fewest that hold `count` products. A
      negative skip (a negative page number, say) is refused by the database, and
      the handler answers with status 400: None. */
  function Paginate(pageSizeQuery: Option<int>, pageNumberQuery: Option<int>, count: nat): (r: Option<Paging>)
    ensures r.None? <==> NumberOr(pageSizeQuery, 10) * (NumberOr(pageNumberQuery, 1) - 1) < 0
    ensures r.Some? ==> r.value.pageSize == NumberOr(pageSizeQuery, 10) && r.value.page == NumberOr(pageNumberQuery, 1)
    ensures r.Some? ==> r.value.pageSize != 0 && 0 <= r.value.skip == r.value.pageSize * (r.value.page - 1)
    ensures r.Some? && r.value.pageSize > 0 ==>
      (r.value.pages - 1) * r.value.pageSize < count <= r.value.pages * r.value.pageSize ||
      (count == 0 && r.value.pages == 0)
  {
    var pageSize := NumberOr(pageSizeQuery, 10);
    var page := NumberOr(pageNumberQuery, 1);
    var skip := pageSize * (page - 1);
    if skip < 0 then None
    else
      var pages := Ceil(count as real / pageSize as real);
      CeilPages(count, pageSize);
      Some(Paging(pageSize, page, skip, pages))
  }

  /** A negative page number under the default page size gives a negative skip,
      so the listing fails whatever the number of products. */
  lemma NegativePageRefused(pageNumber: int, count: nat)
    requires pageNumber < 0
    ensures Paginate(None, Some(pageNumber), count) == None
  {
    assert 10 * (pageNumber - 1) < 0;
  }

  lemma CeilPages(count: nat, pageSize: int)
    requires pageSize != 0
    ensures pageSize > 0 ==> var pages := Ceil(count as real / pageSize as real);
      (pages - 1) * pageSize < count <= pages * pageSize || (count == 0 && pages == 0)
  {
    if pageSize < 0 { return; }
    var c, z := count as real, pageSize as real;
    var x := c / z;
    var pages := Ceil(x);
    var p := pages as real;
    assert x * z == c;
    assert c <= p * z by { ScaleLe(x, p, z); }
    assert p * z < c + z by { BelowNextMultiple(p, x, z, c); }
    assert (pages * pageSize) as real == p * z;
    assert ((pages - 1) * pageSize) as real == p * z - z;
    if count == 0 {
      assert x == 0.0;
    }
  }

  lemma BelowNextMultiple(p: real, x: real, z: real, c: real)
    requires p < x + 1.0 && z > 0.0 && x * z == c
    ensures p * z < c + z
  {
    ScaleLt(p, x + 1.0, z);
    assert (x + 1.0) * z == x * z + z;
  }

  lemma ScaleLe(a: real, b: real, k: real)
    requires a <= b && k > 0.0
    ensures a * k <= b * k
  {
  }

  lemma ScaleLt(a: real, b: real, k: real)
    requires a < b && k > 0.0
    ensures a * k < b * k
  {
  }

  /** `find(query).limit(pageSize).skip(skip)`: the matching products from
      position `skip`, at most `pageSize` of them. */
  function PageOf<T>(matching: seq<T>, pageSize: nat, skip: nat): (r: seq<T>)
    ensures |r| <= pageSize
    ensures forall i :: 0 <= i < |r| ==> skip + i < |matching| && r[i] == matching[skip + i]
  {
    if skip >= |matching| then []
    else if skip + pageSize >= |matching| then matching[skip..]
    else matching[skip..skip + pageSize]
  }

  /** Pages 1, 2, ... of a positive page size, read in order, are the whole list. */
  function PagesFrom<T>(matching: seq<T>, pageSize: nat, page: nat, pages: nat): seq<T>
    requires pageSize > 0 && page >= 1
    decreases pages + 1 - page
  {
    if page > pages then [] else PageOf(matching, pageSize, pageSize * (page - 1)) + PagesFrom(matching, pageSize, page + 1, pages)
  }

  lemma {:induction false} PagesCoverListing<T>(matching: seq<T>, pageSize: nat)
    requires pageSize > 0
    ensures var p := Paginate(Some(pageSize), None, |matching|);
      p.Some? && PagesFrom(matching, pageSize, 1, p.value.pages) == matching
  {
    var p := Paginate(Some(pageSize), None, |matching|).value;
    assert pageSize * (p.pages - 1) == (p.pages - 1) * pageSize && pageSize * p.pages == p.pages * pageSize;
    PagesFromSuffix(matching, pageSize, 1, p.pages);
    assert matching[0..] == matching;
  }

  lemma {:induction false} PagesFromSuffix<T>(matching: seq<T>, pageSize: nat, page: nat, pages: nat)
    requires pageSize > 0 && page >= 1
    requires pageSize * (pages - 1) < |matching| <= pageSize * pages || (|matching| == 0 && pages == 0)
    requires pageSize * (page - 1) <= |matching| || page > pages
    ensures page <= pages ==> PagesFrom(matching, pageSize, page, pages) == matching[pageSize * (page - 1)..]
    ensures page > pages ==> PagesFrom(matching, pageSize, page, pages) == []
    decreases pages + 1 - page
  {
    if page <= pages {
      NextPageStart(pageSize, page);
      var skip: nat := pageSize * (page - 1);
      PagesFromSuffix(matching, pageSize, page + 1, pages);
      if page == pages {
        LastPage(matching, pageSize, skip);
      } else {
        MulLe(pageSize, page, pages - 1);
        FullPage(matching, pageSize, skip);
      }
    }
  }

  /** The last page holds everything from its start on. */
  lemma LastPage<T>(matching: seq<T>, pageSize: nat, skip: nat)
    requires skip <= |matching| <= skip + pageSize
    ensures PageOf(matching, pageSize, skip) == matching[skip..]
  {
  }

  /** A page that is not the last one is followed by the rest of the list. */
  lemma FullPage<T>(matching: seq<T>, pageSize: nat, skip: nat)
    requires skip + pageSize < |matching|
    ensures PageOf(matching, pageSize, skip) + matching[skip + pageSize..] == matching[skip..]
  {
  }

  lemma NextPageStart(pageSize: nat, page: int)
    requires page >= 1
    ensures pageSize * page == pageSize * (page - 1) + pageSize
    ensures pageSize * (page - 1) >= 0
  {
    MulLe(pageSize, 0, page - 1);
  }

  lemma MulLe(k: nat, a: int, b: int)
    requires a <= b
    ensures k * a <= k * b
  {
  }

}
