/** The server-side wishlist endpoints. Each user has at most one wishlist, a
    list of product ids; the store maps a user to that list. */
module WishlistController {
  import opened Common
  import opened ProductController

  datatype WishlistStatus = Ok | ProductNotFound | WishlistNotFound

  /** No product id occurs twice. */
  predicate NoDuplicates(ids: seq<ProductId>)
  {
    forall i, j :: 0 <= i < j < |ids| ==> ids[i] != ids[j]
  }

  /** The list after `addToWishlist` on an existing wishlist: the id is pushed
      unless `includes` finds it already. */
  function Added(ids: seq<ProductId>, id: ProductId): (r: seq<ProductId>)
    ensures id in r
    ensures forall x :: x in r <==> x in ids || x == id
    ensures ids <= r && |r| <= |ids| + 1
    ensures id in ids ==> r == ids
  {
    if id in ids then ids else ids + [id]
  }

  /** The list after `removeFromWishlist`. */
  function Without(ids: seq<ProductId>, id: ProductId): (r: seq<ProductId>)
    ensures id !in r
    ensures forall x :: x in r <==> x in ids && x != id
  {
    var r := Filter(ids, (x: ProductId) => x != id);
    assert forall x :: x in r ==> x in multiset(r);
    r
  }

  /** Adding twice is adding once. */
  lemma AddedIdempotent(ids: seq<ProductId>, id: ProductId)
    ensures Added(Added(ids, id), id) == Added(ids, id)
  {
  }

  /** Adding keeps a duplicate-free list duplicate-free, and is the identity
      exactly when the id is already listed. */
  lemma AddedKeepsNoDuplicates(ids: seq<ProductId>, id: ProductId)
    requires NoDuplicates(ids)
    ensures NoDuplicates(Added(ids, id))
    ensures Added(ids, id) == ids <==> id in ids
  {
    if id !in ids {
      NoDuplicatesSnoc(ids, id);
      assert |Added(ids, id)| != |ids|;
    }
  }

  /** Removing keeps the other ids in their order: removing from a list
      followed by more ids is removing from each part. An id that is not listed
      is removed without change. */
  lemma WithoutKeepsOrder(a: seq<ProductId>, b: seq<ProductId>, id: ProductId)
    ensures Without(a + b, id) == Without(a, id) + Without(b, id)
    ensures id !in a ==> Without(a, id) == a
  {
    FilterAppend(a, b, (x: ProductId) => x != id);
    if id !in a {
      FilterKeepsAll(a, (x: ProductId) => x != id);
    }
  }

  /** Removing keeps a duplicate-free list duplicate-free. */
  lemma {:induction false} WithoutKeepsNoDuplicates(ids: seq<ProductId>, id: ProductId)
    requires NoDuplicates(ids)
    ensures NoDuplicates(Without(ids, id))
  {
    if ids != [] {
      var front, last := ids[..|ids| - 1], ids[|ids| - 1];
      assert ids == front + [last];
      WithoutKeepsNoDuplicates(front, id);
      WithoutKeepsOrder(front, [last], id);
      var rf := Without(front, id);
      assert last !in front;
      assert last !in rf;
      if last != id {
        assert Without([last], id) == [last];
        NoDuplicatesSnoc(rf, last);
      } else {
        assert Without([last], id) == [];
      }
    }
  }

  /** Appending an id not yet listed keeps a list duplicate-free. */
  lemma NoDuplicatesSnoc(s: seq<ProductId>, x: ProductId)
    requires NoDuplicates(s) && x !in s
    ensures NoDuplicates(s + [x])
  {
    var r := s + [x];
    forall i, j | 0 <= i < j < |r| ensures r[i] != r[j] {
      assert r[i] == s[i];
      if j < |s| {
        assert r[j] == s[j];
      }
    }
  }

  class WishlistStore {
    var wishlists: map<UserId, seq<ProductId>>

    /** No wishlist lists a product twice. */
    predicate Valid()
      reads this
    {
      forall user :: user in wishlists ==> NoDuplicates(wishlists[user])
    }

    constructor ()
      ensures wishlists == map[] && Valid()
    {
      wishlists := map[];
    }

    /** `getWishlist`: a user without a wishlist gets a new, empty one, and the
        answer is the empty list. */
    method GetWishlist(user: UserId) returns (ids: seq<ProductId>)
      requires Valid()
      modifies this
      ensures Valid()
      ensures user in old(wishlists) ==> ids == old(wishlists)[user] && wishlists == old(wishlists)
      ensures user !in old(wishlists) ==> ids == [] && wishlists == old(wishlists)[user := []]
    {
      if user !in wishlists {
        wishlists := wishlists[user := []];
        return [];
      }
      ids := wishlists[user];
    }

    /** `addToWishlist`: the product must exist; a user without a wishlist gets
        one holding just this id, otherwise the id is added unless present. */
    method AddToWishlist(user: UserId, id: ProductId, catalog: Catalog) returns (status: WishlistStatus)
      requires Valid()
      modifies this
      ensures Valid()
      ensures id !in catalog.products ==> status == ProductNotFound && wishlists == old(wishlists)
      ensures id in catalog.products ==>
        status == Ok &&
        wishlists == old(wishlists)[user := if user in old(wishlists) then Added(old(wishlists)[user], id) else [id]]
    {
      if id !in catalog.products {
        return ProductNotFound;
      }
      if user !in wishlists {
        wishlists := wishlists[user := [id]];
      } else {
        var ids := wishlists[user];
        AddedKeepsNoDuplicates(ids, id);
        if id !in ids {
          ids := ids + [id];
        }
        wishlists := wishlists[user := ids];
      }
      status := Ok;
    }

    /** `removeFromWishlist`: drops every occurrence of the id from an existing
        wishlist. */
    method RemoveFromWishlist(user: UserId, id: ProductId) returns (status: WishlistStatus)
      requires Valid()
      modifies this
      ensures Valid()
      ensures user !in old(wishlists) ==> status == WishlistNotFound && wishlists == old(wishlists)
      ensures user in old(wishlists) ==> status == Ok && wishlists == old(wishlists)[user := Without(old(wishlists)[user], id)]
    {
      if user !in wishlists {
        return WishlistNotFound;
      }
      WithoutKeepsNoDuplicates(wishlists[user], id);
      wishlists := wishlists[user := Without(wishlists[user], id)];
      status := Ok;
    }

    /** `clearWishlist`: empties an existing wishlist. */
    method ClearWishlist(user: UserId) returns (status: WishlistStatus)
      requires Valid()
      modifies this
      ensures Valid()
      ensures user !in old(wishlists) ==> status == WishlistNotFound && wishlists == old(wishlists)
      ensures user in old(wishlists) ==> status == Ok && wishlists == old(wishlists)[user := []]
    {
      if user !in wishlists {
        return WishlistNotFound;
      }
      wishlists := wishlists[user := []];
      status := Ok;
    }
  }
}
