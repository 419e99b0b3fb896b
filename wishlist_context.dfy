/** The client-side wishlist of a visitor who is not signed in: a list of items
    that every action replaces by a new list. An item is matched against a
    product id through either its own id or the id of the product it wraps; an
    absent id is `undefined`, which equals `undefined` under strict equality. */
module WishlistContext {
  import opened Common

  datatype WishItem = WishItem(id: Option<ProductId>, nestedId: Option<ProductId>, name: string)

  /** `item._id === productId || item.product?._id === productId`. */
  predicate Matches(item: WishItem, productId: Option<ProductId>)
  {
    item.id == productId || item.nestedId == productId
  }

  /** `isInWishlist`: some item matches. */
  predicate IsInWishlist(wishlist: seq<WishItem>, productId: Option<ProductId>)
  {
    exists i :: 0 <= i < |wishlist| && Matches(wishlist[i], productId)
  }

  /** `addToWishlist` for a guest: a product that already matches changes
      nothing; otherwise it is appended at the end. */
  function AddToWishlist(wishlist: seq<WishItem>, product: WishItem): (r: seq<WishItem>)
    ensures IsInWishlist(wishlist, product.id) ==> r == wishlist
    ensures !IsInWishlist(wishlist, product.id) ==> r == wishlist + [product]
    ensures IsInWishlist(r, product.id)
  {
    if IsInWishlist(wishlist, product.id) then wishlist
    else
      var r := wishlist + [product];
      assert Matches(r[|wishlist|], product.id);
      r
  }

  /** `removeFromWishlist` for a guest: keeps exactly the items that match on
      neither id field. */
  function RemoveFromWishlist(wishlist: seq<WishItem>, productId: Option<ProductId>): (r: seq<WishItem>)
    ensures !IsInWishlist(r, productId)
    ensures multiset(r) <= multiset(wishlist)
  {
    Filter(wishlist, (item: WishItem) => item.id != productId && item.nestedId != productId)
  }

  /** Adding the same product twice is adding it once. */
  lemma AddIdempotent(wishlist: seq<WishItem>, product: WishItem)
    ensures AddToWishlist(AddToWishlist(wishlist, product), product) == AddToWishlist(wishlist, product)
  {
  }

  /** Removing works part by part, and an item that does not match survives, so
      the items that remain keep their order. */
  lemma RemoveKeepsOthers(a: seq<WishItem>, b: seq<WishItem>, productId: Option<ProductId>)
    ensures RemoveFromWishlist(a + b, productId) == RemoveFromWishlist(a, productId) + RemoveFromWishlist(b, productId)
    ensures forall item: WishItem :: !Matches(item, productId) ==> RemoveFromWishlist([item], productId) == [item]
  {
    FilterAppend(a, b, (item: WishItem) => item.id != productId && item.nestedId != productId);
    forall item: WishItem | !Matches(item, productId) ensures RemoveFromWishlist([item], productId) == [item] {
      assert [item][..0] == [];
    }
  }

  /** After a removal, another id is still in the wishlist exactly when some
      item matched it without matching the removed id. */
  lemma RemoveThenLookup(wishlist: seq<WishItem>, removed: Option<ProductId>, other: Option<ProductId>)
    ensures IsInWishlist(RemoveFromWishlist(wishlist, removed), other) <==>
      exists i :: 0 <= i < |wishlist| && Matches(wishlist[i], other) && !Matches(wishlist[i], removed)
  {
    var r := RemoveFromWishlist(wishlist, removed);
    if IsInWishlist(r, other) {
      var j :| 0 <= j < |r| && Matches(r[j], other);
      assert !Matches(r[j], removed);
      assert r[j] in multiset(r);
      assert r[j] in wishlist;
      var i :| 0 <= i < |wishlist| && wishlist[i] == r[j];
      assert Matches(wishlist[i], other) && !Matches(wishlist[i], removed);
    }
    if exists i :: 0 <= i < |wishlist| && Matches(wishlist[i], other) && !Matches(wishlist[i], removed) {
      var i :| 0 <= i < |wishlist| && Matches(wishlist[i], other) && !Matches(wishlist[i], removed);
      assert wishlist[i] in r;
      var j :| 0 <= j < |r| && r[j] == wishlist[i];
      assert Matches(r[j], other);
    }
  }
}
