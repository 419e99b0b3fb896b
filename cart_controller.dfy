/** The server-side cart endpoints. Each user has at most one cart, a list of
    (product id, quantity) items; the store maps a user to the item list of their
    cart. Product existence and stock are read from the product catalogue. */
module CartController {
  import opened Common
  import opened ProductController

  datatype CartItem = CartItem(product: ProductId, quantity: int)

  datatype CartStatus = Ok | ProductNotFound | NotAvailable | CartNotFound | ItemNotFound

  /** `items.findIndex(item => item.product === id)`: the first position holding
      the product, or -1 when there is none. */
  function FindIndex(items: seq<CartItem>, id: ProductId): (r: int)
    ensures -1 <= r < |items|
    ensures r == -1 <==> forall k :: 0 <= k < |items| ==> items[k].product != id
    ensures r >= 0 ==> items[r].product == id && forall k :: 0 <= k < r ==> items[k].product != id
  {
    if items == [] then -1
    else
      var k := FindIndex(items[..|items| - 1], id);
      if k != -1 then k
      else if items[|items| - 1].product == id then |items| - 1
      else -1
  }

  /** The quantity the cart holds for a product: that of its first item, if any. */
  function QuantityOf(items: seq<CartItem>, id: ProductId): Option<int>
  {
    var k := FindIndex(items, id);
    if k == -1 then None else Some(items[k].quantity)
  }

  /** No product occupies two items of the cart. */
  predicate UniqueProducts(items: seq<CartItem>)
  {
    forall i, j :: 0 <= i < j < |items| ==> items[i].product != items[j].product
  }

  /** The item list after `addToCart` on an existing cart: the first item of the
      product gets the requested quantity, or a new item is appended. */
  function Upserted(items: seq<CartItem>, id: ProductId, quantity: int): (r: seq<CartItem>)
    ensures FindIndex(items, id) != -1 ==>
      |r| == |items| && r[FindIndex(items, id)] == CartItem(id, quantity) &&
      forall k :: 0 <= k < |items| && k != FindIndex(items, id) ==> r[k] == items[k]
    ensures FindIndex(items, id) == -1 ==> r == items + [CartItem(id, quantity)]
  {
    var k := FindIndex(items, id);
    if k > -1 then items[k := items[k].(quantity := quantity)] else items + [CartItem(id, quantity)]
  }

  /** The item list after `removeFromCart`. */
  function Removed(items: seq<CartItem>, id: ProductId): (r: seq<CartItem>)
    ensures forall k :: 0 <= k < |r| ==> r[k].product != id
    ensures forall k :: 0 <= k < |items| && items[k].product != id ==> items[k] in r
    ensures multiset(r) <= multiset(items)
  {
    Filter(items, (item: CartItem) => item.product != id)
  }

  /** Two lists with the same products position by position have the same first
      positions. */
  lemma {:induction false} FindIndexSameProducts(a: seq<CartItem>, b: seq<CartItem>, id: ProductId)
    requires |a| == |b| && forall k :: 0 <= k < |a| ==> a[k].product == b[k].product
    ensures FindIndex(a, id) == FindIndex(b, id)
  {
    if a != [] {
      FindIndexSameProducts(a[..|a| - 1], b[..|b| - 1], id);
    }
  }

  lemma FindIndexAppend(items: seq<CartItem>, x: CartItem, id: ProductId)
    ensures FindIndex(items + [x], id) ==
      if FindIndex(items, id) != -1 then FindIndex(items, id)
      else if x.product == id then |items| else -1
  {
    assert (items + [x])[..|items|] == items;
  }

  /** Adding replaces the quantity of a product already in the cart (it is not
      added to) and otherwise appends one item: the list keeps its length exactly
      when the product was present, the product then holds the requested quantity,
      and every other product keeps its quantity. */
  lemma UpsertedLookup(items: seq<CartItem>, id: ProductId, quantity: int, other: ProductId)
    ensures var r := Upserted(items, id, quantity);
      (FindIndex(items, id) != -1 ==> |r| == |items|) &&
      (FindIndex(items, id) == -1 ==> r == items + [CartItem(id, quantity)]) &&
      QuantityOf(r, id) == Some(quantity) &&
      (other != id ==> QuantityOf(r, other) == QuantityOf(items, other))
  {
    var k := FindIndex(items, id);
    var r := Upserted(items, id, quantity);
    if k > -1 {
      FindIndexSameProducts(items, r, id);
      FindIndexSameProducts(items, r, other);
    } else {
      FindIndexAppend(items, CartItem(id, quantity), id);
      FindIndexAppend(items, CartItem(id, quantity), other);
    }
  }

  /** Adding never creates a second item for a product. */
  lemma UpsertedKeepsUnique(items: seq<CartItem>, id: ProductId, quantity: int)
    requires UniqueProducts(items)
    ensures UniqueProducts(Upserted(items, id, quantity))
  {
    var k := FindIndex(items, id);
    var r := Upserted(items, id, quantity);
    if k > -1 {
      assert forall i :: 0 <= i < |r| ==> r[i].product == items[i].product;
    } else {
      forall i, j | 0 <= i < j < |r| ensures r[i].product != r[j].product {
        if j == |items| {
          assert r[i] == items[i];
        } else {
          assert r[i] == items[i] && r[j] == items[j];
        }
      }
    }
  }

  /** Appending an item answers a lookup only for a product not found before. */
  lemma QuantityOfAppend(items: seq<CartItem>, x: CartItem, id: ProductId)
    ensures QuantityOf(items + [x], id) ==
      if QuantityOf(items, id).Some? then QuantityOf(items, id)
      else if x.product == id then Some(x.quantity) else None
  {
    FindIndexAppend(items, x, id);
    if FindIndex(items, id) != -1 {
      assert (items + [x])[FindIndex(items, id)] == items[FindIndex(items, id)];
    }
  }

  /** Removing drops every item of the product and keeps the quantity of every
      other product. */
  lemma {:induction false} RemovedLookup(items: seq<CartItem>, id: ProductId, other: ProductId)
    ensures QuantityOf(Removed(items, id), id) == None
    ensures other != id ==> QuantityOf(Removed(items, id), other) == QuantityOf(items, other)
  {
    if items != [] {
      var front, last := items[..|items| - 1], items[|items| - 1];
      RemovedLookup(front, id, other);
      assert items == front + [last];
      var rf := Removed(front, id);
      QuantityOfAppend(front, last, other);
      if last.product != id {
        assert Removed(items, id) == rf + [last];
        QuantityOfAppend(rf, last, id);
        QuantityOfAppend(rf, last, other);
      } else {
        assert Removed(items, id) == rf;
      }
    }
  }

  /** Removing keeps the remaining items in their order, so no product gains a
      second item. */
  lemma {:induction false} RemovedKeepsUnique(items: seq<CartItem>, id: ProductId)
    requires UniqueProducts(items)
    ensures UniqueProducts(Removed(items, id))
  {
    if items != [] {
      var front, last := items[..|items| - 1], items[|items| - 1];
      assert items == front + [last];
      assert UniqueProducts(front);
      RemovedKeepsUnique(front, id);
      var rf := Removed(front, id);
      if last.product != id {
        var r := rf + [last];
        forall i, j | 0 <= i < j < |r| ensures r[i].product != r[j].product {
          if j == |rf| {
            assert rf[i] in multiset(rf);
            assert rf[i] in front;
            var k :| 0 <= k < |front| && front[k] == rf[i];
            assert items[k] == rf[i] && items[|items| - 1] == last;
          } else {
            assert r[i] == rf[i] && r[j] == rf[j];
          }
        }
      }
    }
  }

  class CartStore {
    var carts: map<UserId, seq<CartItem>>

    /** Every cart holds each product at most once. */
    predicate Valid()
      reads this
    {
      forall user :: user in carts ==> UniqueProducts(carts[user])
    }

    constructor ()
      ensures carts == map[] && Valid()
    {
      carts := map[];
    }

    /** `getCart`: a user without a cart gets a new, empty one. */
    method GetCart(user: UserId) returns (items: seq<CartItem>)
      requires Valid()
      modifies this
      ensures Valid()
      ensures user in old(carts) ==> items == old(carts)[user] && carts == old(carts)
      ensures user !in old(carts) ==> items == [] && carts == old(carts)[user := []]
    {
      if user !in carts {
        carts := carts[user := []];
      }
      items := carts[user];
    }

    /** `addToCart`: checks that the product exists and that the quantity does
        not exceed its stock, then creates the cart holding just this item or
        upserts the item into the existing cart. */
    method AddToCart(user: UserId, id: ProductId, quantity: int, catalog: Catalog) returns (status: CartStatus)
      requires Valid()
      modifies this
      ensures Valid()
      ensures id !in catalog.products ==> status == ProductNotFound && carts == old(carts)
      ensures id in catalog.products && quantity > catalog.products[id].details.countInStock ==>
        status == NotAvailable && carts == old(carts)
      ensures id in catalog.products && quantity <= catalog.products[id].details.countInStock ==>
        status == Ok &&
        carts == old(carts)[user := if user in old(carts) then Upserted(old(carts)[user], id, quantity)
                                    else [CartItem(id, quantity)]]
    {
      if id !in catalog.products {
        return ProductNotFound;
      }
      if quantity > catalog.products[id].details.countInStock {
        return NotAvailable;
      }
      if user !in carts {
        carts := carts[user := [CartItem(id, quantity)]];
      } else {
        var items := carts[user];
        UpsertedKeepsUnique(items, id, quantity);
        var k := FindIndex(items, id);
        if k > -1 {
          items := items[k := items[k].(quantity := quantity)];
        } else {
          items := items + [CartItem(id, quantity)];
        }
        carts := carts[user := items];
      }
      status := Ok;
    }

    /** `updateCartItem`: after the product and stock checks, the cart and an item
        of the product must exist; the first such item gets the new quantity. */
    method UpdateCartItem(user: UserId, id: ProductId, quantity: int, catalog: Catalog) returns (status: CartStatus)
      requires Valid()
      modifies this
      ensures Valid()
      ensures id !in catalog.products ==> status == ProductNotFound && carts == old(carts)
      ensures id in catalog.products && quantity > catalog.products[id].details.countInStock ==>
        status == NotAvailable && carts == old(carts)
      ensures id in catalog.products && quantity <= catalog.products[id].details.countInStock ==>
        (user !in old(carts) ==> status == CartNotFound && carts == old(carts)) &&
        (user in old(carts) && FindIndex(old(carts)[user], id) == -1 ==> status == ItemNotFound && carts == old(carts)) &&
        (user in old(carts) && FindIndex(old(carts)[user], id) != -1 ==>
           status == Ok && carts == old(carts)[user := Upserted(old(carts)[user], id, quantity)])
    {
      if id !in catalog.products {
        return ProductNotFound;
      }
      if quantity > catalog.products[id].details.countInStock {
        return NotAvailable;
      }
      if user !in carts {
        return CartNotFound;
      }
      var items := carts[user];
      var k := FindIndex(items, id);
      if k == -1 {
        return ItemNotFound;
      }
      UpsertedKeepsUnique(items, id, quantity);
      items := items[k := items[k].(quantity := quantity)];
      carts := carts[user := items];
      status := Ok;
    }

    /** `removeFromCart`: drops the product's items from an existing cart. */
    method RemoveFromCart(user: UserId, id: ProductId) returns (status: CartStatus)
      requires Valid()
      modifies this
      ensures Valid()
      ensures user !in old(carts) ==> status == CartNotFound && carts == old(carts)
      ensures user in old(carts) ==> status == Ok && carts == old(carts)[user := Removed(old(carts)[user], id)]
    {
      if user !in carts {
        return CartNotFound;
      }
      RemovedKeepsUnique(carts[user], id);
      carts := carts[user := Removed(carts[user], id)];
      status := Ok;
    }

    /** `clearCart`: empties an existing cart. */
    method ClearCart(user: UserId) returns (status: CartStatus)
      requires Valid()
      modifies this
      ensures Valid()
      ensures user !in old(carts) ==> status == CartNotFound && carts == old(carts)
      ensures user in old(carts) ==> status == Ok && carts == old(carts)[user := []]
    {
      if user !in carts {
        return CartNotFound;
      }
      carts := carts[user := []];
      status := Ok;
    }
  }
}
