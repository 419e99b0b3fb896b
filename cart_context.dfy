/** The client-side cart of a visitor who is not signed in: a list of lines, each
    a product and a quantity, that every action replaces by a new list. Totals are
    folds over the list. */
module CartContext {
  import opened Common

  datatype ProductRef = ProductRef(id: ProductId, name: string, price: real)

  datatype Line = Line(product: ProductRef, quantity: int)

  predicate InCart(cart: seq<Line>, id: ProductId)
  {
    exists i :: 0 <= i < |cart| && cart[i].product.id == id
  }

  /** How many lines hold the product. */
  function Occurrences(cart: seq<Line>, id: ProductId): (n: nat)
    ensures n <= |cart|
    ensures n == 0 <==> !InCart(cart, id)
  {
    if cart == [] then 0
    else
      var front := cart[..|cart| - 1];
      assert forall i :: 0 <= i < |front| ==> front[i] == cart[i];
      Occurrences(front, id) + (if cart[|cart| - 1].product.id == id then 1 else 0)
  }

  /** `itemCount`: the sum of the quantities. */
  function ItemCount(cart: seq<Line>): int
  {
    if cart == [] then 0 else ItemCount(cart[..|cart| - 1]) + cart[|cart| - 1].quantity
  }

  /** A cart without negative quantities has a count that is not negative, and at
      least the quantity of any one line. */
  lemma {:induction false} ItemCountBounds(cart: seq<Line>)
    requires forall i :: 0 <= i < |cart| ==> cart[i].quantity >= 0
    ensures ItemCount(cart) >= 0
    ensures forall i :: 0 <= i < |cart| ==> cart[i].quantity <= ItemCount(cart)
  {
    if cart != [] {
      var front := cart[..|cart| - 1];
      assert forall i :: 0 <= i < |front| ==> front[i] == cart[i];
      ItemCountBounds(front);
    }
  }

  /** `cartTotal`: the sum of price times quantity. */
  function CartTotal(cart: seq<Line>): real
  {
    if cart == [] then 0.0 else CartTotal(cart[..|cart| - 1]) + LineTotal(cart[|cart| - 1])
  }

  /** A cart without negative prices or quantities has a total that is not negative. */
  lemma {:induction false} CartTotalNonNegative(cart: seq<Line>)
    requires forall i :: 0 <= i < |cart| ==> cart[i].product.price >= 0.0 && cart[i].quantity >= 0
    ensures CartTotal(cart) >= 0.0
  {
    if cart != [] {
      var front, last := cart[..|cart| - 1], cart[|cart| - 1];
      assert forall i :: 0 <= i < |front| ==> front[i] == cart[i];
      CartTotalNonNegative(front);
      assert LineTotal(last) >= 0.0 by {
        ScaleLeReal(0.0, last.product.price, last.quantity as real);
      }
    }
  }

  lemma ScaleLeReal(a: real, b: real, k: real)
    requires a <= b && k >= 0.0
    ensures a * k <= b * k
  {
  }

  function LineTotal(line: Line): real
  {
    line.product.price * line.quantity as real
  }

  /** Every line of the product gets `delta` more; the others are kept. */
  function Raised(cart: seq<Line>, id: ProductId, delta: int): (r: seq<Line>)
    ensures |r| == |cart|
    ensures forall i :: 0 <= i < |r| ==> r[i].product == cart[i].product
    ensures forall i :: 0 <= i < |r| && cart[i].product.id == id ==> r[i].quantity == cart[i].quantity + delta
    ensures forall i :: 0 <= i < |r| && cart[i].product.id != id ==> r[i] == cart[i]
  {
    if cart == [] then []
    else
      var last := cart[|cart| - 1];
      Raised(cart[..|cart| - 1], id, delta) + [if last.product.id == id then last.(quantity := last.quantity + delta) else last]
  }

  /** Every line of the product gets the quantity; the others are kept. */
  function SetTo(cart: seq<Line>, id: ProductId, quantity: int): (r: seq<Line>)
    ensures |r| == |cart|
    ensures forall i :: 0 <= i < |r| ==> r[i].product == cart[i].product
    ensures forall i :: 0 <= i < |r| && cart[i].product.id == id ==> r[i].quantity == quantity
    ensures forall i :: 0 <= i < |r| && cart[i].product.id != id ==> r[i] == cart[i]
  {
    if cart == [] then []
    else
      var last := cart[|cart| - 1];
      SetTo(cart[..|cart| - 1], id, quantity) + [if last.product.id == id then last.(quantity := quantity) else last]
  }

  /** Raising every line of a product raises the count by the raise once per
      such line. */
  lemma {:induction false} RaisedCount(cart: seq<Line>, id: ProductId, delta: int)
    ensures ItemCount(Raised(cart, id, delta)) == ItemCount(cart) + Scaled(delta, Occurrences(cart, id))
  {
    if cart != [] {
      var front, last := cart[..|cart| - 1], cart[|cart| - 1];
      var n := Occurrences(front, id);
      RaisedCount(front, id, delta);
      RaisedLast(cart, id, delta);
      if last.product.id == id {
        assert Occurrences(cart, id) == n + 1;
        assert Scaled(delta, n + 1) == Scaled(delta, n) + delta;
      } else {
        assert Occurrences(cart, id) == n;
      }
    }
  }

  lemma RaisedLast(cart: seq<Line>, id: ProductId, delta: int)
    requires cart != []
    ensures var last := cart[|cart| - 1];
      ItemCount(Raised(cart, id, delta)) ==
      ItemCount(Raised(cart[..|cart| - 1], id, delta)) + (if last.product.id == id then last.quantity + delta else last.quantity)
  {
    var r := Raised(cart, id, delta);
    assert r[..|r| - 1] == Raised(cart[..|cart| - 1], id, delta);
  }

  /** The prices stored on the product's lines, added up. */
  function MatchingPrice(cart: seq<Line>, id: ProductId): real
  {
    if cart == [] then 0.0
    else MatchingPrice(cart[..|cart| - 1], id) + (if cart[|cart| - 1].product.id == id then cart[|cart| - 1].product.price else 0.0)
  }

  /** Raising every line of a product by `delta` raises the total by `delta`
      times the price each such line stores, once per line. */
  lemma RaisedTotal(cart: seq<Line>, id: ProductId, delta: int)
    ensures CartTotal(Raised(cart, id, delta)) == CartTotal(cart) + delta as real * MatchingPrice(cart, id)
  {
    RaisedTotalByLine(cart, id, delta);
    RaiseIsScaledPrice(cart, id, delta);
  }

  /** What raising adds, line by line: `delta` times the price of each line of
      the product. */
  function Raise(cart: seq<Line>, id: ProductId, delta: int): real
  {
    if cart == [] then 0.0
    else Raise(cart[..|cart| - 1], id, delta) + (if cart[|cart| - 1].product.id == id then delta as real * cart[|cart| - 1].product.price else 0.0)
  }

  lemma {:induction false} RaisedTotalByLine(cart: seq<Line>, id: ProductId, delta: int)
    ensures CartTotal(Raised(cart, id, delta)) == CartTotal(cart) + Raise(cart, id, delta)
  {
    if cart != [] {
      var front, last := cart[..|cart| - 1], cart[|cart| - 1];
      RaisedTotalByLine(front, id, delta);
      RaisedTotalLast(cart, id, delta);
      if last.product.id == id {
        RaisedLine(last, delta);
      }
    }
  }

  lemma {:induction false} RaiseIsScaledPrice(cart: seq<Line>, id: ProductId, delta: int)
    ensures Raise(cart, id, delta) == delta as real * MatchingPrice(cart, id)
  {
    if cart != [] {
      var front := cart[..|cart| - 1];
      RaiseIsScaledPrice(front, id, delta);
      Distribute(delta as real, MatchingPrice(front, id), cart[|cart| - 1].product.price);
    }
  }

  lemma RaisedTotalLast(cart: seq<Line>, id: ProductId, delta: int)
    requires cart != []
    ensures var last := cart[|cart| - 1];
      CartTotal(Raised(cart, id, delta)) == CartTotal(Raised(cart[..|cart| - 1], id, delta)) +
        LineTotal(if last.product.id == id then last.(quantity := last.quantity + delta) else last)
  {
    var r := Raised(cart, id, delta);
    assert r[..|r| - 1] == Raised(cart[..|cart| - 1], id, delta);
  }

  lemma RaisedLine(line: Line, delta: int)
    ensures LineTotal(line.(quantity := line.quantity + delta)) == LineTotal(line) + delta as real * line.product.price
  {
    var p, q, d := line.product.price, line.quantity as real, delta as real;
    assert (line.quantity + delta) as real == q + d;
    assert p * (q + d) == p * q + d * p;
  }

  lemma Distribute(d: real, a: real, b: real)
    ensures d * (a + b) == d * a + d * b
  {
  }

  /** `n` copies of `q` added up, which is `q * n`; stated as a sum so that the
      counting lemmas stay linear. */
  function Scaled(q: int, n: nat): int
  {
    if n == 0 then 0 else Scaled(q, n - 1) + q
  }

  lemma {:induction false} ScaledIsProduct(q: int, n: nat)
    ensures Scaled(q, n) == q * n
  {
    if n > 0 {
      ScaledIsProduct(q, n - 1);
      assert q * n == q * (n - 1) + q;
    }
  }

  /** `removeFromCart` for a guest: drops every line of the product. */
  function RemoveFromCart(cart: seq<Line>, id: ProductId): (r: seq<Line>)
    ensures !InCart(r, id)
    ensures multiset(r) <= multiset(cart)
  {
    Filter(cart, (line: Line) => line.product.id != id)
  }

  /** Removing keeps every other line, in order: it works part by part, and a
      line of another product survives it. */
  lemma RemoveKeepsOthers(a: seq<Line>, b: seq<Line>, id: ProductId)
    ensures RemoveFromCart(a + b, id) == RemoveFromCart(a, id) + RemoveFromCart(b, id)
    ensures forall line: Line :: line.product.id != id ==> RemoveFromCart([line], id) == [line]
  {
    FilterAppend(a, b, (line: Line) => line.product.id != id);
    forall line: Line | line.product.id != id ensures RemoveFromCart([line], id) == [line] {
      assert [line][..0] == [];
    }
  }

  /** The quantity held by the product's lines. */
  function MatchingQuantity(cart: seq<Line>, id: ProductId): int
  {
    if cart == [] then 0
    else MatchingQuantity(cart[..|cart| - 1], id) + (if cart[|cart| - 1].product.id == id then cart[|cart| - 1].quantity else 0)
  }

  /** Setting the quantity of a product's lines replaces what they held by the
      quantity once per line. */
  lemma {:induction false} SetToCount(cart: seq<Line>, id: ProductId, quantity: int)
    ensures ItemCount(SetTo(cart, id, quantity)) == ItemCount(cart) - MatchingQuantity(cart, id) + Scaled(quantity, Occurrences(cart, id))
  {
    if cart != [] {
      var front, last := cart[..|cart| - 1], cart[|cart| - 1];
      var n := Occurrences(front, id);
      SetToCount(front, id, quantity);
      SetToLast(cart, id, quantity);
      if last.product.id == id {
        assert Occurrences(cart, id) == n + 1;
        assert Scaled(quantity, n + 1) == Scaled(quantity, n) + quantity;
      } else {
        assert Occurrences(cart, id) == n;
      }
    }
  }

  /** Removing a product takes away exactly what its lines held. */
  lemma {:induction false} RemoveCount(cart: seq<Line>, id: ProductId)
    ensures ItemCount(RemoveFromCart(cart, id)) == ItemCount(cart) - MatchingQuantity(cart, id)
  {
    if cart != [] {
      RemoveCount(cart[..|cart| - 1], id);
      RemoveLast(cart, id);
    }
  }

  lemma SetToLast(cart: seq<Line>, id: ProductId, quantity: int)
    requires cart != []
    ensures var last := cart[|cart| - 1];
      ItemCount(SetTo(cart, id, quantity)) ==
      ItemCount(SetTo(cart[..|cart| - 1], id, quantity)) + (if last.product.id == id then quantity else last.quantity)
  {
    var r := SetTo(cart, id, quantity);
    assert r[..|r| - 1] == SetTo(cart[..|cart| - 1], id, quantity);
  }

  lemma RemoveLast(cart: seq<Line>, id: ProductId)
    requires cart != []
    ensures var last := cart[|cart| - 1];
      ItemCount(RemoveFromCart(cart, id)) ==
      ItemCount(RemoveFromCart(cart[..|cart| - 1], id)) + (if last.product.id == id then 0 else last.quantity)
  {
    var front, last := cart[..|cart| - 1], cart[|cart| - 1];
    var rr, rrf := RemoveFromCart(cart, id), RemoveFromCart(front, id);
    assert cart == front + [last];
    if last.product.id != id {
      assert rr == rrf + [last];
      assert rr[..|rr| - 1] == rrf;
    }
  }

  /** `addToCart` for a guest, with quantity 1 by default: a product already in
      the cart has the quantity added to each of its lines, the list keeping its
      length and order; a new product is appended as one line at the end. */
  function AddToCart(cart: seq<Line>, product: ProductRef, quantity: int := 1): (r: seq<Line>)
    ensures InCart(cart, product.id) ==> r == Raised(cart, product.id, quantity)
    ensures !InCart(cart, product.id) ==> r == cart + [Line(product, quantity)]
    ensures InCart(r, product.id)
    ensures InCart(cart, product.id) ==> ItemCount(r) == ItemCount(cart) + quantity * Occurrences(cart, product.id)
    ensures InCart(cart, product.id) ==> CartTotal(r) == CartTotal(cart) + Raise(cart, product.id, quantity)
    ensures !InCart(cart, product.id) ==>
      ItemCount(r) == ItemCount(cart) + quantity && CartTotal(r) == CartTotal(cart) + product.price * quantity as real
  {
    if InCart(cart, product.id) then
      RaisedTotals(cart, product.id, quantity);
      Raised(cart, product.id, quantity)
    else
      AppendedTotals(cart, Line(product, quantity));
      cart + [Line(product, quantity)]
  }

  /** Appending a line adds its quantity to the count and its price times its
      quantity to the total. */
  lemma AppendedTotals(cart: seq<Line>, line: Line)
    ensures var r := cart + [line];
      InCart(r, line.product.id) && ItemCount(r) == ItemCount(cart) + line.quantity &&
      CartTotal(r) == CartTotal(cart) + line.product.price * line.quantity as real
  {
    var r := cart + [line];
    assert r[..|cart|] == cart;
    assert r[|cart|].product.id == line.product.id;
  }

  /** Raising a product in the cart keeps it there and changes the count and the
      total by the raise once per line of the product. */
  lemma RaisedTotals(cart: seq<Line>, id: ProductId, delta: int)
    requires InCart(cart, id)
    ensures var r := Raised(cart, id, delta);
      InCart(r, id) &&
      ItemCount(r) == ItemCount(cart) + delta * Occurrences(cart, id) &&
      CartTotal(r) == CartTotal(cart) + Raise(cart, id, delta)
  {
    var k :| 0 <= k < |cart| && cart[k].product.id == id;
    RaisedCount(cart, id, delta);
    RaisedTotalByLine(cart, id, delta);
    ScaledIsProduct(delta, Occurrences(cart, id));
    assert Raised(cart, id, delta)[k].product.id == id;
  }

  /** The quantity an authenticated add sends to the server: the existing line's
      quantity plus the added one, or just the added one for a new product. */
  function ServerAddQuantity(cart: seq<Line>, product: ProductRef, quantity: int := 1): (q: int)
    ensures !InCart(cart, product.id) ==> q == quantity
    ensures InCart(cart, product.id) ==>
      exists i :: (0 <= i < |cart| && cart[i].product.id == product.id && q == cart[i].quantity + quantity &&
                   forall j :: 0 <= j < i ==> cart[j].product.id != product.id)
  {
    FirstQuantity(cart, product.id, quantity)
  }

  /** The quantity of the first line of the product (as `find`), plus `extra`. */
  function FirstQuantity(cart: seq<Line>, id: ProductId, extra: int): (q: int)
    ensures !InCart(cart, id) ==> q == extra
    ensures InCart(cart, id) ==>
      exists i :: (0 <= i < |cart| && cart[i].product.id == id && q == cart[i].quantity + extra &&
                   forall j :: 0 <= j < i ==> cart[j].product.id != id)
  {
    if cart == [] then extra
    else if cart[0].product.id == id then cart[0].quantity + extra
    else
      var q := FirstQuantity(cart[1..], id, extra);
      assert forall i :: 0 <= i < |cart[1..]| ==> cart[1..][i] == cart[i + 1];
      assert InCart(cart, id) ==> InCart(cart[1..], id);
      if InCart(cart, id) then
        var i :| 0 <= i < |cart[1..]| && cart[1..][i].product.id == id &&
          q == cart[1..][i].quantity + extra && forall j :: 0 <= j < i ==> cart[1..][j].product.id != id;
        assert cart[i + 1].product.id == id;
        q
      else q
  }

  /** `updateQuantity` for a guest: a quantity of zero or less removes the
      product; otherwise each of its lines gets the quantity. */
  function UpdateQuantity(cart: seq<Line>, id: ProductId, quantity: int): (r: seq<Line>)
    ensures quantity <= 0 ==> r == RemoveFromCart(cart, id)
    ensures quantity > 0 ==> r == SetTo(cart, id, quantity)
    ensures quantity > 0 ==> ItemCount(r) == ItemCount(RemoveFromCart(cart, id)) + quantity * Occurrences(cart, id)
  {
    if quantity <= 0 then RemoveFromCart(cart, id)
    else
      SetToCount(cart, id, quantity);
      RemoveCount(cart, id);
      ScaledIsProduct(quantity, Occurrences(cart, id));
      SetTo(cart, id, quantity)
  }

  /** `clearCart`: the empty cart, with nothing to pay and no items. */
  function ClearCart(): (r: seq<Line>)
    ensures r == []
    ensures CartTotal(r) == 0.0 && ItemCount(r) == 0
  {
    []
  }

  /** No product has two lines. */
  predicate UniqueProducts(cart: seq<Line>)
  {
    forall i, j :: 0 <= i < j < |cart| ==> cart[i].product.id != cart[j].product.id
  }

  /** Guest adds never give a product a second line, and with one line per
      product an add of a product in the cart raises the count by exactly the
      added quantity. */
  lemma AddKeepsUnique(cart: seq<Line>, product: ProductRef, quantity: int)
    requires UniqueProducts(cart)
    ensures UniqueProducts(AddToCart(cart, product, quantity))
    ensures ItemCount(AddToCart(cart, product, quantity)) == ItemCount(cart) + quantity
  {
    var r := AddToCart(cart, product, quantity);
    if InCart(cart, product.id) {
      assert forall i :: 0 <= i < |r| ==> r[i].product.id == cart[i].product.id;
      UniqueOccurrence(cart, product.id);
    } else {
      forall i, j | 0 <= i < j < |r| ensures r[i].product.id != r[j].product.id {
        assert r[i] == cart[i];
        if j < |cart| {
          assert r[j] == cart[j];
        }
      }
    }
  }

  /** With one line per product, a product in the cart occurs exactly once. */
  lemma {:induction false} UniqueOccurrence(cart: seq<Line>, id: ProductId)
    requires UniqueProducts(cart) && InCart(cart, id)
    ensures Occurrences(cart, id) == 1
  {
    var front, last := cart[..|cart| - 1], cart[|cart| - 1];
    assert UniqueProducts(front);
    if last.product.id == id {
      forall i | 0 <= i < |front| ensures front[i].product.id != id {
        assert front[i] == cart[i];
      }
    } else {
      var i :| 0 <= i < |cart| && cart[i].product.id == id;
      assert front[i].product.id == id;
      UniqueOccurrence(front, id);
    }
  }
}
