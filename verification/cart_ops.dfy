/**
 The three cart transformations of the cart hook, as pure functions on a cart:
 `increment` and `decrement` map over the lines and adjust the quantity of the
 lines whose identifier matches; `addToCart` appends a new line for an unknown
 product and otherwise behaves as `increment`.
 */
module CartOps {
  import opened Wrappers
  import opened CartLines

  /** The per-line callback of `increment`. */
  function IncrementLine(l: Line, id: string): Line {
    if l.id == id then l.(quantity := l.quantity + 1) else l
  }

  /** The per-line callback of `decrement`: a matching line is lowered only above one. */
  function DecrementLine(l: Line, id: string): Line {
    if l.id == id && l.quantity > 1 then l.(quantity := l.quantity - 1) else l
  }

  /**
   `increment(id)`: every line keeps its place and its product; a line whose
   identifier is `id` gains one item, every other line is left as it was.
   */
  function Increment(cart: Cart, id: string): (r: Cart)
    ensures |r| == |cart|
    ensures forall i :: 0 <= i < |r| ==> ProductOf(r[i]) == ProductOf(cart[i])
    ensures forall i :: 0 <= i < |r| && cart[i].id == id ==> r[i].quantity == cart[i].quantity + 1
    ensures forall i :: 0 <= i < |r| && cart[i].id != id ==> r[i] == cart[i]
  {
    if cart == [] then [] else [IncrementLine(cart[0], id)] + Increment(cart[1..], id)
  }

  /**
   `decrement(id)`: every line keeps its place and its product; a line whose
   identifier is `id` loses one item if it has more than one and is left as it
   was otherwise, so no line is removed and no quantity reaches zero.
   */
  function Decrement(cart: Cart, id: string): (r: Cart)
    ensures |r| == |cart|
    ensures forall i :: 0 <= i < |r| ==> ProductOf(r[i]) == ProductOf(cart[i])
    ensures forall i :: 0 <= i < |r| && cart[i].id == id && cart[i].quantity > 1 ==>
      r[i].quantity == cart[i].quantity - 1
    ensures forall i :: 0 <= i < |r| && (cart[i].id != id || cart[i].quantity <= 1) ==> r[i] == cart[i]
  {
    if cart == [] then [] else [DecrementLine(cart[0], id)] + Decrement(cart[1..], id)
  }

  /** Position `k` holds the first line whose identifier is `id`. */
  predicate FirstMatch(cart: Cart, id: string, k: int) {
    0 <= k < |cart| && cart[k].id == id && forall j :: 0 <= j < k ==> cart[j].id != id
  }

  /** `products.find(item => item.id === id)`: the first line with identifier `id`, if any. */
  function Find(cart: Cart, id: string): (r: Option<Line>)
    ensures r.None? <==> !HasId(cart, id)
    ensures r.Some? ==> exists k :: FirstMatch(cart, id, k) && cart[k] == r.value
  {
    if cart == [] then None
    else if cart[0].id == id then
      assert FirstMatch(cart, id, 0);
      Some(cart[0])
    else
      var r := Find(cart[1..], id);
      assert r.Some? ==> exists k :: FirstMatch(cart, id, k) && cart[k] == r.value by {
        if r.Some? {
          var k :| FirstMatch(cart[1..], id, k) && cart[1..][k] == r.value;
          assert FirstMatch(cart, id, k + 1);
        }
      }
      r
  }

  /**
   `addToCart(product)`: a product not in the cart is appended as a new line with
   quantity one; a product already in the cart is counted once more through
   `increment`.
   */
  function AddToCart(cart: Cart, p: Product): (r: Cart)
    ensures !HasId(cart, p.id) ==> r == cart + [NewLine(p)]
    ensures HasId(cart, p.id) ==> r == Increment(cart, p.id)
  {
    match Find(cart, p.id)
    case None => cart + [NewLine(p)]
    case Some(_) => Increment(cart, p.id)
  }

  // ---------------------------------------------------------------------------
  // increment

  /** Incrementing an identifier that is not in the cart leaves the cart as it was. */
  lemma IncrementAbsent(cart: Cart, id: string)
    requires !HasId(cart, id)
    ensures Increment(cart, id) == cart
  {
  }

  /**
   With unique identifiers, `increment` of a present identifier changes exactly
   one line, the one at position `k`, and only its quantity.
   */
  lemma IncrementOnlyTarget(cart: Cart, k: nat)
    requires UniqueIds(cart)
    requires k < |cart|
    ensures Increment(cart, cart[k].id) == cart[k := cart[k].(quantity := cart[k].quantity + 1)]
  {
    var id := cart[k].id;
    var r := Increment(cart, id);
    var want := cart[k := cart[k].(quantity := cart[k].quantity + 1)];
    forall i | 0 <= i < |r| ensures r[i] == want[i] {
      if i != k {
        assert cart[i].id != id;
      } else {
        assert ProductOf(r[i]) == ProductOf(cart[i]);
      }
    }
  }

  /** `increment` keeps both cart invariants. */
  lemma IncrementValid(cart: Cart, id: string)
    requires Valid(cart)
    ensures Valid(Increment(cart, id))
  {
  }

  /** `increment` adds one item per line carrying the identifier. */
  lemma {:induction false} IncrementTotal(cart: Cart, id: string)
    ensures TotalQuantity(Increment(cart, id)) == TotalQuantity(cart) + Occurrences(cart, id)
  {
    if cart != [] {
      IncrementTotal(cart[1..], id);
      assert Increment(cart, id)[1..] == Increment(cart[1..], id);
    }
  }

  // ---------------------------------------------------------------------------
  // decrement

  /** Decrementing an identifier that is not in the cart leaves the cart as it was. */
  lemma DecrementAbsent(cart: Cart, id: string)
    requires !HasId(cart, id)
    ensures Decrement(cart, id) == cart
  {
  }

  /**
   With unique identifiers, `decrement` of the identifier at position `k` changes
   at most that line: it lowers its quantity by one when above one, and leaves
   the whole cart as it was when the quantity is one or less.
   */
  lemma DecrementOnlyTarget(cart: Cart, k: nat)
    requires UniqueIds(cart)
    requires k < |cart|
    ensures cart[k].quantity > 1 ==>
      Decrement(cart, cart[k].id) == cart[k := cart[k].(quantity := cart[k].quantity - 1)]
    ensures cart[k].quantity <= 1 ==> Decrement(cart, cart[k].id) == cart
  {
    var id := cart[k].id;
    var r := Decrement(cart, id);
    var want := if cart[k].quantity > 1 then cart[k := cart[k].(quantity := cart[k].quantity - 1)] else cart;
    forall i | 0 <= i < |r| ensures r[i] == want[i] {
      if i != k {
        assert cart[i].id != id;
      } else {
        assert ProductOf(r[i]) == ProductOf(cart[i]);
      }
    }
  }

  /** `decrement` keeps both cart invariants: in particular no quantity drops below one. */
  lemma DecrementValid(cart: Cart, id: string)
    requires Valid(cart)
    ensures Valid(Decrement(cart, id))
  {
  }

  /** On a cart whose quantities are all at least one, `decrement` undoes `increment`. */
  lemma IncrementDecrementRoundTrip(cart: Cart, id: string)
    requires PositiveQuantities(cart)
    ensures Decrement(Increment(cart, id), id) == cart
  {
  }

  /**
   The converse does not hold: on a line with a single item `decrement` does
   nothing, so the following `increment` leaves the cart with one item more.
   */
  lemma DecrementIncrementNotInverse(cart: Cart, k: nat)
    requires k < |cart| && cart[k].quantity == 1
    ensures Increment(Decrement(cart, cart[k].id), cart[k].id) != cart
  {
  }

  // ---------------------------------------------------------------------------
  // addToCart

  /**
   `addToCart` of a new product grows the cart by exactly one line, at the end,
   holding the product with quantity one, and keeps the existing lines as a prefix.
   */
  lemma AddToCartNew(cart: Cart, p: Product)
    requires !HasId(cart, p.id)
    ensures |AddToCart(cart, p)| == |cart| + 1
    ensures AddToCart(cart, p)[..|cart|] == cart
    ensures ProductOf(AddToCart(cart, p)[|cart|]) == p
    ensures AddToCart(cart, p)[|cart|].quantity == 1
  {
  }

  /**
   `addToCart` of a product already in the cart keeps the cart's length and
   raises the quantity of that product's line by one, whatever the other fields
   of the product passed in.
   */
  lemma AddToCartExisting(cart: Cart, p: Product, k: nat)
    requires UniqueIds(cart)
    requires k < |cart| && cart[k].id == p.id
    ensures AddToCart(cart, p) == cart[k := cart[k].(quantity := cart[k].quantity + 1)]
  {
  }

  /** `addToCart` keeps both cart invariants. */
  lemma AddToCartValid(cart: Cart, p: Product)
    requires Valid(cart)
    ensures Valid(AddToCart(cart, p))
  {
  }

  /** On a cart with unique identifiers every `addToCart` adds exactly one item. */
  lemma AddToCartTotal(cart: Cart, p: Product)
    requires UniqueIds(cart)
    ensures TotalQuantity(AddToCart(cart, p)) == TotalQuantity(cart) + 1
  {
    if HasId(cart, p.id) {
      IncrementTotal(cart, p.id);
      OccurrencesUnique(cart, p.id);
    } else {
      TotalAppend(cart, NewLine(p));
    }
  }

  /** Appending a line adds its quantity to the total. */
  lemma {:induction false} TotalAppend(cart: Cart, l: Line)
    ensures TotalQuantity(cart + [l]) == TotalQuantity(cart) + l.quantity
  {
    if cart != [] {
      assert (cart + [l])[1..] == cart[1..] + [l];
      TotalAppend(cart[1..], l);
    }
  }
}
