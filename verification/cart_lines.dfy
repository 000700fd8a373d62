/**
 The data model of the shopping cart: a product as the catalogue describes it,
 a cart line (a product together with how many of it are in the cart), and the
 cart itself, an ordered sequence of lines. Also the two invariants the cart
 operations keep: identifiers are unique and every quantity is at least one.
 */
module CartLines {

  /** A price is a JavaScript number. The cart only copies it, never computes on it. */
  type Price = real

  /** A product without a quantity: the argument of `addToCart`. */
  datatype Product = Product(id: string, title: string, imageUrl: string, price: Price)

  /** One line of the cart. `imageUrl` is the `image_url` field of the stored record. */
  datatype Line = Line(id: string, title: string, imageUrl: string, price: Price, quantity: int)

  /** Lines in insertion order. */
  type Cart = seq<Line>

  /** The line added for a product not yet in the cart: its fields and quantity one. */
  function NewLine(p: Product): (l: Line)
    ensures l.quantity == 1
    ensures ProductOf(l) == p
  {
    Line(p.id, p.title, p.imageUrl, p.price, 1)
  }

  /** Everything about a line except its quantity. */
  function ProductOf(l: Line): Product {
    Product(l.id, l.title, l.imageUrl, l.price)
  }

  /** Some line of the cart carries identifier `id`. */
  predicate HasId(cart: Cart, id: string) {
    exists i :: 0 <= i < |cart| && cart[i].id == id
  }

  /** No two lines share an identifier. */
  predicate UniqueIds(cart: Cart) {
    forall i, j :: 0 <= i < j < |cart| ==> cart[i].id != cart[j].id
  }

  /** Every line holds at least one item. */
  predicate PositiveQuantities(cart: Cart) {
    forall i :: 0 <= i < |cart| ==> cart[i].quantity >= 1
  }

  /** The invariant of a cart built only through the cart operations. */
  predicate Valid(cart: Cart) {
    UniqueIds(cart) && PositiveQuantities(cart)
  }

  /** Number of items in the cart, summed over all lines. */
  function TotalQuantity(cart: Cart): int {
    if cart == [] then 0 else cart[0].quantity + TotalQuantity(cart[1..])
  }

  /** Number of lines whose identifier is `id`. */
  function Occurrences(cart: Cart, id: string): (n: nat)
    ensures n <= |cart|
    ensures n > 0 <==> HasId(cart, id)
  {
    if cart == [] then 0
    else (if cart[0].id == id then 1 else 0) + Occurrences(cart[1..], id)
  }

  /** In a cart with unique identifiers an identifier names at most one line. */
  lemma {:induction false} OccurrencesUnique(cart: Cart, id: string)
    requires UniqueIds(cart)
    ensures Occurrences(cart, id) == if HasId(cart, id) then 1 else 0
  {
    if cart != [] {
      var rest := cart[1..];
      assert UniqueIds(rest) by {
        forall i, j | 0 <= i < j < |rest| ensures rest[i].id != rest[j].id {
          assert rest[i] == cart[i + 1] && rest[j] == cart[j + 1];
        }
      }
      OccurrencesUnique(rest, id);
      if cart[0].id == id {
        assert !HasId(rest, id) by {
          forall i | 0 <= i < |rest| ensures rest[i].id != id {
            assert rest[i] == cart[i + 1];
          }
        }
      }
    }
  }
}
