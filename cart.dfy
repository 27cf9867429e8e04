/** The cart screen: its list of lines, removal by id, the subtotal, fee and
    total it displays, and the guard in front of checkout. */
module Cart {
  import opened Wrappers
  import opened Catalog
  import opened Pricing
  import opened Seqs
  import Checkout

  /** The filter test of `removeItem`: keep lines whose id differs. */
  function OtherThan(id: string): Product -> bool {
    (p: Product) => p.id != id
  }

  /** `items.filter(item => item.id !== id)`. */
  function RemoveById(items: seq<Product>, id: string): (r: seq<Product>)
    ensures forall i :: 0 <= i < |r| ==> r[i].id != id
    ensures forall p :: p in r ==> p in items
    ensures forall p :: p in items && p.id != id ==> p in r
  {
    var r := Filter(items, OtherThan(id));
    assert forall i :: 0 <= i < |r| ==> r[i] in r;
    r
  }

  /** The number of lines carrying `id`: one per time that product was added. */
  function Occurrences(items: seq<Product>, id: string): nat {
    if items == [] then 0 else (if items[0].id == id then 1 else 0) + Occurrences(items[1..], id)
  }

  /** Removal drops every line with the id, not just the first. */
  lemma {:induction false} RemoveByIdLength(items: seq<Product>, id: string)
    ensures |RemoveById(items, id)| + Occurrences(items, id) == |items|
  {
    if items != [] {
      RemoveByIdLength(items[1..], id);
    }
  }

  /** The kept lines stay in their original relative order: removal from a
      concatenation is the concatenation of the removals. */
  lemma RemoveByIdAppend(a: seq<Product>, b: seq<Product>, id: string)
    ensures RemoveById(a + b, id) == RemoveById(a, id) + RemoveById(b, id)
  {
    FilterAppend(a, b, OtherThan(id));
  }

  /** Removing an id that no line carries leaves the cart as it was. */
  lemma RemoveAbsentId(items: seq<Product>, id: string)
    requires forall i :: 0 <= i < |items| ==> items[i].id != id
    ensures RemoveById(items, id) == items
  {
    FilterKeepsAll(items, OtherThan(id));
  }

  /** Removing the same id twice is removing it once. */
  lemma RemoveByIdIdempotent(items: seq<Product>, id: string)
    ensures RemoveById(RemoveById(items, id), id) == RemoveById(items, id)
  {
    FilterIdempotent(items, OtherThan(id));
  }

  /** The cart ends up empty exactly when every line carried the id. */
  lemma RemoveByIdEmpty(items: seq<Product>, id: string)
    ensures RemoveById(items, id) == [] <==> forall i :: 0 <= i < |items| ==> items[i].id == id
  {
    FilterEmpty(items, OtherThan(id));
  }

  /** The outcome of `removeItem`: the "cart is now empty" prompt, or none. */
  datatype RemoveNotice = CartNowEmpty | NoNotice

  class CartScreen {
    var items: seq<Product>

    /** `route.params || {}` with the default `cartItems = []`. */
    constructor (cartItems: Option<seq<Product>>)
      ensures items == cartItems.GetOr([])
    {
      items := cartItems.GetOr([]);
    }

    /** `removeItem`: drop every line with the id; prompt when nothing is left. */
    method RemoveItem(id: string) returns (notice: RemoveNotice)
      modifies this
      ensures items == RemoveById(old(items), id)
      ensures notice == CartNowEmpty <==> items == []
    {
      var updatedItems := RemoveById(items, id);
      items := updatedItems;
      notice := if |updatedItems| == 0 then CartNowEmpty else NoNotice;
    }

    /** The "Subtotal" line. */
    function DisplayedSubtotal(): (r: nat)
      reads this
      ensures r == 0 <==> forall p :: p in items ==> PriceOf(p) == 0
    {
      SubtotalZero(items);
      Subtotal(items)
    }

    /** The "Total" line: the subtotal plus the delivery fee. */
    function DisplayedTotal(): (total: nat)
      reads this
      ensures total >= DeliveryFee
      ensures total == DeliveryFee <==> forall p :: p in items ==> PriceOf(p) == 0
    {
      SubtotalZero(items);
      Subtotal(items) + DeliveryFee
    }

    /** `goToCheckout`: refuse an empty cart, otherwise pass the lines on
        unchanged together with their subtotal. */
    method GoToCheckout() returns (nav: CartGuard<Checkout.CheckoutParams>)
      ensures nav.EmptyCartAlert? <==> items == []
      ensures nav.Proceed? ==>
                nav.params == Checkout.CheckoutParams(Some(items), Some(Subtotal(items)))
    {
      if |items| == 0 {
        return EmptyCartAlert;
      }
      var totalAmount := CalculateTotal(items);
      nav := Proceed(Checkout.CheckoutParams(Some(items), Some(totalAmount)));
    }
  }

  /** Opening the cart with some lines and proceeding to checkout: the
      checkout screen shows the same lines and the same total as the cart. */
  method CheckoutFromCart(lines: seq<Product>) returns (cartTotal: nat, checkoutTotal: Option<nat>)
    ensures cartTotal == Subtotal(lines) + DeliveryFee
    ensures lines == [] <==> checkoutTotal.None?
    ensures checkoutTotal.Some? ==> checkoutTotal.value == cartTotal
  {
    var cart := new CartScreen(Some(lines));
    cartTotal := cart.DisplayedTotal();
    var nav := cart.GoToCheckout();
    match nav {
      case EmptyCartAlert =>
        checkoutTotal := None;
      case Proceed(params) =>
        var checkout := new Checkout.CheckoutScreen(Some(params));
        assert checkout.cartItems == lines;
        checkoutTotal := Some(checkout.DisplayedTotal());
    }
  }
}
