/** A buyer's purchases, screen by screen, as the navigation wires the screens
    together: add a product on the home screen, open the cart, proceed to
    checkout, pay, and come back to the home screen, which stays mounted
    underneath the whole time. */
module Flow {
  import opened Wrappers
  import opened Catalog
  import opened Pricing
  import Home
  import Cart
  import Checkout

  /** One round trip from a mounted home screen: add `product`, open the
      cart, check out with the given phone and address, and, when payment
      goes through, return home with `cartCleared: true`. With `reset` the
      home screen handles the return with the parameter reset. */
  method CheckoutRound(home: Home.HomeScreen, product: Product, phone: string, address: string, reset: bool)
    returns (paid: bool, charged: nat)
    modifies home
    ensures paid <==> Checkout.CheckPayment(phone, address) == Checkout.StartProcessing
    ensures charged == Subtotal(old(home.cartItems) + [product]) + DeliveryFee
    ensures home.cartItems ==
              (if paid && !old(home.cartClearedParam) then [] else old(home.cartItems) + [product])
    ensures home.cartClearedParam == (if paid then !reset else old(home.cartClearedParam))
  {
    home.AddToCart(product);
    var toCart := home.GoToCart();
    var cart := new Cart.CartScreen(Some(toCart.params));
    var toCheckout := cart.GoToCheckout();
    var checkout := new Checkout.CheckoutScreen(Some(toCheckout.params));
    charged := checkout.DisplayedTotal();
    checkout.EditForm(phone, address, "");
    var check := checkout.ProcessPayment();
    paid := check == Checkout.StartProcessing;
    if paid {
      var back := checkout.CompletePayment();
      if reset {
        home.ReceiveCartClearedAndReset(back.cartCleared);
      } else {
        home.ReceiveCartCleared(back.cartCleared);
      }
    }
  }

  /** A first purchase: the buyer is charged the product's price plus the
      delivery fee, and a paid order leaves the home cart empty. */
  method Purchase(product: Product, phone: string, address: string)
    returns (paid: bool, charged: nat, cartAfter: seq<Product>)
    ensures paid <==> Checkout.CheckPayment(phone, address) == Checkout.StartProcessing
    ensures charged == PriceOf(product) + DeliveryFee
    ensures paid ==> cartAfter == []
    ensures !paid ==> cartAfter == [product]
  {
    var home := new Home.HomeScreen(None);
    paid, charged := CheckoutRound(home, product, phone, address, false);
    SubtotalSnoc([], product);
    assert [] + [product] == [product];
    cartAfter := home.cartItems;
  }

  /** Two paid purchases in one session, as the screens are written: the
      second return carries `cartCleared: true` again, the clearing effect
      does not re-run, and the second product stays in the cart. An unpaid
      pair of orders leaves both products in the cart. */
  method RepeatPurchase(first: Product, second: Product, phone: string, address: string)
    returns (cartAfter: seq<Product>)
    ensures Checkout.CheckPayment(phone, address) == Checkout.StartProcessing ==> cartAfter == [second]
    ensures Checkout.CheckPayment(phone, address) != Checkout.StartProcessing ==> cartAfter == [first, second]
  {
    var home := new Home.HomeScreen(None);
    var paid1, charged1 := CheckoutRound(home, first, phone, address, false);
    assert home.cartItems == (if paid1 then [] else [first]) && home.cartClearedParam == paid1;
    var paid2, charged2 := CheckoutRound(home, second, phone, address, false);
    cartAfter := home.cartItems;
  }

  /** The same two purchases when the effect resets the parameter: the
      second paid order leaves the cart empty as well. */
  method RepeatPurchaseWithReset(first: Product, second: Product, phone: string, address: string)
    returns (cartAfter: seq<Product>)
    ensures Checkout.CheckPayment(phone, address) == Checkout.StartProcessing ==> cartAfter == []
    ensures Checkout.CheckPayment(phone, address) != Checkout.StartProcessing ==> cartAfter == [first, second]
  {
    var home := new Home.HomeScreen(None);
    var paid1, charged1 := CheckoutRound(home, first, phone, address, true);
    assert home.cartItems == (if paid1 then [] else [first]) && !home.cartClearedParam;
    var paid2, charged2 := CheckoutRound(home, second, phone, address, true);
    cartAfter := home.cartItems;
  }
}
