# Kenyan Farmers Market: cart, pricing and checkout validation

This project models the logic of a React Native storefront prototype for
Kenyan farm produce. The model leaves out the rendering and keeps the
sequential logic under the screens:

- the cart screen reads each line's price label (such as `"KES 120/kg"`) with
  the pattern `KES\s+(\d+)` and sums the amounts. It removes lines by id,
  shows subtotal, delivery fee (200) and total, and refuses to check out an
  empty cart (`pricing.dfy`, `cart.dfy`);
- the home screen filters the catalog by category and appends products to
  the cart. It refuses to open an empty cart, and its `cartCleared` effect
  empties the cart when checkout sends the buyer back with a changed
  `cartCleared` value. A farmer's "add product" form is validated and then
  becomes a new catalog record (`home.dfy`);
- the checkout screen checks the required fields, then the M-Pesa phone
  pattern `^(0|\+254|254)[7|1][0-9]{8}$`. It then moves from editing to
  processing to complete (`checkout.dfy`);
- the sign-up screen checks that every field is filled and that the two
  passwords agree (`signup.dfy`).

UI effects are values. An `Alert.alert` becomes an outcome datatype
(`RemoveNotice`, `PaymentCheck`, `ListingCheck`, `SignupOutcome`). A guarded
`navigation.navigate` becomes `CartGuard<P>`: either `EmptyCartAlert` or
`Proceed(params)`. Component state (`useState`) becomes the fields of the
classes `Cart.CartScreen`, `Home.HomeScreen` and `Checkout.CheckoutScreen`.
Their methods update the fields and state the whole new state.

The amount of a line is `Pricing.PriceOf`: the value of `Pricing.ExtractPrice`,
or 0 when the label has no match. `Pricing.Subtotal` sums these amounts.
`Pricing.CalculateTotal` is the screen's accumulating loop, proved equal to
`Subtotal`. The sum itself is `Seqs.Sum`, a sum of an arbitrary weight over a
sequence, so its additivity and order-independence are proved once for any
weight. JavaScript's `\s` is the exact ECMAScript white-space and
line-terminator set (`Text.IsSpace`), and `\d` is ASCII digits. `Flow.Purchase`
wires the screens together the way the navigator does: home, then cart, then
checkout, then back to the home screen, which stays mounted underneath.

What the screens actually do, where a reader might expect otherwise:
- removal drops every line with the id, not only the first;
- the empty-cart guard sits on the cart and home screens, not in the checkout validation;
- the phone class `[7|1]` also admits `'|'` (see Findings);
- the cart is cleared by the home screen's `cartCleared` effect, not by checkout itself, and only when that parameter changes (see Findings);
- payment always succeeds after the delay.

## Model

| member | source | states |
|---|---|---|
| `Text.Decimal` | src/screens/HomeScreen.js:185 | `n.toString()` is a non-empty digit string whose base-10 value is `n`, with no leading zero for positive `n` |
| `Text.DecimalInjective` | src/screens/HomeScreen.js:185 | different counters give different id strings |
| `Text.IsSpace` | src/screens/CartScreen.js:22 | `\s` is exactly the ECMAScript WhiteSpace and LineTerminator code points (tab, LF, VT, FF, CR, space, U+00A0, U+1680, U+2000–U+200A, U+2028, U+2029, U+202F, U+205F, U+3000, U+FEFF); `Text.DigitIsNotSpace` shows no `\d` character is in it |
| `Text.DigitIsNotSpace` | src/screens/CartScreen.js:22 | a `\d` character is never `\s`, so a white-space run always stops before the captured digits |
| `Text.DigitsValue` | src/screens/CartScreen.js:24 | `parseInt` of a digit string, read most significant digit first; `Text.DigitsValueSnoc` states the place-value step and `Text.Decimal` that it inverts `toString` |
| `Text.DigitsValueSnoc` | src/screens/CartScreen.js:24 | appending a digit multiplies the value read so far by 10 and adds the digit |
| `Seqs.Filter` | src/screens/CartScreen.js:32 | `filter` keeps exactly the elements that pass the test and never grows the list |
| `Seqs.FilterAppend` | src/screens/HomeScreen.js:164 | filtering a concatenation gives the concatenation of the filtered parts, so the kept elements stay in order |
| `Seqs.SumAppend` | src/screens/CartScreen.js:19-26 | an accumulated sum over a concatenation is the sum of the two parts' sums |
| `Seqs.SumPermutation` | src/screens/CartScreen.js:19-26 | an accumulated sum does not depend on the order of the elements |
| `Pricing.MatchesAt` | src/screens/CartScreen.js:22 | a match at a position starts with "KES" and at least one `\s` and has room for a digit; conversely "KES", one `\s` and a `\d` at a position always match there |
| `Pricing.Run` | src/screens/CartScreen.js:22 | the maximal run of `\s` or `\d` characters from a position: every character in it passes, and the run ends at the end of the string or at a character that fails |
| `Pricing.FirstMatchFrom` | src/screens/CartScreen.js:22 | the pattern matches at the returned position and at no earlier one; `None` means it matches nowhere |
| `Pricing.Captured` | src/screens/CartScreen.js:22 | group 1 of a match is a non-empty string of digits |
| `Pricing.ExtractPrice` | src/screens/CartScreen.js:21-24 | the result is absent exactly when the pattern matches at no position of the label |
| `Pricing.MatchesAtIsRegexMatch` | src/screens/CartScreen.js:22 | a match at a position exists iff some split into "KES", ≥1 white-space characters and ≥1 digits exists; the only split that can succeed uses the whole white-space run, and group 1 is the longest digit run |
| `Pricing.PriceOf` | src/screens/CartScreen.js:22-25 | a line adds the parsed group 1 of its label's leftmost match, or 0 when the label has no match; `Pricing.UnpricedLineAddsNothing` and `Pricing.LabelRoundTrip` state both cases |
| `Pricing.Subtotal` | src/screens/CartScreen.js:18-28 | the sum of `PriceOf` over the lines; the lemmas below state its additivity, order-independence and zero case |
| `Pricing.CalculateTotal` | src/screens/CartScreen.js:18-28 | the accumulating loop returns `Subtotal(items)`: the sum of the matched prices, with 0 for an empty list |
| `Pricing.SubtotalAppend` | src/screens/CartScreen.js:19-26 | the subtotal is additive over concatenated carts |
| `Pricing.SubtotalSnoc` | src/screens/CartScreen.js:20-25 | one more line adds exactly its own price to the subtotal |
| `Pricing.SubtotalZero` | src/screens/CartScreen.js:19-26 | the subtotal is 0 exactly when no line has a positive price |
| `Pricing.SubtotalPermutation` | src/screens/CartScreen.js:19-26 | any reordering of the lines has the same subtotal |
| `Pricing.SubtotalRemoveAt` | src/screens/CartScreen.js:19-26 | taking a line out lowers the subtotal by exactly that line's price |
| `Pricing.UnpricedLineAddsNothing` | src/screens/CartScreen.js:23 | a line whose label does not match adds 0 wherever it sits in the cart |
| `Pricing.LabelRoundTrip` | src/screens/CartScreen.js:21-24 | `"KES " + digits + unit`, where the unit does not start with a digit, extracts to the digits' base-10 value |
| `Pricing.ExampleLabel120` | src/screens/CartScreen.js:21 | `"KES 120/kg"` gives 120 |
| `Pricing.ExampleLabel80` | src/screens/CartScreen.js:22-25 | `"KES 80/kg"` gives 80 |
| `Pricing.TwoLineExample` | src/screens/CartScreen.js:105-118 | lines at "KES 120/kg" and "KES 80/kg" show subtotal 200 and total 400 |
| `Cart.RemoveById` | src/screens/CartScreen.js:32 | no kept line has the id, every kept line was in the cart, and every line with another id is kept |
| `Cart.RemoveByIdLength` | src/screens/CartScreen.js:32 | the length drops by the number of lines carrying the id, so every copy is removed |
| `Cart.RemoveByIdAppend` | src/screens/CartScreen.js:32 | the kept lines keep their relative order |
| `Cart.RemoveAbsentId` | src/screens/CartScreen.js:32 | removing an id no line carries leaves the cart unchanged |
| `Cart.RemoveByIdIdempotent` | src/screens/CartScreen.js:32 | removing twice equals removing once |
| `Cart.RemoveByIdEmpty` | src/screens/CartScreen.js:32-35 | the cart becomes empty exactly when every line carried the id |
| `Cart.CartScreen.constructor` | src/screens/CartScreen.js:14-15 | the lines are the route's `cartItems`, or empty when it is absent |
| `Cart.CartScreen.RemoveItem` | src/screens/CartScreen.js:31-51 | the new lines are `RemoveById(old lines, id)`, and the "cart is now empty" prompt appears exactly when none are left |
| `Cart.CartScreen.DisplayedSubtotal` | src/screens/CartScreen.js:108 | for a non-empty cart (the only case in which the summary is shown, line 96), the "Subtotal" line shows 0 exactly when no line has a readable positive price |
| `Cart.CartScreen.DisplayedTotal` | src/screens/CartScreen.js:105-118 | for a non-empty cart (the only case in which the summary is shown, line 96), the "Total" line is never below the 200 delivery fee and equals the fee alone exactly when no line has a positive price; `Cart.CheckoutFromCart` ties it to `Subtotal` |
| `Cart.CartScreen.GoToCheckout` | src/screens/CartScreen.js:54-64 | an empty cart gives the empty-cart alert; otherwise checkout opens with the unchanged lines and `totalAmount = Subtotal(lines)` |
| `Cart.CheckoutFromCart` | src/screens/CartScreen.js:60-63 | the checkout screen opened from a non-empty cart shows the same total as the cart; an empty cart opens nothing |
| `Checkout.MatchesPhonePattern` | src/screens/CheckoutScreen.js:32 | the anchored test: one of the prefixes `0`, `+254`, `254`, then a character of `[7\|1]` (`'7'`, `'\|'` or `'1'`), then exactly eight ASCII digits; an accepted number is 10, 12 or 13 characters long |
| `Checkout.PhonePatternAccepts` | src/screens/CheckoutScreen.js:32 | every prefix `0`/`+254`/`254`, followed by one of `7`, `\|`, `1` and then eight ASCII digits, is accepted |
| `Checkout.PhonePatternShape` | src/screens/CheckoutScreen.js:32 | every accepted phone splits into exactly such parts and is 10, 12 or 13 characters long |
| `Checkout.AcceptsLocalNumber` | src/screens/CheckoutScreen.js:32 | `0712345678` is accepted |
| `Checkout.AcceptsInternationalNumber` | src/screens/CheckoutScreen.js:32 | `+254712345678` is accepted |
| `Checkout.AcceptsCountryCodeNumber` | src/screens/CheckoutScreen.js:32 | `254112345678` is accepted |
| `Checkout.RejectsShortNumber` | src/screens/CheckoutScreen.js:32 | `12345` is refused |
| `Checkout.RejectsOtherNetwork` | src/screens/CheckoutScreen.js:32 | `0812345678` is refused: 8 is not in the network class |
| `Checkout.IntendedPhoneIsNumeric` | src/screens/CheckoutScreen.js:32 | under the class `[71]` everything after the prefix is a digit; the written pattern accepts these numbers plus only those with `\|` in the network position |
| `Checkout.PipeAcceptedAsNetworkDigit` | src/screens/CheckoutScreen.js:32 | `0\|12345678` passes the written pattern and fails the intended one |
| `Checkout.CheckPayment` | src/screens/CheckoutScreen.js:24-35 | empty phone or address gives the required-fields error (checked first); otherwise a non-matching phone gives the phone error; otherwise processing starts |
| `Checkout.BlankAddressPasses` | src/screens/CheckoutScreen.js:26-29 | a white-space-only address passes the required-fields check: with phone `0712345678` and address `" "` processing starts |
| `Checkout.CheckoutScreen.constructor` | src/screens/CheckoutScreen.js:15-21 | absent route parameters default to no lines and `totalAmount = 0`; the form starts empty, not processing, not complete |
| `Checkout.CheckoutScreen.DisplayedTotal` | src/screens/CheckoutScreen.js:76-91 | the total line is never below the 200 delivery fee; `Cart.CheckoutFromCart` shows it equals the cart's total |
| `Checkout.CheckoutScreen.EditForm` | src/screens/CheckoutScreen.js:101-126 | the three inputs set phone, address and notes and nothing else |
| `Checkout.CheckoutScreen.ProcessPayment` | src/screens/CheckoutScreen.js:24-38 | the outcome is `CheckPayment(phone, address)`, whatever the notes say; processing starts iff the checks pass; a failed check changes nothing |
| `Checkout.CheckoutScreen.CompletePayment` | src/screens/CheckoutScreen.js:41-59 | the delay ends processing and marks the order complete; the success alert returns home with `cartCleared` |
| `Checkout.CheckoutScreen.ContinueShopping` | src/screens/CheckoutScreen.js:162-167 | the success view returns home with `cartCleared` |
| `Home.FilterByCategory` | src/screens/HomeScreen.js:161-164 | under "All" the list is the whole catalog; otherwise a product is listed iff it is in the catalog with exactly that category |
| `Home.HomeScreen.FilteredProducts` | src/screens/HomeScreen.js:161-164 | the listed products: the whole catalog under "All", otherwise exactly the catalog products with the selected category, never more than the catalog |
| `Home.FilterByCategoryAppend` | src/screens/HomeScreen.js:162-164 | the listed products keep their catalog order |
| `Home.CheckListing` | src/screens/HomeScreen.js:174-182 | an empty name, price or quantity is reported before a missing image; all filled plus an image lets the listing through |
| `Home.NewListing` | src/screens/HomeScreen.js:184-194 | the new record's id reads back as `count + 1`, its price label is `"KES "` followed by the typed price, and its name, category and image come from the form, its farmer from the signed-in user |
| `Home.ListingPriceRoundTrip` | src/screens/HomeScreen.js:187 | a typed price that starts with digits `d` makes a record whose cart price is the value of `d` |
| `Home.SequentialIdsAppend` | src/screens/HomeScreen.js:185 | appending the record with id `length + 1` keeps ids numbered 1, 2, 3, … |
| `Home.SequentialIdsAreUnique` | src/screens/HomeScreen.js:185 | catalog ids numbered that way are pairwise distinct |
| `Home.SequentialIdAt` | src/screens/HomeScreen.js:185 | in a catalog numbered that way the record at position `i` carries the id `i + 1` |
| `Home.SequentialIdsIntro` | src/screens/HomeScreen.js:185 | conversely, a catalog whose record at each position `i` carries id `i + 1` is numbered that way |
| `Home.MockProductsAreSequential` | src/screens/HomeScreen.js:94-150 | the mock catalog is numbered 1 to 5 |
| `Home.HomeScreen.constructor` | src/screens/HomeScreen.js:20-31 | empty cart, the mock catalog, "All" selected, modal closed, blank form, `userName` defaulting to "User", `cartCleared` defaulting to false |
| `Home.HomeScreen.ReceiveCartCleared` | src/screens/HomeScreen.js:34-38 | the effect keyed on `[cartCleared]` runs only when the value changes: the cart is emptied exactly when `cartCleared` turns from false to true; the last seen value is recorded and nothing else changes |
| `Home.HomeScreen.ReceiveCartClearedAndReset` | src/screens/HomeScreen.js:34-38 | the corrected effect: as above, and the parameter is reset to false afterwards, so the next return from checkout is a change again |
| `Home.HomeScreen.SelectCategory` | src/screens/HomeScreen.js:254 | the category pill sets only the selection |
| `Home.HomeScreen.AddToCart` | src/screens/HomeScreen.js:167-170 | the product is appended as a new last line, even when its id is already present |
| `Home.HomeScreen.GoToCart` | src/screens/HomeScreen.js:209-215 | an empty cart gives the empty-cart alert; otherwise the cart opens with the lines unchanged |
| `Home.HomeScreen.OpenAddProductModal` | src/screens/HomeScreen.js:297 | the button opens the modal only |
| `Home.HomeScreen.EditForm` | src/screens/HomeScreen.js:436-468 | an input handler replaces the form and nothing else |
| `Home.HomeScreen.CancelAddProduct` | src/screens/HomeScreen.js:481-491 | cancelling resets the form and closes the modal |
| `Home.HomeScreen.AddNewProduct` | src/screens/HomeScreen.js:173-206 | the outcome is `CheckListing(form)`. A failure leaves catalog, form and modal unchanged. Success appends one record and resets the form. The record has id `length + 1`, price `"KES " + price`, quantity `quantity + " available"`, farmer `userName` and the chosen category. Ids stay unique |
| `Signup.HandleSignup` | src/screens/SignupScreen.js:22-46 | any empty field gives "fill in all fields" (checked first); otherwise different passwords give the mismatch error; otherwise the account is created |
| `Signup.UserTypeIrrelevant` | src/screens/SignupScreen.js:20 | buyer or farmer does not change the outcome |
| `Signup.InitialFormIncomplete` | src/screens/SignupScreen.js:15-27 | the untouched form (buyer selected, all fields empty) is refused for empty fields |
| `Flow.CheckoutRound` | src/screens/CheckoutScreen.js:52-55 | one trip from a mounted home screen through cart and checkout: the charge is the cart's subtotal plus 200, processing starts iff the payment checks pass, and the home cart afterwards follows `ReceiveCartCleared` |
| `Flow.Purchase` | src/screens/CheckoutScreen.js:52-55 | a product added on a fresh home screen is charged its price plus 200. After a successful payment the home cart is empty. After a refused payment the cart is unchanged |
| `Flow.RepeatPurchase` | src/screens/HomeScreen.js:34-38 | as written, after two paid purchases in one session the second product is still in the home cart |
| `Flow.RepeatPurchaseWithReset` | src/screens/HomeScreen.js:34-38 | with the parameter reset, two paid purchases leave the home cart empty |

## Left out

- Rendering, styles, and the presentational files: app/index.js, LandingScreen, App.js and the three components. LoginScreen.js is not part of this model.
- Cart.CartScreen.DisplayedTotal: is defined for an empty cart as well, where it reads the fee alone, although the screen shows no summary there: for an empty cart src/screens/CartScreen.js:96 renders the "Your cart is empty" view of lines 128-143 instead.
- Cart.CartScreen.DisplayedSubtotal: likewise defined for an empty cart, where it reads 0, though no "Subtotal" line is shown there.
- Alert text and button callbacks, and `navigation.navigate`/`goBack`. These are modelled only as returned outcome values.
- The image-picker permission requests and captures (src/screens/HomeScreen.js:41-84), because they are asynchronous device I/O. A picked image is an opaque `ImageRef`, and its result enters through `Home.HomeScreen.EditForm`.
- The 3-second `setTimeout` and the random order number, because they are timing and randomness. The delay is the explicit step `Checkout.CheckoutScreen.CompletePayment`.
- Checkout.CheckoutScreen.ProcessPayment: requires the screen to be neither processing nor complete. The pay button is disabled while processing, and the form is gone once complete.
- Checkout.CheckoutScreen.CompletePayment: requires processing. Only `ProcessPayment` schedules the timer. A timer firing after the screen has closed is not modelled.
- Checkout.CheckoutScreen.ContinueShopping: requires the order to be complete, because the button exists only in the success view.
- The language toggle, the search box, the market-price list, and the home screen's `userType`. These only choose what is rendered: which buttons a buyer or farmer sees is not a precondition of `AddToCart` or `AddNewProduct`.
- JavaScript number limits (`parseInt` on huge digit runs, floating-point sums). Amounts are unbounded naturals.
- The mock catalog's image URLs are kept without their query strings, because images are only displayed.
- React's batching of state updates. Each handler is one atomic step.
- Home.HomeScreen.ReceiveCartCleared: the return trip delivers only `cartCleared`; what React Navigation does to the home screen's other parameters (`userType`, `userName`) on that trip is not modelled, and `userName` stays as it was.

## Findings

| source | as written | input that shows it | evidently intended | confidence | as-written member | corrected member |
|---|---|---|---|---|---|---|
| src/screens/CheckoutScreen.js:32 | the character class `[7\|1]` admits `'\|'` as well as `7` and `1` | `0\|12345678` is accepted as an M-Pesa number | `[71]`: a 7 or 1 network digit, so the whole number after the prefix is numeric | high; not executed | `Checkout.PipeAcceptedAsNetworkDigit` | `Checkout.IntendedPhoneIsNumeric` |
| src/screens/HomeScreen.js:34-38 | the clearing effect depends on `[cartCleared]`, and checkout always sends `cartCleared: true`, so after the first return the value no longer changes and the effect does not run again | two paid purchases in one session leave the second product in the home cart | every paid order empties the cart, for example by resetting the parameter with `navigation.setParams({ cartCleared: false })` in the effect | medium: relies on the home screen staying mounted under the stack, as it does when checkout navigates back to it; not executed | `Flow.RepeatPurchase` | `Flow.RepeatPurchaseWithReset` |

The checkout screen in this model keeps the pattern as written, because that is what the screen runs. `Checkout.IntendedPhoneIsNumeric` shows that switching `Checkout.CheckPayment` to `Checkout.MatchesIntendedPhone` would reject only numbers with `'|'` in the network position. Likewise `Flow.Purchase` and the home screen use the effect as written (`Home.HomeScreen.ReceiveCartCleared`); `Home.HomeScreen.ReceiveCartClearedAndReset` is the corrected effect.
