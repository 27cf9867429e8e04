/** The checkout screen: the M-Pesa phone-number pattern, the guard chain of
    `processPayment`, and the processing/complete state it drives. */
module Checkout {
  import opened Wrappers
  import opened Text
  import opened Catalog
  import opened Pricing

  // ---- The phone-number pattern ^(0|\+254|254)[7|1][0-9]{8}$ ----

  /** The alternatives of the leading group, in the order they are tried. */
  const Prefixes: seq<string> := ["0", "+254", "254"]

  predicate StartsWith(s: string, p: string) {
    |p| <= |s| && s[..|p|] == p
  }

  /** The character class `[7|1]` as written: inside brackets `|` is an
      ordinary character, so the class holds '7', '|' and '1'. */
  predicate InNetworkClass(c: char) {
    c == '7' || c == '|' || c == '1'
  }

  /** What must follow the prefix: one character of the class, then exactly
      eight ASCII digits, then the end of the string. */
  predicate NetworkAndSubscriber(t: string) {
    |t| == 9 && InNetworkClass(t[0]) && AllDigits(t[1..])
  }

  /** The anchored test `/^(0|\+254|254)[7|1][0-9]{8}$/.test(phone)`. */
  predicate MatchesPhonePattern(phone: string)
    ensures MatchesPhonePattern(phone) ==> |phone| == 10 || |phone| == 12 || |phone| == 13
  {
    exists k :: 0 <= k < |Prefixes| && StartsWith(phone, Prefixes[k])
                && NetworkAndSubscriber(phone[|Prefixes[k]|..])
  }

  /** Every number built from a prefix, a class character and eight digits
      is accepted. */
  lemma PhonePatternAccepts(k: nat, network: char, subscriber: string)
    requires k < |Prefixes| && InNetworkClass(network)
    requires |subscriber| == 8 && AllDigits(subscriber)
    ensures MatchesPhonePattern(Prefixes[k] + [network] + subscriber)
  {
    var phone := Prefixes[k] + [network] + subscriber;
    assert phone[..|Prefixes[k]|] == Prefixes[k];
    assert phone[|Prefixes[k]|..] == [network] + subscriber;
    assert ([network] + subscriber)[1..] == subscriber;
  }

  /** ...and nothing else is: an accepted number splits into exactly those
      parts, so it is 10, 12 or 13 characters long. */
  lemma PhonePatternShape(phone: string)
    requires MatchesPhonePattern(phone)
    ensures exists k :: 0 <= k < |Prefixes| &&
              phone == Prefixes[k] + [phone[|Prefixes[k]|]] + phone[|Prefixes[k]| + 1..] &&
              InNetworkClass(phone[|Prefixes[k]|]) && AllDigits(phone[|Prefixes[k]| + 1..]) &&
              |phone[|Prefixes[k]| + 1..]| == 8
    ensures |phone| == 10 || |phone| == 12 || |phone| == 13
  {
    var k :| 0 <= k < |Prefixes| && StartsWith(phone, Prefixes[k])
             && NetworkAndSubscriber(phone[|Prefixes[k]|..]);
    var n := |Prefixes[k]|;
    assert phone == phone[..n] + [phone[n]] + phone[n + 1..];
    assert phone[n..][1..] == phone[n + 1..];
  }

  /** A Safaricom number in local form is accepted. */
  lemma AcceptsLocalNumber(phone: string)
    requires phone == "0712345678"
    ensures MatchesPhonePattern(phone)
  {
    assert phone == Prefixes[0] + ['7'] + "12345678";
    PhonePatternAccepts(0, '7', "12345678");
  }

  /** The same number with the international prefix is accepted. */
  lemma AcceptsInternationalNumber(phone: string)
    requires phone == "+254712345678"
    ensures MatchesPhonePattern(phone)
  {
    assert phone == Prefixes[1] + ['7'] + "12345678";
    PhonePatternAccepts(1, '7', "12345678");
  }

  /** An Airtel number with the bare country code is accepted. */
  lemma AcceptsCountryCodeNumber(phone: string)
    requires phone == "254112345678"
    ensures MatchesPhonePattern(phone)
  {
    assert phone == Prefixes[2] + ['1'] + "12345678";
    PhonePatternAccepts(2, '1', "12345678");
  }

  /** A five-digit string is refused. */
  lemma RejectsShortNumber(phone: string)
    requires phone == "12345"
    ensures !MatchesPhonePattern(phone)
  {
  }

  /** Network digit 8 is outside the class. */
  lemma RejectsOtherNetwork(phone: string)
    requires phone == "0812345678"
    ensures !MatchesPhonePattern(phone)
  {
  }

  // ---- The intended pattern ^(0|\+254|254)[71][0-9]{8}$ ----

  /** The class as evidently meant: a Safaricom/Airtel network digit, 7 or 1. */
  predicate IsNetworkDigit(c: char) {
    c == '7' || c == '1'
  }

  predicate MatchesIntendedPhone(phone: string) {
    exists k :: 0 <= k < |Prefixes| && StartsWith(phone, Prefixes[k])
                && |phone| == |Prefixes[k]| + 9 && IsNetworkDigit(phone[|Prefixes[k]|])
                && AllDigits(phone[|Prefixes[k]| + 1..])
  }

  /** Under the intended pattern everything after the prefix is a digit, and
      the written pattern accepts exactly the intended numbers plus those
      whose network character is '|'. */
  lemma IntendedPhoneIsNumeric(phone: string)
    ensures MatchesIntendedPhone(phone) ==>
              exists k :: 0 <= k < |Prefixes| && StartsWith(phone, Prefixes[k]) &&
                AllDigits(phone[|Prefixes[k]|..])
    ensures MatchesIntendedPhone(phone) ==> MatchesPhonePattern(phone)
    ensures MatchesPhonePattern(phone) && !MatchesIntendedPhone(phone) ==>
              exists k :: 0 <= k < |Prefixes| && StartsWith(phone, Prefixes[k]) &&
                |Prefixes[k]| < |phone| && phone[|Prefixes[k]|] == '|'
  {
    if MatchesIntendedPhone(phone) {
      var k :| 0 <= k < |Prefixes| && StartsWith(phone, Prefixes[k])
               && |phone| == |Prefixes[k]| + 9 && IsNetworkDigit(phone[|Prefixes[k]|])
               && AllDigits(phone[|Prefixes[k]| + 1..]);
      var n := |Prefixes[k]|;
      assert phone[n..][1..] == phone[n + 1..];
      assert forall i :: 0 <= i < 9 ==> phone[n..][i] == phone[n + i];
      assert NetworkAndSubscriber(phone[n..]);
    }
    if MatchesPhonePattern(phone) && !MatchesIntendedPhone(phone) {
      var k :| 0 <= k < |Prefixes| && StartsWith(phone, Prefixes[k])
               && NetworkAndSubscriber(phone[|Prefixes[k]|..]);
      var n := |Prefixes[k]|;
      assert phone[n..][1..] == phone[n + 1..];
      assert phone[n..][0] == phone[n];
    }
  }

  /** The discrepancy: a number with '|' in the network position passes the
      written pattern but not the intended one. */
  lemma PipeAcceptedAsNetworkDigit()
    ensures MatchesPhonePattern("0|12345678")
    ensures !MatchesIntendedPhone("0|12345678")
  {
    assert "0|12345678" == Prefixes[0] + ['|'] + "12345678";
    PhonePatternAccepts(0, '|', "12345678");
  }

  // ---- processPayment ----

  /** Which branch of `processPayment` is taken. */
  datatype PaymentCheck = FillRequiredFields | InvalidPhone | StartProcessing

  /** The guard chain: empty phone or address first (a string is empty only
      when it has no characters at all), then the phone pattern. The
      additional-information field takes no part. */
  function CheckPayment(phone: string, deliveryAddress: string): (r: PaymentCheck)
    ensures r == FillRequiredFields <==> phone == [] || deliveryAddress == []
    ensures r == InvalidPhone <==>
              phone != [] && deliveryAddress != [] && !MatchesPhonePattern(phone)
    ensures r == StartProcessing <==>
              phone != [] && deliveryAddress != [] && MatchesPhonePattern(phone)
  {
    if phone == [] || deliveryAddress == [] then FillRequiredFields
    else if !MatchesPhonePattern(phone) then InvalidPhone
    else StartProcessing
  }

  /** A white-space-only address is not empty, so it passes the first guard. */
  lemma BlankAddressPasses(phone: string)
    requires phone == "0712345678"
    ensures CheckPayment(phone, " ") == StartProcessing
  {
    AcceptsLocalNumber(phone);
  }

  /** The route parameters the cart screen passes; either may be absent. */
  datatype CheckoutParams = CheckoutParams(cartItems: Option<seq<Product>>, totalAmount: Option<nat>)

  /** Where the screen sends the user after a successful payment: the home
      screen, told to clear its cart. */
  datatype HomeReturn = HomeReturn(cartCleared: bool)

  class CheckoutScreen {
    const cartItems: seq<Product>
    const totalAmount: nat
    var phone: string
    var deliveryAddress: string
    var additionalInfo: string
    var isProcessing: bool
    var isComplete: bool

    /** `route.params || {}` with defaults `cartItems = []`, `totalAmount = 0`. */
    constructor (params: Option<CheckoutParams>)
      ensures cartItems == (if params.Some? then params.value.cartItems.GetOr([]) else [])
      ensures totalAmount == (if params.Some? then params.value.totalAmount.GetOr(0) else 0)
      ensures phone == deliveryAddress == additionalInfo == []
      ensures !isProcessing && !isComplete
    {
      match params {
        case None =>
          cartItems, totalAmount := [], 0;
        case Some(p) =>
          cartItems, totalAmount := p.cartItems.GetOr([]), p.totalAmount.GetOr(0);
      }
      phone, deliveryAddress, additionalInfo := [], [], [];
      isProcessing, isComplete := false, false;
    }

    /** The total line of the order summary. */
    function DisplayedTotal(): (total: nat)
      reads this
      ensures total >= DeliveryFee
    {
      totalAmount + DeliveryFee
    }

    /** The three text inputs' change handlers. */
    method EditForm(phone': string, deliveryAddress': string, additionalInfo': string)
      modifies this
      ensures phone == phone' && deliveryAddress == deliveryAddress'
      ensures additionalInfo == additionalInfo'
      ensures isProcessing == old(isProcessing) && isComplete == old(isComplete)
    {
      phone, deliveryAddress, additionalInfo := phone', deliveryAddress', additionalInfo';
    }

    /** `processPayment`. The pay button is disabled while processing, and the
        form is replaced by the success view once complete, so it is only
        pressed while editing. A failed check shows an alert and changes
        nothing; a passed one starts processing. */
    method ProcessPayment() returns (check: PaymentCheck)
      requires !isProcessing && !isComplete
      modifies this
      ensures check == CheckPayment(phone, deliveryAddress)
      ensures isProcessing <==> check == StartProcessing
      ensures !isComplete
      ensures phone == old(phone) && deliveryAddress == old(deliveryAddress)
      ensures additionalInfo == old(additionalInfo)
    {
      if phone == [] || deliveryAddress == [] {
        return FillRequiredFields;
      }
      if !MatchesPhonePattern(phone) {
        return InvalidPhone;
      }
      isProcessing := true;
      return StartProcessing;
    }

    /** The simulated payment delay elapsing: processing ends, the order is
        complete, and confirming the success alert returns to the home
        screen with the cart cleared. */
    method CompletePayment() returns (next: HomeReturn)
      requires isProcessing
      modifies this
      ensures !isProcessing && isComplete
      ensures next.cartCleared
      ensures phone == old(phone) && deliveryAddress == old(deliveryAddress)
      ensures additionalInfo == old(additionalInfo)
    {
      isProcessing, isComplete := false, true;
      next := HomeReturn(true);
    }

    /** The success view's "Continue Shopping" button. */
    method ContinueShopping() returns (next: HomeReturn)
      requires isComplete
      ensures next.cartCleared
    {
      next := HomeReturn(true);
    }
  }
}
