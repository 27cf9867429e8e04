/** Turning price labels into amounts: the cart screen's `calculateTotal`
    finds the leftmost match of the pattern `KES\s+(\d+)` in each label and
    adds the captured digits read in base 10; a label without a match adds 0. */
module Pricing {
  import opened Wrappers
  import opened Text
  import opened Catalog
  import opened Seqs

  /** The flat delivery fee shown by the cart and checkout screens. */
  const DeliveryFee: nat := 200

  /** The length of the longest run of characters satisfying `p` that starts
      at position `i` of `s`. */
  function Run(s: string, i: nat, p: char -> bool): (n: nat)
    requires i <= |s|
    ensures i + n <= |s|
    ensures forall k :: i <= k < i + n ==> p(s[k])
    ensures i + n == |s| || !p(s[i + n])
    decreases |s| - i
  {
    if i == |s| || !p(s[i]) then 0 else 1 + Run(s, i + 1, p)
  }

  /** The pattern matches starting at `i`: "KES", the whole run of white
      space after it (at least one character), then a digit. Backtracking
      into a shorter white-space run cannot help, because the next character
      would be white space rather than a digit. */
  predicate MatchesAt(s: string, i: nat)
    ensures MatchesAt(s, i) ==>
              i + 5 <= |s| && s[i..i + 3] == "KES" && IsSpace(s[i + 3])
    ensures i + 5 <= |s| && s[i..i + 3] == "KES" && IsSpace(s[i + 3]) && IsDigit(s[i + 4]) ==>
              MatchesAt(s, i)
  {
    i + 3 <= |s| && s[i..i + 3] == "KES" &&
    var w := Run(s, i + 3, IsSpace);
    w >= 1 && i + 3 + w < |s| && IsDigit(s[i + 3 + w])
  }

  /** Where the captured digits of a match at `i` start. */
  function DigitsStart(s: string, i: nat): (j: nat)
    requires MatchesAt(s, i)
    ensures i + 3 < j < |s| && IsDigit(s[j])
  {
    i + 3 + Run(s, i + 3, IsSpace)
  }

  /** Group 1 of a match at `i`: the longest run of digits (`\d+` is greedy). */
  function Captured(s: string, i: nat): (d: string)
    requires MatchesAt(s, i)
    ensures |d| >= 1 && AllDigits(d)
  {
    var j := DigitsStart(s, i);
    s[j..j + Run(s, j, IsDigit)]
  }

  /** The leftmost position at or after `i` where the pattern matches. */
  function FirstMatchFrom(s: string, i: nat): (r: Option<nat>)
    requires i <= |s|
    ensures r.Some? ==> i <= r.value <= |s| && MatchesAt(s, r.value)
    ensures r.Some? ==> forall j :: i <= j < r.value ==> !MatchesAt(s, j)
    ensures r.None? ==> forall j :: i <= j ==> !MatchesAt(s, j)
    decreases |s| - i
  {
    if MatchesAt(s, i) then Some(i)
    else if i == |s| then None
    else FirstMatchFrom(s, i + 1)
  }

  /** `price.match(/KES\s+(\d+)/)` followed by `parseInt` of group 1;
      `None` when the label does not match at all. */
  function ExtractPrice(display: string): (r: Option<nat>)
    ensures r.None? <==> forall i :: !MatchesAt(display, i)
  {
    match FirstMatchFrom(display, 0)
    case None => None
    case Some(i) => Some(DigitsValue(Captured(display, i)))
  }

  /** What one cart line adds to the subtotal. */
  function PriceOf(item: Product): (r: nat)
  {
    ExtractPrice(item.price).GetOr(0)
  }

  /** The subtotal of a list of cart lines. */
  function Subtotal(items: seq<Product>): (r: nat)
  {
    Sum(items, PriceOf)
  }

  /** `calculateTotal`: one pass over the lines, adding each matched price. */
  method CalculateTotal(items: seq<Product>) returns (total: nat)
    ensures total == Subtotal(items)
  {
    total := 0;
    for i := 0 to |items|
      invariant total == Subtotal(items[..i])
    {
      var priceMatch := ExtractPrice(items[i].price);
      if priceMatch.Some? {
        total := total + priceMatch.value;
      }
      assert total == Subtotal(items[..i]) + PriceOf(items[i]);
      SubtotalSnoc(items[..i], items[i]);
      assert items[..i] + [items[i]] == items[..i + 1];
    }
    assert items[..|items|] == items;
  }

  // ---- The regular-expression semantics, stated independently ----

  /** The pattern matches at `i` with `w` white-space characters and `d`
      digits, as the regular expression reads, without any greediness. */
  ghost predicate RegexMatch(s: string, i: nat, w: nat, d: nat) {
    w >= 1 && d >= 1 && i + 3 + w + d <= |s| && s[i..i + 3] == "KES" &&
    (forall k :: i + 3 <= k < i + 3 + w ==> IsSpace(s[k])) &&
    (forall k :: i + 3 + w <= k < i + 3 + w + d ==> IsDigit(s[k]))
  }

  /** A run of characters satisfying `p`, ended by the end of `s` or by a
      character that fails `p`, is the longest run there. */
  lemma RunExact(s: string, i: nat, p: char -> bool, n: nat)
    requires i + n <= |s|
    requires forall k :: i <= k < i + n ==> p(s[k])
    requires i + n == |s| || !p(s[i + n])
    ensures Run(s, i, p) == n
  {
  }

  /** Any run of characters satisfying `p` is no longer than the longest. */
  lemma RunAtLeast(s: string, i: nat, p: char -> bool, n: nat)
    requires i + n <= |s|
    requires forall k :: i <= k < i + n ==> p(s[k])
    ensures Run(s, i, p) >= n
  {
  }

  /** `MatchesAt` holds exactly where the regular expression can match, and
      the only white-space split that succeeds is the one `MatchesAt` uses;
      the captured group is the longest digit run after it. */
  lemma MatchesAtIsRegexMatch(s: string, i: nat)
    ensures MatchesAt(s, i) <==> exists w: nat, d: nat :: RegexMatch(s, i, w, d)
    ensures forall w: nat, d: nat :: RegexMatch(s, i, w, d) ==>
              MatchesAt(s, i) && i + 3 + w == DigitsStart(s, i) && d <= |Captured(s, i)|
  {
    if MatchesAt(s, i) {
      var w := Run(s, i + 3, IsSpace);
      assert RegexMatch(s, i, w, 1);
    }
    forall w: nat, d: nat | RegexMatch(s, i, w, d)
      ensures MatchesAt(s, i) && i + 3 + w == DigitsStart(s, i) && d <= |Captured(s, i)|
    {
      DigitIsNotSpace(s[i + 3 + w]);
      RunExact(s, i + 3, IsSpace, w);
      RunAtLeast(s, i + 3 + w, IsDigit, d);
    }
  }

  // ---- Properties of the subtotal ----

  /** Subtotals add up over concatenated carts. */
  lemma SubtotalAppend(a: seq<Product>, b: seq<Product>)
    ensures Subtotal(a + b) == Subtotal(a) + Subtotal(b)
  {
    SumAppend(a, b, PriceOf);
  }

  /** The subtotal is 0 exactly when no line carries a positive price. */
  lemma SubtotalZero(items: seq<Product>)
    ensures Subtotal(items) == 0 <==> forall p :: p in items ==> PriceOf(p) == 0
  {
    SumZero(items, PriceOf);
  }

  /** One more line adds exactly its own price. */
  lemma SubtotalSnoc(a: seq<Product>, x: Product)
    ensures Subtotal(a + [x]) == Subtotal(a) + PriceOf(x)
  {
    SumSnoc(a, x, PriceOf);
  }

  /** A line whose label has no price adds nothing and does not disturb the
      rest of the sum. */
  lemma UnpricedLineAddsNothing(a: seq<Product>, item: Product, b: seq<Product>)
    requires ExtractPrice(item.price).None?
    ensures Subtotal(a + [item] + b) == Subtotal(a + b)
  {
    SumAppend(a + [item], b, PriceOf);
    SumSnoc(a, item, PriceOf);
    SumAppend(a, b, PriceOf);
  }

  /** Taking one line out of a cart lowers its subtotal by that line's price. */
  lemma SubtotalRemoveAt(b: seq<Product>, j: nat)
    requires j < |b|
    ensures Subtotal(b) == PriceOf(b[j]) + Subtotal(b[..j] + b[j + 1..])
  {
    SumRemoveAt(b, j, PriceOf);
  }

  /** The subtotal does not depend on the order of the lines. */
  lemma SubtotalPermutation(a: seq<Product>, b: seq<Product>)
    requires multiset(a) == multiset(b)
    ensures Subtotal(a) == Subtotal(b)
  {
    SumPermutation(a, b, PriceOf);
  }

  // ---- Round trip from an entered price to the extracted amount ----

  /** A label "KES " followed by a run of digits and then anything that does
      not start with a digit (such as "/kg") yields those digits' value. */
  lemma LabelRoundTrip(digits: string, unit: string)
    requires |digits| >= 1 && AllDigits(digits)
    requires unit == [] || !IsDigit(unit[0])
    ensures ExtractPrice("KES " + digits + unit) == Some(DigitsValue(digits))
  {
    var s := "KES " + digits + unit;
    assert s[0..3] == "KES";
    assert s[3] == ' ' && s[4] == digits[0];
    DigitIsNotSpace(s[4]);
    assert Run(s, 4, IsSpace) == 0;
    assert Run(s, 3, IsSpace) == 1;
    assert MatchesAt(s, 0);
    forall k | 4 <= k < 4 + |digits| ensures IsDigit(s[k]) {
      assert s[k] == digits[k - 4];
    }
    if unit != [] {
      assert s[4 + |digits|] == unit[0];
    }
    RunExact(s, 4, IsDigit, |digits|);
    var m := |digits|;
    assert s[4..4 + m] == digits;
  }

  /** The catalog's "KES 120/kg" reads as 120. */
  lemma ExampleLabel120(display: string)
    requires display == "KES 120/kg"
    ensures ExtractPrice(display) == Some(120)
  {
    var digits, unit := "120", "/kg";
    assert display == "KES " + digits + unit;
    DigitsValue120(digits);
    LabelRoundTrip(digits, unit);
  }

  lemma DigitsValue120(d: string)
    requires d == "120"
    ensures AllDigits(d) && DigitsValue(d) == 120
  {
    DigitsValueSnoc([], '1');
    assert [] + ['1'] == "1";
    DigitsValueSnoc("1", '2');
    assert "1" + ['2'] == "12";
    DigitsValueSnoc("12", '0');
    assert "12" + ['0'] == d;
  }

  /** The catalog's "KES 80/kg" reads as 80. */
  lemma ExampleLabel80(display: string)
    requires display == "KES 80/kg"
    ensures ExtractPrice(display) == Some(80)
  {
    var digits, unit := "80", "/kg";
    assert display == "KES " + digits + unit;
    DigitsValue80(digits);
    LabelRoundTrip(digits, unit);
  }

  lemma DigitsValue80(d: string)
    requires d == "80"
    ensures AllDigits(d) && DigitsValue(d) == 80
  {
    DigitsValueSnoc([], '8');
    assert [] + ['8'] == "8";
    DigitsValueSnoc("8", '0');
    assert "8" + ['0'] == d;
  }

  /** Two lines priced "KES 120/kg" and "KES 80/kg": subtotal 200, total 400. */
  lemma TwoLineExample(a: Product, b: Product)
    requires a.price == "KES 120/kg" && b.price == "KES 80/kg"
    ensures Subtotal([a, b]) == 200 && Subtotal([a, b]) + DeliveryFee == 400
  {
    ExampleLabel120(a.price);
    ExampleLabel80(b.price);
    TwoLineSubtotal(a, b, 120, 80);
  }

  lemma TwoLineSubtotal(a: Product, b: Product, x: nat, y: nat)
    requires ExtractPrice(a.price) == Some(x) && ExtractPrice(b.price) == Some(y)
    ensures Subtotal([a, b]) == x + y
  {
    SumSnoc([a], b, PriceOf);
    SumSnoc([], a, PriceOf);
    assert [] + [a] == [a] && [a] + [b] == [a, b];
    assert PriceOf(a) == x && PriceOf(b) == y;
  }
}
