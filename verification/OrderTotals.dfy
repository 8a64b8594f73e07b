/**
 Order totals in exact arithmetic.  The source computes in floating point; here
 every amount is a real number and only round2 rounds.
 */
module OrderTotals {
  import opened Prelude

  type ProductId = nat

  datatype CartItem = CartItem(product: ProductId, quantity: int)

  /** What the store sells a product for, and whether it is available now. */
  datatype Offer = Offer(price: real, available: bool)

  datatype Item = Item(product: ProductId, quantity: int, unitPrice: real, lineTotal: real)

  datatype Totals = Totals(subtotal: real, discount: real, tax: real, total: real)

  const VAT := 0.16

  /** int() truncates toward zero. */
  function Truncate(v: real): int {
    if v >= 0.0 then v.Floor else -((-v).Floor)
  }

  function Round2(v: real): real {
    Truncate(v * 100.0 + 0.5) as real / 100.0
  }

  predicate ItemOk(offers: map<ProductId, Offer>, i: CartItem) {
    i.quantity > 0 && i.product in offers && offers[i.product].available
  }

  function LineTotal(offers: map<ProductId, Offer>, i: CartItem): real
    requires i.product in offers
  {
    offers[i.product].price * i.quantity as real
  }

  function Subtotal(offers: map<ProductId, Offer>, items: seq<CartItem>): real
    requires forall i :: 0 <= i < |items| ==> ItemOk(offers, items[i])
  {
    if items == [] then 0.0
    else
      assert ItemOk(offers, items[|items| - 1]);
      Subtotal(offers, items[..|items| - 1]) + LineTotal(offers, items[|items| - 1])
  }

  function TotalsOf(subtotal: real, requested: real): Totals {
    var discount := if requested < 0.0 then 0.0 else requested;
    var taxable := if subtotal - discount < 0.0 then 0.0 else subtotal - discount;
    Totals(Round2(subtotal), Round2(discount), Round2(taxable * VAT), Round2(taxable + taxable * VAT))
  }

  datatype CartError = EmptyCart | BadQuantity(index: nat) | NotFound(index: nat) | Unavailable(index: nat)

  function ItemError(offers: map<ProductId, Offer>, i: CartItem, index: nat): Option<CartError> {
    if i.quantity <= 0 then Some(BadQuantity(index))
    else if i.product !in offers then Some(NotFound(index))
    else if !offers[i.product].available then Some(Unavailable(index))
    else None
  }

  /** What is wrong with the first bad line. */
  function FirstBad(offers: map<ProductId, Offer>, items: seq<CartItem>): Option<CartError> {
    if items == [] then None
    else
      var n := |items| - 1;
      var earlier := FirstBad(offers, items[..n]);
      if earlier.Some? then earlier else ItemError(offers, items[n], n)
  }

  /** The error is about the first line that cannot be sold, and says why. */
  ghost predicate ErrorIs(error: CartError, offers: map<ProductId, Offer>, items: seq<CartItem>) {
    match error
    case EmptyCart => items == []
    case BadQuantity(n) => FirstAt(offers, items, n) && items[n].quantity <= 0
    case NotFound(n) => FirstAt(offers, items, n) && items[n].quantity > 0 && items[n].product !in offers
    case Unavailable(n) =>
      FirstAt(offers, items, n) && items[n].quantity > 0 && items[n].product in offers
        && !offers[items[n].product].available
  }

  ghost predicate FirstAt(offers: map<ProductId, Offer>, items: seq<CartItem>, n: nat) {
    n < |items| && forall j :: 0 <= j < n ==>
      items[j].quantity > 0 && items[j].product in offers && offers[items[j].product].available
  }

  lemma {:induction false} NoBadLine(offers: map<ProductId, Offer>, items: seq<CartItem>)
    ensures FirstBad(offers, items).None? <==> forall i :: 0 <= i < |items| ==> ItemOk(offers, items[i])
    decreases |items|
  {
    if items != [] {
      NoBadLine(offers, items[..|items| - 1]);
    }
  }

  lemma {:induction false} FirstBadStays(offers: map<ProductId, Offer>, items: seq<CartItem>, n: nat)
    requires n <= |items| && FirstBad(offers, items[..n]).Some?
    ensures FirstBad(offers, items) == FirstBad(offers, items[..n])
    decreases |items| - n
  {
    if n < |items| {
      assert items[..n + 1][..n] == items[..n];
      FirstBadStays(offers, items, n + 1);
    } else {
      assert items[..n] == items;
    }
  }

  function Line(offers: map<ProductId, Offer>, i: CartItem): Item
    requires i.product in offers
  {
    Item(i.product, i.quantity, offers[i.product].price, LineTotal(offers, i))
  }

  function Lines(offers: map<ProductId, Offer>, items: seq<CartItem>): (lines: seq<Item>)
    requires forall i :: 0 <= i < |items| ==> ItemOk(offers, items[i])
    ensures |lines| == |items| && forall i :: 0 <= i < |items| ==>
              ItemOk(offers, items[i]) && lines[i] == Line(offers, items[i])
  {
    seq(|items|, i requires 0 <= i < |items| && ItemOk(offers, items[i]) => Line(offers, items[i]))
  }

  /** The item loop and the totals of PlaceOrder; the first bad line stops it. */
  method BuildOrder(offers: map<ProductId, Offer>, items: seq<CartItem>, requested: real)
    returns (result: Result<(seq<Item>, Totals), CartError>)
    ensures items == [] ==> result == Err(EmptyCart)
    ensures items != [] ==> (result.Ok? <==> forall i :: 0 <= i < |items| ==> ItemOk(offers, items[i]))
    ensures items != [] && result.Err? ==> FirstBad(offers, items) == Some(result.error)
    ensures result.Ok? ==> result.value == (Lines(offers, items), TotalsOf(Subtotal(offers, items), requested))
    ensures items != [] ==>
              (result.Ok? <==> forall i :: i in items ==>
                 i.quantity > 0 && i.product in offers && offers[i.product].available)
    ensures result.Ok? ==>
              && |result.value.0| == |items|
              && forall i :: 0 <= i < |items| ==>
                   && items[i].product in offers
                   && var price := offers[items[i].product].price;
                   && result.value.0[i] == Item(items[i].product, items[i].quantity, price,
                                                price * items[i].quantity as real)
    ensures result.Err? ==> ErrorIs(result.error, offers, items)
  {
    if items == [] {
      return Err(EmptyCart);
    }
    var lines: seq<Item> := [];
    var subtotal := 0.0;
    var i := 0;
    while i < |items|
      invariant 0 <= i == |lines| <= |items|
      invariant forall j :: 0 <= j < i ==> ItemOk(offers, items[j])
      invariant FirstBad(offers, items[..i]).None?
      invariant forall j :: 0 <= j < i ==>
                  lines[j] == Line(offers, items[j])
      invariant subtotal == Subtotal(offers, items[..i])
    {
      var item := items[i];
      assert items[..i + 1][..i] == items[..i];
      if ItemError(offers, item, i).Some? {
        FirstBadStays(offers, items, i + 1);
      }
      if item.quantity <= 0 {
        return Err(BadQuantity(i));
      }
      if item.product !in offers {
        return Err(NotFound(i));
      }
      if !offers[item.product].available {
        return Err(Unavailable(i));
      }
      var price := offers[item.product].price;
      var lineTotal := price * item.quantity as real;
      subtotal := subtotal + lineTotal;
      lines := lines + [Item(item.product, item.quantity, price, lineTotal)];
      i := i + 1;
    }
    assert items[..i] == items;
    var discount := requested;
    if discount < 0.0 {
      discount := 0.0;
    }
    var taxable := subtotal - discount;
    if taxable < 0.0 {
      taxable := 0.0;
    }
    var tax := taxable * VAT;
    assert lines == Lines(offers, items);
    return Ok((lines, Totals(Round2(subtotal), Round2(discount), Round2(tax), Round2(taxable + tax))));
  }

  // ----- what the totals are -------------------------------------------------

  /** Round2 is the nearest hundredth, upwards from a half; below zero, truncation adds up to a hundredth more. */
  lemma Round2Means(v: real) returns (cents: int)
    ensures Round2(v) == cents as real / 100.0
    ensures v >= 0.0 ==> -0.005 < cents as real / 100.0 - v <= 0.005
    ensures v <= -0.005 ==> 0.005 <= cents as real / 100.0 - v < 0.015
    ensures -0.015 < v < 0.005 ==> cents == 0
  {
    cents := Truncate(v * 100.0 + 0.5);
  }

  /** For every subtotal and discount: what is rounded, each amount by itself. */
  lemma TotalsMean(subtotal: real, requested: real)
    ensures var t := TotalsOf(subtotal, requested);
            && t.subtotal == Round2(subtotal)
            && t.discount == (if requested > 0.0 then Round2(requested) else 0.0)
            && (subtotal > requested && requested > 0.0 ==>
                  && t.tax == Round2(0.16 * (subtotal - requested))
                  && t.total == Round2(1.16 * (subtotal - requested)))
            && (subtotal > 0.0 && requested <= 0.0 ==>
                  t.tax == Round2(0.16 * subtotal) && t.total == Round2(1.16 * subtotal))
            && (subtotal <= requested || subtotal <= 0.0 ==> t.tax == t.total == 0.0)
  {
    assert Round2(0.0) == 0.0;
  }

  /** The subtotal is the sum of price times quantity over the lines. */
  lemma SubtotalMeans(offers: map<ProductId, Offer>, items: seq<CartItem>, more: CartItem)
    requires (forall i :: 0 <= i < |items| ==> ItemOk(offers, items[i])) && ItemOk(offers, more)
    ensures Subtotal(offers, []) == 0.0
    ensures Subtotal(offers, items + [more])
            == Subtotal(offers, items) + offers[more.product].price * more.quantity as real
  {
    assert (items + [more])[..|items|] == items;
  }

  // ----- whole cents ---------------------------------------------------------

  /** `v` is `cents` hundredths. */
  predicate IsCents(v: real, cents: int) {
    v == cents as real / 100.0
  }

  lemma RoundKeepsCents(v: real, cents: nat)
    requires IsCents(v, cents)
    ensures Round2(v) == v
  {
    assert v * 100.0 == cents as real;
    assert (cents as real + 0.5).Floor == cents;
  }

  /** The tax on `taxable` cents, in cents: 16 percent rounded half up. */
  function TaxCents(taxable: nat): nat {
    (16 * taxable + 50) / 100
  }

  lemma TaxCentsMonotone(taxable: nat, more: nat)
    requires taxable <= more
    ensures TaxCents(taxable) <= TaxCents(more)
  {
  }

  lemma TaxRounds(taxable: nat)
    ensures Round2(taxable as real / 100.0 * VAT) == TaxCents(taxable) as real / 100.0
    ensures Round2(taxable as real / 100.0 + taxable as real / 100.0 * VAT)
            == (taxable + TaxCents(taxable)) as real / 100.0
  {
    var c := taxable as real;
    var t := TaxCents(taxable);
    assert c / 100.0 * VAT * 100.0 + 0.5 == (16 * taxable + 50) as real / 100.0;
    assert t as real <= (16 * taxable + 50) as real / 100.0 < t as real + 1.0;
    assert ((16 * taxable + 50) as real / 100.0).Floor == t;
    assert (c / 100.0 + c / 100.0 * VAT) * 100.0 + 0.5 == c + (16 * taxable + 50) as real / 100.0;
    assert (c + (16 * taxable + 50) as real / 100.0).Floor == taxable + t;
  }

  /** Subtotal and discount in cents; what PlaceOrder then reports. */
  lemma TotalsInCents(subtotal: nat, discount: int)
    ensures var taxable := if subtotal < discount then 0 else if discount < 0 then subtotal else subtotal - discount;
            var kept := if discount < 0 then 0 else discount;
            TotalsOf(subtotal as real / 100.0, discount as real / 100.0) ==
              Totals(subtotal as real / 100.0, kept as real / 100.0, TaxCents(taxable) as real / 100.0,
                     (taxable + TaxCents(taxable)) as real / 100.0)
  {
    var kept := if discount < 0 then 0 else discount;
    var taxable := if subtotal < discount then 0 else if discount < 0 then subtotal else subtotal - discount;
    RoundKeepsCents(subtotal as real / 100.0, subtotal);
    RoundKeepsCents(kept as real / 100.0, kept);
    assert subtotal as real / 100.0 - kept as real / 100.0 == (subtotal - kept) as real / 100.0;
    TaxRounds(taxable);
  }

  /** The totals add up exactly when the discount, which is clamped at zero, does not exceed the subtotal. */
  lemma TotalsAddUp(subtotal: nat, discount: int)
    ensures var t := TotalsOf(subtotal as real / 100.0, discount as real / 100.0);
            t.total == t.subtotal - t.discount + t.tax <==> discount <= subtotal
  {
    TotalsInCents(subtotal, discount);
    var kept := if discount < 0 then 0 else discount;
    if discount <= subtotal {
      var taxable := subtotal - kept;
      assert (taxable + TaxCents(taxable)) as real / 100.0
             == subtotal as real / 100.0 - kept as real / 100.0 + TaxCents(taxable) as real / 100.0;
    } else {
      assert TaxCents(0) == 0;
      assert subtotal as real / 100.0 - discount as real / 100.0 < 0.0;
    }
  }

  /** Tax is within half a cent of 16 percent of what is taxed. */
  lemma TaxIsWithinHalfACent(subtotal: nat, discount: int)
    requires discount <= subtotal
    ensures var t := TotalsOf(subtotal as real / 100.0, discount as real / 100.0);
            -0.005 <= t.tax - 0.16 * (t.subtotal - t.discount) <= 0.005
  {
    TotalsInCents(subtotal, discount);
    var kept := if discount < 0 then 0 else discount;
    var taxable := subtotal - kept;
    var t := TaxCents(taxable);
    assert 100 * t <= 16 * taxable + 50 < 100 * t + 100;
    assert subtotal as real / 100.0 - kept as real / 100.0 == taxable as real / 100.0;
    assert t as real / 100.0 - 0.16 * (taxable as real / 100.0) == (100 * t - 16 * taxable) as real / 10000.0;
  }

  /** A higher subtotal never lowers the total and a higher discount never raises it. */
  lemma TotalIsMonotone(subtotal: nat, more: nat, discount: int, less: int)
    requires subtotal <= more && less <= discount
    ensures TotalsOf(subtotal as real / 100.0, discount as real / 100.0).total
              <= TotalsOf(more as real / 100.0, less as real / 100.0).total
  {
    var low := if subtotal < discount then 0 else if discount < 0 then subtotal else subtotal - discount;
    var high := if more < less then 0 else if less < 0 then more else more - less;
    TotalsInCents(subtotal, discount);
    TotalsInCents(more, less);
    TaxCentsMonotone(low, high);
    assert TotalsOf(subtotal as real / 100.0, discount as real / 100.0).total == (low + TaxCents(low)) as real / 100.0;
    assert TotalsOf(more as real / 100.0, less as real / 100.0).total == (high + TaxCents(high)) as real / 100.0;
  }

  /** Prices in whole cents give a subtotal in whole cents, and adding lines never lowers it. */
  lemma {:induction false} SubtotalInCents(offers: map<ProductId, Offer>, items: seq<CartItem>,
                                           prices: map<ProductId, nat>)
    returns (cents: nat)
    requires forall i :: 0 <= i < |items| ==> ItemOk(offers, items[i])
    requires forall p :: p in offers ==> p in prices && IsCents(offers[p].price, prices[p])
    ensures IsCents(Subtotal(offers, items), cents)
    decreases |items|
  {
    if items == [] {
      cents := 0;
    } else {
      var rest := SubtotalInCents(offers, items[..|items| - 1], prices);
      var last := items[|items| - 1];
      cents := rest + prices[last.product] * last.quantity;
      assert prices[last.product] as real / 100.0 * last.quantity as real
             == (prices[last.product] * last.quantity) as real / 100.0;
    }
  }

  /** For a cart of whole-cent prices: adding a line, or asking a smaller discount, never lowers the total. */
  lemma AddingALineNeverLowersTheTotal(offers: map<ProductId, Offer>, items: seq<CartItem>, line: CartItem,
                                       prices: map<ProductId, nat>, discount: int, less: int)
    requires forall i :: 0 <= i < |items| ==> ItemOk(offers, items[i])
    requires ItemOk(offers, line) && less <= discount
    requires forall p :: p in offers ==> p in prices && IsCents(offers[p].price, prices[p])
    ensures TotalsOf(Subtotal(offers, items), discount as real / 100.0).total
              <= TotalsOf(Subtotal(offers, items + [line]), less as real / 100.0).total
  {
    var all := items + [line];
    assert all[..|all| - 1] == items;
    var cents := SubtotalInCents(offers, items, prices);
    var more := cents + prices[line.product] * line.quantity;
    assert prices[line.product] as real / 100.0 * line.quantity as real
           == (prices[line.product] * line.quantity) as real / 100.0;
    assert Subtotal(offers, all) == more as real / 100.0;
    TotalIsMonotone(cents, more, discount, less);
  }

  /** The whole contract for a cart of whole-cent prices and a whole-cent discount, which may be negative. */
  lemma CartTotalsAddUp(offers: map<ProductId, Offer>, items: seq<CartItem>, prices: map<ProductId, nat>, discount: int)
    requires forall i :: 0 <= i < |items| ==> ItemOk(offers, items[i])
    requires forall p :: p in offers ==> p in prices && IsCents(offers[p].price, prices[p])
    ensures var subtotal := Subtotal(offers, items);
            var t := TotalsOf(subtotal, discount as real / 100.0);
            && t.subtotal == subtotal && t.discount == (if discount < 0 then 0 else discount) as real / 100.0
            && (t.total == t.subtotal - t.discount + t.tax <==> discount as real / 100.0 <= subtotal)
            && (discount as real / 100.0 <= subtotal ==> -0.005 <= t.tax - 0.16 * (t.subtotal - t.discount) <= 0.005)
  {
    var cents := SubtotalInCents(offers, items, prices);
    assert discount as real / 100.0 <= cents as real / 100.0 <==> discount <= cents;
    TotalsInCents(cents, discount);
    TotalsAddUp(cents, discount);
    if discount <= cents {
      TaxIsWithinHalfACent(cents, discount);
    }
  }

  // ----- what a stored order shows -------------------------------------------

  function LineSum(lines: seq<Item>): real {
    if lines == [] then 0.0 else LineSum(lines[..|lines| - 1]) + lines[|lines| - 1].lineTotal
  }

  predicate LineOk(line: Item) {
    line.quantity > 0 && line.lineTotal == line.unitPrice * line.quantity as real
  }

  /** The lines are sound and the totals are those of the lines, for some requested discount. */
  ghost predicate Consistent(lines: seq<Item>, totals: Totals) {
    && lines != [] && (forall i :: 0 <= i < |lines| ==> LineOk(lines[i]))
    && exists discount :: totals == TotalsOf(LineSum(lines), discount)
  }

  lemma {:induction false} LinesAddUp(offers: map<ProductId, Offer>, items: seq<CartItem>)
    requires forall i :: 0 <= i < |items| ==> ItemOk(offers, items[i])
    ensures LineSum(Lines(offers, items)) == Subtotal(offers, items)
    decreases |items|
  {
    if items != [] {
      var n := |items| - 1;
      LinesAddUp(offers, items[..n]);
      assert Lines(offers, items)[..n] == Lines(offers, items[..n]);
    }
  }

  lemma LineIsOk(offers: map<ProductId, Offer>, i: CartItem)
    requires ItemOk(offers, i)
    ensures LineOk(Line(offers, i))
  {
  }

  lemma BuiltIsConsistent(offers: map<ProductId, Offer>, items: seq<CartItem>, requested: real)
    requires items != [] && forall i :: 0 <= i < |items| ==> ItemOk(offers, items[i])
    ensures Consistent(Lines(offers, items), TotalsOf(Subtotal(offers, items), requested))
  {
    hide TotalsOf, Subtotal, LineSum, LineOk, Line;
    LinesAddUp(offers, items);
    forall i | 0 <= i < |items| ensures LineOk(Lines(offers, items)[i]) {
      LineIsOk(offers, items[i]);
    }
    assert TotalsOf(Subtotal(offers, items), requested) == TotalsOf(LineSum(Lines(offers, items)), requested);
  }
}
