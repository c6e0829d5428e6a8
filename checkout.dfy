// The checkout page (pages/Checkout.tsx): the totals derived from the cart,
// the order payload handed to the order sink, and the three-step wizard.

module Checkout {
  import opened Types
  import Strings
  import Cart

  const FreeShippingThreshold: real := 200.0
  const FlatShipping: real := 15.0
  const FallbackTaxRate: real := 0.0825

  // ------------------------------------------------------------------ totals

  function LineTotal(l: CartLine): real
  {
    l.product.price * l.quantity as real
  }

  /** The cart's reduce: the sum of price times quantity over the lines. */
  function Subtotal(cart: seq<CartLine>): real
  {
    if cart == [] then 0.0 else LineTotal(cart[0]) + Subtotal(cart[1..])
  }

  /** Free shipping strictly above the threshold, a flat fee otherwise. */
  function ShippingCost(subtotal: real): (r: real)
    ensures r == 0.0 <==> subtotal > FreeShippingThreshold
    ensures r == 0.0 || r == FlatShipping
  {
    if subtotal > FreeShippingThreshold then 0.0 else FlatShipping
  }

  /** `TAX_RATES[country] || 0.0825`: the table's rate unless it is missing or zero. */
  function TaxRate(rates: TaxRates, country: string): (r: real)
    ensures country in rates && rates[country] != 0.0 ==> r == rates[country]
    ensures country !in rates || rates[country] == 0.0 ==> r == FallbackTaxRate
    ensures r != 0.0
  {
    if country in rates && rates[country] != 0.0 then rates[country] else FallbackTaxRate
  }

  datatype Totals = Totals(subtotal: real, shipping: real, tax: real, total: real)

  /** The shipping/tax/total effect for a given subtotal and rate; nothing is rounded. */
  function TotalsFor(subtotal: real, rate: real): Totals
  {
    var shipping := ShippingCost(subtotal);
    var tax := subtotal * rate;
    Totals(subtotal, shipping, tax, subtotal + shipping + tax)
  }

  function ComputeTotals(cart: seq<CartLine>, rates: TaxRates, country: string): Totals
  {
    TotalsFor(Subtotal(cart), TaxRate(rates, country))
  }

  /** The total is the subtotal, plus shipping of 0 or 15, plus the unrounded tax at the effective rate. */
  lemma TotalsSpec(cart: seq<CartLine>, rates: TaxRates, country: string)
    ensures var t := ComputeTotals(cart, rates, country);
      && t.subtotal == Subtotal(cart)
      && (t.shipping == 0.0 <==> t.subtotal > FreeShippingThreshold)
      && (t.shipping == 0.0 || t.shipping == FlatShipping)
      && t.tax == t.subtotal * TaxRate(rates, country)
      && t.total == t.subtotal + t.shipping + t.tax
  {
  }

  /** For a non-negative subtotal and rate, the total lies between the taxed subtotal and that plus the flat fee. */
  lemma TotalBounds(subtotal: real, rate: real)
    requires subtotal >= 0.0 && rate >= 0.0
    ensures subtotal <= TotalsFor(subtotal, rate).total
    ensures subtotal * (1.0 + rate) <= TotalsFor(subtotal, rate).total <= subtotal * (1.0 + rate) + FlatShipping
    ensures subtotal > FreeShippingThreshold ==> TotalsFor(subtotal, rate).total == subtotal * (1.0 + rate)
  {
  }

  /**
   * Crossing the free-shipping line lowers the total whenever the extra goods, taxed,
   * cost less than the flat fee saved.
   */
  lemma ThresholdLowersTotal(s: real, s2: real, rate: real)
    requires 0.0 <= s <= FreeShippingThreshold < s2 && rate >= 0.0
    requires (s2 - s) * (1.0 + rate) < FlatShipping
    ensures TotalsFor(s2, rate).total < TotalsFor(s, rate).total
  {
    assert TotalsFor(s2, rate).total - TotalsFor(s, rate).total == (s2 - s) * (1.0 + rate) - FlatShipping;
  }

  lemma {:induction false} SubtotalAppend(cart: seq<CartLine>, l: CartLine)
    ensures Subtotal(cart + [l]) == Subtotal(cart) + LineTotal(l)
  {
    if cart != [] {
      assert (cart + [l])[1..] == cart[1..] + [l];
      SubtotalAppend(cart[1..], l);
    }
  }

  lemma {:induction false} SubtotalReplace(cart: seq<CartLine>, i: nat, l: CartLine)
    requires i < |cart|
    ensures Subtotal(cart[i := l]) == Subtotal(cart) - LineTotal(cart[i]) + LineTotal(l)
  {
    if i > 0 {
      assert cart[i := l][1..] == cart[1..][i - 1 := l];
      SubtotalReplace(cart[1..], i - 1, l);
    }
  }

  /** An add raises the subtotal by one unit price: the new product's, or the merged line's own snapshot. */
  lemma SubtotalAfterAdd(cart: seq<CartLine>, product: Product, size: Size, color: string)
    ensures var k := Cart.FindLine(cart, product.id, size, color);
      Subtotal(Cart.Added(cart, product, size, color))
        == Subtotal(cart) + (if k.Some? then cart[k.value].product.price else product.price)
  {
    match Cart.FindLine(cart, product.id, size, color)
    case Some(k) =>
      var l := cart[k].(quantity := cart[k].quantity + 1);
      SubtotalReplace(cart, k, l);
      assert LineTotal(l) == LineTotal(cart[k]) + cart[k].product.price;
    case None =>
      SubtotalAppend(cart, CartLine(product, 1, size, color));
  }

  /** With non-negative prices and quantities the subtotal is non-negative. */
  lemma {:induction false} SubtotalNonNegative(cart: seq<CartLine>)
    requires forall i :: 0 <= i < |cart| ==> cart[i].product.price >= 0.0 && cart[i].quantity >= 0
    ensures Subtotal(cart) >= 0.0
  {
    if cart != [] {
      SubtotalNonNegative(cart[1..]);
    }
  }

  /** An empty cart still pays the flat shipping fee and nothing else. */
  lemma EmptyCartTotals(rates: TaxRates, country: string)
    ensures ComputeTotals([], rates, country) == Totals(0.0, FlatShipping, 0.0, FlatShipping)
  {
  }

  /** Subtotal 270 at the fallback rate: free shipping, tax 22.275 with no rounding, total 292.275. */
  lemma FallbackRateExample()
    ensures TotalsFor(270.0, FallbackTaxRate) == Totals(270.0, 0.0, 22.275, 292.275)
    ensures ToCents(292.275) == 29228
  {
  }

  // ------------------------------------------------------------ order payload

  /**
   * `toFixed(2)` as a whole number of cents: the nearest; a tie takes the larger
   * magnitude, since toFixed rounds |x| and then restores the sign.
   */
  function ToCents(x: real): (c: int)
    ensures x >= 0.0 ==> -0.5 < c as real - x * 100.0 <= 0.5
    ensures x < 0.0 ==> -0.5 <= c as real - x * 100.0 < 0.5
  {
    if x < 0.0 then -((-x * 100.0 + 0.5).Floor) else (x * 100.0 + 0.5).Floor
  }

  /** One entry of the summary: `name (Qty: n)`. */
  function LineSummary(l: CartLine): string
  {
    l.product.name + " (Qty: " + Strings.IntToDecimal(l.quantity) + ")"
  }

  function Summaries(cart: seq<CartLine>): (r: seq<string>)
    ensures |r| == |cart|
    ensures forall i :: 0 <= i < |cart| ==> r[i] == LineSummary(cart[i])
  {
    seq(|cart|, i requires 0 <= i < |cart| => LineSummary(cart[i]))
  }

  /** The order's productNames: the line summaries in cart order, joined by ", ". */
  function ProductNames(cart: seq<CartLine>): string
  {
    Strings.Join(Summaries(cart), ", ")
  }

  /** A further line adds ", " and its summary at the end; the first line's summary stands alone. */
  lemma ProductNamesAppend(cart: seq<CartLine>, l: CartLine)
    ensures ProductNames(cart + [l]) == if cart == [] then LineSummary(l) else ProductNames(cart) + ", " + LineSummary(l)
  {
    assert Summaries(cart + [l]) == Summaries(cart) + [LineSummary(l)];
    Strings.JoinAppend(Summaries(cart), LineSummary(l), ", ");
  }

  /** The quantity in a summary reads back as the line's quantity. */
  lemma SummaryQuantityReadsBack(l: CartLine)
    requires l.quantity >= 0
    ensures LineSummary(l) == l.product.name + " (Qty: " + Strings.NatToDecimal(l.quantity) + ")"
    ensures Strings.DecimalValue(Strings.NatToDecimal(l.quantity)) == l.quantity
  {
    Strings.DecimalRoundTrip(l.quantity);
  }

  datatype ShippingForm = ShippingForm(
    firstName: string, lastName: string, email: string, address: string, city: string, zip: string)

  datatype FormField = FirstName | LastName | Email | Address | City | Zip

  function EmptyForm(): ShippingForm { ShippingForm("", "", "", "", "", "") }

  /** handleInputChange: one named field takes the typed value. */
  function WithField(form: ShippingForm, field: FormField, value: string): ShippingForm
  {
    match field
    case FirstName => form.(firstName := value)
    case LastName => form.(lastName := value)
    case Email => form.(email := value)
    case Address => form.(address := value)
    case City => form.(city := value)
    case Zip => form.(zip := value)
  }

  /** What the order sink receives. The total is toFixed(2), kept here as whole cents. */
  datatype OrderData = OrderData(
    firstName: string, lastName: string, email: string, address: string, city: string, zip: string,
    productNames: string, totalCents: int, dateTime: string)

  /** The payload of handlePayment: the form as typed, the cart summary and the rounded total. */
  function OrderFor(form: ShippingForm, cart: seq<CartLine>, total: real, dateTime: string): (o: OrderData)
    ensures o.firstName == form.firstName && o.lastName == form.lastName && o.email == form.email
    ensures o.address == form.address && o.city == form.city && o.zip == form.zip
    ensures o.productNames == ProductNames(cart) && o.dateTime == dateTime
    ensures o.totalCents == ToCents(total)
    ensures -0.5 <= o.totalCents as real - total * 100.0 <= 0.5
  {
    OrderData(form.firstName, form.lastName, form.email, form.address, form.city, form.zip,
              ProductNames(cart), ToCents(total), dateTime)
  }

  // ------------------------------------------------------------ step machine

  /** What can happen on the wizard: the Continue, Return and Pay buttons, and the order sink's answer. */
  datatype CheckoutEvent = ContinueClicked | ReturnClicked | PayClicked | SinkAnswered

  /** The step shown and whether a payment is awaiting the order sink (isSubmitting). */
  datatype Wizard = Wizard(step: CheckoutStep, pending: bool)

  const Start: Wizard := Wizard(Shipping, false)

  /**
   * The wizard after an event. Continue is rendered on the shipping step, Return and
   * Pay on the payment step, and Pay is disabled while a payment is pending. The
   * sink's answer arrives on whatever step is shown and always ends in Confirmation.
   * Anything else changes nothing.
   */
  function Next(w: Wizard, e: CheckoutEvent): Wizard
  {
    match e
    case ContinueClicked => if w.step == Shipping then w.(step := Payment) else w
    case ReturnClicked => if w.step == Payment then w.(step := Shipping) else w
    case PayClicked => if w.step == Payment && !w.pending then w.(pending := true) else w
    case SinkAnswered => if w.pending then Wizard(Confirmation, false) else w
  }

  /** The wizard reached from its initial state by a run of events. */
  function Run(events: seq<CheckoutEvent>): Wizard
  {
    if events == [] then Start else Next(Run(events[..|events| - 1]), events[|events| - 1])
  }

  /**
   * Each event leaves the step alone, advances Shipping to Payment, takes Payment back
   * to Shipping, or, as the answer to a pending payment, jumps to Confirmation from
   * any step; a payment becomes pending only from the payment step.
   */
  lemma StepAfterMoves(w: Wizard, e: CheckoutEvent)
    ensures var t := Next(w, e);
      || t.step == w.step
      || (w.step == Shipping && t.step == Payment && e == ContinueClicked)
      || (w.step == Payment && t.step == Shipping && e == ReturnClicked)
      || (w.pending && t.step == Confirmation && e == SinkAnswered)
    ensures var t := Next(w, e);
      t.pending && !w.pending ==> w.step == Payment && e == PayClicked
    ensures w.step != Confirmation && Next(w, e).step == Confirmation ==> !Next(w, e).pending
  {
  }

  /** The answer to a payment started on the payment step confirms even after a return to Shipping. */
  lemma AnswerAfterReturnConfirms()
    ensures Run([ContinueClicked, PayClicked, ReturnClicked]) == Wizard(Shipping, true)
    ensures Run([ContinueClicked, PayClicked, ReturnClicked, SinkAnswered]).step == Confirmation
  {
    var e1, e2, e3 := [ContinueClicked], [ContinueClicked, PayClicked], [ContinueClicked, PayClicked, ReturnClicked];
    assert e1[..0] == [] && e2[..1] == e1 && e3[..2] == e2;
    assert [ContinueClicked, PayClicked, ReturnClicked, SinkAnswered][..3] == e3;
    assert Run(e1) == Wizard(Payment, false);
    assert Run(e2) == Wizard(Payment, true);
  }

  /** The wizard never enters the Cart step, and a pending payment is never shown as confirmed. */
  lemma {:induction false} RunNeverCart(events: seq<CheckoutEvent>)
    ensures Run(events).step != Cart
    ensures Run(events).pending ==> Run(events).step != Confirmation
  {
    if events != [] {
      RunNeverCart(events[..|events| - 1]);
    }
  }

  /** The step indicator lights every stage up to the current one; Shipping is always lit. */
  predicate IndicatorLit(step: CheckoutStep, stage: CheckoutStep)
  {
    StepCode(step) >= StepCode(stage)
  }

  lemma ShippingAlwaysLit(events: seq<CheckoutEvent>)
    ensures IndicatorLit(Run(events).step, Shipping)
    ensures IndicatorLit(Run(events).step, Payment) <==> Run(events).step != Shipping
  {
    RunNeverCart(events);
  }

  /** Confirmation is final: later events leave it there. */
  lemma {:induction false} ConfirmationIsFinal(events: seq<CheckoutEvent>, more: seq<CheckoutEvent>)
    requires Run(events).step == Confirmation
    ensures Run(events + more).step == Confirmation
  {
    if more == [] {
      assert events + more == events;
    } else {
      assert (events + more)[..|events + more| - 1] == events + more[..|more| - 1];
      ConfirmationIsFinal(events, more[..|more| - 1]);
      RunNeverCart(events + more[..|more| - 1]);
    }
  }

  /** A payment is pending only after a click on Pay. */
  lemma {:induction false} PendingNeedsPay(events: seq<CheckoutEvent>)
    requires Run(events).pending
    ensures exists i :: 0 <= i < |events| && events[i] == PayClicked
  {
    var prefix := events[..|events| - 1];
    if Run(prefix).pending {
      PendingNeedsPay(prefix);
      var i :| 0 <= i < |prefix| && prefix[i] == PayClicked;
      assert events[i] == PayClicked;
    } else {
      assert events[|events| - 1] == PayClicked;
    }
  }

  /** Confirmation is reached only by the sink's answer to an earlier click on Pay. */
  lemma {:induction false} ConfirmationNeedsPayment(events: seq<CheckoutEvent>)
    requires Run(events).step == Confirmation
    ensures exists i, j :: 0 <= i < j < |events| && events[i] == PayClicked && events[j] == SinkAnswered
  {
    var prefix := events[..|events| - 1];
    if Run(prefix).step == Confirmation {
      ConfirmationNeedsPayment(prefix);
      var i, j :| 0 <= i < j < |prefix| && prefix[i] == PayClicked && prefix[j] == SinkAnswered;
      assert events[i] == PayClicked && events[j] == SinkAnswered;
    } else {
      assert events[|events| - 1] == SinkAnswered && Run(prefix).pending;
      PendingNeedsPay(prefix);
      var i :| 0 <= i < |prefix| && prefix[i] == PayClicked;
      assert events[i] == PayClicked;
    }
  }

  /**
   * The checkout page's state: the cart and country it is shown for (both change while
   * the page stays mounted, through the cart drawer and the country selector), the
   * wizard step, the submitting flag and the shipping form.
   */
  class CheckoutPage {
    var cart: seq<CartLine>
    var country: string
    const rates: TaxRates
    var step: CheckoutStep
    var isSubmitting: bool
    var form: ShippingForm

    constructor (cart: seq<CartLine>, country: string, rates: TaxRates)
      ensures this.cart == cart && this.country == country && this.rates == rates
      ensures Current() == Start && form == EmptyForm()
    {
      this.cart := cart;
      this.country := country;
      this.rates := rates;
      step := Shipping;
      isSubmitting := false;
      form := EmptyForm();
    }

    /** The wizard part of the page's state. */
    function Current(): Wizard
      reads this
    {
      Wizard(step, isSubmitting)
    }

    /** The totals the effects derive from the current cart and country. */
    function CurrentTotals(): Totals
      reads this
    {
      ComputeTotals(cart, rates, country)
    }

    method UpdateField(field: FormField, value: string)
      modifies this
      ensures form == WithField(old(form), field, value)
      ensures Current() == old(Current()) && cart == old(cart) && country == old(country)
    {
      form := WithField(form, field, value);
    }

    /** The cart changed elsewhere (the drawer): the totals follow, the wizard and form stay. */
    method CartChanged(newCart: seq<CartLine>)
      modifies this
      ensures cart == newCart && country == old(country)
      ensures Current() == old(Current()) && form == old(form)
    {
      cart := newCart;
    }

    /** The country selector changed: the tax follows, the wizard and form stay. */
    method CountryChanged(newCountry: string)
      modifies this
      ensures country == newCountry && cart == old(cart)
      ensures Current() == old(Current()) && form == old(form)
    {
      country := newCountry;
    }

    /** "Continue to Payment", shown on the shipping step, checks no field. */
    method ContinueToPayment()
      requires step == Shipping
      modifies this
      ensures Current() == Next(old(Current()), ContinueClicked)
      ensures step == Payment
      ensures form == old(form) && cart == old(cart) && country == old(country)
    {
      step := Payment;
    }

    /** "Return to Shipping", shown on the payment step and not disabled while submitting. */
    method ReturnToShipping()
      requires step == Payment
      modifies this
      ensures Current() == Next(old(Current()), ReturnClicked)
      ensures step == Shipping
      ensures form == old(form) && cart == old(cart) && country == old(country)
    {
      step := Shipping;
    }

    /** handlePayment up to its await: Pay is clicked on the payment step, not while disabled; the payload is built. */
    method BeginPayment(dateTime: string) returns (order: OrderData)
      requires step == Payment && !isSubmitting
      modifies this
      ensures Current() == Next(old(Current()), PayClicked)
      ensures isSubmitting
      ensures order == OrderFor(form, cart, CurrentTotals().total, dateTime)
      ensures step == old(step) && form == old(form) && cart == old(cart) && country == old(country)
    {
      isSubmitting := true;
      order := OrderFor(form, cart, CurrentTotals().total, dateTime);
    }

    /** handlePayment after the order sink answers: confirmation whatever the answer and whatever step is shown. */
    method FinishPayment(delivered: bool)
      requires isSubmitting
      modifies this
      ensures Current() == Next(old(Current()), SinkAnswered)
      ensures !isSubmitting && step == Confirmation
      ensures form == old(form) && cart == old(cart) && country == old(country)
    {
      isSubmitting := false;
      step := Confirmation;
    }
  }
}
