/**
 * Invoice cart construction: the invoice lines the gateway sends for an
 * order. Product lines come from the order's line items, at most one
 * shipping line from its shipping items; lines whose amount is not positive
 * are dropped, and a line carries a VAT tax mode only when its effective
 * rate is one the processor knows.
 */
module Cart {
  import opened Wrappers
  import opened Php

  /** The tax-mode type the processor expects on every taxed line. */
  const TaxModeType: string := "InvoiceLineTaxVAT"

  datatype TaxMode = TaxMode(kind: string, rate: string)

  /** One invoice line; `price` is per unit, in minor units (PHP float `amount * 100`). */
  datatype Line = Line(product: string, quantity: int, price: real, taxMode: Option<TaxMode>)

  /** A product line item of the order: the item name, quantity, line total and line tax. */
  datatype OrderItem = OrderItem(name: string, qty: real, lineTotal: real, lineTax: real)

  /** What the gateway reads of an order when it creates an invoice. */
  datatype OrderSnapshot = OrderSnapshot(
    id: string,
    currency: string,
    total: real,
    items: seq<OrderItem>,
    shippingNames: seq<string>,
    shippingTotal: real,
    shippingTax: real)

  /**
   * A division by zero while pricing a line. PHP 8 throws DivisionByZeroError
   * there, which the `catch (Exception ...)` around invoice creation does not catch.
   */
  datatype CartError = DivisionByZero

  /** The VAT labels the processor accepts, by integer percentage; none for any other rate. */
  function TaxRateLabel(rate: int): (rateLabel: Option<string>)
    ensures rateLabel == Some("0%") <==> rate == 0
    ensures rateLabel == Some("10%") <==> rate == 10
    ensures rateLabel == Some("18%") <==> rate == 18
    ensures rateLabel.None? <==> rate != 0 && rate != 10 && rate != 18
  {
    match rate
    case 0 => Some("0%")
    case 10 => Some("10%")
    case 18 => Some("18%")
    case _ => None
  }

  /** Decimal currency amount to the processor's minor units. */
  function PrepareAmount(amount: real): (minor: real)
    ensures minor / 100.0 == amount
  {
    amount * 100.0
  }

  /** An amount that is exact to the cent converts to a whole number of minor units. */
  lemma PrepareAmountWhole(cents: int)
    ensures PrepareAmount(cents as real / 100.0) == cents as real
  {
  }

  /** The tax mode a label stands for. */
  function VatMode(rateLabel: Option<string>): Option<TaxMode> {
    match rateLabel
    case None => None
    case Some(rate) => Some(TaxMode(TaxModeType, rate))
  }

  /**
   * The tax mode of a product line, from its truncated tax percentage: a zero
   * percentage gets no tax mode at all, so a product line never says "0%".
   */
  function ProductTaxMode(percent: int): (mode: Option<TaxMode>)
    ensures mode.Some? ==> mode.value.kind == TaxModeType
    ensures mode.Some? ==> mode.value.rate == "10%" || mode.value.rate == "18%"
    ensures mode.Some? <==> percent == 10 || percent == 18
    ensures percent == 10 ==> mode == Some(TaxMode(TaxModeType, "10%"))
    ensures percent == 18 ==> mode == Some(TaxMode(TaxModeType, "18%"))
  {
    if percent == 0 then None else VatMode(TaxRateLabel(percent))
  }

  /**
   * The tax mode of the shipping line. Its guard tests the untruncated
   * percentage, so a non-zero percentage that truncates to 0 gets "0%".
   */
  function ShippingTaxMode(percent: real): (mode: Option<TaxMode>)
    ensures mode.Some? ==> mode.value.kind == TaxModeType
    ensures percent == 0.0 ==> mode.None?
    ensures percent != 0.0 && Trunc(percent) == 0 ==> mode == Some(TaxMode(TaxModeType, "0%"))
    ensures Trunc(percent) == 10 ==> mode == Some(TaxMode(TaxModeType, "10%"))
    ensures Trunc(percent) == 18 ==> mode == Some(TaxMode(TaxModeType, "18%"))
    ensures Trunc(percent) != 0 && Trunc(percent) != 10 && Trunc(percent) != 18 ==> mode.None?
  {
    if percent == 0.0 then None else VatMode(TaxRateLabel(Trunc(percent)))
  }

  /** The shipping line is labelled "0%" exactly when its tax percentage is non-zero and strictly between -1 and 1. */
  lemma ShippingZeroPercentLabel(percent: real)
    ensures ShippingTaxMode(percent) == Some(TaxMode(TaxModeType, "0%"))
        <==> percent != 0.0 && -1.0 < percent < 1.0
  {
  }

  /** The per-unit amount of an item, rounded to the cent as the gateway does. */
  function UnitAmount(item: OrderItem): real
    requires item.qty != 0.0
  {
    Round2(item.lineTotal / item.qty + item.lineTax / item.qty)
  }

  /**
   * The invoice line for one product item: a failure on a division by zero,
   * none when the rounded per-unit amount is not positive.
   */
  function ItemLine(item: OrderItem): (r: Result<Option<Line>, CartError>)
    ensures item.qty == 0.0 ==> r.Failure?
    ensures r.Success? && r.value.Some? ==> r.value.value.product == item.name
  {
    if item.qty == 0.0 then Failure(DivisionByZero)
    else
      var amount := UnitAmount(item);
      if amount <= 0.0 then Success(None)
      else if item.lineTotal == 0.0 then Failure(DivisionByZero)
      else
        var percent := Trunc(item.lineTax / item.lineTotal * 100.0);
        Success(Some(Line(item.name, Trunc(item.qty), PrepareAmount(amount), ProductTaxMode(percent))))
  }

  /**
   * What one item yields: a failure exactly on a zero quantity, or on a zero
   * line total once the amount is positive; nothing when the rounded per-unit
   * amount is not positive; otherwise a line with the item's name, the
   * truncated quantity, a positive whole number of minor units per unit, and
   * the tax mode of the truncated tax percentage.
   */
  lemma ItemLineShape(item: OrderItem)
    ensures ItemLine(item).Failure? <==> item.qty == 0.0 || (UnitAmount(item) > 0.0 && item.lineTotal == 0.0)
    ensures ItemLine(item) == Success(None) <==> item.qty != 0.0 && UnitAmount(item) <= 0.0
    ensures ItemLine(item).Success? && ItemLine(item).value.Some? ==>
      var line := ItemLine(item).value.value;
      && line.product == item.name
      && line.quantity == Trunc(item.qty)
      && line.price == PrepareAmount(UnitAmount(item))
      && line.price > 0.0 && IsCents(line.price / 100.0)
      && line.taxMode == ProductTaxMode(Trunc(item.lineTax / item.lineTotal * 100.0))
  {
  }

  /** An item is dropped exactly when its exact per-unit amount is under half a cent. */
  lemma ItemDroppedBelowHalfCent(item: OrderItem)
    requires item.qty != 0.0
    ensures ItemLine(item) == Success(None) <==> item.lineTotal / item.qty + item.lineTax / item.qty < 0.005
  {
    Round2Positive(item.lineTotal / item.qty + item.lineTax / item.qty);
  }

  /** The product lines of a list of items, in item order (specification of PrepareItems). */
  function ItemLines(items: seq<OrderItem>): Result<seq<Line>, CartError>
    decreases |items|
  {
    if items == [] then Success([])
    else
      match ItemLines(items[..|items| - 1])
      case Failure(e) => Failure(e)
      case Success(prefix) =>
        match ItemLine(items[|items| - 1])
        case Failure(e) => Failure(e)
        case Success(None) => Success(prefix)
        case Success(Some(line)) => Success(prefix + [line])
  }

  /**
   * Builds the product lines by appending, item by item, the line of every
   * item whose amount is positive.
   */
  method PrepareItems(items: seq<OrderItem>) returns (res: Result<seq<Line>, CartError>)
    ensures res == ItemLines(items)
  {
    var lines: seq<Line> := [];
    var i := 0;
    while i < |items|
      invariant 0 <= i <= |items|
      invariant ItemLines(items[..i]) == Success(lines)
    {
      assert items[..i + 1][..i] == items[..i];
      var line := ItemLine(items[i]);
      match line {
        case Failure(e) =>
          FailurePropagates(items, i + 1);
          return Failure(e);
        case Success(None) =>
        case Success(Some(l)) =>
          lines := lines + [l];
      }
      i := i + 1;
    }
    assert items[..i] == items;
    res := Success(lines);
  }

  /** Once a prefix fails, the whole list fails with the same error. */
  lemma {:induction false} FailurePropagates(items: seq<OrderItem>, n: nat)
    requires n <= |items|
    requires ItemLines(items[..n]).Failure?
    ensures ItemLines(items) == ItemLines(items[..n])
    decreases |items| - n
  {
    if n < |items| {
      assert items[..n + 1][..n] == items[..n];
      FailurePropagates(items, n + 1);
    } else {
      assert items[..n] == items;
    }
  }

  /** A line is valid for the processor when its price is a positive whole number of minor units. */
  predicate ValidProductLine(line: Line) {
    && line.price > 0.0
    && IsCents(line.price / 100.0)
    && line.taxMode != Some(TaxMode(TaxModeType, "0%"))
    && (line.taxMode.Some? ==>
          line.taxMode.value.kind == TaxModeType &&
          (line.taxMode.value.rate == "10%" || line.taxMode.value.rate == "18%"))
  }

  /** Every product line has a positive whole-minor-unit price and never a "0%" tax mode. */
  lemma {:induction false} ItemLinesValid(items: seq<OrderItem>)
    requires ItemLines(items).Success?
    ensures forall line :: line in ItemLines(items).value ==> ValidProductLine(line)
    ensures |ItemLines(items).value| <= |items|
    decreases |items|
  {
    if items != [] {
      ItemLinesValid(items[..|items| - 1]);
      ItemLineShape(items[|items| - 1]);
    }
  }

  /** Product lines keep item order: the lines of a concatenation are the concatenated lines. */
  lemma {:induction false} ItemLinesAppend(a: seq<OrderItem>, b: seq<OrderItem>)
    requires ItemLines(a).Success? && ItemLines(b).Success?
    ensures ItemLines(a + b) == Success(ItemLines(a).value + ItemLines(b).value)
    decreases |b|
  {
    if b == [] {
      assert a + b == a;
      assert ItemLines(a).value + ItemLines(b).value == ItemLines(a).value;
    } else {
      var b' := b[..|b| - 1];
      assert ItemLines(b').Success?;
      ItemLinesAppend(a, b');
      assert (a + b)[..|a + b| - 1] == a + b';
      assert (a + b)[|a + b| - 1] == b[|b| - 1];
      match ItemLine(b[|b| - 1]) {
        case Success(None) =>
        case Success(Some(line)) =>
          assert ItemLines(a).value + ItemLines(b).value == ItemLines(a).value + ItemLines(b').value + [line];
      }
    }
  }

  /**
   * The shipping line: at most one, named after the first shipping item,
   * quantity 1, priced at shipping plus shipping tax; none when there is no
   * shipping item or that sum is not positive.
   */
  function ShippingLines(o: OrderSnapshot): (r: Result<seq<Line>, CartError>)
    ensures r.Failure? <==> |o.shippingNames| > 0 && o.shippingTotal + o.shippingTax > 0.0 && o.shippingTotal == 0.0
    ensures r.Success? ==> |r.value| <= 1
    ensures r == Success([]) <==> |o.shippingNames| == 0 || o.shippingTotal + o.shippingTax <= 0.0
    ensures r.Success? && |r.value| == 1 ==>
      && r.value[0].product == o.shippingNames[0]
      && r.value[0].quantity == 1
      && r.value[0].price == PrepareAmount(o.shippingTotal + o.shippingTax)
      && r.value[0].price > 0.0
      && r.value[0].taxMode == ShippingTaxMode(o.shippingTax / o.shippingTotal * 100.0)
  {
    if |o.shippingNames| == 0 then Success([])
    else
      var amount := o.shippingTotal + o.shippingTax;
      if amount <= 0.0 then Success([])
      else if o.shippingTotal == 0.0 then Failure(DivisionByZero)
      else
        var percent := o.shippingTax / o.shippingTotal * 100.0;
        Success([Line(o.shippingNames[0], 1, PrepareAmount(amount), ShippingTaxMode(percent))])
  }

  /** The cart: the shipping line first, then the product lines (specification of PrepareCart). */
  function CartOf(o: OrderSnapshot): Result<seq<Line>, CartError> {
    match ItemLines(o.items)
    case Failure(e) => Failure(e)
    case Success(products) =>
      match ShippingLines(o)
      case Failure(e) => Failure(e)
      case Success(shipping) => Success(shipping + products)
  }

  /** Builds the product lines, then the shipping line, and puts shipping in front. */
  method PrepareCart(o: OrderSnapshot) returns (res: Result<seq<Line>, CartError>)
    ensures res == CartOf(o)
  {
    var items := PrepareItems(o.items);
    if items.Failure? {
      return Failure(items.error);
    }
    var shipping := ShippingLines(o);
    if shipping.Failure? {
      return Failure(shipping.error);
    }
    res := Success(shipping.value + items.value);
  }

  /**
   * Shape of a built cart: a shipping line (when present) at index 0, then
   * one line per kept item in item order; every line is priced above zero.
   */
  lemma CartShape(o: OrderSnapshot)
    requires CartOf(o).Success?
    ensures ItemLines(o.items).Success? && ShippingLines(o).Success?
    ensures CartOf(o).value == ShippingLines(o).value + ItemLines(o.items).value
    ensures |CartOf(o).value| <= 1 + |o.items|
    ensures forall line :: line in CartOf(o).value ==> line.price > 0.0
  {
    ItemLinesValid(o.items);
  }
}
