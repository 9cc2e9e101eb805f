/**
 * Invoice arithmetic in whole baisa: discount before tax, half-up rounding, the credit left over when
 * a plan changes, and the quote shown to the customer against the invoice that is issued for it.
 */
module Pricing {
  import opened Base

  const BASIS_POINTS := 10_000
  const DEFAULT_VAT_RATE := 500

  /** `Math.round(n / d)`. */
  function RoundHalfUp(n: int, d: int): int
    requires d > 0
  {
    (2 * n + d) / (2 * d)
  }

  /** The rounded quotient is within half of the exact one. */
  lemma RoundedClosely(n: int, d: int)
    requires d > 0
    ensures -d <= 2 * n - 2 * d * RoundHalfUp(n, d) < d
  {
    var r := RoundHalfUp(n, d);
    DivisionBounds(2 * n + d, 2 * d);
    assert 2 * d * r <= 2 * n + d < 2 * d * r + 2 * d;
  }

  lemma DivisionBounds(n: int, d: int)
    requires d > 0
    ensures d * (n / d) <= n < d * (n / d) + d
  {
  }

  lemma TimesMonotone(d: int, a: int, b: int)
    requires d >= 0 && a <= b
    ensures d * a <= d * b
  {
  }

  /** The rounded quotient is the only whole number this close, ties going up. */
  lemma RoundedIs(n: int, d: int, r: int)
    requires d > 0 && -d <= 2 * n - 2 * d * r < d
    ensures RoundHalfUp(n, d) == r
  {
    RoundedClosely(n, d);
    var q := RoundHalfUp(n, d);
    if q < r {
      TimesMonotone(2 * d, q + 1, r);
    } else if q > r {
      TimesMonotone(2 * d, r + 1, q);
    }
  }

  lemma RoundMonotone(n: int, m: int, d: int)
    requires d > 0 && n <= m
    ensures RoundHalfUp(n, d) <= RoundHalfUp(m, d)
  {
    RoundedClosely(n, d);
    RoundedClosely(m, d);
    var q, r := RoundHalfUp(n, d), RoundHalfUp(m, d);
    if r < q {
      TimesMonotone(2 * d, r + 1, q);
    }
  }

  lemma RoundShift(n: int, k: int, d: int)
    requires d > 0
    ensures RoundHalfUp(n + k * d, d) == RoundHalfUp(n, d) + k
  {
    RoundedClosely(n, d);
    var r := RoundHalfUp(n, d);
    assert 2 * (n + k * d) - 2 * d * (r + k) == 2 * n - 2 * d * r;
    RoundedIs(n + k * d, d, r + k);
  }

  // ---- Discount, tax, total ----

  datatype Coupon = Percent(basisPoints: int) | Fixed(baisa: int)

  datatype Amounts = Amounts(subtotal: int, discount: int, vatRate: int, vat: int, total: int)

  datatype AmountError = NegativeSubtotal

  function ComputeDiscount(subtotal: int, coupon: Option<Coupon>): int {
    if coupon.None? then 0
    else
      var raw := match coupon.value
                 case Percent(basisPoints) => RoundHalfUp(subtotal * basisPoints, BASIS_POINTS)
                 case Fixed(baisa) => baisa;
      Min(Max(raw, 0), subtotal)
  }

  function Vat(taxable: int, rate: int): int {
    RoundHalfUp(taxable * rate, BASIS_POINTS)
  }

  function ComputeInvoiceAmounts(subtotal: int, coupon: Option<Coupon>, vatRate: int): Result<Amounts, AmountError> {
    if subtotal < 0 then Err(NegativeSubtotal)
    else
      var discount := ComputeDiscount(subtotal, coupon);
      var vat := Vat(subtotal - discount, vatRate);
      Ok(Amounts(subtotal, discount, vatRate, vat, subtotal - discount + vat))
  }

  /** Of a non-negative subtotal at a rate of 0% or more. */
  lemma AmountsAddUp(subtotal: int, coupon: Option<Coupon>, vatRate: int)
    requires vatRate >= 0
    ensures ComputeInvoiceAmounts(subtotal, coupon, vatRate).Ok? <==> subtotal >= 0
    ensures subtotal >= 0 ==>
      var a := ComputeInvoiceAmounts(subtotal, coupon, vatRate).value;
      && 0 <= a.discount <= a.subtotal == subtotal
      && a.total == a.subtotal - a.discount + a.vat
      && a.subtotal - a.discount <= a.total
      && -10_000 <= 2 * ((a.subtotal - a.discount) * vatRate - 10_000 * a.vat) < 10_000
  {
    if subtotal >= 0 {
      var taxable := subtotal - ComputeDiscount(subtotal, coupon);
      RoundedClosely(taxable * vatRate, BASIS_POINTS);
      VatNotNegative(taxable, vatRate);
    }
  }

  /** A percentage of up to 100% is taken within half a baisa; a fixed coupon takes its amount, or everything there is. */
  lemma DiscountAsPromised(subtotal: int, coupon: Coupon)
    requires subtotal >= 0
    ensures var discount := ComputeDiscount(subtotal, Some(coupon));
            match coupon
            case Percent(basisPoints) =>
              && (0 <= basisPoints <= 10_000 ==> -10_000 <= 2 * (subtotal * basisPoints) - 20_000 * discount < 10_000)
              && (basisPoints >= 10_000 ==> discount == subtotal) && (basisPoints <= 0 ==> discount == 0)
            case Fixed(baisa) =>
              && (0 <= baisa <= subtotal ==> discount == baisa) && (baisa >= subtotal ==> discount == subtotal)
              && (baisa <= 0 ==> discount == 0)
  {
    if coupon.Percent? {
      var basisPoints := coupon.basisPoints;
      RoundedClosely(subtotal * basisPoints, BASIS_POINTS);
      PercentDiscountGrowth(0, subtotal, basisPoints);
      RoundedIs(0, BASIS_POINTS, 0);
      if 0 <= basisPoints {
        TimesMonotone(subtotal, 0, basisPoints);
        RoundMonotone(0, subtotal * basisPoints, BASIS_POINTS);
      }
    }
  }

  lemma VatMonotone(taxable: int, more: int, rate: int)
    requires rate >= 0 && taxable <= more
    ensures Vat(taxable, rate) <= Vat(more, rate)
  {
    TimesMonotone(rate, taxable, more);
    assert taxable * rate == rate * taxable && more * rate == rate * more;
    RoundMonotone(taxable * rate, more * rate, BASIS_POINTS);
  }

  lemma VatNotNegative(taxable: int, rate: int)
    requires rate >= 0 && taxable >= 0
    ensures Vat(taxable, rate) >= 0
  {
    VatMonotone(0, taxable, rate);
    RoundedIs(0, BASIS_POINTS, 0);
  }

  lemma PercentDiscountGrowth(subtotal: int, more: int, basisPoints: int)
    requires 0 <= subtotal <= more
    ensures basisPoints <= BASIS_POINTS ==>
      RoundHalfUp(more * basisPoints, BASIS_POINTS) <= RoundHalfUp(subtotal * basisPoints, BASIS_POINTS) + (more - subtotal)
    ensures basisPoints >= BASIS_POINTS ==> RoundHalfUp(more * basisPoints, BASIS_POINTS) >= more
    ensures basisPoints <= 0 ==> RoundHalfUp(more * basisPoints, BASIS_POINTS) <= 0
  {
    var grown := more - subtotal;
    if basisPoints <= BASIS_POINTS {
      TimesMonotone(grown, basisPoints, BASIS_POINTS);
      assert more * basisPoints == subtotal * basisPoints + grown * basisPoints;
      RoundMonotone(more * basisPoints, subtotal * basisPoints + grown * BASIS_POINTS, BASIS_POINTS);
      RoundShift(subtotal * basisPoints, grown, BASIS_POINTS);
    }
    if basisPoints >= BASIS_POINTS {
      TimesMonotone(more, BASIS_POINTS, basisPoints);
      RoundMonotone(more * BASIS_POINTS, more * basisPoints, BASIS_POINTS);
      RoundedIs(more * BASIS_POINTS, BASIS_POINTS, more);
    }
    if basisPoints <= 0 {
      TimesMonotone(more, basisPoints, 0);
      RoundMonotone(more * basisPoints, 0, BASIS_POINTS);
      RoundedIs(0, BASIS_POINTS, 0);
    }
  }

  lemma TaxableMonotone(subtotal: int, more: int, coupon: Option<Coupon>)
    requires 0 <= subtotal <= more
    ensures subtotal - ComputeDiscount(subtotal, coupon) <= more - ComputeDiscount(more, coupon)
  {
    if coupon.Some? && coupon.value.Percent? {
      PercentDiscountGrowth(subtotal, more, coupon.value.basisPoints);
      PercentDiscountGrowth(0, subtotal, coupon.value.basisPoints);
    }
  }

  /** A larger subtotal never has a smaller total, whatever the coupon, even above 100% or below zero. */
  lemma TotalMonotone(subtotal: int, more: int, coupon: Option<Coupon>, vatRate: int)
    requires 0 <= subtotal <= more && vatRate >= 0
    ensures ComputeInvoiceAmounts(subtotal, coupon, vatRate).value.total <= ComputeInvoiceAmounts(more, coupon, vatRate).value.total
  {
    TaxableMonotone(subtotal, more, coupon);
    VatMonotone(subtotal - ComputeDiscount(subtotal, coupon), more - ComputeDiscount(more, coupon), vatRate);
  }

  /** No coupon makes an invoice dearer; the total is zero exactly when the coupon covers everything. */
  lemma CouponNeverRaises(subtotal: int, coupon: Option<Coupon>, vatRate: int)
    requires 0 <= subtotal && vatRate >= 0
    ensures var total := ComputeInvoiceAmounts(subtotal, coupon, vatRate).value.total;
            && total <= ComputeInvoiceAmounts(subtotal, None, vatRate).value.total
            && (total == 0 <==> ComputeDiscount(subtotal, coupon) == subtotal)
  {
    var taxable := subtotal - ComputeDiscount(subtotal, coupon);
    VatMonotone(taxable, subtotal, vatRate);
    VatNotNegative(taxable, vatRate);
    RoundedIs(0, BASIS_POINTS, 0);
  }

  // ---- Credit for the unused part of a period ----

  /** `Math.ceil` of a span of milliseconds in days. */
  function DaysBetween(from: int, to: int): int {
    -((from - to) / MS_PER_DAY)
  }

  /** The part of `paid` for `days` of `totalDays`. */
  function Share(paid: int, days: int, totalDays: int): int
    requires totalDays > 0
  {
    Max(0, Min(RoundHalfUp(paid * Min(days, totalDays), totalDays), paid))
  }

  function UnusedCredit(paid: int, periodStart: int, periodEnd: int, now: int): int {
    var totalDays := DaysBetween(periodStart, periodEnd);
    if paid <= 0 || totalDays <= 0 then 0 else Share(paid, Max(0, DaysBetween(now, periodEnd)), totalDays)
  }

  lemma ShareBounds(paid: int, days: int, less: int, totalDays: int)
    requires paid > 0 && totalDays > 0 && 0 <= less <= days
    ensures 0 <= Share(paid, less, totalDays) <= Share(paid, days, totalDays) <= paid
    ensures days >= totalDays ==> Share(paid, days, totalDays) == paid
    ensures days == 0 ==> Share(paid, days, totalDays) == 0
  {
    var left, lessLeft := Min(days, totalDays), Min(less, totalDays);
    TimesMonotone(paid, lessLeft, left);
    RoundMonotone(paid * lessLeft, paid * left, totalDays);
    RoundedIs(0, totalDays, 0);
    RoundedIs(paid * totalDays, totalDays, paid);
  }

  lemma DaysFall(from: int, later: int, to: int)
    requires from <= later
    ensures DaysBetween(later, to) <= DaysBetween(from, to)
    ensures later >= to ==> DaysBetween(later, to) <= 0
    ensures from < to ==> 0 < DaysBetween(from, to)
  {
  }

  /**
   * The credit is part of what was paid, never grows as time passes, is the whole amount up to the
   * start of the period and nothing from its end on.
   */
  lemma CreditRunsOut(paid: int, periodStart: int, periodEnd: int, now: int, later: int)
    requires now <= later
    ensures var credit := UnusedCredit(paid, periodStart, periodEnd, now);
            && 0 <= credit <= Max(paid, 0)
            && UnusedCredit(paid, periodStart, periodEnd, later) <= credit
            && (now <= periodStart < periodEnd && paid > 0 ==> credit == paid)
            && (periodEnd <= now ==> credit == 0)
  {
    var totalDays := DaysBetween(periodStart, periodEnd);
    DaysFall(now, later, periodEnd);
    DaysFall(now, now, periodEnd);
    if paid > 0 && totalDays > 0 {
      ShareBounds(paid, Max(0, DaysBetween(now, periodEnd)), Max(0, DaysBetween(later, periodEnd)), totalDays);
    }
    if now <= periodStart {
      DaysFall(now, periodStart, periodEnd);
      DaysFall(periodStart, periodStart, periodEnd);
    }
  }

  /**
   * In between, the credit is proportional to the days left: with `days` of `totalDays` begun days to
   * go, it is within half a baisa of the exact part of what was paid.
   */
  lemma CreditProportional(paid: int, periodStart: int, periodEnd: int, now: int, days: int, totalDays: int)
    requires paid > 0 && 0 < days <= totalDays
    requires (days - 1) * MS_PER_DAY < periodEnd - now <= days * MS_PER_DAY
    requires (totalDays - 1) * MS_PER_DAY < periodEnd - periodStart <= totalDays * MS_PER_DAY
    ensures -totalDays <= 2 * (paid * days) - 2 * totalDays * UnusedCredit(paid, periodStart, periodEnd, now) < totalDays
  {
    BegunDays(now, periodEnd, days);
    BegunDays(periodStart, periodEnd, totalDays);
    ShareClose(paid, days, totalDays);
  }

  lemma ShareClose(paid: int, days: int, totalDays: int)
    requires paid > 0 && 0 < days <= totalDays
    ensures -totalDays <= 2 * (paid * days) - 2 * totalDays * Share(paid, days, totalDays) < totalDays
  {
    var exact := paid * days;
    TimesMonotone(paid, 0, days);
    TimesMonotone(paid, days, totalDays);
    RoundWithin(exact, paid, totalDays);
    RoundedClosely(exact, totalDays);
  }

  lemma RoundWithin(n: int, most: int, d: int)
    requires d > 0 && 0 <= n <= most * d
    ensures 0 <= RoundHalfUp(n, d) <= most
  {
    RoundMonotone(0, n, d);
    RoundMonotone(n, most * d, d);
    RoundedIs(0, d, 0);
    RoundedIs(most * d, d, most);
  }

  lemma BegunDays(from: int, to: int, days: int)
    requires (days - 1) * MS_PER_DAY < to - from <= days * MS_PER_DAY
    ensures DaysBetween(from, to) == days
  {
  }

  // ---- The quote and the invoice ----

  datatype Line = Line(quantity: int, unitAmount: int)

  function Subtotal(lines: seq<Line>): int {
    if lines == [] then 0 else Subtotal(lines[..|lines| - 1]) + lines[|lines| - 1].unitAmount * lines[|lines| - 1].quantity
  }

  datatype Quote = Quote(unitAmount: int, amountDue: int, vat: int, total: int)

  /** What `quoteChange` shows: the credit comes off the unit price, and VAT is taken at 5%. */
  function QuoteChange(price: int, quantity: int, credit: int, coupon: Option<Coupon>): Quote
    requires quantity > 0
  {
    var net := Max(0, price * quantity - credit);
    var unitAmount := RoundHalfUp(net, quantity);
    var subtotal := unitAmount * quantity;
    var taxable := subtotal - ComputeDiscount(subtotal, coupon);
    var vat := RoundHalfUp(taxable * 500, 10_000);
    Quote(unitAmount, taxable, vat, taxable + vat)
  }

  /** What `issue` puts on the invoice for that quote's one line. */
  function IssuedFor(price: int, quantity: int, credit: int, coupon: Option<Coupon>, vatRate: int): Result<Amounts, AmountError>
    requires quantity > 0
  {
    ComputeInvoiceAmounts(Subtotal([Line(quantity, QuoteChange(price, quantity, credit, coupon).unitAmount)]), coupon, vatRate)
  }

  /** The invoice line is the quoted unit price, off the net amount by at most half a baisa a seat. */
  lemma QuotedLine(price: int, quantity: int, credit: int, coupon: Option<Coupon>)
    requires quantity > 0
    ensures var net := Max(0, price * quantity - credit);
            var unitAmount := QuoteChange(price, quantity, credit, coupon).unitAmount;
            unitAmount >= 0 && -quantity <= 2 * net - 2 * (unitAmount * quantity) < quantity
  {
    var net := Max(0, price * quantity - credit);
    RoundedClosely(net, quantity);
    RoundMonotone(0, net, quantity);
    RoundedIs(0, quantity, 0);
    var r := RoundHalfUp(net, quantity);
    assert 2 * quantity * r == 2 * (r * quantity);
  }

  predicate Agrees(q: Quote, issued: Result<Amounts, AmountError>) {
    issued.Ok? && q.amountDue == issued.value.subtotal - issued.value.discount &&
    q.vat == issued.value.vat && q.total == issued.value.total
  }

  lemma IssuedAtRate(price: int, quantity: int, credit: int, coupon: Option<Coupon>, vatRate: int)
    requires quantity > 0
    ensures var q := QuoteChange(price, quantity, credit, coupon);
            Agrees(q, IssuedFor(price, quantity, credit, coupon, vatRate)) <==> Vat(q.amountDue, vatRate) == Vat(q.amountDue, 500)
  {
    QuotedLine(price, quantity, credit, coupon);
    var q := QuoteChange(price, quantity, credit, coupon);
    var line := Line(quantity, q.unitAmount);
    assert [line][..0] == [];
    assert Subtotal([line]) == q.unitAmount * quantity;
    TimesMonotone(quantity, 0, q.unitAmount);
  }

  /**
   * Every quote is the invoice it leads to exactly when the service is configured with the default
   * VAT rate: the quote does not read the configured one.
   */
  lemma QuotesHonouredExactly(vatRate: int)
    ensures (forall price: int, quantity: int, credit: int, coupon: Option<Coupon> | quantity > 0 ::
               Agrees(QuoteChange(price, quantity, credit, coupon), IssuedFor(price, quantity, credit, coupon, vatRate)))
            <==> vatRate == DEFAULT_VAT_RATE
  {
    if vatRate == DEFAULT_VAT_RATE {
      forall price: int, quantity: int, credit: int, coupon: Option<Coupon> | quantity > 0
        ensures Agrees(QuoteChange(price, quantity, credit, coupon), IssuedFor(price, quantity, credit, coupon, vatRate))
      {
        IssuedAtRate(price, quantity, credit, coupon, vatRate);
      }
    } else {
      IssuedAtRate(10_000, 1, 0, None, vatRate);
      RoundedIs(10_000, 1, 10_000);
      RoundedIs(10_000 * vatRate, BASIS_POINTS, vatRate);
      RoundedIs(10_000 * 500, BASIS_POINTS, 500);
      assert !Agrees(QuoteChange(10_000, 1, 0, None), IssuedFor(10_000, 1, 0, None, vatRate));
    }
  }
}
