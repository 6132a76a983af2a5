/** The delivery tariff: bands, the expansion multiplier, the free-delivery waiver and the quote. */
module Pricing {
  import opened Reals
  import opened Results

  /** Metres in one distance band. */
  const BAND: real := 1000.0

  datatype TariffError = NegativeBase | NegativeRate | MultiplierBelowOne

  datatype QuoteError = NegativeDistance | NegativeSubtotal

  /** Amounts in minor units. */
  datatype Tariff = Tariff(base: int, perBand: int, multiplier: real, freeAbove: int)

  predicate Sound(t: Tariff) { t.base >= 0 && t.perBand >= 0 && t.multiplier >= 1.0 }

  function NewTariff(base: int, perBand: int, multiplier: real, freeAbove: int): (r: Result<Tariff, TariffError>)
    ensures r.Success? <==> base >= 0 && perBand >= 0 && multiplier >= 1.0
    ensures r.Success? ==> r.value == Tariff(base, perBand, multiplier, freeAbove)
  {
    if base < 0 then Failure(NegativeBase)
    else if perBand < 0 then Failure(NegativeRate)
    else if multiplier < 1.0 then Failure(MultiplierBelowOne)
    else Success(Tariff(base, perBand, multiplier, freeAbove))
  }

  /** The least whole number not below x. */
  function Ceil(x: real): (n: int)
    ensures n as real - 1.0 < x <= n as real
  {
    -((-x).Floor)
  }

  /** The nearest whole number, halves away from zero. */
  function Round(x: real): (n: int)
    ensures -0.5 <= n as real - x <= 0.5
  {
    if x >= 0.0 then (x + 0.5).Floor else -((-x + 0.5).Floor)
  }

  function Bands(distance: real): Result<int, QuoteError>
  {
    if distance < 0.0 then Failure(NegativeDistance) else Success(Ceil(distance / BAND))
  }

  function PlainFee(t: Tariff, bands: int): int { t.base + t.perBand * bands }

  function Multiplied(minor: int, multiplier: real): int { Round(minor as real * multiplier) }

  function FeeFor(t: Tariff, bands: int, expanded: bool): int
  {
    if expanded then Multiplied(PlainFee(t, bands), t.multiplier) else PlainFee(t, bands)
  }

  datatype Fee = Fee(amount: int, surcharge: int)

  function DeliveryFee(t: Tariff, distance: real, expanded: bool): Result<Fee, QuoteError>
  {
    match Bands(distance)
    case Failure(e) => Failure(e)
    case Success(bands) =>
      var plain := FeeFor(t, bands, false);
      if !expanded then Success(Fee(plain, 0))
      else
        var full := FeeFor(t, bands, true);
        Success(Fee(full, full - plain))
  }

  /** Free delivery is for unexpanded orders at or above the threshold, and a zero threshold switches it off. */
  predicate FreeDeliveryApplies(t: Tariff, subtotal: int, expanded: bool)
  {
    !expanded && t.freeAbove != 0 && subtotal >= t.freeAbove
  }

  function AwayFromFree(t: Tariff, subtotal: int, expanded: bool): int
  {
    if expanded || t.freeAbove == 0 || t.freeAbove - subtotal <= 0 then 0 else t.freeAbove - subtotal
  }

  datatype RowKey = SubtotalRow | DeliveryRow | SurchargeRow | FreeDeliveryRow | TotalRow

  datatype Row = Row(key: RowKey, amount: int)

  datatype Quote = Quote(
    subtotal: int, delivery: int, beforeWaiver: int, surcharge: int, free: bool, away: int, total: int,
    distance: real, expanded: bool, rows: seq<Row>)

  function RowsOf(subtotal: int, delivery: int, beforeWaiver: int, surcharge: int, free: bool, total: int, expanded: bool): seq<Row>
  {
    [Row(SubtotalRow, subtotal), Row(DeliveryRow, delivery)] +
    (if expanded && surcharge != 0 then [Row(SurchargeRow, surcharge)] else []) +
    (if free then [Row(FreeDeliveryRow, -beforeWaiver)] else []) +
    [Row(TotalRow, total)]
  }

  function Price(t: Tariff, subtotal: int, distance: real, expanded: bool): Result<Quote, QuoteError>
  {
    if subtotal < 0 then Failure(NegativeSubtotal)
    else
      match DeliveryFee(t, distance, expanded)
      case Failure(e) => Failure(e)
      case Success(fee) =>
        var free := FreeDeliveryApplies(t, subtotal, expanded);
        var charged := if free then 0 else fee.amount;
        var total := subtotal + charged;
        Success(Quote(subtotal, charged, fee.amount, fee.surcharge, free, AwayFromFree(t, subtotal, expanded), total,
                      distance, expanded, RowsOf(subtotal, charged, fee.amount, fee.surcharge, free, total, expanded)))
  }

  // ---------------------------------------------------------------- what the numbers mean

  lemma CeilGrows(x: real, y: real)
    requires x <= y
    ensures Ceil(x) <= Ceil(y)
  {
  }

  lemma RoundGrows(x: real, y: real)
    requires 0.0 <= x <= y
    ensures Round(x) <= Round(y)
  {
  }

  lemma BandedGrows(t: Tariff, a: int, b: int)
    requires Sound(t) && 0 <= a <= b
    ensures 0 <= PlainFee(t, a) <= PlainFee(t, b)
  {
    assert t.perBand * (b - a) >= 0 && t.perBand * a >= 0;
  }

  lemma RoundWhole(n: int)
    requires n >= 0
    ensures Round(n as real) == n
  {
  }

  lemma MultipliedAtLeast(minor: int, m: real)
    requires 0 <= minor && m >= 1.0
    ensures minor <= Multiplied(minor, m)
  {
    var x := minor as real;
    RoundWhole(minor);
    hide Round;
    TimesGrows(1.0, m, x);
    Commutes(m, x);
    RoundGrows(x, x * m);
  }

  lemma MultipliedGrows(minor: int, more: int, m: real)
    requires 0 <= minor <= more && m >= 1.0
    ensures minor <= Multiplied(minor, m) <= Multiplied(more, m)
  {
    MultipliedAtLeast(minor, m);
    hide Round;
    var x, y := minor as real, more as real;
    TimesGrows(x, y, m);
    NonNegative(x, m);
    RoundGrows(x * m, y * m);
  }

  /** In whole bands: a fee never falls with distance, and expanding never lowers it. */
  lemma BandFeeGrows(t: Tariff, near: int, far: int, nearExpanded: bool, farExpanded: bool)
    requires Sound(t) && 0 <= near <= far && (nearExpanded ==> farExpanded)
    ensures 0 <= FeeFor(t, near, nearExpanded) <= FeeFor(t, far, farExpanded)
  {
    hide PlainFee, Multiplied;
    BandedGrows(t, near, far);
    MultipliedGrows(PlainFee(t, near), PlainFee(t, far), t.multiplier);
  }

  lemma BandsGrow(near: real, far: real)
    requires 0.0 <= near <= far
    ensures 0 <= Ceil(near / BAND) <= Ceil(far / BAND)
  {
    DivideGrows(near, far, BAND);
    QuotientIs(0.0, BAND, 0.0);
    DivideGrows(0.0, near, BAND);
    hide Ceil;
    CeilGrows(0.0, near / BAND);
    CeilGrows(near / BAND, far / BAND);
  }

  /** A fee never falls with distance, and expanding never lowers it: across band edges and rounding. */
  lemma FeeGrows(t: Tariff, near: real, far: real, nearExpanded: bool, farExpanded: bool)
    requires Sound(t) && 0.0 <= near <= far && (nearExpanded ==> farExpanded)
    ensures DeliveryFee(t, near, nearExpanded).Success? && DeliveryFee(t, far, farExpanded).Success?
    ensures 0 <= DeliveryFee(t, near, nearExpanded).value.amount <= DeliveryFee(t, far, farExpanded).value.amount
    ensures 0 <= DeliveryFee(t, far, farExpanded).value.surcharge
  {
    hide FeeFor, Ceil;
    BandsGrow(near, far);
    BandFeeGrows(t, Ceil(near / BAND), Ceil(far / BAND), nearExpanded, farExpanded);
    BandFeeGrows(t, Ceil(far / BAND), Ceil(far / BAND), false, farExpanded);
  }

  lemma CeilStep(x: real)
    ensures Ceil(x + 1.0) == Ceil(x) + 1
  {
  }

  lemma CeilEnds(x: real)
    ensures x == 0.0 ==> Ceil(x) == 0
    ensures 0.0 < x <= 1.0 ==> Ceil(x) == 1
  {
  }

  lemma BandEnds(d: real)
    requires d >= 0.0
    ensures d == 0.0 ==> d / BAND == 0.0
    ensures 0.0 < d <= 1000.0 ==> 0.0 < d / BAND <= 1.0
    ensures (d + 1000.0) / BAND == d / BAND + 1.0
  {
    QuotientAtMost(d, BAND, 1.0);
    QuotientAtMost(d, BAND, 0.0);
    Quotient(d, BAND);
    QuotientIs(d + 1000.0, BAND, d / BAND + 1.0);
    if d == 0.0 {
      QuotientIs(0.0, BAND, 0.0);
    }
  }

  /**
   The unexpanded fee is the base at the counter, one rate more for the first thousand metres begun and for each thousand
   after; expansion multiplies it, to the nearest minor unit with halves up, and the difference is the surcharge.
   */
  lemma FeeIsTheTariffs(t: Tariff, d: real)
    requires Sound(t) && d >= 0.0
    ensures DeliveryFee(t, 0.0, false) == Success(Fee(t.base, 0))
    ensures 0.0 < d <= 1000.0 ==> DeliveryFee(t, d, false) == Success(Fee(t.base + t.perBand, 0))
    ensures DeliveryFee(t, d, false).Success? && DeliveryFee(t, d + 1000.0, false).Success?
    ensures DeliveryFee(t, d + 1000.0, false).value.amount == DeliveryFee(t, d, false).value.amount + t.perBand
    ensures DeliveryFee(t, d, true).Success?
    ensures var plain, full := DeliveryFee(t, d, false).value.amount, DeliveryFee(t, d, true).value;
            && -0.5 < full.amount as real - plain as real * t.multiplier <= 0.5
            && full.surcharge == full.amount - plain
  {
    PlainBands(t, d);
    FeeGrows(t, d, d, false, true);
    ExpandedIsMultiplied(t, d);
  }

  lemma PlainBands(t: Tariff, d: real)
    requires Sound(t) && d >= 0.0
    ensures Bands(0.0) == Success(0) && PlainFee(t, 0) == t.base
    ensures 0.0 < d <= 1000.0 ==> Bands(d) == Success(1) && PlainFee(t, 1) == t.base + t.perBand
    ensures Bands(d).Success? && Bands(d + 1000.0) == Success(Bands(d).value + 1)
    ensures PlainFee(t, Bands(d).value + 1) == PlainFee(t, Bands(d).value) + t.perBand
  {
    BandEnds(0.0);
    BandEnds(d);
    CeilEnds(0.0);
    CeilEnds(d / BAND);
    CeilStep(d / BAND);
    var n := Ceil(d / BAND);
    hide Ceil;
    assert t.perBand * (n + 1) == t.perBand * n + t.perBand;
  }

  lemma ExpandedIsMultiplied(t: Tariff, d: real)
    requires Sound(t) && d >= 0.0
    ensures DeliveryFee(t, d, false).Success? && DeliveryFee(t, d, true).Success?
    ensures var plain, full := DeliveryFee(t, d, false).value.amount, DeliveryFee(t, d, true).value;
            && -0.5 < full.amount as real - plain as real * t.multiplier <= 0.5
            && full.surcharge == full.amount - plain
  {
    FeeGrows(t, d, d, false, true);
    NonNegativeBands(t, d);
    var n := Bands(d).value;
    MultipliedNearest(PlainFee(t, n), t.multiplier);
    hide Ceil, Multiplied, PlainFee;
  }

  lemma NonNegativeBands(t: Tariff, d: real)
    requires Sound(t) && d >= 0.0
    ensures Bands(d).Success? && Bands(d).value >= 0 && PlainFee(t, Bands(d).value) >= 0
  {
    QuotientAtMost(-d, BAND, 0.0);
    DivideGrows(0.0, d, BAND);
    QuotientIs(0.0, BAND, 0.0);
    assert t.perBand * Bands(d).value >= 0;
  }

  lemma MultipliedNearest(minor: int, m: real)
    requires minor >= 0 && m >= 1.0
    ensures -0.5 < Multiplied(minor, m) as real - minor as real * m <= 0.5
  {
    NonNegative(minor as real, m);
  }

  /** What has no price. */
  lemma NoQuote(t: Tariff, subtotal: int, distance: real, expanded: bool)
    ensures DeliveryFee(t, distance, expanded).Failure? <==> distance < 0.0
    ensures Price(t, subtotal, distance, expanded) == Failure(NegativeSubtotal) <==> subtotal < 0
    ensures Price(t, subtotal, distance, expanded) == Failure(NegativeDistance) <==> subtotal >= 0 && distance < 0.0
  {
  }

  /** The quote adds up, its surcharge is what expansion added, and its nudge is the least spend that earns the waiver. */
  lemma QuoteAddsUp(t: Tariff, subtotal: int, distance: real, expanded: bool)
    requires Sound(t) && subtotal >= 0 && distance >= 0.0
    ensures var q := Price(t, subtotal, distance, expanded);
            && q.Success?
            && q.value.total == subtotal + q.value.delivery && q.value.total >= subtotal
            && q.value.delivery == (if q.value.free then 0 else q.value.beforeWaiver)
            && (q.value.free <==> !expanded && t.freeAbove != 0 && subtotal >= t.freeAbove)
            && q.value.subtotal == subtotal && q.value.distance == distance && q.value.expanded == expanded
            && q.value.beforeWaiver == DeliveryFee(t, distance, expanded).value.amount
            && q.value.beforeWaiver - q.value.surcharge == DeliveryFee(t, distance, false).value.amount
            && (q.value.away > 0 ==> !q.value.free && Price(t, subtotal + q.value.away, distance, expanded).value.free
                                     && !Price(t, subtotal + q.value.away - 1, distance, expanded).value.free)
            && (q.value.away == 0 && !q.value.free <==> expanded || t.freeAbove == 0)
  {
    FeeGrows(t, distance, distance, expanded, expanded);
  }

  /** The receipt opens with the goods and the delivery, closes with the total, and shows a surcharge or a waiver iff there is one. */
  lemma ReceiptShape(t: Tariff, subtotal: int, distance: real, expanded: bool)
    requires Price(t, subtotal, distance, expanded).Success?
    ensures var q := Price(t, subtotal, distance, expanded).value;
            && |q.rows| >= 3
            && q.rows[0] == Row(SubtotalRow, subtotal) && q.rows[1] == Row(DeliveryRow, q.delivery)
            && q.rows[|q.rows| - 1] == Row(TotalRow, q.total)
            && (Row(SurchargeRow, q.surcharge) in q.rows <==> q.expanded && q.surcharge != 0)
            && (Row(FreeDeliveryRow, -q.beforeWaiver) in q.rows <==> q.free)
  {
  }
}
