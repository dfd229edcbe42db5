/** The arithmetic of the leverage calculator: the four derived-value
    formulas, the leverage clamp, the recompute rules that apply them to the
    form's fields, and the figures shown on the result cards. */
module Formulas {

  import opened Fields

  datatype Position = Long | Short

  const MIN_LEVERAGE: real := 1.0
  const MAX_LEVERAGE: real := 150.0

  // ---------------------------------------------------------------------
  // Total amount and quantity

  /** Total amount of a position: entry price times quantity. */
  function Total(entry: real, qty: real): real
  {
    entry * qty
  }

  /** Quantity derived from a total amount typed by the user. */
  function QuantityFromTotal(total: real, entry: real): (qty: real)
    requires entry != 0.0
    ensures Total(entry, qty) == total
  {
    total / entry
  }

  /** The other direction of the round trip: a quantity whose total is
      derived and then divided back returns unchanged, and it is the only
      quantity with that total. */
  lemma QuantityFromTotalInverts(entry: real, qty: real, total: real)
    requires entry != 0.0
    ensures QuantityFromTotal(Total(entry, qty), entry) == qty
    ensures Total(entry, qty) == total <==> qty == QuantityFromTotal(total, entry)
  {
    var q := QuantityFromTotal(Total(entry, qty), entry);
    assert entry * q == entry * qty;
    CancelFactor(entry, q, qty);
    if Total(entry, qty) == total {
      CancelFactor(entry, qty, QuantityFromTotal(total, entry));
    }
  }

  lemma CancelFactor(c: real, x: real, y: real)
    requires c != 0.0 && c * x == c * y
    ensures x == y
  {
    assert c * (x - y) == 0.0;
  }

  // ---------------------------------------------------------------------
  // Liquidation price

  /** The price at which a position opened at `entry` with the given
      leverage is liquidated. */
  function LiquidationPrice(pos: Position, entry: real, leverage: real): real
    requires leverage != 0.0
  {
    match pos
    case Long => entry * (1.0 - 1.0 / leverage)
    case Short => entry * (1.0 + 1.0 / leverage)
  }

  lemma InverseBounds(leverage: real)
    requires leverage >= MIN_LEVERAGE
    ensures 0.0 < 1.0 / leverage <= 1.0
  {
    var inv := 1.0 / leverage;
    assert inv * leverage == 1.0;
  }

  /** A long position opened at a non-negative price is liquidated between 0
      and the entry price, at exactly 0 without leverage. */
  lemma LongLiquidationBounds(entry: real, leverage: real)
    requires entry >= 0.0 && leverage >= MIN_LEVERAGE
    ensures 0.0 <= LiquidationPrice(Long, entry, leverage) <= entry
    ensures leverage == 1.0 ==> LiquidationPrice(Long, entry, leverage) == 0.0
  {
    InverseBounds(leverage);
    var f := 1.0 - 1.0 / leverage;
    assert 0.0 <= f < 1.0;
    assert 0.0 <= entry * f <= entry * 1.0;
  }

  /** A short position opened at a non-negative price is liquidated between
      the entry price and twice the entry price. */
  lemma ShortLiquidationBounds(entry: real, leverage: real)
    requires entry >= 0.0 && leverage >= MIN_LEVERAGE
    ensures entry <= LiquidationPrice(Short, entry, leverage) <= 2.0 * entry
  {
    InverseBounds(leverage);
    var f := 1.0 + 1.0 / leverage;
    assert 1.0 < f <= 2.0;
    assert entry * 1.0 <= entry * f <= entry * 2.0;
  }

  /** The long and the short liquidation prices lie symmetrically around the
      entry price, at a distance of entry / leverage. */
  lemma LiquidationSymmetry(entry: real, leverage: real)
    requires leverage != 0.0
    ensures LiquidationPrice(Long, entry, leverage) == entry - entry / leverage
    ensures LiquidationPrice(Short, entry, leverage) == entry + entry / leverage
  {
    assert entry * (1.0 / leverage) == entry / leverage;
  }

  // ---------------------------------------------------------------------
  // Profit rate and profit amount

  /** Profit in percent of the margin: the price move relative to the entry
      price, amplified by the leverage; positive when the position gains. */
  function ProfitRate(pos: Position, entry: real, current: real, leverage: real): real
    requires entry != 0.0
  {
    match pos
    case Long => ((current - entry) / entry) * leverage * 100.0
    case Short => ((entry - current) / entry) * leverage * 100.0
  }

  /** Profit in money: the price move times the quantity, amplified by the
      leverage. */
  function ProfitAmount(pos: Position, entry: real, current: real, qty: real, leverage: real): real
  {
    match pos
    case Long => (current - entry) * qty * leverage
    case Short => (entry - current) * qty * leverage
  }

  /** A short position gains exactly what a long one loses, and both are flat
      when the current price equals the entry price. */
  lemma ProfitSymmetry(entry: real, current: real, qty: real, leverage: real)
    requires entry != 0.0
    ensures ProfitRate(Short, entry, current, leverage) == -ProfitRate(Long, entry, current, leverage)
    ensures ProfitAmount(Short, entry, current, qty, leverage) == -ProfitAmount(Long, entry, current, qty, leverage)
    ensures current == entry ==> ProfitRate(Long, entry, current, leverage) == 0.0
    ensures current == entry ==> ProfitAmount(Long, entry, current, qty, leverage) == 0.0
  {
    assert (entry - current) / entry == -((current - entry) / entry);
  }

  /** The profit amount vanishes exactly when there is no quantity or no
      price move (leverage is never 0 in the form). */
  lemma ProfitAmountZeroIff(pos: Position, entry: real, current: real, qty: real, leverage: real)
    requires leverage != 0.0
    ensures ProfitAmount(pos, entry, current, qty, leverage) == 0.0 <==> qty == 0.0 || current == entry
  {
    var move := if pos == Long then current - entry else entry - current;
    assert ProfitAmount(pos, entry, current, qty, leverage) == (move * qty) * leverage;
    if move * qty != 0.0 {
      assert (move * qty) * leverage != 0.0;
    }
  }

  /** An empty, unparseable or zero quantity field gives a zero profit
      amount, through `Number(quantity) || 0`. */
  lemma ProfitAmountWithoutQuantity(pos: Position, entry: real, current: real, qty: Field, leverage: real)
    requires !(qty.Num? && qty.r != 0.0)
    ensures ProfitAmount(pos, entry, current, NumberOrZero(qty), leverage) == 0.0
  {
  }

  /** With a positive entry price and any leverage of the form, a long
      position shows a gain exactly when the price went up and a loss exactly
      when it went down. */
  lemma LongRateSign(entry: real, current: real, leverage: real)
    requires entry > 0.0 && leverage >= MIN_LEVERAGE
    ensures ProfitRate(Long, entry, current, leverage) > 0.0 <==> current > entry
    ensures ProfitRate(Long, entry, current, leverage) < 0.0 <==> current < entry
  {
    var rel := (current - entry) / entry;
    assert rel * entry == current - entry;
    var k := leverage * 100.0;
    assert ProfitRate(Long, entry, current, leverage) == rel * k;
    assert k > 0.0;
    PositiveFactorSign(rel, k);
    PositiveFactorSign(rel, entry);
  }

  lemma PositiveFactorSign(x: real, k: real)
    requires k > 0.0
    ensures x * k > 0.0 <==> x > 0.0
    ensures x * k < 0.0 <==> x < 0.0
  {
  }

  /** The short rate has the opposite sign: a gain exactly when the price
      went down. */
  lemma ShortRateSign(entry: real, current: real, leverage: real)
    requires entry > 0.0 && leverage >= MIN_LEVERAGE
    ensures ProfitRate(Short, entry, current, leverage) > 0.0 <==> current < entry
    ensures ProfitRate(Short, entry, current, leverage) < 0.0 <==> current > entry
  {
    ProfitSymmetry(entry, current, 0.0, leverage);
    LongRateSign(entry, current, leverage);
  }

  /** The two outputs agree: the amount is the rate, as a fraction, of the
      position's total amount. */
  lemma ProfitAmountFromRate(pos: Position, entry: real, current: real, qty: real, leverage: real)
    requires entry != 0.0
    ensures ProfitAmount(pos, entry, current, qty, leverage)
         == ProfitRate(pos, entry, current, leverage) / 100.0 * Total(entry, qty)
  {
    var move := if pos == Long then current - entry else entry - current;
    var rel := move / entry;
    assert rel * entry == move;
    assert ProfitRate(pos, entry, current, leverage) / 100.0 == rel * leverage;
    calc {
      rel * leverage * (entry * qty);
      (rel * entry) * qty * leverage;
      move * qty * leverage;
    }
  }

  lemma ScaleLe(x: real, y: real, k: real)
    requires k > 0.0
    ensures x * k <= y * k <==> x <= y
  {
  }

  /** The two formulas agree on what liquidation means: at the liquidation
      price the leveraged loss is exactly the whole margin, a rate of -100%
      and an amount of minus the total amount. */
  lemma LiquidationIsTotalLoss(pos: Position, entry: real, qty: real, leverage: real)
    requires entry != 0.0 && leverage != 0.0
    ensures ProfitRate(pos, entry, LiquidationPrice(pos, entry, leverage), leverage) == -100.0
    ensures ProfitAmount(pos, entry, LiquidationPrice(pos, entry, leverage), qty, leverage) == -Total(entry, qty)
  {
    LiquidationSymmetry(entry, leverage);
    var d := entry / leverage;
    var rel := (-d) / entry;
    assert entry * rel == -d;
    assert entry * (-1.0 / leverage) == -d;
    CancelFactor(entry, rel, -1.0 / leverage);
    assert (-1.0 / leverage) * leverage == -1.0;
    if pos == Short {
      assert (entry - LiquidationPrice(pos, entry, leverage)) / entry == rel;
    } else {
      assert (LiquidationPrice(pos, entry, leverage) - entry) / entry == rel;
    }
    assert rel * leverage * 100.0 == -100.0;
    assert d * leverage == entry;
  }

  /** With a positive entry price the rate reaches -100% exactly when the
      current price is at or beyond the liquidation price: at or below it for
      a long position, at or above it for a short one. */
  lemma LiquidatedIff(pos: Position, entry: real, current: real, leverage: real)
    requires entry > 0.0 && leverage >= MIN_LEVERAGE
    ensures ProfitRate(pos, entry, current, leverage) <= -100.0
        <==> if pos == Long then current <= LiquidationPrice(pos, entry, leverage)
             else current >= LiquidationPrice(pos, entry, leverage)
  {
    LiquidationSymmetry(entry, leverage);
    var move := if pos == Long then current - entry else entry - current;
    var rel := move / entry;
    assert rel * entry == move;
    var k := leverage * 100.0;
    assert ProfitRate(pos, entry, current, leverage) == rel * k;
    var bound := -1.0 / leverage;
    assert bound * k == -100.0;
    ScaleLe(rel, bound, k);
    assert bound * entry == -(entry / leverage);
    ScaleLe(rel, bound, entry);
  }

  // ---------------------------------------------------------------------
  // Leverage clamp

  /** The value the leverage input hands to `setLeverage` for the number it
      read, or `None` when it calls no setter: NaN fails every comparison. */
  function LeverageWrite(input: Option<real>): (w: Option<real>)
    ensures w.Some? <==> input.Some?
    ensures w.Some? ==> MIN_LEVERAGE <= w.value <= MAX_LEVERAGE
    ensures input.Some? && MIN_LEVERAGE <= input.value <= MAX_LEVERAGE ==> w == input
    ensures input.Some? && input.value > MAX_LEVERAGE ==> w == Some(MAX_LEVERAGE)
    ensures input.Some? && input.value < MIN_LEVERAGE ==> w == Some(MIN_LEVERAGE)
  {
    match input
    case None => None
    case Some(val) =>
      if val >= MIN_LEVERAGE && val <= MAX_LEVERAGE then Some(val)
      else if val > MAX_LEVERAGE then Some(MAX_LEVERAGE)
      else Some(MIN_LEVERAGE)
  }

  /** The clamp picks the leverage of the form nearest to what was typed, and
      clamping twice changes nothing. */
  lemma LeverageWriteNearest(val: real, other: real)
    requires MIN_LEVERAGE <= other <= MAX_LEVERAGE
    ensures LeverageWrite(LeverageWrite(Some(val))) == LeverageWrite(Some(val))
    ensures Abs(LeverageWrite(Some(val)).value - val) <= Abs(other - val)
  {
  }

  // ---------------------------------------------------------------------
  // Recompute rules: each applies a formula to the form's fields when the
  // guard of its effect holds, and otherwise leaves the stale value.

  /** Effect 1: total := entry * quantity once both fields parse. */
  function AutoFilledTotal(entry: Field, qty: Field, stale: Field): Field
  {
    if Ready(entry) && Ready(qty) then Num(Total(entry.r, qty.r)) else stale
  }

  /** Effect 2: the liquidation price once the entry price parses. */
  function RecomputedLiquidation(pos: Position, entry: Field, leverage: real, stale: real): real
    requires leverage != 0.0
  {
    if Ready(entry) then LiquidationPrice(pos, entry.r, leverage) else stale
  }

  datatype Profit = Profit(rate: real, amount: real)

  /** The source divides by the entry price once the profit rule's guard
      holds and does not guard a zero entry price. */
  predicate ProfitDivisionDefined(entry: Field, current: Field)
  {
    Ready(current) && Ready(entry) ==> entry.r != 0.0
  }

  /** Effect 3: profit rate and amount once the current and entry prices
      parse; the quantity reads as `Number(quantity) || 0`. */
  function RecomputedProfit(pos: Position, current: Field, entry: Field, qty: Field, leverage: real, stale: Profit): Profit
    requires ProfitDivisionDefined(entry, current)
  {
    if Ready(current) && Ready(entry) then
      Profit(ProfitRate(pos, entry.r, current.r, leverage),
             ProfitAmount(pos, entry.r, current.r, NumberOrZero(qty), leverage))
    else stale
  }

  /** A rule whose guard fails keeps the stale value, and a rule applied a
      second time to unchanged inputs changes nothing. */
  lemma RulesKeepStaleValues(pos: Position, current: Field, entry: Field, qty: Field, leverage: real,
                             total: Field, liquidation: real, profit: Profit)
    requires leverage != 0.0 && ProfitDivisionDefined(entry, current)
    ensures !(entry.Num? && qty.Num?) ==> AutoFilledTotal(entry, qty, total) == total
    ensures !entry.Num? ==> RecomputedLiquidation(pos, entry, leverage, liquidation) == liquidation
    ensures !(current.Num? && entry.Num?) ==> RecomputedProfit(pos, current, entry, qty, leverage, profit) == profit
    ensures var t := AutoFilledTotal(entry, qty, total); AutoFilledTotal(entry, qty, t) == t
    ensures var l := RecomputedLiquidation(pos, entry, leverage, liquidation);
            RecomputedLiquidation(pos, entry, leverage, l) == l
    ensures var p := RecomputedProfit(pos, current, entry, qty, leverage, profit);
            RecomputedProfit(pos, current, entry, qty, leverage, p) == p
  {
  }

  /** After a total edit derives the quantity, the auto-fill that the new
      quantity triggers writes back the very total that was typed. */
  lemma TotalEditRoundTrip(entry: real, total: real, stale: Field)
    requires entry != 0.0
    ensures AutoFilledTotal(Num(entry), Num(QuantityFromTotal(total, entry)), stale) == Num(total)
  {
  }

  // ---------------------------------------------------------------------
  // Result cards

  function Abs(x: real): real
  {
    if x < 0.0 then -x else x
  }

  /** The distance from the entry price to the liquidation price. */
  function LiquidationDistance(entry: real, liquidation: real): real
  {
    Abs(entry - liquidation)
  }

  /** The move from the entry price to the liquidation price, in percent of
      the entry price. */
  function LiquidationPercent(entry: real, liquidation: real): real
    requires entry != 0.0
  {
    ((liquidation - entry) / entry) * 100.0
  }

  /** The liquidation price lies |entry| / leverage away from the entry
      price, on either side. */
  lemma DistanceIsEntryOverLeverage(pos: Position, entry: real, leverage: real)
    requires leverage > 0.0
    ensures LiquidationDistance(entry, LiquidationPrice(pos, entry, leverage)) == Abs(entry) / leverage
  {
    LiquidationSymmetry(entry, leverage);
    var d := entry / leverage;
    assert d * leverage == entry;
    if entry < 0.0 {
      assert d < 0.0;
      assert -d == -entry / leverage;
    } else {
      assert d >= 0.0;
    }
  }

  /** In percent the move to liquidation is -100 / leverage for a long
      position and +100 / leverage for a short one, whatever the price. */
  lemma PercentIsHundredOverLeverage(pos: Position, entry: real, leverage: real)
    requires entry != 0.0 && leverage != 0.0
    ensures LiquidationPercent(entry, LiquidationPrice(pos, entry, leverage))
         == if pos == Long then -100.0 / leverage else 100.0 / leverage
  {
    LiquidationSymmetry(entry, leverage);
    var d := entry / leverage;
    var rel := d / entry;
    assert entry * rel == d;
    assert entry * (1.0 / leverage) == d;
    CancelFactor(entry, rel, 1.0 / leverage);
    if pos == Long {
      assert (-d) / entry == -rel;
    }
  }

  /** The liquidation card is rendered whenever the entry price field is
      non-empty, even when it does not parse. */
  function LiquidationCardShown(entry: Field): bool
  {
    entry != Empty
  }

  /** The profit card is rendered whenever both price fields are non-empty. */
  function ProfitCardShown(current: Field, entry: Field): bool
  {
    current != Empty && entry != Empty
  }

  /** The profit amount row is rendered for a positive quantity only. */
  function ProfitAmountShown(qty: Field): (shown: bool)
    ensures shown <==> qty.Num? && qty.r > 0.0
    ensures shown ==> NumberOrZero(qty) > 0.0
  {
    qty != Empty && match ToNumber(qty) case Some(n) => n > 0.0 case None => false
  }

  /** A card is shown for every input its rule computes from, and a card
      whose rule is not ready shows a stale value only for unparseable
      text. */
  lemma CardsFollowRules(current: Field, entry: Field)
    ensures entry.Num? ==> LiquidationCardShown(entry)
    ensures LiquidationCardShown(entry) && !entry.Num? <==> entry == Invalid
    ensures current.Num? && entry.Num? ==> ProfitCardShown(current, entry)
    ensures ProfitCardShown(current, entry) && !(current.Num? && entry.Num?)
        <==> (current == Invalid || entry == Invalid) && current != Empty && entry != Empty
  {
  }
}
