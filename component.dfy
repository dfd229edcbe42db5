/** The calculator component: its nine pieces of state, the handlers the
    inputs call, and the three effects React runs after a handler when one of
    their dependencies changed. */
module Component {

  import opened Fields
  import opened Formulas

  class Home {
    var positionType: Position
    var entryPrice: Field
    var quantity: Field
    var totalAmount: Field
    var leverage: real
    var liquidationPrice: real
    var currentPrice: Field
    var calculatedProfitRate: real
    var calculatedProfitAmount: real

    /** Leverage stays within the form's bounds, no prices are entered that
        would make the profit rule divide by zero, and the liquidation and
        profit rules have nothing left to recompute. The total amount has no
        such invariant: the user may overwrite it. */
    ghost predicate Valid()
      reads this
    {
      && MIN_LEVERAGE <= leverage <= MAX_LEVERAGE
      && ProfitDivisionDefined(entryPrice, currentPrice)
      && RecomputedLiquidation(positionType, entryPrice, leverage, liquidationPrice) == liquidationPrice
      && RecomputedProfit(positionType, currentPrice, entryPrice, quantity, leverage, CurrentProfit()) == CurrentProfit()
    }

    function CurrentProfit(): Profit
      reads this
    {
      Profit(calculatedProfitRate, calculatedProfitAmount)
    }

    /** The initial state. On mount React runs every effect once; with an
        empty entry price each of them does nothing. */
    constructor ()
      ensures Valid()
      ensures positionType == Long && leverage == 1.0
      ensures entryPrice == Empty && quantity == Empty && totalAmount == Empty && currentPrice == Empty
      ensures liquidationPrice == 0.0 && calculatedProfitRate == 0.0 && calculatedProfitAmount == 0.0
    {
      positionType := Long;
      entryPrice := Empty;
      quantity := Empty;
      totalAmount := Empty;
      leverage := 1.0;
      liquidationPrice := 0.0;
      currentPrice := Empty;
      calculatedProfitRate := 0.0;
      calculatedProfitAmount := 0.0;
      new;
      FillTotalAmount();
      RecomputeLiquidation();
      RecomputeProfit();
    }

    // -------------------------------------------------------------------
    // Effects

    /** Effect 1, keyed on the entry price and the quantity: writes only the
        total amount. */
    method FillTotalAmount()
      modifies this`totalAmount
      ensures totalAmount == AutoFilledTotal(entryPrice, quantity, old(totalAmount))
      ensures entryPrice.Num? && quantity.Num? ==> totalAmount == Num(entryPrice.r * quantity.r)
    {
      if Ready(entryPrice) && Ready(quantity) {
        var total := Total(entryPrice.r, quantity.r);
        totalAmount := Num(total);
      }
    }

    /** Effect 2, keyed on the entry price, the leverage and the position
        type: writes only the liquidation price. */
    method RecomputeLiquidation()
      requires leverage != 0.0
      modifies this`liquidationPrice
      ensures liquidationPrice == RecomputedLiquidation(positionType, entryPrice, leverage, old(liquidationPrice))
    {
      if Ready(entryPrice) {
        liquidationPrice := LiquidationPrice(positionType, entryPrice.r, leverage);
      }
    }

    /** Effect 3, keyed on the current price, the entry price, the leverage,
        the quantity and the position type: writes only the profit rate and
        the profit amount. */
    method RecomputeProfit()
      requires ProfitDivisionDefined(entryPrice, currentPrice)
      modifies this`calculatedProfitRate, this`calculatedProfitAmount
      ensures CurrentProfit() == RecomputedProfit(positionType, currentPrice, entryPrice, quantity, leverage,
                                                  old(CurrentProfit()))
    {
      if Ready(currentPrice) && Ready(entryPrice) {
        var current := currentPrice.r;
        var entry := entryPrice.r;
        var qty := NumberOrZero(quantity);
        calculatedProfitRate := ProfitRate(positionType, entry, current, leverage);
        calculatedProfitAmount := ProfitAmount(positionType, entry, current, qty, leverage);
      }
    }

    // -------------------------------------------------------------------
    // Handlers. A setter given the value the state already holds causes no
    // re-render; a text input's onChange fires only when its text changed,
    // so an edit always counts as a change of that dependency.

    /** The long / short buttons. */
    method SelectPosition(p: Position)
      requires Valid()
      modifies this
      ensures Valid()
      ensures positionType == p
      ensures entryPrice == old(entryPrice) && quantity == old(quantity) && totalAmount == old(totalAmount)
      ensures leverage == old(leverage) && currentPrice == old(currentPrice)
      ensures liquidationPrice == RecomputedLiquidation(p, entryPrice, leverage, old(liquidationPrice))
      ensures CurrentProfit() == RecomputedProfit(p, currentPrice, entryPrice, quantity, leverage, old(CurrentProfit()))
    {
      if p != positionType {
        positionType := p;
        RecomputeLiquidation();
        RecomputeProfit();
      }
    }

    /** The entry price input: every effect lists the entry price. */
    method EditEntryPrice(v: Field)
      requires Valid()
      requires ProfitDivisionDefined(v, currentPrice)
      modifies this
      ensures Valid()
      ensures entryPrice == v
      ensures positionType == old(positionType) && quantity == old(quantity)
      ensures leverage == old(leverage) && currentPrice == old(currentPrice)
      ensures totalAmount == AutoFilledTotal(v, quantity, old(totalAmount))
      ensures liquidationPrice == RecomputedLiquidation(positionType, v, leverage, old(liquidationPrice))
      ensures CurrentProfit() == RecomputedProfit(positionType, currentPrice, v, quantity, leverage, old(CurrentProfit()))
    {
      entryPrice := v;
      FillTotalAmount();
      RecomputeLiquidation();
      RecomputeProfit();
    }

    /** The quantity input: the auto-fill and the profit effect list it. */
    method EditQuantity(v: Field)
      requires Valid()
      modifies this
      ensures Valid()
      ensures quantity == v
      ensures positionType == old(positionType) && entryPrice == old(entryPrice)
      ensures leverage == old(leverage) && currentPrice == old(currentPrice)
      ensures liquidationPrice == old(liquidationPrice)
      ensures totalAmount == AutoFilledTotal(entryPrice, v, old(totalAmount))
      ensures CurrentProfit() == RecomputedProfit(positionType, currentPrice, entryPrice, v, leverage, old(CurrentProfit()))
    {
      quantity := v;
      FillTotalAmount();
      RecomputeProfit();
    }

    /** `handleTotalAmountChange`: keeps the typed total and, when it and the
        entry price parse, back-fills the quantity; the new quantity then
        triggers the auto-fill, which writes the same total back. */
    method EditTotalAmount(v: Field)
      requires Valid()
      requires entryPrice.Num? && v.Num? ==> entryPrice.r != 0.0
      modifies this
      ensures Valid()
      ensures positionType == old(positionType) && entryPrice == old(entryPrice)
      ensures leverage == old(leverage) && currentPrice == old(currentPrice)
      ensures totalAmount == v
      ensures quantity == if entryPrice.Num? && v.Num? then Num(QuantityFromTotal(v.r, entryPrice.r)) else old(quantity)
      ensures liquidationPrice == old(liquidationPrice)
      ensures CurrentProfit() == RecomputedProfit(positionType, currentPrice, entryPrice, quantity, leverage, old(CurrentProfit()))
      ensures entryPrice.Num? && v.Num? ==> AutoFilledTotal(entryPrice, quantity, totalAmount) == totalAmount
    {
      totalAmount := v;
      if Ready(entryPrice) && Ready(v) {
        var qty := QuantityFromTotal(v.r, entryPrice.r);
        if Num(qty) != quantity {
          quantity := Num(qty);
          FillTotalAmount();
          RecomputeProfit();
        }
      }
    }

    /** `setLeverage`, from the range slider, whose value the browser keeps
        within its min and max, or from the clamp of the number input.
        Liquidation and profit list the leverage. */
    method SetLeverage(l: real)
      requires Valid()
      requires MIN_LEVERAGE <= l <= MAX_LEVERAGE
      modifies this
      ensures Valid()
      ensures leverage == l
      ensures positionType == old(positionType) && entryPrice == old(entryPrice) && quantity == old(quantity)
      ensures totalAmount == old(totalAmount) && currentPrice == old(currentPrice)
      ensures liquidationPrice == RecomputedLiquidation(positionType, entryPrice, l, old(liquidationPrice))
      ensures CurrentProfit() == RecomputedProfit(positionType, currentPrice, entryPrice, quantity, l, old(CurrentProfit()))
    {
      if l != leverage {
        leverage := l;
        RecomputeLiquidation();
        RecomputeProfit();
      }
    }

    /** The leverage number input: clamps what `Number` reads to [1, 150] and
        does nothing for NaN. */
    method EditLeverage(input: Field)
      requires Valid()
      modifies this
      ensures Valid()
      ensures match LeverageWrite(ToNumber(input))
              case Some(l) => leverage == l
              case None => leverage == old(leverage)
      ensures positionType == old(positionType) && entryPrice == old(entryPrice) && quantity == old(quantity)
      ensures totalAmount == old(totalAmount) && currentPrice == old(currentPrice)
      ensures liquidationPrice == RecomputedLiquidation(positionType, entryPrice, leverage, old(liquidationPrice))
      ensures CurrentProfit() == RecomputedProfit(positionType, currentPrice, entryPrice, quantity, leverage, old(CurrentProfit()))
    {
      match ToNumber(input)
      case None =>
      case Some(val) =>
        if val >= MIN_LEVERAGE && val <= MAX_LEVERAGE {
          SetLeverage(val);
        } else if val > MAX_LEVERAGE {
          SetLeverage(MAX_LEVERAGE);
        } else if val < MIN_LEVERAGE {
          SetLeverage(MIN_LEVERAGE);
        }
    }

    /** The current price input: only the profit effect lists it. */
    method EditCurrentPrice(v: Field)
      requires Valid()
      requires ProfitDivisionDefined(entryPrice, v)
      modifies this
      ensures Valid()
      ensures currentPrice == v
      ensures positionType == old(positionType) && entryPrice == old(entryPrice) && quantity == old(quantity)
      ensures totalAmount == old(totalAmount) && leverage == old(leverage)
      ensures liquidationPrice == old(liquidationPrice)
      ensures CurrentProfit() == RecomputedProfit(positionType, v, entryPrice, quantity, leverage, old(CurrentProfit()))
    {
      currentPrice := v;
      RecomputeProfit();
    }

    // -------------------------------------------------------------------
    // What the result cards show

    /** The distance under the liquidation price: |entry| / leverage. */
    function ShownDistance(): (d: real)
      reads this
      requires Valid() && entryPrice.Num?
      ensures d == Abs(entryPrice.r) / leverage
    {
      DistanceIsEntryOverLeverage(positionType, entryPrice.r, leverage);
      LiquidationDistance(entryPrice.r, liquidationPrice)
    }

    /** The percentage beside it: -100 / leverage for long, +100 / leverage
        for short. */
    function ShownPercent(): (pct: real)
      reads this
      requires Valid() && entryPrice.Num? && entryPrice.r != 0.0
      ensures pct == if positionType == Long then -100.0 / leverage else 100.0 / leverage
    {
      PercentIsHundredOverLeverage(positionType, entryPrice.r, leverage);
      LiquidationPercent(entryPrice.r, liquidationPrice)
    }
  }

  /** Worked examples driven through the handlers. */
  method Scenario()
  {
    var h := new Home();
    h.EditEntryPrice(Num(100.0));
    h.EditQuantity(Num(2.0));
    assert h.totalAmount == Num(200.0);
    assert h.liquidationPrice == 0.0;
    h.SetLeverage(10.0);
    assert h.liquidationPrice == 90.0;
    h.EditCurrentPrice(Num(110.0));
    assert h.calculatedProfitRate == 100.0;
    h.SelectPosition(Short);
    h.SetLeverage(5.0);
    h.EditCurrentPrice(Num(90.0));
    assert h.calculatedProfitAmount == 100.0;
    h.EditTotalAmount(Num(500.0));
    assert h.quantity == Num(5.0) && h.totalAmount == Num(500.0);
    h.EditLeverage(Num(-5.0));
    assert h.leverage == 1.0;
    h.EditLeverage(Num(200.0));
    assert h.leverage == 150.0;
    h.EditLeverage(Invalid);
    assert h.leverage == 150.0;
    var stale := h.liquidationPrice;
    h.EditEntryPrice(Empty);
    assert h.liquidationPrice == stale;
  }
}
