# Leverage calculator — Dafny model

A model of the reactive core of a client-side leverage-trading calculator
(the `Home` component of `src/app/page.tsx`). The user sets a position type
(long or short), an entry price, a quantity or a total amount, a leverage
between 1x and 150x, and a current market price. The component derives the
total amount, the liquidation price and the profit rate and amount, and
shows the distance from the entry price to liquidation.

The project has three modules:

- `Fields` (`fields.dfy`) models a numeric text input as
  `Empty | Invalid | Num(r)`. `ToNumber` is JavaScript's `Number(text)`:
  the empty string reads as 0 and unparseable text as NaN. `Ready` is the
  guard `text && !isNaN(Number(text))` that every recompute rule applies, and
  it holds exactly of `Num`. `NumberOrZero` is `Number(quantity) || 0`.
- `Formulas` (`formulas.dfy`) holds the pure parts: the total and quantity
  formulas; the long and short liquidation prices; the profit rate and
  amount; the leverage clamp; the three recompute rules as functions of the
  fields and the stale value; the figures on the liquidation card; and the
  card visibility conditions. Lemmas state their bounds, signs, symmetries
  and round trips.
- `Component` (`component.dfy`) holds the class `Home`. Its nine fields are
  the component's `useState` values. Each effect is a method that writes
  only the state its setter writes (``modifies this`totalAmount`` and so on).
  Each handler is a method that writes its field and then runs, in
  declaration order, the effects whose dependency lists it changed. A setter
  given the value the state already holds causes no re-render, so the
  position buttons, the leverage setter and the quantity back-fill run
  effects only on a real change. A text input's `onChange` fires only when
  its text changed, so a text edit always counts as a change. `Valid()` is
  the invariant every handler keeps:
  - the leverage lies in [1, 150];
  - no division by a zero entry price is pending;
  - the liquidation and profit rules have nothing left to recompute.

  Every handler states its whole new state in terms of the recompute rules.
  Effect 1 writes only `totalAmount`, and no rule reads it, so every edit
  settles after one round.

Numbers are `real`. The written total `total.toString()` and the back-filled
quantity `qty.toString()` are modelled as `Num` of that value.

Three points where the code's behaviour is easy to misread:

- The back-filled quantity does trigger the total auto-fill, which rewrites
  the total. In real arithmetic it writes back exactly the typed total:
  `EditTotalAmount` and `TotalEditRoundTrip` prove this.
- The leverage is a number, not an integer: the number input passes
  `Number(text)`, and fractional values within [1, 150] are kept.
- The range slider calls `setLeverage` without a clamp. Its bounds come from
  the browser's `min`/`max` attributes, so `SetLeverage` requires a value in
  [1, 150].

## Model

| member | source | states |
|---|---|---|
| `Fields.ToNumber` | src/app/page.tsx:189 | JavaScript's `Number(text)`: 0 for the empty string, NaN (None) for unparseable text, the number otherwise |
| `Fields.Ready` | src/app/page.tsx:18 | the guard `text && !isNaN(Number(text))` holds exactly when the field holds a parsed number |
| `Fields.NumberOrZero` | src/app/page.tsx:60 | `Number(quantity) \|\| 0` is the parsed quantity, and 0 for an empty or unparseable field |
| `Formulas.Total` | src/app/page.tsx:19-21 | total amount = entry price times quantity |
| `Formulas.QuantityFromTotal` | src/app/page.tsx:30-32 | the quantity derived from a total, times the entry price, gives that total back |
| `Formulas.QuantityFromTotalInverts` | src/app/page.tsx:19-32 | for a non-zero entry price, deriving the total and dividing it back returns the quantity, and that quantity is the only one with that total |
| `Formulas.LiquidationPrice` | src/app/page.tsx:43-49 | liquidation = entry (1 - 1/L) for long and entry (1 + 1/L) for short |
| `Formulas.ProfitRate` | src/app/page.tsx:64-76 | rate = (current - entry) / entry * L * 100 for long and (entry - current) / entry * L * 100 for short |
| `Formulas.ProfitAmount` | src/app/page.tsx:64-76 | amount = (current - entry) * qty * L for long and (entry - current) * qty * L for short |
| `Formulas.LongLiquidationBounds` | src/app/page.tsx:43-45 | for entry >= 0 and leverage >= 1, the long liquidation price lies in [0, entry], and it is 0 at leverage 1 |
| `Formulas.ShortLiquidationBounds` | src/app/page.tsx:46-48 | for entry >= 0 and leverage >= 1, the short liquidation price lies in [entry, 2 entry] |
| `Formulas.LiquidationSymmetry` | src/app/page.tsx:43-49 | long liquidation = entry - entry/L and short liquidation = entry + entry/L, symmetric around the entry price |
| `Formulas.ProfitSymmetry` | src/app/page.tsx:64-76 | the short profit rate and amount are the negation of the long ones; both are 0 when current = entry |
| `Formulas.ProfitAmountZeroIff` | src/app/page.tsx:68-75 | the profit amount is 0 if and only if the quantity is 0 or the current price equals the entry price |
| `Formulas.ProfitAmountWithoutQuantity` | src/app/page.tsx:60-75 | an empty, unparseable or zero quantity field gives a profit amount of 0 |
| `Formulas.LongRateSign` | src/app/page.tsx:66-67 | for entry > 0 and leverage >= 1, the long rate is positive iff current > entry and negative iff current < entry |
| `Formulas.ShortRateSign` | src/app/page.tsx:72-73 | for entry > 0 and leverage >= 1, the short rate is positive iff current < entry and negative iff current > entry |
| `Formulas.ProfitAmountFromRate` | src/app/page.tsx:64-76 | the profit amount equals the rate, as a fraction, times the position's total amount |
| `Formulas.LiquidationIsTotalLoss` | src/app/page.tsx:43-76 | at the liquidation price the profit rate is exactly -100% and the profit amount is minus the total amount, for both position types |
| `Formulas.LiquidatedIff` | src/app/page.tsx:43-76 | for entry > 0 and leverage >= 1, the rate is at most -100% iff the current price is at or below (long) or at or above (short) the liquidation price |
| `Formulas.LeverageWrite` | src/app/page.tsx:188-197 | a setter runs iff the input parses; the written leverage lies in [1, 150]; it is the input inside that range, 150 above it, 1 below it; NaN runs no setter |
| `Formulas.LeverageWriteNearest` | src/app/page.tsx:188-197 | the clamped leverage is the value in [1, 150] nearest to the input, and clamping twice changes nothing |
| `Formulas.AutoFilledTotal` | src/app/page.tsx:17-24 | effect 1 as a rule: Num(entry * qty) when both fields parse, else the stale total |
| `Formulas.RecomputedLiquidation` | src/app/page.tsx:38-53 | effect 2 as a rule: the liquidation price when the entry price parses, else the stale value |
| `Formulas.RecomputedProfit` | src/app/page.tsx:56-81 | effect 3 as a rule: the rate and amount, with quantity `Number(q) \|\| 0`, when both prices parse, else the stale pair |
| `Formulas.RulesKeepStaleValues` | src/app/page.tsx:17-81 | a rule whose guard fails keeps the previous value, and a rule run again on unchanged inputs changes nothing |
| `Formulas.TotalEditRoundTrip` | src/app/page.tsx:17-35 | after a total edit with a non-zero entry price, the auto-fill that the back-filled quantity triggers writes back the typed total |
| `Formulas.LiquidationDistance` | src/app/page.tsx:257 | displayed distance = abs(entry - liquidation) |
| `Formulas.LiquidationPercent` | src/app/page.tsx:263 | displayed percentage = (liquidation - entry) / entry * 100 |
| `Formulas.LiquidationCardShown` | src/app/page.tsx:237 | the liquidation card is rendered when the entry price text is non-empty |
| `Formulas.ProfitCardShown` | src/app/page.tsx:271 | the profit card is rendered when both the current and the entry price texts are non-empty |
| `Formulas.DistanceIsEntryOverLeverage` | src/app/page.tsx:257 | the distance from the entry price to the liquidation price is abs(entry) / leverage for both position types |
| `Formulas.PercentIsHundredOverLeverage` | src/app/page.tsx:263 | the percentage move to liquidation is -100/L for long and +100/L for short, for any non-zero entry price |
| `Formulas.ProfitAmountShown` | src/app/page.tsx:296 | the profit amount row is shown iff the quantity parses to a positive number, and then the quantity used is positive |
| `Formulas.CardsFollowRules` | src/app/page.tsx:237-271 | each card is shown whenever its rule's inputs parse; a card is shown with a stale value only for unparseable (non-empty) text |
| `Component.Home.constructor` | src/app/page.tsx:6-14 | the initial state: long, leverage 1, every text field empty, every derived number 0, and the invariant holds |
| `Component.Home.FillTotalAmount` | src/app/page.tsx:17-24 | effect 1 writes only the total: entry times quantity once both parse, otherwise the old total |
| `Component.Home.RecomputeLiquidation` | src/app/page.tsx:38-53 | effect 2 writes only the liquidation price: the long or short formula once the entry price parses, otherwise the old value |
| `Component.Home.RecomputeProfit` | src/app/page.tsx:56-81 | effect 3 writes only the profit rate and amount: both formulas once both prices parse, otherwise the old values |
| `Component.Home.SelectPosition` | src/app/page.tsx:104-125 | sets the position type and recomputes liquidation and profit; every text field and the leverage are unchanged; the invariant holds |
| `Component.Home.EditEntryPrice` | src/app/page.tsx:139-145 | sets the entry price and reruns all three effects: the total, the liquidation price and the profit follow the new entry price or keep their stale values |
| `Component.Home.EditQuantity` | src/app/page.tsx:152-158 | sets the quantity; the total becomes entry times quantity when both parse; the profit is recomputed; the liquidation price is unchanged |
| `Component.Home.EditTotalAmount` | src/app/page.tsx:27-35 | keeps the typed total; back-fills quantity = total / entry when both parse, else leaves the quantity; the follow-up auto-fill leaves the total as typed and is then a fixpoint |
| `Component.Home.SetLeverage` | src/app/page.tsx:203-208 | sets the leverage and recomputes liquidation and profit; every text field is unchanged |
| `Component.Home.EditLeverage` | src/app/page.tsx:188-197 | writes the clamped leverage, or keeps the old leverage when the input is NaN, and recomputes liquidation and profit |
| `Component.Home.EditCurrentPrice` | src/app/page.tsx:224-230 | sets the current price and recomputes only the profit |
| `Component.Home.ShownDistance` | src/app/page.tsx:257 | in a valid state with a parsed entry price, the displayed distance is abs(entry) / leverage |
| `Component.Home.ShownPercent` | src/app/page.tsx:263 | in a valid state with a parsed non-zero entry price, the displayed percentage is -100/L for long and +100/L for short |

## Left out

- Presentation: the JSX layout, styling, emoji, labels and the colour of the
  profit card by sign (src/app/page.tsx:83-328). None of it changes state.
- Formatting with `toLocaleString` and `toFixed`, which turns floats into strings.
- IEEE-754 rounding, NaN and Infinity propagation, and the exact text that
  `toString()` produces. The model computes over `real`.
- The exact rules of JavaScript's `Number(string)` (whitespace, exponents,
  hexadecimal). The `Field` datatype abstracts them.
- React's rendering and scheduling beyond one rule: after a handler's
  writes, the effects whose dependency lists changed run in declaration
  order. For the back-filled quantity, the leverage and the position type, a
  change means a different value, where React compares strings. The two can
  differ only when the text differs and the number is equal. Rerunning an
  effect then recomputes the value the state already holds.
- Component.Home.EditTotalAmount: requires a non-zero entry price when the
  entry price and the typed total both parse. At a zero entry price the source
  divides anyway: it stores the quantity "Infinity" for a positive total,
  "-Infinity" for a negative one and "NaN" for 0. The auto-fill that follows
  computes 0 times that quantity and so overwrites a non-zero typed total
  with "NaN". The model does not represent non-finite values.
- Component.Home.EditEntryPrice: requires that a zero entry price is not set
  while the current price parses. The profit rule divides by the entry price
  without a guard.
- Component.Home.EditCurrentPrice: requires that a current price that parses
  is not set while the entry price is zero, for the same division.
- Component.Home.SetLeverage: requires a value in [1, 150]. For the slider,
  the browser's `min`/`max` attributes enforce this, not the code.
- Component.Home.ShownDistance: requires an entry price that parses. The card
  is also shown for unparseable text, and then displays NaN.
- Component.Home.ShownPercent: also requires a non-zero entry price. At 0 the
  source displays NaN.
