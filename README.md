# Ranger trading bot — a verified model of its decision logic

This project models the trading decisions of a Bitcoin futures bot. Each
part below has its own Dafny module.

- **Money arithmetic and the take-profit ladder** (`Helper`):
  - profit and ROI of a closed trade;
  - contract amount;
  - stop-loss price and the stop-hit test;
  - funding multiplier;
  - the four-rung partial take-profit ladder. The first three rungs are truncated to five decimals, the last rung takes the remainder, and the stops ratchet from rung to rung.
- **The zone ("ranger") bot** (`Bot`): a Flat/Long/Short state machine driven by price bands. It covers the sentinel-price and loss-count gates, margin compounding with a floor, the nearest-opposing-zone ladder step, and partial take-profits that consume the ladder rung by rung.
- **The capitulation strategy** (`Capitulation`): a table of fifteen staged Short trades. It covers the entry window, the stop-loss cooldown, take-profits that advance the phase, partial fills, and compounding of the capital.
- **The zone guard** (`ZoneGuard`): band geometry, plus a per-zone breaker that switches a zone off after a run of losses.
- **The exchange fee model** (`Fees`): fee on a notional, entry margin net of fee, exit profit net of fee, and VIP-level lookup.
- **The macro calendar** (`Calendar`): event parsing, and the no-trade windows around critical high-impact events.
- **The swing-structure engine** (`Smc`): pivots, sweeps, breaks of structure and strong levels, found bar by bar. It also covers the zones built from them.
- **The momentum tracker** (`Momentum`): a bounded history, RSI, price momentum, volume ratio, the per-indicator signals, their majority vote, and the alerts.
- **The analytics report** (`Graph`): percent returns grouped per week or month, their plain sums, and per-trade and overall ROI.
- **The closed-position API** (`Handlers`): pagination checks, the inclusive date filter, slicing, and the error-to-status mapping.
- **Exchange client helpers** (`Bitget`): the timeframe-to-channel table, ticker price mapping with its 1.11 sentinel, order sides, and the order-failure fallback.
- **Request signing** (`Encryption`): the pre-hash string and its keyed signature.

Values and state are modelled this way:

- Numbers:
  - `Decimal` and `f64` are both modelled as `real`.
  - Rounding to a decimal grid is written out: truncation toward zero, and banker's rounding for `Decimal::round_dp`.
  - The `u8` loss counter wraps at 256.
- State:
  - Objects the source updates in place are classes: `Bot.Bot`, `Capitulation.CapitulationState`, `ZoneGuard.ZoneGuard`, `Smc.SmcEngine` and `Momentum.MomentumTracker`.
  - Their methods are proved equal to step functions on values. The exception is the zone bot's entry from Flat (`EnterFromFlat`, `EnterLong`, `EnterShort`); its contracts state the whole new state, and the position in all ten fields the entry sets.
  - Lemmas about those step functions state what the strategy promises.
- Inputs from outside the model:
  - The key-value store is modelled as fields and maps.
  - The exchange's answer is modelled as a parameter.
  - Clocks are modelled as a `now` parameter.
  - JSON, date and number parsing are modelled as function parameters.

`Text` holds the ASCII case mapping and `Wrappers` the `Option`/`Result` types.

## Model

| member | source | states |
|---|---|---|
| Text.ToLower | src/exchange/bitget/mod.rs:533-552 | lower-casing keeps the length and maps each character by the ASCII rule |
| Text.ToUpper | src/encryption/mod.rs:19 | upper-casing keeps the length and maps each character by the ASCII rule |
| Text.UpperIgnoresCase | src/encryption/mod.rs:19 | strings equal up to case upper-case to the same string |
| Text.LowerIdempotent | src/exchange/bitget/mod.rs:533-552 | lower-casing twice is lower-casing once |
| Helper.FloorTo | src/helper/mod.rs:287-289 | the result is a grid point at or below x, less than one grid step below it |
| Helper.TruncTo | src/helper/mod.rs:298-307 | truncation toward zero: a grid point between 0 and x, within one step of x, for either sign |
| Helper.RoundHalfEven | src/helper/mod.rs:287-289 | round_dp lands on the grid within half a step of x, and is non-negative for non-negative x |
| Helper.NegatedOnGrid | src/helper/mod.rs:298-307 | the decimal grid is symmetric about zero |
| Helper.ComputePnl | src/helper/mod.rs:85-116 | profit is never negative; a winning Long earns (exit−entry)·size and a winning Short earns (entry−exit)·size; losses, Flat, a negative price or a negative size all give 0 |
| Helper.PositionSize | src/helper/mod.rs:118-120 | the notional is non-negative for non-negative inputs and at least the margin for leverage ≥ 1 |
| Helper.CalcRoi | src/helper/mod.rs:122-142 | roi·margin = pnl·100; roi ≥ 0 for a positive margin; roi is 0 exactly when the pnl is 0 |
| Helper.ContractAmount | src/helper/mod.rs:147-152 | quantity·entry equals the notional; it is non-negative for a positive entry and non-negative margin and leverage |
| Helper.PnlPercent | src/helper/mod.rs:161-189 | the signed percent move relative to the entry for Long and Short; 0 for a zero price or Flat |
| Helper.TruncateTo1Dp | src/helper/mod.rs:191-193 | the value cut toward zero to one decimal, within 0.1 of the input |
| Helper.StopLossPrice | src/helper/mod.rs:195-215 | Flat gives 0; Long gives entry − entry·risk/leverage and Short the mirror; the distance to the entry times the notional is the risked margin times the entry |
| Helper.StopLossConsistent | src/helper/mod.rs:195-228 | a position is stopped out at its own stop price and, with positive inputs, not at its entry |
| Helper.StopLossExample | src/helper/mod.rs:195-215 | 100000 entry, margin 50, 20x leverage, 5% risk: 99750 for Long and 100250 for Short |
| Helper.SslHit | src/helper/mod.rs:218-228 | a Flat side is never stopped out |
| Helper.SslHitBeyond | src/helper/mod.rs:218-228 | a Long is stopped exactly at or below its stop and a Short at or above it, so a price further past a hit stop hits it too |
| Helper.FundingMultiplier | src/helper/mod.rs:370-382 | always within [0.5, 1.5]; equal to the unclamped 1 ∓ 800·rate when that lies inside, clamped to the nearer bound otherwise; 1 for Flat |
| Helper.Fractions | src/helper/mod.rs:280-284 | four rung fractions that add up to 1 |
| Helper.TpPrices | src/helper/mod.rs:230-257 | no prices for Flat; otherwise `count` prices, the i-th being i+1 steps from the entry in the direction of profit |
| Helper.TotalSize | src/helper/mod.rs:287-289 | the total asset amount is on the 5-decimal grid and is non-negative for non-negative inputs |
| Helper.ProfitLadder | src/helper/mod.rs:267-329 | the closed-form ladder: empty exactly for Flat, otherwise four rungs |
| Helper.BuildProfitTargets | src/helper/mod.rs:267-329 | the loop builds exactly the ladder `ProfitLadder` describes rung by rung |
| Helper.LadderLength | src/helper/mod.rs:294-326 | four rungs for Long or Short, none for Flat |
| Helper.LadderShape | src/helper/mod.rs:280-284 | rung i targets entry ± (i+1)·step, with fractions 0.20/0.30/0.30/0.20 |
| Helper.LadderSlRatchet | src/helper/mod.rs:309-318 | after rung 0 the stop moves to the entry, after rungs 1 and 2 to the previous target; the last rung carries no stop |
| Helper.RawShares | src/helper/mod.rs:298-307 | the three truncated shares are non-negative and leave a non-negative remainder for a non-negative total |
| Helper.SumOfFour | src/helper/mod.rs:294-326 | the ladder's size sum is the sum of its four rung sizes |
| Helper.LadderRung | src/helper/mod.rs:298-307 | the size of rung i of a Long or Short ladder is its truncated share, or the remainder for the last rung |
| Helper.LadderSum | src/helper/mod.rs:287-307 | the rung sizes add up exactly to the rounded total |
| Helper.LadderTruncated | src/helper/mod.rs:298-307 | each of the first three sizes is its fraction of the total, truncated to five decimals |
| Helper.LadderNonNegative | src/helper/mod.rs:298-307 | no rung size is negative when the total is not |
| Helper.FirstReached | src/bot/mod.rs:944-995 | the index of the first rung the price has reached; none exactly when no rung is reached |
| Helper.RemoveAt | src/bot/mod.rs:944-995 | `Vec::remove` drops exactly one element and keeps the order of the others |
| Bot.Zone.Contains | src/bot/mod.rs:35-37 | both ends of a proper band are inside it, and a band that holds a price is not inverted |
| Bot.AnyContains | src/bot/mod.rs:1095 | some zone of the list holds the price, i.e. a member of the list contains it; never for an empty list |
| Bot.DefaultZones | src/bot/mod.rs:48-224 | the default table has 12 long and 19 short zones, all at positive prices |
| Bot.InvertedZoneIsEmpty | src/bot/mod.rs:35-37 | a band whose low is above its high contains no price |
| Bot.DefaultZonesFacts | src/bot/mod.rs:48-224 | the default zones contain an inverted long band and an inverted short band, and 124520 lies in both a long and a short zone |
| Bot.LoadedMargin | src/bot/mod.rs:566-589 | a stored margin above 5 is used; a missing one or one at most 5 gives the configured margin |
| Bot.CompoundedMargin | src/bot/mod.rs:591-609 | the new margin is the loaded margin plus the pnl, reset to the configured margin when that falls to 5 or below |
| Bot.NearestLowAbove | src/bot/mod.rs:845-910 | the smallest positive distance up to a zone low above the entry; none exactly when no low lies above |
| Bot.NearestHighBelow | src/bot/mod.rs:845-910 | the smallest positive distance down to a zone high below the entry; none exactly when no high lies below |
| Bot.ProfitDifference | src/bot/mod.rs:845-910 | never negative and 0 for Flat; positive exactly when an opposing zone lies beyond the entry, and then the distance to the nearest one |
| Bot.LadderStep | src/bot/mod.rs:921-927 | a quarter of a non-zero zone distance, otherwise the configured step |
| Bot.Bot.constructor | src/bot/mod.rs:351-393 | every field is loaded from the store, with the source's defaults for missing records (Flat, the placeholder position, the default zones, the configured margin) |
| Bot.Bot.PreparedPosition | src/bot/mod.rs:456-488 | the new position's size is the contract amount of the current margin, its stop is the stop-loss price, and its take-profit is the last rung or the 1.11 sentinel; quantity equals the size, leverage and risk are the given ones, and there is no order id |
| Bot.Bot.PrepareCurrentMargin | src/bot/mod.rs:591-609 | the margin becomes the compounded margin and is stored; at the floor the open position's margin is reset too; nothing else changes |
| Bot.Bot.StoreLossCount | src/bot/mod.rs:549-564 | a non-negative pnl changes nothing; a loss is counted and the count is stored from the second loss on |
| Bot.Bot.CloseLongPosition | src/bot/mod.rs:498-547 | the new state is `CloseLongSpec`: the trade logged with its clamped pnl, the margin compounded, a loss with all four rungs left counted, and the second such loss Flat |
| Bot.Bot.CloseShortPosition | src/bot/mod.rs:622-656 | the new state is `CloseShortSpec`: the trade logged with the pnl of the position's own side and the margin compounded; no loss is counted |
| Bot.Bot.ClosePosition | src/bot/mod.rs:498-656 | the new state is `CloseSpec` of the old one for the given side |
| Bot.ClosePnl | src/bot/mod.rs:498-656 | the pnl a close books is never negative |
| Bot.CloseSpec | src/bot/mod.rs:498-656 | a close puts exactly one record in front of the log, keeps or drops the side, and changes neither the ladder, the zones nor the stored loss count; the position changes at most its margin |
| Bot.CloseLogsAndCompounds | src/bot/mod.rs:498-656 | the record is the whole position at the price with the booked pnl, the margin is that pnl compounded and stored, and it is never below the loaded margin |
| Bot.Bot.TakeProfit | src/bot/mod.rs:658-670 | the new state and flag are `TakeProfitSpec`: a closing order call that returns normally closes the position and goes Flat; an order call that returns an error changes nothing and reports the failure |
| Bot.Bot.TakePartialProfit | src/bot/mod.rs:672-747 | the new state is `TakePartialSpec` of the old one |
| Bot.PartialPrelude | src/bot/mod.rs:676-699 | the closes before the bookkeeping keep the position's side, entry, leverage and risk; an empty ladder goes Flat; a proper partial take does nothing here |
| Bot.PreludeExtends | src/bot/mod.rs:676-699 | those closes only put records in front of the log |
| Bot.TakePartialFacts | src/bot/mod.rs:672-747 | the position keeps quantity − fraction·quantity and takes the rung's target and stop; an empty ladder goes Flat; a proper partial take is exactly the bookkeeping; the log only grows at its front |
| Bot.Bot.BookPartial | src/bot/mod.rs:672-747 | the bookkeeping of a partial take: the log record, the compounded margin and the cut-down position |
| Bot.Bot.EvaluatePartialProfit | src/bot/mod.rs:944-1047 | the new state is `EvaluateSpec` of the old one |
| Bot.EvaluateFacts | src/bot/mod.rs:944-1047 | an empty ladder goes Flat; the first rung reached is removed and its target, stop and remainder taken, unless its target is 0 or 1.11, in which case nothing changes; the log only grows at its front |
| Bot.Bot.StorePartialProfitTargets | src/bot/mod.rs:912-942 | the zones are reloaded and the ladder rebuilt from the entry, the nearest-zone step and the current margin; nothing else changes |
| Bot.Bot.EnterFromFlat | src/bot/mod.rs:1093-1152 | Long when a long zone holds the price, else Short when a short zone does, else nothing. An entry is `Entered`: zones reloaded, ladder rebuilt from the current margin, the prepared position in all its fields (last-rung take-profit for Long, 1.11 for Short), and the log, margins and loss counts unchanged. An order call that returns an error leaves the bot Flat |
| Bot.Bot.EnterLong | src/bot/mod.rs:1094-1118 | a Long at the price with the ladder rebuilt first, so the take-profit is the last rung's target; the position's quantity is its size, with the configured leverage and risk and no order id; nothing else changes |
| Bot.Bot.EnterShort | src/bot/mod.rs:1119-1146 | a Short at the price prepared before the ladder is built, so its take-profit is the 1.11 sentinel; the position's quantity is its size, with the configured leverage and risk and no order id; nothing else changes |
| Bot.Bot.ManagePosition | src/bot/mod.rs:1154-1212 | the new state and flag are `ManageSpec`: stop-loss, opposing-zone take-profit, then the ladder |
| Bot.ManageFacts | src/bot/mod.rs:1154-1212 | the side is kept or Flat, the log only grows at its front, the stored loss count and zones stay, an error comes only from a failed order, and a hit stop ends Flat |
| Bot.OpposingZoneTakesProfit | src/bot/mod.rs:1176-1210 | with the stop not hit and an opposing zone holding the price, an order call that returns normally ends Flat with the whole position's close directly on top of the old log; one that returns an error changes nothing and is an error |
| Bot.LadderRungTaken | src/bot/mod.rs:1181-1211 | with no stop and no opposing zone, a proper partial take of the first reached rung removes it, logs its share with the pnl of the bot's side, compounds the margin, and keeps the side with the rung's target, stop and the remainder |
| Bot.NothingReachedKeepsState | src/bot/mod.rs:1154-1212 | with no stop, no opposing zone and no rung reached, a cycle changes nothing |
| Bot.Bot.RunCycle | src/bot/mod.rs:1074-1216 | the 1.11 price changes nothing; a stored loss count of 2 or more only reloads the count; from Flat, the new state is `Entered` on Long when a long zone holds the price, else on Short when a short zone does, and otherwise only the loss count and zones are reloaded; holding a position, the cycle is `ManageSpec` with the loss count and zones reloaded, and a stop hit goes Flat |
| Capitulation.PhaseIndex | src/bot/capitulation_phase/mod.rs:16-33 | phases are numbered 1 to 16, and 16 is exactly Complete |
| Capitulation.GetTradeParams | src/bot/capitulation_phase/mod.rs:91-113 | every trade phase has parameters with tp < entry < stop and an entry above the 77 buffer; Complete has none |
| Capitulation.NextPhase | src/bot/capitulation_phase/mod.rs:278-290 | Trade1 to Trade10 advance by one; Trade11 and later go to Complete |
| Capitulation.Step | src/bot/capitulation_phase/mod.rs:115-359 | one cycle keeps the state well formed |
| Capitulation.Run | src/bot/capitulation_phase/mod.rs:115-359 | any sequence of cycles keeps the state well formed |
| Capitulation.CompleteIsFinal | src/bot/capitulation_phase/mod.rs:122-125 | a completed strategy is left unchanged |
| Capitulation.CooldownBlocks | src/bot/capitulation_phase/mod.rs:127-135 | during the cooldown nothing changes |
| Capitulation.EntryOnlyInWindow | src/bot/capitulation_phase/mod.rs:150-194 | a position opens exactly when Flat, not cooling down, within 77 below the phase entry and on an accepted order; it is a Short at the price with the whole capital, the phase's stop and target, and a four-rung ladder |
| Capitulation.StopLossStartsCooldown | src/bot/capitulation_phase/mod.rs:198-237 | a stop-loss closes everything, books one record, adds the signed Short pnl to the capital, starts a 4-hour cooldown and keeps the phase |
| Capitulation.StopLossLoses | src/bot/capitulation_phase/mod.rs:198-237 | a stop-loss above the entry never increases the capital |
| Capitulation.EntryStepFacts | src/bot/capitulation_phase/mod.rs:150-194 | an entry changes neither the phase, the capital nor the closed records |
| Capitulation.CloseStepFacts | src/bot/capitulation_phase/mod.rs:198-291 | a full close books at most one record that accounts for the capital change, and moves the phase only to the next one on an accepted order |
| Capitulation.PartialStepFacts | src/bot/capitulation_phase/mod.rs:292-353 | a partial fill keeps the phase and books at most one record that accounts for the capital change |
| Capitulation.StepFacts | src/bot/capitulation_phase/mod.rs:115-359 | a cycle books at most one record matching its capital change, and advances the phase only when it closes a position |
| Capitulation.TakeProfitAdvances | src/bot/capitulation_phase/mod.rs:238-291 | an accepted take-profit closes the whole position at the price, adds (entry − price)·quantity to the capital and books it, clears the ladder and cooldown, and moves to the next phase; a failed order changes nothing but an elapsed cooldown and is an error |
| Capitulation.PartialFillEffect | src/bot/capitulation_phase/mod.rs:292-309 | between stop and take-profit, the first rung with price ≤ target is removed, even when its order fails; a failed order changes nothing else; with no rung reached nothing changes |
| Capitulation.PartialFillBooks | src/bot/capitulation_phase/mod.rs:303-353 | an accepted partial fill adds (entry − target)·size to the capital and books it, cuts quantity and size by the rung's size, and replaces the stop only when the rung has one |
| Capitulation.AfterPartial | src/bot/capitulation_phase/mod.rs:339-350 | the position's quantity and size drop by the rung's size when its quantity is known, and its stop becomes the rung's only when the rung has one |
| Capitulation.PhaseAdvancesByOne | src/bot/capitulation_phase/mod.rs:238-291 | the phase stays or moves to the next phase, and moves only on an accepted close |
| Capitulation.LateTradesUnreachable | src/bot/capitulation_phase/mod.rs:278-290 | from the default state, Trade12 to Trade15 are never reached |
| Capitulation.SumPnlAppend | src/bot/capitulation_phase/mod.rs:198-353 | appending a record adds its pnl to the sum |
| Capitulation.StepKeepsLedger | src/bot/capitulation_phase/mod.rs:115-359 | a cycle keeps capital = 200 + the sum of the closed records' pnl |
| Capitulation.RunKeepsLedger | src/bot/capitulation_phase/mod.rs:115-359 | any sequence of cycles keeps that ledger |
| Capitulation.CapitulationState.constructor | src/bot/capitulation_phase/mod.rs:67-77 | the default is Trade1, capital 200, no position, no ladder, no cooldown |
| Capitulation.CapitulationState.FindHit | src/bot/capitulation_phase/mod.rs:292-300 | the loop finds the first rung with price ≤ target |
| Capitulation.CapitulationState.Enter | src/bot/capitulation_phase/mod.rs:150-194 | the in-place entry matches `EntryStep` |
| Capitulation.CapitulationState.Close | src/bot/capitulation_phase/mod.rs:198-291 | the in-place close matches `CloseStep` |
| Capitulation.CapitulationState.TakePartial | src/bot/capitulation_phase/mod.rs:292-353 | the in-place partial fill matches `PartialStep` |
| Capitulation.CapitulationState.RunCycle | src/bot/capitulation_phase/mod.rs:115-359 | the in-place cycle matches `Step`, so every lemma about `Step` holds of it |
| ZoneGuard.Zone.Contains | src/bot/zones/mod.rs:24-26 | both ends of a proper band are inside it, and a band that holds a price is not inverted |
| ZoneGuard.Zone.OverlapsOrTooClose | src/bot/zones/mod.rs:34-38 | never for a non-positive distance; bands with the same midpoint are too close for any positive distance |
| ZoneGuard.Zone.Midpoint | src/bot/zones/mod.rs:29-31 | the midpoint is equidistant from both ends and lies inside a proper band |
| ZoneGuard.InvertedZoneHoldsNothing | src/bot/zones/mod.rs:24-26 | an inverted band holds no price |
| ZoneGuard.OverlapSymmetric | src/bot/zones/mod.rs:34-38 | proximity is symmetric and holds exactly when the midpoints are less than the distance apart |
| ZoneGuard.SharedPriceIsTooClose | src/bot/zones/mod.rs:24-38 | two bands sharing a price are too close for any distance above half their combined width |
| ZoneGuard.FromZone | src/bot/zones/mod.rs:222-235 | the id is built from the side tag (1 for Long, 2 for Short) and both bounds |
| ZoneGuard.FromZoneDependsOnlyOnKey | src/bot/zones/mod.rs:222-235 | bands with equal side and bounds get equal ids |
| ZoneGuard.DefaultStats | src/bot/zones/mod.rs:249-257 | fresh statistics are valid and enabled |
| ZoneGuard.LoadedStats | src/bot/zones/mod.rs:295-305 | a stored record that parses is returned; otherwise the defaults |
| ZoneGuard.Recorded | src/bot/zones/mod.rs:310-323 | a win resets the run and keeps the switch; a loss lengthens the run (wrapping at 256), and reaching the limit switches the zone off with a cooldown |
| ZoneGuard.BreakerTrips | src/bot/zones/mod.rs:310-320 | n losses from fresh leave a run of n, and the zone is off exactly when n ≥ 1 and n ≥ the limit |
| ZoneGuard.StaysDisabled | src/bot/zones/mod.rs:310-323 | no trade result switches a disabled zone back on |
| ZoneGuard.ZoneGuard.constructor | src/bot/zones/mod.rs:268-279 | a new guard holds no statistics |
| ZoneGuard.ZoneGuard.CanTrade | src/bot/zones/mod.rs:288-293 | a zone never seen trades, a fresh record trades, and a zone is refused only when its record is disabled |
| ZoneGuard.ZoneGuard.GetTradeResult | src/bot/zones/mod.rs:295-305 | reading a zone's statistics gives `LoadedStats` of the store |
| ZoneGuard.ZoneGuard.RecordTradeResult | src/bot/zones/mod.rs:307-337 | only the zone's entry changes, to `Recorded`; it is written through to the store with its TTL; other zones' trading is unaffected; the zone trades exactly when not disabled |
| Fees.NewFees | src/exchange/bitget/fees/mod.rs:42-49 | a new fee object has every rate 0 |
| Fees.FromVipData | src/exchange/bitget/fees/mod.rs:51-58 | the row's maker and taker rates, and no funding rate |
| Fees.ForLevel | src/exchange/bitget/fees/mod.rs:60-65 | the rates of the first row of that level; none exactly when no row has it |
| Fees.RowInUse | src/exchange/bitget/fees/mod.rs:67-80 | a failed fetch uses a zero row; otherwise the first row fetched; an empty table has none |
| Fees.FeeOnNotional | src/exchange/bitget/fees/mod.rs:67-91 | a failed fetch gives fee 0; the fee is non-negative for non-negative inputs; only an empty table yields no fee |
| Fees.OnlyFirstRowUsed | src/exchange/bitget/fees/mod.rs:80-90 | rows after the first never change a fee, which is price·size·rate |
| Fees.PnlForExit | src/exchange/bitget/fees/mod.rs:93-99 | the signed profit of an exit: (exit−entry)·size for Long, the mirror for Short, 0 for Flat |
| Fees.LongShortOpposite | src/exchange/bitget/fees/mod.rs:93-99 | a Long and a Short of the same size have opposite profits |
| Fees.ClampedPnlAgrees | src/exchange/bitget/fees/mod.rs:93-99 | the clamped profit of the helper is this signed profit with losses cut to 0 |
| Fees.CalcMarginForEntry | src/exchange/bitget/fees/mod.rs:101-112 | the entry margin plus the taker fee on the entry notional is the margin |
| Fees.EntryMarginAtMostMargin | src/exchange/bitget/fees/mod.rs:101-112 | with non-negative inputs and rates the entry margin never exceeds the margin |
| Fees.CalcPnlForExit | src/exchange/bitget/fees/mod.rs:114-134 | the net pnl and the taker fee add up to the raw exit profit |
| Fees.NoTableNoFee | src/exchange/bitget/fees/mod.rs:68-78 | without a fee table the net exit profit is the raw one and the fee 0 |
| Calendar.ParseImpact | src/calendar/mod.rs:71-76 | "high" and "medium" map to their level, anything else (a missing value included) to Low |
| Calendar.TimePart | src/calendar/mod.rs:59-63 | "all day" in any case is read as 00:00, any other time as itself |
| Calendar.AllDayIsMidnight | src/calendar/mod.rs:59-63 | "All Day" and "ALL DAY" become 00:00 and "14:45" stays |
| Calendar.TryFrom | src/calendar/mod.rs:52-85 | fails exactly when the joined date and time do not parse; otherwise the event carries that time, its fields and the mapped impact |
| Calendar.ContainsFrom | src/calendar/mod.rs:192-200 | the scan finds the substring exactly when it occurs at or after the start index |
| Calendar.Contains | src/calendar/mod.rs:192-200 | the search is exact substring occurrence |
| Calendar.IsCriticalMacroEvent | src/calendar/mod.rs:192-200 | critical exactly when the name contains one of the six markers |
| Calendar.BuildNoTradeWindows | src/calendar/mod.rs:206-220 | never more windows than events |
| Calendar.WindowsOfBlockingEvents | src/calendar/mod.rs:206-220 | each window is [t−pre, t+post] of a blocking event, and every blocking event has its window |
| Calendar.WindowsOfConcat | src/calendar/mod.rs:206-220 | the windows follow the order of their events |
| Calendar.IsTradingAllowed | src/calendar/mod.rs:188-190 | allowed exactly when the time lies in no window, so always with no windows |
| Calendar.MacroTradingAllowed | src/calendar/mod.rs:222-224 | the same predicate as `is_trading_allowed` |
| Calendar.AllowedIffNoBlockingEventNear | src/calendar/mod.rs:188-220 | trading is allowed exactly when no blocking event lies within the buffers of the time |
| Calendar.FilterMatching | src/calendar/mod.rs:176-184 | the kept events are exactly those of the country (ignoring case) and the impact |
| Calendar.FilterOfConcat | src/calendar/mod.rs:176-184 | the filter keeps the order of the events |
| Calendar.FilterEvents | src/calendar/mod.rs:166-186 | an error exactly when the data file is missing; otherwise the matching events |
| Calendar.TradingAllowed | src/calendar/mod.rs:246-248 | the same predicate as `macro_trading_allowed`, which it calls |
| Calendar.MacroGuard.AllowEntry | src/calendar/mod.rs:279-281 | an entry is allowed exactly when none of the guard's windows holds the time; always without windows |
| Calendar.NewMacroGuard | src/calendar/mod.rs:233-244 | the guard's windows come from the high-impact United States events with 12-hour buffers |
| Calendar.GuardBlocksNearCriticalEvents | src/calendar/mod.rs:233-281 | the guard refuses an entry exactly within 12 hours of a critical high-impact United States event |
| Smc.LeftStart | src/trackers/smart_money_concepts/mod.rs:144-185 | the left window starts `left` bars back, saturating at 0 |
| Smc.LowPhase | src/trackers/smart_money_concepts/mod.rs:188-216 | a pivot low is reported and kept as the last pivot; a sweep is reported exactly when it undercuts the previous pivot low; nothing else changes |
| Smc.HighPhase | src/trackers/smart_money_concepts/mod.rs:218-242 | the mirror image for pivot highs and sweeps above |
| Smc.BullishPhase | src/trackers/smart_money_concepts/mod.rs:246-282 | a break is reported exactly when the close crosses the last pivot high at a new level; a strong low exactly when a sweep low was pending |
| Smc.BearishPhase | src/trackers/smart_money_concepts/mod.rs:285-316 | the mirror image for breaks below and strong highs |
| Smc.Detect | src/trackers/smart_money_concepts/mod.rs:188-316 | the structure updates never touch the bar buffer |
| Smc.Step | src/trackers/smart_money_concepts/mod.rs:131-320 | each bar is appended to the buffer exactly once |
| Smc.Run | src/trackers/smart_money_concepts/mod.rs:631-663 | feeding bars appends them all, in order |
| Smc.WarmupIsSilent | src/trackers/smart_money_concepts/mod.rs:132-139 | until the window is full a bar is only buffered and nothing is reported |
| Smc.DetectPhases | src/trackers/smart_money_concepts/mod.rs:188-316 | the events of a bar are the low, high, bullish and bearish phases' in that order, each of its own kinds |
| Smc.StrongLowNeedsBreak | src/trackers/smart_money_concepts/mod.rs:246-282 | a strong low comes only with a bullish break, which always clears the pending sweep |
| Smc.StrongHighNeedsBreak | src/trackers/smart_money_concepts/mod.rs:285-316 | a strong high comes only with a bearish break, which always clears the pending sweep |
| Smc.SmcEngine.constructor | src/trackers/smart_money_concepts/mod.rs:113-125 | an empty buffer and nothing seen |
| Smc.SmcEngine.IsPivotHigh | src/trackers/smart_money_concepts/mod.rs:144-164 | the scans decide exactly `PivotHighAt`: strictly above every high in both windows |
| Smc.SmcEngine.IsPivotLow | src/trackers/smart_money_concepts/mod.rs:166-185 | the scans decide exactly `PivotLowAt`: strictly below every low in both windows |
| Smc.SmcEngine.ApplyLow | src/trackers/smart_money_concepts/mod.rs:188-216 | the in-place update matches `LowPhase` |
| Smc.SmcEngine.ApplyHigh | src/trackers/smart_money_concepts/mod.rs:218-242 | the in-place update matches `HighPhase` |
| Smc.SmcEngine.ApplyBullish | src/trackers/smart_money_concepts/mod.rs:246-282 | the in-place update matches `BullishPhase` |
| Smc.SmcEngine.ApplyBearish | src/trackers/smart_money_concepts/mod.rs:285-316 | the in-place update matches `BearishPhase` |
| Smc.SmcEngine.ProcessBar | src/trackers/smart_money_concepts/mod.rs:131-320 | the in-place bar step matches `Step`, so its lemmas hold of it |
| Smc.LongZonesOf | src/trackers/smart_money_concepts/mod.rs:636-659 | at most one long zone per event |
| Smc.ShortZonesOf | src/trackers/smart_money_concepts/mod.rs:636-659 | at most one short zone per event |
| Smc.StrongZonesHoldTheirLevel | src/trackers/smart_money_concepts/mod.rs:636-659 | a zone built from a positive level is a proper band containing the level |
| Smc.ZonesOfSnoc | src/trackers/smart_money_concepts/mod.rs:636-659 | one more event adds at most its own zone, at the end |
| Smc.AddZones | src/trackers/smart_money_concepts/mod.rs:636-659 | the inner loop extends the zone lists by the zones of the bar's events |
| Smc.SortByTime | src/trackers/smart_money_concepts/mod.rs:626 | the bars are put in order of time, as a permutation of the input |
| Smc.InsertByTime | src/trackers/smart_money_concepts/mod.rs:626 | inserting into bars in time order keeps them in order and adds exactly that bar |
| Smc.SortKeepsSorted | src/trackers/smart_money_concepts/mod.rs:626 | bars already in time order are left as they are |
| Smc.CollectZones | src/trackers/smart_money_concepts/mod.rs:622-663 | the collected zones are those of every event a fresh (3, 3) engine reports over the bars sorted by time |
| Smc.LowestZone | src/trackers/smart_money_concepts/mod.rs:665-677 | the first zone of minimum low; none only for no zones |
| Smc.HighestZone | src/trackers/smart_money_concepts/mod.rs:680-692 | the last zone of maximum high; none only for no zones |
| Smc.ChooseZones | src/trackers/smart_money_concepts/mod.rs:665-697 | zones are stored exactly when both lists are non-empty and neither pick has a zero edge; they are then the first zone of minimum low (`LowestZone`) and the last zone of maximum high (`HighestZone`) |
| Momentum.Window | src/trackers/momentum/mod.rs:59-75 | the newest min(length, max) entries |
| Momentum.WindowOfSuffix | src/trackers/momentum/mod.rs:59-75 | dropping old entries beyond the window does not change it |
| Momentum.AddAllIsWindow | src/trackers/momentum/mod.rs:59-75 | pushing one at a time with trimming keeps exactly the newest `max` of everything pushed |
| Momentum.NewestKept | src/trackers/momentum/mod.rs:59-75 | the newest entry always survives |
| Momentum.MaxHistoryExample | src/trackers/momentum/mod.rs:490-500 | ten points into a history of five keep the last five |
| Momentum.Gain | src/trackers/momentum/mod.rs:87-94 | the gain is non-negative and positive exactly on a rise |
| Momentum.Loss | src/trackers/momentum/mod.rs:87-94 | the loss is non-negative, positive exactly on a fall, and gain − loss is the change |
| Momentum.GainSum | src/trackers/momentum/mod.rs:87-94 | summed gains are non-negative |
| Momentum.LossSum | src/trackers/momentum/mod.rs:87-94 | summed losses are non-negative |
| Momentum.RsiOf | src/trackers/momentum/mod.rs:96-104 | within [0, 100), and 0 exactly when the relative strength is 0 |
| Momentum.Rsi | src/trackers/momentum/mod.rs:78-105 | none exactly without period+1 prices; otherwise within [0, 100], and 100 exactly when nothing was lost |
| Momentum.RisingLosesNothing | src/trackers/momentum/mod.rs:87-94 | strictly rising prices lose nothing |
| Momentum.FallingGainsNothing | src/trackers/momentum/mod.rs:87-94 | prices that never rise gain nothing |
| Momentum.OneFallLoses | src/trackers/momentum/mod.rs:87-94 | one falling step makes the loss sum positive |
| Momentum.RisingRsiIsHundred | src/trackers/momentum/mod.rs:78-105 | a steadily rising market has RSI 100 |
| Momentum.FallingRsiIsZero | src/trackers/momentum/mod.rs:78-105 | a market that never rises and falls at the end has RSI 0 |
| Momentum.PriceMomentum | src/trackers/momentum/mod.rs:147-156 | none with fewer than `period` prices; otherwise a value exactly when the price `period` entries back is non-zero, and that value is the percent change from it |
| Momentum.RisingMomentumPositive | src/trackers/momentum/mod.rs:147-156 | rising positive prices give positive momentum |
| Momentum.VolumeRatio | src/trackers/momentum/mod.rs:159-173 | none exactly on an empty history; 1 for a zero average; otherwise ratio·average is the newest volume |
| Momentum.ConstantSum | src/trackers/momentum/mod.rs:159-173 | a constant history sums to length times the value |
| Momentum.SteadyVolumeRatioIsOne | src/trackers/momentum/mod.rs:159-173 | a flat volume history has ratio 1 |
| Momentum.RsiSignal | src/trackers/momentum/mod.rs:176-184 | above 70 bearish, below 30 bullish, otherwise neutral |
| Momentum.MacdSignal | src/trackers/momentum/mod.rs:187-195 | a positive histogram bullish, a negative one bearish, zero neutral |
| Momentum.PriceMomentumSignal | src/trackers/momentum/mod.rs:198-206 | above 1 bullish, below −1 bearish, otherwise neutral |
| Momentum.Count | src/trackers/momentum/mod.rs:209-233 | a count never exceeds the number of signals |
| Momentum.CountIsMultiplicity | src/trackers/momentum/mod.rs:209-233 | the count of a signal is its multiplicity |
| Momentum.MajorityIgnoresOrder | src/trackers/momentum/mod.rs:209-233 | the vote does not depend on the order of the signals |
| Momentum.CountOfThree | src/trackers/momentum/mod.rs:209-233 | the count over three signals is the number that match |
| Momentum.TwoOfThreeDecide | src/trackers/momentum/mod.rs:209-233 | two agreeing non-neutral signals decide the vote wherever they sit |
| Momentum.OpposedSignalsCancel | src/trackers/momentum/mod.rs:209-233 | a bullish and a bearish signal cancel, leaving the third |
| Momentum.OverallSignal | src/trackers/momentum/mod.rs:209-233 | the counting loop computes the majority vote, a tie giving neutral |
| Momentum.Alerts | src/trackers/momentum/mod.rs:263-297 | one to four alerts; each fires exactly on its threshold; the stability message appears exactly when it is the only one |
| Momentum.Reverse | src/trackers/momentum/mod.rs:319-327 | reversal keeps the length |
| Momentum.ReverseIndex | src/trackers/momentum/mod.rs:319-327 | reversal maps index i to index length−1−i |
| Momentum.RecentPrices | src/trackers/momentum/mod.rs:319-327 | the last min(count, length) prices, oldest first |
| Momentum.MomentumTracker.constructor | src/trackers/momentum/mod.rs:49-56 | empty histories with the given limit |
| Momentum.MomentumTracker.AddDataPoint | src/trackers/momentum/mod.rs:59-75 | each history becomes the window of itself plus the new entry, so all three stay equally long and within the limit |
| Momentum.MomentumTracker.SumChanges | src/trackers/momentum/mod.rs:87-94 | the accumulator loop computes the gain and loss sums |
| Momentum.MomentumTracker.CalculateRsi | src/trackers/momentum/mod.rs:78-105 | the method computes `Rsi` of the price history |
| Momentum.MomentumTracker.AllIndicators | src/trackers/momentum/mod.rs:236-260 | the indicators with their defaults (RSI 50, momentum 0, ratio 1, zero MACD), and the vote of their signals |
| Graph.Push | src/graph/mod.rs:112-132 | pushing adds the key if needed, appends the value under it and leaves every other key alone |
| Graph.GroupBy | src/graph/mod.rs:112-154 | the grouping loop computes `Grouped` |
| Graph.GroupedContents | src/graph/mod.rs:112-154 | a key is present exactly when a counted trade is filed under it, and it holds those trades' returns in order |
| Graph.ZeroPricedIgnored | src/graph/mod.rs:112-154 | a trade with a zero price changes no group, wherever it sits |
| Graph.DefaultClosed | src/graph/mod.rs:66-85 | the placeholder record is not counted |
| Graph.DefaultNeverGrouped | src/graph/mod.rs:66-85 | the placeholder never contributes to a week or month |
| Graph.SumAppend | src/graph/mod.rs:31-64 | the cumulative figure is additive over concatenation |
| Graph.SumReturns | src/graph/mod.rs:38-41 | the accumulator loop computes the plain sum |
| Graph.CumulativeRoi | src/graph/mod.rs:31-64 | the same keys, each mapped to the plain sum of its returns |
| Graph.ReturnsUnderSum | src/graph/mod.rs:31-64 | the sum of a key's returns is the total its trades contribute |
| Graph.CumulativeByKey | src/graph/mod.rs:31-154 | every key with a counted trade maps to the sum of its trades' percent returns, and no other key appears |
| Graph.PnlAndRoi | src/graph/mod.rs:157-187 | the pnl is the clamped pnl on the recorded or computed quantity; roi·margin = pnl·100, roi is non-zero exactly when pnl and margin are |
| Graph.QuantityOf | src/graph/mod.rs:158-168 | the recorded quantity, or the contract amount of the recorded or configured margin and leverage |
| Graph.ZeroPricedEarnsNothing | src/graph/mod.rs:157-187 | a zero-priced trade has pnl and roi 0 |
| Graph.Totals | src/graph/mod.rs:209-237 | the summed pnl is non-negative |
| Graph.AccumulateTotals | src/graph/mod.rs:209-237 | the loop computes `Totals`: summed pnl and margin from the stored capital |
| Graph.OverallRoi | src/graph/mod.rs:247-252 | roi·margin is the total pnl; non-negative for positive margin |
| Handlers.StatusOf | src/api/handlers.rs:64-75 | store errors are 500, missing data 404, invalid input 400 |
| Handlers.DefaultParams | src/api/handlers.rs:22-40 | page 1, limit 20, no dates |
| Handlers.LRange | src/api/handlers.rs:126-136 | the existing elements from start through stop, in order |
| Handlers.Page | src/api/handlers.rs:157-167 | at most `limit` elements, in order, from index `start` |
| Handlers.LRangeIsPage | src/api/handlers.rs:126-167 | fetching start..start+limit−1 gives the same rows as skipping and taking |
| Handlers.PagesTile | src/api/handlers.rs:157-167 | consecutive pages cover the list once and in order |
| Handlers.Decoded | src/api/handlers.rs:139-141 | exactly the rows that deserialize are kept |
| Handlers.DecodedConcat | src/api/handlers.rs:139-141 | decoding keeps the order of the rows |
| Handlers.FilterByDate | src/api/handlers.rs:142-154 | exactly the rows dated within both optional inclusive bounds are kept |
| Handlers.FilterByDateConcat | src/api/handlers.rs:142-154 | the date filter keeps the order of the rows |
| Handlers.NoBoundsKeepsAll | src/api/handlers.rs:142-154 | without bounds every row is kept |
| Handlers.ParseOptional | src/api/handlers.rs:116-121 | an absent date is none, a parseable one its value, an unparseable one an invalid-input error |
| Handlers.Listing | src/api/handlers.rs:126-175 | without dates the page is the decodable rows of the fetched range; with dates the total counts every matching row and the page is its slice |
| Handlers.GetClosedPositions | src/api/handlers.rs:99-175 | page 0 and limits outside 1..20 are rejected; a success implies valid parameters and dates and a store answer, and is the listing; a valid query whose dates (if any) parse succeeds on a working store |
| Handlers.BadDateRejected | src/api/handlers.rs:116-121 | an unparseable date is rejected as invalid input |
| Handlers.BoundsInclusive | src/api/handlers.rs:142-154 | rows dated exactly on a bound are kept |
| Bitget.ChannelFor | src/exchange/bitget/mod.rs:533-552 | a channel exactly for the nine timeframes after lower-casing; otherwise an error naming the input |
| Bitget.ChannelIgnoresCase | src/exchange/bitget/mod.rs:533-552 | timeframes equal up to case select the same channel |
| Bitget.ChannelRoundTrip | src/exchange/bitget/mod.rs:533-552 | the channel is "candle" followed by the timeframe, so distinct timeframes select distinct channels |
| Bitget.LowerCaseExamples | src/exchange/bitget/mod.rs:799-813 | "1m" and "1h" select their channels and "invalid" fails |
| Bitget.UpperCaseExamples | src/exchange/bitget/mod.rs:799-811 | "1H", "1D" and "1W" select the upper-case channels |
| Bitget.NumberOr | src/exchange/bitget/mod.rs:435-449 | a number that parses, else 1.11 |
| Bitget.ParsePriceResponse | src/exchange/bitget/mod.rs:435-449 | an error exactly when the response does not decode; otherwise one price entry per item, in order |
| Bitget.UnparseableFieldIsSentinel | src/exchange/bitget/mod.rs:722-723 | an unparseable price reads as 1.11, not as an error |
| Bitget.GetPrices | src/exchange/bitget/mod.rs:451-455 | the last entry; none exactly on a decode error or no data |
| Bitget.OpenSide | src/exchange/bitget/mod.rs:336-344 | sell exactly for Short, buy otherwise |
| Bitget.CloseSide | src/exchange/bitget/mod.rs:248-256 | buy exactly for Short, sell otherwise |
| Bitget.CloseUndoesOpen | src/exchange/bitget/mod.rs:248-344 | closing always trades against the opening side |
| Bitget.OrderOutcome | src/exchange/bitget/mod.rs:293-310 | the order data on code "00000", otherwise the failure text in both ids |
| Bitget.NewFuturesOutcome | src/exchange/bitget/mod.rs:382-398 | "Failed to place order" unless the code is "00000" |
| Bitget.ModifyOutcome | src/exchange/bitget/mod.rs:293-310 | "Failed to modify order" unless the code is "00000" |
| Encryption.QueryPart | src/encryption/mod.rs:22-27 | "?" and the query only for a present, non-empty query |
| Encryption.BodyPart | src/encryption/mod.rs:29-31 | the body, or nothing |
| Encryption.PreHash | src/encryption/mod.rs:17-31 | timestamp, upper-cased method, path, query part and body, in that order with no separators |
| Encryption.EmptyQueryIsNoQuery | src/encryption/mod.rs:22-27 | an absent and an empty query sign alike |
| Encryption.EmptyBodyIsNoBody | src/encryption/mod.rs:29-31 | an absent and an empty body sign alike |
| Encryption.MethodCaseIrrelevant | src/encryption/mod.rs:19 | "post" and "POST" sign alike |
| Encryption.QueryFollowsPath | src/encryption/mod.rs:22-27 | a non-empty query follows the path behind a "?" |
| Encryption.Sign | src/encryption/mod.rs:9-36 | the step-by-step assembly signs exactly the pre-hash with the secret |

## Left out

- Key-value store and exchange I/O:
  - Reads and writes of the store are fields, maps and flags.
  - Connection errors are modelled only where the source reports them: `fetchOk` in the handlers, and the fee table fetch as `None`.
  - The HTTP bodies of the exchange calls are not modelled; their outcome is the parameter `exchangeOk` (bot) or `OrderReply` (capitulation).
- HMAC-SHA256 and base64 in `bitget_sign` are left uninterpreted: a signature is the value `Signed(secret, message)`.
- `DefaultHasher` in `ZoneId::from_zone` is left uninterpreted: the id is the tuple of side tag and bounds.
- External libraries and the clock:
  - Clocks (`Utc::now`, `SystemTime::now`) are the parameter `now`.
  - The ISO week and calendar month of a trade are given as keys.
  - Date, JSON and number parsing are function parameters.
- Floating point: `f64` and `Decimal` are `real`, so NaN, infinities, overflow and the `is_finite` tests are not modelled. Where the members below would divide by zero, the model carries a precondition or an absent result:
  - Helper.CalcRoi: requires a non-zero margin. The source divides by a zero margin whenever it is called with one, because the pnl is never negative.
  - Helper.ContractAmount: requires a non-zero entry price, a `Decimal` division panic otherwise.
  - Helper.StopLossPrice: requires non-zero margin and leverage, a `Decimal` division panic otherwise.
  - Helper.TotalSize: requires a non-zero entry price, as ContractAmount does.
  - Helper.BuildProfitTargets: requires a non-zero entry price, as ContractAmount does.
  - Bot.Bot.PreparedPosition: requires non-zero margin, leverage and entry, for the same divisions.
  - Bot.Bot.StorePartialProfitTargets: requires a non-zero entry, for the same divisions.
  - Momentum.Rsi: requires a positive period; period 0 gives NaN in the source.
  - Momentum.MomentumTracker.CalculateRsi: requires a positive period, for the same reason.
  - Momentum.PriceMomentum: requires a positive period, and returns none on a zero reference price where the source returns an infinity.
  - Graph.PnlAndRoi: requires a recorded quantity or a non-zero entry, because the source's fallback quantity divides by the entry price.
  - Graph.OverallRoi: returns none for a zero total margin, where the source's division gives a non-finite value that it prints.
- Capitulation.Step: the roi of each closed record (pnl divided by the capital, capitulation_phase/mod.rs:221, 263 and 328) is not modelled. A zero capital makes that `Decimal` division panic in the source, for instance when a take-profit or partial fill lands the capital exactly on 0; the model carries on.
- Bot.Bot.RunCycle: requires a non-zero price or a position; a Flat bot at price 0 inside a zone would size its position by dividing by the entry, which gives an infinity in `f64`.
- Bot.Bot.EnterFromFlat: requires a non-zero price for the same division; EnterLong and EnterShort likewise.
- Smc.SortByTime: the sort is stable by construction, like `sort_by_key`, but stability is not stated as a property.
- Handlers.Listing: `(page-1)*limit` in `usize` and its `as isize` cast can overflow or turn negative for huge pages; the model uses unbounded naturals.
- Bot.Bot.EvaluatePartialProfit: the non-finite target test is not modelled; 0 and 1.11 are.
- Bot.LadderStep: the finite test on the zone distance is not modelled; only the zero test is.
- ZoneGuard.Recorded: the `u8` loss counter panics on overflow in debug builds; the model wraps it at 256 as a release build does.
- Fees.RowInUse: an empty fetched fee table panics in the source; the model reports it as an absent result.
- Text.ToUpper: `to_uppercase`/`to_lowercase` are Unicode-aware in the source; the model maps ASCII letters only.
- Text.ToLower: ASCII letters only, for the same reason.
- Capitulation:
  - The closed-position record's id, times, uuid, roi and pnl-after-fees fields are not modelled.
  - An `Accepted` order reply is an order call that returns normally, including a venue rejection, whose fallback text becomes the order id; `Failed` is an order call that returns an error.
  - The branch of `run_cycle` for a phase without parameters is not modelled; it is reached only for `Complete`, which returns earlier.
- Bot:
  - The closed-position record's id, entry and exit times and roi are not modelled.
  - `exchangeOk` stands for the outcome of the one order call a cycle makes: true when the call returns normally, false when it returns an error (the `?` that stops the cycle).
  - A venue rejection (a code other than "00000") returns normally with the "Failed to place order" or "Failed to modify order" fallback data, so `run_cycle` goes on to close or enter anyway; the model does the same, because that case has `exchangeOk` true.
  - The bot's `PartialProfitTarget` uses the helper's optional stop.
  - The zones loaded from the store are the field `zoneSource`.
- Graph: the report's sort of trades by exit time is not modelled. The trades are taken in the order given; the sums do not depend on it.
- Handlers: the store error's text omits the underlying error message. The `NotFound` error is never produced by these handlers and has only its status mapping.
- Momentum: `calculate_ema` and `calculate_macd` are not modelled; MACD is an input of `AllIndicators`. Also not modelled: `get_current_price`, `get_price_change`, `get_recent_volumes`, `print_momentum_report`, sample data and the live tracking loop.
- Calendar: `load_events`, `fetch_events`, `save_to_redis` and `fetch_from_redis` are I/O. Whether the backup data file exists is a flag.
- Not modelled: `smc_loop`, the scheduler and the store writes and logging of `smc_main`; `main`, the API router and its lock; the scalper module, which is not compiled; `Bot::test`; CSV and candle file helpers; configuration loading.
