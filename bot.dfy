/// The zone ("ranger") bot of src/bot/mod.rs: a Flat/Long/Short state
/// machine driven by price zones, with a take-profit ladder, margin
/// compounding and a loss-count gate. The key-value store it reads and
/// writes is modelled by the `stored*` fields and `closedLog`.
module Bot {
  import opened Wrappers
  import opened Helper

  /// A price band `[low, high]`.
  datatype Zone = Zone(low: real, high: real)
  {
    /// Both ends of a proper band are inside it; an inverted band holds
    /// nothing.
    predicate Contains(price: real)
      ensures Contains(price) ==> low <= high
      ensures low <= high && (price == low || price == high) ==> Contains(price)
    {
      price >= low && price <= high
    }
  }

  datatype Zones = Zones(longZones: seq<Zone>, shortZones: seq<Zone>)

  /// Whether some zone of `zs` contains `price` (`iter().any(contains)`).
  predicate AnyContains(zs: seq<Zone>, price: real)
    ensures AnyContains(zs, price) <==> exists z :: z in zs && z.Contains(price)
    ensures zs == [] ==> !AnyContains(zs, price)
  {
    exists i :: 0 <= i < |zs| && zs[i].Contains(price)
  }

  /// The zones used when none are stored.
  function DefaultZones(): (r: Zones)
    ensures |r.longZones| == 12 && |r.shortZones| == 19
    ensures forall i :: 0 <= i < |r.longZones| ==> r.longZones[i].low > 0.0 && r.longZones[i].high > 0.0
    ensures forall i :: 0 <= i < |r.shortZones| ==> r.shortZones[i].low > 0.0 && r.shortZones[i].high > 0.0
  {
    Zones(
      [
        Zone(74306.80, 74394.80),
        Zone(79981.80, 80102.80),
        Zone(85301.80, 85402.80),
        Zone(109018.9, 109122.8),
        Zone(113293.9, 113393.8),
        Zone(114548.9, 114677.8),
        Zone(116344.4, 116464.4),
        Zone(121100.0, 121350.0),
        Zone(122400.0, 122350.0),
        Zone(123100.0, 123150.0),
        Zone(124600.0, 124650.0),
        Zone(124199.0, 125220.0)
      ],
      [
        Zone(125797.0, 125897.0),
        Zone(125097.0, 125197.0),
        Zone(124500.0, 124540.0),
        Zone(123990.0, 124032.0),
        Zone(122900.0, 123000.0),
        Zone(120931.4, 120170.1),
        Zone(119409.0, 119479.7),
        Zone(117514.0, 118008.3),
        Zone(115585.0, 116085.2),
        Zone(114316.0, 114486.2),
        Zone(112990.0, 113100.0),
        Zone(108511.0, 108646.0),
        Zone(104511.00, 104596.30),
        Zone(98030.10, 98079.60),
        Zone(93630.10, 93679.60),
        Zone(92630.10, 92679.60),
        Zone(89906.80, 90008.60),
        Zone(79806.80, 80098.60),
        Zone(73906.80, 73979.60)
      ])
  }

  /// A band whose low is above its high contains no price.
  lemma InvertedZoneIsEmpty(z: Zone, price: real)
    requires z.low > z.high
    ensures !z.Contains(price)
  {
  }

  /// The default zones hold an inverted long band (122400/122350) and an
  /// inverted short band (120931.4/120170.1), and a long band that overlaps
  /// a short band, so that 124520 lies in both.
  lemma DefaultZonesFacts()
    ensures DefaultZones().longZones[8].low > DefaultZones().longZones[8].high
    ensures DefaultZones().shortZones[5].low > DefaultZones().shortZones[5].high
    ensures AnyContains(DefaultZones().longZones, 124520.0)
    ensures AnyContains(DefaultZones().shortZones, 124520.0)
  {
    assert DefaultZones().longZones[11].Contains(124520.0);
    assert DefaultZones().shortZones[2].Contains(124520.0);
  }

  /// The configuration fields the bot reads.
  datatype Config = Config(
    margin: real,
    leverage: real,
    riskPct: real,
    rangerRiskPct: real,
    rangerPriceDifference: real)

  /// An open position; `orderId` is only filled by the capitulation strategy.
  datatype OpenPosition = OpenPosition(
    pos: Position,
    entryPrice: real,
    positionSize: real,
    tp: Option<real>,
    sl: Option<real>,
    margin: Option<real>,
    quantity: Option<real>,
    leverage: Option<real>,
    riskPct: Option<real>,
    orderId: Option<string>)

  /// The placeholder position used when none is stored.
  function DefaultOpenPosition(): OpenPosition
  {
    OpenPosition(Flat, 0.0, 0.015, Some(0.0), Some(0.0), Some(50.0), Some(0.015), Some(35.0), Some(0.05), None)
  }

  /// A record of a (partially) closed trade.
  datatype ClosedPosition = ClosedPosition(
    position: Option<Position>,
    side: Option<Position>,
    entryPrice: real,
    exitPrice: real,
    pnl: real,
    quantity: Option<real>,
    sl: Option<real>,
    leverage: Option<real>,
    margin: Option<real>,
    orderId: Option<string>)

  /// The record the bot logs when `quantity` of `open` is closed at `exitPrice`.
  function ClosedRecord(open: OpenPosition, position: Position, exitPrice: real, pnl: real, quantity: real): ClosedPosition
  {
    ClosedPosition(Some(position), None, open.entryPrice, exitPrice, pnl, Some(quantity),
                   open.sl, open.leverage, open.margin, open.orderId)
  }

  /// Price returned by the exchange layer when no price could be read.
  const PriceSentinel: real := 1.11
  /// A margin at or below this is considered lost and reset to the configured one.
  const MarginFloor: real := 5.0
  /// Number of losses after which the bot stops trading.
  const LossLimit: nat := 2
  /// Number of rungs the nearest-zone distance is divided into.
  const ProfitCount: real := 4.0

  /// `load_current_margin`: the stored margin, or the configured one when
  /// nothing usable is stored or the stored one is at or below the floor.
  function LoadedMargin(stored: Option<real>, config: Config): (r: real)
    ensures r > MarginFloor || r == config.margin
    ensures stored.Some? && stored.value > MarginFloor ==> r == stored.value
    ensures stored.None? || stored.value <= MarginFloor ==> r == config.margin
  {
    var margin := stored.UnwrapOr(config.margin);
    if margin <= MarginFloor then config.margin else margin
  }

  /// Whether compounding `pnl` onto the loaded margin falls to the floor.
  predicate MarginReset(stored: Option<real>, pnl: real, config: Config)
  {
    LoadedMargin(stored, config) + pnl <= MarginFloor
  }

  /// The margin `prepare_current_margin` settles on: loaded margin plus pnl,
  /// replaced by the configured margin when that is at or below the floor.
  function CompoundedMargin(stored: Option<real>, pnl: real, config: Config): (r: real)
    ensures r > MarginFloor || r == config.margin
    ensures !MarginReset(stored, pnl, config) ==> r == LoadedMargin(stored, config) + pnl
    ensures MarginReset(stored, pnl, config) ==> r == config.margin
  {
    var m := LoadedMargin(stored, config) + pnl;
    if m <= MarginFloor then config.margin else m
  }

  /// Distance from `entry` up to the lowest zone low above it, if any.
  function NearestLowAbove(zs: seq<Zone>, entry: real): (r: Option<real>)
    ensures r.None? <==> forall i :: 0 <= i < |zs| ==> zs[i].low <= entry
    ensures r.Some? ==> r.value > 0.0
    ensures r.Some? ==> exists i :: 0 <= i < |zs| && zs[i].low > entry && r.value == zs[i].low - entry
    ensures r.Some? ==> forall i :: 0 <= i < |zs| && zs[i].low > entry ==> r.value <= zs[i].low - entry
    decreases |zs|
  {
    if |zs| == 0 then None
    else
      var rest := NearestLowAbove(zs[1..], entry);
      if zs[0].low > entry then
        var d := zs[0].low - entry;
        match rest
        case None => Some(d)
        case Some(e) => Some(if e < d then e else d)
      else rest
  }

  /// Distance from `entry` down to the highest zone high below it, if any.
  function NearestHighBelow(zs: seq<Zone>, entry: real): (r: Option<real>)
    ensures r.None? <==> forall i :: 0 <= i < |zs| ==> zs[i].high >= entry
    ensures r.Some? ==> r.value > 0.0
    ensures r.Some? ==> exists i :: 0 <= i < |zs| && zs[i].high < entry && r.value == entry - zs[i].high
    ensures r.Some? ==> forall i :: 0 <= i < |zs| && zs[i].high < entry ==> r.value <= entry - zs[i].high
    decreases |zs|
  {
    if |zs| == 0 then None
    else
      var rest := NearestHighBelow(zs[1..], entry);
      if zs[0].high < entry then
        var d := entry - zs[0].high;
        match rest
        case None => Some(d)
        case Some(e) => Some(if e < d then e else d)
      else rest
  }

  /// `determine_profit_difference`: for a Long, the distance up to the
  /// nearest short zone above the entry; for a Short, the distance down to
  /// the nearest long zone below it; 0 when there is none, and for Flat.
  function ProfitDifference(zones: Zones, entry: real, pos: Position): (r: real)
    ensures r >= 0.0
    ensures pos == Flat ==> r == 0.0
    ensures pos == Long ==> (r > 0.0 <==> exists i :: 0 <= i < |zones.shortZones| && zones.shortZones[i].low > entry)
    ensures pos == Short ==> (r > 0.0 <==> exists i :: 0 <= i < |zones.longZones| && zones.longZones[i].high < entry)
    ensures pos == Long && r > 0.0 ==>
      forall i :: 0 <= i < |zones.shortZones| && zones.shortZones[i].low > entry ==> r <= zones.shortZones[i].low - entry
    ensures pos == Short && r > 0.0 ==>
      forall i :: 0 <= i < |zones.longZones| && zones.longZones[i].high < entry ==> r <= entry - zones.longZones[i].high
  {
    match pos
    case Long => NearestLowAbove(zones.shortZones, entry).UnwrapOr(0.0)
    case Short => NearestHighBelow(zones.longZones, entry).UnwrapOr(0.0)
    case Flat => 0.0
  }

  /// Distance between rungs: a quarter of the zone distance when there is
  /// one, otherwise the configured distance.
  function LadderStep(diff: real, config: Config): (r: real)
    ensures diff != 0.0 ==> r * ProfitCount == diff
    ensures diff == 0.0 ==> r == config.rangerPriceDifference
  {
    if diff != 0.0 then diff / ProfitCount else config.rangerPriceDifference
  }

  /// Every field of the bot, as one value.
  datatype BotState = BotState(
    pos: Position,
    openPos: OpenPosition,
    zones: Zones,
    lossCount: nat,
    currentMargin: real,
    ladder: seq<PartialProfitTarget>,
    storedLossCount: nat,
    storedMargin: Option<real>,
    zoneSource: Zones,
    closedLog: seq<ClosedPosition>)

  /// The stop-loss used when the open position carries none.
  function InitialStop(config: Config, open: OpenPosition, side: Position): real
    requires config.margin > 0.0 && config.leverage > 0.0
  {
    StopLossPrice(open.entryPrice, config.margin, config.leverage, config.riskPct, side)
  }

  /// The pnl a full close at `price` books: with the bot's side for a Long,
  /// with the open position's own side for a Short.
  function ClosePnl(s: BotState, price: real, side: Position): (pnl: real)
    ensures pnl >= 0.0
  {
    ComputePnl(if side == Long then s.pos else s.openPos.pos, s.openPos.entryPrice, s.openPos.positionSize, price)
  }

  /// The state `close_long_position` leaves behind.
  function CloseLongSpec(config: Config, s: BotState, price: real): BotState
  {
    var pnl := ClosePnl(s, price, Long);
    var m := CompoundedMargin(s.storedMargin, pnl, config);
    var lc := if |s.ladder| == TpCounts then s.lossCount + 1 else s.lossCount;
    s.(closedLog := [ClosedRecord(s.openPos, Long, price, pnl, s.openPos.positionSize)] + s.closedLog,
       currentMargin := m,
       storedMargin := Some(m),
       openPos := if MarginReset(s.storedMargin, pnl, config)
                  then s.openPos.(margin := Some(config.margin)) else s.openPos,
       lossCount := lc,
       pos := if |s.ladder| == TpCounts && lc >= LossLimit then Flat else s.pos)
  }

  /// The state `close_short_position` leaves behind.
  function CloseShortSpec(config: Config, s: BotState, price: real): BotState
  {
    var pnl := ClosePnl(s, price, Short);
    var m := CompoundedMargin(s.storedMargin, pnl, config);
    s.(closedLog := [ClosedRecord(s.openPos, Short, price, pnl, s.openPos.positionSize)] + s.closedLog,
       currentMargin := m,
       storedMargin := Some(m),
       openPos := if MarginReset(s.storedMargin, pnl, config)
                  then s.openPos.(margin := Some(config.margin)) else s.openPos)
  }

  /// The state closing the position of `side` leaves behind.
  function CloseSpec(config: Config, s: BotState, price: real, side: Position): (r: BotState)
    ensures |r.closedLog| == |s.closedLog| + 1 && r.closedLog[1..] == s.closedLog
    ensures r.pos == s.pos || r.pos == Flat
    ensures r.openPos == s.openPos || r.openPos == s.openPos.(margin := Some(config.margin))
    ensures r.ladder == s.ladder && r.zones == s.zones && r.zoneSource == s.zoneSource
    ensures r.storedLossCount == s.storedLossCount
  {
    if side == Long then CloseLongSpec(config, s, price) else CloseShortSpec(config, s, price)
  }

  /// A close logs exactly one record on top of the old log, for the whole
  /// position at `price`, and compounds a never negative pnl, so the margin
  /// it keeps is never below the margin it loaded.
  lemma CloseLogsAndCompounds(config: Config, s: BotState, price: real, side: Position)
    requires side != Flat
    ensures var r := CloseSpec(config, s, price, side);
      var pnl := ClosePnl(s, price, side);
      r.closedLog == [ClosedRecord(s.openPos, side, price, pnl, s.openPos.positionSize)] + s.closedLog &&
      r.currentMargin == CompoundedMargin(s.storedMargin, pnl, config) &&
      r.storedMargin == Some(r.currentMargin) &&
      r.currentMargin >= LoadedMargin(s.storedMargin, config) &&
      r.ladder == s.ladder && r.zones == s.zones && r.storedLossCount == s.storedLossCount
  {
    var pnl := ClosePnl(s, price, side);
    assert pnl >= 0.0;
  }

  /// `r`'s closed-position log is `s`'s with records put in front of it
  /// (the store's list is newest first).
  predicate LogExtends(r: BotState, s: BotState)
  {
    |r.closedLog| >= |s.closedLog| && r.closedLog[|r.closedLog| - |s.closedLog|..] == s.closedLog
  }

  lemma PrependExtends(r: BotState, t: BotState, s: BotState, pre: seq<ClosedPosition>)
    requires r.closedLog == pre + t.closedLog && LogExtends(t, s)
    ensures LogExtends(r, s)
  {
    assert r.closedLog[|r.closedLog| - |s.closedLog|..] == t.closedLog[|t.closedLog| - |s.closedLog|..];
  }

  lemma ExtendsTrans(r: BotState, t: BotState, s: BotState)
    requires LogExtends(r, t) && LogExtends(t, s)
    ensures LogExtends(r, s)
  {
    var k := |r.closedLog| - |t.closedLog|;
    assert r.closedLog == r.closedLog[..k] + r.closedLog[k..];
    PrependExtends(r, t, s, r.closedLog[..k]);
  }

  /// `take_profit_on_long` / `take_profit_on_short`: an accepted closing
  /// order closes the position and goes Flat; a failed one changes nothing
  /// and is returned as an error.
  function TakeProfitSpec(config: Config, s: BotState, price: real, side: Position, exchangeOk: bool): (BotState, bool)
  {
    if exchangeOk then (CloseSpec(config, s, price, side).(pos := Flat), true) else (s, false)
  }

  /// The share of `open` a rung closes: its fraction of the quantity.
  function Share(open: OpenPosition, target: PartialProfitTarget): real
  {
    target.fraction * open.quantity.UnwrapOr(0.0)
  }

  /// What is left of `open` after a rung is taken.
  function Remainder(open: OpenPosition, target: PartialProfitTarget): real
  {
    open.quantity.UnwrapOr(0.0) - Share(open, target)
  }

  /// A partial take that closes neither all nor nothing of the position.
  predicate PartialTakeOnly(open: OpenPosition, target: PartialProfitTarget)
  {
    Share(open, target) > 0.0 && Remainder(open, target) > 0.0
  }

  /// The state after the bookkeeping of a partial take of `qty` that
  /// leaves `remaining`.
  function BookPartialSpec(config: Config, s: BotState, price: real, target: PartialProfitTarget, side: Position,
                           qty: real, remaining: real): BotState
  {
    var pnl := ComputePnl(s.pos, s.openPos.entryPrice, qty, price);
    var m := CompoundedMargin(s.storedMargin, pnl, config);
    s.(closedLog := [ClosedRecord(s.openPos, side, price, pnl, qty)] + s.closedLog,
       currentMargin := m,
       storedMargin := Some(m),
       openPos := s.openPos.(
         positionSize := remaining, quantity := Some(remaining),
         tp := Some(target.targetPrice), sl := target.sl,
         margin := if MarginReset(s.storedMargin, pnl, config) then Some(config.margin) else s.openPos.margin))
  }

  /// The state `take_partial_profit_on_long` / `_on_short` leaves behind:
  /// a non-positive share closes the position first, an empty ladder goes
  /// Flat, a non-positive remainder closes what is left, and the rung is
  /// then booked.
  function TakePartialSpec(config: Config, s: BotState, price: real, target: PartialProfitTarget, side: Position): BotState
  {
    BookPartialSpec(config, PartialPrelude(config, s, price, target, side), price, target, side,
                    Share(s.openPos, target), Remainder(s.openPos, target))
  }

  /// The part of a partial take before its bookkeeping.
  function PartialPrelude(config: Config, s: BotState, price: real, target: PartialProfitTarget, side: Position): (r: BotState)
    ensures r.pos == s.pos || r.pos == Flat
    ensures r.openPos.pos == s.openPos.pos && r.openPos.entryPrice == s.openPos.entryPrice
    ensures r.openPos.leverage == s.openPos.leverage && r.openPos.riskPct == s.openPos.riskPct
    ensures r.openPos.margin == s.openPos.margin || r.openPos.margin == Some(config.margin)
    ensures r.storedLossCount == s.storedLossCount && r.zones == s.zones
    ensures |s.ladder| > 0 ==> r.ladder == s.ladder
    ensures |s.ladder| == 0 ==> r.pos == Flat && r.ladder == []
    ensures PartialTakeOnly(s.openPos, target) && |s.ladder| > 0 ==> r == s
  {
    var remaining := Remainder(s.openPos, target);
    var s1 := if Share(s.openPos, target) <= 0.0 then CloseSpec(config, s, price, side) else s;
    var s2 := if |s1.ladder| == 0 then s1.(pos := Flat, ladder := []) else s1;
    if remaining <= 0.0
    then CloseSpec(config, s2.(openPos := s2.openPos.(quantity := Some(remaining), positionSize := remaining)), price, side)
    else s2
  }

  /// The closes before a partial take's bookkeeping only put records in
  /// front of the log.
  lemma PreludeExtends(config: Config, s: BotState, price: real, target: PartialProfitTarget, side: Position)
    ensures LogExtends(PartialPrelude(config, s, price, target, side), s)
  {
    var remaining := Remainder(s.openPos, target);
    var s1 := if Share(s.openPos, target) <= 0.0 then CloseSpec(config, s, price, side) else s;
    var s2 := if |s1.ladder| == 0 then s1.(pos := Flat, ladder := []) else s1;
    var s2q := s2.(openPos := s2.openPos.(quantity := Some(remaining), positionSize := remaining));
    assert LogExtends(s, s);
    if s1 != s {
      PrependExtends(s1, s, s, [s1.closedLog[0]]);
    }
    if remaining <= 0.0 {
      var s3 := CloseSpec(config, s2q, price, side);
      PrependExtends(s3, s2q, s, [s3.closedLog[0]]);
    }
  }

  /// What a partial take promises: the position keeps its side, entry,
  /// leverage and risk, is cut down to the remainder, and takes the rung's
  /// target and stop; a proper partial take is exactly the bookkeeping.
  lemma TakePartialFacts(config: Config, s: BotState, price: real, target: PartialProfitTarget, side: Position)
    requires side != Flat
    ensures var r := TakePartialSpec(config, s, price, target, side);
      r.openPos.quantity == Some(Remainder(s.openPos, target)) &&
      r.openPos.positionSize == Remainder(s.openPos, target) &&
      r.openPos.tp == Some(target.targetPrice) && r.openPos.sl == target.sl &&
      r.openPos.pos == s.openPos.pos && r.openPos.entryPrice == s.openPos.entryPrice &&
      r.openPos.leverage == s.openPos.leverage && r.openPos.riskPct == s.openPos.riskPct &&
      (r.openPos.margin == s.openPos.margin || r.openPos.margin == Some(config.margin))
    ensures var r := TakePartialSpec(config, s, price, target, side);
      (r.pos == s.pos || r.pos == Flat) && r.storedLossCount == s.storedLossCount && r.zones == s.zones &&
      (|s.ladder| > 0 ==> r.ladder == s.ladder) &&
      (|s.ladder| == 0 ==> r.pos == Flat && r.ladder == [])
    ensures PartialTakeOnly(s.openPos, target) && |s.ladder| > 0 ==>
      TakePartialSpec(config, s, price, target, side) ==
        BookPartialSpec(config, s, price, target, side, Share(s.openPos, target), Remainder(s.openPos, target))
    ensures LogExtends(TakePartialSpec(config, s, price, target, side), s)
  {
    var p := PartialPrelude(config, s, price, target, side);
    var r := TakePartialSpec(config, s, price, target, side);
    PreludeExtends(config, s, price, target, side);
    PrependExtends(r, p, s, [r.closedLog[0]]);
  }

  /// The state `evaluate_long_partial_profit` / `_short_` leaves behind: an
  /// empty ladder goes Flat; the first rung the price reached is taken and
  /// removed unless its target is 0 or the 1.11 sentinel.
  function EvaluateSpec(config: Config, s: BotState, price: real, side: Position): BotState
  {
    var s1 := if |s.ladder| == 0 then s.(pos := Flat) else s;
    match FirstReached(s1.ladder, price, side)
    case None => s1
    case Some(i) =>
      var target := s1.ladder[i];
      if target.targetPrice == 0.0 || target.targetPrice == PriceSentinel then s1
      else TakePartialSpec(config, s1, price, target, side).(ladder := RemoveAt(s1.ladder, i))
  }

  /// What a ladder evaluation promises: exactly the first reached rung is
  /// removed and sets the position's target and stop; when no rung counts,
  /// only an empty ladder changes anything (it goes Flat).
  lemma EvaluateFacts(config: Config, s: BotState, price: real, side: Position)
    requires side != Flat
    ensures var r := EvaluateSpec(config, s, price, side);
      (r.pos == s.pos || r.pos == Flat) && r.storedLossCount == s.storedLossCount && r.zones == s.zones
    ensures |s.ladder| == 0 ==> EvaluateSpec(config, s, price, side) == s.(pos := Flat)
    ensures var idx := FirstReached(s.ladder, price, side);
      idx.None? || s.ladder[idx.value].targetPrice in {0.0, PriceSentinel} ==>
        EvaluateSpec(config, s, price, side) == s.(pos := if |s.ladder| == 0 then Flat else s.pos)
    ensures var idx := FirstReached(s.ladder, price, side); var r := EvaluateSpec(config, s, price, side);
      idx.Some? && s.ladder[idx.value].targetPrice !in {0.0, PriceSentinel} ==>
        r.ladder == RemoveAt(s.ladder, idx.value) &&
        r.openPos.tp == Some(s.ladder[idx.value].targetPrice) &&
        r.openPos.sl == s.ladder[idx.value].sl &&
        r.openPos.quantity == Some(Remainder(s.openPos, s.ladder[idx.value]))
    ensures LogExtends(EvaluateSpec(config, s, price, side), s)
  {
    assert LogExtends(s, s);
    var idx := FirstReached(s.ladder, price, side);
    if idx.Some? && s.ladder[idx.value].targetPrice !in {0.0, PriceSentinel} {
      TakePartialFacts(config, s, price, s.ladder[idx.value], side);
    } else if |s.ladder| > 0 {
      TakePartialFacts(config, s, price, s.ladder[0], side);
    }
  }

  /// The Long or Short branch of `run_cycle`: the stop-loss check, the
  /// take-profit when an opposing zone holds the price, then the ladder.
  /// The flag says whether the cycle ended without an error.
  function ManageSpec(config: Config, s: BotState, price: real, side: Position, exchangeOk: bool): (BotState, bool)
    requires config.margin > 0.0 && config.leverage > 0.0
  {
    var s1 := if StopHit(config, s, price, side) then CloseSpec(config, s, price, side).(pos := Flat) else s;
    if !InOpposingZone(s.zones, price, side) then (EvaluateSpec(config, s1, price, side), true)
    else if !exchangeOk then (s1, false)
    else (EvaluateSpec(config, TakeProfitSpec(config, s1, price, side, true).0, price, side), true)
  }

  /// Whether the stop of `s`'s position (or the configured one when it has
  /// none) is hit at `price`.
  predicate StopHit(config: Config, s: BotState, price: real, side: Position)
    requires config.margin > 0.0 && config.leverage > 0.0
  {
    SslHit(price, side, s.openPos.sl.UnwrapOr(InitialStop(config, s.openPos, side)))
  }

  /// Whether an opposing zone of `side` holds `price`.
  predicate InOpposingZone(zones: Zones, price: real, side: Position)
  {
    AnyContains(if side == Long then zones.shortZones else zones.longZones, price)
  }

  /// `r` is `s` after an entry on `side` at `price`: the zones reloaded,
  /// the ladder rebuilt from the current margin and a fresh position
  /// prepared with every field `prepare_open_position` sets; the log,
  /// margins and loss counts are untouched. A Long takes its take-profit
  /// from the last rung, a Short the 1.11 sentinel.
  predicate Entered(config: Config, s: BotState, r: BotState, price: real, side: Position)
  {
    price != 0.0 && s.currentMargin != 0.0 && config.leverage != 0.0 &&
    var ladder := ProfitLadder(price, s.currentMargin, config.leverage,
                               LadderStep(ProfitDifference(s.zoneSource, price, side), config), side);
    var q := ContractAmount(price, s.currentMargin, config.leverage);
    var sl := StopLossPrice(price, s.currentMargin, config.leverage, config.rangerRiskPct, side);
    (side == Long ==> |ladder| > 0) &&
    var tp := if side == Long then ladder[|ladder| - 1].targetPrice else PriceSentinel;
    r == s.(pos := side, zones := s.zoneSource, ladder := ladder,
            openPos := OpenPosition(side, price, q, Some(tp), Some(sl), Some(s.currentMargin), Some(q),
                                    Some(config.leverage), Some(config.rangerRiskPct), None))
  }

  /// What a position-holding cycle can do: the bot keeps its side or goes
  /// Flat, records only get added to the log, the stored loss count and the
  /// zones stay, an error comes only from a failed order, and a hit stop
  /// always ends Flat.
  lemma ManageFacts(config: Config, s: BotState, price: real, side: Position, exchangeOk: bool)
    requires config.margin > 0.0 && config.leverage > 0.0 && side != Flat && s.pos == side
    ensures var (r, ok) := ManageSpec(config, s, price, side, exchangeOk);
      (r.pos == side || r.pos == Flat) && LogExtends(r, s) &&
      r.storedLossCount == s.storedLossCount && r.zones == s.zones && (!ok ==> !exchangeOk)
    ensures StopHit(config, s, price, side) ==> ManageSpec(config, s, price, side, exchangeOk).0.pos == Flat
  {
    var s1 := if StopHit(config, s, price, side) then CloseSpec(config, s, price, side).(pos := Flat) else s;
    assert LogExtends(s, s);
    if StopHit(config, s, price, side) {
      PrependExtends(s1, s, s, [s1.closedLog[0]]);
    }
    if !InOpposingZone(s.zones, price, side) {
      EvaluateFacts(config, s1, price, side);
      ExtendsTrans(EvaluateSpec(config, s1, price, side), s1, s);
    } else if exchangeOk {
      var t := TakeProfitSpec(config, s1, price, side, true).0;
      PrependExtends(t, s1, s, [t.closedLog[0]]);
      EvaluateFacts(config, t, price, side);
      ExtendsTrans(EvaluateSpec(config, t, price, side), t, s);
    }
  }

  /// An opposing zone holding the price takes profit. An accepted order
  /// leaves the bot Flat with the close of the whole position logged
  /// directly on top of the old log; a failed order, with the stop not hit,
  /// changes nothing and returns the error.
  lemma OpposingZoneTakesProfit(config: Config, s: BotState, price: real, side: Position, exchangeOk: bool)
    requires config.margin > 0.0 && config.leverage > 0.0 && side != Flat && s.pos == side
    requires !StopHit(config, s, price, side) && InOpposingZone(s.zones, price, side)
    ensures !exchangeOk ==> ManageSpec(config, s, price, side, exchangeOk) == (s, false)
    ensures var (r, ok) := ManageSpec(config, s, price, side, exchangeOk);
      var rec := ClosedRecord(s.openPos, side, price, ClosePnl(s, price, side), s.openPos.positionSize);
      exchangeOk ==>
        ok && r.pos == Flat && |r.closedLog| > |s.closedLog| &&
        r.closedLog[|r.closedLog| - |s.closedLog| - 1..] == [rec] + s.closedLog
  {
    if exchangeOk {
      var t := TakeProfitSpec(config, s, price, side, true).0;
      CloseLogsAndCompounds(config, s, price, side);
      EvaluateFacts(config, t, price, side);
    }
  }

  /// With the stop not hit and no opposing zone holding the price, the
  /// first reached rung of a proper partial take is taken: it is removed
  /// from the ladder, its share is logged with the bot's side, the margin
  /// compounds, and the position keeps its side with the rung's target and
  /// stop and the remaining quantity.
  lemma LadderRungTaken(config: Config, s: BotState, price: real, side: Position, exchangeOk: bool)
    requires config.margin > 0.0 && config.leverage > 0.0 && side != Flat && s.pos == side
    requires !StopHit(config, s, price, side) && !InOpposingZone(s.zones, price, side)
    requires FirstReached(s.ladder, price, side).Some?
    requires var t := s.ladder[FirstReached(s.ladder, price, side).value];
      t.targetPrice !in {0.0, PriceSentinel} && PartialTakeOnly(s.openPos, t)
    ensures var i := FirstReached(s.ladder, price, side).value; var t := s.ladder[i];
      var (r, ok) := ManageSpec(config, s, price, side, exchangeOk);
      var qty := Share(s.openPos, t);
      var pnl := ComputePnl(side, s.openPos.entryPrice, qty, price);
      ok && r.pos == side && r.ladder == RemoveAt(s.ladder, i) &&
      r.openPos.quantity == Some(Remainder(s.openPos, t)) && r.openPos.positionSize == Remainder(s.openPos, t) &&
      r.openPos.tp == Some(t.targetPrice) && r.openPos.sl == t.sl &&
      r.closedLog == [ClosedRecord(s.openPos, side, price, pnl, qty)] + s.closedLog &&
      r.currentMargin == CompoundedMargin(s.storedMargin, pnl, config)
  {
    var i := FirstReached(s.ladder, price, side).value;
    TakePartialFacts(config, s, price, s.ladder[i], side);
  }

  /// With the stop not hit, no opposing zone holding the price and no rung
  /// reached, a cycle changes nothing.
  lemma NothingReachedKeepsState(config: Config, s: BotState, price: real, side: Position, exchangeOk: bool)
    requires config.margin > 0.0 && config.leverage > 0.0 && side != Flat && s.pos == side
    requires !StopHit(config, s, price, side) && !InOpposingZone(s.zones, price, side)
    requires |s.ladder| > 0 && FirstReached(s.ladder, price, side).None?
    ensures ManageSpec(config, s, price, side, exchangeOk) == (s, true)
  {
  }

  class Bot {
    var pos: Position
    var openPos: OpenPosition
    var zones: Zones
    var lossCount: nat
    var currentMargin: real
    var ladder: seq<PartialProfitTarget>
    const config: Config
    /// The loss count in the store (0 when absent or unreadable).
    var storedLossCount: nat
    /// The compounded margin in the store (None when absent or unreadable).
    var storedMargin: Option<real>
    /// What loading the zones yields: the stored zones, or the default
    /// zones when none are stored or they are unreadable.
    var zoneSource: Zones
    /// The list of closed positions in the store, newest first.
    var closedLog: seq<ClosedPosition>

    function State(): BotState
      reads this
    {
      BotState(pos, openPos, zones, lossCount, currentMargin, ladder,
               storedLossCount, storedMargin, zoneSource, closedLog)
    }

    predicate Valid()
      reads this
    {
      config.margin > 0.0 && config.leverage > 0.0 && currentMargin > 0.0
    }

    /// `Bot::new`: every field loaded from the store, with the defaults the
    /// source falls back to when a record is missing or unreadable.
    constructor (config: Config, storedPos: Option<Position>, storedOpenPos: Option<OpenPosition>,
                 storedZones: Option<Zones>, storedMargin: Option<real>,
                 storedLadder: Option<seq<PartialProfitTarget>>, storedLossCount: nat)
      requires config.margin > 0.0 && config.leverage > 0.0
      ensures Valid()
      ensures pos == storedPos.UnwrapOr(Flat)
      ensures openPos == storedOpenPos.UnwrapOr(DefaultOpenPosition())
      ensures zones == storedZones.UnwrapOr(DefaultZones()) && zoneSource == zones
      ensures currentMargin == LoadedMargin(storedMargin, config)
      ensures ladder == storedLadder.UnwrapOr([])
      ensures lossCount == storedLossCount
      ensures this.config == config && this.storedLossCount == storedLossCount
      ensures this.storedMargin == storedMargin
      ensures closedLog == []
    {
      this.config := config;
      pos := storedPos.UnwrapOr(Flat);
      openPos := storedOpenPos.UnwrapOr(DefaultOpenPosition());
      zones := storedZones.UnwrapOr(DefaultZones());
      currentMargin := LoadedMargin(storedMargin, config);
      ladder := storedLadder.UnwrapOr([]);
      lossCount := storedLossCount;
      this.storedLossCount := storedLossCount;
      this.storedMargin := storedMargin;
      zoneSource := zones;
      closedLog := [];
    }

    /// `prepare_open_position`: a fresh position at `entryPrice` sized from
    /// the current margin, with its stop-loss and, as take-profit, the last
    /// rung of the ladder (the 1.11 sentinel when the ladder is empty).
    function PreparedPosition(side: Position, entryPrice: real, leverage: real, riskPct: real): (r: OpenPosition)
      reads this
      requires currentMargin != 0.0 && leverage != 0.0 && entryPrice != 0.0
      ensures r.pos == side && r.entryPrice == entryPrice
      ensures r.quantity == Some(r.positionSize)
      ensures r.positionSize == ContractAmount(entryPrice, currentMargin, leverage)
      ensures r.sl == Some(StopLossPrice(entryPrice, currentMargin, leverage, riskPct, side))
      ensures r.tp == Some(if |ladder| == 0 then PriceSentinel else ladder[|ladder| - 1].targetPrice)
      ensures r.margin == Some(currentMargin) && r.leverage == Some(leverage) && r.riskPct == Some(riskPct)
      ensures r.orderId.None?
    {
      var sl := StopLossPrice(entryPrice, currentMargin, leverage, riskPct, side);
      var qty := ContractAmount(entryPrice, currentMargin, leverage);
      var tp := if |ladder| > 0 then ladder[|ladder| - 1].targetPrice else PriceSentinel;
      OpenPosition(side, entryPrice, qty, Some(tp), Some(sl), Some(currentMargin), Some(qty),
                   Some(leverage), Some(riskPct), None)
    }

    /// `prepare_current_margin`: compounds `pnl` onto the stored margin,
    /// resets it to the configured margin at or below the floor (also on the
    /// open position), and keeps and stores the result.
    method PrepareCurrentMargin(pnl: real) returns (m: real)
      modifies this
      requires Valid()
      ensures Valid()
      ensures m == CompoundedMargin(old(storedMargin), pnl, config)
      ensures State() == old(State()).(
        currentMargin := m,
        storedMargin := Some(m),
        openPos := if MarginReset(old(storedMargin), pnl, config)
                   then old(openPos).(margin := Some(config.margin)) else old(openPos))
    {
      m := LoadedMargin(storedMargin, config);
      m := m + pnl;
      if m <= MarginFloor {
        m := config.margin;
        openPos := openPos.(margin := Some(m));
      }
      currentMargin := m;
      storedMargin := Some(m);
    }

    /// `store_loss_count`: a negative pnl counts as a loss; from the second
    /// loss on the count is stored.
    method StoreLossCount(pnl: real)
      modifies this
      ensures pnl >= 0.0 ==> State() == old(State())
      ensures pnl < 0.0 ==> State() == old(State()).(
        lossCount := old(lossCount) + 1,
        storedLossCount := if old(lossCount) + 1 >= LossLimit then old(lossCount) + 1 else old(storedLossCount))
    {
      if pnl < 0.0 {
        lossCount := lossCount + 1;
        if lossCount >= LossLimit {
          storedLossCount := lossCount;
        }
      }
    }

    /// `close_long_position`: logs the trade with the (never negative) pnl
    /// of the bot's side, compounds the margin, and counts a loss when no
    /// rung was taken (four rungs left); the second such loss goes Flat.
    method CloseLongPosition(price: real)
      modifies this
      requires Valid()
      ensures Valid()
      ensures State() == CloseLongSpec(config, old(State()), price)
    {
      var pnl := ComputePnl(pos, openPos.entryPrice, openPos.positionSize, price);
      closedLog := [ClosedRecord(openPos, Long, price, pnl, openPos.positionSize)] + closedLog;
      var _ := PrepareCurrentMargin(pnl);
      StoreLossCount(pnl);
      if |ladder| == TpCounts {
        lossCount := lossCount + 1;
        if lossCount >= LossLimit {
          pos := Flat;
          StoreLossCount(pnl);
        }
      }
    }

    /// `close_short_position`: logs the trade with the pnl of the open
    /// position's own side and compounds the margin; no loss is counted.
    method CloseShortPosition(price: real)
      modifies this
      requires Valid()
      ensures Valid()
      ensures State() == CloseShortSpec(config, old(State()), price)
    {
      var pnl := ComputePnl(openPos.pos, openPos.entryPrice, openPos.positionSize, price);
      closedLog := [ClosedRecord(openPos, Short, price, pnl, openPos.positionSize)] + closedLog;
      var _ := PrepareCurrentMargin(pnl);
    }

    /// Closes the position of the given side.
    method ClosePosition(price: real, side: Position)
      modifies this
      requires Valid() && side != Flat
      ensures Valid()
      ensures State() == CloseSpec(config, old(State()), price, side)
    {
      if side == Long {
        CloseLongPosition(price);
      } else {
        CloseShortPosition(price);
      }
    }

    /// `take_profit_on_long` / `take_profit_on_short`: when the exchange
    /// accepts the closing order, closes the position and goes Flat; when
    /// it fails, nothing changes and the error is returned.
    method TakeProfit(price: real, side: Position, exchangeOk: bool) returns (ok: bool)
      modifies this
      requires Valid() && side != Flat
      ensures Valid()
      ensures (State(), ok) == TakeProfitSpec(config, old(State()), price, side, exchangeOk)
    {
      if !exchangeOk {
        return false;
      }
      ClosePosition(price, side);
      pos := Flat;
      return true;
    }

    /// `take_partial_profit_on_long` / `_on_short`: closes the rung's
    /// fraction of the remaining quantity, logs it with the pnl of the bot's
    /// current side, compounds the margin, and moves the position's
    /// take-profit to the rung's target and its stop-loss to the rung's
    /// stop. A non-positive share or remainder also closes the whole position.
    method TakePartialProfit(price: real, target: PartialProfitTarget, side: Position)
      modifies this
      requires Valid() && side != Flat
      ensures Valid()
      ensures State() == TakePartialSpec(config, old(State()), price, target, side)
    {
      ghost var s0 := State();
      var remainingSize := openPos.quantity.UnwrapOr(0.0);
      var qtyToClose := target.fraction * remainingSize;
      if qtyToClose <= 0.0 {
        ClosePosition(price, side);
      }
      ghost var s1 := State();
      assert s1 == if Share(s0.openPos, target) <= 0.0 then CloseSpec(config, s0, price, side) else s0;
      if |ladder| == 0 {
        pos := Flat;
        ladder := [];
      }
      ghost var s2 := State();
      assert s2 == if |s1.ladder| == 0 then s1.(pos := Flat, ladder := []) else s1;
      remainingSize := remainingSize - qtyToClose;
      if remainingSize <= 0.0 {
        openPos := openPos.(quantity := Some(remainingSize), positionSize := remainingSize);
        assert State() == s2.(openPos := s2.openPos.(quantity := Some(remainingSize), positionSize := remainingSize));
        ClosePosition(price, side);
      }
      assert qtyToClose == Share(s0.openPos, target) && remainingSize == Remainder(s0.openPos, target);
      assert State() == PartialPrelude(config, s0, price, target, side);
      BookPartial(price, target, side, qtyToClose, remainingSize);
    }

    /// The bookkeeping that ends a partial take: the log record, the
    /// compounded margin, and the position cut down to `remaining` with the
    /// rung's target as take-profit and the rung's stop as stop-loss.
    method BookPartial(price: real, target: PartialProfitTarget, side: Position, qty: real, remaining: real)
      modifies this
      requires Valid()
      ensures Valid()
      ensures State() == BookPartialSpec(config, old(State()), price, target, side, qty, remaining)
    {
      var pnl := ComputePnl(pos, openPos.entryPrice, qty, price);
      closedLog := [ClosedRecord(openPos, side, price, pnl, qty)] + closedLog;
      var _ := PrepareCurrentMargin(pnl);
      openPos := openPos.(positionSize := remaining, tp := Some(target.targetPrice),
                          sl := target.sl, quantity := Some(remaining));
    }

    /// `evaluate_long_partial_profit` / `evaluate_short_partial_profit`: an
    /// empty ladder sends the bot Flat; otherwise the first rung the price
    /// has reached is taken and removed, unless its target is 0 or the
    /// 1.11 sentinel, in which case nothing is taken.
    method EvaluatePartialProfit(price: real, side: Position)
      modifies this
      requires Valid() && side != Flat
      ensures Valid()
      ensures State() == EvaluateSpec(config, old(State()), price, side)
    {
      if |ladder| == 0 {
        pos := Flat;
      }
      var idx := FirstReached(ladder, price, side);
      if idx.None? {
        return;
      }
      var target := ladder[idx.value];
      if target.targetPrice == 0.0 || target.targetPrice == PriceSentinel {
        return;
      }
      TakePartialProfit(price, target, side);
      ladder := RemoveAt(ladder, idx.value);
    }

    /// `store_partial_profit_targets`: reloads the zones and rebuilds the
    /// ladder from the entry, a quarter of the distance to the nearest
    /// opposing zone (or the configured step) and the current margin.
    method StorePartialProfitTargets(entryPrice: real, side: Position)
      modifies this
      requires entryPrice != 0.0
      ensures zones == old(zoneSource)
      ensures ladder == ProfitLadder(entryPrice, old(currentMargin), config.leverage,
                                     LadderStep(ProfitDifference(zones, entryPrice, side), config), side)
      ensures State() == old(State()).(zones := zones, ladder := ladder)
    {
      zones := zoneSource;
      var priceDifference := ProfitDifference(zones, entryPrice, side);
      var rangerPriceDifference := config.rangerPriceDifference;
      if priceDifference != 0.0 {
        rangerPriceDifference := priceDifference / ProfitCount;
      }
      ladder := BuildProfitTargets(entryPrice, currentMargin, config.leverage, rangerPriceDifference, side);
    }

    /// `run_cycle` for a bot that is Flat: enter Long when a long zone holds
    /// the price, else Short when a short zone does, else stay.
    method EnterFromFlat(price: real, exchangeOk: bool) returns (ok: bool)
      modifies this
      requires Valid() && price != 0.0 && pos == Flat
      ensures Valid()
      ensures storedLossCount == old(storedLossCount)
      ensures ok == (exchangeOk || !(AnyContains(old(zones).longZones, price) || AnyContains(old(zones).shortZones, price)))
      ensures AnyContains(old(zones).longZones, price) && exchangeOk ==>
        Entered(config, old(State()), State(), price, Long)
      ensures !AnyContains(old(zones).longZones, price) && AnyContains(old(zones).shortZones, price) && exchangeOk ==>
        Entered(config, old(State()), State(), price, Short)
      ensures AnyContains(old(zones).longZones, price) && !exchangeOk ==> State() == old(State())
      ensures !AnyContains(old(zones).longZones, price) && AnyContains(old(zones).shortZones, price) && !exchangeOk ==>
        State() == old(State()).(ladder := [])
      ensures !AnyContains(old(zones).longZones, price) && !AnyContains(old(zones).shortZones, price) ==>
        State() == old(State())
    {
      if AnyContains(zones.longZones, price) {
        if !exchangeOk {
          return false;
        }
        EnterLong(price);
      } else if AnyContains(zones.shortZones, price) {
        ladder := [];
        if !exchangeOk {
          return false;
        }
        EnterShort(price);
      }
      return true;
    }

    /// The Long entry: the ladder is rebuilt first, so the position's
    /// take-profit is the last rung.
    method EnterLong(price: real)
      modifies this
      requires Valid() && price != 0.0
      ensures Valid()
      ensures State() == old(State()).(pos := Long, zones := zones, ladder := ladder, openPos := openPos)
      ensures zones == old(zoneSource)
      ensures ladder == ProfitLadder(price, old(currentMargin), config.leverage,
                                     LadderStep(ProfitDifference(zones, price, Long), config), Long)
      ensures openPos.pos == Long && openPos.entryPrice == price
      ensures openPos.sl == Some(StopLossPrice(price, old(currentMargin), config.leverage, config.rangerRiskPct, Long))
      ensures openPos.tp == Some(ladder[|ladder| - 1].targetPrice)
      ensures openPos.margin == Some(old(currentMargin))
      ensures openPos.positionSize == ContractAmount(price, old(currentMargin), config.leverage)
      ensures openPos.quantity == Some(openPos.positionSize)
      ensures openPos.leverage == Some(config.leverage) && openPos.riskPct == Some(config.rangerRiskPct)
      ensures openPos.orderId.None?
    {
      ladder := [];
      pos := Long;
      StorePartialProfitTargets(price, pos);
      LadderLength(price, currentMargin, config.leverage,
                   LadderStep(ProfitDifference(zones, price, Long), config), Long);
      openPos := PreparedPosition(pos, price, config.leverage, config.rangerRiskPct);
    }

    /// The Short entry: the position is prepared while the ladder is still
    /// empty, so its take-profit is the 1.11 sentinel.
    method EnterShort(price: real)
      modifies this
      requires Valid() && price != 0.0 && ladder == []
      ensures Valid()
      ensures State() == old(State()).(pos := Short, zones := zones, ladder := ladder, openPos := openPos)
      ensures zones == old(zoneSource)
      ensures ladder == ProfitLadder(price, old(currentMargin), config.leverage,
                                     LadderStep(ProfitDifference(zones, price, Short), config), Short)
      ensures openPos.pos == Short && openPos.entryPrice == price
      ensures openPos.sl == Some(StopLossPrice(price, old(currentMargin), config.leverage, config.rangerRiskPct, Short))
      ensures openPos.tp == Some(PriceSentinel)
      ensures openPos.margin == Some(old(currentMargin))
      ensures openPos.positionSize == ContractAmount(price, old(currentMargin), config.leverage)
      ensures openPos.quantity == Some(openPos.positionSize)
      ensures openPos.leverage == Some(config.leverage) && openPos.riskPct == Some(config.rangerRiskPct)
      ensures openPos.orderId.None?
    {
      pos := Short;
      openPos := PreparedPosition(Short, price, config.leverage, config.rangerRiskPct);
      StorePartialProfitTargets(price, pos);
    }

    /// `run_cycle` for a bot holding a position on `side`: stop-loss check,
    /// take-profit when an opposing zone holds the price, then the ladder.
    method ManagePosition(price: real, side: Position, exchangeOk: bool) returns (ok: bool)
      modifies this
      requires Valid() && side != Flat && pos == side
      ensures Valid()
      ensures (State(), ok) == ManageSpec(config, old(State()), price, side, exchangeOk)
    {
      var inSl := InitialStop(config, openPos, side);
      var hit := SslHit(price, pos, openPos.sl.UnwrapOr(inSl));
      if hit {
        ClosePosition(price, side);
        pos := Flat;
      }
      var opposing := if side == Long then zones.shortZones else zones.longZones;
      if AnyContains(opposing, price) {
        ok := TakeProfit(price, side, exchangeOk);
        if !ok {
          return;
        }
      }
      EvaluatePartialProfit(price, side);
      ok := true;
    }

    /// `run_cycle`: one decision step at `price`. The sentinel price and a
    /// stored loss count of two or more skip the cycle; otherwise the zones
    /// are reloaded and the Flat, Long or Short branch runs. `exchangeOk`
    /// is the outcome of the one order the cycle may send.
    method RunCycle(price: real, exchangeOk: bool) returns (ok: bool)
      modifies this
      requires Valid() && (price != 0.0 || pos != Flat)
      ensures Valid()
      ensures !ok ==> !exchangeOk
      ensures price == PriceSentinel ==> ok && State() == old(State())
      ensures price != PriceSentinel && old(storedLossCount) >= LossLimit ==>
        ok && State() == old(State()).(lossCount := old(storedLossCount))
      ensures storedLossCount == old(storedLossCount)
      ensures old(pos) != Flat ==> pos == old(pos) || pos == Flat
      ensures var z := old(zoneSource); var s := old(State()).(lossCount := old(storedLossCount));
        price != PriceSentinel && old(storedLossCount) < LossLimit && old(pos) == Flat ==>
          (AnyContains(z.longZones, price) && exchangeOk ==> Entered(config, s, State(), price, Long)) &&
          (!AnyContains(z.longZones, price) && AnyContains(z.shortZones, price) && exchangeOk ==>
             Entered(config, s, State(), price, Short)) &&
          (AnyContains(z.longZones, price) && !exchangeOk ==> State() == s.(zones := z)) &&
          (!AnyContains(z.longZones, price) && AnyContains(z.shortZones, price) && !exchangeOk ==>
             State() == s.(zones := z, ladder := [])) &&
          (!AnyContains(z.longZones, price) && !AnyContains(z.shortZones, price) ==>
             State() == s.(zones := z)) &&
          (!exchangeOk ==> pos == Flat)
      ensures price != PriceSentinel && old(storedLossCount) < LossLimit && old(pos) != Flat ==>
        (State(), ok) == ManageSpec(config, old(State()).(lossCount := old(storedLossCount), zones := old(zoneSource)),
                                    price, old(pos), exchangeOk)
      ensures price != PriceSentinel && old(storedLossCount) < LossLimit && old(pos) != Flat &&
              StopHit(config, old(State()), price, old(pos)) ==>
        pos == Flat
    {
      if price == PriceSentinel {
        return true;
      }
      lossCount := storedLossCount;
      if lossCount >= LossLimit {
        return true;
      }
      zones := zoneSource;
      match pos {
        case Flat =>
          ghost var before := State();
          assert before == old(State()).(lossCount := old(storedLossCount), zones := old(zoneSource));
          ok := EnterFromFlat(price, exchangeOk);
        case Long =>
          ghost var before := State();
          ok := ManagePosition(price, Long, exchangeOk);
          ManageFacts(config, before, price, Long, exchangeOk);
        case Short =>
          ghost var before := State();
          ok := ManagePosition(price, Short, exchangeOk);
          ManageFacts(config, before, price, Short, exchangeOk);
      }
    }
  }
}
