/// The capitulation strategy of src/bot/capitulation_phase/mod.rs: a
/// staged ladder of Short trades over a fixed table of fifteen phases, with
/// a cooldown after a stop-loss, partial take-profits and compounding of
/// the capital.
module Capitulation {
  import opened Wrappers
  import opened Helper
  import opened Bot

  datatype CapitulationPhase =
    | Trade1 | Trade2 | Trade3 | Trade4 | Trade5
    | Trade6 | Trade7 | Trade8 | Trade9 | Trade10
    | Trade11 | Trade12 | Trade13 | Trade14 | Trade15
    | Complete

  /// Position of a phase in the table; `Complete` comes last.
  function PhaseIndex(p: CapitulationPhase): (n: nat)
    ensures 1 <= n <= 16
    ensures n == 16 <==> p == Complete
  {
    match p
    case Trade1 => 1 case Trade2 => 2 case Trade3 => 3 case Trade4 => 4
    case Trade5 => 5 case Trade6 => 6 case Trade7 => 7 case Trade8 => 8
    case Trade9 => 9 case Trade10 => 10 case Trade11 => 11 case Trade12 => 12
    case Trade13 => 13 case Trade14 => 14 case Trade15 => 15 case Complete => 16
  }

  /// Leverage of every capitulation trade.
  const Leverage: real := 90.0
  /// Entry happens within this distance below a phase's entry price.
  const EntryBuffer: real := 77.0
  /// Distance between the rungs of a capitulation ladder.
  const RungDistance: real := 250.0
  /// Risk recorded on every capitulation position.
  const RiskPct: real := 0.10
  /// Cooldown after a stop-loss: 240 minutes, in seconds.
  const CooldownSecs: int := 240 * 60
  /// Starting capital.
  const StartingCapital: real := 200.0

  /// Entry, stop-loss and take-profit price of a phase.
  datatype TradeParams = TradeParams(entry: real, stop: real, tp: real)

  /// `get_trade_params`: the fixed table of the fifteen trades.
  function GetTradeParams(phase: CapitulationPhase): (r: Option<TradeParams>)
    ensures r.None? <==> phase == Complete
    ensures r.Some? ==> r.value.tp < r.value.entry < r.value.stop
    ensures r.Some? ==> r.value.entry - EntryBuffer > 0.0
  {
    match phase
    case Trade1 => Some(TradeParams(92435.0, 92630.0, 91535.0))
    case Trade2 => Some(TradeParams(91435.0, 91630.0, 90535.0))
    case Trade3 => Some(TradeParams(90435.0, 90630.0, 89535.0))
    case Trade4 => Some(TradeParams(89435.0, 89630.0, 88535.0))
    case Trade5 => Some(TradeParams(88435.0, 88630.0, 87535.0))
    case Trade6 => Some(TradeParams(87635.0, 87830.0, 86535.0))
    case Trade7 => Some(TradeParams(86435.0, 86630.0, 85535.0))
    case Trade8 => Some(TradeParams(85435.0, 85630.0, 84535.0))
    case Trade9 => Some(TradeParams(84535.0, 84630.0, 83535.0))
    case Trade10 => Some(TradeParams(83435.0, 83630.0, 82535.0))
    case Trade11 => Some(TradeParams(82435.0, 82630.0, 81535.0))
    case Trade12 => Some(TradeParams(81535.0, 81730.0, 80535.0))
    case Trade13 => Some(TradeParams(80435.0, 80630.0, 79535.0))
    case Trade14 => Some(TradeParams(79435.0, 79630.0, 78535.0))
    case Trade15 => Some(TradeParams(78435.0, 78635.0, 77535.0))
    case Complete => None
  }

  /// The phase after a take-profit: Trade1..Trade10 move one phase on,
  /// every later phase goes to `Complete`.
  function NextPhase(phase: CapitulationPhase): (r: CapitulationPhase)
    ensures PhaseIndex(phase) <= 10 ==> PhaseIndex(r) == PhaseIndex(phase) + 1
    ensures PhaseIndex(phase) >= 11 ==> r == Complete
  {
    match phase
    case Trade1 => Trade2
    case Trade2 => Trade3
    case Trade3 => Trade4
    case Trade4 => Trade5
    case Trade5 => Trade6
    case Trade6 => Trade7
    case Trade7 => Trade8
    case Trade8 => Trade9
    case Trade9 => Trade10
    case Trade10 => Trade11
    case _ => Complete
  }

  /// Outcome of the one exchange call a cycle may make: the order id of an
  /// accepted order, or a failure that aborts the cycle.
  datatype OrderReply = Accepted(orderId: string) | Failed

  /// Every field of the strategy state, plus the closed-position list it
  /// appends to in the store.
  datatype CapState = CapState(
    phase: CapitulationPhase,
    capital: real,
    active: Option<OpenPosition>,
    targets: seq<PartialProfitTarget>,
    cooldown: Option<int>,
    closed: seq<ClosedPosition>)

  /// An active position can always report its quantity.
  predicate WellFormed(s: CapState)
  {
    s.active.Some? ==> s.active.value.quantity.Some?
  }

  /// The cooldown check: an elapsed cooldown is cleared.
  function AfterCooldown(s: CapState, now: int): CapState
  {
    if s.cooldown.Some? && now >= s.cooldown.value then s.(cooldown := None) else s
  }

  /// The entry window of a phase: at most its entry, and less than
  /// `EntryBuffer` below it.
  predicate InEntryWindow(price: real, p: TradeParams)
  {
    price <= p.entry && price > p.entry - EntryBuffer
  }

  /// The Short opened at `price` with the whole capital.
  function EntryPosition(price: real, capital: real, p: TradeParams, orderId: string): OpenPosition
    requires price != 0.0
  {
    var quantity := ContractAmount(price, capital, Leverage);
    OpenPosition(Short, price, quantity, Some(p.tp), Some(p.stop), Some(capital), Some(quantity),
                 Some(Leverage), Some(RiskPct), Some(orderId))
  }

  /// The record of a (partial) close of `pos` at `exitPrice`.
  function Closed(pos: OpenPosition, exitPrice: real, pnl: real, quantity: Option<real>): ClosedPosition
  {
    ClosedPosition(Some(Short), Some(Short), pos.entryPrice, exitPrice, pnl, quantity,
                   pos.sl, pos.leverage, pos.margin, pos.orderId)
  }

  /// Profit of closing `quantity` of a Short entered at `entry` at `exit`;
  /// negative on a loss.
  function ShortPnl(entry: real, exit: real, quantity: real): real
  {
    (entry - exit) * quantity
  }

  /// The position after a rung of `size` was taken: quantity and size cut
  /// down when the quantity is known, and the stop moved when the rung says so.
  function AfterPartial(pos: OpenPosition, target: PartialProfitTarget): (r: OpenPosition)
    ensures pos.quantity.Some? ==>
      r.quantity == Some(pos.quantity.value - target.sizeBtc) && r.positionSize == pos.quantity.value - target.sizeBtc
    ensures pos.quantity.None? ==> r.quantity == pos.quantity && r.positionSize == pos.positionSize
    ensures r.sl == (if target.sl.Some? then target.sl else pos.sl)
    ensures r.pos == pos.pos && r.entryPrice == pos.entryPrice && r.tp == pos.tp && r.margin == pos.margin
  {
    var cut := if pos.quantity.Some?
               then pos.(quantity := Some(pos.quantity.value - target.sizeBtc),
                         positionSize := pos.quantity.value - target.sizeBtc)
               else pos;
    if target.sl.Some? then cut.(sl := target.sl) else cut
  }

  /// Flat branch of a cycle: open a Short inside the entry window.
  function EntryStep(s: CapState, price: real, p: TradeParams, reply: OrderReply): (CapState, bool)
    requires p.entry - EntryBuffer > 0.0
  {
    if !InEntryWindow(price, p) then (s, true)
    else if reply.Failed? then (s, false)
    else
      (s.(active := Some(EntryPosition(price, s.capital, p, reply.orderId)),
          targets := ProfitLadder(price, s.capital, Leverage, RungDistance, Short)), true)
  }

  /// Full close of `pos` at `price`; on a stop-loss the cooldown starts,
  /// on a take-profit the phase moves on.
  function CloseStep(s: CapState, pos: OpenPosition, price: real, now: int, stopped: bool, reply: OrderReply): (CapState, bool)
    requires pos.quantity.Some?
  {
    if reply.Failed? then (s, false)
    else
      var pnl := ShortPnl(pos.entryPrice, price, pos.quantity.value);
      var closed := s.(capital := s.capital + pnl, active := None, targets := [],
                       closed := s.closed + [Closed(pos, price, pnl, pos.quantity)]);
      if stopped then (closed.(cooldown := Some(now + CooldownSecs)), true)
      else (closed.(phase := NextPhase(s.phase)), true)
  }

  /// Partial take of the first rung the price reached; the rung is
  /// dropped even when the order fails.
  function PartialStep(s: CapState, pos: OpenPosition, price: real, reply: OrderReply): (CapState, bool)
  {
    match FirstReached(s.targets, price, Short)
    case None => (s, true)
    case Some(idx) =>
      var target := s.targets[idx];
      var rest := RemoveAt(s.targets, idx);
      if reply.Failed? then (s.(targets := rest), false)
      else
        var pnl := ShortPnl(pos.entryPrice, target.targetPrice, target.sizeBtc);
        (s.(capital := s.capital + pnl, targets := rest,
            active := Some(AfterPartial(pos, target)),
            closed := s.closed + [Closed(pos, target.targetPrice, pnl, Some(target.sizeBtc))]), true)
  }

  /// One `run_cycle` at `price` and time `now`: the new state and whether
  /// the cycle ended without an error.
  function Step(s: CapState, price: real, now: int, reply: OrderReply): (r: (CapState, bool))
    requires WellFormed(s)
    ensures WellFormed(r.0)
  {
    if s.phase == Complete then (s, true)
    else if s.cooldown.Some? && now < s.cooldown.value then (s, true)
    else
      var s1 := AfterCooldown(s, now);
      var p := GetTradeParams(s1.phase).value;
      match s1.active
      case None => EntryStep(s1, price, p, reply)
      case Some(pos) =>
        if price >= pos.sl.UnwrapOr(p.stop) then CloseStep(s1, pos, price, now, true, reply)
        else if price <= p.tp then CloseStep(s1, pos, price, now, false, reply)
        else PartialStep(s1, pos, price, reply)
  }

  /// The inputs of one cycle.
  datatype Cycle = Cycle(price: real, now: int, reply: OrderReply)

  /// The state after running `cycles` in order from `s`.
  function Run(s: CapState, cycles: seq<Cycle>): (r: CapState)
    requires WellFormed(s)
    ensures WellFormed(r)
    decreases |cycles|
  {
    if cycles == [] then s
    else
      var c := cycles[0];
      Run(Step(s, c.price, c.now, c.reply).0, cycles[1..])
  }

  /// Once complete, a cycle does nothing.
  lemma CompleteIsFinal(s: CapState, price: real, now: int, reply: OrderReply)
    requires WellFormed(s) && s.phase == Complete
    ensures Step(s, price, now, reply) == (s, true)
  {
  }

  /// While the cooldown lasts, a cycle does nothing.
  lemma CooldownBlocks(s: CapState, price: real, now: int, reply: OrderReply)
    requires WellFormed(s) && s.cooldown.Some? && now < s.cooldown.value
    ensures Step(s, price, now, reply) == (s, true)
  {
  }

  /// A position is opened only from no position, inside the entry window of
  /// the current phase, on an accepted order; it is a Short at `price`
  /// carrying the whole capital and the phase's stop and target.
  lemma EntryOnlyInWindow(s: CapState, price: real, now: int, reply: OrderReply)
    requires WellFormed(s) && s.active.None?
    ensures var r := Step(s, price, now, reply).0;
      r.active.Some? <==>
        (s.phase != Complete && !(s.cooldown.Some? && now < s.cooldown.value) &&
         InEntryWindow(price, GetTradeParams(s.phase).value) && reply.Accepted?)
    ensures var r := Step(s, price, now, reply).0;
      r.active.Some? ==>
        r.active.value.pos == Short && r.active.value.entryPrice == price &&
        r.active.value.margin == Some(s.capital) &&
        r.active.value.sl == Some(GetTradeParams(s.phase).value.stop) &&
        r.active.value.tp == Some(GetTradeParams(s.phase).value.tp) &&
        |r.targets| == TpCounts
  {
    var r := Step(s, price, now, reply).0;
    if r.active.Some? {
      LadderLength(price, s.capital, Leverage, RungDistance, Short);
    }
  }

  /// A stop-loss closes everything and starts the 240-minute cooldown; the
  /// phase stays the same.
  lemma StopLossStartsCooldown(s: CapState, price: real, now: int, orderId: string)
    requires WellFormed(s) && s.phase != Complete && s.active.Some?
    requires !(s.cooldown.Some? && now < s.cooldown.value)
    requires price >= s.active.value.sl.UnwrapOr(GetTradeParams(s.phase).value.stop)
    ensures var (r, ok) := Step(s, price, now, Accepted(orderId));
      ok && r.active.None? && r.targets == [] && r.cooldown == Some(now + CooldownSecs) &&
      r.phase == s.phase && |r.closed| == |s.closed| + 1 &&
      r.capital == s.capital + ShortPnl(s.active.value.entryPrice, price, s.active.value.quantity.value)
  {
  }

  /// A stop-loss above the entry of a position of non-negative quantity
  /// never increases the capital.
  lemma StopLossLoses(s: CapState, price: real, now: int, orderId: string)
    requires WellFormed(s) && s.phase != Complete && s.active.Some?
    requires !(s.cooldown.Some? && now < s.cooldown.value)
    requires price >= s.active.value.sl.UnwrapOr(GetTradeParams(s.phase).value.stop)
    requires price >= s.active.value.entryPrice && s.active.value.quantity.value >= 0.0
    ensures Step(s, price, now, Accepted(orderId)).0.capital <= s.capital
  {
    var pos := s.active.value;
    ProductSign(pos.entryPrice - price, pos.quantity.value);
  }

  /// `r` books at most one new closed record on top of `s`, and changes the
  /// capital by exactly that record's profit.
  predicate BooksOnce(s: CapState, r: CapState)
  {
    (r.closed == s.closed && r.capital == s.capital) ||
    (|r.closed| == |s.closed| + 1 && r.closed[..|s.closed|] == s.closed &&
     r.capital == s.capital + r.closed[|s.closed|].pnl)
  }

  lemma EntryStepFacts(s: CapState, price: real, p: TradeParams, reply: OrderReply)
    requires p.entry - EntryBuffer > 0.0
    ensures var r := EntryStep(s, price, p, reply).0;
      r.phase == s.phase && r.closed == s.closed && r.capital == s.capital
  {
  }

  lemma CloseStepFacts(s: CapState, pos: OpenPosition, price: real, now: int, stopped: bool, reply: OrderReply)
    requires pos.quantity.Some?
    ensures var r := CloseStep(s, pos, price, now, stopped, reply).0;
      (r.phase == s.phase || (r.phase == NextPhase(s.phase) && r.active.None? && reply.Accepted?)) &&
      BooksOnce(s, r)
  {
    var r := CloseStep(s, pos, price, now, stopped, reply).0;
    if reply.Accepted? {
      assert r.closed[..|s.closed|] == s.closed;
    }
  }

  lemma PartialStepFacts(s: CapState, pos: OpenPosition, price: real, reply: OrderReply)
    ensures var r := PartialStep(s, pos, price, reply).0;
      r.phase == s.phase && BooksOnce(s, r)
  {
    var r := PartialStep(s, pos, price, reply).0;
    if r.closed != s.closed {
      assert r.closed[..|s.closed|] == s.closed;
    }
  }

  /// What a whole cycle can do to the phase and the books.
  lemma StepFacts(s: CapState, price: real, now: int, reply: OrderReply)
    requires WellFormed(s)
    ensures var r := Step(s, price, now, reply).0;
      (r.phase == s.phase || (r.phase == NextPhase(s.phase) && s.active.Some? && r.active.None? && reply.Accepted?)) &&
      BooksOnce(s, r)
  {
    if s.phase == Complete || (s.cooldown.Some? && now < s.cooldown.value) {
      return;
    }
    var s1 := AfterCooldown(s, now);
    var p := GetTradeParams(s1.phase).value;
    match s1.active
    case None =>
      EntryStepFacts(s1, price, p, reply);
    case Some(pos) =>
      if price >= pos.sl.UnwrapOr(p.stop) {
        CloseStepFacts(s1, pos, price, now, true, reply);
      } else if price <= p.tp {
        CloseStepFacts(s1, pos, price, now, false, reply);
      } else {
        PartialStepFacts(s1, pos, price, reply);
      }
  }

  /// The phase moves only on a take-profit, and only to the next phase.
  lemma PhaseAdvancesByOne(s: CapState, price: real, now: int, reply: OrderReply)
    requires WellFormed(s)
    ensures var r := Step(s, price, now, reply).0;
      r.phase == s.phase || r.phase == NextPhase(s.phase)
    ensures var r := Step(s, price, now, reply).0;
      r.phase != s.phase ==> s.active.Some? && r.active.None? && reply.Accepted?
  {
    StepFacts(s, price, now, reply);
  }

  /// A take-profit with an accepted order closes the whole position at
  /// `price`, adds (entry − price)·quantity to the capital and books it,
  /// clears the ladder and moves on to the next phase; a failed order
  /// leaves everything but an elapsed cooldown as it was and is reported.
  lemma TakeProfitAdvances(s: CapState, price: real, now: int, reply: OrderReply)
    requires WellFormed(s) && s.phase != Complete && s.active.Some?
    requires !(s.cooldown.Some? && now < s.cooldown.value)
    requires price < s.active.value.sl.UnwrapOr(GetTradeParams(s.phase).value.stop)
    requires price <= GetTradeParams(s.phase).value.tp
    ensures var (r, ok) := Step(s, price, now, reply);
      var pos := s.active.value;
      var pnl := ShortPnl(pos.entryPrice, price, pos.quantity.value);
      reply.Accepted? ==>
        ok && r.phase == NextPhase(s.phase) && r.phase != s.phase &&
        r.active.None? && r.targets == [] && r.cooldown.None? &&
        r.capital == s.capital + pnl &&
        r.closed == s.closed + [Closed(pos, price, pnl, pos.quantity)]
    ensures reply.Failed? ==> Step(s, price, now, reply) == (AfterCooldown(s, now), false)
  {
  }

  /// Between the stop and the take-profit, the first rung whose target the
  /// price has reached is removed from the ladder, even when its order
  /// fails; a failed order is reported and changes nothing else but an
  /// elapsed cooldown. With no rung reached nothing changes but an elapsed
  /// cooldown.
  lemma PartialFillEffect(s: CapState, price: real, now: int, reply: OrderReply)
    requires WellFormed(s) && s.phase != Complete && s.active.Some?
    requires !(s.cooldown.Some? && now < s.cooldown.value)
    requires price < s.active.value.sl.UnwrapOr(GetTradeParams(s.phase).value.stop)
    requires price > GetTradeParams(s.phase).value.tp
    ensures FirstReached(s.targets, price, Short).None? ==>
      Step(s, price, now, reply) == (AfterCooldown(s, now), true)
    ensures var idx := FirstReached(s.targets, price, Short);
      idx.Some? ==>
        price <= s.targets[idx.value].targetPrice &&
        forall j :: 0 <= j < idx.value ==> price > s.targets[j].targetPrice
    ensures var idx := FirstReached(s.targets, price, Short); var (r, ok) := Step(s, price, now, reply);
      idx.Some? ==>
        r.targets == RemoveAt(s.targets, idx.value) && r.phase == s.phase && r.cooldown.None? &&
        (reply.Failed? ==> !ok && r == AfterCooldown(s, now).(targets := r.targets))
  {
    var s1 := AfterCooldown(s, now);
    assert s1.active == s.active && s1.targets == s.targets && s1.cooldown.None?;
    assert Step(s, price, now, reply) == PartialStep(s1, s.active.value, price, reply);
  }

  /// An accepted partial fill closes the reached rung's size at its target:
  /// the capital grows by (entry − target)·size and books it, the quantity
  /// and size of the position drop by the rung's size, and the stop is
  /// replaced only when the rung carries one.
  lemma PartialFillBooks(s: CapState, price: real, now: int, orderId: string)
    requires WellFormed(s) && s.phase != Complete && s.active.Some?
    requires !(s.cooldown.Some? && now < s.cooldown.value)
    requires price < s.active.value.sl.UnwrapOr(GetTradeParams(s.phase).value.stop)
    requires price > GetTradeParams(s.phase).value.tp
    requires FirstReached(s.targets, price, Short).Some?
    ensures var t := s.targets[FirstReached(s.targets, price, Short).value];
      var pos := s.active.value;
      var pnl := (pos.entryPrice - t.targetPrice) * t.sizeBtc;
      var (r, ok) := Step(s, price, now, Accepted(orderId));
      ok && r.capital == s.capital + pnl &&
      r.closed == s.closed + [Closed(pos, t.targetPrice, pnl, Some(t.sizeBtc))] &&
      r.active.Some? &&
      r.active.value.quantity == Some(pos.quantity.value - t.sizeBtc) &&
      r.active.value.positionSize == pos.quantity.value - t.sizeBtc &&
      r.active.value.sl == (if t.sl.Some? then t.sl else pos.sl) &&
      r.active.value.entryPrice == pos.entryPrice && r.active.value.tp == pos.tp
  {
    var s1 := AfterCooldown(s, now);
    var idx := FirstReached(s.targets, price, Short).value;
    var t := s.targets[idx];
    var pos := s.active.value;
    var pnl := ShortPnl(pos.entryPrice, t.targetPrice, t.sizeBtc);
    assert s1.active == s.active && s1.targets == s.targets;
    assert Step(s, price, now, Accepted(orderId)) == PartialStep(s1, pos, price, Accepted(orderId));
    assert PartialStep(s1, pos, price, Accepted(orderId)) ==
      (s1.(capital := s.capital + pnl, targets := RemoveAt(s.targets, idx),
           active := Some(AfterPartial(pos, t)),
           closed := s.closed + [Closed(pos, t.targetPrice, pnl, Some(t.sizeBtc))]), true);
  }

  /// Phases Trade12 to Trade15 are never entered: the table moves from
  /// Trade11 straight to Complete.
  predicate Reachable(s: CapState)
  {
    PhaseIndex(s.phase) <= 11 || s.phase == Complete
  }

  lemma {:induction false} LateTradesUnreachable(s: CapState, cycles: seq<Cycle>)
    requires WellFormed(s) && Reachable(s)
    ensures Reachable(Run(s, cycles))
    decreases |cycles|
  {
    if cycles != [] {
      var c := cycles[0];
      var next := Step(s, c.price, c.now, c.reply).0;
      PhaseAdvancesByOne(s, c.price, c.now, c.reply);
      assert Reachable(next);
      LateTradesUnreachable(next, cycles[1..]);
    }
  }

  /// Sum of the profit and loss of a list of closed positions.
  function SumPnl(closed: seq<ClosedPosition>): real
  {
    if closed == [] then 0.0 else SumPnl(closed[..|closed| - 1]) + closed[|closed| - 1].pnl
  }

  /// The capital is the starting capital plus everything booked in the
  /// closed-position list.
  predicate Ledgered(s: CapState)
  {
    s.capital == StartingCapital + SumPnl(s.closed)
  }

  lemma SumPnlAppend(closed: seq<ClosedPosition>, c: ClosedPosition)
    ensures SumPnl(closed + [c]) == SumPnl(closed) + c.pnl
  {
    assert (closed + [c])[..|closed|] == closed;
  }

  /// Every cycle keeps the capital in line with the closed-position list:
  /// each change of capital is booked as exactly one closed record.
  lemma StepKeepsLedger(s: CapState, price: real, now: int, reply: OrderReply)
    requires WellFormed(s) && Ledgered(s)
    ensures Ledgered(Step(s, price, now, reply).0)
  {
    var r := Step(s, price, now, reply).0;
    StepFacts(s, price, now, reply);
    if r.closed != s.closed {
      assert r.closed == s.closed + [r.closed[|s.closed|]];
      SumPnlAppend(s.closed, r.closed[|s.closed|]);
    }
  }

  lemma {:induction false} RunKeepsLedger(s: CapState, cycles: seq<Cycle>)
    requires WellFormed(s) && Ledgered(s)
    ensures Ledgered(Run(s, cycles))
    decreases |cycles|
  {
    if cycles != [] {
      var c := cycles[0];
      StepKeepsLedger(s, c.price, c.now, c.reply);
      RunKeepsLedger(Step(s, c.price, c.now, c.reply).0, cycles[1..]);
    }
  }

  /// `CapitulationState`, updated in place by `run_cycle`.
  class CapitulationState {
    var currentPhase: CapitulationPhase
    var currentCapital: real
    var activePosition: Option<OpenPosition>
    var partialProfitTargets: seq<PartialProfitTarget>
    var cooldownUntil: Option<int>
    /// The list of closed capitulation positions in the store, oldest first.
    var closedPositions: seq<ClosedPosition>

    function State(): CapState
      reads this
    {
      CapState(currentPhase, currentCapital, activePosition, partialProfitTargets, cooldownUntil, closedPositions)
    }

    predicate Valid()
      reads this
    {
      WellFormed(State())
    }

    /// `CapitulationState::default`: phase Trade1, 200 of capital, no
    /// position, no ladder, no cooldown.
    constructor ()
      ensures Valid()
      ensures State() == CapState(Trade1, StartingCapital, None, [], None, [])
    {
      currentPhase := Trade1;
      currentCapital := StartingCapital;
      activePosition := None;
      partialProfitTargets := [];
      cooldownUntil := None;
      closedPositions := [];
    }

    /// Index of the first rung at or above `price` (a Short's targets lie
    /// below its entry, so a rung is reached when the price falls to it).
    method FindHit(price: real) returns (hit: Option<nat>)
      ensures hit == FirstReached(partialProfitTargets, price, Short)
    {
      hit := None;
      for i := 0 to |partialProfitTargets|
        invariant forall j :: 0 <= j < i ==> !Reached(price, Short, partialProfitTargets[j])
      {
        if price <= partialProfitTargets[i].targetPrice {
          hit := Some(i);
          return;
        }
      }
    }

    /// Flat branch of `run_cycle`.
    method Enter(price: real, p: TradeParams, reply: OrderReply) returns (ok: bool)
      modifies this
      requires Valid() && activePosition.None? && p.entry - EntryBuffer > 0.0
      ensures Valid()
      ensures (State(), ok) == EntryStep(old(State()), price, p, reply)
    {
      if price <= p.entry && price > p.entry - EntryBuffer {
        var quantity := ContractAmount(price, currentCapital, Leverage);
        if reply.Failed? {
          return false;
        }
        activePosition := Some(OpenPosition(Short, price, quantity, Some(p.tp), Some(p.stop),
                                            Some(currentCapital), Some(quantity), Some(Leverage),
                                            Some(RiskPct), Some(reply.orderId)));
        partialProfitTargets := BuildProfitTargets(price, currentCapital, Leverage, RungDistance, Short);
      }
      return true;
    }

    /// Stop-loss (`stopped`) or take-profit close of the active position.
    method Close(pos: OpenPosition, price: real, now: int, stopped: bool, reply: OrderReply) returns (ok: bool)
      modifies this
      requires Valid() && activePosition == Some(pos)
      ensures Valid()
      ensures (State(), ok) == CloseStep(old(State()), pos, price, now, stopped, reply)
    {
      if reply.Failed? {
        return false;
      }
      var pnl := ShortPnl(pos.entryPrice, price, pos.quantity.value);
      currentCapital := currentCapital + pnl;
      closedPositions := closedPositions + [Closed(pos, price, pnl, pos.quantity)];
      activePosition := None;
      partialProfitTargets := [];
      if stopped {
        cooldownUntil := Some(now + CooldownSecs);
      } else {
        currentPhase := NextPhase(currentPhase);
      }
      return true;
    }

    /// Partial take-profit on the first rung reached.
    method TakePartial(pos: OpenPosition, price: real, reply: OrderReply) returns (ok: bool)
      modifies this
      requires Valid() && activePosition == Some(pos)
      ensures Valid()
      ensures (State(), ok) == PartialStep(old(State()), pos, price, reply)
    {
      var hit := FindHit(price);
      if hit.None? {
        return true;
      }
      var idx := hit.value;
      var target := partialProfitTargets[idx];
      partialProfitTargets := RemoveAt(partialProfitTargets, idx);
      if reply.Failed? {
        return false;
      }
      var qtyToClose := target.sizeBtc;
      var pnl := ShortPnl(pos.entryPrice, target.targetPrice, qtyToClose);
      currentCapital := currentCapital + pnl;
      closedPositions := closedPositions + [Closed(pos, target.targetPrice, pnl, Some(qtyToClose))];
      var active := activePosition.value;
      if active.quantity.Some? {
        var newQty := active.quantity.value - qtyToClose;
        active := active.(quantity := Some(newQty), positionSize := newQty);
      }
      if target.sl.Some? {
        active := active.(sl := target.sl);
      }
      activePosition := Some(active);
      return true;
    }

    /// `run_cycle`: one step of the strategy at `price` and time `now`.
    method RunCycle(price: real, now: int, reply: OrderReply) returns (ok: bool)
      modifies this
      requires Valid()
      ensures Valid()
      ensures (State(), ok) == Step(old(State()), price, now, reply)
    {
      if currentPhase == Complete {
        return true;
      }
      ghost var s0 := State();
      if cooldownUntil.Some? {
        if now < cooldownUntil.value {
          return true;
        } else {
          cooldownUntil := None;
        }
      }
      ghost var s1 := State();
      assert s1 == AfterCooldown(s0, now);
      // The table covers every phase but `Complete`, so the fallback of
      // the source that marks the phase complete is never taken.
      var p := GetTradeParams(currentPhase).value;
      match activePosition {
        case None =>
          assert Step(s0, price, now, reply) == EntryStep(s1, price, p, reply);
          ok := Enter(price, p, reply);
        case Some(pos) =>
          var actualSl := pos.sl.UnwrapOr(p.stop);
          if price >= actualSl {
            assert Step(s0, price, now, reply) == CloseStep(s1, pos, price, now, true, reply);
            ok := Close(pos, price, now, true, reply);
          } else if price <= p.tp {
            assert Step(s0, price, now, reply) == CloseStep(s1, pos, price, now, false, reply);
            ok := Close(pos, price, now, false, reply);
          } else {
            assert Step(s0, price, now, reply) == PartialStep(s1, pos, price, reply);
            ok := TakePartial(pos, price, reply);
          }
      }
    }
  }
}
