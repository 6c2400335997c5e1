/// Money arithmetic and the take-profit ladder of `Helper` (src/helper/mod.rs).
/// `Decimal` and `f64` are both modelled by `real`; the rounding of the
/// ladder sizes to five decimal places is written out explicitly.
module Helper {
  import opened Wrappers

  /// The side of a position (src/bot/mod.rs).
  datatype Position = Long | Short | Flat

  /// One rung of the take-profit ladder.
  datatype PartialProfitTarget = PartialProfitTarget(
    targetPrice: real,
    fraction: real,
    sl: Option<real>,
    sizeBtc: real)

  // ---------------------------------------------------------------------
  // Rounding at a fixed number of decimal places (scale = 10^dp)
  // ---------------------------------------------------------------------

  /// `x` is a whole multiple of `1/scale`.
  predicate OnGrid(x: real, scale: nat)
    requires scale > 0
  {
    (x * scale as real).Floor as real == x * scale as real
  }

  /// An integer count of `1/scale` units lies on the grid.
  lemma GridPoint(n: int, scale: nat)
    requires scale > 0
    ensures OnGrid(n as real / scale as real, scale)
  {
    var s := scale as real;
    assert (n as real / s) * s == n as real;
    assert (n as real).Floor == n;
  }

  /// Dividing a bracket `a <= x*s < a + 1` by `s`.
  lemma ScaleBounds(a: real, x: real, s: real)
    requires s > 0.0 && a <= x * s < a + 1.0
    ensures a / s <= x < a / s + 1.0 / s
  {
    assert (a / s) * s == a;
    assert (a / s + 1.0 / s) * s == a + 1.0;
  }

  /// The grid point at or below a non-negative `x`.
  function FloorTo(x: real, scale: nat): (r: real)
    requires scale > 0 && x >= 0.0
    ensures OnGrid(r, scale)
    ensures 0.0 <= r <= x < r + 1.0 / scale as real
  {
    var s := scale as real;
    var f := (x * s).Floor;
    ScaleBounds(f as real, x, s);
    GridPoint(f, scale);
    f as real / s
  }

  /// Truncation toward zero at `1/scale` (`RoundingStrategy::ToZero`,
  /// and `f64::trunc` after scaling).
  function TruncTo(x: real, scale: nat): (r: real)
    requires scale > 0
    ensures OnGrid(r, scale)
    ensures 0.0 <= x ==> 0.0 <= r <= x < r + 1.0 / scale as real
    ensures x <= 0.0 ==> r - 1.0 / scale as real < x <= r <= 0.0
  {
    if x >= 0.0 then FloorTo(x, scale)
    else
      var m := FloorTo(-x, scale);
      NegatedOnGrid(m, scale);
      -m
  }

  /// The grid is symmetric about zero.
  lemma NegatedOnGrid(m: real, scale: nat)
    requires scale > 0 && OnGrid(m, scale)
    ensures OnGrid(-m, scale)
  {
    var k := (m * scale as real).Floor;
    assert (-m) * scale as real == -(k as real);
    assert (-(k as real)).Floor == -k;
  }

  /// Rounding to nearest at `1/scale`, ties to the even neighbour
  /// (`Decimal::round_dp`, whose strategy is banker's rounding).
  function RoundHalfEven(x: real, scale: nat): (r: real)
    requires scale > 0
    ensures OnGrid(r, scale)
    ensures -1.0 / (2.0 * scale as real) <= r - x <= 1.0 / (2.0 * scale as real)
    ensures 0.0 <= x ==> 0.0 <= r
  {
    var s := scale as real;
    var f := (x * s).Floor;
    var frac := x * s - f as real;
    var n := if frac < 0.5 then f
             else if frac > 0.5 then f + 1
             else if f % 2 == 0 then f else f + 1;
    GridPoint(n, scale);
    assert n as real - 0.5 <= x * s <= n as real + 0.5;
    assert n as real / s - x == (n as real - x * s) / s;
    HalfStep(n as real - x * s, s);
    n as real / s
  }

  /// An offset of at most half a unit, scaled down by `s`, stays within
  /// half a grid step.
  lemma HalfStep(d: real, s: real)
    requires s > 0.0 && -0.5 <= d <= 0.5
    ensures -1.0 / (2.0 * s) <= d / s <= 1.0 / (2.0 * s)
  {
    assert (d / s) * s == d;
    assert (1.0 / (2.0 * s)) * s == 0.5;
  }

  // ---------------------------------------------------------------------
  // Position arithmetic
  // ---------------------------------------------------------------------

  /// Profit of a closed trade, never negative: a price move against the
  /// position, a Flat side, a negative price or a negative size all give 0.
  function ComputePnl(pos: Position, entryPrice: real, positionSize: real, exitPrice: real): (r: real)
    ensures r >= 0.0
    ensures entryPrice < 0.0 || exitPrice < 0.0 || pos == Flat || positionSize < 0.0 ==> r == 0.0
    ensures 0.0 < entryPrice <= exitPrice && 0.0 <= positionSize && pos == Long
            ==> r == (exitPrice - entryPrice) * positionSize
    ensures 0.0 < exitPrice <= entryPrice && 0.0 <= positionSize && pos == Short
            ==> r == (entryPrice - exitPrice) * positionSize
    ensures pos == Long && exitPrice < entryPrice ==> r == 0.0
    ensures pos == Short && entryPrice < exitPrice ==> r == 0.0
  {
    if entryPrice < 0.0 || exitPrice < 0.0 then 0.0
    else
      var diff :=
        if pos == Long && exitPrice != 0.0 && entryPrice != 0.0 then exitPrice - entryPrice
        else if pos == Short && exitPrice != 0.0 && entryPrice != 0.0 then entryPrice - exitPrice
        else 0.0;
      if diff >= 0.0 && positionSize >= 0.0 then diff * positionSize else 0.0
  }

  /// Notional value of a position: margin times leverage.
  function PositionSize(margin: real, leverage: real): (r: real)
    ensures margin >= 0.0 && leverage >= 0.0 ==> r >= 0.0
    ensures margin > 0.0 && leverage >= 1.0 ==> r >= margin
  {
    margin * leverage
  }

  /// Return on margin in percent of a closed trade. A zero margin is a
  /// division by zero for every input, because the pnl is never negative.
  function CalcRoi(margin: real, entryPrice: real, pos: Position, positionSize: real, exitPrice: real): (r: real)
    requires margin != 0.0
    ensures r * margin == ComputePnl(pos, entryPrice, positionSize, exitPrice) * 100.0
    ensures margin > 0.0 ==> r >= 0.0
    ensures r == 0.0 <==> ComputePnl(pos, entryPrice, positionSize, exitPrice) == 0.0
  {
    var pnl := ComputePnl(pos, entryPrice, positionSize, exitPrice);
    var roi := if pnl >= 0.0 && margin >= 0.0 then (pnl / margin) * 100.0 else 0.0;
    if pnl != 0.0 && margin != 0.0 then (pnl / margin) * 100.0 else roi
  }

  /// Quantity of the asset bought with `margin` at `leverage`.
  function ContractAmount(entryPrice: real, margin: real, leverage: real): (r: real)
    requires entryPrice != 0.0
    ensures r * entryPrice == PositionSize(margin, leverage)
    ensures entryPrice > 0.0 && margin >= 0.0 && leverage >= 0.0 ==> r >= 0.0
  {
    PositionSize(margin, leverage) / entryPrice
  }

  /// Signed percentage move of a trade relative to its entry; 0 when a
  /// price is zero or the side is Flat.
  function PnlPercent(entry: real, exit: real, pos: Position): (r: real)
    ensures entry == 0.0 || exit == 0.0 || pos == Flat ==> r == 0.0
    ensures entry != 0.0 && exit != 0.0 && pos == Long ==> r * entry == (exit - entry) * 100.0
    ensures entry != 0.0 && exit != 0.0 && pos == Short ==> r * entry == (entry - exit) * 100.0
  {
    if entry == 0.0 || exit == 0.0 then 0.0
    else
      var diff := match pos
        case Long => exit - entry
        case Short => entry - exit
        case Flat => 0.0;
      (diff / entry) * 100.0
  }

  /// `(val * 10).trunc() / 10`: `val` cut toward zero to one decimal.
  function TruncateTo1Dp(val: real): (r: real)
    ensures OnGrid(r, 10)
    ensures 0.0 <= val ==> 0.0 <= r <= val < r + 0.1
    ensures val <= 0.0 ==> r - 0.1 < val <= r <= 0.0
  {
    TruncTo(val, 10)
  }

  /// Sign of a product whose right factor is not negative.
  lemma ProductSign(a: real, b: real)
    requires b >= 0.0
    ensures a >= 0.0 ==> a * b >= 0.0
    ensures a <= 0.0 ==> a * b <= 0.0
  {
  }

  /// A common non-zero factor cancels in a quotient.
  lemma CancelFactor(m: real, a: real, b: real)
    requires m != 0.0 && b != 0.0
    ensures (m * a) / (m * b) == a / b
  {
    var q := a / b;
    assert q * b == a;
    assert q * (m * b) == m * a;
  }

  /// The share `(m·a)/(m·b)` of `e` is `e·a/b`, and scaling it back by
  /// `m·b` gives `m·a·e`.
  lemma ScaledShare(m: real, a: real, b: real, e: real)
    requires m != 0.0 && b != 0.0
    ensures ((m * a) / (m * b)) * e == e * a / b
    ensures (e * a / b) * (m * b) == m * a * e
  {
    CancelFactor(m, a, b);
    var q := a / b;
    assert q * b == a;
    assert (e * q) * b == e * a;
    assert e * a / b == e * q;
    assert (e * q) * (m * b) == m * (q * b) * e;
  }

  /// Stop-loss price at which a loss of `margin * riskPct` is realised:
  /// the entry moved against the position by `riskPct / leverage` of itself.
  function StopLossPrice(entryPrice: real, margin: real, leverage: real, riskPct: real, pos: Position): (r: real)
    requires margin != 0.0 && leverage != 0.0
    ensures pos == Flat ==> r == 0.0
    ensures pos == Long ==> r == entryPrice - entryPrice * riskPct / leverage
    ensures pos == Short ==> r == entryPrice + entryPrice * riskPct / leverage
    ensures pos != Flat ==>
              (entryPrice - r) * PositionSize(margin, leverage) ==
              (if pos == Long then 1.0 else -1.0) * margin * riskPct * entryPrice
  {
    var desiredLoss := margin * riskPct;
    var positionSize := PositionSize(margin, leverage);
    var deltaPrice := (desiredLoss / positionSize) * entryPrice;
    assert positionSize == margin * leverage;
    ScaledShare(margin, riskPct, leverage, entryPrice);
    match pos
    case Long => entryPrice - deltaPrice
    case Short => entryPrice + deltaPrice
    case Flat => 0.0
  }

  /// Whether the stop-loss `sl` has been reached by `currentPrice`.
  predicate SslHit(currentPrice: real, side: Position, sl: real)
    ensures SslHit(currentPrice, side, sl) ==> side != Flat
  {
    match side
    case Long => currentPrice <= sl
    case Short => currentPrice >= sl
    case Flat => false
  }

  /// Once a price hits the stop, every price further past it does too: lower
  /// for a Long, higher for a Short.
  lemma SslHitBeyond(p: real, q: real, side: Position, sl: real)
    requires SslHit(p, side, sl)
    ensures side == Long && q <= p ==> SslHit(q, side, sl)
    ensures side == Short && q >= p ==> SslHit(q, side, sl)
    ensures side == Long ==> (SslHit(q, side, sl) <==> q <= sl)
    ensures side == Short ==> (SslHit(q, side, sl) <==> q >= sl)
  {
  }

  /// A position stops out exactly at its own stop-loss price, and a position
  /// with positive entry, margin, leverage and risk is not stopped out at
  /// its entry price.
  lemma StopLossConsistent(entryPrice: real, margin: real, leverage: real, riskPct: real, pos: Position)
    requires margin != 0.0 && leverage > 0.0
    ensures pos != Flat ==> SslHit(StopLossPrice(entryPrice, margin, leverage, riskPct, pos), pos,
                                   StopLossPrice(entryPrice, margin, leverage, riskPct, pos))
    ensures entryPrice > 0.0 && riskPct > 0.0 && pos != Flat
            ==> !SslHit(entryPrice, pos, StopLossPrice(entryPrice, margin, leverage, riskPct, pos))
  {
    if entryPrice > 0.0 && riskPct > 0.0 {
      assert entryPrice * riskPct / leverage > 0.0;
    }
  }

  /// The worked example: 100000 entry, 50 margin, 20x leverage, 5% risk.
  lemma StopLossExample()
    ensures StopLossPrice(100000.0, 50.0, 20.0, 0.05, Long) == 99750.0
    ensures StopLossPrice(100000.0, 50.0, 20.0, 0.05, Short) == 100250.0
  {
  }

  /// Unclamped position-size multiplier from the funding rate.
  function FundingRaw(fundingRate: real, pos: Position): real
  {
    match pos
    case Long => 1.0 - fundingRate * 800.0
    case Short => 1.0 + fundingRate * 800.0
    case Flat => 1.0
  }

  /// Funding multiplier clamped into [0.5, 1.5].
  function FundingMultiplier(fundingRate: real, pos: Position): (r: real)
    ensures 0.5 <= r <= 1.5
    ensures 0.5 <= FundingRaw(fundingRate, pos) <= 1.5 ==> r == FundingRaw(fundingRate, pos)
    ensures FundingRaw(fundingRate, pos) < 0.5 ==> r == 0.5
    ensures FundingRaw(fundingRate, pos) > 1.5 ==> r == 1.5
    ensures pos == Flat ==> r == 1.0
  {
    var m := FundingRaw(fundingRate, pos);
    if m < 0.5 then 0.5 else if m > 1.5 then 1.5 else m
  }

  // ---------------------------------------------------------------------
  // Take-profit ladder
  // ---------------------------------------------------------------------

  /// Number of rungs and decimal places of the asset amount.
  const TpCounts: nat := 4
  const SizeScale: nat := 100000

  /// Share of the position closed at each rung.
  function Fractions(): (f: seq<real>)
    ensures |f| == TpCounts
    ensures f[0] + f[1] + f[2] + f[3] == 1.0
  {
    [0.20, 0.30, 0.30, 0.20]
  }

  /// The `i`-th take-profit price: `i + 1` steps away from the entry, in
  /// the direction of profit.
  function TargetAt(entryPrice: real, step: real, pos: Position, i: nat): real
  {
    match pos
    case Long => entryPrice + (i + 1) as real * step
    case Short => entryPrice - (i + 1) as real * step
    case Flat => entryPrice
  }

  /// Take-profit prices: `tpCounts` prices stepping away from the entry for
  /// a Long or Short, none for Flat.
  method TpPrices(step: real, entryPrice: real, tpCounts: nat, pos: Position) returns (tp: seq<real>)
    ensures pos == Flat ==> tp == []
    ensures pos != Flat ==> |tp| == tpCounts
    ensures forall i :: 0 <= i < |tp| ==> tp[i] == TargetAt(entryPrice, step, pos, i)
  {
    var count := 0;
    var price := entryPrice;
    tp := [];
    while count < tpCounts
      invariant 0 <= count <= tpCounts
      invariant pos == Flat ==> tp == [] && price == entryPrice
      invariant pos != Flat ==> |tp| == count
      invariant pos == Long ==> price == entryPrice + count as real * step
      invariant pos == Short ==> price == entryPrice - count as real * step
      invariant forall i :: 0 <= i < |tp| ==> tp[i] == TargetAt(entryPrice, step, pos, i)
    {
      if pos == Long {
        price := price + step;
        tp := tp + [price];
      }
      if pos == Short {
        price := price - step;
        tp := tp + [price];
      }
      count := count + 1;
    }
  }

  /// Total asset amount of a position, rounded half-even to 5 decimals.
  function TotalSize(entryPrice: real, margin: real, leverage: real): (r: real)
    requires entryPrice != 0.0
    ensures OnGrid(r, SizeScale)
    ensures entryPrice > 0.0 && margin >= 0.0 && leverage >= 0.0 ==> r >= 0.0
  {
    RoundHalfEven(ContractAmount(entryPrice, margin, leverage), SizeScale)
  }

  /// Size of rung `i < 3`: its fraction of the total, truncated to 5 decimals.
  function RawSize(total: real, i: nat): real
    requires i < TpCounts
  {
    TruncTo(total * Fractions()[i], SizeScale)
  }

  /// Sum of the truncated sizes of the first `k` rungs.
  function RawPrefix(total: real, k: nat): real
    requires k <= TpCounts
  {
    if k == 0 then 0.0 else RawPrefix(total, k - 1) + RawSize(total, k - 1)
  }

  /// Size of rung `i` of an `n`-rung ladder: the last one absorbs what the
  /// truncation of the others left over.
  function RungSize(total: real, i: nat, n: nat): real
    requires i < n <= TpCounts
  {
    if i == n - 1 then total - RawPrefix(total, i) else RawSize(total, i)
  }

  /// Stop-loss a position must move to once rung `i` is taken.
  function RungSl(entryPrice: real, step: real, pos: Position, i: nat, n: nat): Option<real>
  {
    if i + 1 == n then None
    else if i == 0 then Some(entryPrice)
    else Some(TargetAt(entryPrice, step, pos, i - 1))
  }

  function Rung(entryPrice: real, step: real, pos: Position, total: real, i: nat, n: nat): PartialProfitTarget
    requires i < n <= TpCounts
  {
    PartialProfitTarget(TargetAt(entryPrice, step, pos, i), Fractions()[i],
                        RungSl(entryPrice, step, pos, i, n), RungSize(total, i, n))
  }

  /// The ladder `build_profit_targets` returns, rung by rung.
  function ProfitLadder(entryPrice: real, margin: real, leverage: real, step: real, pos: Position): (l: seq<PartialProfitTarget>)
    requires entryPrice != 0.0
    ensures l == [] <==> pos == Flat
    ensures pos != Flat ==> |l| == TpCounts
  {
    if pos == Flat then []
    else
      var total := TotalSize(entryPrice, margin, leverage);
      seq(TpCounts, i requires 0 <= i < TpCounts => Rung(entryPrice, step, pos, total, i, TpCounts))
  }

  /// Builds the 4-rung take-profit ladder of a position entered at
  /// `entryPrice` with `margin` at `leverage`, rungs `step` apart.
  method BuildProfitTargets(entryPrice: real, margin: real, leverage: real, step: real, pos: Position)
    returns (ladder: seq<PartialProfitTarget>)
    requires entryPrice != 0.0
    ensures ladder == ProfitLadder(entryPrice, margin, leverage, step, pos)
  {
    var tp := TpPrices(step, entryPrice, TpCounts, pos);
    var fractions := Fractions();
    var total := RoundHalfEven(PositionSize(margin, leverage) / entryPrice, SizeScale);
    assert total == TotalSize(entryPrice, margin, leverage);
    var remaining := total;
    ladder := [];
    var n := |tp|;
    for i := 0 to n
      invariant |ladder| == i
      invariant i < n ==> remaining == total - RawPrefix(total, i)
      invariant forall k :: 0 <= k < i ==> ladder[k] == Rung(entryPrice, step, pos, total, k, n)
    {
      var isLast := i == n - 1;
      var size;
      if isLast {
        size := remaining;
      } else {
        var raw := RawSize(total, i);
        remaining := remaining - raw;
        size := raw;
      }
      assert size == RungSize(total, i, n);
      var nextSl;
      if isLast {
        nextSl := None;
      } else if i == 0 {
        nextSl := Some(entryPrice);
      } else {
        nextSl := Some(tp[i - 1]);
      }
      assert nextSl == RungSl(entryPrice, step, pos, i, n);
      var rung := PartialProfitTarget(tp[i], fractions[i], nextSl, size);
      assert rung == Rung(entryPrice, step, pos, total, i, n);
      ladder := ladder + [rung];
    }
    if pos == Flat {
      assert ladder == [];
    } else {
      assert n == TpCounts;
      var spec := ProfitLadder(entryPrice, margin, leverage, step, pos);
      assert |spec| == |ladder|;
      forall k | 0 <= k < n
        ensures ladder[k] == spec[k]
      {
      }
    }
  }

  /// Sum of the asset amounts of a ladder.
  function SumSizes(l: seq<PartialProfitTarget>): real
  {
    if |l| == 0 then 0.0 else l[0].sizeBtc + SumSizes(l[1..])
  }

  /// A Long or Short ladder has four rungs, a Flat one none.
  lemma LadderLength(entryPrice: real, margin: real, leverage: real, step: real, pos: Position)
    requires entryPrice != 0.0
    ensures |ProfitLadder(entryPrice, margin, leverage, step, pos)| == if pos == Flat then 0 else TpCounts
  {
  }

  /// Shape of the ladder: four rungs at entry ± (i+1)·step with fractions
  /// 20/30/30/20 for a Long or Short, no rung for Flat.
  lemma LadderShape(entryPrice: real, margin: real, leverage: real, step: real, pos: Position)
    requires entryPrice != 0.0
    ensures var l := ProfitLadder(entryPrice, margin, leverage, step, pos);
      (pos == Flat <==> |l| == 0) &&
      (pos != Flat ==> |l| == 4) &&
      (forall i :: 0 <= i < |l| ==> l[i].fraction == Fractions()[i]) &&
      (forall i :: 0 <= i < |l| ==>
        l[i].targetPrice == (if pos == Long then entryPrice + (i + 1) as real * step
                             else entryPrice - (i + 1) as real * step))
  {
    var l := ProfitLadder(entryPrice, margin, leverage, step, pos);
    if pos != Flat {
      var total := TotalSize(entryPrice, margin, leverage);
      forall i | 0 <= i < |l|
        ensures l[i] == Rung(entryPrice, step, pos, total, i, TpCounts)
      {
      }
    }
  }

  /// Stop-loss ratchet: after rung 0 the stop moves to the entry, after
  /// rung i (0 < i < 3) to the previous target, and the last rung has none.
  lemma LadderSlRatchet(entryPrice: real, margin: real, leverage: real, step: real, pos: Position)
    requires entryPrice != 0.0 && pos != Flat
    ensures var l := ProfitLadder(entryPrice, margin, leverage, step, pos);
      l[0].sl == Some(entryPrice) &&
      l[1].sl == Some(l[0].targetPrice) &&
      l[2].sl == Some(l[1].targetPrice) &&
      l[3].sl == None
  {
  }

  /// The first three truncated shares, and what they leave for the last
  /// rung: nothing negative when the total is not negative.
  lemma RawShares(total: real)
    ensures RawPrefix(total, 3) == RawSize(total, 0) + RawSize(total, 1) + RawSize(total, 2)
    ensures total >= 0.0 ==> RawSize(total, 0) >= 0.0 && RawSize(total, 1) >= 0.0 && RawSize(total, 2) >= 0.0
    ensures total >= 0.0 ==> total - RawPrefix(total, 3) >= 0.0
  {
    assert RawPrefix(total, 1) == RawSize(total, 0);
    assert RawPrefix(total, 2) == RawSize(total, 0) + RawSize(total, 1);
    if total >= 0.0 {
      assert RawSize(total, 0) <= total * 0.20;
      assert RawSize(total, 1) <= total * 0.30;
      assert RawSize(total, 2) <= total * 0.30;
    }
  }

  /// The sum of a four-rung ladder, written out.
  lemma SumOfFour(l: seq<PartialProfitTarget>)
    requires |l| == 4
    ensures SumSizes(l) == l[0].sizeBtc + l[1].sizeBtc + l[2].sizeBtc + l[3].sizeBtc
  {
    assert SumSizes(l[3..]) == l[3].sizeBtc by {
      assert l[3..][1..] == [];
    }
    assert SumSizes(l[2..]) == l[2].sizeBtc + l[3].sizeBtc by {
      assert l[2..][1..] == l[3..];
    }
    assert SumSizes(l[1..]) == l[1].sizeBtc + l[2].sizeBtc + l[3].sizeBtc by {
      assert l[1..][1..] == l[2..];
    }
  }

  /// Rung `i` of a Long or Short ladder.
  lemma LadderRung(entryPrice: real, margin: real, leverage: real, step: real, pos: Position, i: nat)
    requires entryPrice != 0.0 && pos != Flat && i < TpCounts
    ensures |ProfitLadder(entryPrice, margin, leverage, step, pos)| == TpCounts
    ensures ProfitLadder(entryPrice, margin, leverage, step, pos)[i].sizeBtc
            == RungSize(TotalSize(entryPrice, margin, leverage), i, TpCounts)
  {
  }

  /// The rung sizes add up to the rounded total.
  lemma LadderSum(entryPrice: real, margin: real, leverage: real, step: real, pos: Position)
    requires entryPrice != 0.0 && pos != Flat
    ensures SumSizes(ProfitLadder(entryPrice, margin, leverage, step, pos)) == TotalSize(entryPrice, margin, leverage)
  {
    var l := ProfitLadder(entryPrice, margin, leverage, step, pos);
    var total := TotalSize(entryPrice, margin, leverage);
    LadderRung(entryPrice, margin, leverage, step, pos, 0);
    LadderRung(entryPrice, margin, leverage, step, pos, 1);
    LadderRung(entryPrice, margin, leverage, step, pos, 2);
    LadderRung(entryPrice, margin, leverage, step, pos, 3);
    SumOfFour(l);
    RawShares(total);
  }

  /// The first three rung sizes are their shares of the total, truncated
  /// to five decimals.
  lemma LadderTruncated(entryPrice: real, margin: real, leverage: real, step: real, pos: Position, i: nat)
    requires entryPrice != 0.0 && pos != Flat && i < 3
    ensures var total := TotalSize(entryPrice, margin, leverage);
      ProfitLadder(entryPrice, margin, leverage, step, pos)[i].sizeBtc == TruncTo(total * Fractions()[i], SizeScale)
  {
    LadderRung(entryPrice, margin, leverage, step, pos, i);
  }

  /// No rung size is negative when the total is not.
  lemma LadderNonNegative(entryPrice: real, margin: real, leverage: real, step: real, pos: Position, i: nat)
    requires entryPrice != 0.0 && pos != Flat && i < TpCounts
    requires TotalSize(entryPrice, margin, leverage) >= 0.0
    ensures ProfitLadder(entryPrice, margin, leverage, step, pos)[i].sizeBtc >= 0.0
  {
    LadderRung(entryPrice, margin, leverage, step, pos, i);
    RawShares(TotalSize(entryPrice, margin, leverage));
  }

  // ---------------------------------------------------------------------
  // Ladder consumption, shared by both state machines
  // ---------------------------------------------------------------------

  /// Whether `price` has reached the rung `t` for a position on `side`:
  /// at or above the target for a Long, at or below it for a Short.
  predicate Reached(price: real, side: Position, t: PartialProfitTarget)
  {
    match side
    case Long => price >= t.targetPrice
    case Short => price <= t.targetPrice
    case Flat => false
  }

  /// Index of the first rung of `l` that `price` has reached.
  function FirstReached(l: seq<PartialProfitTarget>, price: real, side: Position): (r: Option<nat>)
    ensures r.Some? ==> r.value < |l| && Reached(price, side, l[r.value])
    ensures r.Some? ==> forall j :: 0 <= j < r.value ==> !Reached(price, side, l[j])
    ensures r.None? <==> forall j :: 0 <= j < |l| ==> !Reached(price, side, l[j])
    decreases |l|
  {
    if |l| == 0 then None
    else if Reached(price, side, l[0]) then Some(0)
    else
      match FirstReached(l[1..], price, side)
      case None => None
      case Some(k) => Some(k + 1)
  }

  /// `Vec::remove(i)`: drops element `i` and keeps the others in order.
  function RemoveAt<T>(l: seq<T>, i: nat): (r: seq<T>)
    requires i < |l|
    ensures |r| == |l| - 1
    ensures forall j :: 0 <= j < i ==> r[j] == l[j]
    ensures forall j :: i <= j < |r| ==> r[j] == l[j + 1]
    ensures multiset(r) + multiset{l[i]} == multiset(l)
  {
    assert l == l[..i] + [l[i]] + l[i + 1..];
    l[..i] + l[i + 1..]
  }
}
