/// The five-minute momentum tracker: a bounded history of prices, volumes
/// and timestamps, RSI, price momentum and volume ratio over that history,
/// the three per-indicator signals and their majority vote, and the alerts
/// derived from a set of indicators.
///
/// Floating-point prices are modelled as `real`; the wall clock read by
/// `add_data_point` is the parameter `now`.
module Momentum {
  import opened Wrappers

  datatype MomentumSignal = Bullish | Bearish | Neutral

  datatype MacdData = MacdData(macd: real, signal: real, histogram: real)

  datatype Indicators = Indicators(
    rsi: real,
    macd: MacdData,
    priceMomentum: real,
    volumeRatio: real,
    overallSignal: MomentumSignal)

  /// The messages `generate_alerts` can emit, one constructor per message.
  datatype Alert =
    | RsiOverbought
    | RsiOversold
    | MacdBullish
    | MacdBearish
    | MomentumUp
    | MomentumDown
    | HighVolume
    | Stable

  function Min(a: nat, b: nat): nat
  {
    if a <= b then a else b
  }

  // ---------------------------------------------------------------------
  // Bounded history
  // ---------------------------------------------------------------------

  /// What is left of `s` once the oldest entries are dropped until at most
  /// `max` remain.
  function Window<T>(s: seq<T>, max: nat): (r: seq<T>)
    ensures |r| == Min(|s|, max)
    ensures r == s[|s| - |r|..]
  {
    if |s| <= max then s else s[|s| - max..]
  }

  /// Adding the entries of `xs` one at a time, each followed by trimming.
  function AddAll<T>(s: seq<T>, xs: seq<T>, max: nat): seq<T>
    decreases |xs|
  {
    if xs == [] then s else AddAll(Window(s + [xs[0]], max), xs[1..], max)
  }

  /// Dropping a prefix that leaves at least `max` entries does not change
  /// the window.
  lemma WindowOfSuffix<T>(u: seq<T>, k: nat, max: nat)
    requires k <= |u| && max <= |u| - k
    ensures Window(u[k..], max) == Window(u, max)
  {
    assert u[k..][|u| - k - max..] == u[|u| - max..];
  }

  /// Trimming after every push keeps exactly the newest `max` entries of
  /// everything pushed so far.
  lemma {:induction false} AddAllIsWindow<T>(s: seq<T>, xs: seq<T>, max: nat)
    requires |s| <= max
    ensures AddAll(s, xs, max) == Window(s + xs, max)
    decreases |xs|
  {
    if xs != [] {
      var t := s + [xs[0]];
      var s' := Window(t, max);
      AddAllIsWindow(s', xs[1..], max);
      assert t + xs[1..] == s + xs;
      if |t| > max {
        assert s' == t[1..];
        assert s' + xs[1..] == (s + xs)[1..];
        WindowOfSuffix(s + xs, 1, max);
      }
    }
  }

  /// The newest entry always survives when the history holds anything.
  lemma NewestKept<T>(s: seq<T>, x: T, max: nat)
    requires max > 0
    ensures Window(s + [x], max) != []
    ensures Window(s + [x], max)[|Window(s + [x], max)| - 1] == x
  {
  }

  /// Ten points pushed into a tracker limited to five keep the last five.
  lemma MaxHistoryExample()
    ensures AddAll([], [0.0, 1.0, 2.0, 3.0, 4.0, 5.0, 6.0, 7.0, 8.0, 9.0], 5)
            == [5.0, 6.0, 7.0, 8.0, 9.0]
  {
    AddAllIsWindow([], [0.0, 1.0, 2.0, 3.0, 4.0, 5.0, 6.0, 7.0, 8.0, 9.0], 5);
  }

  // ---------------------------------------------------------------------
  // RSI
  // ---------------------------------------------------------------------

  /// Upward part of one price change.
  function Gain(change: real): (r: real)
    ensures r >= 0.0
    ensures r > 0.0 <==> change > 0.0
  {
    if change > 0.0 then change else 0.0
  }

  /// Downward part of one price change; a zero change counts here, as in
  /// the source's `else` branch, but adds nothing.
  function Loss(change: real): (r: real)
    ensures r >= 0.0
    ensures r > 0.0 <==> change < 0.0
    ensures Gain(change) - r == change
  {
    if change > 0.0 then 0.0 else -change
  }

  /// Sum of the gains of the changes `p[i] - p[i-1]` for `lo <= i < hi`.
  function GainSum(p: seq<real>, lo: nat, hi: nat): (r: real)
    requires 1 <= lo <= hi <= |p|
    ensures r >= 0.0
    decreases hi
  {
    if hi == lo then 0.0 else GainSum(p, lo, hi - 1) + Gain(p[hi - 1] - p[hi - 2])
  }

  /// Sum of the losses of the changes `p[i] - p[i-1]` for `lo <= i < hi`.
  function LossSum(p: seq<real>, lo: nat, hi: nat): (r: real)
    requires 1 <= lo <= hi <= |p|
    ensures r >= 0.0
    decreases hi
  {
    if hi == lo then 0.0 else LossSum(p, lo, hi - 1) + Loss(p[hi - 1] - p[hi - 2])
  }

  /// `100 - 100 / (1 + rs)` for a non-negative relative strength.
  function RsiOf(rs: real): (r: real)
    requires rs >= 0.0
    ensures 0.0 <= r < 100.0
    ensures r == 0.0 <==> rs == 0.0
  {
    var d := 1.0 + rs;
    assert 100.0 / d * d == 100.0;
    100.0 - 100.0 / d
  }

  /// RSI over the last `period` changes of `p`: absent without
  /// `period + 1` prices, 100 when nothing was lost, and otherwise within
  /// [0, 100).
  function Rsi(p: seq<real>, period: nat): (r: Option<real>)
    requires period > 0
    ensures r.None? <==> |p| < period + 1
    ensures r.Some? ==> 0.0 <= r.value <= 100.0
    ensures r.Some? ==> (r.value == 100.0 <==> LossSum(p, |p| - period, |p|) == 0.0)
  {
    if |p| < period + 1 then None
    else
      var avgGain := GainSum(p, |p| - period, |p|) / period as real;
      var avgLoss := LossSum(p, |p| - period, |p|) / period as real;
      if avgLoss == 0.0 then Some(100.0) else Some(RsiOf(avgGain / avgLoss))
  }

  /// Strictly rising prices over the window lose nothing.
  lemma {:induction false} RisingLosesNothing(p: seq<real>, lo: nat, hi: nat)
    requires 1 <= lo <= hi <= |p|
    requires forall i :: lo <= i < hi ==> p[i] > p[i - 1]
    ensures LossSum(p, lo, hi) == 0.0
    decreases hi
  {
    if hi > lo {
      RisingLosesNothing(p, lo, hi - 1);
    }
  }

  /// Prices that never rise over the window gain nothing.
  lemma {:induction false} FallingGainsNothing(p: seq<real>, lo: nat, hi: nat)
    requires 1 <= lo <= hi <= |p|
    requires forall i :: lo <= i < hi ==> p[i] <= p[i - 1]
    ensures GainSum(p, lo, hi) == 0.0
    decreases hi
  {
    if hi > lo {
      FallingGainsNothing(p, lo, hi - 1);
    }
  }

  /// One falling step makes the loss sum positive.
  lemma {:induction false} OneFallLoses(p: seq<real>, lo: nat, hi: nat, k: nat)
    requires 1 <= lo <= k < hi <= |p|
    requires p[k] < p[k - 1]
    ensures LossSum(p, lo, hi) > 0.0
    decreases hi
  {
    if k < hi - 1 {
      OneFallLoses(p, lo, hi - 1, k);
    }
  }

  /// A steadily rising market reads as fully overbought.
  lemma RisingRsiIsHundred(p: seq<real>, period: nat)
    requires period > 0 && |p| >= period + 1
    requires forall i :: 1 <= i < |p| ==> p[i] > p[i - 1]
    ensures Rsi(p, period) == Some(100.0)
  {
    RisingLosesNothing(p, |p| - period, |p|);
  }

  /// A market that never rises and falls at least once reads as RSI 0.
  lemma FallingRsiIsZero(p: seq<real>, period: nat)
    requires period > 0 && |p| >= period + 1
    requires forall i :: 1 <= i < |p| ==> p[i] <= p[i - 1]
    requires p[|p| - 1] < p[|p| - 2]
    ensures Rsi(p, period) == Some(0.0)
  {
    FallingGainsNothing(p, |p| - period, |p|);
    OneFallLoses(p, |p| - period, |p|, |p| - 1);
  }

  // ---------------------------------------------------------------------
  // Price momentum and volume ratio
  // ---------------------------------------------------------------------

  /// Percent change from the price `period` entries back to the newest one.
  function PriceMomentum(p: seq<real>, period: nat): (r: Option<real>)
    requires period > 0
    ensures |p| < period ==> r.None?
    ensures |p| >= period ==> (r.Some? <==> p[|p| - period] != 0.0)
    ensures r.Some? ==> r.value * p[|p| - period] == (p[|p| - 1] - p[|p| - period]) * 100.0
  {
    if |p| < period then None
    else
      var current := p[|p| - 1];
      var previous := p[|p| - period];
      if previous == 0.0 then None else Some(((current - previous) / previous) * 100.0)
  }

  /// Rising positive prices give positive momentum.
  lemma RisingMomentumPositive(p: seq<real>, period: nat)
    requires 1 < period <= |p|
    requires forall i :: 1 <= i < |p| ==> p[i] > p[i - 1]
    requires p[|p| - period] > 0.0
    ensures PriceMomentum(p, period).Some?
    ensures PriceMomentum(p, period).value > 0.0
  {
    var k := |p| - period;
    var j := |p| - 1;
    while j > k
      invariant k <= j <= |p| - 1
      invariant p[|p| - 1] >= p[j]
      invariant j < |p| - 1 ==> p[|p| - 1] > p[j]
    {
      j := j - 1;
    }
  }

  function Sum(s: seq<real>): real
  {
    if s == [] then 0.0 else Sum(s[..|s| - 1]) + s[|s| - 1]
  }

  /// Newest volume over the average volume: absent on an empty history,
  /// 1 when the average is zero.
  function VolumeRatio(v: seq<real>): (r: Option<real>)
    ensures r.None? <==> v == []
    ensures v != [] && Sum(v) == 0.0 ==> r == Some(1.0)
    ensures v != [] && Sum(v) != 0.0 ==> r.value * (Sum(v) / |v| as real) == v[|v| - 1]
  {
    if v == [] then None
    else
      var avg := Sum(v) / |v| as real;
      if avg == 0.0 then Some(1.0)
      else
        var ratio := v[|v| - 1] / avg;
        assert ratio * avg == v[|v| - 1];
        Some(ratio)
  }

  lemma {:induction false} ConstantSum(v: seq<real>, c: real)
    requires forall i :: 0 <= i < |v| ==> v[i] == c
    ensures Sum(v) == |v| as real * c
  {
    if v != [] {
      ConstantSum(v[..|v| - 1], c);
    }
  }

  /// A flat volume history has ratio 1, whether or not its average is zero.
  lemma SteadyVolumeRatioIsOne(v: seq<real>)
    requires v != []
    requires forall i :: 0 <= i < |v| ==> v[i] == v[0]
    ensures VolumeRatio(v) == Some(1.0)
  {
    ConstantSum(v, v[0]);
    var n := |v| as real;
    assert (n * v[0]) / n == v[0];
    assert v[|v| - 1] == v[0];
    if v[0] != 0.0 {
      assert Sum(v) / n == v[0];
      assert v[|v| - 1] / v[0] == 1.0;
    }
  }

  // ---------------------------------------------------------------------
  // Signals
  // ---------------------------------------------------------------------

  /// Overbought above 70 reads bearish, oversold below 30 bullish.
  function RsiSignal(rsi: real): (r: MomentumSignal)
    ensures r == Bearish <==> rsi > 70.0
    ensures r == Bullish <==> rsi < 30.0
    ensures r == Neutral <==> 30.0 <= rsi <= 70.0
  {
    if rsi > 70.0 then Bearish else if rsi < 30.0 then Bullish else Neutral
  }

  function MacdSignal(macd: MacdData): (r: MomentumSignal)
    ensures r == Bullish <==> macd.histogram > 0.0
    ensures r == Bearish <==> macd.histogram < 0.0
    ensures r == Neutral <==> macd.histogram == 0.0
  {
    if macd.histogram > 0.0 then Bullish
    else if macd.histogram < 0.0 then Bearish
    else Neutral
  }

  function PriceMomentumSignal(momentum: real): (r: MomentumSignal)
    ensures r == Bullish <==> momentum > 1.0
    ensures r == Bearish <==> momentum < -1.0
    ensures r == Neutral <==> -1.0 <= momentum <= 1.0
  {
    if momentum > 1.0 then Bullish else if momentum < -1.0 then Bearish else Neutral
  }

  /// The three per-indicator signals in the order they are counted.
  function Signals(ind: Indicators): seq<MomentumSignal>
  {
    [RsiSignal(ind.rsi), MacdSignal(ind.macd), PriceMomentumSignal(ind.priceMomentum)]
  }

  /// Number of occurrences of `x` in `s`.
  function Count(s: seq<MomentumSignal>, x: MomentumSignal): (r: nat)
    ensures r <= |s|
  {
    if s == [] then 0 else Count(s[..|s| - 1], x) + (if s[|s| - 1] == x then 1 else 0)
  }

  /// Majority of bullish against bearish votes; a tie is neutral.
  function Majority(s: seq<MomentumSignal>): (r: MomentumSignal)
  {
    var bull := Count(s, Bullish);
    var bear := Count(s, Bearish);
    if bull > bear then Bullish else if bear > bull then Bearish else Neutral
  }

  lemma {:induction false} CountIsMultiplicity(s: seq<MomentumSignal>, x: MomentumSignal)
    ensures Count(s, x) == multiset(s)[x]
  {
    if s != [] {
      CountIsMultiplicity(s[..|s| - 1], x);
      assert s == s[..|s| - 1] + [s[|s| - 1]];
    }
  }

  /// The vote does not depend on the order of the signals.
  lemma MajorityIgnoresOrder(s: seq<MomentumSignal>, t: seq<MomentumSignal>)
    requires multiset(s) == multiset(t)
    ensures Majority(s) == Majority(t)
  {
    CountIsMultiplicity(s, Bullish);
    CountIsMultiplicity(s, Bearish);
    CountIsMultiplicity(t, Bullish);
    CountIsMultiplicity(t, Bearish);
  }

  function Indicator(b: bool): nat
  {
    if b then 1 else 0
  }

  lemma CountOfThree(a: MomentumSignal, b: MomentumSignal, c: MomentumSignal, x: MomentumSignal)
    ensures Count([a, b, c], x) == Indicator(a == x) + Indicator(b == x) + Indicator(c == x)
  {
    assert [a][..0] == [];
    assert Count([a], x) == Indicator(a == x);
    assert [a, b][..1] == [a];
    assert Count([a, b], x) == Count([a], x) + Indicator(b == x);
    assert [a, b, c][..2] == [a, b];
  }

  /// Two agreeing signals out of three decide the vote.
  lemma TwoOfThreeDecide(a: MomentumSignal, b: MomentumSignal, c: MomentumSignal)
    requires a == b && a != Neutral
    ensures Majority([a, b, c]) == a
    ensures Majority([a, c, b]) == a
    ensures Majority([c, a, b]) == a
  {
    CountOfThree(a, b, c, Bullish);
    CountOfThree(a, b, c, Bearish);
    CountOfThree(a, c, b, Bullish);
    CountOfThree(a, c, b, Bearish);
    CountOfThree(c, a, b, Bullish);
    CountOfThree(c, a, b, Bearish);
  }

  /// One bullish, one bearish and one neutral signal cancel out.
  lemma OpposedSignalsCancel(c: MomentumSignal)
    ensures Majority([Bullish, Bearish, c]) == c
  {
    CountOfThree(Bullish, Bearish, c, Bullish);
    CountOfThree(Bullish, Bearish, c, Bearish);
  }

  /// `get_overall_momentum_signal`: counts bullish and bearish votes of the
  /// three signals in a loop and compares the counts.
  method OverallSignal(ind: Indicators) returns (r: MomentumSignal)
    ensures r == Majority(Signals(ind))
  {
    var signals := Signals(ind);
    var bullish: nat := 0;
    var bearish: nat := 0;
    for i := 0 to |signals|
      invariant bullish == Count(signals[..i], Bullish)
      invariant bearish == Count(signals[..i], Bearish)
    {
      assert signals[..i + 1][..i] == signals[..i];
      match signals[i]
      case Bullish => bullish := bullish + 1;
      case Bearish => bearish := bearish + 1;
      case Neutral =>
    }
    assert signals[..|signals|] == signals;
    if bullish > bearish {
      r := Bullish;
    } else if bearish > bullish {
      r := Bearish;
    } else {
      r := Neutral;
    }
  }

  // ---------------------------------------------------------------------
  // Alerts
  // ---------------------------------------------------------------------

  /// Alerts for a set of indicators, in the source's order; the stability
  /// message appears exactly when no other alert fires.
  function Alerts(ind: Indicators): (r: seq<Alert>)
    ensures 1 <= |r| <= 4
    ensures RsiOverbought in r <==> ind.rsi > 75.0
    ensures RsiOversold in r <==> ind.rsi < 25.0
    ensures MacdBullish in r <==> ind.macd.histogram > 100.0
    ensures MacdBearish in r <==> ind.macd.histogram < -100.0
    ensures MomentumUp in r <==> ind.priceMomentum > 2.0
    ensures MomentumDown in r <==> ind.priceMomentum < -2.0
    ensures HighVolume in r <==> ind.volumeRatio > 2.0
    ensures Stable in r <==> r == [Stable]
  {
    var a1 := if ind.rsi > 75.0 then [RsiOverbought]
              else if ind.rsi < 25.0 then [RsiOversold] else [];
    var a2 := if ind.macd.histogram > 100.0 then [MacdBullish]
              else if ind.macd.histogram < -100.0 then [MacdBearish] else [];
    var a3 := if ind.priceMomentum > 2.0 then [MomentumUp]
              else if ind.priceMomentum < -2.0 then [MomentumDown] else [];
    var a4 := if ind.volumeRatio > 2.0 then [HighVolume] else [];
    var all := a1 + a2 + a3 + a4;
    if all == [] then [Stable] else all
  }

  // ---------------------------------------------------------------------
  // Recent prices
  // ---------------------------------------------------------------------

  function Reverse<T>(s: seq<T>): (r: seq<T>)
    ensures |r| == |s|
  {
    if s == [] then [] else Reverse(s[1..]) + [s[0]]
  }

  lemma {:induction false} ReverseIndex<T>(s: seq<T>, i: nat)
    requires i < |s|
    ensures Reverse(s)[i] == s[|s| - 1 - i]
  {
    if i < |s| - 1 {
      ReverseIndex(s[1..], i);
    }
  }

  /// `iter().rev().take(count).rev()`: the newest `count` entries, oldest
  /// first.
  function RecentPrices(p: seq<real>, count: nat): (r: seq<real>)
    ensures |r| == Min(count, |p|)
    ensures r == p[|p| - |r|..]
  {
    var n := Min(count, |p|);
    var r := Reverse(Reverse(p)[..n]);
    forall i | 0 <= i < n
      ensures r[i] == p[|p| - n + i]
    {
      ReverseIndex(Reverse(p)[..n], i);
      ReverseIndex(p, n - 1 - i);
    }
    r
  }

  // ---------------------------------------------------------------------
  // The tracker
  // ---------------------------------------------------------------------

  class MomentumTracker {
    var prices: seq<real>
    var volumes: seq<real>
    var timestamps: seq<nat>
    const maxHistory: nat

    /// The three histories move together and never exceed the limit.
    ghost predicate Valid()
      reads this
    {
      |prices| == |volumes| == |timestamps| <= maxHistory
    }

    constructor(maxHistory: nat)
      ensures Valid()
      ensures this.maxHistory == maxHistory
      ensures prices == [] && volumes == [] && timestamps == []
    {
      this.maxHistory := maxHistory;
      prices := [];
      volumes := [];
      timestamps := [];
    }

    /// `add_data_point`: push to all three histories, then drop from the
    /// front while the price history is over the limit.
    method AddDataPoint(price: real, volume: real, now: nat)
      requires Valid()
      modifies this
      ensures Valid()
      ensures prices == Window(old(prices) + [price], maxHistory)
      ensures volumes == Window(old(volumes) + [volume], maxHistory)
      ensures timestamps == Window(old(timestamps) + [now], maxHistory)
    {
      prices := prices + [price];
      volumes := volumes + [volume];
      timestamps := timestamps + [now];
      ghost var p0, v0, t0 := prices, volumes, timestamps;
      ghost var k := 0;
      while |prices| > maxHistory
        invariant k <= |p0| && |p0| == |v0| == |t0|
        invariant prices == p0[k..] && volumes == v0[k..] && timestamps == t0[k..]
        invariant k == 0 || |p0| - k >= maxHistory
        decreases |prices|
      {
        prices := prices[1..];
        volumes := volumes[1..];
        timestamps := timestamps[1..];
        k := k + 1;
      }
      assert k == |p0| - Min(|p0|, maxHistory);
      assert prices == Window(p0, maxHistory);
      assert volumes == Window(v0, maxHistory);
    }

    /// The accumulator loop of `calculate_rsi`: gains and losses of the
    /// changes ending at indexes `lo` to `|p| - 1`.
    static method SumChanges(p: seq<real>, lo: nat) returns (gains: real, losses: real)
      requires 1 <= lo <= |p|
      ensures gains == GainSum(p, lo, |p|)
      ensures losses == LossSum(p, lo, |p|)
    {
      gains, losses := 0.0, 0.0;
      for i := lo to |p|
        invariant gains == GainSum(p, lo, i)
        invariant losses == LossSum(p, lo, i)
      {
        var change := p[i] - p[i - 1];
        if change > 0.0 {
          gains := gains + change;
        } else {
          losses := losses - change;
        }
      }
    }

    /// `calculate_rsi`.
    method CalculateRsi(period: nat) returns (r: Option<real>)
      requires period > 0
      ensures r == Rsi(prices, period)
    {
      if |prices| < period + 1 {
        return None;
      }
      var gains, losses := SumChanges(prices, |prices| - period);
      var avgGain := gains / period as real;
      var avgLoss := losses / period as real;
      if avgLoss == 0.0 {
        return Some(100.0);
      }
      r := Some(RsiOf(avgGain / avgLoss));
    }

    /// `calculate_all_indicators`: RSI(14), price momentum over 5 and the
    /// volume ratio with their defaults, the given MACD (zero when absent),
    /// and the vote of their signals.
    method AllIndicators(macd: Option<MacdData>) returns (ind: Indicators)
      ensures ind.rsi == Rsi(prices, 14).UnwrapOr(50.0)
      ensures ind.macd == macd.UnwrapOr(MacdData(0.0, 0.0, 0.0))
      ensures ind.priceMomentum == PriceMomentum(prices, 5).UnwrapOr(0.0)
      ensures ind.volumeRatio == VolumeRatio(volumes).UnwrapOr(1.0)
      ensures ind.overallSignal == Majority(Signals(ind))
    {
      var rsi := CalculateRsi(14);
      ind := Indicators(rsi.UnwrapOr(50.0), macd.UnwrapOr(MacdData(0.0, 0.0, 0.0)),
                        PriceMomentum(prices, 5).UnwrapOr(0.0),
                        VolumeRatio(volumes).UnwrapOr(1.0), Neutral);
      var overall := OverallSignal(ind);
      ind := ind.(overallSignal := overall);
    }
  }
}
