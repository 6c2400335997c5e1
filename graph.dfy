/// The analytics report over closed trades: percent returns grouped by
/// week or month, the per-group cumulative return, the per-trade PnL and
/// ROI, and the overall ROI on the margin put in.
///
/// The ISO-8601 week and the calendar month of a trade's exit time come
/// from a date library; the model takes them as a sequence of keys, one
/// per trade.
module Graph {
  import opened Wrappers
  import opened Helper
  import Bot

  /// `(year, week)` or `(year, month)`.
  type Key = (int, int)

  /// Whether a trade takes part in the grouping: both prices are non-zero.
  predicate Counted(p: Bot.ClosedPosition)
  {
    p.entryPrice != 0.0 && p.exitPrice != 0.0
  }

  /// The percent return a counted trade contributes.
  function PercentOf(p: Bot.ClosedPosition): real
  {
    PnlPercent(p.entryPrice, p.exitPrice, p.position.UnwrapOr(Flat))
  }

  /// `map.entry(key).or_default().push(value)`.
  function Push(m: map<Key, seq<real>>, k: Key, v: real): (r: map<Key, seq<real>>)
    ensures r.Keys == m.Keys + {k}
    ensures r[k] == (if k in m then m[k] else []) + [v]
    ensures forall j :: j in m && j != k ==> r[j] == m[j]
  {
    m[k := (if k in m then m[k] else []) + [v]]
  }

  /// The grouping after the first `|ps|` trades.
  function Grouped(ps: seq<Bot.ClosedPosition>, keys: seq<Key>): map<Key, seq<real>>
    requires |keys| == |ps|
  {
    if ps == [] then map[]
    else
      var n := |ps| - 1;
      var g := Grouped(ps[..n], keys[..n]);
      if Counted(ps[n]) then Push(g, keys[n], PercentOf(ps[n])) else g
  }

  /// `group_by_week` and `group_by_month`: one loop over the trades, pushing
  /// the percent return of each counted trade under its key.
  method GroupBy(ps: seq<Bot.ClosedPosition>, keys: seq<Key>) returns (m: map<Key, seq<real>>)
    requires |keys| == |ps|
    ensures m == Grouped(ps, keys)
  {
    m := map[];
    for i := 0 to |ps|
      invariant m == Grouped(ps[..i], keys[..i])
    {
      assert ps[..i + 1][..i] == ps[..i];
      assert keys[..i + 1][..i] == keys[..i];
      if ps[i].entryPrice != 0.0 && ps[i].exitPrice != 0.0 {
        var pct := PnlPercent(ps[i].entryPrice, ps[i].exitPrice, ps[i].position.UnwrapOr(Flat));
        var existing := if keys[i] in m then m[keys[i]] else [];
        m := m[keys[i] := existing + [pct]];
      }
    }
    assert ps[..|ps|] == ps;
    assert keys[..|keys|] == keys;
  }

  /// The percent returns of the counted trades filed under `k`, in order.
  function ReturnsUnder(ps: seq<Bot.ClosedPosition>, keys: seq<Key>, k: Key): seq<real>
    requires |keys| == |ps|
  {
    if ps == [] then []
    else
      var n := |ps| - 1;
      ReturnsUnder(ps[..n], keys[..n], k)
      + (if Counted(ps[n]) && keys[n] == k then [PercentOf(ps[n])] else [])
  }

  /// Each key holds exactly the returns of the counted trades filed under
  /// it, and a key appears only when at least one such trade exists.
  lemma {:induction false} GroupedContents(ps: seq<Bot.ClosedPosition>, keys: seq<Key>, k: Key)
    requires |keys| == |ps|
    ensures k in Grouped(ps, keys) <==> ReturnsUnder(ps, keys, k) != []
    ensures k in Grouped(ps, keys) ==> Grouped(ps, keys)[k] == ReturnsUnder(ps, keys, k)
  {
    if ps != [] {
      var n := |ps| - 1;
      GroupedContents(ps[..n], keys[..n], k);
    }
  }

  /// A trade with a zero price changes no group, wherever it sits.
  lemma {:induction false} ZeroPricedIgnored(
    ps1: seq<Bot.ClosedPosition>, d: Bot.ClosedPosition, ps2: seq<Bot.ClosedPosition>,
    ks1: seq<Key>, k: Key, ks2: seq<Key>)
    requires |ks1| == |ps1| && |ks2| == |ps2|
    requires !Counted(d)
    ensures Grouped(ps1 + [d] + ps2, ks1 + [k] + ks2) == Grouped(ps1 + ps2, ks1 + ks2)
    decreases |ps2|
  {
    var all, allKeys := ps1 + [d] + ps2, ks1 + [k] + ks2;
    if ps2 == [] {
      assert all[..|all| - 1] == ps1 + ps2;
      assert allKeys[..|allKeys| - 1] == ks1 + ks2;
    } else {
      var n := |ps2| - 1;
      ZeroPricedIgnored(ps1, d, ps2[..n], ks1, k, ks2[..n]);
      assert all[..|all| - 1] == ps1 + [d] + ps2[..n];
      assert allKeys[..|allKeys| - 1] == ks1 + [k] + ks2[..n];
      var rest, restKeys := ps1 + ps2, ks1 + ks2;
      assert rest[..|rest| - 1] == ps1 + ps2[..n];
      assert restKeys[..|restKeys| - 1] == ks1 + ks2[..n];
    }
  }

  /// The placeholder record loaded when no closed trades are stored.
  function DefaultClosed(): (r: Bot.ClosedPosition)
    ensures !Counted(r)
  {
    Bot.ClosedPosition(Some(Flat), Some(Flat), 0.0, 0.0, 0.0, Some(0.0), Some(0.0),
                       Some(0.0), Some(0.0), None)
  }

  /// The placeholder never contributes to any week or month.
  lemma DefaultNeverGrouped(ps1: seq<Bot.ClosedPosition>, ps2: seq<Bot.ClosedPosition>,
                            ks1: seq<Key>, k: Key, ks2: seq<Key>)
    requires |ks1| == |ps1| && |ks2| == |ps2|
    ensures Grouped(ps1 + [DefaultClosed()] + ps2, ks1 + [k] + ks2) == Grouped(ps1 + ps2, ks1 + ks2)
  {
    ZeroPricedIgnored(ps1, DefaultClosed(), ps2, ks1, k, ks2);
  }

  // ---------------------------------------------------------------------
  // Cumulative return per group
  // ---------------------------------------------------------------------

  function Sum(s: seq<real>): real
  {
    if s == [] then 0.0 else Sum(s[..|s| - 1]) + s[|s| - 1]
  }

  /// Returns add up: the cumulative figure is a plain sum, so splitting a
  /// group's returns anywhere splits its total the same way.
  lemma {:induction false} SumAppend(s: seq<real>, t: seq<real>)
    ensures Sum(s + t) == Sum(s) + Sum(t)
    decreases |t|
  {
    if t != [] {
      var n := |t| - 1;
      SumAppend(s, t[..n]);
      assert (s + t)[..|s + t| - 1] == s + t[..n];
    } else {
      assert s + t == s;
    }
  }

  /// The inner `prod += pct` loop.
  method SumReturns(pcts: seq<real>) returns (total: real)
    ensures total == Sum(pcts)
  {
    total := 0.0;
    for i := 0 to |pcts|
      invariant total == Sum(pcts[..i])
    {
      assert pcts[..i + 1][..i] == pcts[..i];
      total := total + pcts[i];
    }
    assert pcts[..|pcts|] == pcts;
  }

  /// `cumulative_roi_weekly` / `cumulative_roi_monthly` after grouping: the
  /// same keys, each mapped to the sum of its returns.
  method CumulativeRoi(grouped: map<Key, seq<real>>) returns (r: map<Key, real>)
    ensures r.Keys == grouped.Keys
    ensures forall k :: k in r ==> r[k] == Sum(grouped[k])
  {
    r := map[];
    var rest := grouped.Keys;
    while rest != {}
      invariant rest <= grouped.Keys
      invariant r.Keys == grouped.Keys - rest
      invariant forall k :: k in r ==> r[k] == Sum(grouped[k])
      decreases |rest|
    {
      var k :| k in rest;
      var total := SumReturns(grouped[k]);
      r := r[k := total];
      rest := rest - {k};
    }
  }

  /// Sum of the returns the trades filed under `k` contribute.
  function KeyTotal(ps: seq<Bot.ClosedPosition>, keys: seq<Key>, k: Key): real
    requires |keys| == |ps|
  {
    if ps == [] then 0.0
    else
      var n := |ps| - 1;
      KeyTotal(ps[..n], keys[..n], k)
      + (if Counted(ps[n]) && keys[n] == k then PercentOf(ps[n]) else 0.0)
  }

  lemma {:induction false} ReturnsUnderSum(ps: seq<Bot.ClosedPosition>, keys: seq<Key>, k: Key)
    requires |keys| == |ps|
    ensures Sum(ReturnsUnder(ps, keys, k)) == KeyTotal(ps, keys, k)
  {
    if ps != [] {
      var n := |ps| - 1;
      ReturnsUnderSum(ps[..n], keys[..n], k);
      SumAppend(ReturnsUnder(ps[..n], keys[..n], k),
                if Counted(ps[n]) && keys[n] == k then [PercentOf(ps[n])] else []);
    }
  }

  /// The whole report for one period kind: every key that has a counted
  /// trade maps to the plain sum of the percent returns of its trades.
  method CumulativeByKey(ps: seq<Bot.ClosedPosition>, keys: seq<Key>) returns (r: map<Key, real>)
    requires |keys| == |ps|
    ensures forall k :: k in r <==> ReturnsUnder(ps, keys, k) != []
    ensures forall k :: k in r ==> r[k] == KeyTotal(ps, keys, k)
  {
    var grouped := GroupBy(ps, keys);
    r := CumulativeRoi(grouped);
    forall k
      ensures k in r <==> ReturnsUnder(ps, keys, k) != []
      ensures k in r ==> r[k] == KeyTotal(ps, keys, k)
    {
      GroupedContents(ps, keys, k);
      ReturnsUnderSum(ps, keys, k);
    }
  }

  // ---------------------------------------------------------------------
  // Per-trade and overall figures
  // ---------------------------------------------------------------------

  /// `pnl_and_roi`: the clamped PnL of the trade on its recorded quantity
  /// (or the quantity its margin buys) and its ROI in percent of the margin,
  /// 0 unless both PnL and margin are non-zero.
  function PnlAndRoi(p: Bot.ClosedPosition, config: Bot.Config): (r: (real, real))
    requires p.quantity.Some? || p.entryPrice != 0.0
    ensures r.0 >= 0.0
    ensures r.0 == ComputePnl(p.position.UnwrapOr(Flat), p.entryPrice, QuantityOf(p, config), p.exitPrice)
    ensures r.1 != 0.0 ==> r.1 * p.margin.UnwrapOr(config.margin) == r.0 * 100.0
    ensures r.1 != 0.0 <==> r.0 != 0.0 && p.margin.UnwrapOr(config.margin) != 0.0
    ensures p.margin.UnwrapOr(config.margin) > 0.0 ==> r.1 >= 0.0
  {
    var qty := QuantityOf(p, config);
    var pos := p.position.UnwrapOr(Flat);
    var pnl := ComputePnl(pos, p.entryPrice, qty, p.exitPrice);
    var margin := p.margin.UnwrapOr(config.margin);
    var roi := if pnl != 0.0 && margin != 0.0 then CalcRoi(margin, p.entryPrice, pos, qty, p.exitPrice) else 0.0;
    (pnl, roi)
  }

  /// The recorded quantity, or what the recorded (or configured) margin
  /// buys at the configured (or recorded) leverage.
  function QuantityOf(p: Bot.ClosedPosition, config: Bot.Config): (r: real)
    requires p.quantity.Some? || p.entryPrice != 0.0
    ensures p.quantity.Some? ==> r == p.quantity.value
    ensures p.quantity.None? ==>
              r * p.entryPrice == PositionSize(p.margin.UnwrapOr(config.margin), p.leverage.UnwrapOr(config.leverage))
  {
    match p.quantity
    case Some(q) => q
    case None => ContractAmount(p.entryPrice, p.margin.UnwrapOr(config.margin), p.leverage.UnwrapOr(config.leverage))
  }

  /// The PnL of a trade whose price is zero is zero, so the placeholder
  /// record adds nothing to the totals' PnL.
  lemma ZeroPricedEarnsNothing(p: Bot.ClosedPosition, config: Bot.Config)
    requires p.quantity.Some? || p.entryPrice != 0.0
    requires !Counted(p)
    ensures PnlAndRoi(p, config) == (0.0, 0.0)
  {
  }

  /// The running totals of the report loop: summed PnL and margin put in,
  /// starting from the stored trading capital.
  function Totals(ps: seq<Bot.ClosedPosition>, config: Bot.Config, capital: real): (r: (real, real))
    requires forall i :: 0 <= i < |ps| ==> ps[i].quantity.Some? || ps[i].entryPrice != 0.0
    ensures r.0 >= 0.0
  {
    if ps == [] then (0.0, capital)
    else
      var n := |ps| - 1;
      var t := Totals(ps[..n], config, capital);
      (t.0 + PnlAndRoi(ps[n], config).0, t.1 + ps[n].margin.UnwrapOr(config.margin))
  }

  /// The loop of `prepare_cumulative_weekly_monthly` accumulating
  /// `total_pnl` and `total_margin`.
  method AccumulateTotals(ps: seq<Bot.ClosedPosition>, config: Bot.Config, capital: real)
    returns (totalPnl: real, totalMargin: real)
    requires forall i :: 0 <= i < |ps| ==> ps[i].quantity.Some? || ps[i].entryPrice != 0.0
    ensures (totalPnl, totalMargin) == Totals(ps, config, capital)
    ensures totalPnl >= 0.0
  {
    totalPnl, totalMargin := 0.0, capital;
    for i := 0 to |ps|
      invariant (totalPnl, totalMargin) == Totals(ps[..i], config, capital)
    {
      assert ps[..i + 1][..i] == ps[..i];
      var pr := PnlAndRoi(ps[i], config);
      totalPnl := totalPnl + pr.0;
      totalMargin := totalMargin + ps[i].margin.UnwrapOr(config.margin);
    }
    assert ps[..|ps|] == ps;
  }

  /// Overall ROI as a fraction of the total margin.  A zero total margin
  /// makes the floating-point division non-finite; the model reports that
  /// as `None`.
  function OverallRoi(totalPnl: real, totalMargin: real): (r: Option<real>)
    ensures r.None? <==> totalMargin == 0.0
    ensures r.Some? ==> r.value * totalMargin == totalPnl
    ensures r.Some? && totalMargin > 0.0 && totalPnl >= 0.0 ==> r.value >= 0.0
  {
    if totalMargin == 0.0 then None
    else
      var roi := totalPnl / totalMargin;
      assert roi * totalMargin == totalPnl;
      Some(roi)
  }
}
