/// The futures fee model of src/exchange/bitget/fees/mod.rs: fees on a
/// notional, entry margin net of the entry fee, exit profit net of the exit
/// fee, and the VIP-level lookup.
module Fees {
  import opened Wrappers
  import opened Helper
  import Bot

  datatype ExecutionType = Maker | Taker

  /// One row of the exchange's VIP fee table (the amount columns are not
  /// used by the fee model and are left out).
  datatype VipFeeRate = VipFeeRate(level: string, takerFeeRate: real, makerFeeRate: real)

  /// `BitgetFuturesFees`: the rates a fee object carries.
  datatype FuturesFees = FuturesFees(makerFee: real, takerFee: real, fundingRate: real)

  /// `BitgetFuturesFees::new`: every rate zero.
  function NewFees(): (f: FuturesFees)
    ensures f.makerFee == 0.0 && f.takerFee == 0.0 && f.fundingRate == 0.0
  {
    FuturesFees(0.0, 0.0, 0.0)
  }

  /// `from_vip_data`: the row's maker and taker rates, no funding rate.
  function FromVipData(row: VipFeeRate): (f: FuturesFees)
    ensures f.makerFee == row.makerFeeRate && f.takerFee == row.takerFeeRate && f.fundingRate == 0.0
  {
    FuturesFees(row.makerFeeRate, row.takerFeeRate, 0.0)
  }

  /// `for_level`: the rates of the first row of `level`, if any.
  function ForLevel(level: string, rates: seq<VipFeeRate>): (r: Option<FuturesFees>)
    ensures r.None? <==> forall i :: 0 <= i < |rates| ==> rates[i].level != level
    ensures r.Some? ==> exists i :: 0 <= i < |rates| && rates[i].level == level &&
                                    r.value == FromVipData(rates[i]) &&
                                    forall j :: 0 <= j < i ==> rates[j].level != level
  {
    if rates == [] then None
    else if rates[0].level == level then Some(FromVipData(rates[0]))
    else
      var rest := ForLevel(level, rates[1..]);
      assert forall j :: 1 <= j < |rates| ==> rates[j] == rates[1..][j - 1];
      if rest.Some? then
        var k :| 0 <= k < |rates[1..]| && rates[1..][k].level == level &&
                 rest.value == FromVipData(rates[1..][k]) &&
                 forall j :: 0 <= j < k ==> rates[1..][j].level != level;
        assert rates[k + 1] == rates[1..][k];
        rest
      else
        rest
  }

  /// The row a fee is computed from: the first row fetched, or a zero row
  /// when fetching the table failed (`None`). A fetched but empty table has
  /// no first row: the source panics there, modelled as `None`.
  function RowInUse(fetched: Option<seq<VipFeeRate>>): (r: Option<VipFeeRate>)
    ensures fetched.None? ==> r == Some(VipFeeRate("0", 0.0, 0.0))
    ensures fetched.Some? && fetched.value != [] ==> r == Some(fetched.value[0])
    ensures r.None? <==> fetched == Some([])
  {
    match fetched
    case None => Some(VipFeeRate("0", 0.0, 0.0))
    case Some(rows) => if rows == [] then None else Some(rows[0])
  }

  function Rate(row: VipFeeRate, exec: ExecutionType): real
  {
    match exec
    case Maker => row.makerFeeRate
    case Taker => row.takerFeeRate
  }

  /// `fee_on_notional`: price times size times the maker or taker rate.
  function FeeOnNotional(price: real, size: real, exec: ExecutionType, fetched: Option<seq<VipFeeRate>>): (r: Option<real>)
    ensures r.None? <==> fetched == Some([])
    ensures fetched.None? ==> r == Some(0.0)
    ensures r.Some? && price >= 0.0 && size >= 0.0 && Rate(RowInUse(fetched).value, exec) >= 0.0 ==> r.value >= 0.0
  {
    var row := RowInUse(fetched);
    if row.None? then None else Some(price * size * Rate(row.value, exec))
  }

  /// Only the first row of the table matters: rows after it never change a fee.
  lemma OnlyFirstRowUsed(price: real, size: real, exec: ExecutionType, row: VipFeeRate, rest1: seq<VipFeeRate>, rest2: seq<VipFeeRate>)
    ensures FeeOnNotional(price, size, exec, Some([row] + rest1)) == FeeOnNotional(price, size, exec, Some([row] + rest2))
    ensures FeeOnNotional(price, size, exec, Some([row] + rest1)) == Some(price * size * Rate(row, exec))
  {
    var f1: Option<seq<VipFeeRate>> := Some([row] + rest1);
    var f2: Option<seq<VipFeeRate>> := Some([row] + rest2);
    assert f1.value[0] == row && f2.value[0] == row;
    var fee := price * size * Rate(row, exec);
    assert FeeOnNotional(price, size, exec, f1).Some? && FeeOnNotional(price, size, exec, f1).value == fee;
    assert FeeOnNotional(price, size, exec, f2).Some? && FeeOnNotional(price, size, exec, f2).value == fee;
  }

  /// `pnl_for_exit`: the signed profit of an exit, losses included.
  function PnlForExit(side: Position, entryPrice: real, exitPrice: real, size: real): (r: real)
    ensures side == Flat ==> r == 0.0
    ensures side != Flat && size > 0.0 ==>
              (r > 0.0 <==> (if side == Long then exitPrice > entryPrice else exitPrice < entryPrice))
  {
    match side
    case Long => (exitPrice - entryPrice) * size
    case Short => (entryPrice - exitPrice) * size
    case Flat => 0.0
  }

  /// A Long and a Short of the same size have opposite profits.
  lemma LongShortOpposite(entryPrice: real, exitPrice: real, size: real)
    ensures PnlForExit(Long, entryPrice, exitPrice, size) == -PnlForExit(Short, entryPrice, exitPrice, size)
  {
  }

  /// The helper's clamped profit is this signed profit with losses cut to
  /// zero, for positive prices and a non-negative size.
  lemma ClampedPnlAgrees(side: Position, entryPrice: real, exitPrice: real, size: real)
    requires entryPrice > 0.0 && exitPrice > 0.0 && size >= 0.0
    ensures ComputePnl(side, entryPrice, size, exitPrice) ==
            (if PnlForExit(side, entryPrice, exitPrice, size) > 0.0 then PnlForExit(side, entryPrice, exitPrice, size) else 0.0)
  {
    ProductSign(exitPrice - entryPrice, size);
    ProductSign(entryPrice - exitPrice, size);
  }

  /// `calc_margin_for_entry`: the margin left after the taker fee on the
  /// entry notional.
  function CalcMarginForEntry(entryPrice: real, positionSize: real, margin: real, fetched: Option<seq<VipFeeRate>>): (r: Option<real>)
    ensures r.None? <==> fetched == Some([])
    ensures r.Some? ==> r.value + FeeOnNotional(entryPrice, positionSize, Taker, fetched).value == margin
    ensures fetched.None? ==> r == Some(margin)
  {
    match FeeOnNotional(entryPrice, positionSize, Taker, fetched)
    case None => None
    case Some(fee) => Some(margin - fee)
  }

  /// With non-negative prices, sizes and rates the entry margin never grows.
  lemma EntryMarginAtMostMargin(entryPrice: real, positionSize: real, margin: real, fetched: Option<seq<VipFeeRate>>)
    requires fetched != Some([]) && entryPrice >= 0.0 && positionSize >= 0.0
    requires Rate(RowInUse(fetched).value, Taker) >= 0.0
    ensures CalcMarginForEntry(entryPrice, positionSize, margin, fetched).value <= margin
  {
  }

  /// `calc_pnl_for_exit`: the exit profit net of the taker fee on the exit
  /// notional, and that fee.
  function CalcPnlForExit(open: Bot.OpenPosition, currentPrice: real, fetched: Option<seq<VipFeeRate>>): (r: Option<(real, real)>)
    ensures r.None? <==> fetched == Some([])
    ensures r.Some? ==> r.value.0 + r.value.1 == PnlForExit(open.pos, open.entryPrice, currentPrice, open.positionSize)
    ensures r.Some? ==> r.value.1 == FeeOnNotional(currentPrice, open.positionSize, Taker, fetched).value
  {
    match FeeOnNotional(currentPrice, open.positionSize, Taker, fetched)
    case None => None
    case Some(fee) => Some((PnlForExit(open.pos, open.entryPrice, currentPrice, open.positionSize) - fee, fee))
  }

  /// When the fee table cannot be fetched every fee is zero, so the net
  /// exit profit is the raw one.
  lemma NoTableNoFee(open: Bot.OpenPosition, currentPrice: real)
    ensures CalcPnlForExit(open, currentPrice, None) ==
            Some((PnlForExit(open.pos, open.entryPrice, currentPrice, open.positionSize), 0.0))
  {
  }
}
