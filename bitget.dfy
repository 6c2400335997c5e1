/// The pure helpers of the exchange client: the timeframe-to-channel table
/// of the candle stream, the mapping of a ticker price response to prices,
/// the order side chosen for opening and for closing a position, and the
/// fallback order data used when the exchange does not confirm an order.
///
/// JSON decoding and decimal-string parsing are the parser's business; the
/// model receives the decoded response (`None` when the text is not valid
/// JSON of the expected shape) and a number parser `parseNum`.
module Bitget {
  import opened Wrappers
  import opened Text
  import opened Helper

  // ---------------------------------------------------------------------
  // Timeframes
  // ---------------------------------------------------------------------

  /// The accepted timeframes, lower-case.
  const Timeframes: seq<string> := ["1m", "5m", "15m", "30m", "1h", "4h", "12h", "1d", "1w"]

  /// The channel for each entry of `Timeframes`, in the same order.
  const Channels: seq<string> :=
    ["candle1m", "candle5m", "candle15m", "candle30m", "candle1H", "candle4H", "candle12H", "candle1D", "candle1W"]

  function TimeframeError(timeframe: string): string
  {
    "Invalid timeframe: " + timeframe + ". Valid options: 1m, 5m, 15m, 30m, 1h, 4h, 12h, 1d, 1w"
  }

  /// `parse_timeframe_to_channel`: the channel of the lower-cased
  /// timeframe, or an error naming the timeframe as given.
  function ChannelFor(timeframe: string): (r: Result<string, string>)
    ensures r.Ok? <==> ToLower(timeframe) in Timeframes
    ensures r.Ok? ==> r.value in Channels
    ensures r.Err? ==> r.error == TimeframeError(timeframe)
  {
    var t := ToLower(timeframe);
    if t == "1m" then Ok("candle1m")
    else if t == "5m" then Ok("candle5m")
    else if t == "15m" then Ok("candle15m")
    else if t == "30m" then Ok("candle30m")
    else if t == "1h" then Ok("candle1H")
    else if t == "4h" then Ok("candle4H")
    else if t == "12h" then Ok("candle12H")
    else if t == "1d" then Ok("candle1D")
    else if t == "1w" then Ok("candle1W")
    else Err(TimeframeError(timeframe))
  }

  /// Timeframes that differ only in case select the same channel.
  lemma ChannelIgnoresCase(a: string, b: string)
    requires ToLower(a) == ToLower(b)
    ensures ChannelFor(a).Ok? == ChannelFor(b).Ok?
    ensures ChannelFor(a).Ok? ==> ChannelFor(a).value == ChannelFor(b).value
  {
  }

  /// The channel names its timeframe: dropping the "candle" prefix and
  /// lower-casing gives back the lower-cased timeframe, so distinct
  /// timeframes select distinct channels.
  lemma ChannelRoundTrip(timeframe: string)
    requires ChannelFor(timeframe).Ok?
    ensures |ChannelFor(timeframe).value| > 6
    ensures ChannelFor(timeframe).value[..6] == "candle"
    ensures ToLower(ChannelFor(timeframe).value[6..]) == ToLower(timeframe)
  {
    var t := ToLower(timeframe);
    var c := ChannelFor(timeframe).value;
    if t == "1h" || t == "4h" || t == "12h" || t == "1d" || t == "1w" {
      assert ToLower(c[6..]) == t;
    } else {
      assert c[6..] == t;
      LowerIdempotent(timeframe);
    }
  }

  lemma LowerCaseExamples()
    ensures ChannelFor("1m") == Ok("candle1m")
    ensures ChannelFor("1h") == Ok("candle1H")
    ensures ChannelFor("invalid").Err?
  {
    assert ToLower("1m") == "1m";
    assert ToLower("1h") == "1h";
    assert ToLower("invalid") == "invalid";
  }

  lemma UpperCaseExamples()
    ensures ChannelFor("1H") == Ok("candle1H")
    ensures ChannelFor("1D") == Ok("candle1D")
    ensures ChannelFor("1W") == Ok("candle1W")
  {
    assert ToLower("1H") == "1h";
    assert ToLower("1D") == "1d";
    assert ToLower("1W") == "1w";
  }

  // ---------------------------------------------------------------------
  // Ticker prices
  // ---------------------------------------------------------------------

  /// One ticker entry as received: numbers are decimal strings.
  datatype PriceData = PriceData(symbol: string, price: string, indexPrice: string, markPrice: string, ts: string)

  datatype Prices = Prices(price: real, indexPrice: real, markPrice: real)

  /// Value substituted for a number that does not parse.
  const Sentinel: real := 1.11

  function NumberOr(text: string, parseNum: string -> Option<real>): (r: real)
    ensures parseNum(text).Some? ==> r == parseNum(text).value
    ensures parseNum(text).None? ==> r == Sentinel
  {
    parseNum(text).UnwrapOr(Sentinel)
  }

  function PricesOf(item: PriceData, parseNum: string -> Option<real>): Prices
  {
    Prices(NumberOr(item.price, parseNum), NumberOr(item.indexPrice, parseNum), NumberOr(item.markPrice, parseNum))
  }

  /// `parse_price_response`: an error when the response does not decode,
  /// otherwise one `Prices` per data item, in order.
  function ParsePriceResponse(data: Option<seq<PriceData>>, parseNum: string -> Option<real>): (r: Result<seq<Prices>, string>)
    ensures r.Err? <==> data.None?
    ensures r.Ok? ==> |r.value| == |data.value|
    ensures r.Ok? ==> forall i :: 0 <= i < |r.value| ==> r.value[i] == PricesOf(data.value[i], parseNum)
  {
    match data
    case None => Err("invalid price response")
    case Some(items) => Ok(seq(|items|, i requires 0 <= i < |items| => PricesOf(items[i], parseNum)))
  }

  /// A field that does not parse reads as the sentinel, never as an error.
  lemma UnparseableFieldIsSentinel(item: PriceData, parseNum: string -> Option<real>)
    requires parseNum(item.price).None?
    ensures ParsePriceResponse(Some([item]), parseNum).Ok?
    ensures ParsePriceResponse(Some([item]), parseNum).value[0].price == Sentinel
  {
  }

  /// `get_prices`: the last parsed entry, absent when the response does
  /// not decode or carries no data.
  function GetPrices(data: Option<seq<PriceData>>, parseNum: string -> Option<real>): (r: Option<Prices>)
    ensures r.None? <==> data.None? || data.value == []
    ensures r.Some? ==> r.value == PricesOf(data.value[|data.value| - 1], parseNum)
  {
    match ParsePriceResponse(data, parseNum)
    case Err(_) => None
    case Ok(prices) => if prices == [] then None else Some(prices[|prices| - 1])
  }

  // ---------------------------------------------------------------------
  // Orders
  // ---------------------------------------------------------------------

  /// Side sent when opening a position (`new_futures_call`): "buy" unless
  /// the position is Short.
  function OpenSide(pos: Position): (r: string)
    ensures r == "sell" <==> pos == Short
    ensures r == "buy" <==> pos != Short
  {
    if pos == Short then "sell" else "buy"
  }

  /// Side sent when closing a position (`modify_futures_order`): "sell"
  /// unless the position is Short.
  function CloseSide(pos: Position): (r: string)
    ensures r == "buy" <==> pos == Short
    ensures r == "sell" <==> pos != Short
  {
    if pos == Short then "buy" else "sell"
  }

  function Opposite(side: string): string
  {
    if side == "buy" then "sell" else "buy"
  }

  /// Closing always trades against the opening side, Flat included.
  lemma CloseUndoesOpen(pos: Position)
    ensures CloseSide(pos) == Opposite(OpenSide(pos))
    ensures OpenSide(pos) != CloseSide(pos)
  {
  }

  datatype PlaceOrderData = PlaceOrderData(clientOid: string, orderId: string)

  /// A decoded order response: the code and the order data.
  datatype OrderResponse = OrderResponse(code: string, data: PlaceOrderData)

  const SuccessCode: string := "00000"
  const PlaceFailed: string := "Failed to place order"
  const ModifyFailed: string := "Failed to modify order"

  /// What an order call returns for a response that decoded to `response`
  /// (`None` when it did not decode): the order data when the code is
  /// "00000", otherwise order data whose both ids are `failure`.
  function OrderOutcome(response: Option<OrderResponse>, failure: string): (r: PlaceOrderData)
    ensures response.Some? && response.value.code == SuccessCode ==> r == response.value.data
    ensures response.None? || response.value.code != SuccessCode ==> r == PlaceOrderData(failure, failure)
  {
    var decoded := response.UnwrapOr(OrderResponse("4000", PlaceOrderData(failure, failure)));
    if decoded.code != SuccessCode then PlaceOrderData(failure, failure) else decoded.data
  }

  /// `new_futures_call`'s result.
  function NewFuturesOutcome(response: Option<OrderResponse>): (r: PlaceOrderData)
    ensures response.Some? && response.value.code == SuccessCode ==> r == response.value.data
    ensures response.None? || response.value.code != SuccessCode ==> r == PlaceOrderData(PlaceFailed, PlaceFailed)
  {
    OrderOutcome(response, PlaceFailed)
  }

  /// `modify_futures_order`'s result.
  function ModifyOutcome(response: Option<OrderResponse>): (r: PlaceOrderData)
    ensures response.Some? && response.value.code == SuccessCode ==> r == response.value.data
    ensures response.None? || response.value.code != SuccessCode ==> r == PlaceOrderData(ModifyFailed, ModifyFailed)
  {
    OrderOutcome(response, ModifyFailed)
  }
}
