/// The closed-position listing endpoints of the HTTP API: pagination
/// checks, optional inclusive date filtering, silent dropping of rows that
/// do not deserialize, slicing, and the error-to-status mapping.
///
/// The stored list is a sequence of raw rows, `None` standing for a row
/// whose JSON does not parse; date parsing is the parameter `parseDate`
/// (seconds since the epoch, or `None` when the text is in neither accepted
/// format); a failed store read is the flag `fetchOk`.
module Handlers {
  import opened Wrappers
  import Bot

  datatype ApiError =
    | RedisError(msg: string)
    | NotFound(msg: string)
    | InvalidInput(msg: string)

  /// HTTP status sent for each error kind.
  function StatusOf(e: ApiError): (r: int)
    ensures r == 500 <==> e.RedisError?
    ensures r == 404 <==> e.NotFound?
    ensures r == 400 <==> e.InvalidInput?
  {
    match e
    case RedisError(_) => 500
    case NotFound(_) => 404
    case InvalidInput(_) => 400
  }

  datatype PaginationParams = PaginationParams(
    page: nat,
    limit: nat,
    fromDate: Option<string>,
    toDate: Option<string>)

  /// Query defaults: page 1, limit 20, no dates.
  function DefaultParams(): (r: PaginationParams)
    ensures r.page == 1 && r.limit == MaxLimit
    ensures r.fromDate.None? && r.toDate.None?
  {
    PaginationParams(1, 20, None, None)
  }

  const MaxLimit: nat := 20

  /// A stored closed position together with its exit time in seconds.
  datatype Row = Row(record: Bot.ClosedPosition, exitTime: int)

  datatype ClosedPositionsResponse = ClosedPositionsResponse(
    positions: seq<Row>,
    total: nat,
    page: nat,
    limit: nat)

  const PageMessage: string := "Page must be greater than 0"
  const LimitMessage: string := "Limit must be between 1 and 20"
  const FetchMessage: string := "Failed to fetch positions"

  function DateMessage(s: string): string
  {
    "Invalid date format '" + s + "'. Use ISO 8601: YYYY-MM-DD or YYYY-MM-DDTHH:MM:SSZ"
  }

  // ---------------------------------------------------------------------
  // List slicing
  // ---------------------------------------------------------------------

  function Min(a: nat, b: nat): nat
  {
    if a <= b then a else b
  }

  /// Redis `LRANGE key start stop` for non-negative bounds: the elements
  /// from `start` through `stop` inclusive that exist.
  function LRange<T>(l: seq<T>, start: nat, stop: nat): (r: seq<T>)
    ensures |r| <= |l|
    ensures forall i :: 0 <= i < |r| ==> start + i <= stop && start + i < |l| && r[i] == l[start + i]
    ensures start < |l| && start <= stop ==> |r| == Min(stop + 1, |l|) - start
  {
    if start >= |l| || start > stop then [] else l[start..Min(stop + 1, |l|)]
  }

  /// `skip(start).take(limit)`.
  function Page<T>(s: seq<T>, start: nat, limit: nat): (r: seq<T>)
    ensures |r| <= limit
    ensures |r| == Min(start + limit, |s|) - Min(start, |s|)
    ensures forall i :: 0 <= i < |r| ==> start + i < |s| && r[i] == s[start + i]
  {
    s[Min(start, |s|)..Min(start + limit, |s|)]
  }

  /// Fetching `start` through `start + limit - 1` from the store yields
  /// the same rows as skipping `start` and taking `limit`.
  lemma LRangeIsPage<T>(l: seq<T>, start: nat, limit: nat)
    requires limit > 0
    ensures LRange(l, start, start + limit - 1) == Page(l, start, limit)
  {
  }

  /// The first `n` pages of size `limit`, concatenated.
  function Pages<T>(s: seq<T>, limit: nat, n: nat): seq<T>
  {
    if n == 0 then [] else Pages(s, limit, n - 1) + Page(s, (n - 1) * limit, limit)
  }

  /// Walking the pages in order visits every element once and in order.
  lemma {:induction false} PagesTile<T>(s: seq<T>, limit: nat, n: nat)
    ensures Pages(s, limit, n) == s[..Min(n * limit, |s|)]
  {
    if n > 0 {
      PagesTile(s, limit, n - 1);
      assert (n - 1) * limit + limit == n * limit;
      assert s[..Min((n - 1) * limit, |s|)] + s[Min((n - 1) * limit, |s|)..Min(n * limit, |s|)]
             == s[..Min(n * limit, |s|)];
    }
  }

  // ---------------------------------------------------------------------
  // Decoding and filtering
  // ---------------------------------------------------------------------

  /// `filter_map(... .ok())`: the rows that deserialize, in order.
  function Decoded(raw: seq<Option<Row>>): (r: seq<Row>)
    ensures |r| <= |raw|
    ensures forall x :: x in r <==> Some(x) in raw
  {
    if raw == [] then []
    else
      var rest := Decoded(raw[1..]);
      assert forall x :: Some(x) in raw <==> raw[0] == Some(x) || Some(x) in raw[1..];
      match raw[0]
      case Some(x) => [x] + rest
      case None => rest
  }

  /// Decoding keeps the order of the rows.
  lemma {:induction false} DecodedConcat(a: seq<Option<Row>>, b: seq<Option<Row>>)
    ensures Decoded(a + b) == Decoded(a) + Decoded(b)
  {
    if a != [] {
      assert (a + b)[0] == a[0];
      assert (a + b)[1..] == a[1..] + b;
      DecodedConcat(a[1..], b);
    } else {
      assert a + b == b;
    }
  }

  /// The date predicate: exit time within `[from, to]`, each bound
  /// optional and inclusive.
  predicate InRange(t: int, from: Option<int>, to: Option<int>)
  {
    (from.None? || from.value <= t) && (to.None? || t <= to.value)
  }

  function FilterByDate(rows: seq<Row>, from: Option<int>, to: Option<int>): (r: seq<Row>)
    ensures |r| <= |rows|
    ensures forall x :: x in r <==> x in rows && InRange(x.exitTime, from, to)
  {
    if rows == [] then []
    else
      var rest := FilterByDate(rows[1..], from, to);
      assert forall x :: x in rows <==> x == rows[0] || x in rows[1..];
      if InRange(rows[0].exitTime, from, to) then [rows[0]] + rest else rest
  }

  /// The date filter keeps the order of the rows.
  lemma {:induction false} FilterByDateConcat(a: seq<Row>, b: seq<Row>, from: Option<int>, to: Option<int>)
    ensures FilterByDate(a + b, from, to) == FilterByDate(a, from, to) + FilterByDate(b, from, to)
  {
    if a != [] {
      assert (a + b)[0] == a[0];
      assert (a + b)[1..] == a[1..] + b;
      FilterByDateConcat(a[1..], b, from, to);
    } else {
      assert a + b == b;
    }
  }

  /// Without bounds the filter keeps everything.
  lemma {:induction false} NoBoundsKeepsAll(rows: seq<Row>)
    ensures FilterByDate(rows, None, None) == rows
  {
    if rows != [] {
      NoBoundsKeepsAll(rows[1..]);
    }
  }

  /// A parsed optional date, or the error for the first unparseable one.
  function ParseOptional(s: Option<string>, parseDate: string -> Option<int>): (r: Result<Option<int>, ApiError>)
    ensures s.None? ==> r == Ok(None)
    ensures s.Some? && parseDate(s.value).Some? ==> r == Ok(Some(parseDate(s.value).value))
    ensures s.Some? && parseDate(s.value).None? ==> r == Err(InvalidInput(DateMessage(s.value)))
  {
    match s
    case None => Ok(None)
    case Some(text) =>
      match parseDate(text)
      case Some(t) => Ok(Some(t))
      case None => Err(InvalidInput(DateMessage(text)))
  }

  // ---------------------------------------------------------------------
  // The handler
  // ---------------------------------------------------------------------

  /// Index of the first row of page `page`.
  function Start(page: nat, limit: nat): nat
    requires page >= 1
  {
    (page - 1) * limit
  }

  /// The response once the query is valid and the store has answered.
  /// Without date filters, page `p` holds exactly the decodable rows stored
  /// at indexes `(p-1)*limit` through `(p-1)*limit + limit - 1`, and `total`
  /// counts only those; with a filter, `total` counts every decodable row in
  /// range and the page is the `p`-th slice of those rows.
  function Listing(stored: seq<Option<Row>>, from: Option<int>, to: Option<int>,
                   page: nat, limit: nat): (r: ClosedPositionsResponse)
    requires page >= 1 && 1 <= limit
    ensures r.page == page && r.limit == limit
    ensures |r.positions| <= limit
    ensures from.None? && to.None? ==>
              r.positions == Decoded(Page(stored, Start(page, limit), limit))
              && r.total == |r.positions|
    ensures from.Some? || to.Some? ==>
              r.total == |FilterByDate(Decoded(stored), from, to)|
              && r.positions == Page(FilterByDate(Decoded(stored), from, to), Start(page, limit), limit)
  {
    var filtering := from.Some? || to.Some?;
    var start := Start(page, limit);
    var raw := if filtering then stored else LRange(stored, start, start + limit - 1);
    var positions := FilterByDate(Decoded(raw), from, to);
    var paged := if filtering then Page(positions, start, limit) else positions;
    if filtering then
      ClosedPositionsResponse(paged, |positions|, page, limit)
    else
      NoBoundsKeepsAll(Decoded(raw));
      LRangeIsPage(stored, start, limit);
      ClosedPositionsResponse(paged, |positions|, page, limit)
  }

  /// `get_closed_positions` and `get_capitulation_closed_positions`, which
  /// differ only in the store list they read: `stored` is that list.
  function GetClosedPositions(params: PaginationParams, stored: seq<Option<Row>>, fetchOk: bool,
                              parseDate: string -> Option<int>): (r: Result<ClosedPositionsResponse, ApiError>)
    ensures params.page == 0 ==> r == Err(InvalidInput(PageMessage))
    ensures params.page > 0 && (params.limit == 0 || params.limit > MaxLimit)
            ==> r == Err(InvalidInput(LimitMessage))
    ensures r.Ok? ==> 1 <= params.page && 1 <= params.limit <= MaxLimit && fetchOk
    ensures r.Ok? ==> ParseOptional(params.fromDate, parseDate).Ok?
                      && ParseOptional(params.toDate, parseDate).Ok?
                      && r.value == Listing(stored, ParseOptional(params.fromDate, parseDate).value,
                                            ParseOptional(params.toDate, parseDate).value,
                                            params.page, params.limit)
    ensures r.Err? && r.error.RedisError? ==> !fetchOk
    ensures (1 <= params.page && 1 <= params.limit <= MaxLimit && fetchOk
             && ParseOptional(params.fromDate, parseDate).Ok?
             && ParseOptional(params.toDate, parseDate).Ok?) ==> r.Ok?
  {
    if params.page == 0 then Err(InvalidInput(PageMessage))
    else if params.limit == 0 || params.limit > 20 then Err(InvalidInput(LimitMessage))
    else
      match ParseOptional(params.fromDate, parseDate)
      case Err(e) => Err(e)
      case Ok(from) =>
        match ParseOptional(params.toDate, parseDate)
        case Err(e) => Err(e)
        case Ok(to) =>
          if !fetchOk then Err(RedisError(FetchMessage))
          else Ok(Listing(stored, from, to, params.page, params.limit))
  }

  /// An unparseable date is rejected as invalid input before the store is
  /// read.
  lemma BadDateRejected(params: PaginationParams, stored: seq<Option<Row>>, fetchOk: bool,
                        parseDate: string -> Option<int>)
    requires 1 <= params.page && 1 <= params.limit <= MaxLimit
    requires params.fromDate.Some? && parseDate(params.fromDate.value).None?
    ensures GetClosedPositions(params, stored, fetchOk, parseDate)
            == Err(InvalidInput(DateMessage(params.fromDate.value)))
  {
  }

  /// Rows dated exactly on either bound are kept.
  lemma BoundsInclusive(x: Row, from: int, to: int)
    requires from <= to
    requires x.exitTime == from || x.exitTime == to
    ensures FilterByDate([x], Some(from), Some(to)) == [x]
  {
  }
}
