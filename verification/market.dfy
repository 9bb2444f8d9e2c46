/**
 * The market-data side of `StockAPI` (app/models/stock.py): what the Alpha
 * Vantage endpoints can answer, and how an answer becomes a quote, a company
 * overview or a price history.  The HTTP call and JSON decoding are an oracle,
 * `Provider`; everything after the decoded answer is modelled.
 */
module Market {
  import opened Results
  import opened StringOrder

  /** The numeric fields of one day ("1. open" ... "5. volume"). */
  datatype Bar = Bar(open: real, high: real, low: real, close: real, volume: int)

  /**
   * One member of the "Time Series (Daily)" object: its date key and its
   * fields, or None when a field is missing or is text that is not a number
   * (the KeyError or ValueError the conversion would raise).  A day that is
   * not a JSON object, or a field that is `null`, makes the conversion raise
   * a TypeError instead; such days are not represented.
   */
  datatype DayEntry = DayEntry(date: string, bar: Option<Bar>)

  predicate DistinctDates(days: seq<DayEntry>)
  {
    forall i, j :: 0 <= i < j < |days| ==> days[i].date != days[j].date
  }

  /** A JSON object: its keys are distinct and its members keep their order. */
  type DailySeries = days: seq<DayEntry> | DistinctDates(days) witness []

  /**
   * What one request to the provider yields:
   * - the request raised a requests.RequestException; a body that is not JSON
   *   is one too, since `response.json()` raises requests' JSONDecodeError,
   *   a RequestException (requests 2.27 and later);
   * - the decoded body is one the code rejects with its own ValueError before
   *   reading it (for the daily endpoints, a JSON object, list or string
   *   without a "Time Series (Daily)" member);
   * - or the usable payload.
   * A `null` or numeric body, a list or string that contains "Time Series
   * (Daily)", or a series that is not an object, makes the code raise a
   * TypeError or an AttributeError; such bodies are not represented.  For the
   * overview, a list containing "Symbol" passes the check and is returned as
   * a list, and a string containing it raises an AttributeError; neither is
   * represented either.
   */
  datatype Response<+T> = NetworkFailure(reason: string) | Unusable | Payload(body: T)

  /** The three Alpha Vantage calls, as an oracle. */
  datatype Provider = Provider(
    daily: string -> Response<DailySeries>,              // TIME_SERIES_DAILY
    dailySized: (string, string) -> Response<DailySeries>, // TIME_SERIES_DAILY with outputsize
    overview: string -> Response<map<string, string>>)   // OVERVIEW

  /** The exceptions a `StockAPI` call lets escape. */
  datatype ApiError =
    | RequestFailed(reason: string) // a RequestException, re-raised unchanged
    | Unavailable(message: string)  // the ValueError("Unable to get ... for <symbol>")
    | EmptySeries                   // the IndexError of `sorted([])[-1]`, caught by nothing

  function PriceMessage(symbol: string): string { "Unable to get price for " + symbol }
  function InfoMessage(symbol: string): string { "Unable to get company info for " + symbol }
  function HistoryMessage(symbol: string): string { "Unable to get historical data for " + symbol }

  /** The dictionary `get_stock_price` returns. */
  datatype Quote = Quote(symbol: string, date: string, open: real, high: real, low: real, close: real, volume: int)

  function BarOf(q: Quote): Bar
  {
    Bar(q.open, q.high, q.low, q.close, q.volume)
  }

  function Dates(days: seq<DayEntry>): (ds: seq<string>)
    ensures |ds| == |days| && forall i :: 0 <= i < |days| ==> ds[i] == days[i].date
  {
    seq(|days|, i requires 0 <= i < |days| => days[i].date)
  }

  /**
   * The quote of the most recent day of a daily-series answer.  A request
   * failure passes through unchanged, an unusable body or an unreadable latest
   * day becomes "Unable to get price for <symbol>", and an empty series raises
   * the uncaught IndexError.
   */
  function QuoteFrom(symbol: string, response: Response<DailySeries>): (r: Result<Quote, ApiError>)
    ensures response.NetworkFailure? ==> r == Err(RequestFailed(response.reason))
    ensures response.Unusable? ==> r == Err(Unavailable(PriceMessage(symbol)))
    ensures response.Payload? && response.body == [] ==> r == Err(EmptySeries)
    ensures response.Payload? && response.body != [] ==> r.Ok? || r == Err(Unavailable(PriceMessage(symbol)))
    ensures r.Ok? ==> response.Payload? && r.value.symbol == symbol
  {
    match response
    case NetworkFailure(reason) => Err(RequestFailed(reason))
    case Unusable => Err(Unavailable(PriceMessage(symbol)))
    case Payload(days) =>
      if |days| == 0 then Err(EmptySeries)
      else
        var i := GreatestIndex(Dates(days));
        match days[i].bar
        case None => Err(Unavailable(PriceMessage(symbol)))
        case Some(b) => Ok(Quote(symbol, days[i].date, b.open, b.high, b.low, b.close, b.volume))
  }

  /**
   * A quote read from a series is the series' latest day: a day of the series
   * with exactly the quote's fields, whose date no other date exceeds.
   */
  lemma QuoteFromIsLatestDay(symbol: string, response: Response<DailySeries>)
    requires QuoteFrom(symbol, response).Ok?
    ensures var q := QuoteFrom(symbol, response).value;
            && DayEntry(q.date, Some(BarOf(q))) in response.body
            && forall j :: 0 <= j < |response.body| ==> LessEq(response.body[j].date, q.date)
  {
    var i := GreatestIndex(Dates(response.body));
    assert response.body[i] == DayEntry(QuoteFrom(symbol, response).value.date, Some(BarOf(QuoteFrom(symbol, response).value)));
  }

  /**
   * The other direction: when day `j` is the latest day of a series, the
   * lookup succeeds exactly when that day can be read, and the quote is then
   * that day's date and fields.
   */
  lemma QuoteFromReadsLatestDay(symbol: string, response: Response<DailySeries>, j: nat)
    requires response.Payload? && j < |response.body|
    requires forall k :: 0 <= k < |response.body| ==> LessEq(response.body[k].date, response.body[j].date)
    ensures QuoteFrom(symbol, response).Ok? <==> response.body[j].bar.Some?
    ensures QuoteFrom(symbol, response).Ok? ==>
      QuoteFrom(symbol, response).value
        == Quote(symbol, response.body[j].date, response.body[j].bar.value.open, response.body[j].bar.value.high,
                 response.body[j].bar.value.low, response.body[j].bar.value.close, response.body[j].bar.value.volume)
  {
    var ds := Dates(response.body);
    GreatestIsUnique(ds, GreatestIndex(ds), j);
  }

  /** One element of the "data" list of `get_historical_data`. */
  datatype DatedBar = DatedBar(date: string, bar: Bar)

  /** The dictionary `get_historical_data` returns. */
  datatype History = History(symbol: string, data: seq<DatedBar>)

  /**
   * The list comprehension over `time_series.items()`: every day in the
   * object's order, or failure as soon as one day cannot be read.
   */
  function ParseDays(days: seq<DayEntry>): (r: Option<seq<DatedBar>>)
    ensures r.Some? <==> forall i :: 0 <= i < |days| ==> days[i].bar.Some?
    ensures r.Some? ==> |r.value| == |days|
    ensures r.Some? ==> forall i :: 0 <= i < |days| ==> r.value[i] == DatedBar(days[i].date, days[i].bar.value)
  {
    if days == [] then Some([])
    else
      var rest := ParseDays(days[1..]);
      if days[0].bar.None? || rest.None? then None
      else Some([DatedBar(days[0].date, days[0].bar.value)] + rest.value)
  }

  /**
   * The history of a daily-series answer; an empty series is an empty history.
   * A request failure passes through unchanged and an unusable body becomes
   * "Unable to get historical data for <symbol>".
   */
  function HistoryFrom(symbol: string, response: Response<DailySeries>): (r: Result<History, ApiError>)
    ensures response.NetworkFailure? ==> r == Err(RequestFailed(response.reason))
    ensures response.Unusable? ==> r == Err(Unavailable(HistoryMessage(symbol)))
    ensures r.Ok? ==> response.Payload? && r.value.symbol == symbol
  {
    match response
    case NetworkFailure(reason) => Err(RequestFailed(reason))
    case Unusable => Err(Unavailable(HistoryMessage(symbol)))
    case Payload(days) =>
      match ParseDays(days)
      case None => Err(Unavailable(HistoryMessage(symbol)))
      case Some(bars) => Ok(History(symbol, bars))
  }

  lemma HistoryFromKeepsEveryDay(symbol: string, response: Response<DailySeries>)
    requires response.Payload?
    ensures HistoryFrom(symbol, response).Ok? <==> forall i :: 0 <= i < |response.body| ==> response.body[i].bar.Some?
    ensures HistoryFrom(symbol, response).Ok? ==>
      var h := HistoryFrom(symbol, response).value;
      && h.symbol == symbol
      && |h.data| == |response.body|
      && forall i :: 0 <= i < |h.data| ==> h.data[i].date == response.body[i].date && Some(h.data[i].bar) == response.body[i].bar
    ensures HistoryFrom(symbol, response).Err? ==> HistoryFrom(symbol, response) == Err(Unavailable(HistoryMessage(symbol)))
  {
  }

  /** A value of the company-overview dictionary: the JSON text, or a number after coercion. */
  datatype InfoValue = Text(text: string) | Number(number: real)

  /** The fields `get_company_info` tries to convert with `float`. */
  function NumericFields(): seq<string>
  {
    [
      "MarketCapitalization", "EBITDA", "PERatio", "PEGRatio",
      "BookValue", "DividendPerShare", "DividendYield", "EPS",
      "RevenuePerShareTTM", "ProfitMargin", "OperatingMarginTTM",
      "ReturnOnAssetsTTM", "ReturnOnEquityTTM", "RevenueTTM",
      "GrossProfitTTM", "DilutedEPSTTM", "QuarterlyEarningsGrowthYOY",
      "QuarterlyRevenueGrowthYOY", "AnalystTargetPrice", "TrailingPE",
      "ForwardPE", "PriceToSalesRatioTTM", "PriceToBookRatio",
      "EVToRevenue", "EVToEBITDA", "Beta", "52WeekHigh", "52WeekLow",
      "50DayMovingAverage", "200DayMovingAverage", "SharesOutstanding"]
  }

  /** Python truthiness of a field value. */
  predicate Truthy(v: InfoValue)
  {
    match v
    case Text(t) => t != ""
    case Number(x) => x != 0.0
  }

  /** `float(v)`, with the parsing of text left to the oracle `parseFloat`. */
  function AsFloat(v: InfoValue, parseFloat: string -> Option<real>): Option<real>
  {
    match v
    case Text(t) => parseFloat(t)
    case Number(x) => Some(x)
  }

  /** One step of the conversion loop: a truthy, convertible value becomes a number. */
  function Coerce(v: InfoValue, parseFloat: string -> Option<real>): InfoValue
  {
    if Truthy(v) && AsFloat(v, parseFloat).Some? then Number(AsFloat(v, parseFloat).value) else v
  }

  lemma CoerceIdempotent(v: InfoValue, parseFloat: string -> Option<real>)
    ensures Coerce(Coerce(v, parseFloat), parseFloat) == Coerce(v, parseFloat)
  {
  }

  /** The overview dictionary after the conversion loop over `fields`. */
  function CoercedInfo(data: map<string, string>, fields: seq<string>, parseFloat: string -> Option<real>)
    : map<string, InfoValue>
  {
    map k | k in data :: if k in fields then Coerce(Text(data[k]), parseFloat) else Text(data[k])
  }

  /**
   * The loop of `get_company_info` that rewrites `result[field]` in place for
   * every numeric field that is present, non-empty and convertible; a value
   * `float` rejects is left as it was.  The source runs it over NumericFields().
   */
  method CoerceNumericFields(data: map<string, string>, fields: seq<string>, parseFloat: string -> Option<real>)
    returns (result: map<string, InfoValue>)
    ensures result == CoercedInfo(data, fields, parseFloat)
    ensures result.Keys == data.Keys
    ensures forall k :: k in data && k !in fields ==> result[k] == Text(data[k])
    ensures forall k :: k in data && k in fields ==>
      result[k] == if data[k] != "" && parseFloat(data[k]).Some? then Number(parseFloat(data[k]).value) else Text(data[k])
  {
    result := map k | k in data :: Text(data[k]);
    for i := 0 to |fields|
      invariant result.Keys == data.Keys
      invariant forall k :: k in result ==>
        result[k] == if k in fields[..i] then Coerce(Text(data[k]), parseFloat) else Text(data[k])
    {
      var field := fields[i];
      assert fields[..i + 1] == fields[..i] + [field];
      if field in result && Truthy(result[field]) {
        var converted := AsFloat(result[field], parseFloat);
        if converted.Some? {
          CoerceIdempotent(Text(data[field]), parseFloat);
          result := result[field := Number(converted.value)];
        }
      }
    }
    assert fields[..|fields|] == fields;
  }

  /**
   * The overview of a company: a request failure passes through, an unusable
   * or empty body or one without "Symbol" becomes "Unable to get company info
   * for <symbol>", anything else is the coerced dictionary.
   */
  function InfoFrom(symbol: string, response: Response<map<string, string>>, parseFloat: string -> Option<real>)
    : (r: Result<map<string, InfoValue>, ApiError>)
    ensures r.Ok? <==> response.Payload? && "Symbol" in response.body
    ensures r.Ok? ==> r.value == CoercedInfo(response.body, NumericFields(), parseFloat)
    ensures response.NetworkFailure? ==> r == Err(RequestFailed(response.reason))
    ensures r.Err? && !response.NetworkFailure? ==> r == Err(Unavailable(InfoMessage(symbol)))
  {
    match response
    case NetworkFailure(reason) => Err(RequestFailed(reason))
    case Unusable => Err(Unavailable(InfoMessage(symbol)))
    case Payload(data) =>
      if data == map[] || "Symbol" !in data then Err(Unavailable(InfoMessage(symbol)))
      else Ok(CoercedInfo(data, NumericFields(), parseFloat))
  }

  /** The overview keeps every key of the body: the conversion only rewrites values. */
  lemma InfoFromKeepsEveryKey(symbol: string, response: Response<map<string, string>>,
                              parseFloat: string -> Option<real>)
    requires InfoFrom(symbol, response, parseFloat).Ok?
    ensures InfoFrom(symbol, response, parseFloat).value.Keys == response.body.Keys
  {
  }
}
