/**
 * `StockAPI` (app/models/stock.py) as an object: its only state is the
 * `cache` dictionary, which `_get_cached_data` and `_cache_data` change in
 * place.  Each lookup method is proved against the pure flow of the same name
 * in QuoteCache, which states what the caller sees and what is cached.
 */
module Stock {
  import opened Results
  import opened Market
  import opened QuoteCache

  class StockApi {
    /** `self.cache`: key to (data, timestamp). */
    var cache: Cache

    /** Every entry holds the kind of data its key's namespace promises. */
    ghost predicate Valid()
      reads this
    {
      WellKinded(cache)
    }

    /** A new client starts with an empty cache. */
    constructor ()
      ensures Valid() && cache == map[]
    {
      cache := map[];
    }

    /** `_get_cached_data`: the entry's data when it is fresh; an expired entry is deleted. */
    method GetCachedData(key: string, now: int) returns (data: Option<CachedData>)
      requires Valid()
      modifies this
      ensures Valid()
      ensures data == Lookup(old(cache), key, now)
      ensures cache == AfterLookup(old(cache), key, now)
    {
      if key in cache {
        var slot := cache[key];
        if now - slot.storedAt < CacheDuration {
          return Some(slot.data);
        }
        cache := cache - {key};
      }
      return None;
    }

    /** `_cache_data`: the key holds the data stamped now, replacing any earlier entry. */
    method CacheData(key: string, data: CachedData, now: int)
      requires Valid() && FitsKey(key, data)
      modifies this
      ensures Valid()
      ensures cache == Stored(old(cache), key, data, now)
    {
      cache := cache[key := Slot(data, now)];
    }

    /** `get_stock_price` */
    method GetStockPrice(symbol: string, provider: Provider, now: int) returns (r: Result<Quote, ApiError>)
      requires Valid()
      modifies this
      ensures Valid()
      ensures Fetched(r, cache) == PriceQuery(old(cache), symbol, provider, now)
    {
      var key := PriceKey(symbol);
      var cached := GetCachedData(key, now);
      if cached.Some? {
        PriceKeyFits(symbol);
        return Ok(cached.value.quote);
      }
      r := QuoteFrom(symbol, provider.daily(symbol));
      if r.Ok? {
        PriceKeyFits(symbol);
        CacheData(key, QuoteData(r.value), now);
      }
    }

    /** `get_company_info`, with its conversion loop. */
    method GetCompanyInfo(symbol: string, provider: Provider, parseFloat: string -> Option<real>, now: int)
      returns (r: Result<map<string, InfoValue>, ApiError>)
      requires Valid()
      modifies this
      ensures Valid()
      ensures Fetched(r, cache) == InfoQuery(old(cache), symbol, provider, parseFloat, now)
    {
      var key := InfoKey(symbol);
      var cached := GetCachedData(key, now);
      if cached.Some? {
        InfoKeyFits(symbol);
        return Ok(cached.value.info);
      }
      match provider.overview(symbol)
      case NetworkFailure(reason) =>
        r := Err(RequestFailed(reason));
      case Unusable =>
        r := Err(Unavailable(InfoMessage(symbol)));
      case Payload(data) =>
        if data == map[] || "Symbol" !in data {
          r := Err(Unavailable(InfoMessage(symbol)));
        } else {
          var result := CoerceNumericFields(data, NumericFields(), parseFloat);
          InfoKeyFits(symbol);
          CacheData(key, InfoData(result), now);
          r := Ok(result);
        }
    }

    /** `get_historical_data`; the size is checked only after the cache. */
    method GetHistoricalData(symbol: string, provider: Provider, now: int, outputsize: string := "compact")
      returns (r: Result<History, ApiError>)
      requires Valid()
      modifies this
      ensures Valid()
      ensures Fetched(r, cache) == HistoryQuery(old(cache), symbol, outputsize, provider, now)
    {
      var key := HistoricalKey(symbol, outputsize);
      var cached := GetCachedData(key, now);
      if cached.Some? {
        HistoricalKeyFits(symbol, outputsize);
        return Ok(cached.value.history);
      }
      if outputsize != "compact" && outputsize != "full" {
        return Err(Unavailable(HistoryMessage(symbol)));
      }
      r := HistoryFrom(symbol, provider.dailySized(symbol, outputsize));
      if r.Ok? {
        HistoricalKeyFits(symbol, outputsize);
        CacheData(key, HistoryData(r.value), now);
      }
    }

    /**
     * `validate_symbol` as written: true when the price lookup succeeds, false
     * when it raises a RequestException or a ValueError; the IndexError of an
     * empty series is caught by neither and escapes.
     */
    method ValidateSymbol(symbol: string, provider: Provider, now: int) returns (r: Result<bool, ApiError>)
      requires Valid()
      modifies this
      ensures Valid()
      ensures var f := PriceQuery(old(cache), symbol, provider, now);
              r == Validation(f.result) && cache == f.cache
    {
      var price := GetStockPrice(symbol, provider, now);
      match price
      case Ok(_) =>
        r := Ok(true);
      case Err(e) =>
        if e.RequestFailed? || e.Unavailable? {
          r := Ok(false);
        } else {
          r := Err(e);
        }
    }

    /** `validate_symbol` as its documentation promises: false on every failure of the lookup. */
    method CheckSymbol(symbol: string, provider: Provider, now: int) returns (valid: bool)
      requires Valid()
      modifies this
      ensures Valid()
      ensures var f := PriceQuery(old(cache), symbol, provider, now);
              (valid <==> f.result.Ok?) && cache == f.cache
    {
      var price := GetStockPrice(symbol, provider, now);
      valid := price.Ok?;
    }
  }

  /**
   * What `validate_symbol` makes of the outcome of the price lookup.  Of the
   * failures the model represents, only the IndexError of an empty series
   * escapes its handler.
   */
  function Validation(price: Result<Quote, ApiError>): (r: Result<bool, ApiError>)
    ensures r == Ok(true) <==> price.Ok?
    ensures r == Ok(false) <==> price.Err? && (price.error.RequestFailed? || price.error.Unavailable?)
    ensures r.Err? <==> price == Err(EmptySeries)
  {
    match price
    case Ok(_) => Ok(true)
    case Err(e) => if e.RequestFailed? || e.Unavailable? then Ok(false) else Err(e)
  }

  /**
   * The discrepancy: for a symbol whose daily series is present but empty,
   * `validate_symbol` raises instead of answering false.
   */
  lemma ValidateSymbolRaisesOnEmptySeries(c: Cache, symbol: string, provider: Provider, now: int)
    requires WellKinded(c)
    requires Lookup(c, PriceKey(symbol), now).None?
    requires provider.daily(symbol) == Payload([])
    ensures Validation(PriceQuery(c, symbol, provider, now).result) == Err(EmptySeries)
  {
  }
}
