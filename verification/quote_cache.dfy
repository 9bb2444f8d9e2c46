/**
 * The in-memory cache of `StockAPI` (app/models/stock.py) as values: its
 * namespaced keys, the fifteen-minute freshness test, the read that evicts an
 * expired entry, and the cache-first flow of the three lookups as pure
 * functions from the old cache to a result and the new cache.
 */
module QuoteCache {
  import opened Results
  import opened Market

  /** Fifteen minutes; all times in the model are in microseconds, the resolution of `datetime`. */
  const CacheDuration: int := 15 * 60 * 1000000

  /** What the cache holds: one of the three dictionaries the lookups return. */
  datatype CachedData = QuoteData(quote: Quote) | InfoData(info: map<string, InfoValue>) | HistoryData(history: History)

  /** The `(data, timestamp)` pair stored under a key. */
  datatype Slot = Slot(data: CachedData, storedAt: int)

  type Cache = map<string, Slot>

  function PriceKey(symbol: string): string { "price_" + symbol }
  function InfoKey(symbol: string): string { "info_" + symbol }
  function HistoricalKey(symbol: string, outputsize: string): string { "historical_" + symbol + "_" + outputsize }

  predicate HasPrefix(prefix: string, key: string)
  {
    |prefix| <= |key| && key[..|prefix|] == prefix
  }

  /** The kind of data a key's namespace promises. */
  predicate FitsKey(key: string, data: CachedData)
  {
    && (HasPrefix("price_", key) ==> data.QuoteData?)
    && (HasPrefix("info_", key) ==> data.InfoData?)
    && (HasPrefix("historical_", key) ==> data.HistoryData?)
  }

  /** Every entry holds the kind of data its key's namespace promises. */
  predicate WellKinded(c: Cache)
  {
    forall key :: key in c ==> FitsKey(key, c[key].data)
  }

  /** `datetime.now() - timestamp < self.cache_duration` */
  predicate IsFresh(slot: Slot, now: int)
  {
    now - slot.storedAt < CacheDuration
  }

  /** The value `_get_cached_data` returns. */
  function Lookup(c: Cache, key: string, now: int): (r: Option<CachedData>)
    ensures r.Some? <==> key in c && IsFresh(c[key], now)
    ensures r.Some? ==> r.value == c[key].data
  {
    if key in c && IsFresh(c[key], now) then Some(c[key].data) else None
  }

  /** The cache after `_get_cached_data`: an expired entry under the key is deleted. */
  function AfterLookup(c: Cache, key: string, now: int): Cache
  {
    if key in c && !IsFresh(c[key], now) then c - {key} else c
  }

  /** The cache after `_cache_data`: the key now holds the data, stamped now. */
  function Stored(c: Cache, key: string, data: CachedData, now: int): Cache
  {
    c[key := Slot(data, now)]
  }

  /** Two caches hold the same entry (or none) under a key. */
  predicate Agrees(c: Cache, d: Cache, key: string)
  {
    (key in c <==> key in d) && (key in c ==> c[key] == d[key])
  }

  lemma LookupEvictsOnlyExpired(c: Cache, key: string, now: int)
    ensures Lookup(c, key, now).None? ==> key !in AfterLookup(c, key, now)
    ensures Lookup(c, key, now).Some? ==> AfterLookup(c, key, now) == c
    ensures forall k :: k != key ==> Agrees(AfterLookup(c, key, now), c, k)
  {
  }

  lemma StoredThenLookedUp(c: Cache, key: string, data: CachedData, now: int, later: int)
    requires later - now < CacheDuration
    ensures Lookup(Stored(c, key, data, now), key, later) == Some(data)
    ensures AfterLookup(Stored(c, key, data, now), key, later) == Stored(c, key, data, now)
  {
  }

  lemma StoredOverwrites(c: Cache, key: string, d1: CachedData, d2: CachedData, t1: int, t2: int)
    ensures Stored(Stored(c, key, d1, t1), key, d2, t2) == Stored(c, key, d2, t2)
  {
  }

  lemma {:induction false} KeyNamespacesDisjoint(s: string, t: string, size: string)
    ensures PriceKey(s) != InfoKey(t)
    ensures PriceKey(s) != HistoricalKey(t, size)
    ensures InfoKey(s) != HistoricalKey(t, size)
  {
    assert PriceKey(s)[0] == 'p' && InfoKey(t)[0] == 'i' && HistoricalKey(t, size)[0] == 'h';
    assert InfoKey(s)[0] == 'i';
  }

  lemma PriceAndInfoKeysInjective(s: string, t: string)
    ensures PriceKey(s) == PriceKey(t) ==> s == t
    ensures InfoKey(s) == InfoKey(t) ==> s == t
  {
    if PriceKey(s) == PriceKey(t) {
      assert s == PriceKey(s)[6..] && t == PriceKey(t)[6..];
    }
    if InfoKey(s) == InfoKey(t) {
      assert s == InfoKey(s)[5..] && t == InfoKey(t)[5..];
    }
  }

  predicate ValidOutputSize(outputsize: string)
  {
    outputsize == "compact" || outputsize == "full"
  }

  /** For the two sizes the endpoint accepts, a history key names one (symbol, size) pair. */
  lemma HistoricalKeyInjective(s: string, z: string, t: string, w: string)
    requires ValidOutputSize(z) && ValidOutputSize(w)
    requires HistoricalKey(s, z) == HistoricalKey(t, w)
    ensures s == t && z == w
  {
    var k := HistoricalKey(s, z);
    assert k[|k| - 1] == z[|z| - 1] && k[|k| - 1] == w[|w| - 1];
    assert z == w;
    assert s == k[11..|k| - 1 - |z|] && t == k[11..|k| - 1 - |w|];
  }

  /**
   * The history key is not injective in general: the lookup for an invalid
   * size can land on the entry of another symbol whose name holds '_'.
   */
  lemma HistoricalKeyCollision()
    ensures HistoricalKey("A_B", "compact") == HistoricalKey("A", "B_compact")
    ensures !ValidOutputSize("B_compact")
  {
  }

  /** A price key carries the "price_" prefix, so it may hold a quote and nothing else. */
  lemma PriceKeyFits(s: string)
    ensures HasPrefix("price_", PriceKey(s))
    ensures !HasPrefix("info_", PriceKey(s)) && !HasPrefix("historical_", PriceKey(s))
  {
    var k := PriceKey(s);
    assert k[..6] == "price_";
    assert k[0] == 'p';
  }

  /** An info key carries the "info_" prefix, so it may hold an overview and nothing else. */
  lemma InfoKeyFits(s: string)
    ensures HasPrefix("info_", InfoKey(s))
    ensures !HasPrefix("price_", InfoKey(s)) && !HasPrefix("historical_", InfoKey(s))
  {
    var k := InfoKey(s);
    assert k[..5] == "info_";
    assert k[0] == 'i';
  }

  /** A history key carries the "historical_" prefix, so it may hold a history and nothing else. */
  lemma HistoricalKeyFits(s: string, z: string)
    ensures HasPrefix("historical_", HistoricalKey(s, z))
    ensures !HasPrefix("price_", HistoricalKey(s, z)) && !HasPrefix("info_", HistoricalKey(s, z))
  {
    var k := HistoricalKey(s, z);
    assert k[..11] == "historical_";
    assert k[0] == 'h';
  }

  /** A lookup's result, and the cache it leaves behind. */
  datatype Fetched<+T> = Fetched(result: Result<T, ApiError>, cache: Cache)

  /**
   * `get_stock_price`: a fresh entry under "price_<symbol>" is returned as it
   * is, without asking the provider; otherwise the provider's latest day is
   * returned and, when it could be read, cached.
   */
  function PriceQuery(c: Cache, symbol: string, provider: Provider, now: int): (f: Fetched<Quote>)
    requires WellKinded(c)
    ensures WellKinded(f.cache)
    ensures Lookup(c, PriceKey(symbol), now).Some? ==> f == Fetched(Ok(c[PriceKey(symbol)].data.quote), c)
    ensures Lookup(c, PriceKey(symbol), now).None? ==> f.result == QuoteFrom(symbol, provider.daily(symbol))
    ensures f.result.Ok? ==> Lookup(f.cache, PriceKey(symbol), now) == Some(QuoteData(f.result.value))
    ensures f.result.Err? ==> PriceKey(symbol) !in f.cache
  {
    var key := PriceKey(symbol);
    PriceKeyFits(symbol);
    match Lookup(c, key, now)
    case Some(data) => Fetched(Ok(data.quote), c)
    case None =>
      var c1 := AfterLookup(c, key, now);
      var r := QuoteFrom(symbol, provider.daily(symbol));
      if r.Ok? then
        Fetched(r, Stored(c1, key, QuoteData(r.value), now))
      else
        Fetched(r, c1)
  }

  /**
   * Once a price has been fetched, a second lookup within the time to live
   * returns the same quote and leaves the cache alone, whatever the provider
   * would now answer.
   */
  lemma SecondPriceQueryHitsCache(c: Cache, symbol: string, provider: Provider, now: int, later: int, provider2: Provider)
    requires WellKinded(c)
    requires Lookup(c, PriceKey(symbol), now).None?
    requires PriceQuery(c, symbol, provider, now).result.Ok?
    requires later - now < CacheDuration
    ensures var first := PriceQuery(c, symbol, provider, now);
            PriceQuery(first.cache, symbol, provider2, later) == first
  {
    var first := PriceQuery(c, symbol, provider, now);
    assert first.cache[PriceKey(symbol)] == Slot(QuoteData(first.result.value), now);
  }

  /** A price lookup leaves every other key of the cache as it was. */
  lemma PriceQueryFrame(c: Cache, symbol: string, provider: Provider, now: int, k: string)
    requires WellKinded(c) && k != PriceKey(symbol)
    ensures Agrees(PriceQuery(c, symbol, provider, now).cache, c, k)
  {
  }

  /** The price lookup of a symbol depends only on the cache entry under its own key. */
  lemma PriceQueryIsLocal(c: Cache, d: Cache, symbol: string, provider: Provider, now: int)
    requires WellKinded(c) && WellKinded(d)
    requires Agrees(c, d, PriceKey(symbol))
    ensures PriceQuery(c, symbol, provider, now).result == PriceQuery(d, symbol, provider, now).result
    ensures Agrees(PriceQuery(c, symbol, provider, now).cache, PriceQuery(d, symbol, provider, now).cache, PriceKey(symbol))
  {
  }

  /** `get_company_info`: the same cache-first flow under "info_<symbol>". */
  function InfoQuery(c: Cache, symbol: string, provider: Provider, parseFloat: string -> Option<real>, now: int)
    : (f: Fetched<map<string, InfoValue>>)
    requires WellKinded(c)
    ensures WellKinded(f.cache)
    ensures Lookup(c, InfoKey(symbol), now).Some? ==> f == Fetched(Ok(c[InfoKey(symbol)].data.info), c)
    ensures Lookup(c, InfoKey(symbol), now).None? ==> f.result == InfoFrom(symbol, provider.overview(symbol), parseFloat)
    ensures f.result.Ok? ==> Lookup(f.cache, InfoKey(symbol), now) == Some(InfoData(f.result.value))
    ensures f.result.Err? ==> InfoKey(symbol) !in f.cache
  {
    var key := InfoKey(symbol);
    InfoKeyFits(symbol);
    match Lookup(c, key, now)
    case Some(data) => Fetched(Ok(data.info), c)
    case None =>
      var c1 := AfterLookup(c, key, now);
      var r := InfoFrom(symbol, provider.overview(symbol), parseFloat);
      if r.Ok? then
        Fetched(r, Stored(c1, key, InfoData(r.value), now))
      else
        Fetched(r, c1)
  }

  /** An overview lookup leaves every other key of the cache as it was. */
  lemma InfoQueryFrame(c: Cache, symbol: string, provider: Provider, parseFloat: string -> Option<real>, now: int,
                       k: string)
    requires WellKinded(c) && k != InfoKey(symbol)
    ensures Agrees(InfoQuery(c, symbol, provider, parseFloat, now).cache, c, k)
  {
  }

  /**
   * `get_historical_data`: the cache is consulted under
   * "historical_<symbol>_<outputsize>" before the size is checked; a size
   * other than "compact" or "full" then fails without asking the provider.
   */
  function HistoryQuery(c: Cache, symbol: string, outputsize: string, provider: Provider, now: int)
    : (f: Fetched<History>)
    requires WellKinded(c)
    ensures WellKinded(f.cache)
    ensures Lookup(c, HistoricalKey(symbol, outputsize), now).Some? ==>
      f == Fetched(Ok(c[HistoricalKey(symbol, outputsize)].data.history), c)
    ensures f.result.Ok? ==> Lookup(f.cache, HistoricalKey(symbol, outputsize), now) == Some(HistoryData(f.result.value))
    ensures f.result.Err? ==> HistoricalKey(symbol, outputsize) !in f.cache
    ensures forall k :: k != HistoricalKey(symbol, outputsize) ==> Agrees(f.cache, c, k)
  {
    var key := HistoricalKey(symbol, outputsize);
    HistoricalKeyFits(symbol, outputsize);
    match Lookup(c, key, now)
    case Some(data) => Fetched(Ok(data.history), c)
    case None =>
      var c1 := AfterLookup(c, key, now);
      if !ValidOutputSize(outputsize) then
        Fetched(Err(Unavailable(HistoryMessage(symbol))), c1)
      else
        var r := HistoryFrom(symbol, provider.dailySized(symbol, outputsize));
        if r.Ok? then
          Fetched(r, Stored(c1, key, HistoryData(r.value), now))
        else
          Fetched(r, c1)
  }

  /**
   * Without a cached entry, an invalid size fails with "Unable to get
   * historical data for <symbol>", caches nothing and does not consult the
   * provider; with a valid size the provider's answer decides.
   */
  lemma HistoryQueryChecksSizeAfterCache(c: Cache, symbol: string, outputsize: string, provider: Provider, now: int)
    requires WellKinded(c)
    requires Lookup(c, HistoricalKey(symbol, outputsize), now).None?
    ensures !ValidOutputSize(outputsize) ==>
      HistoryQuery(c, symbol, outputsize, provider, now)
        == Fetched(Err(Unavailable(HistoryMessage(symbol))), AfterLookup(c, HistoricalKey(symbol, outputsize), now))
    ensures ValidOutputSize(outputsize) ==>
      HistoryQuery(c, symbol, outputsize, provider, now).result == HistoryFrom(symbol, provider.dailySized(symbol, outputsize))
  {
  }
}
