/** The quote client (yahoo/yahoo.go): the ticker query parameter, the
    fold of the response records into a symbol-keyed map, and FetchStocks,
    which answers from the disk cache when it may and otherwise fetches and
    saves. The HTTP exchange and the JSON decoding of the response are the
    `Http.Remote` endpoint; the cache's JSON encoding and decoding are
    parameters. */
module Yahoo {
  import opened Base
  import Strings
  import Collections
  import Http
  import Cached
  import Portfolio

  /** The fields of a quote record that the core reads; the provider's
      other informational fields are not modelled. */
  datatype Quote = Quote(
    symbol: string,
    shortName: string,
    longName: string,
    currency: string,
    regularMarketPrice: real,
    bid: real)

  type Results = map<string, Quote>

  /** The zero value of a quote record. */
  const ZeroQuote: Quote := Quote("", "", "", "", 0.0, 0.0)

  const QuotesEndpoint: string := "https://yahoo-finance15.p.rapidapi.com/api/v1/markets/stock/quotes?ticker="

  const CacheApplication: string := "kurse"
  const CacheName: string := "yahoo"
  const MaxAge: int := 24 * Cached.Hour

  function QuoteSymbol(q: Quote): string {
    q.symbol
  }

  /** sliceOfSymbolsToQueryParam: copies the symbols into a slice of
      exactly their number, then joins them with commas. */
  method SliceOfSymbolsToQueryParam(symbols: seq<Portfolio.Symbol>) returns (ticker: string)
    ensures ticker == Strings.Join(symbols, ",")
    ensures |symbols| == 0 ==> ticker == ""
  {
    var params := new string[|symbols|];
    for idx := 0 to |symbols|
      invariant params[..idx] == symbols[..idx]
    {
      params[idx] := symbols[idx];
    }
    assert params[..] == symbols;
    ticker := Strings.Join(params[..], ",");
  }

  /** The ticker parameter names each symbol in order: splitting it at the
      commas gives the symbols back when none contains a comma. */
  lemma TickerListsSymbols(symbols: seq<Portfolio.Symbol>)
    requires |symbols| > 0
    requires Strings.NoSeparator(symbols, ',')
    ensures Strings.Split(Strings.Join(symbols, ","), ',') == symbols
  {
    Strings.SplitJoin(symbols, ',');
  }

  /** `for _, result := range body { results[result.Symbol] = result }`:
      every record is stored under its own symbol, the last record of a
      repeated symbol winning; entries already present and not named by a
      record stay. */
  method StoreResults(results: Results, body: seq<Quote>) returns (updated: Results)
    ensures updated == results + Collections.IndexBy(body, QuoteSymbol)
    ensures updated.Keys == results.Keys + Collections.Keys(body, QuoteSymbol)
  {
    updated := results;
    for i := 0 to |body|
      invariant updated == results + Collections.IndexBy(body[..i], QuoteSymbol)
    {
      assert body[..i + 1][..i] == body[..i];
      UpdateUnion(results, Collections.IndexBy(body[..i], QuoteSymbol), body[i].symbol, body[i]);
      updated := updated[body[i].symbol := body[i]];
    }
    assert body[..|body|] == body;
  }

  lemma UpdateUnion(base: Results, added: Results, k: string, q: Quote)
    ensures (base + added)[k := q] == base + added[k := q]
  {
  }

  /** The request fetchStocks sends: the ticker appended to the endpoint,
      with the key and host headers. */
  function QuotesRequest(host: string, key: string, symbols: seq<Portfolio.Symbol>): (r: Http.Request)
    ensures |QuotesEndpoint| <= |r.url| && r.url[..|QuotesEndpoint|] == QuotesEndpoint
    ensures r.url[|QuotesEndpoint|..] == Strings.Join(symbols, ",")
  {
    Http.Request(QuotesEndpoint + Strings.Join(symbols, ","),
                 [("X-RapidAPI-Key", key), ("X-RapidAPI-Host", host)])
  }

  /** What fetchStocks returns for an answer: the error, or the records
      keyed by symbol. */
  function Answer(served: Result<seq<Quote>>): (r: Result<Results>)
    ensures r.Err? <==> served.Err?
    ensures r.Err? ==> r.error == served.error
    ensures r.Ok? ==> forall k :: k in r.value ==> r.value[k].symbol == k && r.value[k] in served.value
    ensures r.Ok? ==> forall i :: 0 <= i < |served.value| ==> served.value[i].symbol in r.value
  {
    match served
    case Err(e) => Err(e)
    case Ok(body) =>
      var m := Collections.IndexBy(body, QuoteSymbol);
      assert forall i :: 0 <= i < |body| ==> QuoteSymbol(body[i]) in Collections.Keys(body, QuoteSymbol);
      Ok(m)
  }

  /** Client.fetchStocks: one batched request for all symbols; a request,
      transport or decode error is returned as it is, with no results. */
  method ClientFetchStocks(host: string, key: string, symbols: seq<Portfolio.Symbol>, api: Http.Remote<seq<Quote>>)
    returns (r: Result<Results>)
    modifies api`requests
    ensures api.requests == old(api.requests) + [QuotesRequest(host, key, symbols)]
    ensures r == Answer(api.serve(QuotesRequest(host, key, symbols)))
  {
    var ticker := SliceOfSymbolsToQueryParam(symbols);
    var rs := api.Do(Http.Request(QuotesEndpoint + ticker, [("X-RapidAPI-Key", key), ("X-RapidAPI-Host", host)]));
    if rs.Err? {
      return Err(rs.error);
    }
    var results := StoreResults(map[], rs.value);
    assert results == Collections.IndexBy(rs.value, QuoteSymbol);
    r := Ok(results);
  }

  /** FetchStocks: with `useCache` and a cache entry at most 24 hours old,
      the decoded entry and no request; otherwise one request, and on
      success the results are saved to the cache and returned unchanged.
      A decode or fetch error (fatal in the program) is returned. The cache
      is checked at time `now`; the file is written after the request
      returns, at `savedAt`. */
  method FetchStocks(
    symbols: seq<Portfolio.Symbol>, secrets: Portfolio.Secrets, useCache: bool,
    cache: Cached.Cache, api: Http.Remote<seq<Quote>>, now: int, savedAt: int,
    decode: Bytes -> Result<Results>, encode: Results -> Bytes)
    returns (r: Result<Results>)
    requires now <= savedAt
    modifies cache`files, cache`dirs, api`requests
    ensures var path := Cached.CacheFile(cache.cacheDir, CacheApplication, CacheName);
      var hit := Cached.Lookup(old(cache.files), path, MaxAge, now);
      if useCache && hit.Some? then
        && r == decode(hit.value)
        && api.requests == old(api.requests)
        && cache.files == old(cache.files)
      else
        var rq := QuotesRequest(secrets.yahooHost, secrets.yahooKey, symbols);
        && api.requests == old(api.requests) + [rq]
        && r == Answer(api.serve(rq))
        && cache.files == (if r.Ok? then old(cache.files)[path := Cached.FileInfo(encode(r.value), savedAt)] else old(cache.files))
    ensures cache.dirs == old(cache.dirs) + (if useCache || r.Ok? then {Cached.AppDir(cache.cacheDir, CacheApplication)} else {})
  {
    if useCache {
      var cached := cache.Load(CacheApplication, CacheName, MaxAge, now, decode);
      if cached.Some? {
        return cached.value;
      }
    }
    r := ClientFetchStocks(secrets.yahooHost, secrets.yahooKey, symbols, api);
    if r.Err? {
      return;
    }
    cache.Save(CacheApplication, CacheName, r.value, encode, savedAt);
  }
}
