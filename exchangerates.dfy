/** The rate client (exchangerates/client.go): the request URL built from
    the API key, and FetchExchangeRates, which answers from the disk cache
    when it may and otherwise fetches and saves. The HTTP exchange and the
    JSON decoding of the response are the `Http.Remote` endpoint; the
    cache's JSON encoding and decoding are parameters. */
module ExchangeRates {
  import opened Base
  import Http
  import Cached
  import Portfolio

  /** Currency code to units of that currency per euro. */
  datatype Rates = Rates(data: map<string, real>)

  /** The template's text before `%s`, written in pieces so that each can
      be checked for a `%` on its own. */
  const UrlPrefix: string := "https://api." + "freecurrency" + "api.com/v1/" + "latest?" + "apikey="
  const UrlSuffix: string := "&base_currency=EUR"

  /** freeCurrencyApiUrl, the format string with one `%s` verb. */
  const FreeCurrencyApiUrl: string := UrlPrefix + "%s" + UrlSuffix

  const CacheApplication: string := "kurse"
  const CacheName: string := "exchangerates"
  const MaxAge: int := 24 * Cached.Hour

  /** The format has a `%s` verb. */
  predicate HasVerb(format: string) {
    exists i :: 0 <= i < |format| - 1 && format[i] == '%' && format[i + 1] == 's'
  }

  /** fmt.Sprintf with a single string argument. When the format has a
      `%s`, the first one is replaced by `arg`; the text around it is
      copied only when it holds no other `%`, since `%%` and verbs other
      than `%s` are not modelled (the format used here has none). When
      the format has no `%s`, the argument is unused and Go appends
      `%!(EXTRA string=<arg>)` to the format. */
  function Sprintf(format: string, arg: string): (r: string)
    ensures '%' !in format ==> r == format + "%!(EXTRA string=" + arg + ")"
    ensures |format| >= 2 && format[..2] == "%s" && '%' !in format[2..] ==> r == arg + format[2..]
  {
    assert |format| >= 2 && format[..2] == "%s" ==> HasVerb(format) by {
      if |format| >= 2 && format[..2] == "%s" {
        assert format[0] == '%' && format[1] == 's';
      }
    }
    if HasVerb(format) then Substitute(format, arg)
    else format + "%!(EXTRA string=" + arg + ")"
  }

  /** The first `%s` of `format` replaced by `arg`. */
  function Substitute(format: string, arg: string): string
    decreases |format|
  {
    if |format| < 2 then format
    else if format[0] == '%' && format[1] == 's' then arg + format[2..]
    else [format[0]] + Substitute(format[1..], arg)
  }

  /** Text without a `%` is copied through unchanged. */
  lemma {:induction false} SubstituteLiteral(text: string, rest: string, arg: string)
    requires '%' !in text
    ensures Substitute(text + rest, arg) == text + Substitute(rest, arg)
    decreases |text|
  {
    if |text| == 0 {
      assert text + rest == rest;
    } else {
      var s := text + rest;
      assert s[0] == text[0] && s[0] != '%';
      assert s[1..] == text[1..] + rest;
      if |s| < 2 {
        assert rest == [] && |text| == 1;
      } else {
        SubstituteLiteral(text[1..], rest, arg);
        assert text == [text[0]] + text[1..];
      }
    }
  }

  lemma PrefixIsLiteral()
    ensures '%' !in UrlPrefix
  {
    assert '%' !in "https://api.";
    assert '%' !in "freecurrency";
    assert '%' !in "api.com/v1/";
    assert '%' !in "latest?";
    assert '%' !in "apikey=";
  }

  /** The request URL: the fixed template with the client's key in place of
      `%s`, so it always asks for rates relative to EUR. */
  function RatesUrl(apiKey: string): (url: string)
    ensures url == UrlPrefix + apiKey + UrlSuffix
    ensures url[..|UrlPrefix|] == UrlPrefix && url[|url| - |UrlSuffix|..] == UrlSuffix
    ensures ApiKeyOf(url) == apiKey
  {
    PrefixIsLiteral();
    SubstituteLiteral(UrlPrefix, "%s" + UrlSuffix, apiKey);
    assert ("%s" + UrlSuffix)[2..] == UrlSuffix;
    assert FreeCurrencyApiUrl == UrlPrefix + ("%s" + UrlSuffix);
    assert FreeCurrencyApiUrl[|UrlPrefix|] == '%' && FreeCurrencyApiUrl[|UrlPrefix| + 1] == 's';
    assert HasVerb(FreeCurrencyApiUrl);
    var url := Sprintf(FreeCurrencyApiUrl, apiKey);
    assert url == UrlPrefix + apiKey + UrlSuffix;
    assert url[..|UrlPrefix|] == UrlPrefix;
    assert url[|url| - |UrlSuffix|..] == UrlSuffix;
    url
  }

  /** The key a request URL carries: the inverse of RatesUrl. */
  function ApiKeyOf(url: string): string
    requires |url| >= |UrlPrefix| + |UrlSuffix|
  {
    url[|UrlPrefix|..|url| - |UrlSuffix|]
  }

  function RatesRequest(apiKey: string): Http.Request {
    Http.Request(RatesUrl(apiKey), [])
  }

  /** Client.fetchExchangeRates: one request; a request, transport or
      decode error is returned. */
  method ClientFetchExchangeRates(apiKey: string, api: Http.Remote<Rates>) returns (r: Result<Rates>)
    modifies api`requests
    ensures api.requests == old(api.requests) + [RatesRequest(apiKey)]
    ensures r == api.serve(RatesRequest(apiKey))
  {
    var url := Sprintf(FreeCurrencyApiUrl, apiKey);
    r := api.Do(Http.Request(url, []));
  }

  /** FetchExchangeRates: with `useCache` and a cache entry at most 24
      hours old, the decoded entry and no request; otherwise one request,
      and on success the rates are saved to the cache and returned. A decode
      or fetch error (fatal in the program) is returned. The cache is
      checked at time `now`; the file is written after the request returns,
      at `savedAt`. */
  method FetchExchangeRates(
    secrets: Portfolio.Secrets, useCache: bool,
    cache: Cached.Cache, api: Http.Remote<Rates>, now: int, savedAt: int,
    decode: Bytes -> Result<Rates>, encode: Rates -> Bytes)
    returns (r: Result<Rates>)
    requires now <= savedAt
    modifies cache`files, cache`dirs, api`requests
    ensures var path := Cached.CacheFile(cache.cacheDir, CacheApplication, CacheName);
      var hit := Cached.Lookup(old(cache.files), path, MaxAge, now);
      if useCache && hit.Some? then
        && r == decode(hit.value)
        && api.requests == old(api.requests)
        && cache.files == old(cache.files)
      else
        var rq := RatesRequest(secrets.freecurrencyApiKey);
        && api.requests == old(api.requests) + [rq]
        && r == api.serve(rq)
        && cache.files == (if r.Ok? then old(cache.files)[path := Cached.FileInfo(encode(r.value), savedAt)] else old(cache.files))
    ensures cache.dirs == old(cache.dirs) + (if useCache || r.Ok? then {Cached.AppDir(cache.cacheDir, CacheApplication)} else {})
  {
    if useCache {
      var cached := cache.Load(CacheApplication, CacheName, MaxAge, now, decode);
      if cached.Some? {
        return cached.value;
      }
    }
    r := ClientFetchExchangeRates(secrets.freecurrencyApiKey, api);
    if r.Err? {
      return;
    }
    cache.Save(CacheApplication, CacheName, r.value, encode, savedAt);
  }

  /** The quote cache and the rate cache are different files, so saving one
      never replaces the other. */
  lemma SeparateCacheEntries(cacheDir: string)
    ensures Cached.CacheFile(cacheDir, CacheApplication, CacheName) != Cached.CacheFile(cacheDir, "kurse", "yahoo")
  {
    if Cached.CacheFile(cacheDir, CacheApplication, CacheName) == Cached.CacheFile(cacheDir, "kurse", "yahoo") {
      Cached.CacheFileInjective(cacheDir, CacheApplication, CacheName, "kurse", "yahoo");
    }
  }
}
