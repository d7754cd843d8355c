# kurse, modelled in Dafny

kurse is a small Go tool that values a stock portfolio. It reads the holdings (orders and dividends per symbol) from a YAML depot file and fetches quotes from a Yahoo Finance endpoint and euro exchange rates from freecurrencyapi. Both answers are kept in a 24-hour disk cache. The command-line program then prints each quoted holding's value, cost basis and gain in ascending symbol order, followed by portfolio totals. A terminal view lists the holdings by name and shows the figures of the selected one.

This project models that core:

- **Valuation** (`valuation.dfy`, main.go). Covers the sorted walk over the holdings and the rate lookup with its 1.0 fallback. Covers the order and dividend loops, the per-holding figures, and the three running totals with the gains and percentages derived from them.
- **Quote client** (`yahoo.dfy`, yahoo/yahoo.go). Covers the comma-joined ticker parameter and the fold of the answer into a symbol-keyed map, where the last record of a symbol wins. Also `FetchStocks`, which serves from the cache when allowed and otherwise fetches and saves.
- **Rate client** (`exchangerates.dfy`, exchangerates/client.go). Covers the request URL built from the key, and the same cache-or-fetch-then-save logic.
- **Disk cache** (`cached.dfy`, cached/cached.go). A class over an abstract file system: a map from path to contents and modification time, plus the set of directories. `Load` misses on an absent file or on one strictly older than `maxAge`. `Save` overwrites one file and stamps it with the current time.
- **Depot loading** (`portfolio.dfy`, portfolio/depot.go, and `depot.dfy`, depot.go). The parsed stocks become a symbol-keyed map, where a later duplicate wins, plus the symbol list in file order or the joined ticker parameter. This part also chooses the configuration file.
- **Terminal view** (`updateview.dfy`, updateview.go, and `util.dfy`, util.go). Covers the price shown (bid, or regular price when there is no bid), the pane's figures and colours, and the list preparation: entries keyed by name, the longest name in bytes, and items in ascending name order.
- **Colours** (`color.dfy`, color/color.go). ANSI wrapping, and red or green chosen by the sign of an amount.

Shared pieces:

- `base.dfy` holds `Option`, `Result` (a Go value with its error) and `Bytes`.
- `strings.dfy` models `strings.Join` with `Split` as its inverse, the byte-wise string order, `sort.Strings` as a sorted permutation, `path.Join` and Go's byte length of a string.
- `collections.dfy` holds the map-filling fold, the field sum and the key order of a map range.
- `http.dfy` holds a remote endpoint that answers each request with a decoded body or an error and records what was sent.

Modelling choices:

- Money is `real`. A percentage with a zero denominator is `None` where Go would print Inf or NaN.
- The current time, the cache root, the user configuration and working directories, file reading, YAML and JSON decoding and encoding, and the servers' answers are all parameters.
- The holdings record is one `Stock` with the orders and dividends of portfolio/depot.go:17-41 plus the name, WKN and ISIN that the view reads. main.go and depot.go come from an older revision: main.go reads `Orders` and `Dividends`, which depot.go's own `Stock` does not have, and expects five results from `readDepot`. The model uses the one `Stock` throughout.
- The view's quantity, purchase costs and dividend figures (`Stueck()`, `Kaufkosten()`, `Dividenden()`) are inputs to `UpdateView`. Their definitions are not part of this model.
- A quote keeps only the fields the core reads (`symbol`, `shortName`, `longName`, `currency`, `regularMarketPrice`, `bid`). It is named `Quote` so that it cannot be confused with `Result`.
- The order of `for k := range m` is left open: `Collections.IterationOrder` may return the keys in any order. The lemmas show that the valuation and the longest name do not depend on it.

Two properties of the code as written are proved rather than smoothed over:

- The portfolio cost total converts each holding's cost basis by its rate (main.go:100). The holding's own gain sets the converted value against the unconverted cost basis (main.go:94). `Valuation.ConvertedCostBasisCountsDifferently` exhibits a holding whose gain is -50 while the total gain is 0.
- In the view, the price gain is measured against the price paid (updateview.go:87). Its percentage is measured against the total cost (updateview.go:88). `UpdateView.PriceGainAndPercentCanDisagree` exhibits a green gain with a negative percentage.

## Model

| member | source | states |
|---|---|---|
| Strings.Join | yahoo/yahoo.go:191 | `strings.Join`: no parts give the empty string, one part gives that part, and n parts give at least the last part plus n-1 separators. `Strings.SplitJoin` shows that the parts can be read back. |
| Strings.SplitJoin | yahoo/yahoo.go:186-192 | Splitting joined parts at the separator gives the parts back when no part contains the separator. |
| Strings.SortStrings | main.go:50 | `sort.Strings`: the result is in byte-wise ascending order and is a permutation of the input. |
| Strings.SortedUnique | main.go:46-50 | Two sorted sequences with the same elements are equal, so there is only one sorted arrangement. |
| Strings.SortIgnoresInputOrder | util.go:38 | Sorting two arrangements of the same names gives the same list. |
| Strings.ByteLen | util.go:11 | Go's `len` of a string lies between its number of code points and four times that. |
| Strings.ByteLenIsLengthForAscii | util.go:11 | The byte length equals the number of code points exactly when every code point is ASCII. |
| Collections.IndexBy | yahoo/yahoo.go:179-181 | The filled map has exactly the keys of the elements. Each value is an element stored under its own key. The last element with a key is the one kept. |
| Collections.IterationOrder | main.go:47-49 | A map range visits every key of the map exactly once, in an unspecified order. |
| Collections.SumBySplit | main.go:77 | A sum of per-element totals that are each a sum of three terms equals the sum of the three separate totals. |
| Collections.SumBy | main.go:72-81 | The total of `acc += f(x)` from 0 over the sequence, left to right. It is never negative when no term is. SumByAppend and SumBySplit relate it to the loops. |
| Color.Colorize | color/color.go:45-48 | For a string, the result is the colour code, then the text, then the reset code. |
| Color.UncolorizeColorize | color/color.go:48 | The text between colour code and reset is the string that was coloured. |
| Color.ColorizeDistinguishes | color/color.go:48 | Different colour codes of equal length never give the same coloured text. |
| Color.InRed | color/color.go:54 | Wraps the text in the red code and reset. |
| Color.InGreen | color/color.go:55 | Wraps the text in the green code and reset. |
| Color.InYellow | color/color.go:56 | Wraps the text in the yellow code and reset. |
| Color.InGray | color/color.go:57 | Wraps the text in the gray code and reset. |
| Color.ByAmount | color/color.go:59-65 | Red exactly when the amount is negative, green exactly when it is zero or more. The text is unchanged inside the colour. |
| Http.Remote.Do | exchangerates/client.go:65-70 | The answer is the server's answer to this request, and the request is appended to those sent. |
| Cached.CacheFile | cached/cached.go:48-52 | The cache file is `cacheDir/application/cache`. |
| Cached.CacheFileInjective | cached/cached.go:49-52 | Names without a slash address distinct files: equal paths mean equal application and cache names. |
| Cached.Lookup | cached/cached.go:28-38 | Nothing when the file is absent or strictly older than `maxAge`, where an age equal to `maxAge` still hits. Otherwise the file's bytes. |
| Cached.LookupAfterSave | cached/cached.go:32-46 | A file saved at time t is read back by any load whose `maxAge` covers the time since t. |
| Cached.LookupOtherPath | cached/cached.go:41-46 | Saving one file does not change what a load of another path reads. |
| Cached.ExpiryIsPermanent | cached/cached.go:32-35 | Once a load misses (file absent or expired), a later load of the same files misses too. |
| Cached.Cache.constructor | cached/cached.go:11-19 | The cache root and the file system are as given. |
| Cached.Cache.EnsureCacheFile | cached/cached.go:48-53 | The application directory then exists, and the path returned is the cache file's. |
| Cached.Cache.Load | cached/cached.go:21-39 | No file changes. The application directory exists afterwards. The result is the mapped bytes on a fresh hit and nothing otherwise. |
| Cached.Cache.Save | cached/cached.go:41-46 | Exactly one file changes, the cache file: its contents become the mapped object and it is stamped with the time of writing. The directory exists afterwards. |
| Portfolio.Symbols | portfolio/depot.go:69-72 | One symbol per parsed stock, in file order. |
| Portfolio.IndexStocks | portfolio/depot.go:68-73 | The map is the last-wins fold by symbol and the list is every symbol in file order. Every listed symbol is a key, and every stock sits under its own symbol. |
| Portfolio.PortfolioConfigurationFile | portfolio/depot.go:78-91 | `<config>/kurse/portfolio.yml` when it exists, else `<cwd>/portfolio.yml` when it exists. The file chosen always exists. Success happens exactly when one of the two exists. When neither does and the working directory is unknown, that lookup's error is returned. |
| Portfolio.LoadPortfolio | portfolio/depot.go:49-76 | An error exactly when locating, reading or parsing fails, and then that error. Otherwise the indexed stocks, the symbols in file order and the parsed secrets unchanged. |
| DepotFile.ReadDepot | depot.go:24-43 | An error exactly when reading or parsing fails. Otherwise the last-wins map by symbol, and every parsed symbol joined by commas in file order. |
| DepotFile.ParamListsSymbols | depot.go:36-41 | For at least one stock and no symbol containing a comma: splitting the parameter at the commas gives every parsed symbol back, duplicates included. (No stocks give the parameter "", which splits into [""].) |
| ExchangeRates.RatesUrl | exchangerates/client.go:61 | The URL is the template's prefix, the key, then `&base_currency=EUR`. The key can be read back from the URL. |
| ExchangeRates.Sprintf | exchangerates/client.go:61 | `fmt.Sprintf` with one string argument. A format without `%` comes back followed by `%!(EXTRA string=<arg>)`, as Go reports an unused argument. A format that starts with `%s` and has no other `%` gives the argument followed by the rest of the format. |
| ExchangeRates.SubstituteLiteral | exchangerates/client.go:61 | Text without `%` before the verb is copied through unchanged, so only the `%s` is replaced. RatesUrl builds on it. |
| ExchangeRates.ClientFetchExchangeRates | exchangerates/client.go:56-71 | Exactly one request is sent, to that URL. The result is its answer, error included. |
| ExchangeRates.FetchExchangeRates | exchangerates/client.go:31-52 | With the cache allowed and an entry at most 24 hours old: the decoded entry, and no request and no file change. Otherwise: one request, its answer returned, and on success the rates saved, stamped with `savedAt`, the time after the request returned (no earlier than the check). |
| ExchangeRates.SeparateCacheEntries | exchangerates/client.go:46 | The rate cache file and the quote cache file are different files. |
| Yahoo.SliceOfSymbolsToQueryParam | yahoo/yahoo.go:186-192 | The ticker is the symbols in order joined by commas, and empty for no symbols. |
| Yahoo.QuotesRequest | yahoo/yahoo.go:155-161 | The request URL is the quote endpoint followed by the ticker, so the ticker can be cut off the URL and split back into the symbols. |
| Yahoo.TickerListsSymbols | yahoo/yahoo.go:186-192 | For at least one symbol and no symbol containing a comma: splitting the ticker at the commas gives the symbols back. (No symbols give the ticker "", which splits into [""].) |
| Yahoo.StoreResults | yahoo/yahoo.go:178-181 | Every record is stored under its own symbol and the last record of a symbol wins. The keys are the previous keys plus the records' symbols, and entries not named by a record stay as they were. main.go:143-145 folds into the shared results map the same way. |
| Yahoo.Answer | yahoo/yahoo.go:178-183 | An error exactly when the request, transport or decode failed. Otherwise every record's symbol is a key, and each key holds a record with that symbol from the answer. |
| Yahoo.ClientFetchStocks | yahoo/yahoo.go:149-184 | Exactly one request, carrying the ticker and the key and host headers. The result is its answer folded by symbol, or its error. |
| Yahoo.FetchStocks | yahoo/yahoo.go:20-45 | With the cache allowed and an entry at most 24 hours old: the decoded entry, and no request and no file change. Otherwise: one request, its answer returned, and on success the results saved, stamped with `savedAt`, the time after the request returned (no earlier than the check). |
| Valuation.Rate | main.go:67-71 | 1.0 when the currency is not in the table, otherwise the inverse of its rate. Only the looked-up currency's rate must be non-zero. |
| Valuation.UnusedZeroRateIsHarmless | main.go:67-71 | With a table that lists one currency at rate 0 and USD at 1.25, a holding quoted in USD can still be valued, at rate 0.8. |
| Valuation.Ratio | main.go:93 | No value exactly when the denominator is zero. |
| Valuation.RatioInverts | main.go:93 | The ratio times the denominator is the numerator. |
| Valuation.Percent | main.go:95 | No value exactly when the denominator is zero. |
| Valuation.PercentMeaning | main.go:95 | Percentage plus 100, times the denominator, is 100 times the numerator. For a positive denominator the percentage is positive exactly when the numerator exceeds it. |
| Valuation.SumOrders | main.go:72-78 | Each order total is the sum of its field over the orders. The cost basis is the sum of price plus provision plus fee, and equals price total plus provision total plus fee total. |
| Valuation.CostBasisSplits | main.go:72-78 | The cost basis summed order by order equals the sum of the price, provision and fee totals. |
| Valuation.SumDividends | main.go:79-81 | The dividend total is the sum of the amounts. |
| Valuation.Figures | main.go:83-98 | A holding's figures from its rate, order totals and dividend total. Valuation.GainFigures states what they mean. |
| Valuation.HoldingRow | main.go:58-98 | The row of one quoted holding. Valuation.HoldingFigures states its inputs. |
| Valuation.HoldingFigures | main.go:58-81 | A holding's row uses the rate of its quote's currency. Its count, price, provision, fee and cost-basis totals are each the sum of that field over the orders, with cost basis = price + provision + fee. Its dividend total is the sum of the amounts. |
| Valuation.GainFigures | main.go:83-98 | value = count × price, eurValue = value × rate, gain = eurValue − cost basis, and gain with dividends = eurValue + dividends − cost basis. The gain is negative exactly when eurValue is below the unconverted cost basis. Both percentages are relative to the cost basis, and each is absent exactly when it is zero. |
| Valuation.Rows | main.go:54-57 | The rows of the visited holdings that have a quote, in visiting order: never more rows than symbols. Valuation.RowsAreQuotedHoldings states exactly which rows. |
| Valuation.RowsAreQuotedHoldings | main.go:54-57 | Every row is the row of a visited holding that has a quote, and every visited holding with a quote has a row. |
| Valuation.UnquotedHoldingAddsNothing | main.go:56-57 | Removing a holding without a quote from the visiting order changes neither the rows nor any total. |
| Valuation.SummaryFigures | main.go:99-113 | The totals are the sums of converted values, converted cost bases and unconverted dividends. The gain is the value total less the cost total, and the gain with dividends adds the dividend total. The gain is negative exactly when the value total is below the cost total. Both percentages are relative to the cost total, and each is absent exactly when it is zero. |
| Valuation.Summarize | main.go:99-113 | The portfolio totals of a list of rows. Valuation.SummaryFigures states what they mean. |
| Valuation.TotalGainIsSumOfGains | main.go:99-109 | When no holding is converted, the total gain is the sum of the holdings' gains. |
| Valuation.ConvertedCostBasisCountsDifferently | main.go:94-100 | A holding quoted in a currency at rate 2 has gain -50 on its own, while the portfolio total gain is 0. |
| Valuation.SortedSymbols | main.go:46-50 | The symbols are sorted and are exactly the map's keys, each once. |
| Valuation.VisitOrderIsDetermined | main.go:46-50 | Any two sorted lists of the map's keys are equal, whatever order the map was ranged in. |
| Valuation.VisitEachHoldingOnce | main.go:46-54 | The visiting order names every holding and repeats none. |
| Valuation.ValueHolding | main.go:58-101 | The loop body for a quoted holding computes exactly that holding's row. |
| Valuation.ValueRows | main.go:51-104 | The rows are those of the quoted holdings in visiting order. The three running sums are the sums of converted value, converted cost basis and dividends over those rows. |
| Valuation.Value | main.go:46-113 | Visits the holdings in ascending symbol order, each once, and returns their rows and the totals summarising them. |
| Util.MaxLen | util.go:10-16 | The larger of `i` and the byte length of `s`: at least both, and equal to one of them. |
| Util.ResultFor | util.go:34 | The symbol's quote, or the zero quote when there is none. |
| Util.MaxByteLen | util.go:31-35 | The running `maxLen` from 0 over the names, which is never negative. Util.MaxByteLenIsLargest states that it is the longest name's byte length. |
| Util.MaxByteLenIsLargest | util.go:31-36 | The running maximum bounds every name's byte length and is attained by some name, or is 0 for no names. |
| Util.CollectEntries | util.go:29-37 | For the map's visiting order: the entries are the last-wins fold by name, the maximum is the running maximum, and the names are collected in visiting order. |
| Util.ListItems | util.go:39-42 | One item per name, in order, showing the name and its entry's quote symbol. |
| Util.Prepare | util.go:25-44 | The items are the collected names in ascending order, one per stock, each with its entry's quote symbol. Every listed name has an entry. |
| Util.NameHasEntry | util.go:34-40 | Every collected name is a key of the entries. |
| Util.EntriesHoldTheirStocks | util.go:34 | Each entry holds a stock of the map filed under its own name, with that stock's quote or the zero quote. |
| Util.NameMaxLenIsLongest | util.go:30-36 | Whatever the visiting order: no stock's name is longer in bytes, some stock's name is exactly as long, and the result is 0 without stocks. |
| UpdateView.ColorForAmount | updateview.go:102-108 | Red exactly when the amount is negative, green exactly when it is zero or more. |
| UpdateView.SelectPrice | updateview.go:70-75 | The bid, labelled Bid, exactly when the bid is non-zero. Otherwise the regular market price, labelled Reg. |
| UpdateView.Label | updateview.go:73-77 | The kind's label: "Bid" exactly for the bid, "Reg" exactly for the regular market price. |
| UpdateView.ShownPriceIsZeroOnlyWithoutPrices | updateview.go:70-75 | The shown price is zero exactly when both the bid and the regular price are zero. |
| UpdateView.TotalGain | updateview.go:98 | Value less total cost, plus dividends less all four withheld taxes. |
| UpdateView.TotalGainDecomposes | updateview.go:85-98 | When total cost = price paid + fees + provisions, the total gain is the price gain less fees and provisions plus the net dividends. |
| UpdateView.PriceGainPercentSign | updateview.go:88 | For a positive total cost the percentage is positive exactly when the value exceeds the total cost. |
| UpdateView.PriceGainAndPercentCanDisagree | updateview.go:85-88 | Paid 100 with total cost 110 and worth 105: the price gain is green while its percentage is negative. |
| UpdateView.PaneFor | updateview.go:66-100 | What updateView puts into the pane for an entry. UpdateView.PaneForShowsEntry states what each field shows. |
| UpdateView.PaneForShowsEntry | updateview.go:66-100 | The filled pane shows the entry's stock and quote and the selected price, labelled "Bid" exactly when the bid is non-zero. The price paid, fees, provisions and each of the four taxes are shown negated, one by one. The percentage is against the total cost. The total gain is the value less total cost plus net dividends. The pane is consistent. |
| UpdateView.View.constructor | updateview.go:44-64 | A new pane shows nothing: empty texts and price label, default colours. Zero figures and an absent percentage stand for the empty number views. |
| UpdateView.View.ShowStock | updateview.go:76-80 | Sets the name, symbol, WKN, ISIN and price lines and nothing else. |
| UpdateView.View.ShowPosition | updateview.go:81-92 | Sets the quantity, value, price paid, price gain, fees and provisions lines and nothing else. |
| UpdateView.View.ShowDividends | updateview.go:93-99 | Sets the dividend, tax and total gain lines and nothing else. |
| UpdateView.View.UpdateView | updateview.go:66-100 | Afterwards the pane shows exactly the entry's figures and is consistent: value = quantity × price, each gain coloured by its sign. |

## Left out

- ExchangeRates.Sprintf: models only the `%s` verb; `%%` and other verbs are not modelled, because the one format the client uses has neither.
- HTTP transport, timeouts, headers beyond the two sent, and the rate-limit logging are left out. They are network I/O; a request's answer is a parameter of `Http.Remote`.
- The goroutines and WaitGroup in main.go are left out. Quotes and rates are taken as already available, one after the other.
- JSON and YAML decoding and encoding are parameters, as are the server answers. Reading the depot and portfolio files is a parameter that can fail, and its error is modelled.
- Cache file system failures are not modelled: in the cache, `MkdirAll`, `ReadFile` and `WriteFile` always succeed, and the program ends through `lang.FatalOnError` when they fail. An `os.Stat` error on the cache file other than a missing file is not modelled either. The program does not handle that case at all: `fi` is nil and `fi.ModTime()` panics (cached/cached.go:28-32).
- In `portfolioConfigurationFile`, a failed `os.Stat` is not fatal: the program moves on to the working-directory file. The model does the same, with `statOk` standing for a Stat without error.
- Fatal exits (`log.Fatal`, `lang.FatalOnError`) are not modelled. A decode or fetch error is returned as an error value instead of ending the process.
- Strings.PathJoin: does not model `path.Join`'s lexical cleaning. The names joined in the core are already clean.
- Valuation.Rate: requires the looked-up currency's rate to be non-zero, and `Rows` and `Value` require this for the currency of every held quote. Go would divide by zero and value such a holding at +Inf. Zero rates of currencies no held quote uses are allowed, as in Go.
- Valuation.Percent: gives no value for a zero denominator, where Go prints Inf or NaN. Floating-point rounding is not modelled at all; money is exact `real`.
- Valuation.Ratio: the average price (main.go:93) is `None` for a zero order count, where Go prints NaN (0/0) or ±Inf.
- UpdateView.PaneFor: the price-gain percentage is `None` for a zero total cost, where Go prints Inf or NaN.
- Valuation.Rows: a visited symbol that is not a holding gets no row. The program only visits the holdings' own symbols, so the case does not arise there.
- All printing and formatting is left out: widths, the German number format, the coloured output lines of main.go, and the tview widgets and labels of updateview.go and util.go. Only the figures and colours shown are modelled.
- `colorize`'s branch for values other than strings is left out. It goes through `fmt.Sprint`, a foreign formatting call.
- `findDepot` and the hard-coded API key in exchangerates.go are left out. They are environment and configuration lookup.
- Util.Prepare: `sort.Strings` sorting the names in place is modelled as a value: the sorted list is returned beside the items, and the map's visiting order is returned too so that the contract can name it.
- The quote's informational fields (exchange, market state, averages and the like) are left out, because the core never reads them.
- The helpers in lang/, support/ and out.go are left out. They are closing, fatal-error and printing helpers.
