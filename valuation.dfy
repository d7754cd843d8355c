/** The valuation of the command-line program (main.go): once quotes and
    rates are in, the holdings are walked in ascending symbol order; each
    holding with a quote gets its order and dividend totals, its value in
    euro and its gain, and the portfolio totals accumulate. Money is `real`;
    a percentage whose denominator is zero is `None`. What the program
    prints is not modelled, only the figures it prints. */
module Valuation {
  import opened Base
  import Strings
  import Collections
  import opened Portfolio
  import Yahoo
  import ExchangeRates

  /** The rate of `currency` can be inverted: the table does not list it,
      or lists it with a non-zero rate. */
  predicate Invertible(rates: ExchangeRates.Rates, currency: string) {
    currency in rates.data ==> rates.data[currency] != 0.0
  }

  /** The rate of every held quote's currency can be inverted; rates of
      other currencies in the table may be anything. */
  predicate UsableRates(rates: ExchangeRates.Rates, stocks: map<Symbol, Stock>, results: Yahoo.Results) {
    forall symbol :: symbol in stocks && symbol in results ==> Invertible(rates, results[symbol].currency)
  }

  /** Euro per unit of `currency`: the inverse of the table's rate, or 1.0
      when the table does not know the currency. */
  function Rate(rates: ExchangeRates.Rates, currency: string): (rate: real)
    requires Invertible(rates, currency)
    ensures currency !in rates.data ==> rate == 1.0
    ensures currency in rates.data ==> rate * rates.data[currency] == 1.0
  {
    if currency in rates.data then 1.0 / rates.data[currency] else 1.0
  }

  /** `num / den`, or None where the program would divide by zero. */
  function Ratio(num: real, den: real): (q: Option<real>)
    ensures q.None? <==> den == 0.0
  {
    if den == 0.0 then None else Some(num / den)
  }

  /** `(num / den * 100) - 100`, the printed gain percentage. */
  function Percent(num: real, den: real): (p: Option<real>)
    ensures p.None? <==> den == 0.0
  {
    match Ratio(num, den)
    case None => None
    case Some(q) => Some(q * 100.0 - 100.0)
  }

  /** The ratio times the denominator gives the numerator back. */
  lemma RatioInverts(num: real, den: real)
    requires den != 0.0
    ensures Ratio(num, den).value * den == num
  {
  }

  /** A percentage `p` of `num` over `den` says that `num` is `p + 100`
      hundredths of `den`: positive exactly when `num` exceeds a positive
      `den`. */
  lemma PercentMeaning(num: real, den: real)
    requires den != 0.0
    ensures (Percent(num, den).value + 100.0) * den == num * 100.0
    ensures den > 0.0 ==> (Percent(num, den).value > 0.0 <==> num > den)
  {
    var q := num / den;
    assert q * den == num;
    assert Percent(num, den).value + 100.0 == q * 100.0;
    if den > 0.0 {
      assert num > den <==> q > 1.0;
    }
  }

  function OrderCount(o: Order): real { o.count }
  function OrderPrice(o: Order): real { o.price }
  function OrderProvision(o: Order): real { o.provision }
  function OrderFee(o: Order): real { o.fee }
  /** What one order cost: price, provision and fee. */
  function OrderCost(o: Order): real { o.price + o.provision + o.fee }
  function DividendAmount(d: Dividend): real { d.amount }

  /** The five order accumulators of one holding. */
  datatype OrderTotals = OrderTotals(count: real, price: real, provision: real, fee: real, buy: real)

  /** The order loop: each total is the sum of its field over the orders,
      and the cost basis `buy` is the sum of the three cost totals. */
  method SumOrders(orders: seq<Order>) returns (t: OrderTotals)
    ensures t.count == Collections.SumBy(orders, OrderCount)
    ensures t.price == Collections.SumBy(orders, OrderPrice)
    ensures t.provision == Collections.SumBy(orders, OrderProvision)
    ensures t.fee == Collections.SumBy(orders, OrderFee)
    ensures t.buy == Collections.SumBy(orders, OrderCost)
    ensures t.buy == t.price + t.provision + t.fee
  {
    var count, price, provision, fee, buy := 0.0, 0.0, 0.0, 0.0, 0.0;
    for i := 0 to |orders|
      invariant count == Collections.SumBy(orders[..i], OrderCount)
      invariant price == Collections.SumBy(orders[..i], OrderPrice)
      invariant provision == Collections.SumBy(orders[..i], OrderProvision)
      invariant fee == Collections.SumBy(orders[..i], OrderFee)
      invariant buy == Collections.SumBy(orders[..i], OrderCost)
      invariant buy == price + provision + fee
    {
      var order := orders[i];
      assert orders[..i + 1][..i] == orders[..i];
      count := count + order.count;
      price := price + order.price;
      provision := provision + order.provision;
      fee := fee + order.fee;
      buy := buy + (order.price + order.provision + order.fee);
    }
    assert orders[..|orders|] == orders;
    t := OrderTotals(count, price, provision, fee, buy);
  }

  /** The cost basis of a holding, summed order by order, is the sum of its
      price, provision and fee totals. */
  lemma CostBasisSplits(orders: seq<Order>)
    ensures Collections.SumBy(orders, OrderCost)
         == Collections.SumBy(orders, OrderPrice) + Collections.SumBy(orders, OrderProvision) + Collections.SumBy(orders, OrderFee)
  {
    Collections.SumBySplit(orders, OrderCost, OrderPrice, OrderProvision, OrderFee);
  }

  /** The dividend loop: the sum of the amounts. */
  method SumDividends(dividends: seq<Dividend>) returns (amount: real)
    ensures amount == Collections.SumBy(dividends, DividendAmount)
  {
    amount := 0.0;
    for i := 0 to |dividends|
      invariant amount == Collections.SumBy(dividends[..i], DividendAmount)
    {
      assert dividends[..i + 1][..i] == dividends[..i];
      amount := amount + dividends[i].amount;
    }
    assert dividends[..|dividends|] == dividends;
  }

  /** The figures printed for one quoted holding. `value` is in the quote's
      currency, `eurValue` converted; the cost basis and the dividends are
      used as they are. */
  datatype Row = Row(
    symbol: Symbol,
    longName: string,
    shortName: string,
    currency: string,
    rate: real,
    orders: OrderTotals,
    averagePrice: Option<real>,
    price: real,
    value: real,
    eurPrice: real,
    eurValue: real,
    converted: bool,
    guv: real,
    guvPercent: Option<real>,
    dividendAmount: real,
    guvInclDiv: real,
    guvInclDivPercent: Option<real>)

  /** The figures of a holding once its rate, order totals and dividend
      total are known: the value in the quote's currency, converted by the
      rate, set against the unconverted cost basis. */
  function Figures(symbol: Symbol, quote: Yahoo.Quote, rate: real, orders: OrderTotals, dividendAmount: real): Row {
    var value := orders.count * quote.regularMarketPrice;
    var eurValue := value * rate;
    Row(symbol, quote.longName, quote.shortName, quote.currency, rate,
        orders,
        Ratio(orders.price, orders.count),
        quote.regularMarketPrice, value, quote.regularMarketPrice * rate, eurValue, rate != 1.0,
        eurValue - orders.buy, Percent(eurValue, orders.buy),
        dividendAmount, eurValue + dividendAmount - orders.buy, Percent(eurValue + dividendAmount, orders.buy))
  }

  /** The row of one holding with a quote. */
  function HoldingRow(symbol: Symbol, stock: Stock, quote: Yahoo.Quote, rates: ExchangeRates.Rates): Row
    requires Invertible(rates, quote.currency)
  {
    var orders := OrderTotals(
      Collections.SumBy(stock.orders, OrderCount),
      Collections.SumBy(stock.orders, OrderPrice),
      Collections.SumBy(stock.orders, OrderProvision),
      Collections.SumBy(stock.orders, OrderFee),
      Collections.SumBy(stock.orders, OrderCost));
    Figures(symbol, quote, Rate(rates, quote.currency), orders,
            Collections.SumBy(stock.dividends, DividendAmount))
  }

  /** The figures of a holding: its value converted by the rate, a gain
      that is negative exactly when the converted value is below the
      unconverted cost basis, the gain with dividends exceeding it by the
      dividend total, and percentages relative to the cost basis. */
  lemma GainFigures(symbol: Symbol, quote: Yahoo.Quote, rate: real, orders: OrderTotals, dividendAmount: real)
    ensures var row := Figures(symbol, quote, rate, orders, dividendAmount);
      && row.value == orders.count * quote.regularMarketPrice
      && row.eurValue == row.value * rate
      && row.guv == row.eurValue - orders.buy
      && row.guvInclDiv == row.eurValue + dividendAmount - orders.buy
      && row.guvInclDiv == row.guv + dividendAmount
      && (row.guv < 0.0 <==> row.eurValue < orders.buy)
      && (row.guvPercent.None? <==> orders.buy == 0.0)
      && (row.guvInclDivPercent.None? <==> orders.buy == 0.0)
      && (row.guvPercent.Some? ==> (row.guvPercent.value + 100.0) * orders.buy == row.eurValue * 100.0)
      && (row.guvInclDivPercent.Some? ==>
           (row.guvInclDivPercent.value + 100.0) * orders.buy == (row.eurValue + dividendAmount) * 100.0)
      && (orders.buy > 0.0 ==> (row.guvPercent.value > 0.0 <==> row.guv > 0.0))
  {
    var value := orders.count * quote.regularMarketPrice;
    var eurValue := value * rate;
    if orders.buy != 0.0 {
      PercentMeaning(eurValue, orders.buy);
      PercentMeaning(eurValue + dividendAmount, orders.buy);
    }
  }

  /** The inputs of a holding's figures: the rate of its quote's currency,
      the field sums over its orders, a cost basis that is the sum of
      price, provision and fee, and the sum of its dividend amounts. */
  lemma HoldingFigures(symbol: Symbol, stock: Stock, quote: Yahoo.Quote, rates: ExchangeRates.Rates)
    requires Invertible(rates, quote.currency)
    ensures var row := HoldingRow(symbol, stock, quote, rates);
      && row.symbol == symbol && row.currency == quote.currency
      && row.rate == Rate(rates, quote.currency)
      && row.orders.count == Collections.SumBy(stock.orders, OrderCount)
      && row.orders.price == Collections.SumBy(stock.orders, OrderPrice)
      && row.orders.provision == Collections.SumBy(stock.orders, OrderProvision)
      && row.orders.fee == Collections.SumBy(stock.orders, OrderFee)
      && row.orders.buy == Collections.SumBy(stock.orders, OrderCost)
      && row.orders.buy == row.orders.price + row.orders.provision + row.orders.fee
      && row.dividendAmount == Collections.SumBy(stock.dividends, DividendAmount)
      && row == Figures(symbol, quote, row.rate, row.orders, row.dividendAmount)
  {
    CostBasisSplits(stock.orders);
  }

  /** The rows of the quoted holdings, in the order of `symbols`; a symbol
      without a quote gets no row. (The symbols the valuation visits are
      the holdings' own; a symbol that is not a holding gets no row
      either.) */
  function Rows(symbols: seq<Symbol>, stocks: map<Symbol, Stock>, results: Yahoo.Results, rates: ExchangeRates.Rates): (rows: seq<Row>)
    requires UsableRates(rates, stocks, results)
    ensures |rows| <= |symbols|
  {
    if |symbols| == 0 then []
    else
      var symbol := symbols[|symbols| - 1];
      var rows := Rows(symbols[..|symbols| - 1], stocks, results, rates);
      if symbol in stocks && symbol in results then rows + [HoldingRow(symbol, stocks[symbol], results[symbol], rates)] else rows
  }

  /** `row` is the row of a holding that has a quote. */
  predicate QuotedRow(row: Row, stocks: map<Symbol, Stock>, results: Yahoo.Results, rates: ExchangeRates.Rates)
    requires UsableRates(rates, stocks, results)
  {
    && row.symbol in stocks
    && row.symbol in results
    && row == HoldingRow(row.symbol, stocks[row.symbol], results[row.symbol], rates)
  }

  /** The rows are exactly the holdings with a quote: every row belongs to
      a visited symbol that has a quote and is that holding's row, and every
      visited symbol with a quote has a row. */
  lemma {:induction false} RowsAreQuotedHoldings(symbols: seq<Symbol>, stocks: map<Symbol, Stock>, results: Yahoo.Results, rates: ExchangeRates.Rates)
    requires UsableRates(rates, stocks, results)
    ensures forall row :: row in Rows(symbols, stocks, results, rates) ==>
      QuotedRow(row, stocks, results, rates) && row.symbol in symbols
    ensures forall i :: 0 <= i < |symbols| && symbols[i] in stocks && symbols[i] in results ==>
      exists row :: row in Rows(symbols, stocks, results, rates) && row.symbol == symbols[i]
    decreases |symbols|
  {
    if |symbols| > 0 {
      var init := symbols[..|symbols| - 1];
      var symbol := symbols[|symbols| - 1];
      assert forall i :: 0 <= i < |init| ==> init[i] == symbols[i];
      RowsAreQuotedHoldings(init, stocks, results, rates);
      var before := Rows(init, stocks, results, rates);
      var rows := Rows(symbols, stocks, results, rates);
      assert forall x :: x in init ==> x in symbols;
      if symbol in stocks && symbol in results {
        var row := HoldingRow(symbol, stocks[symbol], results[symbol], rates);
        assert rows == before + [row];
        assert QuotedRow(row, stocks, results, rates);
        forall i | 0 <= i < |symbols| && symbols[i] in stocks && symbols[i] in results
          ensures exists row :: row in rows && row.symbol == symbols[i]
        {
          if i < |init| {
            var r :| r in before && r.symbol == init[i];
            assert r in rows;
          } else {
            assert row in rows;
          }
        }
      } else {
        assert rows == before;
      }
    }
  }

  function RowEurValue(row: Row): real { row.eurValue }
  /** The cost basis as the total counts it: converted by the rate. */
  function RowConvertedBuy(row: Row): real { row.orders.buy * row.rate }
  function RowDividendAmount(row: Row): real { row.dividendAmount }
  function RowGuv(row: Row): real { row.guv }

  /** The figures printed under "Summe". */
  datatype Summary = Summary(
    valSum: real,
    buySum: real,
    dividendSum: real,
    guv: real,
    guvPercent: Option<real>,
    guvInclDiv: real,
    guvInclDivPercent: Option<real>)

  /** The totals over the rows: the converted values, the converted cost
      bases and the unconverted dividends. */
  function Summarize(rows: seq<Row>): Summary
  {
    var valSum := Collections.SumBy(rows, RowEurValue);
    var buySum := Collections.SumBy(rows, RowConvertedBuy);
    var dividendSum := Collections.SumBy(rows, RowDividendAmount);
    Summary(valSum, buySum, dividendSum,
            valSum - buySum, Percent(valSum, buySum),
            valSum + dividendSum - buySum, Percent(valSum + dividendSum, buySum))
  }

  /** What the totals say: the converted values, the converted cost bases
      and the unconverted dividends summed over the rows; a gain that is
      negative exactly when the value total is below the cost total, and
      percentages relative to the cost total. */
  lemma SummaryFigures(rows: seq<Row>)
    ensures var s := Summarize(rows);
      && s.valSum == Collections.SumBy(rows, RowEurValue)
      && s.buySum == Collections.SumBy(rows, RowConvertedBuy)
      && s.dividendSum == Collections.SumBy(rows, RowDividendAmount)
      && s.guv == s.valSum - s.buySum
      && s.guvInclDiv == s.valSum + s.dividendSum - s.buySum
      && s.guvInclDiv == s.guv + s.dividendSum
      && (s.guv < 0.0 <==> s.valSum < s.buySum)
      && (s.guvPercent.None? <==> s.buySum == 0.0)
      && (s.guvInclDivPercent.None? <==> s.buySum == 0.0)
      && (s.guvPercent.Some? ==> (s.guvPercent.value + 100.0) * s.buySum == s.valSum * 100.0)
      && (s.guvInclDivPercent.Some? ==> (s.guvInclDivPercent.value + 100.0) * s.buySum == (s.valSum + s.dividendSum) * 100.0)
      && (s.buySum > 0.0 ==> (s.guvPercent.value > 0.0 <==> s.guv > 0.0))
  {
    var valSum := Collections.SumBy(rows, RowEurValue);
    var buySum := Collections.SumBy(rows, RowConvertedBuy);
    var dividendSum := Collections.SumBy(rows, RowDividendAmount);
    if buySum != 0.0 {
      PercentMeaning(valSum, buySum);
      PercentMeaning(valSum + dividendSum, buySum);
    }
  }

  /** The symbols of the map, collected in whatever order the map yields
      them and then sorted. */
  method SortedSymbols(stocks: map<Symbol, Stock>) returns (symbols: seq<Symbol>)
    ensures Strings.Sorted(symbols)
    ensures multiset(symbols) == multiset(stocks.Keys)
    ensures forall i :: 0 <= i < |symbols| ==> symbols[i] in stocks
  {
    var collected := Collections.IterationOrder(stocks);
    symbols := Strings.SortStrings(collected);
    forall i | 0 <= i < |symbols| ensures symbols[i] in stocks {
      assert symbols[i] in multiset(symbols);
      assert symbols[i] in multiset(stocks.Keys);
    }
  }

  /** The body of the valuation loop for a holding with a quote: the rate,
      the order and dividend loops, the value and the gains. */
  method ValueHolding(symbol: Symbol, stock: Stock, result: Yahoo.Quote, rates: ExchangeRates.Rates) returns (row: Row)
    requires Invertible(rates, result.currency)
    ensures row == HoldingRow(symbol, stock, result, rates)
  {
    var rate := 1.0;
    if result.currency in rates.data {
      rate := 1.0 / rates.data[result.currency];
    }
    assert rate == Rate(rates, result.currency);
    var totals := SumOrders(stock.orders);
    var dividendAmount := SumDividends(stock.dividends);
    row := Figures(symbol, result, rate, totals, dividendAmount);
    assert totals == HoldingRow(symbol, stock, result, rates).orders;
  }

  /** Visiting one more symbol appends its row when it is a quoted
      holding. */
  lemma RowsStep(symbols: seq<Symbol>, i: int, stocks: map<Symbol, Stock>, results: Yahoo.Results, rates: ExchangeRates.Rates)
    requires UsableRates(rates, stocks, results)
    requires 0 <= i < |symbols|
    ensures var symbol := symbols[i];
      Rows(symbols[..i + 1], stocks, results, rates)
      == Rows(symbols[..i], stocks, results, rates)
         + (if symbol in stocks && symbol in results then [HoldingRow(symbol, stocks[symbol], results[symbol], rates)] else [])
  {
    assert symbols[..i + 1][..i] == symbols[..i];
  }

  /** The valuation loop over the sorted symbols: the row of each quoted
      holding, and the running sums of value, converted cost basis and
      dividends over those rows. */
  method ValueRows(symbols: seq<Symbol>, stocks: map<Symbol, Stock>, results: Yahoo.Results, rates: ExchangeRates.Rates)
    returns (rows: seq<Row>, valSum: real, buySum: real, dividendSum: real)
    requires UsableRates(rates, stocks, results)
    requires forall i :: 0 <= i < |symbols| ==> symbols[i] in stocks
    ensures rows == Rows(symbols, stocks, results, rates)
    ensures valSum == Collections.SumBy(rows, RowEurValue)
    ensures buySum == Collections.SumBy(rows, RowConvertedBuy)
    ensures dividendSum == Collections.SumBy(rows, RowDividendAmount)
  {
    valSum, buySum, dividendSum := 0.0, 0.0, 0.0;
    rows := [];
    for i := 0 to |symbols|
      invariant rows == Rows(symbols[..i], stocks, results, rates)
      invariant valSum == Collections.SumBy(rows, RowEurValue)
      invariant buySum == Collections.SumBy(rows, RowConvertedBuy)
      invariant dividendSum == Collections.SumBy(rows, RowDividendAmount)
    {
      RowsStep(symbols, i, stocks, results, rates);
      var symbol := symbols[i];
      var stock := stocks[symbol];
      if symbol in results {
        var row := ValueHolding(symbol, stock, results[symbol], rates);
        Collections.SumByAppend(rows, row, RowEurValue);
        Collections.SumByAppend(rows, row, RowConvertedBuy);
        Collections.SumByAppend(rows, row, RowDividendAmount);
        rows := rows + [row];
        // value * rate, which the row keeps as eurValue
        valSum := valSum + row.eurValue;
        buySum := buySum + row.orders.buy * row.rate;
        dividendSum := dividendSum + row.dividendAmount;
      }
    }
    assert symbols[..|symbols|] == symbols;
  }

  /** The valuation: the quoted holdings' rows in ascending symbol order
      and the totals accumulated over them. */
  method Value(stocks: map<Symbol, Stock>, results: Yahoo.Results, rates: ExchangeRates.Rates)
    returns (symbols: seq<Symbol>, rows: seq<Row>, summary: Summary)
    requires UsableRates(rates, stocks, results)
    ensures Strings.Sorted(symbols)
    ensures multiset(symbols) == multiset(stocks.Keys)
    ensures forall i :: 0 <= i < |symbols| ==> symbols[i] in stocks
    ensures rows == Rows(symbols, stocks, results, rates)
    ensures summary == Summarize(rows)
  {
    symbols := SortedSymbols(stocks);
    var valSum, buySum, dividendSum;
    rows, valSum, buySum, dividendSum := ValueRows(symbols, stocks, results, rates);
    summary := Summary(valSum, buySum, dividendSum,
                       valSum - buySum, Percent(valSum, buySum),
                       valSum + dividendSum - buySum, Percent(valSum + dividendSum, buySum));
  }

  /** The visiting order does not depend on the map's iteration order:
      there is exactly one sorted arrangement of the symbols. */
  lemma VisitOrderIsDetermined(stocks: map<Symbol, Stock>, s1: seq<Symbol>, s2: seq<Symbol>)
    requires Strings.Sorted(s1) && multiset(s1) == multiset(stocks.Keys)
    requires Strings.Sorted(s2) && multiset(s2) == multiset(stocks.Keys)
    ensures s1 == s2
  {
    Strings.SortedUnique(s1, s2);
  }

  /** Each holding is visited once: the visiting order has no repeats and
      names every holding. */
  lemma VisitEachHoldingOnce(stocks: map<Symbol, Stock>, symbols: seq<Symbol>)
    requires multiset(symbols) == multiset(stocks.Keys)
    ensures forall k :: k in stocks <==> k in symbols
    ensures forall i, j :: 0 <= i < j < |symbols| ==> symbols[i] != symbols[j]
  {
    forall k ensures k in stocks <==> k in symbols {
      assert k in symbols <==> k in multiset(symbols);
    }
    forall i, j | 0 <= i < j < |symbols| ensures symbols[i] != symbols[j] {
      if symbols[i] == symbols[j] {
        DuplicateCountsTwice(symbols, i, j);
      }
    }
  }

  lemma DuplicateCountsTwice(s: seq<Symbol>, i: int, j: int)
    requires 0 <= i < j < |s| && s[i] == s[j]
    ensures multiset(s)[s[i]] >= 2
  {
    assert s == s[..i] + [s[i]] + s[i + 1..j] + [s[j]] + s[j + 1..];
  }

  /** Rows of a concatenation are the rows of the parts. */
  lemma {:induction false} RowsAppend(xs: seq<Symbol>, ys: seq<Symbol>, stocks: map<Symbol, Stock>, results: Yahoo.Results, rates: ExchangeRates.Rates)
    requires UsableRates(rates, stocks, results)
    ensures Rows(xs + ys, stocks, results, rates) == Rows(xs, stocks, results, rates) + Rows(ys, stocks, results, rates)
    decreases |ys|
  {
    if |ys| == 0 {
      assert xs + ys == xs;
    } else {
      var init := ys[..|ys| - 1];
      assert (xs + ys)[..|xs + ys| - 1] == xs + init;
      assert (xs + ys)[|xs + ys| - 1] == ys[|ys| - 1];
      RowsAppend(xs, init, stocks, results, rates);
    }
  }

  /** A holding without a quote adds nothing: leaving it out of the visiting
      order changes neither the rows nor the totals. */
  lemma UnquotedHoldingAddsNothing(
    xs: seq<Symbol>, symbol: Symbol, ys: seq<Symbol>,
    stocks: map<Symbol, Stock>, results: Yahoo.Results, rates: ExchangeRates.Rates)
    requires UsableRates(rates, stocks, results)
    requires symbol !in results
    ensures Rows(xs + [symbol] + ys, stocks, results, rates) == Rows(xs + ys, stocks, results, rates)
    ensures Summarize(Rows(xs + [symbol] + ys, stocks, results, rates)) == Summarize(Rows(xs + ys, stocks, results, rates))
  {
    RowsAppend(xs, [symbol], stocks, results, rates);
    RowsAppend(xs + [symbol], ys, stocks, results, rates);
    RowsAppend(xs, ys, stocks, results, rates);
    assert [symbol][..0] == [];
  }

  /** A zero rate only matters for a currency a held quote uses: with the
      table { XYZ: 0, USD: 1.25 }, a holding quoted in USD is valued at the
      inverse of 1.25. */
  lemma UnusedZeroRateIsHarmless(stock: Stock, quote: Yahoo.Quote)
    requires quote.currency == "USD"
    ensures var rates := ExchangeRates.Rates(map["XYZ" := 0.0, "USD" := 1.25]);
      && UsableRates(rates, map[stock.symbol := stock], map[stock.symbol := quote])
      && Rate(rates, quote.currency) == 0.8
  {
  }

  /** When no holding is converted, the total gain is the sum of the
      holdings' gains. */
  lemma {:induction false} TotalGainIsSumOfGains(rows: seq<Row>)
    requires forall j :: 0 <= j < |rows| ==> rows[j].rate == 1.0 && rows[j].guv == rows[j].eurValue - rows[j].orders.buy
    ensures Summarize(rows).guv == Collections.SumBy(rows, RowGuv)
    decreases |rows|
  {
    if |rows| > 0 {
      TotalGainIsSumOfGains(rows[..|rows| - 1]);
    }
  }

  /** With a converted holding the two disagree: a cost basis of 100 in a
      currency at 2 units per euro counts fully in the holding's gain but
      as 50 in the total, because the total converts the cost basis and the
      holding's gain does not. */
  lemma ConvertedCostBasisCountsDifferently()
    ensures var stock := Stock("ABC", "", "", "", [Order(0, 1.0, 100.0, 0.0, 0.0)], []);
      var quote := Yahoo.Quote("ABC", "", "", "USD", 100.0, 0.0);
      var rates := ExchangeRates.Rates(map["USD" := 2.0]);
      var row := HoldingRow("ABC", stock, quote, rates);
      && row.eurValue == 50.0
      && row.guv == -50.0
      && Summarize([row]).buySum == 50.0
      && Summarize([row]).guv == 0.0
  {
    var order := Order(0, 1.0, 100.0, 0.0, 0.0);
    var stock := Stock("ABC", "", "", "", [order], []);
    var quote := Yahoo.Quote("ABC", "", "", "USD", 100.0, 0.0);
    var rates := ExchangeRates.Rates(map["USD" := 2.0]);
    assert [order][..0] == [];
    assert Collections.SumBy([order], OrderCount) == 1.0;
    assert Collections.SumBy([order], OrderPrice) == 100.0;
    assert Collections.SumBy([order], OrderProvision) == 0.0;
    assert Collections.SumBy([order], OrderFee) == 0.0;
    assert Collections.SumBy([order], OrderCost) == 100.0;
    assert Collections.SumBy(stock.dividends, DividendAmount) == 0.0;
    var totals := OrderTotals(1.0, 100.0, 0.0, 0.0, 100.0);
    assert Rate(rates, "USD") == 0.5;
    var row := HoldingRow("ABC", stock, quote, rates);
    assert row == Figures("ABC", quote, 0.5, totals, 0.0);
    assert row.value == 100.0;
    assert row.eurValue == 50.0;
    assert [row][..0] == [];
    assert Collections.SumBy([row], RowConvertedBuy) == RowConvertedBuy(row);
    assert Collections.SumBy([row], RowEurValue) == RowEurValue(row);
  }
}
