/** The holdings declaration (portfolio/depot.go): the parsed depot, how
    LoadPortfolio turns it into a symbol-keyed map and a symbol list, and
    where it looks for the file. Reading the file and the YAML parse are
    parameters; the file system is seen through a `statOk` predicate (a
    successful os.Stat). */
module Portfolio {
  import opened Base
  import Strings
  import Collections

  type Symbol = string

  /** Times are kept as opaque integers; nothing in the core reads them. */
  datatype Order = Order(date: int, count: real, price: real, provision: real, fee: real)

  datatype Dividend = Dividend(
    date: int,
    count: real,
    amount: real,
    quellensteuer: real,
    kapitalertragsteuer: real,
    solidaritaetszuschlag: real,
    kirchensteuer: real)

  /** A holding. `name`, `wkn` and `isin` are the display fields the
      terminal view reads. */
  datatype Stock = Stock(
    symbol: Symbol,
    name: string,
    wkn: string,
    isin: string,
    orders: seq<Order>,
    dividends: seq<Dividend>)

  datatype Secrets = Secrets(yahooKey: string, yahooHost: string, freecurrencyApiKey: string)

  datatype Depot = Depot(stocks: seq<Stock>, secrets: Secrets)

  datatype Loaded = Loaded(stocks: map<Symbol, Stock>, symbols: seq<Symbol>, secrets: Secrets)

  function SymbolOf(s: Stock): Symbol {
    s.symbol
  }

  /** The symbols of the parsed stocks, in file order, duplicates kept. */
  function Symbols(stocks: seq<Stock>): (r: seq<Symbol>)
    ensures |r| == |stocks|
    ensures forall i :: 0 <= i < |r| ==> r[i] == stocks[i].symbol
  {
    if |stocks| == 0 then [] else Symbols(stocks[..|stocks| - 1]) + [stocks[|stocks| - 1].symbol]
  }

  /** The loop shared by readDepot and LoadPortfolio: every parsed stock
      is stored under its symbol (a later duplicate overwrites) and its
      symbol appended to the list. */
  method IndexStocks(parsed: seq<Stock>) returns (stocks: map<Symbol, Stock>, symbols: seq<Symbol>)
    ensures stocks == Collections.IndexBy(parsed, SymbolOf)
    ensures symbols == Symbols(parsed)
    ensures forall i :: 0 <= i < |symbols| ==> symbols[i] in stocks
    ensures forall k :: k in stocks ==> stocks[k].symbol == k
  {
    stocks := map[];
    symbols := [];
    for i := 0 to |parsed|
      invariant stocks == Collections.IndexBy(parsed[..i], SymbolOf)
      invariant symbols == Symbols(parsed[..i])
    {
      assert parsed[..i + 1][..i] == parsed[..i];
      stocks := stocks[parsed[i].symbol := parsed[i]];
      symbols := symbols + [parsed[i].symbol];
    }
    assert parsed[..|parsed|] == parsed;
    forall i | 0 <= i < |symbols| ensures symbols[i] in stocks {
      assert SymbolOf(parsed[i]) in Collections.Keys(parsed, SymbolOf);
    }
  }

  /** The error os.Stat reports for a missing file. */
  function NotExist(path: string): string {
    "stat " + path + ": no such file or directory"
  }

  function ConfigDirCandidate(userConfigDir: string): string {
    Strings.PathJoin([userConfigDir, "kurse", "portfolio.yml"])
  }

  function WorkingDirCandidate(workingDir: string): string {
    Strings.PathJoin([workingDir, "portfolio.yml"])
  }

  /** portfolioConfigurationFile: `<userConfigDir>/kurse/portfolio.yml` if
      it exists, else `<cwd>/portfolio.yml` if it exists; the error of the
      last step tried otherwise. */
  function PortfolioConfigurationFile(userConfigDir: Result<string>, workingDir: Result<string>, statOk: string -> bool): (r: Result<string>)
    ensures r.Ok? ==> statOk(r.value)
    ensures r.Ok? <==>
      || (userConfigDir.Ok? && statOk(ConfigDirCandidate(userConfigDir.value)))
      || (workingDir.Ok? && statOk(WorkingDirCandidate(workingDir.value)))
    ensures userConfigDir.Ok? && statOk(ConfigDirCandidate(userConfigDir.value)) ==>
      r == Ok(ConfigDirCandidate(userConfigDir.value))
    ensures r.Ok? && !(userConfigDir.Ok? && r.value == ConfigDirCandidate(userConfigDir.value)) ==>
      workingDir.Ok? && r.value == WorkingDirCandidate(workingDir.value)
    ensures r.Err? && workingDir.Err? ==> r.error == workingDir.error
  {
    if userConfigDir.Ok? && statOk(ConfigDirCandidate(userConfigDir.value)) then
      Ok(ConfigDirCandidate(userConfigDir.value))
    else if workingDir.Err? then
      Err(workingDir.error)
    else
      var filename := WorkingDirCandidate(workingDir.value);
      if statOk(filename) then Ok(filename) else Err(NotExist(filename))
  }

  /** The depot LoadPortfolio parses: locate, read and parse, stopping at
      the first error. */
  function ParseDepot(
    userConfigDir: Result<string>, workingDir: Result<string>, statOk: string -> bool,
    readFile: string -> Result<Bytes>, parse: Bytes -> Result<Depot>): Result<Depot>
  {
    match PortfolioConfigurationFile(userConfigDir, workingDir, statOk)
    case Err(e) => Err(e)
    case Ok(filename) =>
      match readFile(filename)
      case Err(e) => Err(e)
      case Ok(yml) => parse(yml)
  }

  /** LoadPortfolio: on success the symbol-keyed stocks, every parsed
      symbol in file order, and the parsed secrets unchanged; on any error
      that error and nothing else. */
  method LoadPortfolio(
    userConfigDir: Result<string>, workingDir: Result<string>, statOk: string -> bool,
    readFile: string -> Result<Bytes>, parse: Bytes -> Result<Depot>)
    returns (r: Result<Loaded>)
    ensures r.Err? <==> ParseDepot(userConfigDir, workingDir, statOk, readFile, parse).Err?
    ensures r.Err? ==> r.error == ParseDepot(userConfigDir, workingDir, statOk, readFile, parse).error
    ensures r.Ok? ==>
      var depot := ParseDepot(userConfigDir, workingDir, statOk, readFile, parse).value;
      && r.value.stocks == Collections.IndexBy(depot.stocks, SymbolOf)
      && r.value.symbols == Symbols(depot.stocks)
      && r.value.secrets == depot.secrets
    ensures r.Ok? ==> forall i :: 0 <= i < |r.value.symbols| ==> r.value.symbols[i] in r.value.stocks
  {
    var filename := PortfolioConfigurationFile(userConfigDir, workingDir, statOk);
    if filename.Err? {
      return Err(filename.error);
    }
    var yml := readFile(filename.value);
    if yml.Err? {
      return Err(yml.error);
    }
    var depot := parse(yml.value);
    if depot.Err? {
      return Err(depot.error);
    }
    var stocks, symbols := IndexStocks(depot.value.stocks);
    r := Ok(Loaded(stocks, symbols, depot.value.secrets));
  }
}
