/** readDepot of the command-line program (depot.go): read and parse the
    depot file, then key the stocks by symbol and join every symbol, in
    file order, into the comma-separated ticker parameter. */
module DepotFile {
  import opened Base
  import Strings
  import Collections
  import opened Portfolio

  datatype DepotParams = DepotParams(stocks: map<Symbol, Stock>, param: string)

  /** The stocks of the depot file, or the read or parse error. */
  function ParsedStocks(filename: string, readFile: string -> Result<Bytes>, parse: Bytes -> Result<Depot>): Result<seq<Stock>>
  {
    match readFile(filename)
    case Err(e) => Err(e)
    case Ok(yml) =>
      match parse(yml)
      case Err(e) => Err(e)
      case Ok(depot) => Ok(depot.stocks)
  }

  method ReadDepot(filename: string, readFile: string -> Result<Bytes>, parse: Bytes -> Result<Depot>)
    returns (r: Result<DepotParams>)
    ensures r.Err? <==> ParsedStocks(filename, readFile, parse).Err?
    ensures r.Err? ==> r.error == ParsedStocks(filename, readFile, parse).error
    ensures r.Ok? ==>
      var parsed := ParsedStocks(filename, readFile, parse).value;
      && r.value.stocks == Collections.IndexBy(parsed, SymbolOf)
      && r.value.param == Strings.Join(Symbols(parsed), ",")
    ensures r.Ok? ==> forall k :: k in r.value.stocks ==> r.value.stocks[k].symbol == k
  {
    var yml := readFile(filename);
    if yml.Err? {
      return Err(yml.error);
    }
    var depot := parse(yml.value);
    if depot.Err? {
      return Err(depot.error);
    }
    var stocks, symbols := IndexStocks(depot.value.stocks);
    var param := Strings.Join(symbols, ",");
    r := Ok(DepotParams(stocks, param));
  }

  /** The parameter lists every parsed symbol, duplicates included, in
      file order: splitting it at the commas gives the symbols back when no
      symbol contains a comma. */
  lemma ParamListsSymbols(parsed: seq<Stock>)
    requires |parsed| > 0
    requires forall i :: 0 <= i < |parsed| ==> ',' !in parsed[i].symbol
    ensures Strings.Split(Strings.Join(Symbols(parsed), ","), ',') == Symbols(parsed)
  {
    Strings.SplitJoin(Symbols(parsed), ',');
  }
}
