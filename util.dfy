/** The list preparation of the terminal view (util.go): the entries keyed
    by stock name, the longest name in bytes, and the list items in
    ascending name order. The list widget is a sequence of items. */
module Util {
  import Strings
  import Collections
  import opened Portfolio
  import Yahoo

  /** maxLen: the larger of `i` and the byte length of `s`. */
  function MaxLen(i: int, s: string): (r: int)
    ensures r >= i && r >= Strings.ByteLen(s)
    ensures r == i || r == Strings.ByteLen(s)
  {
    var l := Strings.ByteLen(s);
    if i > l then i else l
  }

  /** A stock and its quote, as the view shows them. */
  datatype Entry = Entry(stock: Stock, result: Yahoo.Quote)

  /** An item of the list: the name, and the quote's symbol as the
      secondary text. */
  datatype ListItem = ListItem(mainText: string, secondaryText: string)

  /** `results[symbol]`: the quote, or the zero quote when there is none. */
  function ResultFor(results: Yahoo.Results, symbol: Symbol): (q: Yahoo.Quote)
    ensures symbol in results ==> q == results[symbol]
    ensures symbol !in results ==> q == Yahoo.ZeroQuote
  {
    if symbol in results then results[symbol] else Yahoo.ZeroQuote
  }

  function EntryOf(stock: Stock, results: Yahoo.Results): Entry {
    Entry(stock, ResultFor(results, stock.symbol))
  }

  function EntryName(e: Entry): string {
    e.stock.name
  }

  /** The stocks the map holds under `order`, in that order. */
  function Visit(stocks: map<Symbol, Stock>, order: seq<Symbol>): (r: seq<Stock>)
    requires forall i :: 0 <= i < |order| ==> order[i] in stocks
    ensures |r| == |order|
  {
    if |order| == 0 then []
    else Visit(stocks, order[..|order| - 1]) + [stocks[order[|order| - 1]]]
  }

  /** The entries built for `visited`, in order. */
  function EntryList(visited: seq<Stock>, results: Yahoo.Results): (r: seq<Entry>)
    ensures |r| == |visited|
  {
    if |visited| == 0 then []
    else EntryList(visited[..|visited| - 1], results) + [EntryOf(visited[|visited| - 1], results)]
  }

  /** The names of `visited`, in order. */
  function Names(visited: seq<Stock>): (r: seq<string>)
    ensures |r| == |visited|
  {
    if |visited| == 0 then [] else Names(visited[..|visited| - 1]) + [visited[|visited| - 1].name]
  }

  lemma {:induction false} VisitAt(stocks: map<Symbol, Stock>, order: seq<Symbol>)
    requires forall i :: 0 <= i < |order| ==> order[i] in stocks
    ensures forall i :: 0 <= i < |order| ==> Visit(stocks, order)[i] == stocks[order[i]]
    decreases |order|
  {
    if |order| > 0 {
      VisitAt(stocks, order[..|order| - 1]);
    }
  }

  lemma {:induction false} EntryListAt(visited: seq<Stock>, results: Yahoo.Results)
    ensures forall i :: 0 <= i < |visited| ==> EntryList(visited, results)[i] == EntryOf(visited[i], results)
    decreases |visited|
  {
    if |visited| > 0 {
      EntryListAt(visited[..|visited| - 1], results);
    }
  }

  lemma {:induction false} NamesAt(visited: seq<Stock>)
    ensures forall i :: 0 <= i < |visited| ==> Names(visited)[i] == visited[i].name
    decreases |visited|
  {
    if |visited| > 0 {
      NamesAt(visited[..|visited| - 1]);
    }
  }

  /** The running `nameMaxLen = maxLen(nameMaxLen, name)` from 0. */
  function MaxByteLen(names: seq<string>): (r: int)
    ensures r >= 0
  {
    if |names| == 0 then 0 else MaxLen(MaxByteLen(names[..|names| - 1]), names[|names| - 1])
  }

  /** The running maximum is the largest byte length of a name, 0 for no
      names. */
  lemma {:induction false} MaxByteLenIsLargest(names: seq<string>)
    ensures forall i :: 0 <= i < |names| ==> Strings.ByteLen(names[i]) <= MaxByteLen(names)
    ensures |names| == 0 ==> MaxByteLen(names) == 0
    ensures |names| > 0 ==> exists i :: 0 <= i < |names| && Strings.ByteLen(names[i]) == MaxByteLen(names)
    decreases |names|
  {
    if |names| > 0 {
      var init := names[..|names| - 1];
      MaxByteLenIsLargest(init);
      assert forall i :: 0 <= i < |init| ==> init[i] == names[i];
      if |init| > 0 && MaxByteLen(names) == MaxByteLen(init) {
        var i :| 0 <= i < |init| && Strings.ByteLen(init[i]) == MaxByteLen(init);
        assert Strings.ByteLen(names[i]) == MaxByteLen(names);
      } else {
        assert Strings.ByteLen(names[|names| - 1]) == MaxByteLen(names);
      }
    }
  }

  /** The first loop of prepare: walks the map in whatever order it yields
      its entries (returned as `order`), keys each stock's entry by its
      name with the later stock winning a name collision, keeps the
      longest name's byte length and collects the names. */
  method CollectEntries(stocks: map<Symbol, Stock>, results: Yahoo.Results)
    returns (entries: map<string, Entry>, nameMaxLen: int, names: seq<string>, order: seq<Symbol>)
    ensures multiset(order) == multiset(stocks.Keys)
    ensures forall i :: 0 <= i < |order| ==> order[i] in stocks
    ensures entries == Collections.IndexBy(EntryList(Visit(stocks, order), results), EntryName)
    ensures nameMaxLen == MaxByteLen(Names(Visit(stocks, order)))
    ensures names == Names(Visit(stocks, order))
  {
    var visit := Collections.IterationOrder(stocks);
    order := visit;
    entries := map[];
    names := [];
    nameMaxLen := 0;
    ghost var visited: seq<Stock> := [];
    for i := 0 to |visit|
      invariant |visited| == i
      invariant visited == Visit(stocks, visit[..i])
      invariant entries == Collections.IndexBy(EntryList(visited, results), EntryName)
      invariant nameMaxLen == MaxByteLen(names)
      invariant names == Names(visited)
    {
      var stock := stocks[visit[i]];
      VisitPrefix(stocks, visit, i);
      CollectStep(visited, stock, results);
      var name := stock.name;
      entries := entries[name := EntryOf(stock, results)];
      nameMaxLen := MaxLen(nameMaxLen, name);
      names := names + [name];
      visited := visited + [stock];
    }
    assert visit[..|visit|] == visit;
  }

  /** Visiting one more key of `order` appends that key's stock. */
  lemma VisitPrefix(stocks: map<Symbol, Stock>, order: seq<Symbol>, i: int)
    requires forall k :: 0 <= k < |order| ==> order[k] in stocks
    requires 0 <= i < |order|
    ensures Visit(stocks, order[..i + 1]) == Visit(stocks, order[..i]) + [stocks[order[i]]]
  {
    assert order[..i + 1][..i] == order[..i];
  }

  /** One step of the first loop: the visited stock's entry is stored under
      its name, its name is appended and its length joins the maximum. */
  lemma CollectStep(visited: seq<Stock>, stock: Stock, results: Yahoo.Results)
    ensures Collections.IndexBy(EntryList(visited + [stock], results), EntryName)
      == Collections.IndexBy(EntryList(visited, results), EntryName)[stock.name := EntryOf(stock, results)]
    ensures Names(visited + [stock]) == Names(visited) + [stock.name]
    ensures MaxByteLen(Names(visited + [stock])) == MaxLen(MaxByteLen(Names(visited)), stock.name)
  {
    EntryListAppend(visited, stock, results);
    Collections.IndexByAppend(EntryList(visited, results), EntryOf(stock, results), EntryName);
    NamesAppend(visited, stock);
    MaxByteLenAppend(Names(visited), stock.name);
  }

  lemma EntryListAppend(visited: seq<Stock>, stock: Stock, results: Yahoo.Results)
    ensures EntryList(visited + [stock], results) == EntryList(visited, results) + [EntryOf(stock, results)]
  {
    assert (visited + [stock])[..|visited|] == visited;
  }

  lemma NamesAppend(visited: seq<Stock>, stock: Stock)
    ensures Names(visited + [stock]) == Names(visited) + [stock.name]
  {
    assert (visited + [stock])[..|visited|] == visited;
  }

  lemma MaxByteLenAppend(names: seq<string>, name: string)
    ensures MaxByteLen(names + [name]) == MaxLen(MaxByteLen(names), name)
  {
    assert (names + [name])[..|names|] == names;
  }

  /** The second loop of prepare: one item per name, in the given order,
      with the name's entry's quote symbol. */
  method ListItems(names: seq<string>, entries: map<string, Entry>) returns (items: seq<ListItem>)
    requires forall i :: 0 <= i < |names| ==> names[i] in entries
    ensures |items| == |names|
    ensures forall i :: 0 <= i < |items| ==> items[i] == ListItem(names[i], entries[names[i]].result.symbol)
  {
    items := [];
    for i := 0 to |names|
      invariant |items| == i
      invariant forall j :: 0 <= j < i ==> items[j] == ListItem(names[j], entries[names[j]].result.symbol)
    {
      var entry := entries[names[i]];
      items := items + [ListItem(names[i], entry.result.symbol)];
    }
  }

  /** prepare: the entries keyed by name, the longest name, and the names
      listed in ascending order, each with its entry's quote symbol. The
      visiting order of the map is returned as `order`, the sorted
      names as `names`. */
  method Prepare(stocks: map<Symbol, Stock>, results: Yahoo.Results)
    returns (items: seq<ListItem>, entries: map<string, Entry>, nameMaxLen: int, order: seq<Symbol>, names: seq<string>)
    ensures multiset(order) == multiset(stocks.Keys)
    ensures forall i :: 0 <= i < |order| ==> order[i] in stocks
    ensures entries == Collections.IndexBy(EntryList(Visit(stocks, order), results), EntryName)
    ensures nameMaxLen == MaxByteLen(Names(Visit(stocks, order)))
    ensures names == Strings.SortStrings(Names(Visit(stocks, order)))
    ensures |items| == |names| == |stocks|
    ensures forall i :: 0 <= i < |items| ==> names[i] in entries && items[i] == ListItem(names[i], entries[names[i]].result.symbol)
  {
    var collected;
    entries, nameMaxLen, collected, order := CollectEntries(stocks, results);
    var sorted := Strings.SortStrings(collected);
    names := sorted;
    assert |stocks| == |stocks.Keys| == |multiset(stocks.Keys)| == |order|;
    forall i | 0 <= i < |sorted| ensures sorted[i] in entries {
      assert sorted[i] in multiset(collected);
      NameHasEntry(Visit(stocks, order), results, sorted[i]);
    }
    items := ListItems(sorted, entries);
  }

  /** Every visited name has an entry. */
  lemma NameHasEntry(visited: seq<Stock>, results: Yahoo.Results, name: string)
    requires name in Names(visited)
    ensures name in Collections.IndexBy(EntryList(visited, results), EntryName)
  {
    NamesAt(visited);
    EntryListAt(visited, results);
    var i :| 0 <= i < |visited| && Names(visited)[i] == name;
    assert EntryName(EntryList(visited, results)[i]) == name;
    assert name in Collections.Keys(EntryList(visited, results), EntryName);
  }

  /** What an entry holds: a stock of the map filed under its own name,
      with the quote of that stock's symbol or the zero quote. */
  lemma EntriesHoldTheirStocks(stocks: map<Symbol, Stock>, results: Yahoo.Results, order: seq<Symbol>)
    requires forall i :: 0 <= i < |order| ==> order[i] in stocks
    ensures var entries := Collections.IndexBy(EntryList(Visit(stocks, order), results), EntryName);
      forall name :: name in entries ==>
        && entries[name].stock.name == name
        && entries[name].stock in stocks.Values
        && entries[name].result == ResultFor(results, entries[name].stock.symbol)
  {
    var visited := Visit(stocks, order);
    var list := EntryList(visited, results);
    var entries := Collections.IndexBy(list, EntryName);
    VisitAt(stocks, order);
    EntryListAt(visited, results);
    forall name | name in entries
      ensures entries[name].stock in stocks.Values
      ensures entries[name].result == ResultFor(results, entries[name].stock.symbol)
    {
      var i :| 0 <= i < |list| && list[i] == entries[name];
      assert entries[name].stock == stocks[order[i]];
    }
  }

  /** The longest name over the whole map, whatever the visiting order:
      no stock's name is longer in bytes, some stock's name is exactly as
      long unless there are no stocks, and then it is 0. */
  lemma NameMaxLenIsLongest(stocks: map<Symbol, Stock>, order: seq<Symbol>)
    requires multiset(order) == multiset(stocks.Keys)
    requires forall i :: 0 <= i < |order| ==> order[i] in stocks
    ensures var m := MaxByteLen(Names(Visit(stocks, order)));
      && (forall k :: k in stocks ==> Strings.ByteLen(stocks[k].name) <= m)
      && (|stocks| == 0 ==> m == 0)
      && (|stocks| > 0 ==> exists k :: k in stocks && Strings.ByteLen(stocks[k].name) == m)
  {
    var visited := Visit(stocks, order);
    var names := Names(visited);
    VisitAt(stocks, order);
    NamesAt(visited);
    MaxByteLenIsLargest(names);
    forall k | k in stocks ensures Strings.ByteLen(stocks[k].name) <= MaxByteLen(names) {
      assert k in multiset(order);
      var i :| 0 <= i < |order| && order[i] == k;
      assert names[i] == stocks[k].name;
    }
    assert |stocks| == |stocks.Keys| == |multiset(stocks.Keys)| == |order|;
    if |stocks| > 0 {
      var i :| 0 <= i < |names| && Strings.ByteLen(names[i]) == MaxByteLen(names);
      assert stocks[order[i]].name == names[i];
    }
  }
}
