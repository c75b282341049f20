/** The list page backed by the mock data source: it loads the stock table,
    then every stock's price history into a symbol-keyed map, derives the
    latest price, latest volume and daily change of each row, and filters the
    rows by a search term. */
module StockListPage {
  import opened Wrappers
  import Text
  import Seqs
  import MockApi

  type Row = MockApi.RawPriceRow
  type Series = seq<Row>

  /** Position `i` of the row holds a number. */
  predicate NumberAt(row: Row, i: nat)
  {
    i < |row| && row[i].Num?
  }

  /** The close, position 5 of a price row. */
  function CloseOf(row: Row): real
    requires NumberAt(row, 5)
  {
    row[5].n
  }

  /** The last `k` rows of the series, which the derivations read, hold a
      number in the close position. */
  predicate LastClosesNumeric(prices: Option<Series>, k: nat)
  {
    prices.Some? ==>
      forall i :: 0 <= i < |prices.value| && |prices.value| - k <= i ==> NumberAt(prices.value[i], 5)
  }

  /** A derived value, or the page's "no data" placeholder ("$0.00" for a
      price, "0" for a volume). */
  datatype Latest<T> = NoData | Latest(value: T)

  /** A percentage; dividing by a previous close of zero gives a value that
      is not finite (Infinity or NaN in the source). */
  datatype Percent = Finite(value: real) | NotFinite

  /** The `change` of getDailyChange and the percentage its `percentStr` shows. */
  datatype DailyChange = DailyChange(change: real, percent: Percent)

  /** The placeholder for fewer than two rows: "$0.00" and "0.00%". */
  const NoChange: DailyChange := DailyChange(0.0, Finite(0.0))

  /** getDailyChange: the difference of the last two closes and that
      difference as a percentage of the earlier one. */
  function GetDailyChange(prices: Option<Series>): (r: DailyChange)
    requires LastClosesNumeric(prices, 2)
    ensures prices.None? || |prices.value| < 2 ==> r == NoChange
    ensures prices.Some? && |prices.value| >= 2 ==>
      var s := prices.value;
      var current, previous := CloseOf(s[|s| - 1]), CloseOf(s[|s| - 2]);
      previous + r.change == current &&
      (r.percent.Finite? <==> previous != 0.0) &&
      (r.percent.Finite? ==> r.percent.value * previous == r.change * 100.0)
  {
    if prices.None? || |prices.value| < 2 then NoChange
    else
      var s := prices.value;
      var currentPrice := CloseOf(s[|s| - 1]);
      var previousClose := CloseOf(s[|s| - 2]);
      var change := currentPrice - previousClose;
      if previousClose == 0.0 then DailyChange(change, NotFinite)
      else
        PercentScales(change, previousClose);
        DailyChange(change, Finite(change / previousClose * 100.0))
  }

  lemma PercentScales(change: real, previous: real)
    requires previous != 0.0
    ensures change / previous * 100.0 * previous == change * 100.0
  {
    assert change / previous * previous == change;
  }

  /** getLatestPrice: the close of the last row, or "no data" when the
      series is missing or empty. */
  function GetLatestPrice(prices: Option<Series>): (r: Latest<real>)
    requires LastClosesNumeric(prices, 1)
    ensures r.NoData? <==> prices.None? || prices.value == []
    ensures r.Latest? ==> r.value == CloseOf(prices.value[|prices.value| - 1])
  {
    if prices.None? || prices.value == [] then NoData
    else Latest(CloseOf(prices.value[|prices.value| - 1]))
  }

  /** getLatestVolume: position 6 of the last row (handed to a number
      formatter), or "no data" when the series is missing or empty. */
  function GetLatestVolume(prices: Option<Series>): (r: Latest<MockApi.Cell>)
    ensures r.NoData? <==> prices.None? || prices.value == []
    ensures r.Latest? ==> r.value == MockApi.CellAt(prices.value[|prices.value| - 1], 6)
  {
    if prices.None? || prices.value == [] then NoData
    else Latest(MockApi.CellAt(prices.value[|prices.value| - 1], 6))
  }

  /** A newly appended row becomes the latest price and the latest volume. */
  lemma AppendedRowIsLatest(s: Series, row: Row)
    requires NumberAt(row, 5)
    ensures GetLatestPrice(Some(s + [row])) == Latest(CloseOf(row))
    ensures GetLatestVolume(Some(s + [row])) == Latest(MockApi.CellAt(row, 6))
  {
  }

  /** The daily change is the latest price minus the latest price before the
      last row was added. */
  lemma {:induction false} DailyChangeIsLatestMinusPrevious(s: Series)
    requires |s| >= 2 && LastClosesNumeric(Some(s), 2)
    ensures GetDailyChange(Some(s)).change ==
      GetLatestPrice(Some(s)).value - GetLatestPrice(Some(s[..|s| - 1])).value
  {
    assert s[..|s| - 1][|s| - 2] == s[|s| - 2];
  }

  /** A positive previous close gives the percentage the sign of the change. */
  lemma PercentFollowsChange(s: Series)
    requires |s| >= 2 && LastClosesNumeric(Some(s), 2) && CloseOf(s[|s| - 2]) > 0.0
    ensures var r := GetDailyChange(Some(s));
      r.percent.Finite? && (r.percent.value > 0.0 <==> r.change > 0.0) &&
      (r.percent.value < 0.0 <==> r.change < 0.0)
  {
    var r := GetDailyChange(Some(s));
    var previous := CloseOf(s[|s| - 2]);
    assert r.percent.value * previous == r.change * 100.0;
    if r.percent.value > 0.0 {
      assert r.percent.value * previous > 0.0;
    } else if r.percent.value < 0.0 {
      assert r.percent.value * previous < 0.0;
    }
  }

  // ---------------------------------------------------------------------
  // Search

  /** The search keeps a stock when the lower-cased term occurs in its
      lower-cased symbol or in its lower-cased short name. */
  predicate MatchesSearch(stock: MockApi.Stock, term: string)
  {
    Text.Includes(Text.Lower(stock.symbol), Text.Lower(term)) ||
    Text.Includes(Text.Lower(stock.shortName), Text.Lower(term))
  }

  /** The search as a statement about positions: the term occurs somewhere
      in the lower-cased symbol or short name. */
  lemma MatchesSearchIff(stock: MockApi.Stock, term: string)
    ensures MatchesSearch(stock, term) <==>
      (exists i: nat :: Text.OccursAt(Text.Lower(stock.symbol), Text.Lower(term), i)) ||
      (exists i: nat :: Text.OccursAt(Text.Lower(stock.shortName), Text.Lower(term), i))
  {
    Text.IncludesIff(Text.Lower(stock.symbol), Text.Lower(term));
    Text.IncludesIff(Text.Lower(stock.shortName), Text.Lower(term));
  }

  /** The rows shown for a search term: the matching stocks, in table
      order, unchanged. */
  function SearchStocks(stocks: seq<MockApi.Stock>, term: string): (r: seq<MockApi.Stock>)
    ensures Seqs.IsSubseq(r, stocks)
    ensures forall x :: x in r <==> x in stocks && MatchesSearch(x, term)
    ensures forall x :: multiset(r)[x] == if MatchesSearch(x, term) then multiset(stocks)[x] else 0
  {
    Seqs.Filter(stocks, (s: MockApi.Stock) => MatchesSearch(s, term))
  }

  /** An empty search box shows every stock. */
  lemma EmptySearchKeepsAll(stocks: seq<MockApi.Stock>)
    ensures SearchStocks(stocks, "") == stocks
  {
    forall i | 0 <= i < |stocks| ensures MatchesSearch(stocks[i], "") {
      Text.EmptyIncluded(Text.Lower(stocks[i].symbol));
    }
    Seqs.FilterKeepsAll(stocks, (s: MockApi.Stock) => MatchesSearch(s, ""));
  }

  /** Terms that differ only in letter case show the same rows. */
  lemma SearchIgnoresCase(stocks: seq<MockApi.Stock>, t1: string, t2: string)
    requires Text.Lower(t1) == Text.Lower(t2)
    ensures SearchStocks(stocks, t1) == SearchStocks(stocks, t2)
  {
    Seqs.FilterCongruent(stocks,
      (s: MockApi.Stock) => MatchesSearch(s, t1), (s: MockApi.Stock) => MatchesSearch(s, t2));
  }

  // ---------------------------------------------------------------------
  // Loading the prices map

  /** Entry i is `[stocks[i][0], prices of that symbol]`. */
  predicate EntriesFor(stocks: seq<MockApi.Stock>, history: map<string, Series>,
                       entries: seq<(string, Series)>)
  {
    |entries| == |stocks| &&
    forall i :: 0 <= i < |stocks| ==>
      stocks[i].symbol in history && entries[i] == (stocks[i].symbol, history[stocks[i].symbol])
  }

  /** `Promise.all` over one fetchStockPrices per listed stock: the
      `[symbol, prices]` entries in list order, or the lookup's error as soon
      as one symbol has no history. */
  function FetchAllPrices(stocks: seq<MockApi.Stock>, history: map<string, Series>)
    : (r: Result<seq<(string, Series)>, MockApi.ApiError>)
    ensures r.Success? <==> forall i :: 0 <= i < |stocks| ==> stocks[i].symbol in history
    ensures r.Failure? ==> r.error == MockApi.PriceHistoryNotFound
    ensures r.Success? ==> EntriesFor(stocks, history, r.value)
  {
    if stocks == [] then Success([])
    else
      match MockApi.FetchStockPrices(history, stocks[0].symbol)
      case Failure(e) => Failure(e)
      case Success(prices) =>
        match FetchAllPrices(stocks[1..], history)
        case Failure(e) => Failure(e)
        case Success(rest) => Success([(stocks[0].symbol, prices)] + rest)
  }

  /** No entry after position j has the same key. */
  predicate LastWithKey<V>(entries: seq<(string, V)>, j: nat)
    requires j < |entries|
  {
    forall l :: j < l < |entries| ==> entries[l].0 != entries[j].0
  }

  /** `Object.fromEntries`: one key per distinct first component; a later
      entry for the same key overwrites an earlier one. */
  function FromEntries<V>(entries: seq<(string, V)>): (m: map<string, V>)
    ensures m.Keys == set e | e in entries :: e.0
    ensures forall k :: k in m ==> (k, m[k]) in entries
    ensures forall j :: 0 <= j < |entries| && LastWithKey(entries, j) ==> m[entries[j].0] == entries[j].1
  {
    if entries == [] then map[]
    else
      var init := entries[..|entries| - 1];
      var last := entries[|entries| - 1];
      var m := FromEntries(init);
      assert entries == init + [last];
      m[last.0 := last.1]
  }

  /** The `stockPrices` state once loading has finished: the map built from
      the fetched entries, or still the initial `{}` when one fetch threw
      (the error is only logged). */
  function LoadedPrices(stocks: seq<MockApi.Stock>, history: map<string, Series>)
    : (m: map<string, Series>)
    ensures (forall i :: 0 <= i < |stocks| ==> stocks[i].symbol in history) ==>
      m.Keys == (set i | 0 <= i < |stocks| :: stocks[i].symbol) &&
      forall i :: 0 <= i < |stocks| ==> m[stocks[i].symbol] == history[stocks[i].symbol]
    ensures !(forall i :: 0 <= i < |stocks| ==> stocks[i].symbol in history) ==> m == map[]
  {
    match FetchAllPrices(stocks, history)
    case Failure(_) => map[]
    case Success(entries) =>
      EntriesMapSymbols(stocks, history, entries);
      FromEntries(entries)
  }

  /** The map built from one entry per stock sends each symbol to its own
      history. */
  lemma EntriesMapSymbols(stocks: seq<MockApi.Stock>, history: map<string, Series>,
                          entries: seq<(string, Series)>)
    requires EntriesFor(stocks, history, entries)
    ensures var m := FromEntries(entries);
      m.Keys == (set i | 0 <= i < |stocks| :: stocks[i].symbol) &&
      forall i :: 0 <= i < |stocks| ==> m[stocks[i].symbol] == history[stocks[i].symbol]
  {
    var m := FromEntries(entries);
    forall i | 0 <= i < |stocks| ensures m[stocks[i].symbol] == history[stocks[i].symbol] {
      assert entries[i] in entries;
      var k := stocks[i].symbol;
      assert (k, m[k]) in entries;
    }
    forall k | k in m ensures k in (set i | 0 <= i < |stocks| :: stocks[i].symbol) {
      var j :| 0 <= j < |entries| && entries[j] == (k, m[k]);
      assert stocks[j].symbol == k;
    }
    forall i | 0 <= i < |stocks| ensures stocks[i].symbol in m {
      assert entries[i] in entries;
    }
  }

  // ---------------------------------------------------------------------
  // The rows

  /** `stockPrices[stock[0]]`: undefined when the map has no entry. */
  function PricesFor(stockPrices: map<string, Series>, symbol: string): (r: Option<Series>)
    ensures r.Some? <==> symbol in stockPrices
    ensures r.Some? ==> r.value == stockPrices[symbol]
  {
    if symbol in stockPrices then Some(stockPrices[symbol]) else None
  }

  /** Every series in the map can be read by the derivations. */
  predicate ReadablePrices(stockPrices: map<string, Series>)
  {
    forall s :: s in stockPrices ==> LastClosesNumeric(Some(stockPrices[s]), 2)
  }

  /** What one row of the list shows; `gain` selects the green colour. */
  datatype RowView = RowView(
    symbol: string, name: string, change: DailyChange, price: Latest<real>,
    volume: Latest<MockApi.Cell>, marketCap: string, currency: string, gain: bool)

  /** One row of the list. */
  function StockRowView(stock: MockApi.Stock, stockPrices: map<string, Series>): (v: RowView)
    requires ReadablePrices(stockPrices)
    ensures v.symbol == stock.symbol && v.name == stock.shortName
    ensures v.marketCap == stock.marketCap && v.currency == stock.currency
    ensures var p := PricesFor(stockPrices, stock.symbol);
      v.gain <==>
        (p.None? || |p.value| < 2 || CloseOf(p.value[|p.value| - 1]) >= CloseOf(p.value[|p.value| - 2]))
    ensures stock.symbol !in stockPrices ==>
      v.change == NoChange && v.price == NoData && v.volume == NoData && v.gain
  {
    var prices := PricesFor(stockPrices, stock.symbol);
    var dailyChange := GetDailyChange(prices);
    RowView(stock.symbol, stock.shortName, dailyChange, GetLatestPrice(prices),
      GetLatestVolume(prices), stock.marketCap, stock.currency, dailyChange.change >= 0.0)
  }

  /** The list: the searched stocks in table order, one row each. */
  function ListView(stocks: seq<MockApi.Stock>, stockPrices: map<string, Series>, term: string)
    : (rows: seq<RowView>)
    requires ReadablePrices(stockPrices)
    ensures |rows| == |SearchStocks(stocks, term)|
    ensures forall i :: 0 <= i < |rows| ==>
      rows[i] == StockRowView(SearchStocks(stocks, term)[i], stockPrices)
  {
    var shown := SearchStocks(stocks, term);
    seq(|shown|, i requires 0 <= i < |shown| => StockRowView(shown[i], stockPrices))
  }

  /** When one listed symbol has no price history the whole batch fails, so
      every row shows the placeholders and is coloured as a gain. */
  lemma FailedBatchShowsPlaceholders(
    stocks: seq<MockApi.Stock>, history: map<string, Series>, term: string, i: nat)
    requires i < |stocks| && stocks[i].symbol !in history
    ensures var rows := ListView(stocks, LoadedPrices(stocks, history), term);
      forall j :: 0 <= j < |rows| ==>
        rows[j].change == NoChange && rows[j].price == NoData && rows[j].volume == NoData &&
        rows[j].gain
  {
    assert LoadedPrices(stocks, history) == map[];
  }

  /** Generated histories can be read by the derivations. */
  lemma GeneratedHistoryReadable(draws: map<string, seq<MockApi.DayDraws>>)
    requires MockApi.DrawsForAll(draws)
    ensures ReadablePrices(MockApi.MockPriceHistory(draws))
  {
    var h := MockApi.MockPriceHistory(draws);
    forall s | s in h ensures LastClosesNumeric(Some(h[s]), 2) {
      MockApi.GeneratedRowsShape(MockApi.MockBasePrices[s], 30, draws[s]);
    }
  }
}
