/** The in-memory data source the list and detail pages read from: a table
    of listed stocks, a per-symbol table of generated price histories, and the
    lookups over both. */
module MockApi {
  import opened Wrappers

  /** One row of the stock table. The source keeps it as a positional array;
      the fields below are its positions 0 to 9 in order. `marketCap` is kept
      as the decimal string the table stores. */
  datatype Stock = Stock(
    symbol: string,      // 0
    shortName: string,   // 1
    longName: string,    // 2
    sector: string,      // 3
    industry: string,    // 4
    marketCap: string,   // 5
    currency: string,    // 6
    exchange: string,    // 7
    quoteType: string,   // 8
    updated: string)     // 9

  /** The two errors the data source throws. */
  datatype ApiError = StockNotFound | PriceHistoryNotFound

  /** The text of the `Error` each one throws. */
  function Message(e: ApiError): string
  {
    match e
    case StockNotFound => "Stock not found"
    case PriceHistoryNotFound => "Stock price history not found"
  }

  const Updated: string := "2024-11-11 05:33:12.803444"

  /** The fifteen listed stocks, in their stored order. */
  const MockStocks: seq<Stock> := [
    Stock("AAPL", "Apple Inc.", "Apple Inc.", "Technology", "Consumer Electronics", "3430681935872", "USD", "NMS", "EQUITY", Updated),
    Stock("MSFT", "Microsoft", "Microsoft Corporation", "Technology", "Software", "2890681935872", "USD", "NMS", "EQUITY", Updated),
    Stock("GOOGL", "Alphabet", "Alphabet Inc.", "Technology", "Internet Services", "1890681935872", "USD", "NMS", "EQUITY", Updated),
    Stock("AMZN", "Amazon", "Amazon.com Inc.", "Consumer Cyclical", "Internet Retail", "1590681935872", "USD", "NMS", "EQUITY", Updated),
    Stock("META", "Meta", "Meta Platforms Inc.", "Technology", "Internet Services", "890681935872", "USD", "NMS", "EQUITY", Updated),
    Stock("NVDA", "NVIDIA", "NVIDIA Corporation", "Technology", "Semiconductors", "1120681935872", "USD", "NMS", "EQUITY", Updated),
    Stock("WMT", "Walmart", "Walmart Inc.", "Consumer Defensive", "Retail", "420681935872", "USD", "NYSE", "EQUITY", Updated),
    Stock("JPM", "JPMorgan", "JPMorgan Chase & Co.", "Financial", "Banks", "510681935872", "USD", "NYSE", "EQUITY", Updated),
    Stock("V", "Visa", "Visa Inc.", "Financial", "Credit Services", "495681935872", "USD", "NYSE", "EQUITY", Updated),
    Stock("JNJ", "Johnson & Johnson", "Johnson & Johnson", "Healthcare", "Drug Manufacturers", "380681935872", "USD", "NYSE", "EQUITY", Updated),
    Stock("UNH", "UnitedHealth", "UnitedHealth Group Inc.", "Healthcare", "Healthcare Plans", "445681935872", "USD", "NYSE", "EQUITY", Updated),
    Stock("XOM", "ExxonMobil", "Exxon Mobil Corporation", "Energy", "Oil & Gas", "468681935872", "USD", "NYSE", "EQUITY", Updated),
    Stock("NFLX", "Netflix", "Netflix Inc.", "Communication Services", "Entertainment", "215681935872", "USD", "NMS", "EQUITY", Updated),
    Stock("DIS", "Disney", "The Walt Disney Company", "Communication Services", "Entertainment", "198681935872", "USD", "NYSE", "EQUITY", Updated),
    Stock("TSLA", "Tesla", "Tesla Inc.", "Consumer Cyclical", "Auto Manufacturers", "856681935872", "USD", "NMS", "EQUITY", Updated)
  ]

  /** The base price each symbol's generated history starts from. */
  const MockBasePrices: map<string, real> := map[
    "AAPL" := 225.50,
    "MSFT" := 335.75,
    "GOOGL" := 140.25,
    "AMZN" := 145.80,
    "META" := 325.90,
    "NVDA" := 485.90,
    "WMT" := 169.50,
    "JPM" := 152.75,
    "V" := 245.30,
    "JNJ" := 158.90,
    "UNH" := 528.40,
    "XOM" := 105.80,
    "NFLX" := 435.60,
    "DIS" := 92.75,
    "TSLA" := 238.45
  ]

  /** The whole table, in stored order. */
  function FetchStockList(): (r: seq<Stock>)
    ensures |r| == 15
  {
    MockStocks
  }

  /** Index of the first row of `table` whose symbol is `symbol`, or
      `|table|` when there is none. */
  function FirstMatch(table: seq<Stock>, symbol: string): (k: nat)
    ensures k <= |table|
    ensures forall j :: 0 <= j < k ==> table[j].symbol != symbol
    ensures k < |table| ==> table[k].symbol == symbol
  {
    if table == [] then 0
    else if table[0].symbol == symbol then 0
    else 1 + FirstMatch(table[1..], symbol)
  }

  /** `table.find(stock => stock[0] === symbol)`, throwing "Stock not found"
      when it yields nothing. */
  function FindStock(table: seq<Stock>, symbol: string): (r: Result<Stock, ApiError>)
    ensures r.Failure? <==> forall i :: 0 <= i < |table| ==> table[i].symbol != symbol
    ensures r.Failure? ==> r.error == StockNotFound
    ensures r.Success? ==> r.value.symbol == symbol
    ensures r.Success? ==>
      exists k :: 0 <= k < |table| && table[k] == r.value &&
        forall j :: 0 <= j < k ==> table[j].symbol != symbol
  {
    var k := FirstMatch(table, symbol);
    if k < |table| then Success(table[k]) else Failure(StockNotFound)
  }

  /** fetchStockDetail over the mock table. */
  function FetchStockDetail(symbol: string): (r: Result<Stock, ApiError>)
    ensures r.Success? ==> r.value in MockStocks && r.value.symbol == symbol
  {
    FindStock(MockStocks, symbol)
  }

  /** A failed lookup throws "Stock not found"; a failed price lookup throws
      "Stock price history not found". */
  lemma ThrownMessages(history: map<string, seq<RawPriceRow>>, symbol: string)
    ensures FetchStockDetail(symbol).Failure? ==>
      Message(FetchStockDetail(symbol).error) == "Stock not found"
    ensures FetchStockPrices(history, symbol).Failure? ==>
      Message(FetchStockPrices(history, symbol).error) == "Stock price history not found"
  {
  }

  /** No two listed stocks share a symbol. */
  lemma ListedSymbolsDistinct()
    ensures forall i, j :: 0 <= i < j < |MockStocks| ==> MockStocks[i].symbol != MockStocks[j].symbol
  {
    var symbols := ["AAPL", "MSFT", "GOOGL", "AMZN", "META", "NVDA", "WMT", "JPM",
                    "V", "JNJ", "UNH", "XOM", "NFLX", "DIS", "TSLA"];
    assert forall i :: 0 <= i < |MockStocks| ==> MockStocks[i].symbol == symbols[i];
    assert forall i, j :: 0 <= i < j < |symbols| ==> symbols[i] != symbols[j];
  }

  /** Every stock the list returns is found again by its own symbol. */
  lemma ListedStocksAreFound()
    ensures forall i :: 0 <= i < |FetchStockList()| ==>
      FetchStockDetail(FetchStockList()[i].symbol) == Success(FetchStockList()[i])
  {
    ListedSymbolsDistinct();
    forall i | 0 <= i < |MockStocks|
      ensures FetchStockDetail(MockStocks[i].symbol) == Success(MockStocks[i])
    {
      FoundByUniqueSymbol(MockStocks, i);
    }
  }

  /** A row whose symbol no earlier row carries is what the lookup returns. */
  lemma FoundByUniqueSymbol(table: seq<Stock>, i: nat)
    requires i < |table|
    requires forall j :: 0 <= j < i ==> table[j].symbol != table[i].symbol
    ensures FindStock(table, table[i].symbol) == Success(table[i])
  {
    var k := FirstMatch(table, table[i].symbol);
    assert k <= i;
  }

  // ---------------------------------------------------------------------
  // Price history

  /** One cell of a positional price row. Reading past the end of the array
      gives `Undefined`. */
  datatype Cell = Num(n: real) | Str(s: string) | Undefined

  /** `[sequence, datetime, open, high, low, close, volume, 0, 0, trend]`,
      as the generator pushes it. */
  type RawPriceRow = seq<Cell>

  function CellAt(row: RawPriceRow, i: nat): Cell
  {
    if i < |row| then row[i] else Undefined
  }

  /** The named record a positional row is converted to. */
  datatype PricePoint = PricePoint(
    id: Cell, datetime: Cell, open: Cell, high: Cell, low: Cell,
    close: Cell, volume: Cell, value1: Cell, value2: Cell, symbol: Cell)

  /** The fields of a record, back in positional order. */
  function Fields(p: PricePoint): (r: RawPriceRow)
    ensures |r| == 10
  {
    [p.id, p.datetime, p.open, p.high, p.low, p.close, p.volume, p.value1, p.value2, p.symbol]
  }

  /** parsePriceData: position i of the row becomes the i-th named field. */
  function ParsePriceData(row: RawPriceRow): (p: PricePoint)
    ensures forall i :: 0 <= i < 10 ==> Fields(p)[i] == CellAt(row, i)
    ensures |row| == 10 ==> Fields(p) == row
  {
    PricePoint(CellAt(row, 0), CellAt(row, 1), CellAt(row, 2), CellAt(row, 3), CellAt(row, 4),
               CellAt(row, 5), CellAt(row, 6), CellAt(row, 7), CellAt(row, 8), CellAt(row, 9))
  }

  /** Parsing a record's own positional form gives the record back. */
  lemma ParseFieldsRoundTrip(p: PricePoint)
    ensures ParsePriceData(Fields(p)) == p
  {
  }

  /** fetchStockPrices: the stored series for `symbol`, unchanged, or
      "Stock price history not found" when the table has no entry. An empty
      series is an entry (an empty array is truthy). */
  function FetchStockPrices(history: map<string, seq<RawPriceRow>>, symbol: string)
    : (r: Result<seq<RawPriceRow>, ApiError>)
    ensures r.Success? <==> symbol in history
    ensures r.Success? ==> r.value == history[symbol]
    ensures r.Failure? ==> r.error == PriceHistoryNotFound
  {
    if symbol in history then Success(history[symbol]) else Failure(PriceHistoryNotFound)
  }

  /** fetchStockPricesAsObjects: the same lookup, every row parsed, errors
      passed through. */
  function FetchStockPricesAsObjects(history: map<string, seq<RawPriceRow>>, symbol: string)
    : (r: Result<seq<PricePoint>, ApiError>)
    ensures r.Success? <==> FetchStockPrices(history, symbol).Success?
    ensures r.Failure? ==> r.error == FetchStockPrices(history, symbol).error
    ensures r.Success? ==>
      var raw := FetchStockPrices(history, symbol).value;
      |r.value| == |raw| && forall i :: 0 <= i < |raw| ==> r.value[i] == ParsePriceData(raw[i])
  {
    match FetchStockPrices(history, symbol)
    case Failure(e) => Failure(e)
    case Success(raw) => Success(seq(|raw|, i requires 0 <= i < |raw| => ParsePriceData(raw[i])))
  }

  // ---------------------------------------------------------------------
  // Price generation

  /** What one generated day takes from outside: the formatted date and the
      four `Math.random()` draws, in the order the loop body makes them
      (price move, high spread, low spread, volume). */
  datatype DayDraws = DayDraws(stamp: string, move: real, upper: real, lower: real, volume: real)

  /** Every draw lies in [0, 1), as `Math.random()` promises. */
  predicate UnitDraws(draws: seq<DayDraws>)
  {
    forall i :: 0 <= i < |draws| ==>
      0.0 <= draws[i].move < 1.0 && 0.0 <= draws[i].upper < 1.0 &&
      0.0 <= draws[i].lower < 1.0 && 0.0 <= draws[i].volume < 1.0
  }

  /** `Number(x.toFixed(2))`, taken as rounding half up to whole cents. */
  function Round2(x: real): real
  {
    ((x * 100.0 + 0.5).Floor as real) / 100.0
  }

  /** A rounded price is a whole number of cents within half a cent of the
      unrounded one. */
  lemma Round2Cents(x: real)
    ensures (Round2(x) * 100.0).Floor as real == Round2(x) * 100.0
    ensures x - 0.005 < Round2(x) <= x + 0.005
  {
    var a := x * 100.0 + 0.5;
    assert a - 1.0 < a.Floor as real <= a;
    assert Round2(x) * 100.0 == a.Floor as real;
  }

  /** Rounding to cents never reverses an order. */
  lemma Round2Monotone(x: real, y: real)
    requires x <= y
    ensures Round2(x) <= Round2(y)
  {
    var a, b := x * 100.0 + 0.5, y * 100.0 + 0.5;
    assert a <= b;
    assert a.Floor as real <= a && b < b.Floor as real + 1.0;
    assert a.Floor <= b.Floor;
    assert (a.Floor as real) / 100.0 <= (b.Floor as real) / 100.0;
  }

  function Max(a: real, b: real): real { if a < b then b else a }
  function Min(a: real, b: real): real { if a < b then a else b }

  /** The running `currentPrice` when day `i` starts. */
  function PriceBefore(basePrice: real, draws: seq<DayDraws>, i: nat): real
    requires i <= |draws|
  {
    if i == 0 then basePrice
    else PriceBefore(basePrice, draws, i - 1) + (draws[i - 1].move - 0.5) * (basePrice * 0.02)
  }

  /** With draws in [0, 1) each day moves the running price by at most 1% of
      the base price either way, so after `i` days it is within `i` percent
      of where it started. */
  lemma {:induction false} PriceWithinBand(basePrice: real, draws: seq<DayDraws>, i: nat)
    requires i <= |draws| && UnitDraws(draws)
    ensures basePrice - Band(basePrice, i) <= PriceBefore(basePrice, draws, i)
    ensures PriceBefore(basePrice, draws, i) <= basePrice + Band(basePrice, i)
  {
    if i > 0 {
      PriceWithinBand(basePrice, draws, i - 1);
      MoveWithinBand(basePrice, draws, i, PriceBefore(basePrice, draws, i - 1));
    }
  }

  /** `i` percent of the base price's magnitude. */
  function Band(basePrice: real, i: nat): real
  {
    (i as real) * ((if basePrice < 0.0 then -basePrice else basePrice) * 0.01)
  }

  /** One day's move, at most 1% of the base price either way, takes a price
      within the band of day `i - 1` into the band of day `i`. */
  lemma MoveWithinBand(basePrice: real, draws: seq<DayDraws>, i: nat, before: real)
    requires 0 < i <= |draws|
    requires UnitDraws(draws) ==>
      basePrice - Band(basePrice, i - 1) <= before <= basePrice + Band(basePrice, i - 1)
    ensures UnitDraws(draws) ==>
      var after := before + (draws[i - 1].move - 0.5) * (basePrice * 0.02);
      basePrice - Band(basePrice, i) <= after <= basePrice + Band(basePrice, i)
  {
    if UnitDraws(draws) {
      var m := draws[i - 1].move - 0.5;
      var unit := (if basePrice < 0.0 then -basePrice else basePrice) * 0.01;
      assert -0.5 <= m < 0.5;
      assert m * (basePrice * 0.02) == (m * basePrice) * 0.02;
      if basePrice >= 0.0 {
        assert -0.5 * basePrice <= m * basePrice <= 0.5 * basePrice;
      } else {
        assert 0.5 * basePrice <= m * basePrice <= -0.5 * basePrice;
      }
      assert Band(basePrice, i) == Band(basePrice, i - 1) + unit;
    }
  }

  /** The volume of a day, `Math.floor(draw * 20000000) + 10000000`: for a
      draw in [0, 1) it lies in [10000000, 29999999]. */
  function DayVolume(draw: real): (v: int)
    ensures 0.0 <= draw < 1.0 ==> 10000000 <= v <= 29999999
  {
    (draw * 20000000.0).Floor + 10000000
  }

  /** A day's unrounded prices. */
  datatype Bar = Bar(open: real, high: real, low: real, close: real)

  /** The day's prices: open at the running price, move by the first draw
      scaled by the volatility, and widen high and low by the next two. */
  function DayBar(d: DayDraws, volatility: real, currentPrice: real): (b: Bar)
    ensures b.open == currentPrice
  {
    var open := currentPrice;
    var close := currentPrice + (d.move - 0.5) * volatility;
    Bar(open, Max(open, close) + d.upper * volatility * 0.5,
        Min(open, close) - d.lower * volatility * 0.5, close)
  }

  /** The row the loop body pushes for day `i` (0-based), given the
      volatility and the running price at the start of the day: open, high,
      low and close rounded to cents, the volume, two zero cells, and the
      trend cell, which compares the running price with the open just set
      from it. */
  function DayRow(i: nat, d: DayDraws, volatility: real, currentPrice: real): (row: RawPriceRow)
    ensures |row| == 10
  {
    var b := DayBar(d, volatility, currentPrice);
    [Num((i + 1) as real), Str(d.stamp), Num(Round2(b.open)), Num(Round2(b.high)),
     Num(Round2(b.low)), Num(Round2(b.close)), Num(DayVolume(d.volume) as real),
     Num(0.0), Num(0.0), Num(if currentPrice > b.open then 1.0 else -1.0)]
  }

  /** The series generatePriceHistory(basePrice, days) builds from `draws`. */
  function GeneratedSeries(basePrice: real, days: nat, draws: seq<DayDraws>): (s: seq<RawPriceRow>)
    requires days <= |draws|
    ensures |s| == days
  {
    seq(days, i requires 0 <= i < days =>
      DayRow(i, draws[i], basePrice * 0.02, PriceBefore(basePrice, draws, i)))
  }

  /** A row as the page expects it: ten cells, a date string in position 1
      and numbers everywhere else. */
  predicate WellFormedRow(row: RawPriceRow)
  {
    |row| == 10 && row[1].Str? &&
    forall i :: 0 <= i < 10 && i != 1 ==> row[i].Num?
  }

  /** generatePriceHistory: a loop that pushes one row per day and carries
      the unrounded close over as the next day's running price. */
  method GeneratePriceHistory(basePrice: real, days: nat, draws: seq<DayDraws>)
    returns (prices: seq<RawPriceRow>)
    requires days <= |draws|
    ensures prices == GeneratedSeries(basePrice, days, draws)
    ensures |prices| == days
    ensures forall i :: 0 <= i < days ==> prices[i][0] == Num((i + 1) as real)
    ensures forall i :: 0 <= i < days ==> prices[i][9] == Num(-1.0)
    ensures forall i :: 0 <= i < days ==> WellFormedRow(prices[i])
    ensures forall i :: 0 < i < days ==> prices[i][2] == prices[i - 1][5]
    ensures UnitDraws(draws) ==> forall i :: 0 <= i < days ==>
      10000000.0 <= prices[i][6].n <= 29999999.0
    ensures UnitDraws(draws) && basePrice >= 0.0 ==> forall i :: 0 <= i < days ==>
      prices[i][4].n <= prices[i][2].n <= prices[i][3].n &&
      prices[i][4].n <= prices[i][5].n <= prices[i][3].n
  {
    prices := [];
    var currentPrice := basePrice;
    var volatility := basePrice * 0.02;
    for i := 0 to days
      invariant currentPrice == PriceBefore(basePrice, draws, i)
      invariant prices == GeneratedSeries(basePrice, i, draws)
    {
      var row, close := BuildDay(i, draws[i], volatility, currentPrice);
      GeneratedSeriesStep(basePrice, i, draws);
      prices := prices + [row];
      currentPrice := close;
    }
    GeneratedRowsShape(basePrice, days, draws);
    GeneratedOpenIsPreviousClose(basePrice, days, draws);
    if UnitDraws(draws) {
      GeneratedRowsBounded(basePrice, days, draws);
    }
  }

  /** The body of the generator's loop for day `i` (0-based): it draws the
      day's move, sets open, close, high, low and volume, and builds the row
      it pushes. The row is DayRow, and the close becomes the next running
      price. */
  method BuildDay(i: nat, d: DayDraws, volatility: real, currentPrice: real)
    returns (row: RawPriceRow, close: real)
    ensures row == DayRow(i, d, volatility, currentPrice)
    ensures close == currentPrice + (d.move - 0.5) * volatility
    ensures close == DayBar(d, volatility, currentPrice).close
  {
    var dailyChange := (d.move - 0.5) * volatility;
    var open := currentPrice;
    close := currentPrice + dailyChange;
    var high := Max(open, close) + d.upper * volatility * 0.5;
    var low := Min(open, close) - d.lower * volatility * 0.5;
    var volume := DayVolume(d.volume);
    row := [Num((i + 1) as real), Str(d.stamp), Num(Round2(open)), Num(Round2(high)),
            Num(Round2(low)), Num(Round2(close)), Num(volume as real),
            Num(0.0), Num(0.0), Num(if currentPrice > open then 1.0 else -1.0)];
    assert Bar(open, high, low, close) == DayBar(d, volatility, currentPrice);
  }

  /** One more day appends that day's row. */
  lemma GeneratedSeriesStep(basePrice: real, i: nat, draws: seq<DayDraws>)
    requires i < |draws|
    ensures GeneratedSeries(basePrice, i + 1, draws) ==
      GeneratedSeries(basePrice, i, draws) +
      [DayRow(i, draws[i], basePrice * 0.02, PriceBefore(basePrice, draws, i))]
  {
  }

  /** Every pushed row has ten well-formed cells, its 1-based day number
      first, and -1 as its trend: the trend test compares the running price
      with the open that was just set from it. */
  lemma DayRowShape(i: nat, d: DayDraws, volatility: real, currentPrice: real)
    ensures var row := DayRow(i, d, volatility, currentPrice);
      WellFormedRow(row) && row[0] == Num((i + 1) as real) && row[9] == Num(-1.0)
  {
  }

  /** Row i of a generated series is well formed, numbered i + 1, and
      tagged with trend -1. */
  lemma GeneratedRowsShape(basePrice: real, days: nat, draws: seq<DayDraws>)
    requires days <= |draws|
    ensures forall i :: 0 <= i < days ==>
      var row := GeneratedSeries(basePrice, days, draws)[i];
      WellFormedRow(row) && row[0] == Num((i + 1) as real) && row[9] == Num(-1.0)
  {
    forall i | 0 <= i < days
      ensures var row := GeneratedSeries(basePrice, days, draws)[i];
        WellFormedRow(row) && row[0] == Num((i + 1) as real) && row[9] == Num(-1.0)
    {
      DayRowShape(i, draws[i], basePrice * 0.02, PriceBefore(basePrice, draws, i));
    }
  }

  /** Day i opens at the price day i - 1 closed at, rounded the same way. */
  lemma DayOpenIsPreviousClose(basePrice: real, draws: seq<DayDraws>, i: nat)
    requires 0 < i < |draws|
    ensures var volatility := basePrice * 0.02;
      DayRow(i, draws[i], volatility, PriceBefore(basePrice, draws, i))[2] ==
      DayRow(i - 1, draws[i - 1], volatility, PriceBefore(basePrice, draws, i - 1))[5]
  {
    var volatility := basePrice * 0.02;
    var before := PriceBefore(basePrice, draws, i - 1);
    assert PriceBefore(basePrice, draws, i) == DayBar(draws[i - 1], volatility, before).close;
  }

  /** Each generated open is the previous day's close: both are the same
      running price, rounded the same way. */
  lemma GeneratedOpenIsPreviousClose(basePrice: real, days: nat, draws: seq<DayDraws>)
    requires days <= |draws|
    ensures var s := GeneratedSeries(basePrice, days, draws);
      forall i :: 0 < i < days ==> s[i][2] == s[i - 1][5]
  {
    var s: seq<RawPriceRow> := GeneratedSeries(basePrice, days, draws);
    forall i | 0 < i < days ensures s[i][2] == s[i - 1][5] {
      DayOpenIsPreviousClose(basePrice, draws, i);
    }
  }

  /** For draws in [0, 1): every volume lies in [10000000, 29999999], and for
      a non-negative base price every low is at most the open and the close
      and every high at least both. */
  lemma GeneratedRowsBounded(basePrice: real, days: nat, draws: seq<DayDraws>)
    requires days <= |draws| && UnitDraws(draws)
    ensures var s := GeneratedSeries(basePrice, days, draws);
      forall i :: 0 <= i < days ==> 10000000.0 <= s[i][6].n <= 29999999.0
    ensures var s := GeneratedSeries(basePrice, days, draws);
      basePrice >= 0.0 ==> forall i :: 0 <= i < days ==>
        s[i][4].n <= s[i][2].n <= s[i][3].n && s[i][4].n <= s[i][5].n <= s[i][3].n
  {
    var s: seq<RawPriceRow> := GeneratedSeries(basePrice, days, draws);
    var volatility := basePrice * 0.02;
    forall i | 0 <= i < days
      ensures 10000000.0 <= s[i][6].n <= 29999999.0
      ensures basePrice >= 0.0 ==>
        s[i][4].n <= s[i][2].n <= s[i][3].n && s[i][4].n <= s[i][5].n <= s[i][3].n
    {
      if basePrice >= 0.0 {
        DayBarBracketed(i, draws[i], volatility, PriceBefore(basePrice, draws, i));
      }
    }
  }

  /** With non-negative volatility and spreads, a day's low is at most its
      open and close, and its high at least both. */
  lemma DayBarInside(d: DayDraws, volatility: real, currentPrice: real)
    requires volatility >= 0.0 && d.upper >= 0.0 && d.lower >= 0.0
    ensures var b := DayBar(d, volatility, currentPrice);
      b.low <= b.open <= b.high && b.low <= b.close <= b.high
  {
  }

  /** Rounding to cents keeps a bar's low at most its open and close and its
      high at least both. */
  lemma BarBracketed(b: Bar)
    requires b.low <= b.open <= b.high && b.low <= b.close <= b.high
    ensures Round2(b.low) <= Round2(b.open) <= Round2(b.high)
    ensures Round2(b.low) <= Round2(b.close) <= Round2(b.high)
  {
    Round2Monotone(b.low, b.open);
    Round2Monotone(b.open, b.high);
    Round2Monotone(b.low, b.close);
    Round2Monotone(b.close, b.high);
  }

  /** The same holds of the rounded prices in the pushed row. */
  lemma DayBarBracketed(i: nat, d: DayDraws, volatility: real, currentPrice: real)
    requires volatility >= 0.0 && d.upper >= 0.0 && d.lower >= 0.0
    ensures var row := DayRow(i, d, volatility, currentPrice);
      row[4].n <= row[2].n <= row[3].n && row[4].n <= row[5].n <= row[3].n
  {
    var b := DayBar(d, volatility, currentPrice);
    DayBarInside(d, volatility, currentPrice);
    BarBracketed(b);
  }

  // ---------------------------------------------------------------------
  // The mock price table

  /** Thirty draws per listed symbol, one per generated day. */
  predicate DrawsForAll(draws: map<string, seq<DayDraws>>)
  {
    forall s :: s in MockBasePrices ==> s in draws && |draws[s]| >= 30
  }

  /** MOCK_PRICE_HISTORY: for every symbol with a base price, thirty days
      generated from that price. */
  function MockPriceHistory(draws: map<string, seq<DayDraws>>): (h: map<string, seq<RawPriceRow>>)
    requires DrawsForAll(draws)
    ensures h.Keys == MockBasePrices.Keys
    ensures forall s :: s in h ==> h[s] == GeneratedSeries(MockBasePrices[s], 30, draws[s])
  {
    map s | s in MockBasePrices :: GeneratedSeries(MockBasePrices[s], 30, draws[s])
  }

  /** Every listed stock has a price history in the mock table: fetching
      its prices succeeds and yields thirty rows. */
  lemma ListedStocksHavePrices(draws: map<string, seq<DayDraws>>)
    requires DrawsForAll(draws)
    ensures forall i :: 0 <= i < |FetchStockList()| ==>
      var r := FetchStockPrices(MockPriceHistory(draws), FetchStockList()[i].symbol);
      r.Success? && |r.value| == 30
  {
    var h := MockPriceHistory(draws);
    forall i | 0 <= i < |MockStocks|
      ensures MockStocks[i].symbol in h && |h[MockStocks[i].symbol]| == 30
    {
      assert MockStocks[i].symbol in MockBasePrices;
    }
  }
}
