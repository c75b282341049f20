/** The list page of the REST-backed front end: it loads the stock list
    once, shows a spinner until the load settles, then either the error text
    or the stocks matching the search term with their coloured change. */
module MarketListPage {
  import opened Wrappers
  import Text
  import Seqs

  /** A stock as the REST list endpoint returns it (the fields the page reads). */
  datatype StockSummary = StockSummary(
    symbol: string, name: string, currentPrice: real, priceChange: real)

  /** The filter keeps a stock when the lower-cased term occurs in its
      lower-cased `symbol` or in its lower-cased `name`. */
  predicate Matches(stock: StockSummary, term: string)
  {
    Text.Includes(Text.Lower(stock.symbol), Text.Lower(term)) ||
    Text.Includes(Text.Lower(stock.name), Text.Lower(term))
  }

  /** `filteredStocks`: the matching stocks, in list order, unchanged. */
  function FilteredStocks(stocks: seq<StockSummary>, term: string): (r: seq<StockSummary>)
    ensures Seqs.IsSubseq(r, stocks)
    ensures forall x :: x in r <==> x in stocks && Matches(x, term)
    ensures forall x :: multiset(r)[x] == if Matches(x, term) then multiset(stocks)[x] else 0
  {
    Seqs.Filter(stocks, (s: StockSummary) => Matches(s, term))
  }

  /** An empty search term keeps the whole list. */
  lemma EmptyTermKeepsAll(stocks: seq<StockSummary>)
    ensures FilteredStocks(stocks, "") == stocks
  {
    forall i | 0 <= i < |stocks| ensures Matches(stocks[i], "") {
      Text.EmptyIncluded(Text.Lower(stocks[i].symbol));
    }
    Seqs.FilterKeepsAll(stocks, (s: StockSummary) => Matches(s, ""));
  }

  /** Terms that differ only in letter case keep the same stocks. */
  lemma FilterIgnoresCase(stocks: seq<StockSummary>, t1: string, t2: string)
    requires Text.Lower(t1) == Text.Lower(t2)
    ensures FilteredStocks(stocks, t1) == FilteredStocks(stocks, t2)
  {
    Seqs.FilterCongruent(stocks,
      (s: StockSummary) => Matches(s, t1), (s: StockSummary) => Matches(s, t2));
  }

  datatype Tone = Green | Red

  /** The change cell: a "+" before non-negative changes (a negative number
      prints its own "-"), green for non-negative, red otherwise. */
  datatype ChangeBadge = ChangeBadge(prefix: string, tone: Tone)

  function Badge(priceChange: real): (b: ChangeBadge)
    ensures b.prefix == "+" <==> priceChange >= 0.0
    ensures b.prefix == "" <==> priceChange < 0.0
    ensures b.tone == Green <==> priceChange >= 0.0
    ensures b.tone == Red <==> priceChange < 0.0
  {
    ChangeBadge(if priceChange >= 0.0 then "+" else "",
                if priceChange >= 0.0 then Green else Red)
  }

  // ---------------------------------------------------------------------
  // Component state and view

  /** The component's state hooks. */
  datatype PageState = PageState(
    stocks: seq<StockSummary>, loading: bool, error: Option<string>, searchTerm: string)

  /** The state on first render: no stocks, loading, no error, empty term. */
  const Initial: PageState := PageState([], true, None, "")

  const LoadError: string := "Failed to fetch stocks"

  /** The first render: no stocks, no error, an empty search box, and the
      spinner. */
  lemma InitialShowsSpinner()
    ensures Initial.stocks == [] && Initial.error == None && Initial.searchTerm == ""
    ensures Initial.loading && !HasError(Initial)
    ensures Render(Initial) == Spinner
  {
  }

  /** What fetchStockList settled with. */
  datatype LoadOutcome = Loaded(data: seq<StockSummary>) | LoadFailed

  /** loadStocks: on success store the data, on failure store the error
      text; in both cases loading ends. */
  function Settle(s: PageState, outcome: LoadOutcome): (t: PageState)
    ensures !t.loading
    ensures t.searchTerm == s.searchTerm
    ensures outcome.Loaded? ==> t.stocks == outcome.data && t.error == s.error
    ensures outcome.LoadFailed? ==> t.stocks == s.stocks && t.error == Some(LoadError)
  {
    match outcome
    case Loaded(data) => s.(stocks := data, loading := false)
    case LoadFailed => s.(error := Some(LoadError), loading := false)
  }

  /** Typing in the search box. */
  function SetSearchTerm(s: PageState, term: string): (t: PageState)
    ensures t.searchTerm == term
    ensures t.stocks == s.stocks && t.loading == s.loading && t.error == s.error
  {
    s.(searchTerm := term)
  }

  /** JavaScript truthiness of the `error` state: set and non-empty. The
      initial `null` is falsy and the load-failure text is truthy. */
  function HasError(s: PageState): (r: bool)
    ensures s.error == None ==> !r
    ensures s.error == Some("") ==> !r
    ensures s.error == Some(LoadError) ==> r
  {
    s.error.Some? && s.error.value != ""
  }

  /** What the page renders. `noMatches` is the "No stocks found" line. */
  datatype View =
    | Spinner
    | ErrorText(message: string)
    | StockList(rows: seq<StockSummary>, noMatches: bool)

  /** The spinner while loading, else the error text if there is one, else
      the filtered list, with the empty-result line exactly when nothing
      matches. */
  function Render(s: PageState): (v: View)
    ensures v.Spinner? <==> s.loading
    ensures v.ErrorText? <==> !s.loading && HasError(s)
    ensures v.ErrorText? ==> v.message == s.error.value
    ensures v.StockList? <==> !s.loading && !HasError(s)
    ensures v.StockList? ==> v.rows == FilteredStocks(s.stocks, s.searchTerm)
    ensures v.StockList? ==> (v.noMatches <==> v.rows == [])
  {
    var filtered := FilteredStocks(s.stocks, s.searchTerm);
    if s.loading then Spinner
    else if HasError(s) then ErrorText(s.error.value)
    else StockList(filtered, |filtered| == 0)
  }

  /** After the load settles the spinner is gone: a failed load shows the
      error text, a successful one the list for whatever term was typed
      meanwhile. */
  lemma SettledViews(outcome: LoadOutcome, term: string)
    ensures var v := Render(Settle(SetSearchTerm(Initial, term), outcome));
      !v.Spinner? &&
      (outcome.LoadFailed? ==> v == ErrorText(LoadError)) &&
      (outcome.Loaded? ==>
        v == StockList(FilteredStocks(outcome.data, term), FilteredStocks(outcome.data, term) == []))
  {
  }

  /** After a successful load with an empty search box every stock is
      listed, and the empty-result line shows only for an empty list. */
  lemma LoadedWithEmptyTermListsAll(data: seq<StockSummary>)
    ensures Render(Settle(Initial, Loaded(data))) == StockList(data, data == [])
  {
    EmptyTermKeepsAll(data);
  }
}
