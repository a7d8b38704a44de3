/** The watchlist panel (`src/components/Watchlist.tsx`): which symbols get a card, the
    successor chosen when the selected symbol is removed, and the two click handlers. */
module WatchlistView {
  import opened Common
  import opened StockApi
  import opened StockContext

  /** `watchlist.find(s => s !== removed)`, as the index of the first other symbol. */
  function FindOther(w: seq<Symbol>, removed: Symbol): (r: Option<nat>)
    ensures r.Some? ==> r.value < |w| && w[r.value] != removed && forall k :: 0 <= k < r.value ==> w[k] == removed
    ensures r.None? ==> forall k :: 0 <= k < |w| ==> w[k] == removed
  {
    if w == [] then None
    else if w[0] != removed then Some(0)
    else match FindOther(w[1..], removed)
      case None => None
      case Some(i) => Some(i + 1)
  }

  /** The new selection when the selected `removed` goes: the symbol `find` returns if it
      is truthy, otherwise null (so an empty-string symbol also gives null). */
  function Successor(w: seq<Symbol>, removed: Symbol): (r: Option<Symbol>)
    ensures r.Some? ==> r.value in Without(w, removed) && r.value != ""
    ensures (forall x :: x in w ==> x == removed) ==> r == None
  {
    match FindOther(w, removed)
    case None => None
    case Some(i) => if w[i] == "" then None else Some(w[i])
  }

  /** The successor is the first symbol that survives the removal, in watchlist order. */
  lemma {:induction false} SuccessorIsFirstRemaining(w: seq<Symbol>, removed: Symbol)
    ensures var rest := Without(w, removed);
            Successor(w, removed) == if rest == [] || rest[0] == "" then None else Some(rest[0])
  {
    if w != [] && w[0] == removed {
      SuccessorIsFirstRemaining(w[1..], removed);
      assert FindOther(w, removed) == match FindOther(w[1..], removed)
                                      case None => None
                                      case Some(i) => Some(i + 1);
    }
  }

  /** With non-empty symbols, the selection becomes null exactly when no other symbol exists. */
  lemma NullIffNoOther(w: seq<Symbol>, removed: Symbol)
    requires "" !in w
    ensures Successor(w, removed) == None <==> forall x :: x in w ==> x == removed
  {
    match FindOther(w, removed)
    case None =>
    case Some(i) => assert w[i] in w;
  }

  /** The selection is null or names a watchlist symbol. */
  predicate SelectionInWatchlist(selection: Option<Symbol>, w: seq<Symbol>)
  {
    selection.None? || selection.value in w
  }

  datatype Card = Card(symbol: Symbol, price: real, change: real, changePercent: real, isSelected: bool)

  /** What the panel shows: the empty-state message, or the cards. */
  datatype Panel = EmptyMessage | CardList(cards: seq<Card>)

  /** The watchlist symbols that have a quote entry, in watchlist order. */
  function Rendered(w: seq<Symbol>, quotes: map<Symbol, SymbolQuote>): (r: seq<Symbol>)
    ensures forall s :: s in r <==> s in w && s in quotes
  {
    if w == [] then []
    else (if w[0] in quotes then [w[0]] else []) + Rendered(w[1..], quotes)
  }

  lemma {:induction false} RenderedInOrder(w: seq<Symbol>, quotes: map<Symbol, SymbolQuote>)
    ensures IsSubsequence(Rendered(w, quotes), w)
  {
    if w != [] {
      RenderedInOrder(w[1..], quotes);
      if w[0] in quotes {
        assert Rendered(w, quotes)[1..] == Rendered(w[1..], quotes);
      } else {
        assert Rendered(w, quotes) == Rendered(w[1..], quotes);
        SubsequenceOfTail(Rendered(w, quotes), w);
      }
    }
  }

  /** `watchlist.map(...)` with the symbols lacking a quote dropped: one card per rendered
      symbol, showing its quote, marked selected iff it is the selection. */
  function Cards(w: seq<Symbol>, quotes: map<Symbol, SymbolQuote>, selected: Option<Symbol>): (r: seq<Card>)
    ensures |r| == |Rendered(w, quotes)|
    ensures forall k :: 0 <= k < |r| ==>
              var s := Rendered(w, quotes)[k];
              && s in quotes
              && r[k] == Card(s, quotes[s].quote.c, quotes[s].quote.d, quotes[s].quote.dp, selected == Some(s))
  {
    if w == [] then []
    else
      var rest := Cards(w[1..], quotes, selected);
      if w[0] in quotes then
        var q := quotes[w[0]].quote;
        [Card(w[0], q.c, q.d, q.dp, selected == Some(w[0]))] + rest
      else rest
  }

  function Render(w: seq<Symbol>, quotes: map<Symbol, SymbolQuote>, selected: Option<Symbol>): (r: Panel)
    ensures r.EmptyMessage? <==> w == []
    ensures r.CardList? ==> r.cards == Cards(w, quotes, selected) && |r.cards| == |Rendered(w, quotes)|
  {
    if |w| == 0 then EmptyMessage else CardList(Cards(w, quotes, selected))
  }

  /** A card click: select its symbol, whatever was selected before. */
  method HandleSelect(store: StockProvider, symbol: Symbol)
    modifies store`selectedStock
    ensures store.selectedStock == Some(symbol)
  {
    store.SetSelectedStock(Some(symbol));
  }

  /** A card's remove button: remove the symbol from the store; if it was the selection,
      select the successor found in the watchlist as it was before the removal. */
  method HandleRemove(store: StockProvider, symbol: Symbol)
    requires store.Valid()
    modifies store, store.websocket
    ensures store.Valid()
    ensures store.watchlist == Without(old(store.watchlist), symbol)
    ensures store.quotes == old(store.quotes)
    ensures store.pendingFetches == old(store.pendingFetches)
    ensures store.isLoading == old(store.isLoading) && store.initialLoadPending == old(store.initialLoadPending)
    ensures store.unsubscribe == Handle(Listener(old(store.effectRuns))) && store.effectRuns == old(store.effectRuns) + 1
    ensures store.selectedStock == if old(store.selectedStock) == Some(symbol)
                                   then Successor(old(store.watchlist), symbol)
                                   else old(store.selectedStock)
    ensures old(SelectionInWatchlist(store.selectedStock, store.watchlist))
            ==> SelectionInWatchlist(store.selectedStock, store.watchlist)
  {
    var before := store.watchlist;
    var selected := store.selectedStock;
    store.RemoveFromWatchlist(symbol);
    if selected == Some(symbol) {
      store.SetSelectedStock(Successor(before, symbol));
    }
  }

  /** Default watchlist with AAPL selected and loaded; the user removes AAPL. */
  method RemoveSelectedScenario(market: MockPriceData, rnd: Symbol -> real, now: int) returns (store: StockProvider)
    requires market.Valid()
    ensures store.watchlist == ["MSFT", "GOOGL", "AMZN"]
    ensures store.selectedStock == Some("MSFT")
    ensures "AAPL" in store.quotes && store.quotes["AAPL"].symbol == "AAPL"
    ensures store.websocket.watchlist == store.watchlist
  {
    store := new StockProvider(market);
    store.InitialLoadResolved(false, rnd, now);
    RemoveDefaultSelection();
    HandleRemove(store, "AAPL");
  }

  /** On the default watchlist, removing AAPL leaves the other three in order, and MSFT
      succeeds it. */
  lemma RemoveDefaultSelection()
    ensures "AAPL" in DefaultWatchlist
    ensures Without(DefaultWatchlist, "AAPL") == ["MSFT", "GOOGL", "AMZN"]
    ensures Successor(DefaultWatchlist, "AAPL") == Some("MSFT")
  {
    assert DefaultWatchlist[0] == "AAPL";
    assert Without(DefaultWatchlist, "AAPL") == Without(DefaultWatchlist[1..], "AAPL");
    WithoutAbsent(DefaultWatchlist[1..], "AAPL");
    assert DefaultWatchlist[1..] == ["MSFT", "GOOGL", "AMZN"];
    SuccessorIsFirstRemaining(DefaultWatchlist, "AAPL");
  }

  /** Adding TSLA twice leaves it once in the watchlist and once in the subscriptions, and
      issues one fetch. */
  method AddTwiceScenario(market: MockPriceData) returns (store: StockProvider)
    requires market.Valid()
    ensures store.watchlist == DefaultWatchlist + ["TSLA"]
    ensures store.websocket.watchlist == store.watchlist
    ensures store.pendingFetches == ["TSLA"]
  {
    store := new StockProvider(market);
    store.AddToWatchlist("TSLA");
    store.AddToWatchlist("TSLA");
  }
}
