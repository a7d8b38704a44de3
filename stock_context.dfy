/** The watchlist store (`StockProvider` in `src/contexts/StockContext.tsx`).

    React's state cells become fields.  The asynchronous parts are explicit steps: a tick
    of the feed (`FeedTick`), the completion of a fetch issued by `AddToWatchlist`
    (`ResolveFetch`) and the completion of the initial bulk load (`InitialLoadResolved`).
    The feed effect, which depends on the watchlist, is re-run after every watchlist
    change (`ResyncFeed`). */
module StockContext {
  import opened Common
  import opened StockApi

  const DefaultWatchlist: seq<Symbol> := ["AAPL", "MSFT", "GOOGL", "AMZN"]
  const DefaultSelection: Symbol := "AAPL"

  /** `{ ...prev, [data.symbol]: data }`: whole-key replacement, every other key kept. */
  function Merge(quotes: map<Symbol, SymbolQuote>, data: SymbolQuote): (r: map<Symbol, SymbolQuote>)
    ensures r.Keys == quotes.Keys + {data.symbol}
    ensures r[data.symbol] == data
    ensures forall s :: s in quotes && s != data.symbol ==> r[s] == quotes[s]
  {
    quotes[data.symbol := data]
  }

  /** The quote map after the listener `cb` has handled the deliveries addressed to it. */
  function ApplyDeliveries(quotes: map<Symbol, SymbolQuote>, ds: seq<Delivery>, cb: Listener): map<Symbol, SymbolQuote>
  {
    if ds == [] then quotes
    else
      var before := ApplyDeliveries(quotes, ds[..|ds| - 1], cb);
      if ds[|ds| - 1].listener == cb then Merge(before, ds[|ds| - 1].data) else before
  }

  /** A tick to a feed whose only listener is `cb` sets each subscribed symbol's entry to
      its new tagged quote and keeps every other entry. */
  lemma {:induction false} TickMerge(quotes: map<Symbol, SymbolQuote>, subs: seq<Symbol>, cb: Listener,
                                     p: map<Symbol, Quote>, rnd: Symbol -> real, now: int)
    requires PcNonZero(p)
    ensures var r := ApplyDeliveries(quotes, Deliveries(subs, [cb], p, rnd, now), cb);
            && (forall s :: s in subs ==> s in r && r[s] == SymbolQuote(s, TickQuote(p, s, rnd, now)))
            && (forall s :: s !in subs ==> (s in r <==> s in quotes) && (s in r ==> r[s] == quotes[s]))
  {
    if subs != [] {
      var n := |subs|;
      var front := subs[..n - 1];
      var last := subs[n - 1];
      TickMerge(quotes, front, cb, p, rnd, now);
      var data := SymbolQuote(last, TickQuote(p, last, rnd, now));
      SingleListenerStep(subs, cb, p, rnd, now);
      var before := Deliveries(front, [cb], p, rnd, now);
      ApplyDeliveriesSnoc(quotes, before, Delivery(cb, data), cb);
      MergeExtends(quotes, ApplyDeliveries(quotes, before, cb), front, last, p, rnd, now);
      assert subs == front + [last];
    }
  }

  /** One more merge of a symbol's new tagged quote extends "the prefix has its new quotes,
      the rest is as before" by that symbol. */
  lemma MergeExtends(quotes: map<Symbol, SymbolQuote>, r0: map<Symbol, SymbolQuote>, front: seq<Symbol>, last: Symbol,
                     p: map<Symbol, Quote>, rnd: Symbol -> real, now: int)
    requires PcNonZero(p)
    requires forall s :: s in front ==> s in r0 && r0[s] == SymbolQuote(s, TickQuote(p, s, rnd, now))
    requires forall s :: s !in front ==> (s in r0 <==> s in quotes) && (s in r0 ==> r0[s] == quotes[s])
    ensures var r := Merge(r0, SymbolQuote(last, TickQuote(p, last, rnd, now)));
            && (forall s :: s in front + [last] ==> s in r && r[s] == SymbolQuote(s, TickQuote(p, s, rnd, now)))
            && (forall s :: s !in front + [last] ==> (s in r <==> s in quotes) && (s in r ==> r[s] == quotes[s]))
  {
  }

  lemma SingleListenerStep(subs: seq<Symbol>, cb: Listener, p: map<Symbol, Quote>, rnd: Symbol -> real, now: int)
    requires PcNonZero(p) && subs != []
    ensures var last := subs[|subs| - 1];
            Deliveries(subs, [cb], p, rnd, now)
            == Deliveries(subs[..|subs| - 1], [cb], p, rnd, now) + [Delivery(cb, SymbolQuote(last, TickQuote(p, last, rnd, now)))]
  {
    var last := subs[|subs| - 1];
    assert Fanout([cb], SymbolQuote(last, TickQuote(p, last, rnd, now)))
           == [Delivery(cb, SymbolQuote(last, TickQuote(p, last, rnd, now)))];
  }

  lemma ApplyDeliveriesSnoc(quotes: map<Symbol, SymbolQuote>, ds: seq<Delivery>, d: Delivery, cb: Listener)
    ensures ApplyDeliveries(quotes, ds + [d], cb)
            == if d.listener == cb then Merge(ApplyDeliveries(quotes, ds, cb), d.data) else ApplyDeliveries(quotes, ds, cb)
  {
    assert (ds + [d])[..|ds + [d]| - 1] == ds;
  }

  /** The subscription list after `syms.forEach(symbol => websocket.subscribe(symbol))`. */
  function SubscribeAll(subs: seq<Symbol>, syms: seq<Symbol>): (r: seq<Symbol>)
    ensures NoDup(subs) ==> NoDup(r)
  {
    if syms == [] then subs
    else AddIfAbsent(SubscribeAll(subs, syms[..|syms| - 1]), syms[|syms| - 1])
  }

  /** Re-subscribing symbols that are all subscribed already changes nothing. */
  lemma {:induction false} SubscribeAllPresent(subs: seq<Symbol>, syms: seq<Symbol>)
    requires forall s :: s in syms ==> s in subs
    ensures SubscribeAll(subs, syms) == subs
  {
    if syms != [] {
      var front := syms[..|syms| - 1];
      assert forall s :: s in front ==> s in syms;
      SubscribeAllPresent(subs, front);
    }
  }

  /** Subscribing a duplicate-free list from nothing yields that list. */
  lemma {:induction false} SubscribeAllFresh(syms: seq<Symbol>)
    requires NoDup(syms)
    ensures SubscribeAll([], syms) == syms
  {
    if syms != [] {
      var n := |syms|;
      var front := syms[..n - 1];
      assert NoDup(front);
      SubscribeAllFresh(front);
      assert syms[n - 1] !in front by {
        forall k | 0 <= k < n - 1 ensures front[k] != syms[n - 1] {
          assert syms[k] != syms[n - 1];
        }
      }
      assert front + [syms[n - 1]] == syms;
    }
  }

  /** The body of the feed effect: connect, subscribe every watchlist symbol, register `cb`. */
  method RunFeedEffect(ws: StockWebSocket, wl: seq<Symbol>, cb: Listener) returns (h: Handle)
    requires ws.Valid()
    modifies ws
    ensures ws.Valid() && ws.interval.Some?
    ensures old(ws.interval).Some? ==> ws.interval == old(ws.interval) && ws.timersStarted == old(ws.timersStarted)
    ensures old(ws.interval).None? ==> ws.interval == Some(old(ws.timersStarted)) && ws.timersStarted == old(ws.timersStarted) + 1
    ensures ws.watchlist == SubscribeAll(old(ws.watchlist), wl)
    ensures ws.callbacks == old(ws.callbacks) + [cb] && h.cb == cb
  {
    ws.Connect();
    ghost var timer, started := ws.interval, ws.timersStarted;
    var i := 0;
    while i < |wl|
      invariant 0 <= i <= |wl|
      invariant ws.Valid() && ws.interval == timer && ws.timersStarted == started
      invariant ws.watchlist == SubscribeAll(old(ws.watchlist), wl[..i])
      invariant ws.callbacks == old(ws.callbacks)
    {
      assert wl[..i + 1][..i] == wl[..i];
      ws.Subscribe(wl[i]);
      i := i + 1;
    }
    assert wl[..i] == wl;
    h := ws.OnMessage(cb);
  }

  class StockProvider {
    var watchlist: seq<Symbol>
    var quotes: map<Symbol, SymbolQuote>
    var selectedStock: Option<Symbol>
    var isLoading: bool
    const websocket: StockWebSocket
    /** The removal handle the current run of the feed effect got from `onMessage`. */
    var unsubscribe: Handle
    /** How often the feed effect has run; each run registers a listener of its own. */
    var effectRuns: nat
    /** Symbols whose `getQuote` was issued by `AddToWatchlist` and has not resolved. */
    var pendingFetches: seq<Symbol>
    /** The initial bulk load is still in flight. */
    var initialLoadPending: bool

    /** The feed is connected, subscribed to exactly the watchlist (in its order) and
        has exactly one listener: the store's current one. */
    ghost predicate Valid()
      reads this, websocket, websocket.market
    {
      websocket.Valid() && NoDup(watchlist) && websocket.watchlist == watchlist
      && websocket.interval.Some? && websocket.callbacks == [unsubscribe.cb]
    }

    /** Mounting the provider: initial state, then the first run of both effects. */
    constructor (market: MockPriceData)
      requires market.Valid()
      ensures Valid() && fresh(websocket) && websocket.market == market
      ensures watchlist == DefaultWatchlist && quotes == map[] && selectedStock == Some(DefaultSelection)
      ensures isLoading && initialLoadPending && pendingFetches == []
      ensures unsubscribe == Handle(Listener(0)) && effectRuns == 1
    {
      var ws := new StockWebSocket(market);
      SubscribeAllFresh(DefaultWatchlist);
      var h := RunFeedEffect(ws, DefaultWatchlist, Listener(0));
      watchlist := DefaultWatchlist;
      quotes := map[];
      selectedStock := Some(DefaultSelection);
      isLoading := true;
      websocket := ws;
      unsubscribe := h;
      effectRuns := 1;
      pendingFetches := [];
      initialLoadPending := true;
    }

    /** Cleanup and re-run of the feed effect: release the listener, disconnect, then
        connect again, subscribe every watchlist symbol and register a fresh listener. */
    method ResyncFeed()
      requires websocket.Valid() && NoDup(watchlist) && websocket.watchlist == watchlist
      requires websocket.callbacks == [unsubscribe.cb]
      modifies this`unsubscribe, this`effectRuns, websocket
      ensures Valid()
      ensures unsubscribe == Handle(Listener(old(effectRuns))) && effectRuns == old(effectRuns) + 1
      ensures websocket.interval == Some(old(websocket.timersStarted))
    {
      websocket.Release(unsubscribe);
      websocket.Disconnect();
      SubscribeAllPresent(watchlist, watchlist);
      var h := RunFeedEffect(websocket, watchlist, Listener(effectRuns));
      unsubscribe := h;
      effectRuns := effectRuns + 1;
    }

    /** `addToWatchlist(symbol)`. */
    method AddToWatchlist(symbol: Symbol)
      requires Valid()
      modifies this, websocket
      ensures Valid()
      ensures quotes == old(quotes) && selectedStock == old(selectedStock)
      ensures isLoading == old(isLoading) && initialLoadPending == old(initialLoadPending)
      ensures old(symbol in watchlist) ==>
                watchlist == old(watchlist) && pendingFetches == old(pendingFetches)
                && unsubscribe == old(unsubscribe) && effectRuns == old(effectRuns) && unchanged(websocket)
      ensures old(symbol !in watchlist) ==>
                watchlist == old(watchlist) + [symbol] && pendingFetches == old(pendingFetches) + [symbol]
                && unsubscribe == Handle(Listener(old(effectRuns))) && effectRuns == old(effectRuns) + 1
    {
      if symbol !in watchlist {
        watchlist := watchlist + [symbol];
        websocket.Subscribe(symbol);
        pendingFetches := pendingFetches + [symbol];
        ResyncFeed();
      }
    }

    /** `removeFromWatchlist(symbol)`: the quote entry and the selection are left alone. */
    method RemoveFromWatchlist(symbol: Symbol)
      requires Valid()
      modifies this, websocket
      ensures Valid()
      ensures watchlist == Without(old(watchlist), symbol)
      ensures quotes == old(quotes) && selectedStock == old(selectedStock)
      ensures isLoading == old(isLoading) && initialLoadPending == old(initialLoadPending)
      ensures pendingFetches == old(pendingFetches)
      ensures unsubscribe == Handle(Listener(old(effectRuns))) && effectRuns == old(effectRuns) + 1
    {
      WithoutNoDup(watchlist, symbol);
      watchlist := Without(watchlist, symbol);
      websocket.Unsubscribe(symbol);
      ResyncFeed();
    }

    /** `setSelectedStock(selection)`: unconditional. */
    method SetSelectedStock(selection: Option<Symbol>)
      modifies this`selectedStock
      ensures selectedStock == selection
    {
      selectedStock := selection;
    }

    /** The store's `onMessage` listener. */
    method OnPush(data: SymbolQuote)
      modifies this`quotes
      ensures quotes == Merge(old(quotes), data)
    {
      quotes := Merge(quotes, data);
    }

    /** The `getQuote` issued for `pendingFetches[k]` resolves, reading the table then.
        A symbol removed in the meantime still gets its entry written. */
    method ResolveFetch(k: nat, rnd: real, now: int)
      requires Valid() && k < |pendingFetches|
      modifies this`quotes, this`pendingFetches
      ensures Valid()
      ensures quotes == Merge(old(quotes), SymbolQuote(old(pendingFetches)[k],
                 GetQuote(websocket.market.prices, old(pendingFetches)[k], rnd, now)))
      ensures pendingFetches == old(pendingFetches)[..k] + old(pendingFetches)[k + 1..]
    {
      var symbol := pendingFetches[k];
      var quote := GetQuote(websocket.market.prices, symbol, rnd, now);
      quotes := Merge(quotes, SymbolQuote(symbol, quote));
      pendingFetches := pendingFetches[..k] + pendingFetches[k + 1..];
    }

    /** The initial load of the default watchlist settles.  On success the quote map is
        replaced by one entry per default symbol; on failure it is kept.  Either way the
        store stops loading. */
    method InitialLoadResolved(failed: bool, rnd: Symbol -> real, now: int)
      requires Valid() && initialLoadPending
      modifies this`quotes, this`isLoading, this`initialLoadPending
      ensures Valid() && !isLoading && !initialLoadPending
      ensures failed ==> quotes == old(quotes)
      ensures !failed ==> forall s :: s in quotes <==> s in DefaultWatchlist
      ensures !failed ==> forall s :: s in quotes ==>
                quotes[s] == SymbolQuote(s, GetQuote(websocket.market.prices, s, rnd(s), now))
    {
      if !failed {
        var newQuotes: map<Symbol, SymbolQuote> := map[];
        var i := 0;
        while i < |DefaultWatchlist|
          invariant 0 <= i <= |DefaultWatchlist|
          invariant forall s :: s in newQuotes <==> s in DefaultWatchlist[..i]
          invariant forall s :: s in newQuotes ==>
                      newQuotes[s] == SymbolQuote(s, GetQuote(websocket.market.prices, s, rnd(s), now))
        {
          var symbol := DefaultWatchlist[i];
          var quote := GetQuote(websocket.market.prices, symbol, rnd(symbol), now);
          assert DefaultWatchlist[..i + 1] == DefaultWatchlist[..i] + [symbol];
          newQuotes := newQuotes[symbol := SymbolQuote(symbol, quote)];
          i := i + 1;
        }
        assert DefaultWatchlist[..i] == DefaultWatchlist;
        quotes := newQuotes;
      }
      isLoading := false;
      initialLoadPending := false;
    }

    /** The store's listener handling the calls addressed to it, in order. */
    method Deliver(ds: seq<Delivery>)
      modifies this`quotes
      ensures quotes == ApplyDeliveries(old(quotes), ds, unsubscribe.cb)
    {
      var i := 0;
      while i < |ds|
        invariant 0 <= i <= |ds|
        invariant quotes == ApplyDeliveries(old(quotes), ds[..i], unsubscribe.cb)
      {
        assert ds[..i + 1][..i] == ds[..i];
        if ds[i].listener == unsubscribe.cb {
          OnPush(ds[i].data);
        }
        i := i + 1;
      }
      assert ds[..i] == ds;
    }

    /** One firing of the feed's timer, with every delivery handed to the listener it
        addresses.  Each watchlist symbol's entry becomes its new table quote; every other
        entry is kept. */
    method FeedTick(rnd: Symbol -> real, now: int)
      requires Valid()
      modifies websocket.market, this`quotes
      ensures Valid()
      ensures websocket.market.prices == TickPrices(old(websocket.market.prices), watchlist, rnd, now)
      ensures forall s :: s in watchlist ==> s in quotes && quotes[s] == SymbolQuote(s, websocket.market.prices[s])
      ensures forall s :: s !in watchlist ==>
                (s in quotes <==> s in old(quotes)) && (s in quotes ==> quotes[s] == old(quotes)[s])
    {
      ghost var p0 := websocket.market.prices;
      var ds := websocket.Tick(rnd, now);
      Deliver(ds);
      TickMerge(old(quotes), watchlist, unsubscribe.cb, p0, rnd, now);
    }
  }
}
