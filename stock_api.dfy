/** The mock quote source and the simulated push feed (`src/services/stockApi.ts`).

    Prices are mathematical reals; every `Math.random()` draw the source makes is an
    input `rnd` and every `Date.now()` an input `now`.  A JavaScript `x || y` on a number
    is written `Or(x, y)`: `x` unless it is zero. */
module StockApi {
  import opened Common

  type Symbol = string

  /** A quote as the mock table stores it (fields c, d, dp, h, l, o, pc, t). */
  datatype Quote = Quote(c: real, d: real, dp: real, h: real, l: real, o: real, pc: real, t: int)

  /** `{ ...quote, symbol }`: a quote tagged with the symbol it belongs to. */
  datatype SymbolQuote = SymbolQuote(symbol: Symbol, quote: Quote)

  /** A row of the fixed reference table. */
  datatype MockStock = MockStock(symbol: Symbol, name: string)

  /** A search or listing result; `symbolType` is the source's `type` field. */
  datatype StockSymbol = StockSymbol(description: string, displaySymbol: Symbol, symbol: Symbol, symbolType: string)

  const CommonStock: string := "Common Stock"

  const MockStocks: seq<MockStock> := [
    MockStock("AAPL", "Apple Inc."),
    MockStock("MSFT", "Microsoft Corporation"),
    MockStock("GOOGL", "Alphabet Inc."),
    MockStock("AMZN", "Amazon.com, Inc."),
    MockStock("META", "Meta Platforms, Inc."),
    MockStock("TSLA", "Tesla, Inc."),
    MockStock("NVDA", "NVIDIA Corporation"),
    MockStock("V", "Visa Inc."),
    MockStock("JPM", "JPMorgan Chase & Co."),
    MockStock("JNJ", "Johnson & Johnson")
  ]

  /** The base price each symbol of the mock price table is generated around. */
  const MockBasePrice: map<Symbol, real> := map[
    "AAPL" := 185.92, "MSFT" := 402.56, "GOOGL" := 165.12, "AMZN" := 178.22,
    "META" := 445.71, "TSLA" := 193.57, "NVDA" := 819.49, "V" := 275.96,
    "JPM" := 183.08, "JNJ" := 153.42
  ]

  /** The base price of a quote synthesized for an unknown symbol. */
  const FallbackBasePrice: real := 100.0

  // ---------------------------------------------------------------------------
  // Numeric helpers

  function Abs(x: real): real { if x < 0.0 then -x else x }
  function Max(x: real, y: real): real { if x < y then y else x }
  function Min(x: real, y: real): real { if x < y then x else y }

  /** JavaScript `x || fallback` for a number (NaN is not modelled). */
  function Or(x: real, fallback: real): real { if x != 0.0 then x else fallback }

  /** Every quote of a table has a non-zero previous close. */
  predicate PcNonZero(p: map<Symbol, Quote>)
  {
    forall s :: s in p ==> p[s].pc != 0.0
  }

  function Get(p: map<Symbol, Quote>, s: Symbol): Option<Quote>
  {
    if s in p then Some(p[s]) else None
  }

  // ---------------------------------------------------------------------------
  // Quote generation and lookup

  /** `generateMockPrice(basePrice)` with the random draw `rnd` and the clock `now`. */
  function GenerateMockPrice(basePrice: real, rnd: real, now: int): (r: Quote)
    requires basePrice != 0.0
    ensures r.pc == basePrice && r.t == now
    ensures r.d == r.c - r.pc
    ensures r.dp == r.d / r.pc * 100.0
    ensures r.l <= r.c <= r.h && r.l <= r.o <= r.h
  {
    var change := (rnd - 0.5) * basePrice * 0.05;
    Quote(basePrice + change, change, change / basePrice * 100.0,
          basePrice + Abs(change) * 1.5, basePrice - Abs(change) * 1.5,
          basePrice - change / 2.0, basePrice, now)
  }

  /** With a draw in [0, 1) and a positive base, the generated price stays within
      2.5% of the base, so it is positive. */
  lemma MockPriceBounds(basePrice: real, rnd: real, now: int)
    requires basePrice > 0.0 && 0.0 <= rnd < 1.0
    ensures Abs(GenerateMockPrice(basePrice, rnd, now).d) <= basePrice / 40.0
    ensures GenerateMockPrice(basePrice, rnd, now).c > 0.0
  {
    var change := (rnd - 0.5) * basePrice * 0.05;
    assert -0.5 <= rnd - 0.5 < 0.5;
    assert change <= 0.5 * basePrice * 0.05 by {
      assert (rnd - 0.5) * basePrice <= 0.5 * basePrice;
    }
    assert -0.5 * basePrice * 0.05 <= change by {
      assert -0.5 * basePrice <= (rnd - 0.5) * basePrice;
    }
  }

  /** `getQuote(symbol)`: the stored quote, or a quote synthesized around 100. */
  function GetQuote(prices: map<Symbol, Quote>, symbol: Symbol, rnd: real, now: int): (r: Quote)
    ensures symbol in prices ==> r == prices[symbol]
    ensures symbol !in prices ==> r.pc == FallbackBasePrice && r.l <= r.c <= r.h && r.t == now
  {
    if symbol in prices then prices[symbol] else GenerateMockPrice(FallbackBasePrice, rnd, now)
  }

  // ---------------------------------------------------------------------------
  // Listing and search

  function ToStockSymbol(e: MockStock): (r: StockSymbol)
    ensures r.displaySymbol == r.symbol == e.symbol && r.description == e.name && r.symbolType == CommonStock
  {
    StockSymbol(e.name, e.symbol, e.symbol, CommonStock)
  }

  /** `rows.map(...)` into listing records. */
  function SymbolsOf(rows: seq<MockStock>): (r: seq<StockSymbol>)
    ensures |r| == |rows|
    ensures forall k :: 0 <= k < |r| ==> r[k] == ToStockSymbol(rows[k])
  {
    if rows == [] then [] else [ToStockSymbol(rows[0])] + SymbolsOf(rows[1..])
  }

  /** `getStockSymbols()`: one listing record per table row, in table order. */
  function GetStockSymbols(): seq<StockSymbol>
  {
    SymbolsOf(MockStocks)
  }

  /** `toLowerCase` on ASCII letters. */
  function LowerChar(ch: char): char
  {
    if 'A' <= ch <= 'Z' then (ch as int + 32) as char else ch
  }

  function Lower(s: string): (r: string)
    ensures |r| == |s| && forall i :: 0 <= i < |s| ==> r[i] == LowerChar(s[i])
  {
    if s == [] then [] else [LowerChar(s[0])] + Lower(s[1..])
  }

  /** `hay.includes(needle)`. */
  predicate Includes(hay: string, needle: string)
    decreases |hay|
  {
    (|needle| <= |hay| && hay[..|needle|] == needle) || (hay != [] && Includes(hay[1..], needle))
  }

  /** `needle` occurs in `hay` starting at offset `i`. */
  predicate OccursAt(hay: string, needle: string, i: int)
  {
    0 <= i <= |hay| - |needle| && hay[i..i + |needle|] == needle
  }

  /** `includes` means: `needle` occurs at some offset of `hay`. */
  lemma {:induction false} IncludesIff(hay: string, needle: string)
    ensures Includes(hay, needle) <==> exists i :: OccursAt(hay, needle, i)
    decreases |hay|
  {
    if Includes(hay, needle) {
      if |needle| <= |hay| && hay[..|needle|] == needle {
        assert OccursAt(hay, needle, 0);
      } else {
        IncludesIff(hay[1..], needle);
        var i :| OccursAt(hay[1..], needle, i);
        assert hay[1..][i..i + |needle|] == hay[i + 1..i + 1 + |needle|];
        assert OccursAt(hay, needle, i + 1);
      }
    }
    if exists i :: OccursAt(hay, needle, i) {
      var i :| OccursAt(hay, needle, i);
      if i > 0 {
        assert hay[1..][i - 1..i - 1 + |needle|] == hay[i..i + |needle|];
        assert OccursAt(hay[1..], needle, i - 1);
        IncludesIff(hay[1..], needle);
      } else {
        assert hay[..|needle|] == needle;
      }
    }
  }

  /** Every character of an included string occurs in the hay. */
  lemma {:induction false} IncludedCharsOccur(hay: string, needle: string, ch: char)
    requires Includes(hay, needle) && ch in needle
    ensures ch in hay
    decreases |hay|
  {
    if |needle| <= |hay| && hay[..|needle|] == needle {
      var k :| 0 <= k < |needle| && needle[k] == ch;
      assert hay[k] == ch;
    } else {
      IncludedCharsOccur(hay[1..], needle, ch);
    }
  }

  /** The filter condition of `searchSymbols`. */
  predicate Matches(e: MockStock, query: string)
  {
    Includes(Lower(e.symbol), Lower(query)) || Includes(Lower(e.name), Lower(query))
  }

  /** `rows.filter(matches).map(...)`. */
  function SearchIn(rows: seq<MockStock>, query: string): (r: seq<StockSymbol>)
    ensures |r| <= |rows|
    ensures forall x :: x in r <==> exists e :: e in rows && Matches(e, query) && x == ToStockSymbol(e)
    ensures forall k :: 0 <= k < |r| ==> r[k].displaySymbol == r[k].symbol && r[k].symbolType == CommonStock
  {
    if rows == [] then []
    else (if Matches(rows[0], query) then [ToStockSymbol(rows[0])] else []) + SearchIn(rows[1..], query)
  }

  /** `searchSymbols(query)` over the fixed table. */
  function SearchSymbols(query: string): seq<StockSymbol>
  {
    SearchIn(MockStocks, query)
  }

  /** Search results come in table order. */
  lemma {:induction false} SearchInTableOrder(rows: seq<MockStock>, query: string)
    ensures IsSubsequence(SearchIn(rows, query), SymbolsOf(rows))
  {
    if rows != [] {
      SearchInTableOrder(rows[1..], query);
      assert SymbolsOf(rows)[1..] == SymbolsOf(rows[1..]);
      if Matches(rows[0], query) {
        assert SearchIn(rows, query)[1..] == SearchIn(rows[1..], query);
      } else {
        assert SearchIn(rows, query) == SearchIn(rows[1..], query);
        SubsequenceOfTail(SearchIn(rows, query), SymbolsOf(rows));
      }
    }
  }

  /** The empty query matches every row: it lists the whole table. */
  lemma {:induction false} EmptyQueryListsAll(rows: seq<MockStock>)
    ensures SearchIn(rows, "") == SymbolsOf(rows)
  {
    if rows != [] {
      assert Lower("") == "";
      assert Matches(rows[0], "");
      EmptyQueryListsAll(rows[1..]);
    }
  }

  /** `getStockSymbols()` lists the ten table rows, in order by `SymbolsOf`. */
  lemma StockSymbolsCount()
    ensures |GetStockSymbols()| == 10
  {
    assert |MockStocks| == 10;
  }

  /** The empty search query returns the whole listing. */
  lemma EmptySearchListsTable()
    ensures SearchSymbols("") == GetStockSymbols()
  {
    EmptyQueryListsAll(MockStocks);
  }

  /** A query with a character that occurs in no row gives an empty result. */
  lemma {:induction false} AbsentCharNoResults(rows: seq<MockStock>, query: string, ch: char)
    requires ch in Lower(query)
    requires forall e :: e in rows ==> ch !in Lower(e.symbol) && ch !in Lower(e.name)
    ensures SearchIn(rows, query) == []
  {
    if rows != [] {
      if Includes(Lower(rows[0].symbol), Lower(query)) {
        IncludedCharsOccur(Lower(rows[0].symbol), Lower(query), ch);
      }
      if Includes(Lower(rows[0].name), Lower(query)) {
        IncludedCharsOccur(Lower(rows[0].name), Lower(query), ch);
      }
      AbsentCharNoResults(rows[1..], query, ch);
    }
  }

  // ---------------------------------------------------------------------------
  // One tick of the simulated feed, as values

  /** The quote a tick writes for a symbol whose previous entry is `prev`, with draw `rnd`. */
  function NextQuote(prev: Option<Quote>, rnd: real, now: int): (r: Quote)
    requires prev.Some? ==> prev.value.pc != 0.0
    ensures r.h >= r.c && r.l <= r.c
    ensures prev.Some? && prev.value.h != 0.0 ==> r.h >= prev.value.h
    ensures prev.Some? && prev.value.l != 0.0 ==> r.l <= prev.value.l
    ensures prev.Some? ==> r.pc == prev.value.pc
    ensures r.pc != 0.0 && r.t == now
  {
    var current := if prev.Some? then Or(prev.value.c, 100.0) else 100.0;
    var change := (rnd - 0.5) * current * 0.01;
    var newPrice := current + change;
    match prev
    case None =>
      Quote(newPrice, change, change / 100.0 * 100.0, Max(0.0, newPrice), newPrice,
            newPrice - change, newPrice - change, now)
    case Some(q) =>
      Quote(newPrice,
            Or(newPrice - q.pc, change),
            Or(newPrice / q.pc - 1.0, change / 100.0) * 100.0,
            Max(Or(q.h, 0.0), newPrice),
            if q.l != 0.0 then Min(q.l, newPrice) else newPrice,
            Or(q.o, newPrice - change),
            Or(q.pc, newPrice - change),
            now)
  }

  function TickQuote(p: map<Symbol, Quote>, s: Symbol, rnd: Symbol -> real, now: int): Quote
    requires PcNonZero(p)
  {
    NextQuote(Get(p, s), rnd(s), now)
  }

  /** The price table after a tick over the subscriptions `subs`. */
  function TickPrices(p: map<Symbol, Quote>, subs: seq<Symbol>, rnd: Symbol -> real, now: int): (r: map<Symbol, Quote>)
    requires PcNonZero(p)
    ensures PcNonZero(r)
    ensures forall s :: s in r <==> s in p || s in subs
    ensures forall s :: s in subs ==> r[s] == TickQuote(p, s, rnd, now)
    ensures forall s :: s in subs ==> r[s].h >= r[s].c && r[s].l <= r[s].c
    ensures forall s :: s in subs && s in p ==> r[s].pc == p[s].pc
    ensures forall s :: s in subs && s in p && p[s].h != 0.0 ==> r[s].h >= p[s].h
    ensures forall s :: s in subs && s in p && p[s].l != 0.0 ==> r[s].l <= p[s].l
    ensures forall s :: s in p && s !in subs ==> r[s] == p[s]
  {
    map s | s in p.Keys + (set x | x in subs) :: if s in subs then TickQuote(p, s, rnd, now) else p[s]
  }

  datatype Listener = Listener(id: nat)

  /** The function `onMessage` returns: calling it removes `cb` again. */
  datatype Handle = Handle(cb: Listener)

  /** One callback invocation: `listener` called with `data`. */
  datatype Delivery = Delivery(listener: Listener, data: SymbolQuote)

  /** `callbacks.forEach(cb => cb(data))`, as the list of invocations. */
  function Fanout(cbs: seq<Listener>, data: SymbolQuote): (r: seq<Delivery>)
    ensures |r| == |cbs|
    ensures forall j :: 0 <= j < |cbs| ==> r[j] == Delivery(cbs[j], data)
  {
    if cbs == [] then [] else Fanout(cbs[..|cbs| - 1], data) + [Delivery(cbs[|cbs| - 1], data)]
  }

  /** All invocations of one tick: symbols in subscription order, listeners in
      registration order within each symbol. */
  function Deliveries(subs: seq<Symbol>, cbs: seq<Listener>, p: map<Symbol, Quote>, rnd: Symbol -> real, now: int): seq<Delivery>
    requires PcNonZero(p)
  {
    if subs == [] then []
    else
      var s := subs[|subs| - 1];
      Deliveries(subs[..|subs| - 1], cbs, p, rnd, now) + Fanout(cbs, SymbolQuote(s, TickQuote(p, s, rnd, now)))
  }

  /** A tick makes |subs| * |cbs| invocations. */
  lemma {:induction false} DeliveriesLength(subs: seq<Symbol>, cbs: seq<Listener>, p: map<Symbol, Quote>, rnd: Symbol -> real, now: int)
    requires PcNonZero(p)
    ensures |Deliveries(subs, cbs, p, rnd, now)| == |subs| * |cbs|
  {
    if subs != [] {
      DeliveriesLength(subs[..|subs| - 1], cbs, p, rnd, now);
      assert (|subs| - 1) * |cbs| + |cbs| == |subs| * |cbs|;
    }
  }

  lemma {:induction false} ProductStep(i: nat, n: nat, m: nat, j: nat)
    requires i < n && j < m
    ensures i * m + j < n * m
    decreases n
  {
    assert n * m == (n - 1) * m + m;
    if i < n - 1 {
      ProductStep(i, n - 1, m, j);
    }
  }

  /** Invocation number i * |cbs| + j of a tick calls listener j with symbol i's new quote. */
  lemma {:induction false} DeliveriesAt(subs: seq<Symbol>, cbs: seq<Listener>, p: map<Symbol, Quote>, rnd: Symbol -> real, now: int, i: nat, j: nat)
    requires PcNonZero(p) && i < |subs| && j < |cbs|
    ensures i * |cbs| + j < |Deliveries(subs, cbs, p, rnd, now)|
    ensures Deliveries(subs, cbs, p, rnd, now)[i * |cbs| + j]
            == Delivery(cbs[j], SymbolQuote(subs[i], TickQuote(p, subs[i], rnd, now)))
  {
    var n := |subs|;
    var front := subs[..n - 1];
    DeliveriesLength(subs, cbs, p, rnd, now);
    DeliveriesLength(front, cbs, p, rnd, now);
    ProductStep(i, n, |cbs|, j);
    if i < n - 1 {
      ProductStep(i, n - 1, |cbs|, j);
      DeliveriesAt(front, cbs, p, rnd, now, i, j);
      assert front[i] == subs[i];
    } else {
      assert (n - 1) * |cbs| + j - |Deliveries(front, cbs, p, rnd, now)| == j;
    }
  }

  /** Every invocation is to a registered listener, for a subscribed symbol, carrying that
      symbol's new quote. */
  lemma {:induction false} DeliveriesOnlySubscribed(subs: seq<Symbol>, cbs: seq<Listener>, p: map<Symbol, Quote>, rnd: Symbol -> real, now: int)
    requires PcNonZero(p)
    ensures forall d :: d in Deliveries(subs, cbs, p, rnd, now) ==>
              d.listener in cbs && d.data.symbol in subs && d.data.quote == TickQuote(p, d.data.symbol, rnd, now)
  {
    if subs != [] {
      var front := subs[..|subs| - 1];
      DeliveriesOnlySubscribed(front, cbs, p, rnd, now);
      forall s | s in front ensures s in subs {
        var k :| 0 <= k < |front| && front[k] == s;
        assert subs[k] == s;
      }
    }
  }

  /** Number of invocations carrying a quote for `s`. */
  function CountFor(ds: seq<Delivery>, s: Symbol): nat
  {
    if ds == [] then 0 else (if ds[|ds| - 1].data.symbol == s then 1 else 0) + CountFor(ds[..|ds| - 1], s)
  }

  lemma {:induction false} CountForAppend(a: seq<Delivery>, b: seq<Delivery>, s: Symbol)
    ensures CountFor(a + b, s) == CountFor(a, s) + CountFor(b, s)
    decreases |b|
  {
    if b != [] {
      assert (a + b)[..|a + b| - 1] == a + b[..|b| - 1];
      assert (a + b)[|a + b| - 1] == b[|b| - 1];
      CountForAppend(a, b[..|b| - 1], s);
      assert CountFor(a + b, s) == (if b[|b| - 1].data.symbol == s then 1 else 0) + CountFor(a + b[..|b| - 1], s);
    } else {
      assert a + b == a;
    }
  }

  lemma {:induction false} CountForFanout(cbs: seq<Listener>, data: SymbolQuote, s: Symbol)
    ensures CountFor(Fanout(cbs, data), s) == if data.symbol == s then |cbs| else 0
  {
    if cbs != [] {
      var f := Fanout(cbs, data);
      assert f[..|f| - 1] == Fanout(cbs[..|cbs| - 1], data);
      CountForFanout(cbs[..|cbs| - 1], data, s);
    }
  }

  /** With duplicate-free subscriptions, a tick delivers a subscribed symbol exactly once to
      each listener and an unsubscribed symbol never. */
  lemma {:induction false} DeliveriesCount(subs: seq<Symbol>, cbs: seq<Listener>, p: map<Symbol, Quote>, rnd: Symbol -> real, now: int, s: Symbol)
    requires PcNonZero(p) && NoDup(subs)
    ensures CountFor(Deliveries(subs, cbs, p, rnd, now), s) == if s in subs then |cbs| else 0
  {
    if subs != [] {
      var n := |subs|;
      var front := subs[..n - 1];
      var last := subs[n - 1];
      assert NoDup(front);
      DeliveriesCount(front, cbs, p, rnd, now, s);
      CountForAppend(Deliveries(front, cbs, p, rnd, now), Fanout(cbs, SymbolQuote(last, TickQuote(p, last, rnd, now))), s);
      CountForFanout(cbs, SymbolQuote(last, TickQuote(p, last, rnd, now)), s);
      assert subs == front + [last];
      if last == s {
        assert s !in front;
      }
    }
  }

  // ---------------------------------------------------------------------------
  // The module-level price table and the feed object

  /** `mockPriceData`, the table that `getQuote` reads and every tick overwrites. */
  class MockPriceData {
    var prices: map<Symbol, Quote>

    ghost predicate Valid()
      reads this
    {
      PcNonZero(prices)
    }

    /** The table as the module initialises it: one generated quote per base price. */
    constructor (rnd: Symbol -> real, now: int)
      ensures Valid()
      ensures prices.Keys == MockBasePrice.Keys
      ensures forall s :: s in prices ==> prices[s] == GenerateMockPrice(MockBasePrice[s], rnd(s), now)
    {
      prices := map s | s in MockBasePrice :: GenerateMockPrice(MockBasePrice[s], rnd(s), now);
    }
  }

  /** `StockWebSocket`: a timer flag, an ordered subscription list and ordered listeners. */
  class StockWebSocket {
    var callbacks: seq<Listener>
    /** The running timer's id, or None when disconnected. */
    var interval: Option<nat>
    /** Ids handed out by `setInterval` so far; each new timer gets a fresh one. */
    var timersStarted: nat
    /** The subscribed symbols, in subscription order. */
    var watchlist: seq<Symbol>
    const market: MockPriceData

    ghost predicate Valid()
      reads this, market
    {
      NoDup(watchlist) && market.Valid() && (interval.Some? ==> interval.value < timersStarted)
    }

    constructor (market: MockPriceData)
      requires market.Valid()
      ensures Valid() && this.market == market
      ensures callbacks == [] && interval == None && watchlist == [] && timersStarted == 0
    {
      this.market := market;
      callbacks, interval, timersStarted, watchlist := [], None, 0, [];
    }

    /** Starts a timer unless one is already running. */
    method Connect()
      requires Valid()
      modifies this`interval, this`timersStarted
      ensures Valid() && interval.Some?
      ensures old(interval).Some? ==> interval == old(interval) && timersStarted == old(timersStarted)
      ensures old(interval).None? ==> interval == Some(old(timersStarted)) && timersStarted == old(timersStarted) + 1
    {
      if interval.None? {
        interval := Some(timersStarted);
        timersStarted := timersStarted + 1;
      }
    }

    /** Clears the timer, if any. */
    method Disconnect()
      requires Valid()
      modifies this`interval
      ensures Valid() && interval == None
    {
      if interval.Some? {
        interval := None;
      }
    }

    method Subscribe(symbol: Symbol)
      requires Valid()
      modifies this`watchlist
      ensures Valid()
      ensures watchlist == AddIfAbsent(old(watchlist), symbol)
    {
      if symbol !in watchlist {
        watchlist := watchlist + [symbol];
      }
    }

    method Unsubscribe(symbol: Symbol)
      requires Valid()
      modifies this`watchlist
      ensures Valid()
      ensures watchlist == Without(old(watchlist), symbol)
    {
      WithoutNoDup(watchlist, symbol);
      watchlist := Without(watchlist, symbol);
    }

    /** `onMessage(cb)`: registers `cb` last and returns its removal handle. */
    method OnMessage(cb: Listener) returns (h: Handle)
      modifies this`callbacks
      ensures callbacks == old(callbacks) + [cb] && h.cb == cb
    {
      callbacks := callbacks + [cb];
      h := Handle(cb);
    }

    /** Calling a handle: drops every registration of its listener. */
    method Release(h: Handle)
      modifies this`callbacks
      ensures callbacks == Without(old(callbacks), h.cb)
    {
      callbacks := Without(callbacks, h.cb);
    }

    /** One firing of the timer: for each subscribed symbol in order, write its next quote
        into the table, then call every listener in order with the tagged quote. */
    method Tick(rnd: Symbol -> real, now: int) returns (deliveries: seq<Delivery>)
      requires Valid() && interval.Some?
      modifies market
      ensures Valid()
      ensures market.prices == TickPrices(old(market.prices), watchlist, rnd, now)
      ensures deliveries == Deliveries(watchlist, callbacks, old(market.prices), rnd, now)
    {
      ghost var p0 := market.prices;
      var subs, cbs := watchlist, callbacks;
      deliveries := [];
      var i := 0;
      while i < |subs|
        invariant 0 <= i <= |subs|
        invariant PcNonZero(market.prices)
        invariant market.prices == TickPrices(p0, subs[..i], rnd, now)
        invariant deliveries == Deliveries(subs[..i], cbs, p0, rnd, now)
      {
        var s := subs[i];
        NotInPrefix(subs, i);
        var q := NextQuote(Get(market.prices, s), rnd(s), now);
        assert q == TickQuote(p0, s, rnd, now);
        TickPricesStep(p0, subs, i, rnd, now);
        market.prices := market.prices[s := q];
        var calls := Notify(cbs, SymbolQuote(s, market.prices[s]));
        deliveries := deliveries + calls;
        DeliveriesStep(subs, cbs, p0, rnd, now, i);
        i := i + 1;
      }
      assert subs[..i] == subs;
    }
  }

  /** `callbacks.forEach(callback => callback(data))`: one call per listener, in order. */
  method Notify(cbs: seq<Listener>, data: SymbolQuote) returns (calls: seq<Delivery>)
    ensures calls == Fanout(cbs, data)
  {
    calls := [];
    var j := 0;
    while j < |cbs|
      invariant 0 <= j <= |cbs|
      invariant calls == Fanout(cbs[..j], data)
    {
      assert cbs[..j + 1][..j] == cbs[..j];
      calls := calls + [Delivery(cbs[j], data)];
      j := j + 1;
    }
    assert cbs[..j] == cbs;
  }

  /** Extending the ticked prefix by one symbol appends that symbol's fan-out. */
  lemma DeliveriesStep(subs: seq<Symbol>, cbs: seq<Listener>, p: map<Symbol, Quote>, rnd: Symbol -> real, now: int, i: nat)
    requires PcNonZero(p) && i < |subs|
    ensures Deliveries(subs[..i + 1], cbs, p, rnd, now)
            == Deliveries(subs[..i], cbs, p, rnd, now) + Fanout(cbs, SymbolQuote(subs[i], TickQuote(p, subs[i], rnd, now)))
  {
    assert subs[..i + 1][..i] == subs[..i];
  }

  /** Extending the ticked prefix by one fresh symbol is one map update. */
  lemma TickPricesStep(p: map<Symbol, Quote>, subs: seq<Symbol>, i: nat, rnd: Symbol -> real, now: int)
    requires PcNonZero(p) && i < |subs| && subs[i] !in subs[..i]
    ensures TickPrices(p, subs[..i + 1], rnd, now)
            == TickPrices(p, subs[..i], rnd, now)[subs[i] := NextQuote(Get(p, subs[i]), rnd(subs[i]), now)]
  {
    assert subs[..i + 1] == subs[..i] + [subs[i]];
  }
}
