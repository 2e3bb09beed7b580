/** The broker's last-known-good prices over whole request histories. */
module QuoteCache {
  import opened Numbers
  import opened PaperBroker

  datatype Request = Request(symbol: string, feed: Feed)

  /** The bridge answered with both prices, for the right symbol or without naming one. */
  predicate Usable(r: Request)
  {
    && r.feed.tick.Some?
    && r.feed.tick.value.bid != 0 && r.feed.tick.value.ask != 0
    && (r.feed.tick.value.symbol.None? || r.feed.tick.value.symbol.value == ""
        || r.feed.tick.value.symbol.value == r.symbol)
  }

  function QuoteOf(r: Request): Quote
    requires Usable(r)
  {
    Quote(r.feed.tick.value.bid, r.feed.tick.value.ask)
  }

  /** The cache after a history of requests. */
  function CacheAfter(history: seq<Request>): map<string, CachedQuote>
  {
    if history == [] then map[]
    else
      var last := history[|history| - 1];
      CurrentPrices(CacheAfter(history[..|history| - 1]), last.symbol, last.feed).lastTick
  }

  /** Request `m` is the latest usable one for a symbol. */
  ghost predicate LatestUsable(history: seq<Request>, symbol: string, m: nat)
  {
    && m < |history| && history[m].symbol == symbol && Usable(history[m])
    && forall k :: m < k < |history| && history[k].symbol == symbol ==> !Usable(history[k])
  }

  ghost predicate CacheIsLatest(history: seq<Request>, symbol: string)
  {
    var cache := CacheAfter(history);
    if symbol in cache
    then exists m: nat :: LatestUsable(history, symbol, m)
                          && cache[symbol] == CachedQuote(QuoteOf(history[m]), history[m].feed.now)
    else forall k :: 0 <= k < |history| && history[k].symbol == symbol ==> !Usable(history[k])
  }

  lemma OneRequest(cache: map<string, CachedQuote>, r: Request)
    ensures var after := CurrentPrices(cache, r.symbol, r.feed).lastTick;
            after == if Usable(r) then cache[r.symbol := CachedQuote(QuoteOf(r), r.feed.now)] else cache
  {
  }

  lemma {:induction false} CacheHoldsLatest(history: seq<Request>, symbol: string)
    ensures CacheIsLatest(history, symbol)
  {
    if history != [] {
      var init, last := history[..|history| - 1], history[|history| - 1];
      CacheHoldsLatest(init, symbol);
      OneRequest(CacheAfter(init), last);
      hide Usable, CurrentPrices;
      if last.symbol == symbol && Usable(last) {
        assert LatestUsable(history, symbol, |history| - 1);
      } else if symbol in CacheAfter(init) {
        var m: nat :| LatestUsable(init, symbol, m)
                      && CacheAfter(init)[symbol] == CachedQuote(QuoteOf(init[m]), init[m].feed.now);
        assert LatestUsable(history, symbol, m);
      }
    }
  }

  lemma LatestIsUnique(history: seq<Request>, symbol: string, m: nat, n: nat)
    requires LatestUsable(history, symbol, m) && LatestUsable(history, symbol, n)
    ensures m == n
  {
    hide Usable;
  }

  /** A request without a usable tick is answered exactly when the latest usable tick of its symbol is at
      most five seconds old, with that tick's prices. */
  ghost predicate AnsweredFromCache(history: seq<Request>, r: Request, q: Quote)
  {
    exists m: nat :: LatestUsable(history, r.symbol, m)
                     && QuoteOf(history[m]) == q && r.feed.now - history[m].feed.now <= 5.0
  }

  /** Prices are the request's own usable tick or else the symbol's latest one while it is fresh. */
  lemma PricesAreLatest(history: seq<Request>, r: Request, q: Quote)
    ensures CurrentPrices(CacheAfter(history), r.symbol, r.feed).quote == Some(q)
            <==> if Usable(r) then q == QuoteOf(r) else AnsweredFromCache(history, r, q)
  {
    hide CacheAfter;
    CacheHoldsLatest(history, r.symbol);
    var cache := CacheAfter(history);
    if !Usable(r) {
      if r.symbol in cache {
        var m: nat :| LatestUsable(history, r.symbol, m)
                      && cache[r.symbol] == CachedQuote(QuoteOf(history[m]), history[m].feed.now);
        forall n: nat | LatestUsable(history, r.symbol, n) ensures n == m {
          LatestIsUnique(history, r.symbol, m, n);
        }
      } else {
        NoLatest(history, r.symbol);
      }
    }
  }

  lemma NoLatest(history: seq<Request>, symbol: string)
    requires forall k :: 0 <= k < |history| && history[k].symbol == symbol ==> !Usable(history[k])
    ensures forall m: nat :: !LatestUsable(history, symbol, m)
  {
  }
}
