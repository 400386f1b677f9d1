/** `CachedYahooFinanceService`: the read-through decorator. A quote request is
    split into symbols the cache answers and symbols fetched from the upstream
    service; fetched data is written back, and one telemetry row is logged per
    request. The request id, the elapsed milliseconds and the clock are inputs. */
module Cached {
  import opened Wrappers
  import opened Text
  import opened Results
  import opened Requests
  import opened Responses
  import opened Store
  import opened Upstream

  const QuoteEndpointPath := "/api/yh/quote"
  const TrendingEndpointPath := "/api/yh/trending"
  const HttpGet := "GET"
  /** The language every trending telemetry row records. */
  const TrendingLogLanguage := "en"
  const StatusOk := 200
  const StatusServerError := 500

  /** The three variables of the lookup loop. */
  datatype Partition = Partition(cachedQuotes: seq<QuoteData>, symbolsToFetch: seq<string>, cacheHits: nat)

  /** The request handed to the upstream service for the symbols the cache missed. */
  function RemainingRequest(request: QuoteRequest, symbolsToFetch: seq<string>): (r: QuoteRequest)
    ensures r.region == request.region && r.language == request.language
  {
    QuoteRequest(Join(",", symbolsToFetch), request.region, request.language)
  }

  /** The telemetry row `LogApiRequest` saves. */
  function Telemetry(requestId: string, endpoint: string, symbols: Option<string>, region: string, language: string,
                     statusCode: int, elapsedMs: int, cacheHit: bool, now: int): Entity
  {
    RequestEntity(ApiRequestRow(requestId, endpoint, HttpGet, symbols, region, language, Some(statusCode), Some(elapsedMs), cacheHit, now))
  }

  /** The write-back loop: one `SaveQuoteAsync`, and so one `SaveChanges`, per quote. */
  function SaveQuotes(db: Db, quotes: seq<QuoteData>, region: string, now: int, online: bool): (r: Db)
    ensures Settled(db, online) ==> Settled(r, online)
    decreases |quotes|
  {
    if |quotes| == 0 then db
    else Save(SaveQuotes(db, quotes[..|quotes| - 1], region, now, online),
              [QuoteEntity(QuoteRowFor(quotes[|quotes| - 1], region, now))], online)
  }

  /** The loop's step: saving one more quote of the list saves its row after the others. */
  lemma SaveQuotesStep(db: Db, quotes: seq<QuoteData>, k: nat, region: string, now: int, online: bool, before: Db, after: Db)
    requires k < |quotes|
    requires before == SaveQuotes(db, quotes[..k], region, now, online)
    requires after == Save(before, [QuoteEntity(QuoteRowFor(quotes[k], region, now))], online)
    ensures after == SaveQuotes(db, quotes[..k + 1], region, now, online)
  {
    assert quotes[..k + 1][..k] == quotes[..k];
  }

  /** Once one quote of the loop is refused, every later one is too, and so is the
      telemetry row saved after the loop: that request is never logged. */
  lemma {:induction false} RefusedQuoteLosesTelemetry(db: Db, quotes: seq<QuoteData>, region: string, now: int, online: bool, row: Entity)
    requires Settled(db, online)
    requires SaveQuotes(db, quotes, region, now, online).tracked != []
    ensures var after := SaveQuotes(db, quotes, region, now, online);
      Save(after, [row], online).committed == after.committed
  {
    var after := SaveQuotes(db, quotes, region, now, online);
    RefusedContextStaysRefused(after, [row], online);
  }

  /** A fetched quote that repeats the market time of a stored row for its key (a
      closed market) is refused, and with it the request's telemetry. */
  lemma RepeatedMarketTimeLosesTelemetry(db: Db, quote: QuoteData, region: string, now: int, online: bool, row: Entity)
    requires Settled(db, online) && db.tracked == []
    requires exists q :: q in db.committed.quotes && SameKey(q.symbol, quote.symbol) && SameKey(q.region, region)
                         && q.quoteTimestamp == Some(quote.regularMarketTime.GetOr(now))
    ensures var after := SaveQuotes(db, [quote], region, now, online);
      after.committed == db.committed && Save(after, [row], online).committed == db.committed
  {
    var entity := QuoteEntity(QuoteRowFor(quote, region, now));
    assert [quote][..0] == [];
    assert SaveQuotes(db, [], region, now, online) == db;
    assert db.tracked + [entity] == [] + [entity];
    SameTimestampRefused(db.committed, [], quote, region, now);
    assert !Acceptable(db.committed, db.tracked + [entity]);
    var after := SaveQuotes(db, [quote], region, now, online);
    assert after == Save(db, [entity], online);
    assert after == Db(db.committed, [entity]);
    RefusedQuoteLosesTelemetry(db, [quote], region, now, online, row);
  }

  /** White space between commas passes through the decorator: `"A, ,B"` fails
      the format check, yet with nothing cached the decorator forwards `"A,,B"`,
      which passes it. */
  lemma WhitespacePieceForwarded()
    ensures !HasValidSymbolFormat("A, ,B")
    ensures RemainingRequest(QuoteRequest("A, ,B", DefaultRegion, DefaultLanguage), GetSymbolsArray("A, ,B")).symbols == "A,,B"
    ensures HasValidSymbolFormat("A,,B")
  {
    BlankPieceRejected();
    BlankPieceNormalized();
    ForwardedBlankAccepted();
  }

  class CachedYahooFinanceService {
    const inner: YahooFinanceService
    const cache: CacheService

    constructor(inner: YahooFinanceService, cache: CacheService)
      ensures this.inner == inner && this.cache == cache
    {
      this.inner := inner;
      this.cache := cache;
    }

    // ---- GetQuoteAsync ----

    /** What the lookup loop computes: hits in request order, misses in request
        order, and the number of hits. */
    function PartitionOf(symbols: seq<string>, region: string, now: int): Partition
      reads cache
      decreases |symbols|
    {
      if |symbols| == 0 then Partition([], [], 0)
      else
        var p := PartitionOf(symbols[..|symbols| - 1], region, now);
        var symbol := symbols[|symbols| - 1];
        match cache.GetCachedQuote(symbol, region, now)
        case Some(q) => Partition(p.cachedQuotes + [q], p.symbolsToFetch, p.cacheHits + 1)
        case None => Partition(p.cachedQuotes, p.symbolsToFetch + [symbol], p.cacheHits)
    }

    /** One step of the lookup loop. */
    lemma PartitionStep(init: seq<string>, symbol: string, region: string, now: int)
      ensures var p := PartitionOf(init, region, now);
        PartitionOf(init + [symbol], region, now)
        == match cache.GetCachedQuote(symbol, region, now)
           case Some(q) => Partition(p.cachedQuotes + [q], p.symbolsToFetch, p.cacheHits + 1)
           case None => Partition(p.cachedQuotes, p.symbolsToFetch + [symbol], p.cacheHits)
    {
      assert (init + [symbol])[..|init|] == init;
    }

    /** Every symbol lands in exactly one list (a hit carries the stored row's
        symbol, which may differ in letter case), and the counter counts the hits. */
    lemma {:induction false} PartitionCounts(symbols: seq<string>, region: string, now: int)
      ensures PartitionOf(symbols, region, now).cacheHits == |PartitionOf(symbols, region, now).cachedQuotes|
      ensures multiset(Keys(QuoteSymbols(PartitionOf(symbols, region, now).cachedQuotes)))
              + multiset(Keys(PartitionOf(symbols, region, now).symbolsToFetch)) == multiset(Keys(symbols))
      decreases |symbols|
    {
      if |symbols| > 0 {
        var init := symbols[..|symbols| - 1];
        var symbol := symbols[|symbols| - 1];
        assert symbols == init + [symbol];
        KeysAppend(init, [symbol]);
        PartitionCounts(init, region, now);
        PartitionStep(init, symbol, region, now);
        var p := PartitionOf(init, region, now);
        var found := cache.GetCachedQuote(symbol, region, now);
        if found.Some? {
          QuoteSymbolsAppend(p.cachedQuotes, [found.value]);
          assert QuoteSymbols([found.value]) == [found.value.symbol];
          KeysAppend(QuoteSymbols(p.cachedQuotes), [found.value.symbol]);
          assert Keys([found.value.symbol]) == Keys([symbol]);
        } else {
          KeysAppend(p.symbolsToFetch, [symbol]);
        }
      }
    }

    /** The misses are exactly the requested symbols the cache has nothing fresh for. */
    lemma {:induction false} PartitionMisses(symbols: seq<string>, region: string, now: int)
      ensures var p := PartitionOf(symbols, region, now);
        forall s :: s in p.symbolsToFetch <==> s in symbols && cache.GetCachedQuote(s, region, now).None?
      decreases |symbols|
    {
      if |symbols| > 0 {
        var init := symbols[..|symbols| - 1];
        var symbol := symbols[|symbols| - 1];
        assert symbols == init + [symbol];
        PartitionMisses(init, region, now);
        PartitionStep(init, symbol, region, now);
        var before := PartitionOf(init, region, now).symbolsToFetch;
        var after := PartitionOf(symbols, region, now).symbolsToFetch;
        assert after == if cache.GetCachedQuote(symbol, region, now).Some? then before else before + [symbol];
        forall s
          ensures s in after <==> s in symbols && cache.GetCachedQuote(s, region, now).None?
        {
          assert s in symbols <==> s in init || s == symbol;
        }
      }
    }

    /** Each quote is the cache's answer for its own symbol. */
    predicate CacheAnswers(quotes: seq<QuoteData>, region: string, now: int)
      reads cache
    {
      forall i :: 0 <= i < |quotes| ==> cache.GetCachedQuote(quotes[i].symbol, region, now) == Some(quotes[i])
    }

    /** Each hit is the cache's answer for its own symbol. */
    lemma {:induction false} PartitionHits(symbols: seq<string>, region: string, now: int)
      ensures CacheAnswers(PartitionOf(symbols, region, now).cachedQuotes, region, now)
      decreases |symbols|
    {
      if |symbols| > 0 {
        var symbol := symbols[|symbols| - 1];
        var init := symbols[..|symbols| - 1];
        PartitionHits(init, region, now);
        var hits := PartitionOf(init, region, now).cachedQuotes;
        var found := cache.GetCachedQuote(symbol, region, now);
        if found.Some? {
          cache.GetCachedQuoteSameKey(found.value.symbol, symbol, region, now);
          assert PartitionOf(symbols, region, now).cachedQuotes == hits + [found.value];
        }
      }
    }

    /** The answer `GetQuoteAsync` gives for a partition: all cached gives the
        cached quotes without consulting the upstream; otherwise a success merges
        the cached quotes before the fetched ones, and a failure is passed on. */
    function QuoteResult(request: QuoteRequest, p: Partition): Result<QuoteResponse>
    {
      var symbols := GetSymbolsArray(request.symbols);
      if |p.symbolsToFetch| == 0 then Success(QuoteResponse(symbols, request.region, request.language, p.cachedQuotes, None))
      else
        var api := inner.QuoteOutcome(RemainingRequest(request, p.symbolsToFetch));
        if api.IsSuccess() then Success(QuoteResponse(symbols, request.region, request.language, p.cachedQuotes + api.value.quotes, None))
        else api
    }

    /** The telemetry row of a quote request: the raw symbol text, 200 on
        success and 500 on any upstream failure, a hit only when all was cached. */
    function QuoteTelemetry(request: QuoteRequest, p: Partition, requestId: string, elapsedMs: int, now: int): Entity
    {
      var status := if QuoteResult(request, p).IsSuccess() then StatusOk else StatusServerError;
      Telemetry(requestId, QuoteEndpointPath, Some(request.symbols), request.region, request.language,
                status, elapsedMs, |p.symbolsToFetch| == 0, now)
    }

    /** The store after `GetQuoteAsync`: fetched quotes are written back one by one,
        then the telemetry row. */
    function QuoteWrites(db: Db, online: bool, request: QuoteRequest, p: Partition, requestId: string, elapsedMs: int, now: int): Db
    {
      var api := inner.QuoteOutcome(RemainingRequest(request, p.symbolsToFetch));
      var written := if |p.symbolsToFetch| > 0 && api.IsSuccess() then SaveQuotes(db, api.value.quotes, request.region, now, online) else db;
      Save(written, [QuoteTelemetry(request, p, requestId, elapsedMs, now)], online)
    }

    /** The lookup loop of `GetQuoteAsync`. */
    method LookUp(symbols: seq<string>, region: string, now: int) returns (p: Partition)
      ensures p == PartitionOf(symbols, region, now)
    {
      var cachedQuotes: seq<QuoteData> := [];
      var symbolsToFetch: seq<string> := [];
      var cacheHits := 0;
      var i := 0;
      while i < |symbols|
        invariant 0 <= i <= |symbols|
        invariant Partition(cachedQuotes, symbolsToFetch, cacheHits) == PartitionOf(symbols[..i], region, now)
      {
        assert symbols[..i + 1][..i] == symbols[..i];
        var cachedQuote := cache.GetCachedQuote(symbols[i], region, now);
        if cachedQuote.Some? {
          cachedQuotes := cachedQuotes + [cachedQuote.value];
          cacheHits := cacheHits + 1;
        } else {
          symbolsToFetch := symbolsToFetch + [symbols[i]];
        }
        i := i + 1;
      }
      assert symbols[..i] == symbols;
      p := Partition(cachedQuotes, symbolsToFetch, cacheHits);
    }

    /** The write-back loop of `GetQuoteAsync`. */
    method WriteBack(quotes: seq<QuoteData>, region: string, now: int)
      requires cache.Valid()
      modifies cache
      ensures cache.Valid()
      ensures cache.State() == SaveQuotes(old(cache.State()), quotes, region, now, cache.online)
    {
      ghost var db := cache.State();
      var k := 0;
      while k < |quotes|
        invariant 0 <= k <= |quotes|
        invariant cache.Valid()
        invariant cache.State() == SaveQuotes(db, quotes[..k], region, now, cache.online)
      {
        ghost var before := cache.State();
        cache.SaveQuote(quotes[k], region, now);
        SaveQuotesStep(db, quotes, k, region, now, cache.online, before, cache.State());
        k := k + 1;
      }
      assert quotes[..k] == quotes;
    }

    method GetQuote(request: QuoteRequest, requestId: string, elapsedMs: int, now: int) returns (r: Result<QuoteResponse>)
      requires cache.Valid()
      modifies cache, inner
      ensures cache.Valid()
      ensures var p := old(PartitionOf(GetSymbolsArray(request.symbols), request.region, now));
        r == QuoteResult(request, p)
        && cache.State() == QuoteWrites(old(cache.State()), cache.online, request, p, requestId, elapsedMs, now)
        && inner.calls == old(inner.calls) + (if |p.symbolsToFetch| == 0 then [] else [QuoteCall(RemainingRequest(request, p.symbolsToFetch))])
        && inner.sent == old(inner.sent) + (if |p.symbolsToFetch| == 0 then [] else inner.QuoteSent(RemainingRequest(request, p.symbolsToFetch)))
    {
      var symbols := GetSymbolsArray(request.symbols);
      var p := LookUp(symbols, request.region, now);
      if |p.symbolsToFetch| == 0 {
        r := Success(QuoteResponse(symbols, request.region, request.language, p.cachedQuotes, None));
        LogApiRequest(requestId, QuoteEndpointPath, HttpGet, Some(request.symbols), request.region, request.language,
                      StatusOk, elapsedMs, true, now);
        return;
      }
      r := FetchMisses(request, p, requestId, elapsedMs, now);
    }

    /** The rest of `GetQuoteAsync` once some symbol missed: one upstream request
        for the misses, the write-back on success, and the telemetry row. */
    method FetchMisses(request: QuoteRequest, p: Partition, requestId: string, elapsedMs: int, now: int) returns (r: Result<QuoteResponse>)
      requires cache.Valid() && |p.symbolsToFetch| > 0
      modifies cache, inner
      ensures cache.Valid()
      ensures r == QuoteResult(request, p)
      ensures cache.State() == QuoteWrites(old(cache.State()), cache.online, request, p, requestId, elapsedMs, now)
      ensures inner.calls == old(inner.calls) + [QuoteCall(RemainingRequest(request, p.symbolsToFetch))]
      ensures inner.sent == old(inner.sent) + inner.QuoteSent(RemainingRequest(request, p.symbolsToFetch))
    {
      var symbols := GetSymbolsArray(request.symbols);
      var remainingRequest := QuoteRequest(Join(",", p.symbolsToFetch), request.region, request.language);
      assert remainingRequest == RemainingRequest(request, p.symbolsToFetch);
      var apiResult := inner.GetQuote(remainingRequest);
      if apiResult.IsSuccess() {
        var fetched := apiResult.value.quotes;
        WriteBack(fetched, request.region, now);
        r := Success(QuoteResponse(symbols, request.region, request.language, p.cachedQuotes + fetched, None));
        LogApiRequest(requestId, QuoteEndpointPath, HttpGet, Some(request.symbols), request.region, request.language,
                      StatusOk, elapsedMs, false, now);
      } else {
        r := apiResult;
        LogApiRequest(requestId, QuoteEndpointPath, HttpGet, Some(request.symbols), request.region, request.language,
                      StatusServerError, elapsedMs, false, now);
      }
    }

    /** When every symbol is cached the answer is the cached quotes, whatever the
        request looks like: no symbol-format or region check is applied. */
    lemma AllCachedServed(request: QuoteRequest, p: Partition)
      requires |p.symbolsToFetch| == 0
      ensures QuoteResult(request, p).IsSuccess()
      ensures QuoteResult(request, p).value.quotes == p.cachedQuotes
      ensures QuoteResult(request, p).value.symbols == GetSymbolsArray(request.symbols)
    {
    }

    /** Only the misses reach the upstream, as one comma-joined request; a success
        puts the cached quotes first, keeps the normalised symbol list of the whole
        request, and drops the upstream's error message. */
    lemma MissesFetchedOnce(request: QuoteRequest, p: Partition)
      requires |p.symbolsToFetch| > 0
      ensures var api := inner.QuoteOutcome(RemainingRequest(request, p.symbolsToFetch));
        RemainingRequest(request, p.symbolsToFetch).symbols == Join(",", p.symbolsToFetch)
        && (api.IsSuccess() ==>
              QuoteResult(request, p).value.quotes[..|p.cachedQuotes|] == p.cachedQuotes
              && QuoteResult(request, p).value.quotes[|p.cachedQuotes|..] == api.value.quotes
              && QuoteResult(request, p).value.symbols == GetSymbolsArray(request.symbols)
              && QuoteResult(request, p).value.errorMessage.None?)
        && (api.IsFailure() ==> QuoteResult(request, p) == api)
    {
    }

    /** With nothing cached, the upstream is asked for exactly the normalised
        symbols of the request, joined by commas. */
    lemma NothingCachedForwardsAll(request: QuoteRequest, now: int)
      requires forall s :: s in GetSymbolsArray(request.symbols) ==> cache.GetCachedQuote(s, request.region, now).None?
      ensures PartitionOf(GetSymbolsArray(request.symbols), request.region, now).symbolsToFetch == GetSymbolsArray(request.symbols)
    {
      NoHitsFetchAll(GetSymbolsArray(request.symbols), request.region, now);
    }

    lemma {:induction false} NoHitsFetchAll(symbols: seq<string>, region: string, now: int)
      requires forall s :: s in symbols ==> cache.GetCachedQuote(s, region, now).None?
      ensures PartitionOf(symbols, region, now) == Partition([], symbols, 0)
      decreases |symbols|
    {
      if |symbols| > 0 {
        NoHitsFetchAll(symbols[..|symbols| - 1], region, now);
        assert symbols[..|symbols| - 1] + [symbols[|symbols| - 1]] == symbols;
      }
    }

    /** The telemetry row says 200 exactly when the answer is a success, records a
        cache hit exactly when nothing was fetched, and carries the raw symbol text. */
    lemma QuoteTelemetryReports(request: QuoteRequest, p: Partition, requestId: string, elapsedMs: int, now: int)
      ensures var row := QuoteTelemetry(request, p, requestId, elapsedMs, now).request;
        (row.statusCode == Some(StatusOk) <==> QuoteResult(request, p).IsSuccess())
        && (row.statusCode == Some(StatusServerError) <==> QuoteResult(request, p).IsFailure())
        && (row.cacheHit <==> |p.symbolsToFetch| == 0)
        && row.symbols == Some(request.symbols) && row.endpoint == QuoteEndpointPath
    {
    }

    // ---- GetTrendingAsync ----

    /** The answer for a cache read: a non-empty cached list is served as is,
        with the request's own region spelling and its length as the count;
        otherwise the upstream's answer. */
    function TrendingResult(request: TrendingRequest, cached: Option<seq<TrendingStock>>): Result<TrendingResponse>
    {
      if cached.Some? && |cached.value| > 0 then Success(TrendingResponse(request.region, cached.value, |cached.value|, None, None))
      else inner.TrendingOutcome(request)
    }

    function TrendingTelemetry(request: TrendingRequest, cached: Option<seq<TrendingStock>>, requestId: string, elapsedMs: int, now: int): Entity
    {
      var hit := cached.Some? && |cached.value| > 0;
      var status := if TrendingResult(request, cached).IsSuccess() then StatusOk else StatusServerError;
      Telemetry(requestId, TrendingEndpointPath, None, request.region, TrendingLogLanguage, status, elapsedMs, hit, now)
    }

    /** The store after `GetTrendingAsync`: a fetched list is saved as ranked rows
        with job time `now`, then the telemetry row. */
    function TrendingWrites(db: Db, online: bool, request: TrendingRequest, cached: Option<seq<TrendingStock>>,
                            requestId: string, elapsedMs: int, now: int): Db
    {
      var api := inner.TrendingOutcome(request);
      var fetched := !(cached.Some? && |cached.value| > 0) && api.IsSuccess();
      var written := if fetched then Save(db, TrendingEntities(TrendingRowsFor(api.value.stocks, request.region, now, now)), online) else db;
      Save(written, [TrendingTelemetry(request, cached, requestId, elapsedMs, now)], online)
    }

    /** A cache hit answers the cached list and writes only the telemetry row of a hit. */
    lemma TrendingHit(db: Db, online: bool, request: TrendingRequest, cached: Option<seq<TrendingStock>>,
                      requestId: string, elapsedMs: int, now: int)
      requires cached.Some? && |cached.value| > 0
      ensures TrendingResult(request, cached) == Success(TrendingResponse(request.region, cached.value, |cached.value|, None, None))
      ensures TrendingWrites(db, online, request, cached, requestId, elapsedMs, now)
              == Save(db, [Telemetry(requestId, TrendingEndpointPath, None, request.region, TrendingLogLanguage, StatusOk, elapsedMs, true, now)], online)
    {
    }

    method GetTrending(request: TrendingRequest, requestId: string, elapsedMs: int, now: int) returns (r: Result<TrendingResponse>)
      requires cache.Valid()
      modifies cache, inner
      ensures cache.Valid()
      ensures var cached := old(cache.GetCachedTrendingStocksForRegion(request.region, now));
        r == TrendingResult(request, cached)
        && cache.State() == TrendingWrites(old(cache.State()), cache.online, request, cached, requestId, elapsedMs, now)
        && inner.calls == old(inner.calls) + (if cached.Some? && |cached.value| > 0 then [] else [TrendingCall(request)])
        && inner.sent == old(inner.sent) + (if cached.Some? && |cached.value| > 0 then [] else inner.TrendingSent(request))
    {
      var cachedTrendingStocks := cache.GetCachedTrendingStocksForRegion(request.region, now);
      r := AnswerTrending(request, cachedTrendingStocks, requestId, elapsedMs, now);
    }

    /** `GetTrendingAsync` once the cache was read: the cached list when there is
        one, the upstream's answer otherwise. */
    method AnswerTrending(request: TrendingRequest, cached: Option<seq<TrendingStock>>, requestId: string, elapsedMs: int, now: int)
      returns (r: Result<TrendingResponse>)
      requires cache.Valid()
      modifies cache, inner
      ensures cache.Valid()
      ensures r == TrendingResult(request, cached)
      ensures cache.State() == TrendingWrites(old(cache.State()), cache.online, request, cached, requestId, elapsedMs, now)
      ensures inner.calls == old(inner.calls) + (if cached.Some? && |cached.value| > 0 then [] else [TrendingCall(request)])
      ensures inner.sent == old(inner.sent) + (if cached.Some? && |cached.value| > 0 then [] else inner.TrendingSent(request))
    {
      if cached.Some? && |cached.value| > 0 {
        r := ServeTrending(request, cached, requestId, elapsedMs, now);
      } else {
        r := FetchTrending(request, cached, requestId, elapsedMs, now);
      }
    }

    /** The hit path of `GetTrendingAsync`: the cached list, then the telemetry row. */
    method ServeTrending(request: TrendingRequest, cached: Option<seq<TrendingStock>>, requestId: string, elapsedMs: int, now: int)
      returns (r: Result<TrendingResponse>)
      requires cache.Valid() && cached.Some? && |cached.value| > 0
      modifies cache
      ensures cache.Valid()
      ensures r == TrendingResult(request, cached)
      ensures cache.State() == TrendingWrites(old(cache.State()), cache.online, request, cached, requestId, elapsedMs, now)
    {
      var stocks := cached.value;
      r := Success(TrendingResponse(request.region, stocks, |stocks|, None, None));
      TrendingHit(cache.State(), cache.online, request, cached, requestId, elapsedMs, now);
      LogApiRequest(requestId, TrendingEndpointPath, HttpGet, None, request.region, TrendingLogLanguage,
                    StatusOk, elapsedMs, true, now);
    }

    /** The miss path of `GetTrendingAsync`: the upstream's answer, saved when it
        succeeded, then the telemetry row. */
    method FetchTrending(request: TrendingRequest, cached: Option<seq<TrendingStock>>, requestId: string, elapsedMs: int, now: int)
      returns (r: Result<TrendingResponse>)
      requires cache.Valid() && !(cached.Some? && |cached.value| > 0)
      modifies cache, inner
      ensures cache.Valid()
      ensures r == TrendingResult(request, cached)
      ensures cache.State() == TrendingWrites(old(cache.State()), cache.online, request, cached, requestId, elapsedMs, now)
      ensures inner.calls == old(inner.calls) + [TrendingCall(request)]
      ensures inner.sent == old(inner.sent) + inner.TrendingSent(request)
    {
      var apiResult := inner.GetTrending(request);
      if apiResult.IsSuccess() {
        cache.SaveTrendingStocks(apiResult.value.stocks, request.region, None, now);
        LogApiRequest(requestId, TrendingEndpointPath, HttpGet, None, request.region, TrendingLogLanguage,
                      StatusOk, elapsedMs, false, now);
      } else {
        LogApiRequest(requestId, TrendingEndpointPath, HttpGet, None, request.region, TrendingLogLanguage,
                      StatusServerError, elapsedMs, false, now);
      }
      r := apiResult;
    }

    /** A cached answer keeps the request's region spelling and counts the listed
        stocks, while a fetched answer carries the upper-cased region and the
        upstream's own count. */
    lemma TrendingRegionSpelling(request: TrendingRequest, cached: Option<seq<TrendingStock>>)
      ensures cached.Some? && |cached.value| > 0 ==>
        TrendingResult(request, cached).value.region == request.region
        && TrendingResult(request, cached).value.count == |cached.value|
        && TrendingResult(request, cached).value.stocks == cached.value
      ensures !(cached.Some? && |cached.value| > 0) && TrendingResult(request, cached).IsSuccess() ==>
        TrendingResult(request, cached).value.region == ToUpper(request.region)
    {
      var dummy := request;
      if !(cached.Some? && |cached.value| > 0) && TrendingResult(request, cached).IsSuccess() {
        inner.TrendingUpperCasesRegion(request, dummy);
      }
    }

    /** A fetched list saved while the context is clean is what the next read of
        the region returns, cut to 50 stocks. */
    lemma FetchedTrendingIsCached(db: Db, request: TrendingRequest, cached: Option<seq<TrendingStock>>,
                                  requestId: string, elapsedMs: int, now: int)
      requires db.tracked == [] && Settled(db, true)
      requires forall t :: t in db.committed.trending ==> !TrendingMatches(t, request.region, now)
      requires cached.None? && inner.TrendingOutcome(request).IsSuccess()
      requires Acceptable(db.committed, TrendingEntities(TrendingRowsFor(inner.TrendingOutcome(request).value.stocks, request.region, now, now)))
      ensures var stocks := inner.TrendingOutcome(request).value.stocks;
        var after := TrendingWrites(db, true, request, cached, requestId, elapsedMs, now);
        ToTrendingStocks(TopTrending(after.committed.trending, request.region, now))
        == StoredStocks(stocks)[..Min(TrendingReadLimit, |stocks|)]
    {
      var stocks := inner.TrendingOutcome(request).value.stocks;
      var es := TrendingEntities(TrendingRowsFor(stocks, request.region, now, now));
      SaveIntoCleanContext(db, es, true);
      var written := Save(db, es, true);
      var row := TrendingTelemetry(request, cached, requestId, elapsedMs, now);
      assert row.RequestEntity?;
      SaveRequestKeepsTrending(written, row, true);
      SavedTrendingIsRead(db.committed, stocks, request.region, now, now);
    }

    // ---- The rest ----

    /** `GetSupportedRegions` is delegated unchanged. */
    function GetSupportedRegions(): (r: seq<string>)
      ensures r == Upstream.GetSupportedRegions()
    {
      Upstream.GetSupportedRegions()
    }

    /** `LogApiRequest`: one telemetry row through the cache service. */
    method LogApiRequest(requestId: string, endpoint: string, httpMethod: string, symbols: Option<string>,
                         region: string, language: string, statusCode: int, responseTimeMs: int, cacheHit: bool, now: int)
      requires cache.Valid()
      modifies cache
      ensures cache.Valid()
      ensures cache.State() == Save(old(cache.State()), [RequestEntity(ApiRequestRow(requestId, endpoint, httpMethod, symbols, region, language,
                                                                 Some(statusCode), Some(responseTimeMs), cacheHit, now))], cache.online)
    {
      cache.SaveApiRequest(requestId, endpoint, httpMethod, symbols, region, language, Some(statusCode), Some(responseTimeMs), cacheHit, now);
    }
  }

  /** `QuoteSymbols` distributes over concatenation. */
  lemma QuoteSymbolsAppend(a: seq<QuoteData>, b: seq<QuoteData>)
    ensures QuoteSymbols(a + b) == QuoteSymbols(a) + QuoteSymbols(b)
  {
  }
}
