/** `CacheService`: the quote, trending and request tables behind one database
    context. Reads are queries over what the database holds; writes add an entity
    to the context's change tracker and then save every tracked entity at once. */
module Store {
  import opened Wrappers
  import opened Text
  import opened Responses
  import Json

  /** Quotes stay fresh for 15 minutes, trending lists for 30 (seconds). */
  const QuoteTtl := 15 * 60
  const TrendingTtl := 30 * 60
  /** A region read returns at most this many rows. */
  const TrendingReadLimit := 50

  /** A `stock_quotes` row; `Id`, `CreatedAt` and `UpdatedAt` take no part. */
  datatype QuoteRow = QuoteRow(
    symbol: string, region: string, quoteTimestamp: Option<int>, regularMarketTime: Option<int>,
    payload: Payload, cacheValidUntil: Option<int>)

  /** A `trending_stocks` row. */
  datatype TrendingRow = TrendingRow(
    region: string, symbol: string, payload: Payload, jobTimestamp: Option<int>,
    startInterval: Option<int>, trendingRank: Option<int>, cacheValidUntil: Option<int>)

  /** An `api_requests` row (request and response timestamps are both the save time). */
  datatype ApiRequestRow = ApiRequestRow(
    requestId: string, endpoint: string, httpMethod: string, symbols: Option<string>,
    region: string, language: string, statusCode: Option<int>, responseTimeMs: Option<int>,
    cacheHit: bool, timestamp: int)

  /** An entity added to the change tracker. */
  datatype Entity = QuoteEntity(quote: QuoteRow) | TrendingEntity(trending: TrendingRow) | RequestEntity(request: ApiRequestRow)

  datatype Tables = Tables(quotes: seq<QuoteRow>, trending: seq<TrendingRow>, requests: seq<ApiRequestRow>)

  /** `CacheValidUntil > now`: strict, and a row without a deadline is never fresh. */
  predicate Fresh(validUntil: Option<int>, now: int)
  {
    validUntil.Some? && validUntil.value > now
  }

  /** The order of a nullable column: null below every value. */
  predicate NullsLow(a: Option<int>, b: Option<int>)
  {
    a.None? || (b.Some? && a.value <= b.value)
  }

  // ---- Columns ----

  /** A `decimal(precision, scale)` column. */
  datatype DecimalColumn = DecimalColumn(precision: nat, scale: nat)

  const PriceColumn := DecimalColumn(20, 6)
  const RatioColumn := DecimalColumn(10, 4)

  /** The columns of `QuoteDecimalFields`, in the same order. */
  const QuoteDecimalColumns: seq<DecimalColumn> := [
    PriceColumn, PriceColumn, RatioColumn, PriceColumn, PriceColumn, PriceColumn,
    PriceColumn, RatioColumn, PriceColumn, PriceColumn, PriceColumn, PriceColumn,
    RatioColumn, RatioColumn, RatioColumn, RatioColumn, RatioColumn]

  /** The columns of `TrendingDecimalFields`. */
  const TrendingDecimalColumns: seq<DecimalColumn> := [PriceColumn, PriceColumn, RatioColumn]

  /** The `varchar` widths of `QuoteStringFields`; `None` is an unbounded text column. */
  const QuoteStringWidths: seq<Option<nat>> := [Some(3), Some(20), Some(100), None, Some(20), Some(100), Some(10), Some(20)]

  /** The `varchar` widths of `TrendingStringFields`. */
  const TrendingStringWidths: seq<Option<nat>> := [Some(100), None, Some(3), Some(20), Some(20), Some(20)]

  const SymbolWidth := 20
  const RegionWidth := 2
  const RequestIdWidth := 36
  const EndpointWidth := 100
  const MethodWidth := 10
  const LanguageWidth := 2

  /** `a / 10^d` for a magnitude `a`, rounded to the nearest integer and, on a
      tie, up. */
  function RoundHalfUp(a: nat, d: nat): int
  {
    var p := Json.Pow10(d);
    var q := a / p;
    if 2 * (a % p) >= p then q + 1 else q
  }

  /** `m / 10^d` rounded half away from zero, as MySQL rounds an exact value. */
  function RoundHalfAway(m: int, d: nat): int
  {
    if m < 0 then -RoundHalfUp(-m, d) else RoundHalfUp(m, d)
  }

  /** The value a column holds for `n`: `n` itself at the column's scale when it
      has no more digits after the point, and otherwise `n` rounded to the scale. */
  function ColumnValue(n: Json.Number, c: DecimalColumn): (r: Json.Number)
    ensures r.scale == c.scale
  {
    if n.scale <= c.scale then Json.Number(n.mantissa * Json.Pow10(c.scale - n.scale), c.scale)
    else Json.Number(RoundHalfAway(n.mantissa, n.scale - c.scale), c.scale)
  }

  function StoredDecimal(v: Option<Json.Number>, c: DecimalColumn): Option<Json.Number>
  {
    if v.Some? then Some(ColumnValue(v.value, c)) else None
  }

  /** The payload as its row holds it: each decimal with a column is stored at the
      column's scale; the integers and texts are kept. */
  function StoredPayload(p: Payload, columns: seq<DecimalColumn>): (r: Payload)
    ensures r.longs == p.longs && r.strings == p.strings && |r.decimals| == |p.decimals|
    ensures forall i :: 0 <= i < |p.decimals| ==>
      r.decimals[i] == if i < |columns| then StoredDecimal(p.decimals[i], columns[i]) else p.decimals[i]
  {
    Payload(seq(|p.decimals|, i requires 0 <= i < |p.decimals| =>
                  if i < |columns| then StoredDecimal(p.decimals[i], columns[i]) else p.decimals[i]),
            p.longs, p.strings)
  }

  /** Every decimal with a column already has the column's scale. */
  predicate AtColumnScale(p: Payload, columns: seq<DecimalColumn>)
  {
    forall i :: 0 <= i < |p.decimals| && i < |columns| && p.decimals[i].Some? ==>
      p.decimals[i].value.scale == columns[i].scale
  }

  /** A payload already at its columns' scales is stored as it is, and every
      stored payload is at its columns' scales; so storing twice is storing once. */
  lemma StoredPayloadAtScale(p: Payload, columns: seq<DecimalColumn>)
    ensures AtColumnScale(p, columns) ==> StoredPayload(p, columns) == p
    ensures AtColumnScale(StoredPayload(p, columns), columns)
    ensures StoredPayload(StoredPayload(p, columns), columns) == StoredPayload(p, columns)
  {
    var r := StoredPayload(p, columns);
    forall i | 0 <= i < |p.decimals| && i < |columns| && p.decimals[i].Some? && p.decimals[i].value.scale == columns[i].scale
      ensures ColumnValue(p.decimals[i].value, columns[i]) == p.decimals[i].value
    {
      assert Json.Pow10(0) == 1;
    }
    forall i | 0 <= i < |r.decimals| && i < |columns| && r.decimals[i].Some?
      ensures ColumnValue(r.decimals[i].value, columns[i]) == r.decimals[i].value
    {
      assert Json.Pow10(0) == 1;
    }
    if AtColumnScale(p, columns) {
      assert r.decimals == p.decimals;
    }
    assert StoredPayload(r, columns).decimals == r.decimals;
  }

  lemma RoundHalfUpIsNearest(a: nat, d: nat, p: int, q: int)
    requires p == Json.Pow10(d) && q == RoundHalfUp(a, d)
    ensures -p <= 2 * (a - q * p) < p
  {
    var k := a / p;
    var r := a % p;
    assert a == k * p + r && 0 <= r < p;
    if q == k + 1 {
      assert q * p == k * p + p;
    }
  }

  /** MySQL's rounding stays within half a unit of the column's scale, and a tie
      goes away from zero. */
  lemma RoundHalfAwayIsNearest(m: int, d: nat, p: int, q: int)
    requires p == Json.Pow10(d) && q == RoundHalfAway(m, d)
    ensures m >= 0 ==> -p <= 2 * (m - q * p) < p
    ensures m < 0 ==> -p < 2 * (m - q * p) <= p
  {
    if m < 0 {
      RoundHalfUpIsNearest(-m, d, p, -q);
      assert m - q * p == -(-m - (-q) * p);
    } else {
      RoundHalfUpIsNearest(m, d, p, q);
    }
  }

  lemma {:induction false} Pow10Add(a: nat, b: nat)
    ensures Json.Pow10(a + b) == Json.Pow10(a) * Json.Pow10(b)
    decreases a
  {
    if a > 0 {
      Pow10Add(a - 1, b);
      assert Json.Pow10(a + b) == 10 * Json.Pow10(a - 1 + b);
    }
  }

  /** A value with no more digits after the point than its column is stored
      exactly: `r / 10^c.scale == n / 10^n.scale`. */
  lemma ColumnValueExact(n: Json.Number, c: DecimalColumn)
    requires n.scale <= c.scale
    ensures ColumnValue(n, c).mantissa * Json.Pow10(n.scale) == n.mantissa * Json.Pow10(c.scale)
  {
    var k := c.scale - n.scale;
    Pow10Add(k, n.scale);
    assert n.mantissa * Json.Pow10(k) * Json.Pow10(n.scale) == n.mantissa * (Json.Pow10(k) * Json.Pow10(n.scale));
  }

  /** A tie is rounded away from zero, not to even: 0.123450 is stored in a
      `decimal(10,4)` column as 0.1235, and -0.123450 as -0.1235. */
  lemma RatioColumnRoundsTiesAway()
    ensures ColumnValue(Json.Number(123450, 6), RatioColumn) == Json.Number(1235, 4)
    ensures ColumnValue(Json.Number(-123450, 6), RatioColumn) == Json.Number(-1235, 4)
  {
    assert Json.Pow10(2) == 100;
  }

  /** Strict mode accepts a decimal only within the column's precision once rounded. */
  predicate DecimalFits(v: Option<Json.Number>, c: DecimalColumn)
  {
    v.None? || -Json.Pow10(c.precision) < ColumnValue(v.value, c).mantissa < Json.Pow10(c.precision)
  }

  /** Strict mode accepts a text only within the column's width in characters. */
  predicate TextFits(v: Option<string>, width: Option<nat>)
  {
    v.None? || width.None? || |v.value| <= width.value
  }

  predicate PayloadFits(p: Payload, columns: seq<DecimalColumn>, widths: seq<Option<nat>>)
  {
    (forall i :: 0 <= i < |p.decimals| && i < |columns| ==> DecimalFits(p.decimals[i], columns[i]))
    && (forall i :: 0 <= i < |p.strings| && i < |widths| ==> TextFits(p.strings[i], widths[i]))
  }

  predicate EntityFits(e: Entity)
  {
    match e
    case QuoteEntity(q) =>
      |q.symbol| <= SymbolWidth && |q.region| <= RegionWidth && PayloadFits(q.payload, QuoteDecimalColumns, QuoteStringWidths)
    case TrendingEntity(t) =>
      |t.symbol| <= SymbolWidth && |t.region| <= RegionWidth && PayloadFits(t.payload, TrendingDecimalColumns, TrendingStringWidths)
    case RequestEntity(r) =>
      |r.requestId| <= RequestIdWidth && |r.endpoint| <= EndpointWidth && |r.httpMethod| <= MethodWidth
      && |r.region| <= RegionWidth && |r.language| <= LanguageWidth
  }

  // ---- Collation ----

  /** The default collation compares keys without regard to letter case. */
  predicate SameKey(a: string, b: string)
  {
    ToUpper(a) == ToUpper(b)
  }

  /** A key, its upper-case form and its lower-case form are one key. */
  lemma SameKeyIgnoresCase(s: string)
    ensures SameKey(s, ToUpper(s)) && SameKey(s, ToLower(s))
  {
    ToUpperIdempotent(s);
    assert forall i :: 0 <= i < |s| ==> UpperChar(LowerChar(s[i])) == UpperChar(s[i]);
    assert ToUpper(ToLower(s)) == ToUpper(s);
  }

  /** The collation's view of a list of keys. */
  function Keys(ss: seq<string>): (r: seq<string>)
    ensures |r| == |ss| && forall i :: 0 <= i < |ss| ==> r[i] == ToUpper(ss[i])
  {
    seq(|ss|, i requires 0 <= i < |ss| => ToUpper(ss[i]))
  }

  lemma KeysAppend(a: seq<string>, b: seq<string>)
    ensures Keys(a + b) == Keys(a) + Keys(b)
  {
    assert forall i :: 0 <= i < |a + b| ==> Keys(a + b)[i] == (Keys(a) + Keys(b))[i];
  }

  // ---- Unique indexes ----

  /** `uk_symbol_region_timestamp`; null timestamps never collide. */
  predicate QuoteKeysClash(a: QuoteRow, b: QuoteRow)
  {
    SameKey(a.symbol, b.symbol) && SameKey(a.region, b.region) && a.quoteTimestamp.Some? && a.quoteTimestamp == b.quoteTimestamp
  }

  /** `uk_region_symbol_timestamp` on trending rows. */
  predicate TrendingKeysClash(a: TrendingRow, b: TrendingRow)
  {
    SameKey(a.region, b.region) && SameKey(a.symbol, b.symbol) && a.jobTimestamp.Some? && a.jobTimestamp == b.jobTimestamp
  }

  predicate UniqueQuotes(rows: seq<QuoteRow>)
  {
    forall i, j :: 0 <= i < j < |rows| ==> !QuoteKeysClash(rows[i], rows[j])
  }

  predicate UniqueTrending(rows: seq<TrendingRow>)
  {
    forall i, j :: 0 <= i < j < |rows| ==> !TrendingKeysClash(rows[i], rows[j])
  }

  /** `RequestId` is the primary key of the request table. */
  predicate UniqueRequests(rows: seq<ApiRequestRow>)
  {
    forall i, j :: 0 <= i < j < |rows| ==> !SameKey(rows[i].requestId, rows[j].requestId)
  }

  /** The three keys hold over a whole database. */
  predicate Unique(t: Tables)
  {
    UniqueQuotes(t.quotes) && UniqueTrending(t.trending) && UniqueRequests(t.requests)
  }

  function QuotesIn(es: seq<Entity>): seq<QuoteRow>
  {
    if |es| == 0 then [] else QuotesIn(es[..|es| - 1]) + (if es[|es| - 1].QuoteEntity? then [es[|es| - 1].quote] else [])
  }

  function TrendingIn(es: seq<Entity>): seq<TrendingRow>
  {
    if |es| == 0 then [] else TrendingIn(es[..|es| - 1]) + (if es[|es| - 1].TrendingEntity? then [es[|es| - 1].trending] else [])
  }

  function RequestsIn(es: seq<Entity>): seq<ApiRequestRow>
  {
    if |es| == 0 then [] else RequestsIn(es[..|es| - 1]) + (if es[|es| - 1].RequestEntity? then [es[|es| - 1].request] else [])
  }

  /** The tables after inserting every tracked entity, in tracking order. */
  function Applied(t: Tables, es: seq<Entity>): Tables
  {
    Tables(t.quotes + QuotesIn(es), t.trending + TrendingIn(es), t.requests + RequestsIn(es))
  }

  /** `SaveChanges` is accepted exactly when every inserted value fits its column
      and the rows break no key. */
  predicate Acceptable(t: Tables, es: seq<Entity>)
  {
    (forall i :: 0 <= i < |es| ==> EntityFits(es[i])) && Unique(Applied(t, es))
  }

  /** What one database context holds: the database's rows and the change tracker. */
  datatype Db = Db(committed: Tables, tracked: seq<Entity>)

  /** No unique index is broken, and entities stay tracked only after a refused save. */
  predicate Settled(db: Db, online: bool)
  {
    Unique(db.committed)
    && (db.tracked == [] || !online || !Acceptable(db.committed, db.tracked))
  }

  /** `Add` each entity, then `SaveChangesAsync`: every tracked entity is inserted, or
      (database down, or a unique index broken) none is and all stay tracked. Rows
      are only ever appended. */
  function Save(db: Db, es: seq<Entity>, online: bool): (r: Db)
    ensures Settled(db, online) ==> Settled(r, online)
    ensures r.committed == db.committed || r.committed == Applied(db.committed, db.tracked + es)
    ensures r.tracked == [] || r.tracked == db.tracked + es
    ensures r.committed.quotes[..|db.committed.quotes|] == db.committed.quotes
    ensures r.committed.trending[..|db.committed.trending|] == db.committed.trending
    ensures r.committed.requests[..|db.committed.requests|] == db.committed.requests
  {
    var all := db.tracked + es;
    if online && Acceptable(db.committed, all) then Db(Applied(db.committed, all), []) else Db(db.committed, all)
  }

  lemma {:induction false} EntitiesAppend(a: seq<Entity>, b: seq<Entity>)
    ensures QuotesIn(a + b) == QuotesIn(a) + QuotesIn(b)
    ensures TrendingIn(a + b) == TrendingIn(a) + TrendingIn(b)
    ensures RequestsIn(a + b) == RequestsIn(a) + RequestsIn(b)
    decreases |b|
  {
    if |b| == 0 {
      assert a + b == a;
    } else {
      assert (a + b)[..|a + b| - 1] == a + b[..|b| - 1];
      EntitiesAppend(a, b[..|b| - 1]);
    }
  }

  /** A save that was refused stays refused however many entities are added after
      it: the refused entities remain tracked, so every later save of the same
      context fails too. */
  lemma RefusalPersists(t: Tables, es: seq<Entity>, more: seq<Entity>)
    requires !Acceptable(t, es)
    ensures !Acceptable(t, es + more)
  {
    if i :| 0 <= i < |es| && !EntityFits(es[i]) {
      assert (es + more)[i] == es[i];
    } else {
      BrokenKeyPersists(t, es, more);
    }
  }

  lemma BrokenKeyPersists(t: Tables, es: seq<Entity>, more: seq<Entity>)
    requires !Unique(Applied(t, es))
    ensures !Unique(Applied(t, es + more))
  {
    EntitiesAppend(es, more);
    var before := Applied(t, es);
    assert Applied(t, es + more)
        == Tables(before.quotes + QuotesIn(more), before.trending + TrendingIn(more), before.requests + RequestsIn(more));
    if Unique(Applied(t, es + more)) {
      UniquePrefix(before, QuotesIn(more), TrendingIn(more), RequestsIn(more));
    }
  }

  /** A broken key stays broken when rows are appended. */
  lemma UniquePrefix(t: Tables, q: seq<QuoteRow>, r: seq<TrendingRow>, a: seq<ApiRequestRow>)
    requires Unique(Tables(t.quotes + q, t.trending + r, t.requests + a))
    ensures Unique(t)
  {
    var all := Tables(t.quotes + q, t.trending + r, t.requests + a);
    assert forall i :: 0 <= i < |t.quotes| ==> all.quotes[i] == t.quotes[i];
    assert forall i :: 0 <= i < |t.trending| ==> all.trending[i] == t.trending[i];
    assert forall i :: 0 <= i < |t.requests| ==> all.requests[i] == t.requests[i];
  }

  /** Once a save of a context has been refused, every later save of the same
      context is refused too and inserts nothing, whatever it adds. */
  lemma RefusedContextStaysRefused(db: Db, es: seq<Entity>, online: bool)
    requires Settled(db, online) && db.tracked != []
    ensures Save(db, es, online) == Db(db.committed, db.tracked + es)
  {
    if online {
      RefusalPersists(db.committed, db.tracked, es);
    }
  }

  /** A save into an empty tracker at a reachable database inserts exactly the added
      entities when they break no index. */
  lemma SaveIntoCleanContext(db: Db, es: seq<Entity>, online: bool)
    requires db.tracked == [] && online && Acceptable(db.committed, es)
    ensures Save(db, es, online) == Db(Applied(db.committed, es), [])
  {
    assert db.tracked + es == es;
  }

  /** Saving a telemetry row into a clean context leaves the trending table as it was. */
  lemma SaveRequestKeepsTrending(db: Db, row: Entity, online: bool)
    requires db.tracked == [] && row.RequestEntity?
    ensures Save(db, [row], online).committed.trending == db.committed.trending
  {
    assert db.tracked + [row] == [row];
    assert TrendingIn([row]) == [] by {
      assert [row][..0] == [];
    }
    assert Applied(db.committed, [row]).trending == db.committed.trending;
  }

  // ---- Row construction ----

  /** The row `SaveQuoteAsync` inserts: the quote time is the market time, or `now`
      when the quote carries none. */
  function QuoteRowFor(quote: QuoteData, region: string, now: int): (row: QuoteRow)
    ensures row.symbol == quote.symbol && row.region == region
    ensures row.payload == StoredPayload(quote.payload, QuoteDecimalColumns)
    ensures row.quoteTimestamp == Some(if quote.regularMarketTime.Some? then quote.regularMarketTime.value else now)
    ensures row.regularMarketTime == quote.regularMarketTime
    ensures row.cacheValidUntil == Some(now + QuoteTtl) && Fresh(row.cacheValidUntil, now)
  {
    QuoteRow(quote.symbol, region, Some(quote.regularMarketTime.GetOr(now)), quote.regularMarketTime,
             StoredPayload(quote.payload, QuoteDecimalColumns), Some(now + QuoteTtl))
  }

  /** The DTO a cached row is read back as: `RegularMarketTime` is the row's
      `QuoteTimestamp`, not its stored market time. */
  function ToQuoteData(row: QuoteRow): QuoteData
  {
    QuoteData(row.symbol, row.quoteTimestamp, row.payload)
  }

  /** A quote read back from the row it was saved as is the quote itself, except
      that a missing market time comes back as the save time and the decimals
      come back at their columns' scales. */
  lemma QuoteRowRoundTrip(quote: QuoteData, region: string, now: int)
    ensures ToQuoteData(QuoteRowFor(quote, region, now))
            == quote.(regularMarketTime := Some(quote.regularMarketTime.GetOr(now)),
                      payload := StoredPayload(quote.payload, QuoteDecimalColumns))
    ensures quote.regularMarketTime.Some? && AtColumnScale(quote.payload, QuoteDecimalColumns) ==>
            ToQuoteData(QuoteRowFor(quote, region, now)) == quote
  {
    if AtColumnScale(quote.payload, QuoteDecimalColumns) {
      StoredPayloadAtScale(quote.payload, QuoteDecimalColumns);
    }
  }

  /** The row `SaveTrendingStocksAsync` inserts for one stock. */
  function TrendingRowFor(stock: TrendingStock, region: string, jobTimestamp: int, rank: int, now: int): TrendingRow
  {
    TrendingRow(region, stock.symbol, StoredPayload(stock.payload, TrendingDecimalColumns), Some(jobTimestamp), None,
                Some(rank), Some(now + TrendingTtl))
  }

  /** The rows of a whole list: ranks follow enumeration order starting at 1. */
  function TrendingRowsFor(stocks: seq<TrendingStock>, region: string, jobTimestamp: int, now: int): seq<TrendingRow>
  {
    seq(|stocks|, i requires 0 <= i < |stocks| => TrendingRowFor(stocks[i], region, jobTimestamp, i + 1, now))
  }

  /** The rows of a list carry ranks 1..N in order, one shared job time, the region,
      and a 30-minute deadline. */
  lemma TrendingRowsRanked(stocks: seq<TrendingStock>, region: string, jobTimestamp: int, now: int)
    ensures var rows := TrendingRowsFor(stocks, region, jobTimestamp, now);
      |rows| == |stocks|
      && forall i :: 0 <= i < |rows| ==>
           rows[i].trendingRank == Some(i + 1) && rows[i].jobTimestamp == Some(jobTimestamp)
           && rows[i].symbol == stocks[i].symbol && rows[i].payload == StoredPayload(stocks[i].payload, TrendingDecimalColumns)
           && rows[i].region == region && rows[i].cacheValidUntil == Some(now + TrendingTtl)
  {
  }

  /** The row `SaveTrendingStockAsync` inserts: the job time is `now` and there is no rank. */
  function SingleTrendingRowFor(stock: TrendingStock, region: string, now: int): (row: TrendingRow)
    ensures row.jobTimestamp == Some(now) && row.trendingRank.None? && row.startInterval.None?
    ensures row.region == region && row.symbol == stock.symbol && row.cacheValidUntil == Some(now + TrendingTtl)
    ensures row.payload == StoredPayload(stock.payload, TrendingDecimalColumns)
  {
    TrendingRow(region, stock.symbol, StoredPayload(stock.payload, TrendingDecimalColumns), Some(now), None, None,
                Some(now + TrendingTtl))
  }

  function ToTrendingStock(row: TrendingRow): TrendingStock
  {
    TrendingStock(row.symbol, row.payload)
  }

  /** A stock as it is read back from its row. */
  function StoredStock(stock: TrendingStock): TrendingStock
  {
    TrendingStock(stock.symbol, StoredPayload(stock.payload, TrendingDecimalColumns))
  }

  function StoredStocks(stocks: seq<TrendingStock>): (r: seq<TrendingStock>)
    ensures |r| == |stocks| && forall i :: 0 <= i < |stocks| ==> r[i] == StoredStock(stocks[i])
  {
    seq(|stocks|, i requires 0 <= i < |stocks| => StoredStock(stocks[i]))
  }

  function ToTrendingStocks(rows: seq<TrendingRow>): (r: seq<TrendingStock>)
    ensures |r| == |rows| && forall i :: 0 <= i < |rows| ==> r[i] == ToTrendingStock(rows[i])
  {
    seq(|rows|, i requires 0 <= i < |rows| => ToTrendingStock(rows[i]))
  }

  // ---- Quote read ----

  predicate QuoteMatches(q: QuoteRow, symbol: string, region: string, now: int)
  {
    SameKey(q.symbol, symbol) && SameKey(q.region, region) && Fresh(q.cacheValidUntil, now)
  }

  /** The fresh matching row with the greatest `QuoteTimestamp` (nulls sort last
      under a descending order, so a null wins only when every candidate is null). */
  function LatestFreshQuote(rows: seq<QuoteRow>, symbol: string, region: string, now: int): (r: Option<QuoteRow>)
    ensures r.Some? ==> r.value in rows && QuoteMatches(r.value, symbol, region, now)
    ensures r.Some? ==> forall q :: q in rows && QuoteMatches(q, symbol, region, now) ==> NullsLow(q.quoteTimestamp, r.value.quoteTimestamp)
    ensures r.None? <==> forall q :: q in rows ==> !QuoteMatches(q, symbol, region, now)
    decreases |rows|
  {
    if |rows| == 0 then None
    else
      var rest := LatestFreshQuote(rows[1..], symbol, region, now);
      assert forall q :: q in rows ==> q == rows[0] || q in rows[1..];
      if QuoteMatches(rows[0], symbol, region, now) && (rest.None? || NullsLow(rest.value.quoteTimestamp, rows[0].quoteTimestamp))
      then Some(rows[0])
      else rest
  }

  /** A fresh matching row no other fresh matching row is newer than. */
  predicate IsLatestQuote(q: QuoteRow, rows: seq<QuoteRow>, symbol: string, region: string, now: int)
  {
    q in rows && QuoteMatches(q, symbol, region, now)
    && forall q' :: q' in rows && QuoteMatches(q', symbol, region, now) ==> NullsLow(q'.quoteTimestamp, q.quoteTimestamp)
  }

  predicate IsLatestTrending(t: TrendingRow, rows: seq<TrendingRow>, symbol: string, region: string, now: int)
  {
    t in rows && SameKey(t.symbol, symbol) && TrendingMatches(t, region, now)
    && forall t' :: t' in rows && SameKey(t'.symbol, symbol) && TrendingMatches(t', region, now) ==> NullsLow(t'.jobTimestamp, t.jobTimestamp)
  }

  /** Rows that are not fresh, or of another key, do not change a quote read. */
  lemma {:induction false} LatestFreshQuoteIgnores(rows: seq<QuoteRow>, extra: seq<QuoteRow>, symbol: string, region: string, now: int)
    requires forall q :: q in extra ==> !QuoteMatches(q, symbol, region, now)
    ensures LatestFreshQuote(rows + extra, symbol, region, now) == LatestFreshQuote(rows, symbol, region, now)
    decreases |rows|
  {
    if |rows| == 0 {
      assert rows + extra == extra;
    } else {
      assert (rows + extra)[1..] == rows[1..] + extra;
      LatestFreshQuoteIgnores(rows[1..], extra, symbol, region, now);
    }
  }

  /** Keys the collation does not tell apart read the same quote. */
  lemma {:induction false} LatestFreshQuoteSameKey(rows: seq<QuoteRow>, a: string, b: string, region: string, now: int)
    requires SameKey(a, b)
    ensures LatestFreshQuote(rows, a, region, now) == LatestFreshQuote(rows, b, region, now)
    decreases |rows|
  {
    if |rows| > 0 {
      LatestFreshQuoteSameKey(rows[1..], a, b, region, now);
    }
  }

  // ---- Trending read ----

  predicate TrendingMatches(t: TrendingRow, region: string, now: int)
  {
    SameKey(t.region, region) && Fresh(t.cacheValidUntil, now)
  }

  /** The fresh rows of a region, in table order. */
  function FreshForRegion(rows: seq<TrendingRow>, region: string, now: int): (r: seq<TrendingRow>)
    ensures forall t :: t in r ==> TrendingMatches(t, region, now)
    ensures multiset(r) <= multiset(rows)
    ensures forall t :: t in rows && TrendingMatches(t, region, now) ==> t in r
    decreases |rows|
  {
    if |rows| == 0 then []
    else
      var rest := FreshForRegion(rows[1..], region, now);
      assert rows == [rows[0]] + rows[1..];
      if TrendingMatches(rows[0], region, now) then [rows[0]] + rest else rest
  }

  lemma FreshForRegionEmptyIff(rows: seq<TrendingRow>, region: string, now: int)
    ensures |FreshForRegion(rows, region, now)| == 0 <==> forall t :: t in rows ==> !TrendingMatches(t, region, now)
  {
    var r := FreshForRegion(rows, region, now);
    if |r| > 0 {
      assert r[0] in r;
    }
  }

  /** `OrderBy(TrendingRank).ThenByDescending(JobTimestamp)` as a "may come before"
      relation: rank ascending with nulls first, then job time descending with nulls last. */
  predicate RankFirst(a: TrendingRow, b: TrendingRow)
  {
    (a.trendingRank != b.trendingRank && NullsLow(a.trendingRank, b.trendingRank))
    || (a.trendingRank == b.trendingRank && NullsLow(b.jobTimestamp, a.jobTimestamp))
  }

  predicate SortedByRank(s: seq<TrendingRow>)
  {
    forall i, j :: 0 <= i < j < |s| ==> RankFirst(s[i], s[j])
  }

  function InsertByRank(x: TrendingRow, s: seq<TrendingRow>): (r: seq<TrendingRow>)
    ensures multiset(r) == multiset(s) + multiset{x}
    ensures |r| == |s| + 1
    ensures forall t :: t in r <==> t == x || t in s
    decreases |s|
  {
    if |s| == 0 then [x]
    else if RankFirst(x, s[0]) then [x] + s
    else
      assert s == [s[0]] + s[1..];
      [s[0]] + InsertByRank(x, s[1..])
  }

  /** The head of an ordered list may come before every later row. */
  lemma SortedHead(s: seq<TrendingRow>)
    requires SortedByRank(s) && |s| > 0
    ensures forall t :: t in s[1..] ==> RankFirst(s[0], t)
  {
    forall t | t in s[1..]
      ensures RankFirst(s[0], t)
    {
      var k :| 0 <= k < |s[1..]| && s[1..][k] == t;
      assert s[k + 1] == t;
    }
  }

  /** An ordered list stays ordered under a head that may come before all of it. */
  lemma SortedCons(h: TrendingRow, rest: seq<TrendingRow>)
    requires SortedByRank(rest) && forall t :: t in rest ==> RankFirst(h, t)
    ensures SortedByRank([h] + rest)
  {
    var r := [h] + rest;
    forall i, j | 0 <= i < j < |r|
      ensures RankFirst(r[i], r[j])
    {
      assert r[j] == rest[j - 1];
      if i == 0 {
        assert r[j] in rest;
      } else {
        assert r[i] == rest[i - 1];
      }
    }
  }

  /** Inserting into an ordered list keeps it ordered. */
  lemma {:induction false} InsertKeepsSorted(x: TrendingRow, s: seq<TrendingRow>)
    requires SortedByRank(s)
    ensures SortedByRank(InsertByRank(x, s))
    decreases |s|
  {
    if |s| > 0 && !RankFirst(x, s[0]) {
      var rest := InsertByRank(x, s[1..]);
      assert SortedByRank(s[1..]);
      InsertKeepsSorted(x, s[1..]);
      SortedHead(s);
      assert RankFirst(s[0], x);
      SortedCons(s[0], rest);
    }
  }

  /** The database sort, modelled as an insertion sort; rows the order does not
      separate keep their table order. */
  function SortByRank(s: seq<TrendingRow>): (r: seq<TrendingRow>)
    ensures SortedByRank(r)
    ensures multiset(r) == multiset(s)
    ensures |r| == |s|
    ensures forall t :: t in r <==> t in s
    decreases |s|
  {
    if |s| == 0 then []
    else
      assert s == [s[0]] + s[1..];
      InsertKeepsSorted(s[0], SortByRank(s[1..]));
      InsertByRank(s[0], SortByRank(s[1..]))
  }

  /** Sorting an already ordered list changes nothing. */
  lemma {:induction false} SortSortedIdentity(s: seq<TrendingRow>)
    requires SortedByRank(s)
    ensures SortByRank(s) == s
    decreases |s|
  {
    if |s| > 0 {
      assert SortedByRank(s[1..]);
      SortSortedIdentity(s[1..]);
      if |s| > 1 {
        assert RankFirst(s[0], s[1]);
        assert s == [s[0]] + s[1..];
      }
    }
  }

  function Min(a: int, b: int): int
  {
    if a <= b then a else b
  }

  /** `Where(...).OrderBy(...).ThenByDescending(...).Take(50)` over the trending table. */
  function TopTrending(rows: seq<TrendingRow>, region: string, now: int): (r: seq<TrendingRow>)
    ensures |r| <= TrendingReadLimit
    ensures |r| == Min(TrendingReadLimit, |FreshForRegion(rows, region, now)|)
    ensures SortedByRank(r)
    ensures multiset(r) <= multiset(FreshForRegion(rows, region, now))
    ensures forall t :: t in r ==> TrendingMatches(t, region, now)
  {
    var sorted := SortByRank(FreshForRegion(rows, region, now));
    var n := Min(TrendingReadLimit, |sorted|);
    assert sorted == sorted[..n] + sorted[n..];
    assert multiset(sorted) == multiset(sorted[..n]) + multiset(sorted[n..]);
    assert forall t :: t in sorted[..n] ==> t in sorted;
    sorted[..n]
  }

  /** In an ordered list every row before a cut sorts before every row after it. */
  lemma SortedCut(sorted: seq<TrendingRow>, n: int)
    requires SortedByRank(sorted) && 0 <= n <= |sorted|
    ensures forall y, x :: y in sorted[..n] && x in sorted[n..] ==> RankFirst(y, x)
  {
    forall y, x | y in sorted[..n] && x in sorted[n..]
      ensures RankFirst(y, x)
    {
      var i :| 0 <= i < n && sorted[..n][i] == y;
      var j :| 0 <= j < |sorted| - n && sorted[n..][j] == x;
      assert sorted[i] == y && sorted[n + j] == x;
    }
  }

  /** The first `n` rows of an ordering of `all`: they are all of `all` when
      nothing is cut, and each of them may come before every row left out. */
  lemma TopOfSorted(all: seq<TrendingRow>, sorted: seq<TrendingRow>, n: int)
    requires SortedByRank(sorted) && multiset(sorted) == multiset(all) && 0 <= n <= |sorted|
    ensures n == |sorted| ==> multiset(sorted[..n]) == multiset(all)
    ensures forall y, x :: y in sorted[..n] && x in multiset(all) - multiset(sorted[..n]) ==> RankFirst(y, x)
  {
    var kept := sorted[..n];
    var dropped := sorted[n..];
    assert sorted == kept + dropped;
    assert multiset(all) == multiset(kept) + multiset(dropped);
    SortedCut(sorted, n);
    forall x | x in multiset(all) - multiset(kept)
      ensures x in dropped
    {
      assert x in multiset(dropped);
    }
  }

  /** The rows the limit drops all sort after every row it keeps, and there are
      none unless the limit is reached. */
  lemma TopTrendingAreTop(rows: seq<TrendingRow>, region: string, now: int)
    ensures var freshRows := FreshForRegion(rows, region, now);
      var kept := TopTrending(rows, region, now);
      (|freshRows| <= TrendingReadLimit ==> multiset(kept) == multiset(freshRows))
      && forall y, x :: y in kept && x in multiset(freshRows) - multiset(kept) ==> RankFirst(y, x)
  {
    var freshRows := FreshForRegion(rows, region, now);
    var sorted := SortByRank(freshRows);
    var n := Min(TrendingReadLimit, |sorted|);
    assert sorted[..n] == TopTrending(rows, region, now);
    TopOfSorted(freshRows, sorted, n);
  }

  // ---- Writes seen through reads ----

  lemma {:induction false} LatestFreshQuoteAfterNoMatch(rows: seq<QuoteRow>, row: QuoteRow, symbol: string, region: string, now: int)
    requires forall q :: q in rows ==> !QuoteMatches(q, symbol, region, now)
    requires QuoteMatches(row, symbol, region, now)
    ensures LatestFreshQuote(rows + [row], symbol, region, now) == Some(row)
    decreases |rows|
  {
    if |rows| == 0 {
      assert [row][1..] == [];
    } else {
      assert (rows + [row])[1..] == rows[1..] + [row];
      LatestFreshQuoteAfterNoMatch(rows[1..], row, symbol, region, now);
    }
  }

  /** A quote saved while nothing fresh is cached for its key is what the next read
      at the same time returns. */
  lemma SavedQuoteIsRead(t: Tables, quote: QuoteData, region: string, now: int)
    requires forall q :: q in t.quotes ==> !QuoteMatches(q, quote.symbol, region, now)
    ensures var row := QuoteRowFor(quote, region, now);
      LatestFreshQuote(Applied(t, [QuoteEntity(row)]).quotes, quote.symbol, region, now) == Some(row)
      && ToQuoteData(row) == quote.(regularMarketTime := Some(quote.regularMarketTime.GetOr(now)),
                                    payload := StoredPayload(quote.payload, QuoteDecimalColumns))
  {
    var row := QuoteRowFor(quote, region, now);
    assert [QuoteEntity(row)][..0] == [];
    assert QuotesIn([QuoteEntity(row)]) == [row];
    LatestFreshQuoteAfterNoMatch(t.quotes, row, quote.symbol, region, now);
  }

  /** A quote whose market time equals that of a row already stored for its key
      (a closed market repeats the same time) is refused, fresh or stale, whatever
      else is tracked: such a row is never refreshed. */
  lemma SameTimestampRefused(t: Tables, es: seq<Entity>, quote: QuoteData, region: string, now: int)
    requires exists q :: q in t.quotes && SameKey(q.symbol, quote.symbol) && SameKey(q.region, region)
                         && q.quoteTimestamp == Some(quote.regularMarketTime.GetOr(now))
    ensures !Acceptable(t, es + [QuoteEntity(QuoteRowFor(quote, region, now))])
  {
    var q :| q in t.quotes && SameKey(q.symbol, quote.symbol) && SameKey(q.region, region)
             && q.quoteTimestamp == Some(quote.regularMarketTime.GetOr(now));
    var row := QuoteRowFor(quote, region, now);
    var all := es + [QuoteEntity(row)];
    EntitiesAppend(es, [QuoteEntity(row)]);
    assert [QuoteEntity(row)][..0] == [];
    assert QuotesIn(all) == QuotesIn(es) + [row];
    var rows := Applied(t, all).quotes;
    var i :| 0 <= i < |t.quotes| && t.quotes[i] == q;
    assert rows[i] == q && rows[|rows| - 1] == row;
    assert QuoteKeysClash(rows[i], rows[|rows| - 1]);
  }

  /** A repeated request id (up to letter case) breaks the primary key, so the
      telemetry row is refused with everything tracked beside it. */
  lemma RepeatedRequestIdRefused(t: Tables, es: seq<Entity>, row: ApiRequestRow)
    requires exists r :: r in t.requests && SameKey(r.requestId, row.requestId)
    ensures !Acceptable(t, es + [RequestEntity(row)])
  {
    var r :| r in t.requests && SameKey(r.requestId, row.requestId);
    var all := es + [RequestEntity(row)];
    EntitiesAppend(es, [RequestEntity(row)]);
    assert [RequestEntity(row)][..0] == [];
    assert RequestsIn(all) == RequestsIn(es) + [row];
    var rows := Applied(t, all).requests;
    var i :| 0 <= i < |t.requests| && t.requests[i] == r;
    assert rows[i] == r && rows[|rows| - 1] == row;
  }

  /** A symbol longer than its column is refused in strict mode, with everything
      tracked beside it. */
  lemma LongSymbolRefused(t: Tables, es: seq<Entity>, quote: QuoteData, region: string, now: int)
    requires |quote.symbol| > SymbolWidth
    ensures !Acceptable(t, es + [QuoteEntity(QuoteRowFor(quote, region, now))])
  {
    var all := es + [QuoteEntity(QuoteRowFor(quote, region, now))];
    assert !EntityFits(all[|es|]);
  }

  /** A language longer than its two-character column, such as "en-US", is refused in
      strict mode, so that telemetry row is never written. */
  lemma LongLanguageRefused(t: Tables, es: seq<Entity>, row: ApiRequestRow)
    requires |row.language| > LanguageWidth
    ensures !Acceptable(t, es + [RequestEntity(row)])
  {
    var all := es + [RequestEntity(row)];
    assert !EntityFits(all[|es|]);
  }

  /** A `decimal(10,4)` column holds magnitudes below one million: 999999.9999
      fits and 1000000 is refused. */
  lemma RatioColumnLimit()
    ensures DecimalFits(Some(Json.Number(9999999999, 4)), RatioColumn)
    ensures !DecimalFits(Some(Json.Number(1000000, 0)), RatioColumn)
  {
    assert Json.Pow10(4) == 10000;
    assert Json.Pow10(10) == 10000000000;
  }

  /** A trending list naming one symbol twice is refused as a whole. */
  lemma DuplicateTrendingRefused(t: Tables, stocks: seq<TrendingStock>, region: string, jobTimestamp: int, now: int, i: int, j: int)
    requires 0 <= i < j < |stocks| && SameKey(stocks[i].symbol, stocks[j].symbol)
    ensures !Acceptable(t, TrendingEntities(TrendingRowsFor(stocks, region, jobTimestamp, now)))
  {
    var rows := TrendingRowsFor(stocks, region, jobTimestamp, now);
    TrendingInOfEntities(rows);
    var all := Applied(t, TrendingEntities(rows)).trending;
    assert all == t.trending + rows;
    assert all[|t.trending| + i] == rows[i] && all[|t.trending| + j] == rows[j];
    assert TrendingKeysClash(all[|t.trending| + i], all[|t.trending| + j]);
  }

  lemma {:induction false} TrendingInOfEntities(rows: seq<TrendingRow>)
    ensures TrendingIn(TrendingEntities(rows)) == rows
    ensures QuotesIn(TrendingEntities(rows)) == []
    decreases |rows|
  {
    if |rows| > 0 {
      var init := rows[..|rows| - 1];
      assert TrendingEntities(rows)[..|rows| - 1] == TrendingEntities(init);
      TrendingInOfEntities(init);
      assert rows == init + [rows[|rows| - 1]];
    }
  }

  lemma {:induction false} FreshForRegionAppend(a: seq<TrendingRow>, b: seq<TrendingRow>, region: string, now: int)
    ensures FreshForRegion(a + b, region, now) == FreshForRegion(a, region, now) + FreshForRegion(b, region, now)
    decreases |a|
  {
    if |a| == 0 {
      assert a + b == b;
    } else {
      assert (a + b)[1..] == a[1..] + b;
      FreshForRegionAppend(a[1..], b, region, now);
    }
  }

  lemma {:induction false} FreshForRegionNone(rows: seq<TrendingRow>, region: string, now: int)
    requires forall t :: t in rows ==> !TrendingMatches(t, region, now)
    ensures FreshForRegion(rows, region, now) == []
  {
    FreshForRegionEmptyIff(rows, region, now);
  }

  lemma {:induction false} FreshForRegionAll(rows: seq<TrendingRow>, region: string, now: int)
    requires forall i :: 0 <= i < |rows| ==> TrendingMatches(rows[i], region, now)
    ensures FreshForRegion(rows, region, now) == rows
    decreases |rows|
  {
    if |rows| > 0 {
      assert forall i :: 0 <= i < |rows[1..]| ==> rows[1..][i] == rows[i + 1];
      FreshForRegionAll(rows[1..], region, now);
      assert rows == [rows[0]] + rows[1..];
    }
  }

  /** The rows of a list are ordered by rank and all fresh at the save time. */
  lemma TrendingRowsOrdered(stocks: seq<TrendingStock>, region: string, jobTimestamp: int, now: int)
    ensures var rows := TrendingRowsFor(stocks, region, jobTimestamp, now);
      SortedByRank(rows) && forall i :: 0 <= i < |rows| ==> TrendingMatches(rows[i], region, now)
  {
    var rows := TrendingRowsFor(stocks, region, jobTimestamp, now);
    forall i, j | 0 <= i < j < |rows|
      ensures RankFirst(rows[i], rows[j])
    {
      assert rows[i].trendingRank == Some(i + 1) && rows[j].trendingRank == Some(j + 1);
    }
  }

  lemma RowsReadAsStocks(stocks: seq<TrendingStock>, region: string, jobTimestamp: int, now: int, n: int)
    requires 0 <= n <= |stocks|
    ensures ToTrendingStocks(TrendingRowsFor(stocks, region, jobTimestamp, now)[..n]) == StoredStocks(stocks)[..n]
  {
  }

  lemma TopTrendingUnfold(all: seq<TrendingRow>, rows: seq<TrendingRow>, region: string, now: int)
    requires FreshForRegion(all, region, now) == rows && SortedByRank(rows)
    ensures TopTrending(all, region, now) == rows[..Min(TrendingReadLimit, |rows|)]
  {
    SortSortedIdentity(rows);
  }

  /** A trending list saved while nothing fresh is cached for the region reads back
      as the same list, cut to its first 50 stocks, with the decimals at their
      columns' scales. */
  lemma SavedTrendingIsRead(t: Tables, stocks: seq<TrendingStock>, region: string, jobTimestamp: int, now: int)
    requires forall r :: r in t.trending ==> !TrendingMatches(r, region, now)
    ensures var rows := TrendingRowsFor(stocks, region, jobTimestamp, now);
      ToTrendingStocks(TopTrending(Applied(t, TrendingEntities(rows)).trending, region, now))
      == StoredStocks(stocks)[..Min(TrendingReadLimit, |stocks|)]
  {
    var rows := TrendingRowsFor(stocks, region, jobTimestamp, now);
    TrendingInOfEntities(rows);
    var all := Applied(t, TrendingEntities(rows)).trending;
    assert all == t.trending + rows;
    FreshForRegionAppend(t.trending, rows, region, now);
    FreshForRegionNone(t.trending, region, now);
    TrendingRowsOrdered(stocks, region, jobTimestamp, now);
    FreshForRegionAll(rows, region, now);
    TopTrendingUnfold(all, rows, region, now);
    RowsReadAsStocks(stocks, region, jobTimestamp, now, Min(TrendingReadLimit, |stocks|));
  }

  // ---- The service ----

  /** One `CacheService` over one scoped database context. */
  class CacheService {
    /** The rows the database holds. */
    var committed: Tables
    /** Entities added to the change tracker and not yet saved. */
    var tracked: seq<Entity>
    /** Whether the database answers at all; when it does not, every query and
        every save throws, and the service catches it. */
    const online: bool

    ghost predicate Valid()
      reads this
    {
      Settled(State(), online)
    }

    /** The context's state as a value. */
    function State(): Db
      reads this
    {
      Db(committed, tracked)
    }

    constructor(initial: Tables, online: bool)
      requires Unique(initial)
      ensures State() == Db(initial, []) && this.online == online
      ensures Valid()
    {
      committed := initial;
      tracked := [];
      this.online := online;
    }

    /** Track the entities and call `SaveChangesAsync`; a refused save is swallowed. */
    method AddAndSave(es: seq<Entity>)
      requires Valid()
      modifies this
      ensures Valid()
      ensures State() == Save(old(State()), es, online)
    {
      tracked := tracked + es;
      if online && Acceptable(committed, tracked) {
        committed := Applied(committed, tracked);
        tracked := [];
      }
    }

    /** `GetCachedQuoteAsync`: the freshest matching row as a DTO; null when there
        is none or the database fails. */
    function GetCachedQuote(symbol: string, region: string, now: int): (r: Option<QuoteData>)
      reads this
      ensures r.Some? ==> online && exists q :: IsLatestQuote(q, committed.quotes, symbol, region, now) && r == Some(ToQuoteData(q))
      ensures r.Some? ==> SameKey(r.value.symbol, symbol)
      ensures r.None? <==> !online || forall q :: q in committed.quotes ==> !QuoteMatches(q, symbol, region, now)
    {
      if !online then None
      else match LatestFreshQuote(committed.quotes, symbol, region, now)
        case Some(q) => Some(ToQuoteData(q))
        case None => None
    }

    /** A symbol differing only in letter case reads the same cached quote. */
    lemma GetCachedQuoteSameKey(a: string, b: string, region: string, now: int)
      requires SameKey(a, b)
      ensures GetCachedQuote(a, region, now) == GetCachedQuote(b, region, now)
    {
      LatestFreshQuoteSameKey(committed.quotes, a, b, region, now);
    }

    /** `GetCachedTrendingStockAsync`: the matching fresh row with the latest job time. */
    function GetCachedTrendingStock(symbol: string, region: string, now: int): (r: Option<TrendingStock>)
      reads this
      ensures r.Some? ==> online && exists t :: IsLatestTrending(t, committed.trending, symbol, region, now) && r == Some(ToTrendingStock(t))
      ensures r.None? <==> !online || forall t :: t in committed.trending ==> !(SameKey(t.symbol, symbol) && TrendingMatches(t, region, now))
    {
      if !online then None
      else match LatestFreshTrending(committed.trending, symbol, region, now)
        case Some(t) => Some(ToTrendingStock(t))
        case None => None
    }

    /** `GetCachedTrendingStocksForRegionAsync`: the top fresh rows of the region,
        or null (never an empty list) when there are none or the database fails. */
    function GetCachedTrendingStocksForRegion(region: string, now: int): (r: Option<seq<TrendingStock>>)
      reads this
      ensures r.Some? ==> online && 0 < |r.value| <= TrendingReadLimit
                          && r.value == ToTrendingStocks(TopTrending(committed.trending, region, now))
      ensures r.None? <==> !online || forall t :: t in committed.trending ==> !TrendingMatches(t, region, now)
    {
      if !online then None
      else
        var top := TopTrending(committed.trending, region, now);
        FreshForRegionEmptyIff(committed.trending, region, now);
        if |top| == 0 then None else Some(ToTrendingStocks(top))
    }

    /** `IsCacheValidAsync`: a fresh row exists for the key, for the data types
        "quote" and "trending" in any letter case; any other type is false. */
    function IsCacheValid(symbol: string, region: string, dataType: string, now: int): (r: bool)
      reads this
      ensures ToLower(dataType) != "quote" && ToLower(dataType) != "trending" ==> !r
      ensures ToLower(dataType) == "quote" ==>
        (r <==> online && exists q :: q in committed.quotes && QuoteMatches(q, symbol, region, now))
      ensures ToLower(dataType) == "trending" ==>
        (r <==> online && exists t :: t in committed.trending && SameKey(t.symbol, symbol) && TrendingMatches(t, region, now))
    {
      if !online then false
      else if ToLower(dataType) == "quote" then exists q :: q in committed.quotes && QuoteMatches(q, symbol, region, now)
      else if ToLower(dataType) == "trending" then
        exists t :: t in committed.trending && SameKey(t.symbol, symbol) && TrendingMatches(t, region, now)
      else false
    }

    /** `SaveQuoteAsync`: one row, saved with everything else tracked. */
    method SaveQuote(quote: QuoteData, region: string, now: int)
      requires Valid()
      modifies this
      ensures Valid()
      ensures State() == Save(old(State()), [QuoteEntity(QuoteRowFor(quote, region, now))], online)
    {
      AddAndSave([QuoteEntity(QuoteRowFor(quote, region, now))]);
    }

    /** `SaveTrendingStockAsync`: one row with job time `now` and no rank. */
    method SaveTrendingStock(stock: TrendingStock, region: string, now: int)
      requires Valid()
      modifies this
      ensures Valid()
      ensures State() == Save(old(State()), [TrendingEntity(SingleTrendingRowFor(stock, region, now))], online)
    {
      AddAndSave([TrendingEntity(SingleTrendingRowFor(stock, region, now))]);
    }

    /** `SaveTrendingStocksAsync`: the loop tracks one row per stock with ranks
        1, 2, ... and one shared job time (the argument, else `now`), then saves
        them all at once. */
    method SaveTrendingStocks(stocks: seq<TrendingStock>, region: string, jobTimestamp: Option<int>, now: int)
      requires Valid()
      modifies this
      ensures Valid()
      ensures State() == Save(old(State()), TrendingEntities(TrendingRowsFor(stocks, region, jobTimestamp.GetOr(now), now)), online)
    {
      var timestamp := jobTimestamp.GetOr(now);
      var rank := 1;
      var added: seq<Entity> := [];
      var i := 0;
      ghost var rows := TrendingRowsFor(stocks, region, timestamp, now);
      while i < |stocks|
        invariant 0 <= i <= |stocks| && rank == i + 1
        invariant added == TrendingEntities(rows[..i])
        invariant Valid() && State() == old(State())
      {
        assert rows[..i + 1] == rows[..i] + [rows[i]];
        TrendingEntitiesAppend(rows[..i], [rows[i]]);
        added := added + [TrendingEntity(TrendingRowFor(stocks[i], region, timestamp, rank, now))];
        rank := rank + 1;
        i := i + 1;
      }
      assert rows[..i] == rows;
      AddAndSave(added);
    }

    /** `SaveApiRequestAsync`: one telemetry row, saved with everything else tracked. */
    method SaveApiRequest(requestId: string, endpoint: string, httpMethod: string, symbols: Option<string>,
                          region: string, language: string, statusCode: Option<int>, responseTimeMs: Option<int>,
                          cacheHit: bool, now: int)
      requires Valid()
      modifies this
      ensures Valid()
      ensures State() == Save(old(State()), [RequestEntity(ApiRequestRow(requestId, endpoint, httpMethod, symbols, region, language,
                                                                          statusCode, responseTimeMs, cacheHit, now))], online)
    {
      AddAndSave([RequestEntity(ApiRequestRow(requestId, endpoint, httpMethod, symbols, region, language,
                                              statusCode, responseTimeMs, cacheHit, now))]);
    }
  }

  function TrendingEntities(rows: seq<TrendingRow>): (r: seq<Entity>)
    ensures |r| == |rows| && forall i :: 0 <= i < |rows| ==> r[i] == TrendingEntity(rows[i])
  {
    seq(|rows|, i requires 0 <= i < |rows| => TrendingEntity(rows[i]))
  }

  lemma TrendingEntitiesAppend(a: seq<TrendingRow>, b: seq<TrendingRow>)
    ensures TrendingEntities(a + b) == TrendingEntities(a) + TrendingEntities(b)
  {
  }

  /** The fresh matching trending row with the latest job time (nulls last). */
  function LatestFreshTrending(rows: seq<TrendingRow>, symbol: string, region: string, now: int): (r: Option<TrendingRow>)
    ensures r.Some? ==> r.value in rows && SameKey(r.value.symbol, symbol) && TrendingMatches(r.value, region, now)
    ensures r.Some? ==> forall t :: t in rows && SameKey(t.symbol, symbol) && TrendingMatches(t, region, now) ==> NullsLow(t.jobTimestamp, r.value.jobTimestamp)
    ensures r.None? <==> forall t :: t in rows ==> !(SameKey(t.symbol, symbol) && TrendingMatches(t, region, now))
    decreases |rows|
  {
    if |rows| == 0 then None
    else
      var rest := LatestFreshTrending(rows[1..], symbol, region, now);
      assert forall t :: t in rows ==> t == rows[0] || t in rows[1..];
      if SameKey(rows[0].symbol, symbol) && TrendingMatches(rows[0], region, now)
         && (rest.None? || NullsLow(rest.value.jobTimestamp, rows[0].jobTimestamp))
      then Some(rows[0])
      else rest
  }
}
