/** The response records the services exchange: `QuoteResponse`/`QuoteData` and
    `TrendingResponse`/`TrendingStock`. Only the symbol and the timestamps take part
    in any decision; every other field travels as an opaque payload, read from the
    JSON member named at the same position in a field table. */
module Responses {
  import opened Wrappers
  import opened Json

  /** The optional `decimal?`, `long?` and `string?` fields of a record, in
      declaration order. */
  datatype Payload = Payload(decimals: seq<Option<Number>>, longs: seq<Option<int>>, strings: seq<Option<string>>)

  /** The `decimal?` members of `QuoteData` (and of the `StockQuote` row). */
  const QuoteDecimalFields: seq<string> := [
    "regularMarketPrice", "regularMarketChange", "regularMarketChangePercent",
    "regularMarketDayHigh", "regularMarketDayLow", "regularMarketPreviousClose",
    "bookValue", "priceToBook", "fiftyTwoWeekLow", "fiftyTwoWeekHigh",
    "fiftyDayAverage", "twoHundredDayAverage", "trailingPE", "forwardPE",
    "dividendYield", "trailingAnnualDividendYield", "beta"]

  /** The `long?` members of `QuoteData` other than `regularMarketTime`. */
  const QuoteLongFields: seq<string> := ["regularMarketVolume", "marketCap", "sharesOutstanding"]

  const QuoteStringFields: seq<string> := [
    "currency", "marketState", "shortName", "longName", "exchange",
    "exchangeTimezoneName", "exchangeTimezoneShortName", "quoteType"]

  const TrendingDecimalFields: seq<string> := ["regularMarketPrice", "regularMarketChange", "regularMarketChangePercent"]

  const TrendingStringFields: seq<string> := ["shortName", "longName", "currency", "marketState", "exchange", "quoteType"]

  /** A payload shaped by the given field tables. */
  predicate Fits(p: Payload, decimals: seq<string>, longs: seq<string>, strings: seq<string>)
  {
    |p.decimals| == |decimals| && |p.longs| == |longs| && |p.strings| == |strings|
  }

  datatype QuoteData = QuoteData(symbol: string, regularMarketTime: Option<int>, payload: Payload)

  datatype QuoteResponse = QuoteResponse(
    symbols: seq<string>, region: string, language: string,
    quotes: seq<QuoteData>, errorMessage: Option<string>)

  datatype TrendingStock = TrendingStock(symbol: string, payload: Payload)

  datatype TrendingResponse = TrendingResponse(
    region: string, stocks: seq<TrendingStock>, count: int,
    jobTimestamp: Option<int>, startInterval: Option<int>)

  /** The symbols of a list of quotes, in order. */
  function QuoteSymbols(qs: seq<QuoteData>): (r: seq<string>)
    ensures |r| == |qs| && forall i :: 0 <= i < |qs| ==> r[i] == qs[i].symbol
  {
    if |qs| == 0 then [] else [qs[0].symbol] + QuoteSymbols(qs[1..])
  }
}
