# A verified model of the YH Finance read-through quote cache

This project models the core of a small ASP.NET Core service in Dafny. The
service relays stock quotes and trending lists from the YH Finance HTTP API,
caches them in a relational store, logs every request, and ships a React front
end with a few string formatters. The model follows the source file by file:

- `result.dfy` (module `Results`): the `Result<T>` record, the `Error` code and
  message, and the fixed `DomainErrors` table.
- `requests.dfy` (module `Requests`): the request records with their defaults,
  and the comma-separated symbol parsing shared by `QuoteRequest` and
  `CryptoRequest`.
- `json.dfy` (module `Json`): the part of `JsonElement` the mapper uses. This
  is property lookup (the last duplicate wins), the throwing `GetString`,
  `GetInt32` and `GetInt64` accessors with their 32- and 64-bit ranges and
  their exception messages, and `TryGetDecimal`, which rounds half to even to at
  most 28 fraction digits within a 96-bit magnitude.
- `responses.dfy` (module `Responses`): `QuoteData`, `TrendingStock` and the
  response records.
- `mapper.dfy` (module `Mapper`): `YahooFinanceMapper`. Its loops are methods
  proved against the functions they compute, so a thrown exception becomes a
  `ParseError`.
- `upstream.dfy` (module `Upstream`): `YahooFinanceService`. It validates the
  request, finds the API key, sends exactly one HTTP request and maps the body.
  HTTP is a function from request to outcome, and the sent requests are kept in
  a ghost log.
- `store.dfy` (module `Store`): `CacheService` over one database context. A
  save tracks the entities and commits every tracked entity at once. The
  commit is refused when a value does not fit its column (a `varchar` width, a
  `decimal` precision) or a key would be broken (the unique indexes
  `uk_symbol_region_timestamp` and `uk_region_symbol_timestamp`, and the
  `RequestId` primary key). Keys compare without regard to letter case, as the
  default collation does. The refused entities stay tracked, so every later
  save of that context is refused too. Decimals are stored rounded half away
  from zero to their column's scale, so a cached quote can differ from the
  fetched one in its last digits.
- `cached.dfy` (module `Cached`): `CachedYahooFinanceService`, the read-through
  decorator. A quote request is split into cache hits and misses, only the
  misses go upstream, fetched quotes are written back one by one, and one
  telemetry row is saved per request.
- `controller.dfy` (module `Controller`): the controller's error-to-status
  table, bulk quotes, the crypto and currency-exchange symbol building, and the
  mock market summary.
- `formatters.dfy` (module `Formatters`): `formatMarketState`,
  `formatSymbol`, the three length validators and the `'N/A'` guards.
- `text.dfy` (module `Text`) and `wrappers.dfy` (module `Wrappers`) hold the
  string helpers and `Option`.

Some behaviours the proofs bring out:

- When every requested symbol is cached, no symbol-format or region check is
  applied (`AllCachedServed`).
- A fetched quote that repeats the market time of a stored row breaks the
  unique index. The failed save stays tracked in the context, so the
  request's telemetry row is refused with it (`RepeatedMarketTimeLosesTelemetry`).
- A symbol text made of commas alone passes validation yet names no symbol
  (`CommasValidateToNoSymbols`).
- `"A, ,B"` fails validation, yet the decorator sends it upstream as `"A,,B"`,
  which passes (`WhitespacePieceForwarded`).

## Model

| member | source | states |
|---|---|---|
| Results.TextBefore | Services/Result.cs:131 | the text before the first separator is a prefix of the input without that separator |
| Results.ErrorToStringCode | Services/Result.cs:131 | a rendered error gives its code back when the code has no colon |
| Results.Result.Map | Services/Result.cs:32-39 | success is kept exactly when the input succeeded, with the transformed value; a failure keeps its error |
| Results.Result.Bind | Services/Result.cs:52-59 | a success continues with the transform; a failure is passed on unchanged |
| Results.Result.UnwrapOr | Services/Result.cs:82-85 | the value on success, the default on failure |
| Results.Result.UnwrapOrElse | Services/Result.cs:90-93 | the value on success, the factory applied to the error on failure |
| Results.Result.OnSuccess | Services/Result.cs:98-105 | the receiver is returned unchanged; the action runs once exactly on success |
| Results.Result.OnFailure | Services/Result.cs:110-117 | the receiver is returned unchanged; the action runs once exactly on failure |
| Results.SuccessIffNoError | Services/Result.cs:7-27 | exactly one of value and error is present, and IsFailure negates IsSuccess |
| Results.Constructors | Services/Result.cs:26-27 | Success carries its value and no error; Failure carries its error and no value |
| Results.MapLaws | Services/Result.cs:32-59 | Map is Bind followed by Success; mapping the identity changes nothing, and two maps compose |
| Results.BindLaws | Services/Result.cs:52-59 | Bind satisfies the monad laws: left and right identity and associativity |
| Results.DomainCodesDistinct | Services/Result.cs:163-205 | the ten domain error codes are pairwise distinct and contain no colon |
| Results.FactoryCodes | Services/Result.cs:163-205 | each DomainErrors factory yields its own code, whatever its arguments |
| Results.RequestFailedCarriesStatus | Services/Result.cs:179-180 | a RequestFailed message gives back the HTTP status it was built from |
| Results.RequestFailedInjective | Services/Result.cs:179-180 | two different statuses give two different errors |
| Text.TrimStart | DTOs/QuoteRequest.cs:47 | the result is a suffix of the input that does not start with white space, and only white space was removed |
| Text.TrimEnd | DTOs/QuoteRequest.cs:47 | the result is a prefix of the input that does not end with white space, and only white space was removed |
| Text.TrimStartDrops | DTOs/QuoteRequest.cs:47 | everything TrimStart cuts off the front is white space |
| Text.TrimEndDrops | DTOs/QuoteRequest.cs:47 | everything TrimEnd cuts off the back is white space |
| Text.TrimIsTrimmed | DTOs/QuoteRequest.cs:47 | a trimmed text neither starts nor ends with white space and is no longer than the input |
| Text.TrimSpec | DTOs/QuoteRequest.cs:47 | the trimmed text is a contiguous slice of the input with white space on both sides cut off, and it is trimmed |
| Text.TrimIdempotent | DTOs/QuoteRequest.cs:47 | trimming twice is trimming once |
| Text.TrimEmptyIff | DTOs/QuoteRequest.cs:34-38 | a string trims to nothing exactly when it is all white space |
| Text.ToUpper | DTOs/QuoteRequest.cs:47 | upper-casing keeps the length and maps each character on its own |
| Text.ToUpperIdempotent | DTOs/QuoteRequest.cs:47 | upper-casing twice is upper-casing once |
| Text.TrimToUpperCommute | frontend/src/utils/formatters.ts:78 | trimming and upper-casing commute, because the white-space classes have no cased letters |
| Text.TrimAgree | frontend/src/utils/formatters.ts:78 | two white-space classes that agree on a string trim it alike |
| Text.TrimPadded | frontend/src/utils/formatters.ts:82-92 | white space added at either end is trimmed away again |
| Text.SplitAll | DTOs/QuoteRequest.cs:37 | at least one piece, and no piece contains the separator |
| Text.SplitAllJoin | Services/CachedYahooFinanceService.cs:82 | splitting a join of separator-free pieces gives every piece back, empty ones included |
| Text.Split | DTOs/QuoteRequest.cs:37 | split with RemoveEmptyEntries: no piece is empty or contains the separator |
| Text.SplitJoin | Services/CachedYahooFinanceService.cs:82 | splitting a join of non-empty, separator-free pieces gives the pieces back |
| Text.SplitJoinRemovesEmpty | Services/CachedYahooFinanceService.cs:82 | splitting a join of separator-free pieces gives them back with the empty ones dropped |
| Text.ParseIntToString | Services/Result.cs:179-180 | a rendered integer parses back to itself |
| Text.IntToStringInjective | Services/Result.cs:179-180 | two different integers render differently |
| Requests.NormalizeAll | DTOs/QuoteRequest.cs:47 | each piece is trimmed and upper-cased in place, in order |
| Requests.NewQuoteRequest | DTOs/QuoteRequest.cs:21-27 | an omitted region is "US" and an omitted language "en" |
| Requests.NewCryptoRequest | DTOs/AdditionalFinanceRequests.cs:60 | an omitted currency is "USD" |
| Requests.NewBulkQuoteRequest | DTOs/AdditionalFinanceRequests.cs:100-106 | an omitted region is "US" and an omitted language "en" |
| Requests.NewMarketSummaryRequest | DTOs/AdditionalFinanceRequests.cs:21 | an omitted language is "en" |
| Requests.BlankSymbolsInvalid | DTOs/QuoteRequest.cs:34-35 | blank symbol text never validates |
| Requests.InvalidPieces | DTOs/QuoteRequest.cs:37-38 | more than ten pieces, or any white-space-only piece, fails validation |
| Requests.SymbolsArrayShape | DTOs/QuoteRequest.cs:44-49 | one symbol per non-empty piece, at its position: that piece trimmed and upper-cased, comma-free |
| Requests.ValidFormatBounds | DTOs/QuoteRequest.cs:32-49 | under a valid format the array has at most ten symbols and none is empty |
| Requests.CommasValidateToNoSymbols | DTOs/QuoteRequest.cs:32-49 | "," validates yet parses to no symbol |
| Requests.ReparseJoined | Services/CachedYahooFinanceService.cs:80-85 | re-parsing the comma-join of a parsed array gives the same array when no piece was blank |
| Requests.ReparseNormalized | Services/CachedYahooFinanceService.cs:80-85 | re-parsing a comma-join of normalized symbols drops the empty ones and keeps the rest |
| Requests.CryptoParsesLikeQuote | DTOs/AdditionalFinanceRequests.cs:65-81 | the crypto request validates and parses its symbols exactly as the quote request does |
| Requests.PiecesWithBlank | DTOs/QuoteRequest.cs:37 | the pieces of "A, ,B" keep the blank piece |
| Requests.PiecesWithEmpty | DTOs/QuoteRequest.cs:37 | the pieces of "A,,B" drop the empty piece |
| Requests.BlankPieceRejected | DTOs/QuoteRequest.cs:38 | "A, ,B" fails the format check |
| Requests.BlankPieceNormalized | DTOs/QuoteRequest.cs:44-49 | "A, ,B" parses to an empty middle symbol, which joins to "A,,B" |
| Requests.ForwardedBlankAccepted | DTOs/QuoteRequest.cs:32-39 | "A,,B" passes the format check |
| Requests.BlankPieceSkipped | DTOs/QuoteRequest.cs:32-39 | two letters around an empty piece split into the two letters, and the text passes the format check |
| Json.PropertyIsLast | Services/Mappers/YahooFinanceMapper.cs:236 | a property is found exactly when some member has the name, and it is the last such member |
| Json.TryGetProperty | Services/Mappers/YahooFinanceMapper.cs:24 | objects answer with the property lookup; every other kind throws the wrong-kind message naming "Object" and the kind found |
| Json.GetString | Services/Mappers/YahooFinanceMapper.cs:49 | the text of a string, null for JSON null, and for any other kind a throw naming "String" and the kind found |
| Json.GetInt32 | Services/Mappers/YahooFinanceMapper.cs:98 | returns exactly for integer literals within 32 bits, with their value; a non-number throws the wrong-kind message, any other number the `FormatException` default message |
| Json.GetInt64 | Services/Mappers/YahooFinanceMapper.cs:103 | returns exactly for integer literals within 64 bits, with their value; a non-number throws the wrong-kind message, any other number the `FormatException` default message |
| Json.KindName | Services/Mappers/YahooFinanceMapper.cs:24 | the `JsonValueKind` name: one of the seven, and "Object", "Number", "String" exactly for those kinds |
| Json.RoundMagnitudeIsNearest | Services/Mappers/YahooFinanceMapper.cs:238 | rounding a magnitude stays within half a unit, and a tie rounds to even |
| Json.RoundHalfEvenIsNearest | Services/Mappers/YahooFinanceMapper.cs:238 | rounding a signed value stays within half a unit, and a tie rounds to even |
| Json.DecimalSearchIsLargest | Services/Mappers/YahooFinanceMapper.cs:238 | the search returns the rounding at the largest scale that fits 96 bits, and nothing exactly when no scale fits |
| Json.DecimalOfIsLargestFit | Services/Mappers/YahooFinanceMapper.cs:238 | `TryGetDecimal` gives the literal rounded to the most fraction digits, at most 28, that fit 96 bits, and fails exactly when none fit |
| Json.DecimalOfExact | Services/Mappers/YahooFinanceMapper.cs:238 | a literal with at most 28 fraction digits and a 96-bit mantissa is read exactly |
| Json.DecimalOfRoundsExtraDigits | Services/Mappers/YahooFinanceMapper.cs:238 | a 29th fraction digit is rounded away, not refused |
| Json.Int32IsInt64 | Services/Mappers/YahooFinanceMapper.cs:98-108 | every 32-bit reading also reads as 64-bit with the same value |
| Responses.QuoteSymbols | Services/CachedYahooFinanceService.cs:91-93 | the symbols of a quote list, in order |
| Mapper.GetOptionalDecimal | Services/Mappers/YahooFinanceMapper.cs:234-244 | a value exactly when the member is a number that reads as a decimal, and then the decimal reading of it |
| Mapper.GetOptionalLong | Services/Mappers/YahooFinanceMapper.cs:246-256 | a value only when the member is a 64-bit integer literal; none otherwise |
| Mapper.GetOptionalString | Services/Mappers/YahooFinanceMapper.cs:258-266 | a value exactly when the member is a string, and then its text |
| Mapper.PayloadOf | Services/Mappers/YahooFinanceMapper.cs:155-196 | each optional field of the table is read with its own typed reader |
| Mapper.MapToQuoteData | Services/Mappers/YahooFinanceMapper.cs:144-197 | a quote is kept exactly when the element is an object with a non-empty string symbol, and it carries that symbol, the market time and every payload field read by its own typed reader |
| Mapper.MapToTrendingStock | Services/Mappers/YahooFinanceMapper.cs:199-232 | the same keep rule for trending elements, with a payload of the trending fields each read by its own typed reader |
| Mapper.QuotesOfAppend | Services/Mappers/YahooFinanceMapper.cs:31-42 | kept quotes of a concatenation are the kept quotes of each part, in array order |
| Mapper.QuotesOfSingle | Services/Mappers/YahooFinanceMapper.cs:35-40 | one element contributes its mapped quote or nothing |
| Mapper.StocksOfAppend | Services/Mappers/YahooFinanceMapper.cs:111-122 | kept stocks of a concatenation are the kept stocks of each part, in order |
| Mapper.ErrorMessageOf | Services/Mappers/YahooFinanceMapper.cs:45-50 | an absent or null error gives no message; a string gives its text; any other kind throws |
| Mapper.CollectQuotes | Services/Mappers/YahooFinanceMapper.cs:31-42 | the loop collects exactly the kept quotes of the result array |
| Mapper.MapToQuoteResponse | Services/Mappers/YahooFinanceMapper.cs:14-68 | the method returns the response the mapping function defines |
| Mapper.MissingQuoteResponse | Services/Mappers/YahooFinanceMapper.cs:24-27 | a document without quoteResponse is a parse error with the fixed message |
| Mapper.QuoteResponseSuccessIff | Services/Mappers/YahooFinanceMapper.cs:14-68 | mapping fails exactly in the four throwing cases, and every failure is a parse error |
| Mapper.QuoteResponseContents | Services/Mappers/YahooFinanceMapper.cs:52-62 | a success echoes the symbols, region and language and carries the kept quotes and the error message |
| Mapper.ReadMember | Services/Mappers/YahooFinanceMapper.cs:96-109 | an absent member is no value; a present one is read, or its throw is passed on |
| Mapper.CollectStocks | Services/Mappers/YahooFinanceMapper.cs:111-122 | the inner loop collects exactly the kept stocks of the quotes array |
| Mapper.FoldElements | Services/Mappers/YahooFinanceMapper.cs:91-124 | the outer loop computes the fold over the result array, stopping at the first throw |
| Mapper.ReadElement | Services/Mappers/YahooFinanceMapper.cs:94-123 | one round of the outer loop: a non-object element throws; present counters overwrite the carried ones or throw; the kept stocks of the element are added |
| Mapper.StepTrendingSucceedsIff | Services/Mappers/YahooFinanceMapper.cs:94-123 | one round gets through exactly when its element is an object whose counters are 32- and 64-bit integer literals |
| Mapper.MapToTrendingResponse | Services/Mappers/YahooFinanceMapper.cs:73-142 | the method returns the trending response the mapping function defines |
| Mapper.MissingFinance | Services/Mappers/YahooFinanceMapper.cs:81-84 | a document without finance is a parse error with the fixed message |
| Mapper.LastMemberIsLast | Services/Mappers/YahooFinanceMapper.cs:96-109 | the counter value is absent exactly when no element has it, and otherwise comes from the last element that has it |
| Mapper.FoldTrendingSucceedsIff | Services/Mappers/YahooFinanceMapper.cs:91-124 | the loop completes exactly when every element is well formed |
| Mapper.FoldTrendingContents | Services/Mappers/YahooFinanceMapper.cs:91-124 | on completion the stocks of all elements come in order, and each counter is the last element's value |
| Mapper.TrendingResponseContents | Services/Mappers/YahooFinanceMapper.cs:126-136 | a success upper-cases the region and reports the stocks, their count and the last counters |
| Mapper.TrendingResponseSuccessIff | Services/Mappers/YahooFinanceMapper.cs:73-142 | trending mapping succeeds exactly when root and finance are objects and every element is well formed; failures are parse errors |
| Mapper.TrendingFailureIsParseError | Services/Mappers/YahooFinanceMapper.cs:137-141 | every failure of trending mapping is a DATA_PARSE_ERROR |
| Upstream.IsValidRegion | Services/YahooFinanceService.cs:146-149 | null is never valid, and a valid region has two characters |
| Upstream.GetSupportedRegions | Services/YahooFinanceService.cs:151-154 | ten distinct markets |
| Upstream.SupportedRegionsAreValid | Services/YahooFinanceService.cs:146-154 | a region is valid exactly when its upper-case form is listed, and every listed region is valid |
| Upstream.RegionCaseInsensitive | Services/YahooFinanceService.cs:148 | validation ignores letter case |
| Upstream.ValidRegionIsLetters | Services/YahooFinanceService.cs:146-154 | a valid region has two characters whose upper-case forms are ASCII letters |
| Upstream.UnknownRegionRejected | Services/YahooFinanceService.cs:146-154 | "ZZ" is not a supported market |
| Upstream.ReplyCases | Services/YahooFinanceService.cs:59-90 | transport errors, a non-2xx status carried in the error, an unparsable body, or the mapper's answer |
| Upstream.YahooFinanceService.constructor | Services/YahooFinanceService.cs:19-29 | the collaborators are stored and nothing has been sent |
| Upstream.YahooFinanceService.GetApiKey | Services/YahooFinanceService.cs:156-169 | the Parameter Store value when that lookup succeeds, the configuration value only when it fails |
| Upstream.YahooFinanceService.ApiKeyResult | Services/YahooFinanceService.cs:171-185 | a key succeeds exactly when it is present and non-empty; otherwise MissingApiKey |
| Upstream.YahooFinanceService.EmptyStoredKeyShadowsConfiguration | Services/YahooFinanceService.cs:156-185 | an empty stored key shadows the configuration and ends in MissingApiKey |
| Upstream.YahooFinanceService.GetQuote | Services/YahooFinanceService.cs:31-91 | returns the quote outcome and appends exactly the requests that outcome sends |
| Upstream.YahooFinanceService.FormatCheckedFirst | Services/YahooFinanceService.cs:34-37 | a malformed symbol list fails for its format whatever region or key, and sends nothing |
| Upstream.YahooFinanceService.RegionCheckedBeforeKey | Services/YahooFinanceService.cs:39-42 | an invalid region is refused before the key is looked up, and nothing is sent |
| Upstream.YahooFinanceService.QuoteWithoutKey | Services/YahooFinanceService.cs:48-52 | without a key the request is refused before anything is sent |
| Upstream.YahooFinanceService.QuoteSendsOnce | Services/YahooFinanceService.cs:54-59 | once checks and key pass, exactly one request goes out with the raw symbol text and the key |
| Upstream.YahooFinanceService.QuoteSuccessShape | Services/YahooFinanceService.cs:70-79 | a success echoes the parsed symbols (at most ten, non-empty, upper-case), the region and the language |
| Upstream.YahooFinanceService.QuoteFailureCodes | Services/YahooFinanceService.cs:31-91 | every failure carries one of seven error codes |
| Upstream.YahooFinanceService.GetTrending | Services/YahooFinanceService.cs:93-144 | returns the trending outcome and appends exactly the requests that outcome sends |
| Upstream.YahooFinanceService.TrendingValidatesRegionOnly | Services/YahooFinanceService.cs:95-98 | trending is never refused for format, and an invalid region is refused before anything is sent |
| Upstream.YahooFinanceService.TrendingUpperCasesRegion | Services/YahooFinanceService.cs:108 | two spellings of one market send the same request, and a success carries the upper-cased region |
| Store.Save | Services/ICacheService.cs:169-177 | the store keeps its keys; every tracked entity is inserted when all fit their columns and break no key, else nothing is and they stay tracked; rows are only appended |
| Store.EntitiesAppend | Services/ICacheService.cs:169-170 | the rows of a concatenation of entities, table by table, are the rows of each part |
| Store.RefusalPersists | Data/YahooFinanceDbContext.cs:29-39 | a refused batch (an oversized value or a broken key) stays refused however much is added to it |
| Store.BrokenKeyPersists | Data/YahooFinanceDbContext.cs:29-39 | a broken unique index or primary key stays broken when rows are appended |
| Store.UniquePrefix | Data/YahooFinanceDbContext.cs:29-39 | the rows before appended ones keep every key the whole table keeps |
| Store.RefusedContextStaysRefused | Services/ICacheService.cs:169-177 | after one refused save every later save of the context is refused and inserts nothing |
| Store.SaveIntoCleanContext | Services/ICacheService.cs:169-170 | a clean, reachable context whose entities fit and break no key inserts exactly the added entities |
| Store.QuoteRowFor | Services/ICacheService.cs:126-168 | the saved row keeps the symbol, the region and the market time, holds each decimal at its column's scale; the quote time is the market time or now; the row is fresh for 15 minutes |
| Store.QuoteRowRoundTrip | Services/ICacheService.cs:49-66 | a quote read back from its row is the quote with its decimals at the column scales and a missing market time as the save time; a quote already at those scales with a market time comes back unchanged |
| Store.TrendingRowsRanked | Services/ICacheService.cs:337-370 | a list's rows carry ranks 1..N in order, one job time, the region, the stored decimals and a 30-minute deadline |
| Store.SingleTrendingRowFor | Services/ICacheService.cs:180-202 | the single trending row has job time now, no rank, the stored decimals and a 30-minute deadline |
| Store.ToTrendingStocks | Services/ICacheService.cs:311-327 | each row is read back in place, in order |
| Store.StoredPayload | Data/Entities/StockQuote.cs:25-134 | each decimal with a column is rounded to the column's scale; integers and texts are kept |
| Store.StoredPayloadAtScale | Data/Entities/StockQuote.cs:25-134 | a payload already at its column scales is stored unchanged, every stored payload is at them, and storing twice is storing once |
| Store.ColumnValue | Data/Entities/StockQuote.cs:26 | a decimal column holds the value at the column's scale |
| Store.RoundHalfUpIsNearest | Data/Entities/StockQuote.cs:26 | rounding a magnitude stays within half a unit, and a tie rounds up |
| Store.RoundHalfAwayIsNearest | Data/Entities/StockQuote.cs:26 | the column rounding stays within half a unit, and a tie rounds away from zero |
| Store.Pow10Add | Data/Entities/StockQuote.cs:26 | powers of ten multiply by adding exponents |
| Store.ColumnValueExact | Data/Entities/StockQuote.cs:26 | a value with no more fraction digits than the column is stored exactly |
| Store.RatioColumnRoundsTiesAway | Data/Entities/StockQuote.cs:34 | 0.123450 is stored in a `decimal(10,4)` column as 0.1235, and its negation as -0.1235 |
| Store.RatioColumnLimit | Data/Entities/StockQuote.cs:34 | a `decimal(10,4)` column holds 999999.9999 and refuses 1000000 |
| Store.SameKeyIgnoresCase | Data/YahooFinanceDbContext.cs:29-31 | a key, its upper-case and its lower-case forms compare equal under the collation |
| Store.Keys | Data/YahooFinanceDbContext.cs:29-31 | the collation's view of a list of keys, one per key in order |
| Store.KeysAppend | Data/YahooFinanceDbContext.cs:29-31 | the keys of a concatenation are the keys of its parts |
| Store.LatestFreshQuoteSameKey | Services/ICacheService.cs:38-43 | symbols differing only in letter case read the same quote |
| Store.CacheService.GetCachedQuoteSameKey | Services/ICacheService.cs:34-88 | symbols differing only in letter case get the same cached quote |
| Store.RepeatedRequestIdRefused | Data/YahooFinanceDbContext.cs:98 | a repeated request id breaks the primary key, and the telemetry row is refused with everything beside it |
| Store.LongSymbolRefused | Data/Entities/StockQuote.cs:13-16 | a symbol longer than 20 characters is refused with everything tracked beside it |
| Store.LongLanguageRefused | Data/Entities/ApiRequest.cs:35-36 | a language longer than 2 characters (such as "en-US") fails strict mode, so that telemetry row is refused with everything tracked beside it |
| Store.StoredStocks | Services/ICacheService.cs:311-327 | each stock as its row reads back, in order |
| Store.LatestFreshQuote | Services/ICacheService.cs:38-43 | the fresh row whose symbol and region match up to letter case with the greatest quote time (nulls lowest); none exactly when no fresh row matches |
| Store.LatestFreshQuoteIgnores | Services/ICacheService.cs:38-43 | stale rows and other keys do not change a quote read |
| Store.FreshForRegion | Services/ICacheService.cs:305-306 | exactly the fresh rows of the region (compared up to letter case), a sub-multiset of the table |
| Store.FreshForRegionEmptyIff | Services/ICacheService.cs:305-306 | nothing is found exactly when no row of the region is fresh |
| Store.InsertByRank | Services/ICacheService.cs:307-308 | one more element, the same multiset plus the inserted row |
| Store.InsertKeepsSorted | Services/ICacheService.cs:307-308 | inserting into a rank-ordered list keeps it ordered |
| Store.SortByRank | Services/ICacheService.cs:307-308 | the result is ordered by rank then job time, and is a permutation of the input |
| Store.SortSortedIdentity | Services/ICacheService.cs:307-308 | sorting an ordered list changes nothing |
| Store.TopTrending | Services/ICacheService.cs:304-309 | at most 50 fresh rows of the region, ordered, all taken from the fresh rows |
| Store.TopTrendingAreTop | Services/ICacheService.cs:307-309 | every dropped row sorts after every kept row, and rows are dropped only when the limit is reached |
| Store.TopOfSorted | Services/ICacheService.cs:307-309 | the first n rows of an ordering take everything when nothing is cut, and each comes before every row left out |
| Store.SavedQuoteIsRead | Services/ICacheService.cs:34-178 | a quote saved while nothing fresh is cached for its key is what the next read returns, with its decimals at the column scales |
| Store.SameTimestampRefused | Data/YahooFinanceDbContext.cs:29-31 | a quote repeating a stored row's market time for its key, up to letter case, is refused with everything tracked beside it |
| Store.DuplicateTrendingRefused | Data/YahooFinanceDbContext.cs:37-39 | a trending list naming one symbol twice, up to letter case, is refused as a whole |
| Store.TrendingRowsOrdered | Services/ICacheService.cs:337-370 | a saved list's rows are rank-ordered and fresh at the save time |
| Store.RowsReadAsStocks | Services/ICacheService.cs:311-327 | the rows of a list read back as the list's stocks with their stored decimals |
| Store.SavedTrendingIsRead | Services/ICacheService.cs:300-376 | a list saved while nothing fresh is cached for the region reads back as the first 50 stocks of that list, decimals at the column scales |
| Store.TrendingEntities | Services/ICacheService.cs:366 | one tracked entity per row, in order |
| Store.LatestFreshTrending | Services/ICacheService.cs:90-124 | the fresh trending row matching symbol and region up to letter case with the latest job time; none exactly when none matches |
| Store.CacheService.constructor | Services/ICacheService.cs:28-32 | the context starts from tables that keep their keys, with nothing tracked |
| Store.CacheService.AddAndSave | Services/ICacheService.cs:169-177 | the new context state is the pure save of the old state |
| Store.CacheService.GetCachedQuote | Services/ICacheService.cs:34-88 | the latest fresh matching row as a DTO whose symbol equals the asked one up to letter case; null exactly when there is none or the database fails |
| Store.CacheService.GetCachedTrendingStock | Services/ICacheService.cs:90-124 | the latest fresh row for the symbol; null exactly when there is none or the database fails |
| Store.CacheService.GetCachedTrendingStocksForRegion | Services/ICacheService.cs:300-335 | between 1 and 50 top rows of the region; null, never empty, exactly when none is fresh or the database fails |
| Store.CacheService.IsCacheValid | Services/ICacheService.cs:214-239 | true only for the "quote" or "trending" type, in any letter case, when a fresh row exists for the key up to letter case |
| Store.CacheService.SaveQuote | Services/ICacheService.cs:126-178 | the new state is the save of one quote row with everything already tracked |
| Store.CacheService.SaveTrendingStock | Services/ICacheService.cs:180-212 | the new state is the save of one unranked trending row |
| Store.CacheService.SaveTrendingStocks | Services/ICacheService.cs:337-376 | the loop tracks one ranked row per stock and saves them all at once |
| Store.CacheService.SaveApiRequest | Services/ICacheService.cs:242-271 | the new state is the save of one telemetry row |
| Cached.RemainingRequest | Services/CachedYahooFinanceService.cs:80-85 | the upstream request keeps the region and language and joins the missed symbols |
| Cached.SaveQuotes | Services/CachedYahooFinanceService.cs:96-99 | the write-back loop keeps the store consistent |
| Cached.RefusedQuoteLosesTelemetry | Services/CachedYahooFinanceService.cs:96-112 | once one write-back is refused, the telemetry row saved after the loop is refused too |
| Cached.RepeatedMarketTimeLosesTelemetry | Services/CachedYahooFinanceService.cs:96-112 | a fetched quote repeating a stored market time loses the request's telemetry |
| Cached.WhitespacePieceForwarded | Services/CachedYahooFinanceService.cs:80-85 | "A, ,B" fails validation but its misses are forwarded as "A,,B", which passes |
| Cached.CachedYahooFinanceService.constructor | Services/CachedYahooFinanceService.cs:17-25 | the inner service and the cache service are stored |
| Cached.CachedYahooFinanceService.PartitionStep | Services/CachedYahooFinanceService.cs:41-55 | one round adds the symbol to hits or to misses, by the cache's answer |
| Cached.CachedYahooFinanceService.PartitionCounts | Services/CachedYahooFinanceService.cs:41-55 | every symbol lands in exactly one list, counted up to letter case since a hit carries its row's symbol, and the counter counts the hits |
| Cached.CachedYahooFinanceService.PartitionMisses | Services/CachedYahooFinanceService.cs:41-55 | the misses are exactly the requested symbols the cache has nothing fresh for, in request order |
| Cached.CachedYahooFinanceService.PartitionHits | Services/CachedYahooFinanceService.cs:43-47 | each hit is the cache's answer for its own symbol |
| Cached.CachedYahooFinanceService.LookUp | Services/CachedYahooFinanceService.cs:41-55 | the lookup loop computes the partition |
| Cached.CachedYahooFinanceService.WriteBack | Services/CachedYahooFinanceService.cs:96-99 | the write-back loop saves quote by quote |
| Cached.SaveQuotesStep | Services/CachedYahooFinanceService.cs:96-99 | one more round of the write-back loop saves that quote's row after the earlier ones |
| Cached.CachedYahooFinanceService.GetQuote | Services/CachedYahooFinanceService.cs:27-126 | the answer is the partition's result; the store holds the write-backs, then the telemetry row |
| Cached.CachedYahooFinanceService.AllCachedServed | Services/CachedYahooFinanceService.cs:58-77 | with no misses the cached quotes are served, with no validation |
| Cached.CachedYahooFinanceService.MissesFetchedOnce | Services/CachedYahooFinanceService.cs:80-126 | only the misses go upstream; a success puts cached quotes before fetched ones and drops the upstream's message; a failure is passed on |
| Cached.CachedYahooFinanceService.FetchMisses | Services/CachedYahooFinanceService.cs:80-126 | the miss path sends one request for the joined misses, writes back a success, logs one telemetry row, and returns the defined result |
| Cached.CachedYahooFinanceService.NothingCachedForwardsAll | Services/CachedYahooFinanceService.cs:41-85 | with nothing cached, all parsed symbols are forwarded |
| Cached.CachedYahooFinanceService.NoHitsFetchAll | Services/CachedYahooFinanceService.cs:41-55 | with no hits every symbol is a miss and the counter is zero |
| Cached.CachedYahooFinanceService.QuoteTelemetryReports | Services/CachedYahooFinanceService.cs:70-123 | the row says 200 exactly on success, records a hit exactly when nothing was fetched, and carries the raw symbol text |
| Cached.CachedYahooFinanceService.GetTrending | Services/CachedYahooFinanceService.cs:139-189 | the answer is the cached list or the upstream's; a fetched list is saved as ranked rows, then the telemetry row |
| Cached.CachedYahooFinanceService.AnswerTrending | Services/CachedYahooFinanceService.cs:149-189 | once the cache is read, a non-empty cached list takes the hit path and sends nothing upstream; otherwise exactly one trending request goes upstream |
| Cached.CachedYahooFinanceService.ServeTrending | Services/CachedYahooFinanceService.cs:149-164 | a hit answers the cached list with its own count and the request's region, and writes only a status-200 cache-hit telemetry row |
| Cached.CachedYahooFinanceService.TrendingHit | Services/CachedYahooFinanceService.cs:149-164 | for a non-empty cached list the answer is that list and the store gains only the hit's telemetry row |
| Cached.CachedYahooFinanceService.FetchTrending | Services/CachedYahooFinanceService.cs:167-189 | the miss path sends one trending request, saves a successful list, logs status 200 or 500, and returns the upstream answer |
| Cached.CachedYahooFinanceService.TrendingRegionSpelling | Services/CachedYahooFinanceService.cs:149-180 | a cached answer keeps the request's region spelling and the list's count; a fetched one carries the upstream's |
| Cached.CachedYahooFinanceService.FetchedTrendingIsCached | Services/CachedYahooFinanceService.cs:168-173 | a fetched list saved into a clean context is what the next region read returns, cut to 50, decimals at the column scales |
| Cached.CachedYahooFinanceService.GetSupportedRegions | Services/CachedYahooFinanceService.cs:202-206 | delegated unchanged |
| Cached.CachedYahooFinanceService.LogApiRequest | Services/CachedYahooFinanceService.cs:223-235 | one telemetry row is saved through the cache service |
| Cached.QuoteSymbolsAppend | Services/CachedYahooFinanceService.cs:91-93 | the symbols of merged quotes are the cached symbols followed by the fetched ones |
| Controller.GetStatusCodeFromError | Controllers/YHController.cs:501-511 | one of six statuses; validation errors are 400; unmapped codes are 500 |
| Controller.CodeStatus | Controllers/YHController.cs:501-511 | each arm of the table: validation codes 400, not found 404, timeout 408, request and parse failures 502, connection failure 503, configuration codes 500 |
| Controller.StatusClasses | Controllers/YHController.cs:501-511 | each status class, both directions: the 4xx codes, 502 for request and parse failures, 503 for connection failures, 500 otherwise |
| Controller.FactoryStatus | Controllers/YHController.cs:501-511 | the status every DomainErrors factory maps to |
| Controller.QuoteFailureStatus | Controllers/YHController.cs:184-188 | a failed quote call maps to 400, 408, 500, 502 or 503, never 404 |
| Controller.MapErrorToActionResult | Controllers/YHController.cs:494-526 | the reply carries the mapped status and the error's code and message |
| Controller.GroupRequest | Controllers/YHController.cs:305-310 | each group's request joins its symbols and keeps the bulk region and language |
| Controller.GetBulkQuotes | Controllers/YHController.cs:288-364 | the loop computes the bulk response, sending one request per group in group order |
| Controller.SymbolCountSnoc | Controllers/YHController.cs:303 | the total grows by each group's symbol count |
| Controller.BulkStateInvariant | Controllers/YHController.cs:301-349 | after n groups the state reports each group in order, and the counters are the totals over them |
| Controller.BulkStep | Controllers/YHController.cs:301-349 | one round appends one group reporting that group's answer, and grows the total, successes, failures and errors by that group's share |
| Controller.BulkGroupsInvariant | Controllers/YHController.cs:301-349 | after n rounds there are n groups, each reporting its own input group's answer, in order |
| Controller.BulkTotalInvariant | Controllers/YHController.cs:303 | after n rounds the total is the symbol count of the first n groups |
| Controller.BulkCountsInvariant | Controllers/YHController.cs:314-347 | successes are the groups' success counts, successes plus failures are the total, and there is one global error per failed group |
| Controller.BulkSuccessInvariant | Controllers/YHController.cs:314-347 | after n rounds the success counter is the sum of the groups' success counts |
| Controller.BulkTallyInvariant | Controllers/YHController.cs:314-347 | after n rounds successes plus failures equal the total |
| Controller.BulkErrorCountInvariant | Controllers/YHController.cs:314-347 | after n rounds there is one global error per failed group |
| Controller.SuccessSumSnoc | Controllers/YHController.cs:317-324 | appending a group adds its success count to the sum |
| Controller.BulkResponseShape | Controllers/YHController.cs:351-361 | groups align with the request; total, successes and failures are sums, and successes plus failures equal the total |
| Controller.BulkErrorsNameFailedGroups | Controllers/YHController.cs:333-347 | every global error names a failed group with its message, and there are none exactly when every group succeeded |
| Controller.FailedGroupErrorsSnoc | Controllers/YHController.cs:333-347 | one more group adds its `"Group '<name>': <message>"` error, if it failed, at the end |
| Controller.BulkErrorsInOrder | Controllers/YHController.cs:333-347 | after n rounds the global errors are exactly the failed groups' errors, in group order |
| Controller.BulkResponseErrors | Controllers/YHController.cs:333-361 | the response's errors are one `"Group '<name>': <message>"` per failed group, in the order of the groups |
| Controller.BulkErrorsNamed | Controllers/YHController.cs:333-347 | every global error after n rounds names a group among them whose quote failed, with that failure's message |
| Controller.FailureCountZeroIff | Controllers/YHController.cs:314-347 | no failed group among the first n exactly when every one of them succeeded |
| Controller.CryptoSymbol | Controllers/YHController.cs:237 | a symbol ending in "-USD" is returned unchanged; any other is the symbol followed by exactly "-" and the currency |
| Controller.CryptoSymbolSuffix | Controllers/YHController.cs:237 | adding the USD suffix is idempotent, another currency is appended even when already present, and "-USD" pairs are kept |
| Controller.CryptoSymbols | Controllers/YHController.cs:236-238 | one pair symbol per parsed symbol, in order |
| Controller.CryptoQuoteRequest | Controllers/YHController.cs:230-245 | refused exactly when the format is invalid; otherwise a US/en quote request |
| Controller.CryptoForwardsEachSymbol | Controllers/YHController.cs:236-245 | the forwarded text parses back to exactly the pair symbols |
| Controller.CurrencyExchangeRequestOf | Controllers/YHController.cs:163-167 | each given code is upper-cased character by character, keeping its length; a missing one is empty |
| Controller.ExchangeSymbol | Controllers/YHController.cs:175 | the pair symbol is the from code, then the to code, then "=X" |
| Controller.ExchangeQuoteRequest | Controllers/YHController.cs:177-182 | a US/en quote request for the pair symbol |
| Controller.ExchangeSymbolParts | Controllers/YHController.cs:165-175 | for codes of any length both upper-cased codes can be read back from the symbol in order before "=X", and letter case does not change the request |
| Controller.CreateMockMarketSummary | Controllers/YHController.cs:451-492 | upper-cased region, one regular-session index at the current time, two sectors |
| Controller.MockSummaryByRegion | Controllers/YHController.cs:457-470 | the index is the S&P 500 in USD exactly for the US, otherwise the FTSE 100 in GBP, whatever the letter case |
| Controller.GetMarketSummary | Controllers/YHController.cs:130-150 | the language defaults to "en", one index, and a missing region gives the FTSE 100 |
| Formatters.StateLabel | frontend/src/utils/formatters.ts:65-71 | a label exactly for the five keys, each its own |
| Formatters.FormatMarketState | frontend/src/utils/formatters.ts:62-74 | no or empty state is "Unknown"; keys get their labels; any other state is kept; never empty |
| Formatters.MarketStateRelabelledIff | frontend/src/utils/formatters.ts:73 | a state changes exactly when it is a key, and then becomes a label |
| Formatters.MarketStateCaseSensitive | frontend/src/utils/formatters.ts:65-73 | the lookup is case-sensitive, and unknown states are kept |
| Formatters.FormatMarketStateAsWritten | frontend/src/utils/formatters.ts:73 | the result is not a string exactly when the state names an inherited Object.prototype member |
| Formatters.InheritedStateLeaks | frontend/src/utils/formatters.ts:73 | "constructor" and "toString" return non-strings as written, and "constructor" once corrected |
| Formatters.MarketStateAgreesOffPrototype | frontend/src/utils/formatters.ts:62-74 | off the inherited names, the as-written and corrected formatters agree |
| Formatters.FormatSymbol | frontend/src/utils/formatters.ts:77-79 | no longer than the input, trimmed, and upper-case |
| Formatters.FormatSymbolIdempotent | frontend/src/utils/formatters.ts:77-79 | formatting is trimming then upper-casing, and formatting twice is formatting once |
| Formatters.FormatSymbolEmptyIff | frontend/src/utils/formatters.ts:77-79 | a symbol formats to nothing exactly when it is all white space |
| Formatters.FormatSymbolMatchesBackEnd | frontend/src/utils/formatters.ts:78 | off U+FEFF and U+0085, the front end formats a symbol as the back end normalises it |
| Formatters.JsLength | frontend/src/utils/formatters.ts:83 | a string's `length` counts UTF-16 code units: between one and two per character |
| Formatters.JsLengthOfBmp | frontend/src/utils/formatters.ts:83 | a string inside the Basic Multilingual Plane has one code unit per character |
| Formatters.JsLengthOfAstral | frontend/src/utils/formatters.ts:83 | a string of characters beyond U+FFFF has two code units per character |
| Formatters.JsLengthToUpper | frontend/src/utils/formatters.ts:78 | upper-casing keeps the number of code units |
| Formatters.TrimmedLength | frontend/src/utils/formatters.ts:82-92 | the code units left after trimming: zero exactly when the text is all white space, at most two per character |
| Formatters.TrimmedLengthOfTrimmed | frontend/src/utils/formatters.ts:82-92 | on text without padding, the trimmed length is the full `length` |
| Formatters.AstralTrimmedLength | frontend/src/utils/formatters.ts:82-92 | repeated non-space characters beyond U+FFFF give a trimmed length of twice their count |
| Formatters.AstralCharacterIsRegion | frontend/src/utils/formatters.ts:86-88 | one character beyond U+FFFF passes the two-unit region check |
| Formatters.AstralSymbolTooLong | frontend/src/utils/formatters.ts:82-84 | six or more such characters fail the ten-unit symbol check |
| Formatters.PaddingIgnored | frontend/src/utils/formatters.ts:82-92 | white space at either end changes no validator's verdict |
| Formatters.FormattingKeepsValidity | frontend/src/utils/formatters.ts:77-92 | formatting a symbol changes no validator's verdict |
| Formatters.BackEndRegionsPassFrontEnd | frontend/src/utils/formatters.ts:86-88 | every region the back end accepts passes the front end |
| Formatters.FrontEndAcceptsUnknownRegion | frontend/src/utils/formatters.ts:86-88 | the converse fails: "ZZ" passes the front end but not the back end |
| Formatters.NumberOrNotAvailable | frontend/src/utils/formatters.ts:5 | a missing number prints "N/A"; every number reaches the formatter |
| Formatters.DateOrNotAvailable | frontend/src/utils/formatters.ts:48 | "N/A" exactly for a missing or empty date, or when the formatter prints it; a Date always reaches the formatter |

## Left out

- Dependency injection, logging, the `Stopwatch`, `Guid` request ids and the clock: the request id, the elapsed milliseconds and `now` (in seconds) are parameters.
- The HTTP client, AWS Parameter Store and configuration: they are inputs of the `YahooFinanceService` constructor; HTTP is a total function from request to outcome.
- URL building and escaping of the query string: the model keeps the endpoint's parts, not the URL text.
- `SetApiKeyHeaderAsync` mutating the shared `HttpClient` default headers: the key is attached to each request instead, which is what the one request sent observes.
- Upstream.YahooFinanceService.GetQuote: a thrown exception other than `HttpRequestException` and the timeout is not modelled.
- Cached.CachedYahooFinanceService.GetQuote: the catch-and-rethrow path (an exception from the inner service) is not modelled.
- Cached.CachedYahooFinanceService.GetTrending: the rethrow path is not modelled either; a failing cache read gives null, as the source's own catch does.
- Store.CacheService.GetCachedQuote: the source reads `DateTime.UtcNow` once per query; the model reads one `now` for the whole request.
- `SaveHealthMetricAsync` and the health-check controller: they only write and read health rows outside the quote path.
- The capabilities and health endpoints of the controller; the response assembly of the crypto and currency-exchange endpoints after their quote call; `ModelState` validation attributes such as `MaxLength`.
- Concurrency between requests and between database contexts.
- The `Timestamp` every response carries (`QuoteResponse`, `TrendingResponse`, the bulk, crypto, exchange and market-summary responses): it is `DateTime.UtcNow` when the response is built, and the response datatypes leave it out.
- Prices, volumes and other payload fields: they are carried through as an opaque payload of optional numbers and strings.
- The number and date formatters themselves (`Intl.NumberFormat`, `toFixed`, `date-fns`): the formatter is a parameter of each guard, because floating point is out of scope.
- `MapAsync`, `BindAsync` and the implicit conversions of `Result<T>`: they are Map, Bind, Success and Failure behind asynchrony or a cast.
- `Error.From(Exception)`: exceptions become errors only through the fixed `DomainErrors` the services use.
- Text.ToUpper: only ASCII letters are case-mapped, whereas `ToUpperInvariant` and `toUpperCase` map all of Unicode.
- Formatters.FormatSymbol: `toUpperCase` maps all of Unicode and can lengthen a string (`"ß"` becomes `"SS"`); the model maps ASCII letters only, so its "no longer than the input" holds for that mapping only.
- Formatters.FormattingKeepsValidity: proved for the ASCII-only case mapping; a symbol whose full Unicode upper case is longer (`"ß"` repeated) can pass before formatting and fail after.
- Formatters.FormatSymbolMatchesBackEnd: both sides are compared under the ASCII-only mapping; the back end's `ToUpper()` follows the current culture (a Turkish culture maps `i` to `İ`), the front end's `toUpperCase` does not.
- Upstream.IsValidRegion: `region?.ToUpper()` follows the current culture; the model maps ASCII letters only. The same holds for Upstream.RegionCaseInsensitive and Upstream.SupportedRegionsAreValid.
- Upstream.YahooFinanceService.TrendingUpperCasesRegion: the `ToUpper()` of the trending URL follows the current culture; the model maps ASCII letters only.
- Mapper.TrendingResponseContents: the response region is `region.ToUpper()` under the current culture; the model maps ASCII letters only.
- Controller.MockSummaryByRegion: the `region.ToUpper() == "US"` tests follow the current culture; the model maps ASCII letters only. The same holds for Controller.CreateMockMarketSummary.
- Store.CacheService.IsCacheValid: `dataType.ToLower()` follows the current culture (in a Turkish culture `"QUOTE"` does not lower to `"quote"`); the model maps ASCII letters only.
- Controller.CryptoSymbol: `EndsWith("-USD")` is a culture-sensitive comparison that skips ignorable characters such as U+200B; the model compares the suffix character by character.
- Store.SameKey: keys compare by their ASCII upper case; the server's default collation also equates accented letters and non-ASCII case forms, and whether it ignores trailing spaces depends on the server version.
- Store.EntityFits: assumes MySQL's strict SQL mode (its default), where an over-long text or an out-of-range decimal refuses the statement; without it such values are cut or clipped. The ranges of the `int` columns (status code, elapsed time, rank) are not checked.
- Store.CacheService: `online` is fixed for the life of the service; a database that fails or recovers between two calls on one context is not modelled.
- Store.StoredPayload: the column types, widths and keys are those of the entity attributes and the context configuration; the schema that migrations create is assumed to match them.
- Json.DecimalOf: numbers are literals without an exponent; `TryGetDecimal` also reads exponent notation.
- Requests.ValidFormatBounds: states at most ten symbols, not at least one, because a string of commas validates to no symbol.

## Findings

| source | as written | input that shows it | evidently intended | confidence | as-written member | corrected member |
|---|---|---|---|---|---|---|
| frontend/src/utils/formatters.ts:73 | `stateMap[state] \|\| state` also finds members inherited from `Object.prototype` | the state `"constructor"` returns the `Object` constructor function, not a string | an unknown state is shown as it came | not executed | Formatters.FormatMarketStateAsWritten | Formatters.FormatMarketState |
