/** `YahooFinanceService`: validates a request, finds the API key, calls the
    upstream HTTP API once and maps the parsed body. The HTTP client, the
    Parameter Store and the configuration are collaborators given to the
    constructor; the upstream's answers are a function from request to outcome. */
module Upstream {
  import opened Wrappers
  import opened Text
  import opened Results
  import opened Requests
  import opened Json
  import opened Responses
  import opened Mapper

  const YfApiBaseUrl := "https://yfapi.net"
  const ApiKeyParameterName := "/WebApiProject/YfApi/ApiKey"
  const ApiKeyConfigurationKey := "YfApi:ApiKey"

  /** The supported markets, in the order `GetSupportedRegions` lists them. */
  const ValidRegions: seq<string> := ["US", "AU", "CA", "FR", "DE", "HK", "IT", "ES", "GB", "IN"]

  /** `IsValidRegion`: null is never valid; any other name is valid when its
      upper-cased form is one of the supported markets. */
  function IsValidRegion(region: Option<string>): (r: bool)
    ensures r ==> region.Some? && |region.value| == 2
    ensures region.None? ==> !r
  {
    region.Some? && ToUpper(region.value) in ValidRegions
  }

  /** `GetSupportedRegions`: a copy of the ten markets. */
  function GetSupportedRegions(): (r: seq<string>)
    ensures |r| == 10
    ensures forall i, j :: 0 <= i < j < |r| ==> r[i] != r[j]
  {
    ValidRegions
  }

  /** The supported markets are exactly the regions `IsValidRegion` accepts, up
      to letter case, and every listed name is itself accepted. */
  lemma SupportedRegionsAreValid(region: string)
    ensures IsValidRegion(Some(region)) <==> exists i :: 0 <= i < |GetSupportedRegions()| && GetSupportedRegions()[i] == ToUpper(region)
    ensures forall i :: 0 <= i < |GetSupportedRegions()| ==> IsValidRegion(Some(GetSupportedRegions()[i]))
  {
    var regions := GetSupportedRegions();
    assert regions == ValidRegions;
    var u := ToUpper(region);
    if u in ValidRegions {
      var i :| 0 <= i < |ValidRegions| && ValidRegions[i] == u;
      assert regions[i] == u;
    }
    if exists i :: 0 <= i < |regions| && regions[i] == u {
      var i :| 0 <= i < |regions| && regions[i] == u;
      assert u in ValidRegions;
    }
    forall i | 0 <= i < |ValidRegions|
      ensures IsValidRegion(Some(ValidRegions[i]))
    {
      RegionUpperCase(i);
    }
  }

  /** Each listed market is already upper-case. */
  lemma RegionUpperCase(i: int)
    requires 0 <= i < |ValidRegions|
    ensures ToUpper(ValidRegions[i]) == ValidRegions[i]
  {
    var s := ValidRegions[i];
    assert |s| == 2 && 'A' <= s[0] <= 'Z' && 'A' <= s[1] <= 'Z';
    var u := ToUpper(s);
    assert u[0] == s[0] && u[1] == s[1];
  }

  /** A valid region is two characters whose upper-case forms are ASCII letters. */
  lemma ValidRegionIsLetters(region: string)
    requires IsValidRegion(Some(region))
    ensures |region| == 2
    ensures 'A' <= UpperChar(region[0]) <= 'Z' && 'A' <= UpperChar(region[1]) <= 'Z'
  {
    var u := ToUpper(region);
    assert u[0] == UpperChar(region[0]) && u[1] == UpperChar(region[1]);
    var i :| 0 <= i < |ValidRegions| && ValidRegions[i] == u;
  }

  /** "ZZ" is not a supported market. */
  lemma UnknownRegionRejected()
    ensures !IsValidRegion(Some("ZZ"))
  {
    var u := ToUpper("ZZ");
    assert u[0] == 'Z';
    forall i | 0 <= i < |ValidRegions|
      ensures ValidRegions[i] != u
    {
      assert ValidRegions[i][0] != 'Z';
    }
  }

  /** Region validation ignores letter case. */
  lemma RegionCaseInsensitive(region: string)
    ensures IsValidRegion(Some(ToLower(region))) == IsValidRegion(Some(region))
    ensures IsValidRegion(Some(ToUpper(region))) == IsValidRegion(Some(region))
  {
    assert ToUpper(ToLower(region)) == ToUpper(region);
    ToUpperIdempotent(region);
  }

  // ---- The HTTP exchange ----

  /** Which upstream resource is asked for: the quote query carries the raw
      `Symbols` text (escaped into the URL), region and language; the trending path
      carries the upper-cased region. */
  datatype Endpoint = QuoteEndpoint(symbols: string, region: string, language: string) | TrendingEndpoint(region: string)

  /** A GET request with its `X-API-KEY` header. */
  datatype HttpRequest = HttpRequest(endpoint: Endpoint, apiKey: Option<string>)

  /** The body as `JsonDocument.Parse` sees it. */
  datatype Body = Malformed | Parsed(document: Json)

  /** What `GetAsync` does: a response, an `HttpRequestException`, or a
      cancellation caused by a timeout. */
  datatype HttpOutcome = Response(status: int, body: Body) | ConnectionError | TimeoutError

  /** `IsSuccessStatusCode`: the 2xx range. */
  predicate IsSuccessStatusCode(status: int)
  {
    200 <= status <= 299
  }

  /** The shared tail of both operations: a transport failure, a non-2xx status,
      an unparsable body, or the mapper's result for the parsed document. */
  function Reply<T>(outcome: HttpOutcome, mapper: Json -> Result<T>): Result<T>
  {
    match outcome
    case ConnectionError => Failure(ConnectionFailed())
    case TimeoutError => Failure(Timeout())
    case Response(status, body) =>
      if !IsSuccessStatusCode(status) then Failure(RequestFailed(status))
      else match body
        case Malformed => Failure(ParseError("JSON response"))
        case Parsed(document) => mapper(document)
  }

  /** Every way the tail can end: the transport errors, the status code carried in
      the error, the fixed parse error, and the mapper's own answer. */
  lemma ReplyCases<T>(outcome: HttpOutcome, mapper: Json -> Result<T>)
    ensures outcome.ConnectionError? ==> Reply(outcome, mapper) == Failure(ConnectionFailed())
    ensures outcome.TimeoutError? ==> Reply(outcome, mapper) == Failure(Timeout())
    ensures outcome.Response? && !IsSuccessStatusCode(outcome.status) ==>
      Reply(outcome, mapper).Failure? && Reply(outcome, mapper).error.code == NetworkRequestFailedCode
      && ParseInt(Reply(outcome, mapper).error.message[|RequestFailedPrefix|..]) == outcome.status
    ensures outcome.Response? && IsSuccessStatusCode(outcome.status) && outcome.body.Malformed? ==>
      Reply(outcome, mapper) == Failure(ParseError("JSON response"))
    ensures outcome.Response? && IsSuccessStatusCode(outcome.status) && outcome.body.Parsed? ==>
      Reply(outcome, mapper) == mapper(outcome.body.document)
  {
    if outcome.Response? && !IsSuccessStatusCode(outcome.status) {
      RequestFailedCarriesStatus(outcome.status);
    }
  }

  /** Which operation was asked of the service. */
  datatype Call = QuoteCall(quote: QuoteRequest) | TrendingCall(trending: TrendingRequest)

  class YahooFinanceService {
    /** The outcome of `GetParameterAsync(ApiKeyParameterName)`. */
    const parameterStore: Result<string>
    /** The configuration value `YfApi:ApiKey`, null when absent. */
    const configuredKey: Option<string>
    /** The upstream's answer to each request. */
    const http: HttpRequest -> HttpOutcome
    /** Requests sent, in order. */
    ghost var sent: seq<HttpRequest>
    /** Operations asked of the service, in order. */
    ghost var calls: seq<Call>

    constructor(parameterStore: Result<string>, configuredKey: Option<string>, http: HttpRequest -> HttpOutcome)
      ensures this.parameterStore == parameterStore && this.configuredKey == configuredKey && this.http == http
      ensures sent == [] && calls == []
    {
      this.parameterStore := parameterStore;
      this.configuredKey := configuredKey;
      this.http := http;
      sent := [];
      calls := [];
    }

    /** `GetApiKeyAsync`: the Parameter Store value when that lookup succeeds
        (even an empty one), the configuration value only when it fails. */
    function GetApiKey(): (r: Option<string>)
      ensures parameterStore.IsSuccess() ==> r == Some(parameterStore.value)
      ensures parameterStore.IsFailure() ==> r == configuredKey
    {
      if parameterStore.IsSuccess() then Some(parameterStore.value) else configuredKey
    }

    /** What `SetApiKeyHeaderAsync` decides: the key to send as `X-API-KEY` when
        it is neither null nor empty, `MissingApiKey` otherwise. */
    function ApiKeyResult(): (r: Result<string>)
      ensures r.IsSuccess() <==> GetApiKey().Some? && GetApiKey().value != ""
      ensures r.IsSuccess() ==> r.value == GetApiKey().value
      ensures r.IsFailure() ==> r.error == MissingApiKey()
    {
      var key := GetApiKey();
      if key.Some? && key.value != "" then Success(key.value) else Failure(MissingApiKey())
    }

    /** A successful Parameter Store lookup shadows the configuration, even when
        the stored value is empty. */
    lemma EmptyStoredKeyShadowsConfiguration()
      requires parameterStore == Success("")
      ensures ApiKeyResult() == Failure(MissingApiKey())
    {
    }

    // ---- GetQuoteAsync ----

    /** The request passes both checks of `GetQuoteAsync`. */
    predicate QuoteAccepted(request: QuoteRequest)
    {
      HasValidSymbolFormat(request.symbols) && IsValidRegion(Some(request.region))
    }

    /** The upstream request for a quote. */
    function QuoteHttpRequest(request: QuoteRequest, key: string): HttpRequest
    {
      HttpRequest(QuoteEndpoint(request.symbols, request.region, request.language), Some(key))
    }

    /** What `GetQuoteAsync` returns. */
    function QuoteOutcome(request: QuoteRequest): Result<QuoteResponse>
    {
      if !HasValidSymbolFormat(request.symbols) then Failure(InvalidFormat("symbols"))
      else if !IsValidRegion(Some(request.region)) then Failure(InvalidValue("Region", request.region))
      else match ApiKeyResult()
        case Failure(e) => Failure(e)
        case Success(key) =>
          Reply(http(QuoteHttpRequest(request, key)),
                document => QuoteResponseOf(document, GetSymbolsArray(request.symbols), request.region, request.language))
    }

    /** The requests `GetQuoteAsync` sends: one, once validation and the key pass. */
    function QuoteSent(request: QuoteRequest): seq<HttpRequest>
    {
      if QuoteAccepted(request) && ApiKeyResult().IsSuccess() then [QuoteHttpRequest(request, ApiKeyResult().value)] else []
    }

    method GetQuote(request: QuoteRequest) returns (r: Result<QuoteResponse>)
      modifies this
      ensures r == QuoteOutcome(request)
      ensures sent == old(sent) + QuoteSent(request)
      ensures calls == old(calls) + [QuoteCall(request)]
    {
      calls := calls + [QuoteCall(request)];
      if !HasValidSymbolFormat(request.symbols) {
        return Failure(InvalidFormat("symbols"));
      }
      if !IsValidRegion(Some(request.region)) {
        return Failure(InvalidValue("Region", request.region));
      }
      var symbols := GetSymbolsArray(request.symbols);
      var apiKey := ApiKeyResult();
      if apiKey.IsFailure() {
        return Failure(apiKey.error);
      }
      var outgoing := HttpRequest(QuoteEndpoint(request.symbols, request.region, request.language), Some(apiKey.value));
      sent := sent + [outgoing];
      var response := http(outgoing);
      match response {
        case ConnectionError =>
          return Failure(ConnectionFailed());
        case TimeoutError =>
          return Failure(Timeout());
        case Response(status, body) =>
          if !IsSuccessStatusCode(status) {
            return Failure(RequestFailed(status));
          }
          if body.Malformed? {
            return Failure(ParseError("JSON response"));
          }
          r := MapToQuoteResponse(body.document, symbols, request.region, request.language);
      }
    }

    /** The symbol format is checked first: a malformed list fails whatever the
        region and the key, and nothing is sent. */
    lemma FormatCheckedFirst(request: QuoteRequest)
      requires !HasValidSymbolFormat(request.symbols)
      ensures QuoteOutcome(request) == Failure(InvalidFormat("symbols"))
      ensures QuoteOutcome(request).error.code == ValidationFormatCode
      ensures QuoteSent(request) == []
    {
    }

    /** The region is checked before the key is looked up. */
    lemma RegionCheckedBeforeKey(request: QuoteRequest)
      requires HasValidSymbolFormat(request.symbols) && !IsValidRegion(Some(request.region))
      ensures QuoteOutcome(request) == Failure(InvalidValue("Region", request.region))
      ensures QuoteSent(request) == []
    {
    }

    /** Without a key the request is refused before anything is sent. */
    lemma QuoteWithoutKey(request: QuoteRequest)
      requires QuoteAccepted(request) && ApiKeyResult().IsFailure()
      ensures QuoteOutcome(request) == Failure(MissingApiKey())
      ensures QuoteSent(request) == []
    {
    }

    /** Once the checks and the key pass, exactly one request goes out, carrying
        the raw symbol text (not the normalised list) and the key, and the result
        is the tail's answer to it. */
    lemma QuoteSendsOnce(request: QuoteRequest)
      requires QuoteAccepted(request) && ApiKeyResult().IsSuccess()
      ensures |QuoteSent(request)| == 1
      ensures QuoteSent(request)[0].endpoint.symbols == request.symbols
      ensures QuoteSent(request)[0].apiKey == GetApiKey()
      ensures QuoteOutcome(request) == Reply(http(QuoteSent(request)[0]),
                document => QuoteResponseOf(document, GetSymbolsArray(request.symbols), request.region, request.language))
    {
    }

    /** A successful quote answer echoes the normalised request: at most ten
        non-empty upper-case symbols, the request's region and language, and it
        was obtained by sending exactly one request. */
    lemma QuoteSuccessShape(request: QuoteRequest)
      requires QuoteOutcome(request).IsSuccess()
      ensures var resp := QuoteOutcome(request).value;
        resp.symbols == GetSymbolsArray(request.symbols)
        && resp.region == request.region && resp.language == request.language
        && |resp.symbols| <= MaxSymbols
        && (forall i :: 0 <= i < |resp.symbols| ==> resp.symbols[i] != "" && ToUpper(resp.symbols[i]) == resp.symbols[i])
      ensures |QuoteSent(request)| == 1
    {
      var key := ApiKeyResult().value;
      var outcome := http(QuoteHttpRequest(request, key));
      var document := outcome.body.document;
      QuoteResponseContents(document, GetSymbolsArray(request.symbols), request.region, request.language);
      ValidFormatBounds(request.symbols);
      SymbolsArrayShape(request.symbols);
    }

    /** Every failure is one of seven kinds: the two validation errors, the
        missing key, a non-2xx status, a transport error, or a parse error. */
    lemma QuoteFailureCodes(request: QuoteRequest)
      requires QuoteOutcome(request).IsFailure()
      ensures QuoteOutcome(request).error.code in
        [ValidationFormatCode, ValidationInvalidCode, ConfigMissingApiKeyCode, NetworkRequestFailedCode,
         NetworkConnectionFailedCode, NetworkTimeoutCode, DataParseErrorCode]
    {
      if QuoteAccepted(request) && ApiKeyResult().IsSuccess() {
        var outcome := http(QuoteHttpRequest(request, ApiKeyResult().value));
        if outcome.Response? && IsSuccessStatusCode(outcome.status) && outcome.body.Parsed? {
          QuoteResponseSuccessIff(outcome.body.document, GetSymbolsArray(request.symbols), request.region, request.language);
        }
      }
    }

    // ---- GetTrendingAsync ----

    /** The upstream request for trending stocks. */
    function TrendingHttpRequest(request: TrendingRequest, key: string): HttpRequest
    {
      HttpRequest(TrendingEndpoint(ToUpper(request.region)), Some(key))
    }

    /** What `GetTrendingAsync` returns: only the region is validated. */
    function TrendingOutcome(request: TrendingRequest): Result<TrendingResponse>
    {
      if !IsValidRegion(Some(request.region)) then Failure(InvalidValue("Region", request.region))
      else match ApiKeyResult()
        case Failure(e) => Failure(e)
        case Success(key) => Reply(http(TrendingHttpRequest(request, key)), document => TrendingResponseOf(document, request.region))
    }

    function TrendingSent(request: TrendingRequest): seq<HttpRequest>
    {
      if IsValidRegion(Some(request.region)) && ApiKeyResult().IsSuccess() then [TrendingHttpRequest(request, ApiKeyResult().value)] else []
    }

    method GetTrending(request: TrendingRequest) returns (r: Result<TrendingResponse>)
      modifies this
      ensures r == TrendingOutcome(request)
      ensures sent == old(sent) + TrendingSent(request)
      ensures calls == old(calls) + [TrendingCall(request)]
    {
      calls := calls + [TrendingCall(request)];
      if !IsValidRegion(Some(request.region)) {
        return Failure(InvalidValue("Region", request.region));
      }
      var apiKey := ApiKeyResult();
      if apiKey.IsFailure() {
        return Failure(apiKey.error);
      }
      var outgoing := HttpRequest(TrendingEndpoint(ToUpper(request.region)), Some(apiKey.value));
      sent := sent + [outgoing];
      var response := http(outgoing);
      match response {
        case ConnectionError =>
          return Failure(ConnectionFailed());
        case TimeoutError =>
          return Failure(Timeout());
        case Response(status, body) =>
          if !IsSuccessStatusCode(status) {
            return Failure(RequestFailed(status));
          }
          if body.Malformed? {
            return Failure(ParseError("JSON response"));
          }
          r := MapToTrendingResponse(body.document, request.region);
      }
    }

    /** Trending requests are never refused for their format, and an invalid
        region is refused before anything is sent. */
    lemma TrendingValidatesRegionOnly(request: TrendingRequest)
      ensures TrendingOutcome(request).IsFailure() ==> TrendingOutcome(request).error.code != ValidationFormatCode
      ensures !IsValidRegion(Some(request.region)) ==>
        TrendingOutcome(request) == Failure(InvalidValue("Region", request.region)) && TrendingSent(request) == []
    {
      if IsValidRegion(Some(request.region)) && ApiKeyResult().IsSuccess() {
        var outcome := http(TrendingHttpRequest(request, ApiKeyResult().value));
        if outcome.Response? && IsSuccessStatusCode(outcome.status) && outcome.body.Parsed? {
          TrendingResponseSuccessIff(outcome.body.document, request.region);
        }
      }
    }

    /** The trending path and a successful answer both carry the upper-cased
        region, so two spellings of one market send the same request. */
    lemma TrendingUpperCasesRegion(request: TrendingRequest, other: TrendingRequest)
      requires ToUpper(request.region) == ToUpper(other.region)
      ensures TrendingSent(request) == TrendingSent(other)
      ensures TrendingOutcome(request).IsSuccess() ==> TrendingOutcome(request).value.region == ToUpper(request.region)
    {
      RegionCaseInsensitive(request.region);
      RegionCaseInsensitive(other.region);
      assert IsValidRegion(Some(request.region)) == IsValidRegion(Some(ToUpper(request.region)));
      assert IsValidRegion(Some(other.region)) == IsValidRegion(Some(ToUpper(other.region)));
      if TrendingOutcome(request).IsSuccess() {
        var outcome := http(TrendingHttpRequest(request, ApiKeyResult().value));
        TrendingResponseContents(outcome.body.document, request.region);
      }
    }
  }
}
