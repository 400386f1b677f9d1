/** The HTTP controller in front of the quote service: the error-code to status
    table, the bulk-quote aggregation, the crypto and currency-exchange symbol
    construction and the mock market summary. */
module Controller {
  import opened Wrappers
  import opened Text
  import opened Results
  import opened Requests
  import opened Json
  import opened Responses
  import Upstream

  // ---- GetStatusCodeFromError ----

  const ValidationCodes: seq<string> := [ValidationRequiredCode, ValidationInvalidCode, ValidationFormatCode]

  /** The codes the table sends somewhere other than 500. */
  const MappedCodes: seq<string> :=
    ValidationCodes + [DataNotFoundCode, NetworkTimeoutCode, NetworkRequestFailedCode,
                       DataParseErrorCode, NetworkConnectionFailedCode]

  /** `GetStatusCodeFromError`: validation is the caller's fault (400), a missing
      resource is 404, a timeout 408, an unusable upstream answer 502, an
      unreachable upstream 503, and anything else, configuration included, 500. */
  function GetStatusCodeFromError(error: Error): (status: int)
    ensures status in [400, 404, 408, 500, 502, 503]
    ensures error.code in ValidationCodes ==> status == 400
    ensures error.code !in MappedCodes ==> status == 500
  {
    var c := error.code;
    if c == ValidationRequiredCode || c == ValidationInvalidCode || c == ValidationFormatCode then 400
    else if c == DataNotFoundCode then 404
    else if c == NetworkTimeoutCode then 408
    else if c == NetworkRequestFailedCode then 502
    else if c == NetworkConnectionFailedCode then 503
    else if c == ConfigMissingApiKeyCode || c == ConfigInvalidCode then 500
    else if c == DataParseErrorCode then 502
    else 500
  }

  /** The status classes: 4xx exactly for validation, a missing resource and a
      timeout; 502 exactly for a failed request or an unparsable answer; 503
      exactly for a failed connection; 500 for everything else. */
  lemma StatusClasses(error: Error)
    ensures 400 <= GetStatusCodeFromError(error) < 500 <==>
            error.code in ValidationCodes || error.code == DataNotFoundCode || error.code == NetworkTimeoutCode
    ensures GetStatusCodeFromError(error) == 502 <==>
            error.code == NetworkRequestFailedCode || error.code == DataParseErrorCode
    ensures GetStatusCodeFromError(error) == 503 <==> error.code == NetworkConnectionFailedCode
    ensures GetStatusCodeFromError(error) == 500 <==> error.code !in MappedCodes
  {
  }

  /** The table entry by entry. */
  lemma CodeStatus(error: Error)
    ensures error.code in ValidationCodes ==> GetStatusCodeFromError(error) == 400
    ensures error.code == DataNotFoundCode ==> GetStatusCodeFromError(error) == 404
    ensures error.code == NetworkTimeoutCode ==> GetStatusCodeFromError(error) == 408
    ensures error.code == NetworkRequestFailedCode || error.code == DataParseErrorCode ==> GetStatusCodeFromError(error) == 502
    ensures error.code == NetworkConnectionFailedCode ==> GetStatusCodeFromError(error) == 503
    ensures error.code == ConfigMissingApiKeyCode || error.code == ConfigInvalidCode ==> GetStatusCodeFromError(error) == 500
  {
  }

  /** Each `DomainErrors` factory lands on its status, whatever its arguments. */
  lemma FactoryStatus(f: string, v: string, n: int)
    ensures GetStatusCodeFromError(Required(f)) == 400 && GetStatusCodeFromError(InvalidValue(f, v)) == 400
    ensures GetStatusCodeFromError(InvalidFormat(f)) == 400 && GetStatusCodeFromError(NotFound(f, v)) == 404
    ensures GetStatusCodeFromError(Timeout()) == 408 && GetStatusCodeFromError(RequestFailed(n)) == 502
    ensures GetStatusCodeFromError(ParseError(f)) == 502 && GetStatusCodeFromError(ConnectionFailed()) == 503
    ensures GetStatusCodeFromError(MissingApiKey()) == 500 && GetStatusCodeFromError(InvalidConfiguration(f)) == 500
  {
    FactoryCodes(f, v, n);
    CodeStatus(Required(f));
    CodeStatus(InvalidValue(f, v));
    CodeStatus(InvalidFormat(f));
    CodeStatus(NotFound(f, v));
    CodeStatus(Timeout());
    CodeStatus(RequestFailed(n));
    CodeStatus(ParseError(f));
    CodeStatus(ConnectionFailed());
    CodeStatus(MissingApiKey());
    CodeStatus(InvalidConfiguration(f));
  }

  /** A failed quote from the upstream client is never reported as 404: the
      client has no not-found path. */
  lemma QuoteFailureStatus(service: Upstream.YahooFinanceService, request: QuoteRequest)
    requires service.QuoteOutcome(request).IsFailure()
    ensures GetStatusCodeFromError(service.QuoteOutcome(request).error) in [400, 408, 500, 502, 503]
  {
    service.QuoteFailureCodes(request);
  }

  /** The body of an error reply: the error's code and message. */
  datatype ErrorDetails = ErrorDetails(code: string, message: string)

  datatype ErrorReply = ErrorReply(status: int, details: ErrorDetails)

  /** `MapErrorToActionResult`: the status from the table and the error itself. */
  function MapErrorToActionResult(error: Error): (r: ErrorReply)
    ensures r.status == GetStatusCodeFromError(error)
    ensures r.details.code == error.code && r.details.message == error.message
  {
    ErrorReply(GetStatusCodeFromError(error), ErrorDetails(error.code, error.message))
  }

  // ---- GetBulkQuotes ----

  datatype QuoteGroup = QuoteGroup(
    groupName: string, quotes: seq<QuoteData>, successCount: int, errorCount: int, errors: seq<string>)

  datatype BulkQuoteResponse = BulkQuoteResponse(
    region: string, language: string, quoteGroups: seq<QuoteGroup>,
    totalSymbols: int, successfulQuotes: int, failedQuotes: int, errors: seq<string>)

  /** The quote request sent for one group: its symbols joined by commas, with the
      bulk request's region and language. */
  function GroupRequest(request: BulkQuoteRequest, group: SymbolGroup): (r: QuoteRequest)
    ensures r.region == request.region && r.language == request.language
  {
    QuoteRequest(Join(",", group.symbols), request.region, request.language)
  }

  /** The global error added for a group whose quote failed. */
  function GroupErrorMessage(groupName: string, message: string): string
  {
    "Group '" + groupName + "': " + message
  }

  /** The service's answer to the request for group `i`: the service is given as
      its answer to each call, numbered in order, so the answer may depend on
      what came before (the cache, the clock). */
  function GroupAnswer(request: BulkQuoteRequest, service: (nat, QuoteRequest) -> Result<QuoteResponse>, i: nat): Result<QuoteResponse>
    requires i < |request.symbolGroups|
  {
    service(i, GroupRequest(request, request.symbolGroups[i]))
  }

  /** The loop's variables. */
  datatype BulkState = BulkState(
    quoteGroups: seq<QuoteGroup>, totalSymbols: int, successfulQuotes: int,
    failedQuotes: int, errors: seq<string>)

  /** The variables after the first `n` groups, following the loop step by step. */
  function BulkStateAfter(request: BulkQuoteRequest, service: (nat, QuoteRequest) -> Result<QuoteResponse>, n: nat): BulkState
    requires n <= |request.symbolGroups|
  {
    if n == 0 then BulkState([], 0, 0, 0, [])
    else
      var s := BulkStateAfter(request, service, n - 1);
      var group := request.symbolGroups[n - 1];
      var size := |group.symbols|;
      var result := GroupAnswer(request, service, n - 1);
      if result.IsSuccess() then
        var got := |result.value.quotes|;
        var errors := if result.value.errorMessage.Some? then [result.value.errorMessage.value] else [];
        BulkState(s.quoteGroups + [QuoteGroup(group.groupName, result.value.quotes, got, size - got, errors)],
                  s.totalSymbols + size, s.successfulQuotes + got, s.failedQuotes + (size - got), s.errors)
      else
        BulkState(s.quoteGroups + [QuoteGroup(group.groupName, [], 0, size, [result.error.message])],
                  s.totalSymbols + size, s.successfulQuotes, s.failedQuotes + size,
                  s.errors + [GroupErrorMessage(group.groupName, result.error.message)])
  }

  /** What `GetBulkQuotes` answers once the request passed model validation. */
  function BulkResponseOf(request: BulkQuoteRequest, service: (nat, QuoteRequest) -> Result<QuoteResponse>): BulkQuoteResponse
  {
    var s := BulkStateAfter(request, service, |request.symbolGroups|);
    BulkQuoteResponse(request.region, request.language, s.quoteGroups,
                      s.totalSymbols, s.successfulQuotes, s.failedQuotes, s.errors)
  }

  /** `GetBulkQuotes`: one quote request per group, in order, and the response
      built from the answers. */
  method GetBulkQuotes(request: BulkQuoteRequest, service: (nat, QuoteRequest) -> Result<QuoteResponse>)
    returns (r: BulkQuoteResponse, sent: seq<QuoteRequest>)
    ensures r == BulkResponseOf(request, service)
    ensures |sent| == |request.symbolGroups|
    ensures forall i :: 0 <= i < |sent| ==> sent[i] == GroupRequest(request, request.symbolGroups[i])
  {
    var quoteGroups: seq<QuoteGroup> := [];
    var totalSymbols := 0;
    var successfulQuotes := 0;
    var failedQuotes := 0;
    var globalErrors: seq<string> := [];
    sent := [];
    var i := 0;
    while i < |request.symbolGroups|
      invariant 0 <= i <= |request.symbolGroups|
      invariant BulkState(quoteGroups, totalSymbols, successfulQuotes, failedQuotes, globalErrors)
                == BulkStateAfter(request, service, i)
      invariant |sent| == i
      invariant forall k :: 0 <= k < i ==> sent[k] == GroupRequest(request, request.symbolGroups[k])
    {
      var symbolGroup := request.symbolGroups[i];
      totalSymbols := totalSymbols + |symbolGroup.symbols|;
      var quoteRequest := QuoteRequest(Join(",", symbolGroup.symbols), request.region, request.language);
      sent := sent + [quoteRequest];
      var result := service(i, quoteRequest);
      assert result == GroupAnswer(request, service, i);
      if result.IsSuccess() {
        var groupQuotes := result.value.quotes;
        successfulQuotes := successfulQuotes + |groupQuotes|;
        failedQuotes := failedQuotes + (|symbolGroup.symbols| - |groupQuotes|);
        var errors := if result.value.errorMessage.Some? then [result.value.errorMessage.value] else [];
        quoteGroups := quoteGroups + [QuoteGroup(symbolGroup.groupName, groupQuotes, |groupQuotes|,
                                                 |symbolGroup.symbols| - |groupQuotes|, errors)];
      } else {
        failedQuotes := failedQuotes + |symbolGroup.symbols|;
        globalErrors := globalErrors + [GroupErrorMessage(symbolGroup.groupName, result.error.message)];
        quoteGroups := quoteGroups + [QuoteGroup(symbolGroup.groupName, [], 0, |symbolGroup.symbols|,
                                                 [result.error.message])];
      }
      assert BulkState(quoteGroups, totalSymbols, successfulQuotes, failedQuotes, globalErrors)
             == BulkStateAfter(request, service, i + 1);
      i := i + 1;
    }
    r := BulkQuoteResponse(request.region, request.language, quoteGroups,
                           totalSymbols, successfulQuotes, failedQuotes, globalErrors);
  }

  /** How a group reports its answer: a failure gives no quotes, no successes,
      the whole group as errors and the error message; a success gives the
      quotes, their number, the rest of the group as errors and the upstream
      message when there is one. Successes and errors add up to the group. */
  predicate GroupReports(g: QuoteGroup, group: SymbolGroup, result: Result<QuoteResponse>)
  {
    && g.groupName == group.groupName
    && g.successCount + g.errorCount == |group.symbols|
    && (result.IsFailure() ==>
          g.quotes == [] && g.successCount == 0 && g.errors == [result.error.message])
    && (result.IsSuccess() ==>
          g.quotes == result.value.quotes && g.successCount == |result.value.quotes|
          && g.errors == (if result.value.errorMessage.Some? then [result.value.errorMessage.value] else []))
  }

  /** The number of symbols in the groups. */
  function SymbolCount(groups: seq<SymbolGroup>): nat
  {
    if |groups| == 0 then 0 else |groups[0].symbols| + SymbolCount(groups[1..])
  }

  lemma {:induction false} SymbolCountSnoc(groups: seq<SymbolGroup>, g: SymbolGroup)
    ensures SymbolCount(groups + [g]) == SymbolCount(groups) + |g.symbols|
    decreases |groups|
  {
    if |groups| == 0 {
      assert groups + [g] == [g];
    } else {
      assert (groups + [g])[1..] == groups[1..] + [g];
      SymbolCountSnoc(groups[1..], g);
    }
  }

  /** The successes of a list of groups, added up. */
  function SuccessSum(gs: seq<QuoteGroup>): int
  {
    if |gs| == 0 then 0 else gs[0].successCount + SuccessSum(gs[1..])
  }

  /** The number of groups among the first `n` whose quote failed. */
  function FailureCount(request: BulkQuoteRequest, service: (nat, QuoteRequest) -> Result<QuoteResponse>, n: nat): nat
    requires n <= |request.symbolGroups|
  {
    if n == 0 then 0
    else FailureCount(request, service, n - 1) + (if GroupAnswer(request, service, n - 1).IsFailure() then 1 else 0)
  }

  /** One step of the loop: the group it appends reports its answer, and each
      counter grows by that group's share. */
  lemma BulkStep(request: BulkQuoteRequest, service: (nat, QuoteRequest) -> Result<QuoteResponse>, n: nat)
    requires 0 < n <= |request.symbolGroups|
    ensures var s := BulkStateAfter(request, service, n - 1);
      var t := BulkStateAfter(request, service, n);
      var g := t.quoteGroups[|t.quoteGroups| - 1];
      && |t.quoteGroups| == |s.quoteGroups| + 1
      && t.quoteGroups == s.quoteGroups + [g]
      && GroupReports(g, request.symbolGroups[n - 1], GroupAnswer(request, service, n - 1))
      && t.totalSymbols == s.totalSymbols + |request.symbolGroups[n - 1].symbols|
      && t.successfulQuotes == s.successfulQuotes + g.successCount
      && t.failedQuotes == s.failedQuotes + g.errorCount
      && |t.errors| == |s.errors| + (if GroupAnswer(request, service, n - 1).IsFailure() then 1 else 0)
  {
  }

  /** After `n` groups: one reported group per input group, in order. */
  lemma {:induction false} BulkGroupsInvariant(request: BulkQuoteRequest, service: (nat, QuoteRequest) -> Result<QuoteResponse>, n: nat)
    requires n <= |request.symbolGroups|
    ensures var gs := BulkStateAfter(request, service, n).quoteGroups;
      && |gs| == n
      && forall i :: 0 <= i < n ==> GroupReports(gs[i], request.symbolGroups[i], GroupAnswer(request, service, i))
  {
    if n > 0 {
      BulkGroupsInvariant(request, service, n - 1);
      BulkStep(request, service, n);
      var before := BulkStateAfter(request, service, n - 1).quoteGroups;
      var gs := BulkStateAfter(request, service, n).quoteGroups;
      assert gs == before + [gs[n - 1]];
      forall i | 0 <= i < n
        ensures GroupReports(gs[i], request.symbolGroups[i], GroupAnswer(request, service, i))
      {
        if i < n - 1 {
          assert gs[i] == before[i];
        }
      }
    }
  }

  /** After `n` groups the total is the number of their symbols. */
  lemma {:induction false} BulkTotalInvariant(request: BulkQuoteRequest, service: (nat, QuoteRequest) -> Result<QuoteResponse>, n: nat)
    requires n <= |request.symbolGroups|
    ensures BulkStateAfter(request, service, n).totalSymbols == SymbolCount(request.symbolGroups[..n])
  {
    if n > 0 {
      BulkTotalInvariant(request, service, n - 1);
      BulkStep(request, service, n);
      var groups := request.symbolGroups;
      assert groups[..n] == groups[..n - 1] + [groups[n - 1]];
      SymbolCountSnoc(groups[..n - 1], groups[n - 1]);
    }
  }

  /** After `n` groups the successes are the groups' successes and, with the
      failures, make up the total; and there is one global error per failed
      group. */
  lemma BulkCountsInvariant(request: BulkQuoteRequest, service: (nat, QuoteRequest) -> Result<QuoteResponse>, n: nat)
    requires n <= |request.symbolGroups|
    ensures var s := BulkStateAfter(request, service, n);
      && s.successfulQuotes == SuccessSum(s.quoteGroups)
      && s.successfulQuotes + s.failedQuotes == s.totalSymbols
      && |s.errors| == FailureCount(request, service, n)
  {
    BulkSuccessInvariant(request, service, n);
    BulkTallyInvariant(request, service, n);
    BulkErrorCountInvariant(request, service, n);
  }

  lemma {:induction false} BulkSuccessInvariant(request: BulkQuoteRequest, service: (nat, QuoteRequest) -> Result<QuoteResponse>, n: nat)
    requires n <= |request.symbolGroups|
    ensures BulkStateAfter(request, service, n).successfulQuotes == SuccessSum(BulkStateAfter(request, service, n).quoteGroups)
  {
    if n > 0 {
      BulkSuccessInvariant(request, service, n - 1);
      var g := BulkSuccessStep(request, service, n);
      var s := BulkStateAfter(request, service, n - 1);
      SuccessSumSnoc(s.quoteGroups, g);
    }
  }

  /** One step appends a group and adds its successes, and nothing else. */
  lemma BulkSuccessStep(request: BulkQuoteRequest, service: (nat, QuoteRequest) -> Result<QuoteResponse>, n: nat)
    returns (g: QuoteGroup)
    requires 0 < n <= |request.symbolGroups|
    ensures var s := BulkStateAfter(request, service, n - 1);
      var t := BulkStateAfter(request, service, n);
      && t.quoteGroups == s.quoteGroups + [g]
      && t.successfulQuotes == s.successfulQuotes + g.successCount
  {
    var t := BulkStateAfter(request, service, n);
    g := t.quoteGroups[|t.quoteGroups| - 1];
  }

  lemma {:induction false} SuccessSumSnoc(gs: seq<QuoteGroup>, g: QuoteGroup)
    ensures SuccessSum(gs + [g]) == SuccessSum(gs) + g.successCount
    decreases |gs|
  {
    if |gs| == 0 {
      assert gs + [g] == [g];
    } else {
      assert (gs + [g])[1..] == gs[1..] + [g];
      SuccessSumSnoc(gs[1..], g);
    }
  }

  lemma {:induction false} BulkTallyInvariant(request: BulkQuoteRequest, service: (nat, QuoteRequest) -> Result<QuoteResponse>, n: nat)
    requires n <= |request.symbolGroups|
    ensures var s := BulkStateAfter(request, service, n);
      s.successfulQuotes + s.failedQuotes == s.totalSymbols
  {
    if n > 0 {
      BulkTallyInvariant(request, service, n - 1);
    }
  }

  lemma {:induction false} BulkErrorCountInvariant(request: BulkQuoteRequest, service: (nat, QuoteRequest) -> Result<QuoteResponse>, n: nat)
    requires n <= |request.symbolGroups|
    ensures |BulkStateAfter(request, service, n).errors| == FailureCount(request, service, n)
  {
    if n > 0 {
      BulkErrorCountInvariant(request, service, n - 1);
    }
  }

  /** The global error of each failed group among groups `lo` to `n - 1`, in
      group order. */
  function FailedGroupErrors(request: BulkQuoteRequest, service: (nat, QuoteRequest) -> Result<QuoteResponse>, lo: nat, n: nat): seq<string>
    requires lo <= n <= |request.symbolGroups|
    decreases n - lo
  {
    if lo == n then []
    else
      var result := GroupAnswer(request, service, lo);
      (if result.IsFailure() then [GroupErrorMessage(request.symbolGroups[lo].groupName, result.error.message)] else [])
      + FailedGroupErrors(request, service, lo + 1, n)
  }

  /** Taking one more group adds its error, if any, at the end. */
  lemma {:induction false} FailedGroupErrorsSnoc(request: BulkQuoteRequest, service: (nat, QuoteRequest) -> Result<QuoteResponse>, lo: nat, n: nat)
    requires lo < n <= |request.symbolGroups|
    ensures var result := GroupAnswer(request, service, n - 1);
      FailedGroupErrors(request, service, lo, n)
      == FailedGroupErrors(request, service, lo, n - 1)
         + (if result.IsFailure() then [GroupErrorMessage(request.symbolGroups[n - 1].groupName, result.error.message)] else [])
    decreases n - lo
  {
    if lo < n - 1 {
      FailedGroupErrorsSnoc(request, service, lo + 1, n);
    }
  }

  /** After `n` groups the global errors are exactly the failed groups' errors,
      in group order. */
  lemma {:induction false} BulkErrorsInOrder(request: BulkQuoteRequest, service: (nat, QuoteRequest) -> Result<QuoteResponse>, n: nat)
    requires n <= |request.symbolGroups|
    ensures BulkStateAfter(request, service, n).errors == FailedGroupErrors(request, service, 0, n)
  {
    if n > 0 {
      BulkErrorsInOrder(request, service, n - 1);
      FailedGroupErrorsSnoc(request, service, 0, n);
    }
  }

  /** The bulk response lists one `"Group '<name>': <message>"` per failed group,
      in the order of the groups. */
  lemma BulkResponseErrors(request: BulkQuoteRequest, service: (nat, QuoteRequest) -> Result<QuoteResponse>)
    ensures BulkResponseOf(request, service).errors == FailedGroupErrors(request, service, 0, |request.symbolGroups|)
  {
    BulkErrorsInOrder(request, service, |request.symbolGroups|);
  }

  /** After `n` groups, both invariants together. */
  lemma BulkStateInvariant(request: BulkQuoteRequest, service: (nat, QuoteRequest) -> Result<QuoteResponse>, n: nat)
    requires n <= |request.symbolGroups|
    ensures var s := BulkStateAfter(request, service, n);
      && |s.quoteGroups| == n
      && (forall i :: 0 <= i < n ==>
            GroupReports(s.quoteGroups[i], request.symbolGroups[i], GroupAnswer(request, service, i)))
      && s.totalSymbols == SymbolCount(request.symbolGroups[..n])
      && s.successfulQuotes == SuccessSum(s.quoteGroups)
      && s.successfulQuotes + s.failedQuotes == s.totalSymbols
      && |s.errors| == FailureCount(request, service, n)
  {
    BulkGroupsInvariant(request, service, n);
    BulkTotalInvariant(request, service, n);
    BulkCountsInvariant(request, service, n);
  }

  /** The bulk response, for every request and every sequence of answers: its
      groups match the input groups one for one and in order, the total counts
      every symbol, successes and failures add up to the total, and the global
      errors are one per failed group, none when every group succeeded. */
  lemma BulkResponseShape(request: BulkQuoteRequest, service: (nat, QuoteRequest) -> Result<QuoteResponse>)
    ensures var r := BulkResponseOf(request, service);
      && r.region == request.region && r.language == request.language
      && |r.quoteGroups| == |request.symbolGroups|
      && (forall i :: 0 <= i < |r.quoteGroups| ==>
            GroupReports(r.quoteGroups[i], request.symbolGroups[i], GroupAnswer(request, service, i)))
      && r.totalSymbols == SymbolCount(request.symbolGroups)
      && r.successfulQuotes == SuccessSum(r.quoteGroups)
      && r.successfulQuotes + r.failedQuotes == r.totalSymbols
      && |r.errors| == FailureCount(request, service, |request.symbolGroups|)
  {
    BulkStateInvariant(request, service, |request.symbolGroups|);
    assert request.symbolGroups[..|request.symbolGroups|] == request.symbolGroups;
  }

  /** Every global error after `n` groups names a group among them whose quote
      failed, with that failure's message. */
  lemma {:induction false} BulkErrorsNamed(request: BulkQuoteRequest, service: (nat, QuoteRequest) -> Result<QuoteResponse>, n: nat)
    requires n <= |request.symbolGroups|
    ensures var errors := BulkStateAfter(request, service, n).errors;
      forall k :: 0 <= k < |errors| ==>
        exists i :: 0 <= i < n && GroupAnswer(request, service, i).IsFailure()
                    && errors[k] == GroupErrorMessage(request.symbolGroups[i].groupName,
                                                      GroupAnswer(request, service, i).error.message)
  {
    if n > 0 {
      BulkErrorsNamed(request, service, n - 1);
      var before := BulkStateAfter(request, service, n - 1).errors;
      var errors := BulkStateAfter(request, service, n).errors;
      var last := GroupAnswer(request, service, n - 1);
      assert errors == if last.IsFailure()
        then before + [GroupErrorMessage(request.symbolGroups[n - 1].groupName, last.error.message)]
        else before;
      forall k | 0 <= k < |errors|
        ensures exists i :: 0 <= i < n && GroupAnswer(request, service, i).IsFailure()
                            && errors[k] == GroupErrorMessage(request.symbolGroups[i].groupName,
                                                              GroupAnswer(request, service, i).error.message)
      {
        if k < |before| {
          assert errors[k] == before[k];
          assert k < |BulkStateAfter(request, service, n - 1).errors|;
          var i :| 0 <= i < n - 1 && GroupAnswer(request, service, i).IsFailure()
                   && before[k] == GroupErrorMessage(request.symbolGroups[i].groupName,
                                                     GroupAnswer(request, service, i).error.message);
        } else {
          assert last.IsFailure() && errors[k] == GroupErrorMessage(request.symbolGroups[n - 1].groupName, last.error.message);
        }
      }
    }
  }

  /** No group among the first `n` failed exactly when every one succeeded. */
  lemma {:induction false} FailureCountZeroIff(request: BulkQuoteRequest, service: (nat, QuoteRequest) -> Result<QuoteResponse>, n: nat)
    requires n <= |request.symbolGroups|
    ensures FailureCount(request, service, n) == 0 <==> forall i :: 0 <= i < n ==> GroupAnswer(request, service, i).IsSuccess()
  {
    if n > 0 {
      FailureCountZeroIff(request, service, n - 1);
    }
  }

  /** Every global error names a group whose quote failed, with that failure's
      message, and there are none exactly when every group succeeded. */
  lemma BulkErrorsNameFailedGroups(request: BulkQuoteRequest, service: (nat, QuoteRequest) -> Result<QuoteResponse>, n: nat)
    requires n <= |request.symbolGroups|
    ensures var errors := BulkStateAfter(request, service, n).errors;
      && (forall k :: 0 <= k < |errors| ==>
            exists i :: 0 <= i < n && GroupAnswer(request, service, i).IsFailure()
                        && errors[k] == GroupErrorMessage(request.symbolGroups[i].groupName,
                                                          GroupAnswer(request, service, i).error.message))
      && (errors == [] <==> forall i :: 0 <= i < n ==> GroupAnswer(request, service, i).IsSuccess())
  {
    BulkErrorsNamed(request, service, n);
    BulkCountsInvariant(request, service, n);
    FailureCountZeroIff(request, service, n);
  }

  // ---- Crypto and currency-exchange symbols ----

  const UsdSuffix := "-USD"

  /** A crypto symbol in the upstream's form: kept when it already ends in
      "-USD", otherwise suffixed with "-" and the requested currency. */
  function CryptoSymbol(symbol: string, currency: string): (r: string)
    ensures EndsWith(r, UsdSuffix) || EndsWith(r, "-" + currency)
    ensures r != ""
    ensures |symbol| <= |r|
    ensures r[..|symbol|] == symbol
    ensures EndsWith(symbol, UsdSuffix) ==> r == symbol
    ensures !EndsWith(symbol, UsdSuffix) ==> |r| == |symbol| + 1 + |currency| && r[|symbol|..] == "-" + currency
  {
    if EndsWith(symbol, UsdSuffix) then symbol
    else
      var r := symbol + "-" + currency;
      assert r[|r| - |"-" + currency|..] == "-" + currency;
      r
  }

  /** The suffixing is idempotent for dollars but not for any other currency: a
      symbol already in euros is suffixed again. */
  lemma CryptoSymbolSuffix(symbol: string)
    ensures CryptoSymbol(CryptoSymbol(symbol, "USD"), "USD") == CryptoSymbol(symbol, "USD")
    ensures CryptoSymbol("BTC-EUR", "EUR") == "BTC-EUR-EUR"
    ensures CryptoSymbol("BTC-USD", "EUR") == "BTC-USD"
  {
    var r := CryptoSymbol(symbol, "USD");
    if !EndsWith(symbol, UsdSuffix) {
      assert r == symbol + UsdSuffix;
      assert r[|r| - 4..] == UsdSuffix;
    }
    assert !EndsWith("BTC-EUR", UsdSuffix) by {
      assert "BTC-EUR"[3..] != UsdSuffix;
    }
    assert EndsWith("BTC-USD", UsdSuffix) by {
      assert "BTC-USD"[3..] == UsdSuffix;
    }
  }

  function CryptoSymbols(symbols: seq<string>, currency: string): (r: seq<string>)
    ensures |r| == |symbols|
    ensures forall i :: 0 <= i < |r| ==> r[i] == CryptoSymbol(symbols[i], currency)
  {
    seq(|symbols|, i requires 0 <= i < |symbols| => CryptoSymbol(symbols[i], currency))
  }

  /** `GetCrypto` after model validation: nothing when the symbol list is
      malformed (a bad request), otherwise the quote request for the crypto
      symbols in the US market, in English. */
  function CryptoQuoteRequest(request: CryptoRequest): (r: Option<QuoteRequest>)
    ensures r.None? <==> !HasValidSymbolFormat(request.symbols)
    ensures r.Some? ==> r.value.region == DefaultRegion && r.value.language == DefaultLanguage
  {
    if !HasValidSymbolFormat(request.symbols) then None
    else Some(QuoteRequest(Join(",", CryptoSymbols(GetSymbolsArray(request.symbols), request.currency)),
                           DefaultRegion, DefaultLanguage))
  }

  /** With a currency free of commas, the forwarded list splits back into exactly
      one crypto symbol per requested symbol, in order, none of them empty, even
      for a white-space piece, which becomes "-" and the currency. */
  lemma CryptoForwardsEachSymbol(request: CryptoRequest)
    requires HasValidSymbolFormat(request.symbols)
    requires ',' !in request.currency
    ensures var xs := CryptoSymbols(GetSymbolsArray(request.symbols), request.currency);
      && Pieces(CryptoQuoteRequest(request).value.symbols) == xs
      && |xs| == |GetSymbolsArray(request.symbols)|
  {
    var ys := GetSymbolsArray(request.symbols);
    var xs := CryptoSymbols(ys, request.currency);
    SymbolsArrayShape(request.symbols);
    forall i | 0 <= i < |xs|
      ensures xs[i] != "" && ',' !in xs[i]
    {
      var y := ys[i];
      assert ',' !in y;
      if !EndsWith(y, UsdSuffix) {
        assert xs[i] == y + "-" + request.currency;
        assert ',' !in "-" + request.currency;
      }
    }
    assert "," == [','];
    SplitJoin(xs, ',');
  }

  /** The currency pair as the controller normalises it: upper-cased, a missing
      code becoming empty. */
  function CurrencyExchangeRequestOf(fromCurrency: Option<string>, toCurrency: Option<string>): (r: CurrencyExchangeRequest)
    ensures |r.fromCurrency| == (if fromCurrency.Some? then |fromCurrency.value| else 0)
    ensures |r.toCurrency| == (if toCurrency.Some? then |toCurrency.value| else 0)
    ensures fromCurrency.Some? ==> forall i :: 0 <= i < |r.fromCurrency| ==> r.fromCurrency[i] == UpperChar(fromCurrency.value[i])
    ensures toCurrency.Some? ==> forall i :: 0 <= i < |r.toCurrency| ==> r.toCurrency[i] == UpperChar(toCurrency.value[i])
  {
    CurrencyExchangeRequest(
      if fromCurrency.Some? then ToUpper(fromCurrency.value) else "",
      if toCurrency.Some? then ToUpper(toCurrency.value) else "")
  }

  const ExchangeSuffix := "=X"

  /** The upstream symbol of a currency pair: the two codes followed by "=X". */
  function ExchangeSymbol(request: CurrencyExchangeRequest): (r: string)
    ensures EndsWith(r, ExchangeSuffix)
    ensures |r| == |request.fromCurrency| + |request.toCurrency| + 2
    ensures r[..|request.fromCurrency|] == request.fromCurrency
    ensures r[|request.fromCurrency|..|request.fromCurrency| + |request.toCurrency|] == request.toCurrency
  {
    var r := request.fromCurrency + request.toCurrency + ExchangeSuffix;
    assert r[|r| - 2..] == ExchangeSuffix;
    r
  }

  /** The quote request `GetCurrencyExchange` sends for a pair. */
  function ExchangeQuoteRequest(request: CurrencyExchangeRequest): (r: QuoteRequest)
    ensures r.symbols == ExchangeSymbol(request)
    ensures r.region == DefaultRegion && r.language == DefaultLanguage
  {
    QuoteRequest(ExchangeSymbol(request), DefaultRegion, DefaultLanguage)
  }

  /** Both codes, of any length, can be read back from the symbol, upper-cased,
      and the letter case the caller used makes no difference. */
  lemma ExchangeSymbolParts(fromCurrency: string, toCurrency: string)
    ensures var s := ExchangeSymbol(CurrencyExchangeRequestOf(Some(fromCurrency), Some(toCurrency)));
      var f := |ToUpper(fromCurrency)|;
      var t := |ToUpper(toCurrency)|;
      && |s| == f + t + 2
      && s[..f] == ToUpper(fromCurrency) && s[f..f + t] == ToUpper(toCurrency) && s[f + t..] == ExchangeSuffix
    ensures CurrencyExchangeRequestOf(Some(ToLower(fromCurrency)), Some(ToLower(toCurrency)))
            == CurrencyExchangeRequestOf(Some(fromCurrency), Some(toCurrency))
  {
    var s := ExchangeSymbol(CurrencyExchangeRequestOf(Some(fromCurrency), Some(toCurrency)));
    assert s == ToUpper(fromCurrency) + ToUpper(toCurrency) + ExchangeSuffix;
    assert ToUpper(ToLower(fromCurrency)) == ToUpper(fromCurrency);
    assert ToUpper(ToLower(toCurrency)) == ToUpper(toCurrency);
  }

  // ---- CreateMockMarketSummary ----

  datatype MarketIndex = MarketIndex(
    symbol: string, name: string, price: Number, change: Number, changePercent: Number,
    currency: string, marketState: string, marketTime: int)

  datatype MarketSector = MarketSector(name: string, performance: Number, changePercent: Number, topStocks: seq<string>)

  datatype MarketSummaryResponse = MarketSummaryResponse(
    region: string, language: string, indices: seq<MarketIndex>, sectors: seq<MarketSector>)

  /** `CreateMockMarketSummary`: a fixed summary whose single index is the S&P 500
      in dollars for the US and the FTSE 100 in pounds for every other region;
      `now` is the clock in seconds. */
  function CreateMockMarketSummary(region: string, language: string, now: int): (r: MarketSummaryResponse)
    ensures r.region == ToUpper(region) && r.language == language
    ensures |r.indices| == 1 && |r.sectors| == 2
    ensures r.indices[0].marketState == "REGULAR" && r.indices[0].marketTime == now
  {
    var us := ToUpper(region) == "US";
    MarketSummaryResponse(
      ToUpper(region), language,
      [MarketIndex(if us then "^GSPC" else "^FTSE", if us then "S&P 500" else "FTSE 100",
                   Number(450050, 2), Number(2575, 2), Number(58, 2),
                   if us then "USD" else "GBP", "REGULAR", now)],
      [MarketSector("Technology", Number(21, 1), Number(195, 2), ["AAPL", "GOOGL", "MSFT"]),
       MarketSector("Healthcare", Number(8, 1), Number(75, 2), ["JNJ", "PFE", "UNH"])])
  }

  /** The index is the S&P 500 exactly when the region upper-cases to "US", and
      the region's letter case changes nothing. */
  lemma MockSummaryByRegion(region: string, language: string, now: int)
    ensures var idx := CreateMockMarketSummary(region, language, now).indices[0];
      && (idx.symbol == "^GSPC" <==> ToUpper(region) == "US")
      && (ToUpper(region) == "US" ==> idx.name == "S&P 500" && idx.currency == "USD")
      && (ToUpper(region) != "US" ==> idx.symbol == "^FTSE" && idx.name == "FTSE 100" && idx.currency == "GBP")
    ensures CreateMockMarketSummary(ToLower(region), language, now) == CreateMockMarketSummary(region, language, now)
  {
    assert ToUpper(ToLower(region)) == ToUpper(region);
  }

  /** `GetMarketSummary`: a missing region becomes empty and a missing language
      English, then the mock summary. */
  function GetMarketSummary(region: Option<string>, lang: Option<string>, now: int): (r: MarketSummaryResponse)
    ensures r.language == lang.GetOr(DefaultLanguage)
    ensures |r.indices| == 1
    ensures region.None? ==> r.indices[0].symbol == "^FTSE"
  {
    CreateMockMarketSummary(region.GetOr(""), lang.GetOr(DefaultLanguage), now)
  }
}
