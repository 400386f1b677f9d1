/** `YahooFinanceMapper`: from a parsed JSON document to `QuoteResponse` and
    `TrendingResponse`. The two response mappers are loops over the `result`
    arrays, proved against the functions `QuoteResponseOf` and `TrendingResponseOf`;
    the element mappers and the `GetOptional*` helpers are pure lookups. */
module Mapper {
  import opened Wrappers
  import opened Text
  import opened Json
  import opened Results
  import opened Responses

  const MissingQuoteResponseMessage := "Missing quoteResponse in API response"
  const MissingFinanceMessage := "Missing finance element in API response"
  /** The text a caught exception's message is prefixed with. */
  const QuoteMapFailurePrefix := "Failed to map quote response: "
  const TrendingMapFailurePrefix := "Failed to map trending response: "

  // ---- GetOptional* ----

  /** `GetOptionalDecimal`: a value only when the member exists, is a number and
      reads as a `decimal`, which rounds it as `DecimalOf` says. */
  function GetOptionalDecimal(members: seq<Member>, name: string): (r: Option<Number>)
    ensures r.Some? <==> exists n :: Property(members, name) == Some(JNumber(n)) && DecimalOf(n).Some?
    ensures forall n :: Property(members, name) == Some(JNumber(n)) ==> r == DecimalOf(n)
  {
    match Property(members, name)
    case Some(JNumber(n)) => DecimalOf(n)
    case _ => None
  }

  /** `GetOptionalLong`: a value only when the member exists and is an integer
      literal within 64 bits. */
  function GetOptionalLong(members: seq<Member>, name: string): (r: Option<int>)
    ensures r.Some? ==> exists n :: Property(members, name) == Some(JNumber(n)) && IsInt64(n) && n.mantissa == r.value
    ensures r.None? ==> forall n :: Property(members, name) == Some(JNumber(n)) ==> !IsInt64(n)
  {
    match Property(members, name)
    case Some(JNumber(n)) => if IsInt64(n) then Some(n.mantissa) else None
    case _ => None
  }

  /** `GetOptionalString`: a value exactly when the member exists and is a string. */
  function GetOptionalString(members: seq<Member>, name: string): (r: Option<string>)
    ensures forall s :: r == Some(s) <==> Property(members, name) == Some(JString(s))
  {
    match Property(members, name)
    case Some(JString(s)) => Some(s)
    case _ => None
  }

  /** The optional fields named by three tables, read from one object. */
  function PayloadOf(members: seq<Member>, decimals: seq<string>, longs: seq<string>, strings: seq<string>): (p: Payload)
    ensures Fits(p, decimals, longs, strings)
    ensures forall i :: 0 <= i < |decimals| ==> p.decimals[i] == GetOptionalDecimal(members, decimals[i])
    ensures forall i :: 0 <= i < |longs| ==> p.longs[i] == GetOptionalLong(members, longs[i])
    ensures forall i :: 0 <= i < |strings| ==> p.strings[i] == GetOptionalString(members, strings[i])
  {
    Payload(
      seq(|decimals|, i requires 0 <= i < |decimals| => GetOptionalDecimal(members, decimals[i])),
      seq(|longs|, i requires 0 <= i < |longs| => GetOptionalLong(members, longs[i])),
      seq(|strings|, i requires 0 <= i < |strings| => GetOptionalString(members, strings[i])))
  }

  /** The non-empty string symbol of an element, when it has one. */
  predicate HasSymbol(e: Json)
  {
    e.JObject? && match Property(e.members, "symbol")
                  case Some(JString(s)) => s != ""
                  case _ => false
  }

  // ---- MapToQuoteData / MapToTrendingStock ----

  /** `MapToQuoteData`: an element is kept exactly when it is an object whose
      `symbol` is a non-empty string; a non-object, a missing, null, non-string or
      empty symbol all drop it. */
  function MapToQuoteData(e: Json): (r: Option<QuoteData>)
    ensures r.Some? <==> HasSymbol(e)
    ensures r.Some? ==> Property(e.members, "symbol") == Some(JString(r.value.symbol)) && r.value.symbol != ""
    ensures r.Some? ==> r.value.regularMarketTime == GetOptionalLong(e.members, "regularMarketTime")
                        && Fits(r.value.payload, QuoteDecimalFields, QuoteLongFields, QuoteStringFields)
    ensures r.Some? ==> r.value.payload == PayloadOf(e.members, QuoteDecimalFields, QuoteLongFields, QuoteStringFields)
  {
    if !e.JObject? then None
    else match Property(e.members, "symbol")
      case Some(JString(s)) =>
        if s == "" then None
        else Some(QuoteData(s, GetOptionalLong(e.members, "regularMarketTime"),
                            PayloadOf(e.members, QuoteDecimalFields, QuoteLongFields, QuoteStringFields)))
      case _ => None
  }

  /** `MapToTrendingStock`: the same rule for trending elements. */
  function MapToTrendingStock(e: Json): (r: Option<TrendingStock>)
    ensures r.Some? <==> HasSymbol(e)
    ensures r.Some? ==> Property(e.members, "symbol") == Some(JString(r.value.symbol)) && r.value.symbol != ""
    ensures r.Some? ==> Fits(r.value.payload, TrendingDecimalFields, [], TrendingStringFields)
    ensures r.Some? ==> r.value.payload == PayloadOf(e.members, TrendingDecimalFields, [], TrendingStringFields)
  {
    if !e.JObject? then None
    else match Property(e.members, "symbol")
      case Some(JString(s)) =>
        if s == "" then None
        else Some(TrendingStock(s, PayloadOf(e.members, TrendingDecimalFields, [], TrendingStringFields)))
      case _ => None
  }

  /** The kept quotes of a `result` array, in array order. */
  function QuotesOf(items: seq<Json>): (r: seq<QuoteData>)
    ensures |r| <= |items|
  {
    if |items| == 0 then []
    else
      var last := items[|items| - 1];
      var rest := QuotesOf(items[..|items| - 1]);
      rest + (match MapToQuoteData(last) case Some(q) => [q] case None => [])
  }

  /** The kept trending stocks of a `quotes` array, in array order. */
  function StocksOf(items: seq<Json>): (r: seq<TrendingStock>)
    ensures |r| <= |items|
  {
    if |items| == 0 then []
    else
      var last := items[|items| - 1];
      var rest := StocksOf(items[..|items| - 1]);
      rest + (match MapToTrendingStock(last) case Some(s) => [s] case None => [])
  }

  /** Dropping and mapping commute with concatenation: the kept quotes keep array order. */
  lemma {:induction false} QuotesOfAppend(a: seq<Json>, b: seq<Json>)
    ensures QuotesOf(a + b) == QuotesOf(a) + QuotesOf(b)
    decreases |b|
  {
    if |b| == 0 {
      assert a + b == a;
    } else {
      var b' := b[..|b| - 1];
      assert (a + b)[..|a + b| - 1] == a + b';
      QuotesOfAppend(a, b');
    }
  }

  /** One element contributes its mapped quote, or nothing. */
  lemma QuotesOfSingle(e: Json)
    ensures QuotesOf([e]) == if HasSymbol(e) then [MapToQuoteData(e).value] else []
  {
    assert [e][..0] == [];
  }

  lemma {:induction false} StocksOfAppend(a: seq<Json>, b: seq<Json>)
    ensures StocksOf(a + b) == StocksOf(a) + StocksOf(b)
    decreases |b|
  {
    if |b| == 0 {
      assert a + b == a;
    } else {
      var b' := b[..|b| - 1];
      assert (a + b)[..|a + b| - 1] == a + b';
      StocksOfAppend(a, b');
    }
  }

  // ---- MapToQuoteResponse ----

  /** The `error` member: absent or null gives no message; a string gives its text;
      any other kind makes `GetString` throw. */
  function ErrorMessageOf(members: seq<Member>): (r: Outcome<Option<string>>)
    ensures r.Returned? <==> Property(members, "error").None? || Property(members, "error").value.JNull?
                             || Property(members, "error").value.JString?
    ensures r.Returned? ==> (r.value.Some? <==> Property(members, "error").Some? && !Property(members, "error").value.JNull?)
    ensures r.Returned? && r.value.Some? ==> Property(members, "error") == Some(JString(r.value.value))
  {
    match Property(members, "error")
    case None => Returned(None)
    case Some(JNull) => Returned(None)
    case Some(v) => GetString(v)
  }

  /** The array under `result`, or nothing when it is absent or not an array. */
  function ResultItems(members: seq<Member>): seq<Json>
  {
    match Property(members, "result")
    case Some(JArray(items)) => items
    case _ => []
  }

  /** What `MapToQuoteResponse` returns for a parsed document. */
  function QuoteResponseOf(root: Json, symbols: seq<string>, region: string, language: string): Result<QuoteResponse>
  {
    if !root.JObject? then Failure(ParseError(QuoteMapFailurePrefix + WrongKind("Object", root)))
    else match Property(root.members, "quoteResponse")
      case None => Failure(ParseError(MissingQuoteResponseMessage))
      case Some(qr) =>
        if !qr.JObject? then Failure(ParseError(QuoteMapFailurePrefix + WrongKind("Object", qr)))
        else
          var quotes := QuotesOf(ResultItems(qr.members));
          match ErrorMessageOf(qr.members)
          case Threw(m) => Failure(ParseError(QuoteMapFailurePrefix + m))
          case Returned(message) => Success(QuoteResponse(symbols, region, language, quotes, message))
  }

  /** The loop of `MapToQuoteResponse` over the `result` array. */
  method CollectQuotes(items: seq<Json>) returns (quotes: seq<QuoteData>)
    ensures quotes == QuotesOf(items)
  {
    quotes := [];
    var i := 0;
    while i < |items|
      invariant 0 <= i <= |items|
      invariant quotes == QuotesOf(items[..i])
    {
      assert items[..i + 1][..i] == items[..i];
      var q := MapToQuoteData(items[i]);
      if q.Some? {
        quotes := quotes + [q.value];
      }
      i := i + 1;
    }
    assert items[..|items|] == items;
  }

  /** `MapToQuoteResponse`: the loop over `result` collects the kept quotes. */
  method MapToQuoteResponse(root: Json, symbols: seq<string>, region: string, language: string)
    returns (r: Result<QuoteResponse>)
    ensures r == QuoteResponseOf(root, symbols, region, language)
  {
    if !root.JObject? {
      return Failure(ParseError(QuoteMapFailurePrefix + WrongKind("Object", root)));
    }
    var found := Property(root.members, "quoteResponse");
    if found.None? {
      return Failure(ParseError(MissingQuoteResponseMessage));
    }
    var qr := found.value;
    if !qr.JObject? {
      return Failure(ParseError(QuoteMapFailurePrefix + WrongKind("Object", qr)));
    }
    var quotes := CollectQuotes(ResultItems(qr.members));
    var message := ErrorMessageOf(qr.members);
    if message.Threw? {
      return Failure(ParseError(QuoteMapFailurePrefix + message.message));
    }
    return Success(QuoteResponse(symbols, region, language, quotes, message.value));
  }

  /** A document without `quoteResponse` is a parse error with the fixed message. */
  lemma MissingQuoteResponse(members: seq<Member>, symbols: seq<string>, region: string, language: string)
    requires Property(members, "quoteResponse").None?
    ensures QuoteResponseOf(JObject(members), symbols, region, language)
            == Failure(ParseError(MissingQuoteResponseMessage))
    ensures QuoteResponseOf(JObject(members), symbols, region, language).error.code == DataParseErrorCode
  {
  }

  /** Mapping fails exactly in four cases (the root or `quoteResponse` is not an
      object, `quoteResponse` is missing, `error` has a kind other than null or
      string), and every failure is a parse error. */
  lemma QuoteResponseSuccessIff(root: Json, symbols: seq<string>, region: string, language: string)
    ensures QuoteResponseOf(root, symbols, region, language).Success? <==>
      root.JObject? && Property(root.members, "quoteResponse").Some?
      && var qr := Property(root.members, "quoteResponse").value;
         qr.JObject?
         && (Property(qr.members, "error").None? || Property(qr.members, "error").value.JNull?
             || Property(qr.members, "error").value.JString?)
    ensures QuoteResponseOf(root, symbols, region, language).Failure? ==>
      QuoteResponseOf(root, symbols, region, language).error.code == DataParseErrorCode
  {
  }

  /** A successful mapping echoes its arguments and carries the kept quotes of an
      array `result` (none otherwise); `ErrorMessage` is set exactly when `error` is
      present and not null. */
  lemma QuoteResponseContents(root: Json, symbols: seq<string>, region: string, language: string)
    requires QuoteResponseOf(root, symbols, region, language).Success?
    ensures var resp := QuoteResponseOf(root, symbols, region, language).value;
      var qr := Property(root.members, "quoteResponse").value;
      resp.symbols == symbols && resp.region == region && resp.language == language
      && (Property(qr.members, "result").Some? && Property(qr.members, "result").value.JArray?
          ==> resp.quotes == QuotesOf(Property(qr.members, "result").value.items))
      && (!(Property(qr.members, "result").Some? && Property(qr.members, "result").value.JArray?)
          ==> resp.quotes == [])
      && (resp.errorMessage.Some? <==> Property(qr.members, "error").Some? && !Property(qr.members, "error").value.JNull?)
  {
  }

  // ---- MapToTrendingResponse ----

  /** The variables the trending loop overwrites: collected stocks and the last
      `count`, `jobTimestamp` and `startInterval` seen. */
  datatype TrendingAcc = TrendingAcc(stocks: seq<TrendingStock>, count: int, jobTimestamp: Option<int>, startInterval: Option<int>)

  const InitialTrending := TrendingAcc([], 0, None, None)

  /** Reading an optional member with a throwing accessor. */
  function ReadMember(members: seq<Member>, name: string, read: Json -> Outcome<int>): (r: Outcome<Option<int>>)
    ensures Property(members, name).None? ==> r == Returned(None)
    ensures Property(members, name).Some? ==>
      match read(Property(members, name).value)
      case Returned(v) => r == Returned(Some(v))
      case Threw(m) => r == Threw(m)
  {
    match Property(members, name)
    case None => Returned(None)
    case Some(v) =>
      match read(v)
      case Returned(n) => Returned(Some(n))
      case Threw(m) => Threw(m)
  }

  /** The stocks one `result` element contributes. */
  function StocksIn(members: seq<Member>): seq<TrendingStock>
  {
    match Property(members, "quotes")
    case Some(JArray(xs)) => StocksOf(xs)
    case _ => []
  }

  /** One round of the trending loop: a non-object element, or a `count`,
      `jobTimestamp` or `startInterval` that is not an integer of the right width,
      throws. */
  function StepTrending(acc: TrendingAcc, e: Json): Outcome<TrendingAcc>
  {
    if !e.JObject? then Threw(WrongKind("Object", e))
    else
      match ReadMember(e.members, "count", GetInt32)
      case Threw(m) => Threw(m)
      case Returned(c) =>
        match ReadMember(e.members, "jobTimestamp", GetInt64)
        case Threw(m) => Threw(m)
        case Returned(j) =>
          match ReadMember(e.members, "startInterval", GetInt64)
          case Threw(m) => Threw(m)
          case Returned(s) =>
            Returned(TrendingAcc(acc.stocks + StocksIn(e.members), c.GetOr(acc.count),
                                 if j.Some? then j else acc.jobTimestamp,
                                 if s.Some? then s else acc.startInterval))
  }

  function FoldTrending(acc: TrendingAcc, items: seq<Json>): Outcome<TrendingAcc>
    decreases |items|
  {
    if |items| == 0 then Returned(acc)
    else match StepTrending(acc, items[0])
      case Threw(m) => Threw(m)
      case Returned(next) => FoldTrending(next, items[1..])
  }

  /** What `MapToTrendingResponse` returns for a parsed document. */
  function TrendingResponseOf(root: Json, region: string): Result<TrendingResponse>
  {
    if !root.JObject? then Failure(ParseError(TrendingMapFailurePrefix + WrongKind("Object", root)))
    else match Property(root.members, "finance")
      case None => Failure(ParseError(MissingFinanceMessage))
      case Some(f) =>
        if !f.JObject? then Failure(ParseError(TrendingMapFailurePrefix + WrongKind("Object", f)))
        else match FoldTrending(InitialTrending, ResultItems(f.members))
          case Threw(m) => Failure(ParseError(TrendingMapFailurePrefix + m))
          case Returned(a) =>
            Success(TrendingResponse(ToUpper(region), a.stocks, a.count, a.jobTimestamp, a.startInterval))
  }

  /** The inner loop of `MapToTrendingResponse` over one element's `quotes` array. */
  method CollectStocks(xs: seq<Json>) returns (stocks: seq<TrendingStock>)
    ensures stocks == StocksOf(xs)
  {
    stocks := [];
    var k := 0;
    while k < |xs|
      invariant 0 <= k <= |xs|
      invariant stocks == StocksOf(xs[..k])
    {
      assert xs[..k + 1][..k] == xs[..k];
      var stock := MapToTrendingStock(xs[k]);
      if stock.Some? {
        stocks := stocks + [stock.value];
      }
      k := k + 1;
    }
    assert xs[..|xs|] == xs;
  }

  /** The body of the outer loop of `MapToTrendingResponse`: the element's
      counters overwrite those it carries and the stocks of its `quotes` array
      are added; a non-object element or a counter of the wrong form throws. */
  method ReadElement(acc: TrendingAcc, e: Json) returns (r: Outcome<TrendingAcc>)
    ensures r == StepTrending(acc, e)
  {
    if !e.JObject? {
      return Threw(WrongKind("Object", e));
    }
    var count := acc.count;
    var jobTimestamp := acc.jobTimestamp;
    var startInterval := acc.startInterval;
    var c := ReadMember(e.members, "count", GetInt32);
    if c.Threw? {
      return Threw(c.message);
    }
    if c.value.Some? {
      count := c.value.value;
    }
    var j := ReadMember(e.members, "jobTimestamp", GetInt64);
    if j.Threw? {
      return Threw(j.message);
    }
    if j.value.Some? {
      jobTimestamp := j.value;
    }
    var s := ReadMember(e.members, "startInterval", GetInt64);
    if s.Threw? {
      return Threw(s.message);
    }
    if s.value.Some? {
      startInterval := s.value;
    }
    var stocks := acc.stocks;
    var quotes := Property(e.members, "quotes");
    if quotes.Some? && quotes.value.JArray? {
      var kept := CollectStocks(quotes.value.items);
      stocks := stocks + kept;
    }
    assert stocks == acc.stocks + StocksIn(e.members);
    return Returned(TrendingAcc(stocks, count, jobTimestamp, startInterval));
  }

  /** The outer loop of `MapToTrendingResponse`, element by element until one
      throws. */
  method FoldElements(items: seq<Json>) returns (r: Outcome<TrendingAcc>)
    ensures r == FoldTrending(InitialTrending, items)
  {
    var acc := InitialTrending;
    var i := 0;
    while i < |items|
      invariant 0 <= i <= |items|
      invariant FoldTrending(InitialTrending, items) == FoldTrending(acc, items[i..])
    {
      var step := ReadElement(acc, items[i]);
      if step.Threw? {
        return Threw(step.message);
      }
      assert items[i..][1..] == items[i + 1..];
      acc := step.value;
      i := i + 1;
    }
    return Returned(acc);
  }

  /** `MapToTrendingResponse`: the response, or the parse error of the first
      element that cannot be read. */
  method MapToTrendingResponse(root: Json, region: string) returns (r: Result<TrendingResponse>)
    ensures r == TrendingResponseOf(root, region)
  {
    if !root.JObject? {
      return Failure(ParseError(TrendingMapFailurePrefix + WrongKind("Object", root)));
    }
    var found := Property(root.members, "finance");
    if found.None? {
      return Failure(ParseError(MissingFinanceMessage));
    }
    var f := found.value;
    if !f.JObject? {
      return Failure(ParseError(TrendingMapFailurePrefix + WrongKind("Object", f)));
    }
    var folded := FoldElements(ResultItems(f.members));
    match folded
    case Threw(m) =>
      return Failure(ParseError(TrendingMapFailurePrefix + m));
    case Returned(a) =>
      return Success(TrendingResponse(ToUpper(region), a.stocks, a.count, a.jobTimestamp, a.startInterval));
  }

  /** A document without `finance` is a parse error with the fixed message. */
  lemma MissingFinance(members: seq<Member>, region: string)
    requires Property(members, "finance").None?
    ensures TrendingResponseOf(JObject(members), region) == Failure(ParseError(MissingFinanceMessage))
    ensures TrendingResponseOf(JObject(members), region).error.code == DataParseErrorCode
  {
  }

  // ---- Reference definitions for the trending loop ----

  /** The member of an element, when the element is an object that has it. */
  function MemberOf(e: Json, name: string): Option<Json>
  {
    if e.JObject? then Property(e.members, name) else None
  }

  /** The value of `name` in the last element that has it. */
  function LastMember(items: seq<Json>, name: string): Option<Json>
    decreases |items|
  {
    if |items| == 0 then None
    else
      var later := LastMember(items[1..], name);
      if later.Some? then later else MemberOf(items[0], name)
  }

  /** `LastMember` is absent exactly when no element has the member, and otherwise
      comes from an element after which none has it. */
  lemma {:induction false} LastMemberIsLast(items: seq<Json>, name: string)
    ensures LastMember(items, name).None? <==> forall i :: 0 <= i < |items| ==> MemberOf(items[i], name).None?
    ensures LastMember(items, name).Some? ==>
      exists i :: 0 <= i < |items| && MemberOf(items[i], name) == LastMember(items, name)
                  && forall j :: i < j < |items| ==> MemberOf(items[j], name).None?
    decreases |items|
  {
    if |items| > 0 {
      LastMemberIsLast(items[1..], name);
      assert forall i :: 1 <= i < |items| ==> items[i] == items[1..][i - 1];
      if LastMember(items[1..], name).Some? {
        var k :| 0 <= k < |items[1..]| && MemberOf(items[1..][k], name) == LastMember(items[1..], name)
                 && forall j :: k < j < |items[1..]| ==> MemberOf(items[1..][j], name).None?;
        assert MemberOf(items[k + 1], name) == LastMember(items, name);
      }
    }
  }

  /** All stocks of all elements, element by element. */
  function AllStocks(items: seq<Json>): seq<TrendingStock>
    decreases |items|
  {
    if |items| == 0 then []
    else (if items[0].JObject? then StocksIn(items[0].members) else []) + AllStocks(items[1..])
  }

  /** An element the trending loop gets through without throwing. */
  predicate WellFormedTrending(e: Json)
  {
    e.JObject?
    && (MemberOf(e, "count").Some? ==> MemberOf(e, "count").value.JNumber? && IsInt32(MemberOf(e, "count").value.n))
    && (MemberOf(e, "jobTimestamp").Some? ==> MemberOf(e, "jobTimestamp").value.JNumber? && IsInt64(MemberOf(e, "jobTimestamp").value.n))
    && (MemberOf(e, "startInterval").Some? ==> MemberOf(e, "startInterval").value.JNumber? && IsInt64(MemberOf(e, "startInterval").value.n))
  }

  /** One round gets through exactly when its element is well formed. */
  lemma StepTrendingSucceedsIff(acc: TrendingAcc, e: Json)
    ensures StepTrending(acc, e).Returned? <==> WellFormedTrending(e)
  {
  }

  /** The loop completes exactly when every element is well formed. */
  lemma {:induction false} FoldTrendingSucceedsIff(acc: TrendingAcc, items: seq<Json>)
    ensures FoldTrending(acc, items).Returned? <==> forall i :: 0 <= i < |items| ==> WellFormedTrending(items[i])
    decreases |items|
  {
    if |items| > 0 {
      StepTrendingSucceedsIff(acc, items[0]);
      var step := StepTrending(acc, items[0]);
      if step.Returned? {
        FoldTrendingSucceedsIff(step.value, items[1..]);
        assert (forall i :: 0 <= i < |items| ==> WellFormedTrending(items[i]))
           <==> WellFormedTrending(items[0]) && forall i :: 0 <= i < |items[1..]| ==> WellFormedTrending(items[1..][i]) by {
          assert forall i :: 1 <= i < |items| ==> items[i] == items[1..][i - 1];
        }
      }
    }
  }

  /** On completion, the stocks of all elements come in element order, and each
      counter holds the value of the last element that has it (its initial value
      when none does). */
  lemma {:induction false} FoldTrendingContents(acc: TrendingAcc, items: seq<Json>)
    requires FoldTrending(acc, items).Returned?
    ensures var a := FoldTrending(acc, items).value;
      a.stocks == acc.stocks + AllStocks(items)
      && a.count == (if LastMember(items, "count").Some? then LastMember(items, "count").value.NumberValue() else acc.count)
      && a.jobTimestamp == (if LastMember(items, "jobTimestamp").Some? then Some(LastMember(items, "jobTimestamp").value.NumberValue()) else acc.jobTimestamp)
      && a.startInterval == (if LastMember(items, "startInterval").Some? then Some(LastMember(items, "startInterval").value.NumberValue()) else acc.startInterval)
    decreases |items|
  {
    if |items| > 0 {
      var next := StepTrending(acc, items[0]).value;
      FoldTrendingContents(next, items[1..]);
    }
  }

  /** A successful trending mapping upper-cases the region and reports the stocks
      and counters of the whole `result` array. */
  lemma TrendingResponseContents(root: Json, region: string)
    requires TrendingResponseOf(root, region).Success?
    ensures var resp := TrendingResponseOf(root, region).value;
      var items := ResultItems(Property(root.members, "finance").value.members);
      resp.region == ToUpper(region)
      && resp.stocks == AllStocks(items)
      && resp.count == (if LastMember(items, "count").Some? then LastMember(items, "count").value.NumberValue() else 0)
      && resp.jobTimestamp == (if LastMember(items, "jobTimestamp").Some? then Some(LastMember(items, "jobTimestamp").value.NumberValue()) else None)
      && resp.startInterval == (if LastMember(items, "startInterval").Some? then Some(LastMember(items, "startInterval").value.NumberValue()) else None)
  {
    var items := ResultItems(Property(root.members, "finance").value.members);
    FoldTrendingContents(InitialTrending, items);
  }

  /** The trending mapping succeeds exactly when the root and `finance` are objects
      and every element of an array `result` is well formed; failures are parse errors. */
  lemma TrendingResponseSuccessIff(root: Json, region: string)
    ensures TrendingResponseOf(root, region).Success? <==>
      root.JObject? && Property(root.members, "finance").Some?
      && Property(root.members, "finance").value.JObject?
      && var items := ResultItems(Property(root.members, "finance").value.members);
         forall i :: 0 <= i < |items| ==> WellFormedTrending(items[i])
    ensures TrendingResponseOf(root, region).Failure? ==> TrendingResponseOf(root, region).error.code == DataParseErrorCode
  {
    if root.JObject? && Property(root.members, "finance").Some? && Property(root.members, "finance").value.JObject? {
      var items := ResultItems(Property(root.members, "finance").value.members);
      FoldTrendingSucceedsIff(InitialTrending, items);
      assert TrendingResponseOf(root, region).Success? <==> FoldTrending(InitialTrending, items).Returned?;
    }
    TrendingFailureIsParseError(root, region);
  }

  lemma TrendingFailureIsParseError(root: Json, region: string)
    ensures TrendingResponseOf(root, region).Failure? ==> TrendingResponseOf(root, region).error.code == DataParseErrorCode
  {
  }
}
