/** The front end's string formatters and validators: the market-state labels,
    symbol formatting, the three length checks and the 'N/A' guards in front of
    the number and date formatters. */
module Formatters {
  import opened Wrappers
  import opened Text
  import opened Requests
  import Upstream

  const NotAvailable := "N/A"
  const UnknownState := "Unknown"

  // ---- formatMarketState ----

  /** The keys of the state map and, index for index, their labels. */
  const MarketStateKeys: seq<string> := ["REGULAR", "PRE", "POST", "CLOSED", "HOLIDAY"]
  const MarketStateLabels: seq<string> := ["Open", "Pre-Market", "After Hours", "Closed", "Holiday"]

  /** The own properties of the object literal: a key is matched exactly, letter
      case included. */
  function StateLabel(state: string): (r: Option<string>)
    ensures r.Some? <==> state in MarketStateKeys
    ensures forall i :: 0 <= i < |MarketStateKeys| && state == MarketStateKeys[i] ==> r == Some(MarketStateLabels[i])
  {
    if state == "REGULAR" then Some("Open")
    else if state == "PRE" then Some("Pre-Market")
    else if state == "POST" then Some("After Hours")
    else if state == "CLOSED" then Some("Closed")
    else if state == "HOLIDAY" then Some("Holiday")
    else None
  }

  /** `formatMarketState`: no state, or the empty one, is 'Unknown'; one of the
      five keys gets its label; any other state is shown as it came. The result
      is never empty. */
  function FormatMarketState(state: Option<string>): (r: string)
    ensures state.None? || state == Some("") ==> r == UnknownState
    ensures forall i :: 0 <= i < |MarketStateKeys| && state == Some(MarketStateKeys[i]) ==> r == MarketStateLabels[i]
    ensures state.Some? && state.value != "" && state.value !in MarketStateKeys ==> r == state.value
    ensures r != ""
  {
    if state.None? || state.value == "" then UnknownState
    else StateLabel(state.value).GetOr(state.value)
  }

  /** A state is relabelled exactly when it is one of the five keys; the labels
      differ from every key, so a label never passes for a raw state. */
  lemma MarketStateRelabelledIff(state: string)
    requires state != ""
    ensures FormatMarketState(Some(state)) != state <==> state in MarketStateKeys
    ensures state in MarketStateKeys ==> FormatMarketState(Some(state)) in MarketStateLabels
  {
    if state in MarketStateKeys {
      var i :| 0 <= i < |MarketStateKeys| && MarketStateKeys[i] == state;
      assert FormatMarketState(Some(state)) == MarketStateLabels[i];
    }
  }

  /** The lookup is case-sensitive, and a state outside the map, even one that
      reads like a label, is kept. */
  lemma MarketStateCaseSensitive()
    ensures FormatMarketState(Some("regular")) == "regular"
    ensures FormatMarketState(Some("Closed")) == "Closed"
    ensures FormatMarketState(Some("UNKNOWN")) == "UNKNOWN"
    ensures FormatMarketState(Some("REGULAR")) == "Open"
  {
    assert "regular" !in MarketStateKeys;
    assert "Closed" !in MarketStateKeys;
    assert "UNKNOWN" !in MarketStateKeys;
  }

  /** What indexing a JavaScript object literal can give back once its own keys
      miss: a string, or a non-string inherited from `Object.prototype` (one of its
      methods, or the prototype itself under `__proto__`). */
  datatype JsValue = JsString(text: string) | JsInherited(name: string)

  /** The names every object literal inherits from `Object.prototype`. */
  const ObjectPrototypeNames: seq<string> := [
    "constructor", "hasOwnProperty", "isPrototypeOf", "propertyIsEnumerable",
    "toLocaleString", "toString", "valueOf", "__proto__",
    "__defineGetter__", "__defineSetter__", "__lookupGetter__", "__lookupSetter__"]

  /** `formatMarketState` as written: `stateMap[state] || state` also finds the
      inherited names, whose values are truthy and are not strings. */
  function FormatMarketStateAsWritten(state: Option<string>): (r: JsValue)
    ensures r.JsInherited? <==> state.Some? && state.value in ObjectPrototypeNames
  {
    if state.None? || state.value == "" then JsString(UnknownState)
    else match StateLabel(state.value)
      case Some(shown) => JsString(shown)
      case None =>
        if state.value in ObjectPrototypeNames then JsInherited(state.value) else JsString(state.value)
  }

  /** The state "constructor" makes the as-written formatter return the `Object`
      constructor function instead of a string. */
  lemma InheritedStateLeaks()
    ensures FormatMarketStateAsWritten(Some("constructor")) == JsInherited("constructor")
    ensures !FormatMarketStateAsWritten(Some("toString")).JsString?
    ensures FormatMarketState(Some("constructor")) == "constructor"
  {
    assert "constructor" !in MarketStateKeys;
    assert "constructor" == ObjectPrototypeNames[0];
    assert "toString" == ObjectPrototypeNames[5];
  }

  /** On every other input the corrected formatter is the one as written. */
  lemma MarketStateAgreesOffPrototype(state: Option<string>)
    requires state.None? || state.value !in ObjectPrototypeNames
    ensures FormatMarketStateAsWritten(state) == JsString(FormatMarketState(state))
  {
  }

  // ---- formatSymbol and the validators ----

  /** `formatSymbol`: upper-case, then trim the ECMAScript white space. */
  function FormatSymbol(symbol: string): (r: string)
    ensures |r| <= |symbol|
    ensures IsTrimmed(r, IsJsWhiteSpace)
    ensures ToUpper(r) == r
  {
    var u := ToUpper(symbol);
    TrimIsTrimmed(u, IsJsWhiteSpace);
    WhiteSpaceCaseStable();
    TrimToUpperCommute(symbol, IsJsWhiteSpace);
    ToUpperIdempotent(Trim(symbol, IsJsWhiteSpace));
    Trim(u, IsJsWhiteSpace)
  }

  /** Formatting is trimming followed by upper-casing, and is idempotent. */
  lemma FormatSymbolIdempotent(symbol: string)
    ensures FormatSymbol(symbol) == ToUpper(Trim(symbol, IsJsWhiteSpace))
    ensures FormatSymbol(FormatSymbol(symbol)) == FormatSymbol(symbol)
  {
    WhiteSpaceCaseStable();
    TrimToUpperCommute(symbol, IsJsWhiteSpace);
    UpperTrimIdempotent(symbol, IsJsWhiteSpace);
  }

  /** A symbol formats to nothing exactly when it is all white space. */
  lemma FormatSymbolEmptyIff(symbol: string)
    ensures FormatSymbol(symbol) == "" <==> AllWhiteSpace(symbol, IsJsWhiteSpace)
  {
    FormatSymbolIdempotent(symbol);
    TrimEmptyIff(symbol, IsJsWhiteSpace);
  }

  /** Where the two platforms' white-space classes agree on a symbol, the front
      end formats it as the back end's request model normalises it. They differ
      only on U+FEFF, which JavaScript trims, and U+0085, which .NET trims. */
  lemma FormatSymbolMatchesBackEnd(symbol: string)
    requires '\U{FEFF}' !in symbol && '\U{0085}' !in symbol
    ensures FormatSymbol(symbol) == NormalizeSymbol(symbol)
  {
    assert ClassesAgreeOn(symbol, IsJsWhiteSpace, IsDotNetWhiteSpace) by {
      forall i | 0 <= i < |symbol|
        ensures IsJsWhiteSpace(symbol[i]) == IsDotNetWhiteSpace(symbol[i])
      {
        assert symbol[i] in symbol;
      }
    }
    TrimAgree(symbol, IsJsWhiteSpace, IsDotNetWhiteSpace);
    FormatSymbolIdempotent(symbol);
  }

  /** The UTF-16 code units of one character: two for a character outside the
      Basic Multilingual Plane (a surrogate pair), one otherwise. */
  function CodeUnits(c: char): nat
  {
    if c as int >= 0x1_0000 then 2 else 1
  }

  /** `length` of an ECMAScript string: its UTF-16 code units. */
  function JsLength(s: string): (n: nat)
    ensures |s| <= n <= 2 * |s|
  {
    if |s| == 0 then 0 else CodeUnits(s[0]) + JsLength(s[1..])
  }

  /** Inside the Basic Multilingual Plane the length counts characters. */
  lemma {:induction false} JsLengthOfBmp(s: string)
    requires forall i :: 0 <= i < |s| ==> s[i] as int < 0x1_0000
    ensures JsLength(s) == |s|
  {
    if |s| > 0 {
      assert forall i :: 0 <= i < |s[1..]| ==> s[1..][i] == s[i + 1];
      JsLengthOfBmp(s[1..]);
    }
  }

  /** Outside it every character is a surrogate pair. */
  lemma {:induction false} JsLengthOfAstral(s: string)
    requires forall i :: 0 <= i < |s| ==> s[i] as int >= 0x1_0000
    ensures JsLength(s) == 2 * |s|
  {
    if |s| > 0 {
      assert forall i :: 0 <= i < |s[1..]| ==> s[1..][i] == s[i + 1];
      JsLengthOfAstral(s[1..]);
    }
  }

  /** Upper-casing keeps the length in code units. */
  lemma {:induction false} JsLengthToUpper(s: string)
    ensures JsLength(ToUpper(s)) == JsLength(s)
  {
    if |s| > 0 {
      var u := ToUpper(s);
      assert u[1..] == ToUpper(s[1..]);
      assert CodeUnits(u[0]) == CodeUnits(s[0]);
      JsLengthToUpper(s[1..]);
    }
  }

  /** `s.trim().length`: the code units left once ECMAScript white space is
      trimmed off both ends. */
  function TrimmedLength(s: string): (n: nat)
    ensures n <= 2 * |s|
    ensures n == 0 <==> AllWhiteSpace(s, IsJsWhiteSpace)
  {
    TrimEmptyIff(s, IsJsWhiteSpace);
    TrimIsTrimmed(s, IsJsWhiteSpace);
    JsLength(Trim(s, IsJsWhiteSpace))
  }

  /** `isValidSymbol`: between one and ten code units once trimmed. */
  predicate IsValidSymbol(symbol: string)
  {
    0 < TrimmedLength(symbol) <= 10
  }

  /** `isValidRegion`: two code units once trimmed. */
  predicate IsValidRegion(region: string)
  {
    TrimmedLength(region) == 2
  }

  /** `isValidCurrency`: three code units once trimmed. */
  predicate IsValidCurrency(currency: string)
  {
    TrimmedLength(currency) == 3
  }

  /** White space at either end never counts towards a length: wrapping a string
      in white space keeps each verdict. */
  lemma PaddingIgnored(pad: string, s: string, tail: string)
    requires AllWhiteSpace(pad, IsJsWhiteSpace) && AllWhiteSpace(tail, IsJsWhiteSpace)
    ensures TrimmedLength(pad + s + tail) == TrimmedLength(s)
    ensures IsValidSymbol(pad + s + tail) == IsValidSymbol(s)
    ensures IsValidRegion(pad + s + tail) == IsValidRegion(s)
    ensures IsValidCurrency(pad + s + tail) == IsValidCurrency(s)
  {
    TrimPadded(pad, s, tail, IsJsWhiteSpace);
  }

  /** Formatting keeps every verdict: upper-casing keeps the length and the white
      space, and trimming twice is trimming once. */
  lemma FormattingKeepsValidity(s: string)
    ensures TrimmedLength(FormatSymbol(s)) == TrimmedLength(s)
    ensures IsValidSymbol(FormatSymbol(s)) == IsValidSymbol(s)
    ensures IsValidRegion(FormatSymbol(s)) == IsValidRegion(s)
    ensures IsValidCurrency(FormatSymbol(s)) == IsValidCurrency(s)
  {
    FormatKeepsTrimmedLength(s);
    SameVerdicts(FormatSymbol(s), s);
  }

  /** The three checks depend on the trimmed length alone. */
  lemma SameVerdicts(x: string, y: string)
    requires TrimmedLength(x) == TrimmedLength(y)
    ensures IsValidSymbol(x) == IsValidSymbol(y)
    ensures IsValidRegion(x) == IsValidRegion(y)
    ensures IsValidCurrency(x) == IsValidCurrency(y)
  {
  }

  lemma FormatKeepsTrimmedLength(s: string)
    ensures TrimmedLength(FormatSymbol(s)) == TrimmedLength(s)
  {
    var f := FormatSymbol(s);
    FormatSymbolIdempotent(s);
    TrimOfTrimmed(f, IsJsWhiteSpace);
    JsLengthToUpper(Trim(s, IsJsWhiteSpace));
    assert TrimmedLength(f) == JsLength(f) == JsLength(Trim(s, IsJsWhiteSpace));
  }

  /** A region the back end accepts passes the front-end check too. */
  lemma BackEndRegionsPassFrontEnd(region: string)
    requires Upstream.IsValidRegion(Some(region))
    ensures IsValidRegion(region)
  {
    Upstream.ValidRegionIsLetters(region);
    UpperCharWhiteSpace(region[0]);
    UpperCharWhiteSpace(region[1]);
    assert IsTrimmed(region, IsJsWhiteSpace);
    TrimOfTrimmed(region, IsJsWhiteSpace);
    JsLengthOfBmp(region);
  }

  /** The converse fails: the front end accepts any two characters. */
  lemma FrontEndAcceptsUnknownRegion()
    ensures IsValidRegion("ZZ") && !Upstream.IsValidRegion(Some("ZZ"))
  {
    var zz: string := "ZZ";
    assert zz[0] == 'Z' && zz[1] == 'Z';
    assert IsTrimmed(zz, IsJsWhiteSpace);
    TrimOfTrimmed(zz, IsJsWhiteSpace);
    JsLengthOfBmp(zz);
    Upstream.UnknownRegionRejected();
  }

  /** A character outside the Basic Multilingual Plane counts twice: one such
      character passes the two-unit region check. */
  lemma AstralCharacterIsRegion(e: char)
    requires e as int >= 0x1_0000 && !IsJsWhiteSpace(e)
    ensures IsValidRegion([e])
  {
    var one: string := [e];
    AstralTrimmedLength(one, e);
  }

  /** ... and six of one such character already exceed the ten-unit symbol
      limit, although a string of six scalar values would pass. */
  lemma AstralSymbolTooLong(s: string, e: char)
    requires e as int >= 0x1_0000 && !IsJsWhiteSpace(e)
    requires |s| >= 6 && forall i :: 0 <= i < |s| ==> s[i] == e
    ensures !IsValidSymbol(s)
  {
    AstralTrimmedLength(s, e);
  }

  lemma AstralTrimmedLength(s: string, e: char)
    requires e as int >= 0x1_0000 && !IsJsWhiteSpace(e)
    requires forall i :: 0 <= i < |s| ==> s[i] == e
    ensures TrimmedLength(s) == 2 * |s|
  {
    if |s| > 0 {
      assert s[0] == e && s[|s| - 1] == e;
    }
    assert IsTrimmed(s, IsJsWhiteSpace);
    TrimmedLengthOfTrimmed(s);
    JsLengthOfAstral(s);
  }

  lemma TrimmedLengthOfTrimmed(s: string)
    requires IsTrimmed(s, IsJsWhiteSpace)
    ensures TrimmedLength(s) == JsLength(s)
  {
    TrimOfTrimmed(s, IsJsWhiteSpace);
  }

  // ---- The 'N/A' guards ----

  /** The guard of `formatCurrency`, `formatNumber`, `formatLargeNumber` and
      `formatPercentage`: undefined or null prints 'N/A'; every number, zero
      included, reaches the formatter, which is a parameter here. */
  function NumberOrNotAvailable<T>(value: Option<T>, render: T -> string): (r: string)
    ensures value.None? ==> r == NotAvailable
    ensures value.Some? ==> r == render(value.value)
  {
    match value
    case None => NotAvailable
    case Some(v) => render(v)
  }

  /** A date is a string to parse or a `Date` object, here its epoch milliseconds. */
  datatype DateInput = DateText(text: string) | DateValue(epochMs: int)

  /** The guard of `formatDate` and `formatRelativeTime`: a falsy date, which is
      undefined or the empty string, prints 'N/A'. A `Date` object is truthy
      whatever it holds. */
  function DateOrNotAvailable(date: Option<DateInput>, render: DateInput -> string): (r: string)
    ensures r == NotAvailable <==> date.None? || date == Some(DateText("")) || (date.Some? && render(date.value) == NotAvailable)
    ensures date.Some? && date.value.DateValue? ==> r == render(date.value)
  {
    if date.None? || date == Some(DateText("")) then NotAvailable else render(date.value)
  }
}
