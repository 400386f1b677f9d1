/** Request records and their symbol-list parsing: `QuoteRequest` and
    `TrendingRequest`, and `CryptoRequest`, `BulkQuoteRequest`,
    `MarketSummaryRequest` and `CurrencyExchangeRequest`. */
module Requests {
  import opened Text

  /** At most this many comma-separated symbols pass validation. */
  const MaxSymbols := 10

  const DefaultRegion := "US"
  const DefaultLanguage := "en"
  const DefaultCryptoCurrency := "USD"

  /** `string.IsNullOrWhiteSpace`; a null string is shown as the empty string,
      which the callers substitute for null and which behaves the same here. */
  predicate IsNullOrWhiteSpace(s: string)
  {
    AllWhiteSpace(s, IsDotNetWhiteSpace)
  }

  /** `s.Trim()`. */
  function DotNetTrim(s: string): string
  {
    Trim(s, IsDotNetWhiteSpace)
  }

  /** The non-empty comma-separated pieces, untrimmed. */
  function Pieces(symbols: string): seq<string>
  {
    Split(symbols, ',')
  }

  /** `HasValidSymbolFormat()`, shared word for word by `QuoteRequest` and `CryptoRequest`. */
  predicate HasValidSymbolFormat(symbols: string)
  {
    !IsNullOrWhiteSpace(symbols)
    && var pieces := Pieces(symbols);
       |pieces| <= MaxSymbols && forall i :: 0 <= i < |pieces| ==> !IsNullOrWhiteSpace(DotNetTrim(pieces[i]))
  }

  /** `s.Trim().ToUpperInvariant()`. */
  function NormalizeSymbol(s: string): string
  {
    ToUpper(DotNetTrim(s))
  }

  function NormalizeAll(pieces: seq<string>): (r: seq<string>)
    ensures |r| == |pieces|
    ensures forall i :: 0 <= i < |r| ==> r[i] == NormalizeSymbol(pieces[i])
  {
    seq(|pieces|, i requires 0 <= i < |pieces| => NormalizeSymbol(pieces[i]))
  }

  /** `GetSymbolsArray()`, shared word for word by `QuoteRequest` and `CryptoRequest`:
      one trimmed, upper-cased element per non-empty piece, in order, duplicates kept.
      Nothing here validates: a white-space-only piece becomes an empty element. */
  function GetSymbolsArray(symbols: string): seq<string>
  {
    NormalizeAll(Pieces(symbols))
  }

  datatype QuoteRequest = QuoteRequest(symbols: string, region: string, language: string)

  /** `new QuoteRequest { Symbols = symbols }`: region and language take their defaults. */
  function NewQuoteRequest(symbols: string): (r: QuoteRequest)
    ensures r.symbols == symbols && r.region == DefaultRegion && r.language == DefaultLanguage
  {
    QuoteRequest(symbols, DefaultRegion, DefaultLanguage)
  }

  datatype TrendingRequest = TrendingRequest(region: string)

  datatype CryptoRequest = CryptoRequest(symbols: string, currency: string)

  function NewCryptoRequest(symbols: string): (r: CryptoRequest)
    ensures r.symbols == symbols && r.currency == DefaultCryptoCurrency
  {
    CryptoRequest(symbols, DefaultCryptoCurrency)
  }

  datatype SymbolGroup = SymbolGroup(groupName: string, symbols: seq<string>)

  datatype BulkQuoteRequest = BulkQuoteRequest(symbolGroups: seq<SymbolGroup>, region: string, language: string)

  function NewBulkQuoteRequest(groups: seq<SymbolGroup>): (r: BulkQuoteRequest)
    ensures r.symbolGroups == groups && r.region == DefaultRegion && r.language == DefaultLanguage
  {
    BulkQuoteRequest(groups, DefaultRegion, DefaultLanguage)
  }

  datatype MarketSummaryRequest = MarketSummaryRequest(region: string, language: string)

  function NewMarketSummaryRequest(region: string): (r: MarketSummaryRequest)
    ensures r.region == region && r.language == DefaultLanguage
  {
    MarketSummaryRequest(region, DefaultLanguage)
  }

  datatype CurrencyExchangeRequest = CurrencyExchangeRequest(fromCurrency: string, toCurrency: string)

  // ---- Properties of validation and parsing ----

  /** A blank symbol string never validates. */
  lemma BlankSymbolsInvalid(symbols: string)
    requires IsNullOrWhiteSpace(symbols)
    ensures !HasValidSymbolFormat(symbols)
  {
  }

  /** More than ten pieces, or any white-space-only piece, fails validation. */
  lemma InvalidPieces(symbols: string)
    ensures |Pieces(symbols)| > MaxSymbols ==> !HasValidSymbolFormat(symbols)
    ensures (exists i :: 0 <= i < |Pieces(symbols)| && IsNullOrWhiteSpace(Pieces(symbols)[i]))
            ==> !HasValidSymbolFormat(symbols)
  {
    if i :| 0 <= i < |Pieces(symbols)| && IsNullOrWhiteSpace(Pieces(symbols)[i]) {
      TrimEmptyIff(Pieces(symbols)[i], IsDotNetWhiteSpace);
    }
  }

  /** Every element of the array is trimmed, upper-case, comma-free, and comes from
      the piece at the same position. */
  lemma {:induction false} SymbolsArrayShape(symbols: string)
    ensures var r := GetSymbolsArray(symbols);
      |r| == |Pieces(symbols)|
      && forall i :: 0 <= i < |r| ==>
           r[i] == ToUpper(DotNetTrim(Pieces(symbols)[i])) && ',' !in r[i]
           && IsTrimmed(r[i], IsDotNetWhiteSpace) && ToUpper(r[i]) == r[i]
  {
    var r := GetSymbolsArray(symbols);
    var ps := Pieces(symbols);
    forall i | 0 <= i < |r|
      ensures ',' !in r[i] && IsTrimmed(r[i], IsDotNetWhiteSpace) && ToUpper(r[i]) == r[i]
    {
      NormalizedShape(ps[i]);
    }
  }

  lemma NormalizedShape(p: string)
    requires ',' !in p
    ensures var x := NormalizeSymbol(p);
      ',' !in x && IsTrimmed(x, IsDotNetWhiteSpace) && ToUpper(x) == x && DotNetTrim(x) == x
      && (x == "" <==> IsNullOrWhiteSpace(p))
  {
    var t := DotNetTrim(p);
    TrimIsTrimmed(p, IsDotNetWhiteSpace);
    TrimChars(p, IsDotNetWhiteSpace);
    TrimEmptyIff(p, IsDotNetWhiteSpace);
    var x := ToUpper(t);
    if |t| > 0 {
      UpperCharWhiteSpace(t[0]);
      UpperCharWhiteSpace(t[|t| - 1]);
      assert x[0] == UpperChar(t[0]) && x[|x| - 1] == UpperChar(t[|t| - 1]);
    }
    assert IsTrimmed(x, IsDotNetWhiteSpace);
    UpperKeepsComma(t);
    ToUpperIdempotent(t);
    TrimOfTrimmed(ToUpper(t), IsDotNetWhiteSpace);
  }

  /** Under a valid format the array has at most ten elements and none is empty. */
  lemma {:induction false} ValidFormatBounds(symbols: string)
    requires HasValidSymbolFormat(symbols)
    ensures var r := GetSymbolsArray(symbols);
      |r| <= MaxSymbols && forall i :: 0 <= i < |r| ==> r[i] != ""
  {
    var r := GetSymbolsArray(symbols);
    var ps := Pieces(symbols);
    forall i | 0 <= i < |r|
      ensures r[i] != ""
    {
      TrimEmptyIff(ps[i], IsDotNetWhiteSpace);
      NormalizedShape(ps[i]);
    }
  }

  /** A string of commas only is not blank, so it validates, yet it holds no symbol:
      a valid format does not promise at least one symbol. */
  lemma CommasValidateToNoSymbols()
    ensures HasValidSymbolFormat(",") && GetSymbolsArray(",") == []
  {
    assert SplitAll(",", ',') == ["", ""] by {
      assert SplitAll(","[1..], ',') == [""];
    }
  }

  /** Re-parsing the joined array gives the same array, whenever no piece was
      white space only (in particular under a valid format). */
  lemma {:induction false} ReparseJoined(symbols: string)
    requires forall i :: 0 <= i < |Pieces(symbols)| ==> !IsNullOrWhiteSpace(Pieces(symbols)[i])
    ensures GetSymbolsArray(Join(",", GetSymbolsArray(symbols))) == GetSymbolsArray(symbols)
  {
    var r := GetSymbolsArray(symbols);
    SymbolsArrayShape(symbols);
    forall i | 0 <= i < |r|
      ensures r[i] != ""
    {
      NormalizedShape(Pieces(symbols)[i]);
    }
    SplitJoin(r, ',');
    assert Pieces(Join(",", r)) == r;
    forall i | 0 <= i < |r|
      ensures NormalizeSymbol(r[i]) == r[i]
    {
      NormalizedShape(Pieces(symbols)[i]);
    }
  }

  /** Re-parsing a joined list of normalized symbols drops its empty elements and keeps
      the rest in order: this is what the inner service sees of a to-fetch list. */
  lemma {:induction false} ReparseNormalized(xs: seq<string>)
    requires forall i :: 0 <= i < |xs| ==> ',' !in xs[i] && NormalizeSymbol(xs[i]) == xs[i]
    ensures GetSymbolsArray(Join(",", xs)) == RemoveEmpty(xs)
  {
    SplitJoinRemovesEmpty(xs, ',');
    NormalizeAllFixed(RemoveEmpty(xs), xs);
  }

  lemma {:induction false} NormalizeAllFixed(ys: seq<string>, xs: seq<string>)
    requires forall y :: y in ys ==> y in xs
    requires forall i :: 0 <= i < |xs| ==> NormalizeSymbol(xs[i]) == xs[i]
    ensures NormalizeAll(ys) == ys
  {
    forall i | 0 <= i < |ys|
      ensures NormalizeAll(ys)[i] == ys[i]
    {
      assert ys[i] in xs;
    }
  }

  /** The crypto request validates and parses its symbols exactly as the quote request does. */
  lemma CryptoParsesLikeQuote(symbols: string, currency: string, region: string, language: string)
    ensures HasValidSymbolFormat(CryptoRequest(symbols, currency).symbols)
            == HasValidSymbolFormat(QuoteRequest(symbols, region, language).symbols)
    ensures GetSymbolsArray(CryptoRequest(symbols, currency).symbols)
            == GetSymbolsArray(QuoteRequest(symbols, region, language).symbols)
  {
  }

  // ---- A white-space piece ----

  /** The pieces of `"A, ,B"`, white space included. */
  lemma PiecesWithBlank()
    ensures Pieces("A, ,B") == ["A", " ", "B"]
  {
    assert Join([','], ["A", " ", "B"]) == "A, ,B";
    SplitAllJoin(["A", " ", "B"], ',');
  }

  /** The pieces of `"A,,B"`: the empty piece is dropped. */
  lemma PiecesWithEmpty()
    ensures Pieces("A,,B") == ["A", "B"]
  {
    assert Join([','], ["A", "", "B"]) == "A,,B";
    SplitAllJoin(["A", "", "B"], ',');
  }

  /** A one-letter symbol is its own normal form and is not blank. */
  lemma LetterSymbol(c: char)
    requires 'A' <= c <= 'Z'
    ensures !IsDotNetWhiteSpace(c)
    ensures DotNetTrim([c]) == [c] && NormalizeSymbol([c]) == [c] && !IsNullOrWhiteSpace([c])
  {
    assert TrimStart([c], IsDotNetWhiteSpace) == [c];
    assert TrimEnd([c], IsDotNetWhiteSpace) == [c];
    assert !IsDotNetWhiteSpace([c][0]);
  }

  /** A single space trims to the empty string. */
  lemma SpaceSymbol()
    ensures DotNetTrim(" ") == "" && NormalizeSymbol(" ") == ""
  {
    assert " "[1..] == "";
    assert TrimStart(" ", IsDotNetWhiteSpace) == TrimStart("", IsDotNetWhiteSpace);
  }

  /** `"A, ,B"` fails the format check: its middle piece is white space. */
  lemma BlankPieceRejected()
    ensures !HasValidSymbolFormat("A, ,B")
  {
    PiecesWithBlank();
    SpaceSymbol();
    assert IsNullOrWhiteSpace(DotNetTrim(Pieces("A, ,B")[1]));
  }

  lemma NormalizeBlankList()
    ensures NormalizeAll(["A", " ", "B"]) == ["A", "", "B"]
  {
    var xs: seq<string> := ["A", " ", "B"];
    var ys: seq<string> := ["A", "", "B"];
    LetterSymbol('A');
    LetterSymbol('B');
    SpaceSymbol();
    forall i | 0 <= i < |xs|
      ensures NormalizeSymbol(xs[i]) == ys[i]
    {
      if i == 0 {
        assert xs[i] == ['A'] && ys[i] == ['A'];
      } else if i == 1 {
        assert xs[i] == " " && ys[i] == "";
      } else {
        assert xs[i] == ['B'] && ys[i] == ['B'];
      }
    }
    NormalizeAllPointwise(xs, ys);
  }

  lemma NormalizeAllPointwise(xs: seq<string>, ys: seq<string>)
    requires |xs| == |ys| && forall i :: 0 <= i < |xs| ==> NormalizeSymbol(xs[i]) == ys[i]
    ensures NormalizeAll(xs) == ys
  {
  }

  lemma JoinBlankList()
    ensures Join(",", ["A", "", "B"]) == "A,,B"
  {
    var xs: seq<string> := ["A", "", "B"];
    assert xs[1..] == ["", "B"] && xs[1..][1..] == ["B"];
    assert Join(",", xs[1..][1..]) == "B";
    assert Join(",", xs[1..]) == "" + "," + "B";
  }

  /** ... but normalising it gives an empty symbol, not an error. */
  lemma BlankPieceNormalized()
    ensures GetSymbolsArray("A, ,B") == ["A", "", "B"]
    ensures Join(",", GetSymbolsArray("A, ,B")) == "A,,B"
  {
    PiecesWithBlank();
    NormalizeBlankList();
    JoinBlankList();
  }

  /** A one-letter piece is not blank once trimmed. */
  lemma LetterNotBlank(p: string, c: char)
    requires 'A' <= c <= 'Z' && p == [c]
    ensures !IsNullOrWhiteSpace(DotNetTrim(p))
  {
    LetterSymbol(c);
  }

  /** Two letters with an empty piece between them pass the check: the split
      drops the empty piece. */
  lemma BlankPieceSkipped(a: char, b: char)
    requires 'A' <= a <= 'Z' && 'A' <= b <= 'Z'
    ensures Pieces([a, ',', ',', b]) == [[a], [b]]
    ensures HasValidSymbolFormat([a, ',', ',', b])
  {
    var text := [a, ',', ',', b];
    var parts: seq<string> := [[a], [], [b]];
    assert parts[1..] == [[], [b]] && parts[1..][1..] == [[b]];
    assert Join([','], [[], [b]]) == [] + [','] + [b];
    assert Join([','], parts) == [a] + [','] + ([] + [','] + [b]);
    assert Join([','], parts) == text;
    SplitAllJoin(parts, ',');
    assert RemoveEmpty([[b]]) == [[b]] by {
      assert [[b]][1..] == [];
    }
    assert RemoveEmpty([[], [b]]) == [[b]];
    assert RemoveEmpty(parts) == [[a]] + RemoveEmpty([[], [b]]);
    var pieces := Pieces(text);
    assert pieces == [[a], [b]];
    forall i | 0 <= i < |pieces|
      ensures !IsNullOrWhiteSpace(DotNetTrim(pieces[i]))
    {
      if i == 0 {
        LetterNotBlank(pieces[i], a);
      } else {
        LetterNotBlank(pieces[i], b);
      }
    }
    LetterSymbol(a);
    assert !IsNullOrWhiteSpace(text) by {
      assert text[0] == a;
    }
  }

  /** `"A,,B"` passes the check. */
  lemma ForwardedBlankAccepted()
    ensures HasValidSymbolFormat("A,,B")
  {
    BlankPieceSkipped('A', 'B');
    assert [ 'A', ',', ',', 'B'] == "A,,B";
  }
}
