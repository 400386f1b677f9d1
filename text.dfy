/** String helpers shared by the C# back end and the TypeScript front end:
    the two platforms' white-space classes, trimming, ASCII case mapping,
    `string.Split(',', StringSplitOptions.RemoveEmptyEntries)`, `string.Join`
    and decimal rendering of integers. */
module Text {

  /** .NET `char.IsWhiteSpace`: the Unicode separators Zs, Zl, Zp, the controls
      U+0009..U+000D and U+0085. This is the class `string.Trim()` removes. */
  predicate IsDotNetWhiteSpace(c: char)
  {
    c == ' ' || ('\t' <= c <= '\r') || c == '\U{0085}' || c == '\U{00A0}' || c == '\U{1680}'
    || ('\U{2000}' <= c <= '\U{200A}') || c == '\U{2028}' || c == '\U{2029}'
    || c == '\U{202F}' || c == '\U{205F}' || c == '\U{3000}'
  }

  /** ECMAScript WhiteSpace and LineTerminator: the class `String.prototype.trim` removes.
      It has U+FEFF, which .NET lacks, and lacks U+0085, which .NET has. */
  predicate IsJsWhiteSpace(c: char)
  {
    c == ' ' || ('\t' <= c <= '\r') || c == '\U{00A0}' || c == '\U{1680}'
    || ('\U{2000}' <= c <= '\U{200A}') || c == '\U{2028}' || c == '\U{2029}'
    || c == '\U{202F}' || c == '\U{205F}' || c == '\U{3000}' || c == '\U{FEFF}'
  }

  predicate AllWhiteSpace(s: string, ws: char -> bool)
  {
    forall i :: 0 <= i < |s| ==> ws(s[i])
  }

  /** Neither end of `s` is white space. */
  predicate IsTrimmed(s: string, ws: char -> bool)
  {
    |s| == 0 || (!ws(s[0]) && !ws(s[|s| - 1]))
  }

  function TrimStart(s: string, ws: char -> bool): (r: string)
    ensures |r| <= |s| && r == s[|s| - |r|..]
    ensures |r| == 0 || !ws(r[0])
  {
    if |s| > 0 && ws(s[0]) then TrimStart(s[1..], ws) else s
  }

  function TrimEnd(s: string, ws: char -> bool): (r: string)
    ensures |r| <= |s| && r == s[..|r|]
    ensures |r| == 0 || !ws(r[|r| - 1])
  {
    if |s| > 0 && ws(s[|s| - 1]) then TrimEnd(s[..|s| - 1], ws) else s
  }

  /** What `TrimStart` drops is white space. */
  lemma {:induction false} TrimStartDrops(s: string, ws: char -> bool)
    ensures AllWhiteSpace(s[..|s| - |TrimStart(s, ws)|], ws)
    decreases |s|
  {
    if |s| > 0 && ws(s[0]) {
      TrimStartDrops(s[1..], ws);
      var prefix := s[..|s| - |TrimStart(s, ws)|];
      var dropped := s[1..][..|s| - 1 - |TrimStart(s[1..], ws)|];
      forall i | 0 <= i < |prefix|
        ensures ws(prefix[i])
      {
        if i > 0 {
          assert prefix[i] == dropped[i - 1];
        }
      }
    }
  }

  /** What `TrimEnd` drops is white space. */
  lemma {:induction false} TrimEndDrops(s: string, ws: char -> bool)
    ensures AllWhiteSpace(s[|TrimEnd(s, ws)|..], ws)
    decreases |s|
  {
    if |s| > 0 && ws(s[|s| - 1]) {
      TrimEndDrops(s[..|s| - 1], ws);
      var n := |TrimEnd(s, ws)|;
      var suffix := s[n..];
      var dropped := s[..|s| - 1][n..];
      forall i | 0 <= i < |suffix|
        ensures ws(suffix[i])
      {
        if i < |suffix| - 1 {
          assert suffix[i] == dropped[i];
        }
      }
    }
  }

  /** Removes white space, as classified by `ws`, from both ends. */
  function Trim(s: string, ws: char -> bool): (r: string)
  {
    TrimEnd(TrimStart(s, ws), ws)
  }

  /** Neither end of a trimmed string is white space. */
  lemma TrimIsTrimmed(s: string, ws: char -> bool)
    ensures IsTrimmed(Trim(s, ws), ws) && |Trim(s, ws)| <= |s|
  {
    var t := TrimStart(s, ws);
    var r := TrimEnd(t, ws);
    if |r| > 0 {
      assert r[0] == t[0];
    }
  }

  /** A prefix of a suffix is a slice, and what follows it is a suffix. */
  lemma SliceOfSuffix(s: string, t: string, r: string, k: nat)
    requires k <= |s| && t == s[k..] && |r| <= |t| && r == t[..|r|]
    ensures r == s[k..k + |r|] && t[|r|..] == s[k + |r|..]
  {
  }

  /** What `Trim` keeps is a contiguous piece of the input, trimmed at both ends,
      and everything it drops is white space. */
  lemma TrimSpec(s: string, ws: char -> bool)
    ensures var r := Trim(s, ws);
      IsTrimmed(r, ws) && |r| <= |s|
      && exists k :: 0 <= k <= |s| - |r| && r == s[k..k + |r|]
                     && AllWhiteSpace(s[..k], ws) && AllWhiteSpace(s[k + |r|..], ws)
  {
    TrimIsTrimmed(s, ws);
    var t := TrimStart(s, ws);
    var r := TrimEnd(t, ws);
    var k := |s| - |t|;
    TrimStartDrops(s, ws);
    TrimEndDrops(t, ws);
    assert t == s[k..] && r == t[..|r|];
    SliceOfSuffix(s, t, r, k);
    assert 0 <= k <= |s| - |r| && r == s[k..k + |r|]
           && AllWhiteSpace(s[..k], ws) && AllWhiteSpace(s[k + |r|..], ws);
  }

  lemma TrimOfTrimmed(s: string, ws: char -> bool)
    requires IsTrimmed(s, ws)
    ensures Trim(s, ws) == s
  {
  }

  lemma TrimIdempotent(s: string, ws: char -> bool)
    ensures Trim(Trim(s, ws), ws) == Trim(s, ws)
  {
    TrimIsTrimmed(s, ws);
    TrimOfTrimmed(Trim(s, ws), ws);
  }

  /** The trimmed string is empty exactly when the input is all white space. */
  lemma {:induction false} TrimEmptyIff(s: string, ws: char -> bool)
    ensures Trim(s, ws) == "" <==> AllWhiteSpace(s, ws)
  {
    var t := TrimStart(s, ws);
    if Trim(s, ws) == "" {
      TrimStartDrops(s, ws);
      TrimEndDrops(t, ws);
      assert AllWhiteSpace(t, ws) by {
        assert t[0..] == t;
      }
      assert s[..|s| - |t|] == s;
    }
  }

  /** ASCII letters only: `ToUpperInvariant` and `toUpperCase` also map
      letters outside ASCII, which the model leaves unchanged. */
  function UpperChar(c: char): char
  {
    if 'a' <= c <= 'z' then (c as int - 32) as char else c
  }

  function LowerChar(c: char): char
  {
    if 'A' <= c <= 'Z' then (c as int + 32) as char else c
  }

  function ToUpper(s: string): (r: string)
    ensures |r| == |s|
    ensures forall i :: 0 <= i < |s| ==> r[i] == UpperChar(s[i])
  {
    seq(|s|, i requires 0 <= i < |s| => UpperChar(s[i]))
  }

  function ToLower(s: string): (r: string)
    ensures |r| == |s|
    ensures forall i :: 0 <= i < |s| ==> r[i] == LowerChar(s[i])
  {
    seq(|s|, i requires 0 <= i < |s| => LowerChar(s[i]))
  }

  lemma ToUpperIdempotent(s: string)
    ensures ToUpper(ToUpper(s)) == ToUpper(s)
  {
  }

  lemma ToUpperConcat(a: string, b: string)
    ensures ToUpper(a + b) == ToUpper(a) + ToUpper(b)
  {
  }

  /** Upper-casing never turns a character into white space or out of it. */
  predicate CaseStable(ws: char -> bool)
  {
    forall c :: ws(UpperChar(c)) == ws(c)
  }

  lemma WhiteSpaceCaseStable()
    ensures CaseStable(IsDotNetWhiteSpace) && CaseStable(IsJsWhiteSpace)
  {
  }

  /** Upper-casing a character keeps it in or out of either white-space class. */
  lemma UpperCharWhiteSpace(c: char)
    ensures IsDotNetWhiteSpace(UpperChar(c)) == IsDotNetWhiteSpace(c)
    ensures IsJsWhiteSpace(UpperChar(c)) == IsJsWhiteSpace(c)
  {
  }

  /** Upper-casing creates no comma and removes none. */
  lemma UpperKeepsComma(t: string)
    ensures ',' in ToUpper(t) <==> ',' in t
  {
    if ',' in ToUpper(t) {
      var i :| 0 <= i < |t| && ToUpper(t)[i] == ',';
      assert t[i] == ',';
    }
    if ',' in t {
      var i :| 0 <= i < |t| && t[i] == ',';
      assert ToUpper(t)[i] == ',';
    }
  }

  /** Every character of a trimmed string comes from the string. */
  lemma TrimChars(s: string, ws: char -> bool)
    ensures forall c :: c in Trim(s, ws) ==> c in s
  {
    var t := TrimStart(s, ws);
    var r := TrimEnd(t, ws);
    forall c | c in r
      ensures c in s
    {
      var i :| 0 <= i < |r| && r[i] == c;
      assert t[i] == c;
      assert s[|s| - |t| + i] == c;
    }
  }

  /** Trimming and ASCII upper-casing commute, for either white-space class. */
  lemma {:induction false} TrimToUpperCommute(s: string, ws: char -> bool)
    requires CaseStable(ws)
    ensures Trim(ToUpper(s), ws) == ToUpper(Trim(s, ws))
  {
    TrimStartToUpper(s, ws);
    TrimEndToUpper(TrimStart(s, ws), ws);
  }

  lemma {:induction false} TrimStartToUpper(s: string, ws: char -> bool)
    requires CaseStable(ws)
    ensures TrimStart(ToUpper(s), ws) == ToUpper(TrimStart(s, ws))
    decreases |s|
  {
    if |s| > 0 {
      assert ToUpper(s)[0] == UpperChar(s[0]);
      assert ws(UpperChar(s[0])) == ws(s[0]);
      if ws(s[0]) {
        assert ToUpper(s)[1..] == ToUpper(s[1..]);
        TrimStartToUpper(s[1..], ws);
      }
    }
  }

  lemma {:induction false} TrimEndToUpper(s: string, ws: char -> bool)
    requires CaseStable(ws)
    ensures TrimEnd(ToUpper(s), ws) == ToUpper(TrimEnd(s, ws))
    decreases |s|
  {
    if |s| > 0 {
      assert ToUpper(s)[|s| - 1] == UpperChar(s[|s| - 1]);
      assert ws(UpperChar(s[|s| - 1])) == ws(s[|s| - 1]);
      if ws(s[|s| - 1]) {
        assert ToUpper(s)[..|s| - 1] == ToUpper(s[..|s| - 1]);
        TrimEndToUpper(s[..|s| - 1], ws);
      }
    }
  }

  /** `trim(toUpper(s))` is a fixed point of itself. */
  lemma UpperTrimIdempotent(s: string, ws: char -> bool)
    requires CaseStable(ws)
    ensures Trim(ToUpper(Trim(ToUpper(s), ws)), ws) == Trim(ToUpper(s), ws)
  {
    var u := ToUpper(s);
    TrimToUpperCommute(s, ws);
    ToUpperIdempotent(Trim(s, ws));
    TrimIdempotent(u, ws);
  }

  /** `ws1` and `ws2` classify every character of `s` alike. */
  predicate ClassesAgreeOn(s: string, ws1: char -> bool, ws2: char -> bool)
  {
    forall i :: 0 <= i < |s| ==> ws1(s[i]) == ws2(s[i])
  }

  /** Two white-space classes that agree on the characters of `s` trim it alike. */
  lemma TrimAgree(s: string, ws1: char -> bool, ws2: char -> bool)
    requires ClassesAgreeOn(s, ws1, ws2)
    ensures Trim(s, ws1) == Trim(s, ws2)
  {
    TrimStartAgree(s, ws1, ws2);
    var t := TrimStart(s, ws1);
    assert t == s[|s| - |t|..];
    AgreeOnSuffix(s, |s| - |t|, ws1, ws2);
    TrimEndAgree(t, ws1, ws2);
  }

  lemma AgreeOnSuffix(s: string, k: nat, ws1: char -> bool, ws2: char -> bool)
    requires k <= |s| && ClassesAgreeOn(s, ws1, ws2)
    ensures ClassesAgreeOn(s[k..], ws1, ws2)
  {
    forall i | 0 <= i < |s| - k
      ensures ws1(s[k..][i]) == ws2(s[k..][i])
    {
      assert s[k..][i] == s[k + i];
    }
  }

  lemma {:induction false} TrimStartAgree(s: string, ws1: char -> bool, ws2: char -> bool)
    requires ClassesAgreeOn(s, ws1, ws2)
    ensures TrimStart(s, ws1) == TrimStart(s, ws2)
    decreases |s|
  {
    if |s| > 0 {
      assert ws1(s[0]) == ws2(s[0]);
      var t := s[1..];
      assert ClassesAgreeOn(t, ws1, ws2) by {
        forall i | 0 <= i < |t|
          ensures ws1(t[i]) == ws2(t[i])
        {
          assert t[i] == s[i + 1];
        }
      }
      TrimStartAgree(t, ws1, ws2);
    }
  }

  lemma {:induction false} TrimEndAgree(s: string, ws1: char -> bool, ws2: char -> bool)
    requires ClassesAgreeOn(s, ws1, ws2)
    ensures TrimEnd(s, ws1) == TrimEnd(s, ws2)
    decreases |s|
  {
    if |s| > 0 {
      assert ws1(s[|s| - 1]) == ws2(s[|s| - 1]);
      var t := s[..|s| - 1];
      assert ClassesAgreeOn(t, ws1, ws2) by {
        forall i | 0 <= i < |t|
          ensures ws1(t[i]) == ws2(t[i])
        {
          assert t[i] == s[i];
        }
      }
      TrimEndAgree(t, ws1, ws2);
    }
  }

  /** Trimming ignores white space added at either end. */
  lemma TrimPadded(pad: string, s: string, tail: string, ws: char -> bool)
    requires AllWhiteSpace(pad, ws) && AllWhiteSpace(tail, ws)
    ensures Trim(pad + s + tail, ws) == Trim(s, ws)
  {
    assert pad + s + tail == pad + (s + tail);
    TrimStartPadded(pad, s + tail, ws);
    if AllWhiteSpace(s, ws) {
      assert AllWhiteSpace(s + tail, ws) by {
        forall i | 0 <= i < |s + tail|
          ensures ws((s + tail)[i])
        {
          if i >= |s| {
            assert (s + tail)[i] == tail[i - |s|];
          }
        }
      }
      TrimEmptyIff(s + tail, ws);
      TrimEmptyIff(s, ws);
    } else {
      TrimStartBeforeTail(s, tail, ws);
      TrimEndPadded(TrimStart(s, ws), tail, ws);
    }
  }

  lemma {:induction false} TrimStartPadded(pad: string, x: string, ws: char -> bool)
    requires AllWhiteSpace(pad, ws)
    ensures TrimStart(pad + x, ws) == TrimStart(x, ws)
    decreases |pad|
  {
    if |pad| > 0 {
      assert (pad + x)[0] == pad[0];
      assert (pad + x)[1..] == pad[1..] + x;
      TrimStartPadded(pad[1..], x, ws);
    } else {
      assert pad + x == x;
    }
  }

  lemma {:induction false} TrimEndPadded(x: string, tail: string, ws: char -> bool)
    requires AllWhiteSpace(tail, ws)
    ensures TrimEnd(x + tail, ws) == TrimEnd(x, ws)
    decreases |tail|
  {
    if |tail| > 0 {
      var w := x + tail;
      assert w[|w| - 1] == tail[|tail| - 1];
      assert w[..|w| - 1] == x + tail[..|tail| - 1];
      TrimEndPadded(x, tail[..|tail| - 1], ws);
    } else {
      assert x + tail == x;
    }
  }

  /** Trimming the front of a string that is not all white space stops inside it. */
  lemma {:induction false} TrimStartBeforeTail(x: string, tail: string, ws: char -> bool)
    requires !AllWhiteSpace(x, ws)
    ensures TrimStart(x + tail, ws) == TrimStart(x, ws) + tail
    decreases |x|
  {
    assert |x| > 0;
    assert (x + tail)[0] == x[0];
    if ws(x[0]) {
      assert !AllWhiteSpace(x[1..], ws) by {
        var j :| 0 <= j < |x| && !ws(x[j]);
        assert x[1..][j - 1] == x[j];
      }
      assert (x + tail)[1..] == x[1..] + tail;
      TrimStartBeforeTail(x[1..], tail, ws);
    }
  }

  predicate EndsWith(s: string, suffix: string)
  {
    |suffix| <= |s| && s[|s| - |suffix|..] == suffix
  }

  // ---- Split and Join ----

  /** `s.Split(sep)`: every piece, empty ones included; there is one more piece than
      there are separators. */
  function SplitAll(s: string, sep: char): (r: seq<string>)
    ensures |r| >= 1
    ensures forall i :: 0 <= i < |r| ==> sep !in r[i]
    ensures forall p :: p in r ==> sep !in p
    decreases |s|
  {
    if |s| == 0 then [""]
    else
      var rest := SplitAll(s[1..], sep);
      if s[0] == sep then [""] + rest else [[s[0]] + rest[0]] + rest[1..]
  }

  /** The pieces that are not empty, in order (`StringSplitOptions.RemoveEmptyEntries`). */
  function RemoveEmpty(xs: seq<string>): (r: seq<string>)
    ensures |r| <= |xs|
    ensures forall i :: 0 <= i < |r| ==> r[i] != ""
    ensures forall x :: x in r <==> x in xs && x != ""
  {
    if |xs| == 0 then []
    else if xs[0] == "" then RemoveEmpty(xs[1..])
    else [xs[0]] + RemoveEmpty(xs[1..])
  }

  /** `s.Split(sep, StringSplitOptions.RemoveEmptyEntries)`. */
  function Split(s: string, sep: char): (r: seq<string>)
    ensures forall i :: 0 <= i < |r| ==> r[i] != "" && sep !in r[i]
  {
    RemoveEmpty(SplitAll(s, sep))
  }

  /** `string.Join(sep, xs)`. */
  function Join(sep: string, xs: seq<string>): string
  {
    if |xs| == 0 then ""
    else if |xs| == 1 then xs[0]
    else xs[0] + sep + Join(sep, xs[1..])
  }

  lemma {:induction false} SplitAllNoSep(x: string, sep: char)
    requires sep !in x
    ensures SplitAll(x, sep) == [x]
    decreases |x|
  {
    if |x| > 0 {
      SplitAllNoSep(x[1..], sep);
      assert [x[0]] + x[1..] == x;
    }
  }

  lemma {:induction false} SplitAllAfterPiece(x: string, sep: char, t: string)
    requires sep !in x
    ensures SplitAll(x + [sep] + t, sep) == [x] + SplitAll(t, sep)
    decreases |x|
  {
    var s := x + [sep] + t;
    if |x| == 0 {
      assert s[1..] == t;
    } else {
      assert s[1..] == x[1..] + [sep] + t;
      SplitAllAfterPiece(x[1..], sep, t);
      assert [x[0]] + x[1..] == x;
    }
  }

  /** Splitting a joined list of separator-free pieces gives the pieces back. */
  lemma {:induction false} SplitAllJoin(xs: seq<string>, sep: char)
    requires |xs| >= 1
    requires forall i :: 0 <= i < |xs| ==> sep !in xs[i]
    ensures SplitAll(Join([sep], xs), sep) == xs
  {
    if |xs| == 1 {
      SplitAllNoSep(xs[0], sep);
    } else {
      SplitAllJoin(xs[1..], sep);
      SplitAllAfterPiece(xs[0], sep, Join([sep], xs[1..]));
      assert [xs[0]] + xs[1..] == xs;
    }
  }

  lemma {:induction false} RemoveEmptyOfNonEmpty(xs: seq<string>)
    requires forall i :: 0 <= i < |xs| ==> xs[i] != ""
    ensures RemoveEmpty(xs) == xs
    decreases |xs|
  {
    if |xs| > 0 {
      assert forall i :: 0 <= i < |xs[1..]| ==> xs[1..][i] == xs[i + 1];
      RemoveEmptyOfNonEmpty(xs[1..]);
      assert xs == [xs[0]] + xs[1..];
    }
  }

  /** Round trip: `Join` then `Split` is the identity on lists of non-empty,
      separator-free pieces, the empty list included. */
  lemma SplitJoin(xs: seq<string>, sep: char)
    requires forall i :: 0 <= i < |xs| ==> xs[i] != "" && sep !in xs[i]
    ensures Split(Join([sep], xs), sep) == xs
  {
    if |xs| == 0 {
      assert SplitAll("", sep) == [""];
    } else {
      SplitAllJoin(xs, sep);
      RemoveEmptyOfNonEmpty(xs);
    }
  }

  /** Splitting a joined list of separator-free pieces gives back its non-empty pieces:
      empty pieces disappear. */
  lemma SplitJoinRemovesEmpty(xs: seq<string>, sep: char)
    requires forall i :: 0 <= i < |xs| ==> sep !in xs[i]
    ensures Split(Join([sep], xs), sep) == RemoveEmpty(xs)
  {
    if |xs| == 0 {
      assert SplitAll("", sep) == [""];
    } else {
      SplitAllJoin(xs, sep);
    }
  }

  // ---- Decimal rendering of integers ----

  function DigitChar(d: nat): char
    requires d < 10
  {
    ('0' as int + d) as char
  }

  predicate IsDigit(c: char)
  {
    '0' as int <= c as int <= '9' as int
  }

  /** Decimal digits of `n`, most significant first, no leading zeros. */
  function NatToString(n: nat): (r: string)
    ensures |r| >= 1
    ensures forall i :: 0 <= i < |r| ==> IsDigit(r[i])
  {
    if n < 10 then [DigitChar(n)] else NatToString(n / 10) + [DigitChar(n % 10)]
  }

  /** How C# formats an `int` with the invariant culture: a leading `-` for negatives. */
  function IntToString(i: int): string
  {
    if i < 0 then "-" + NatToString(-i) else NatToString(i)
  }

  function ParseDigits(s: string): nat
    requires forall i :: 0 <= i < |s| ==> IsDigit(s[i])
  {
    if |s| == 0 then 0
    else
      assert IsDigit(s[|s| - 1]);
      ParseDigits(s[..|s| - 1]) * 10 + (s[|s| - 1] as int - '0' as int)
  }

  function ParseInt(s: string): int
    requires |s| >= 1
    requires s[0] == '-' || IsDigit(s[0])
    requires forall i :: 1 <= i < |s| ==> IsDigit(s[i])
  {
    if s[0] == '-' then -(ParseDigits(s[1..]) as int) else ParseDigits(s)
  }

  lemma {:induction false} ParseNatToString(n: nat)
    ensures ParseDigits(NatToString(n)) == n
  {
    if n >= 10 {
      var s := NatToString(n);
      assert s[..|s| - 1] == NatToString(n / 10);
      ParseNatToString(n / 10);
    }
  }

  /** Rendering an integer and reading it back gives the integer. */
  lemma ParseIntToString(i: int)
    ensures var s := IntToString(i);
      |s| >= 1 && (s[0] == '-' || IsDigit(s[0])) && (forall k :: 1 <= k < |s| ==> IsDigit(s[k]))
      && ParseInt(s) == i
  {
    if i < 0 {
      ParseNatToString(-i);
      assert IntToString(i)[1..] == NatToString(-i);
    } else {
      ParseNatToString(i);
    }
  }

  lemma IntToStringInjective(a: int, b: int)
    requires IntToString(a) == IntToString(b)
    ensures a == b
  {
    ParseIntToString(a);
    ParseIntToString(b);
  }
}
