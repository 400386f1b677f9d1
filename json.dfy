/** The part of `System.Text.Json`'s `JsonElement` the mapper relies on, over an
    abstract, already-parsed JSON tree. */
module Json {
  import opened Wrappers

  /** A JSON number literal without exponent: the value is `mantissa / 10^scale`,
      where `scale` counts the digits written after the decimal point
      (so `1.0` is `Number(10, 1)` and is not an integer literal). */
  datatype Number = Number(mantissa: int, scale: nat)

  datatype Json =
    | JNull
    | JBool(b: bool)
    | JNumber(n: Number)
    | JString(s: string)
    | JArray(items: seq<Json>)
    | JObject(members: seq<Member>)
  {
    /** The mantissa of a number, and 0 for any other kind. */
    function NumberValue(): int
    {
      if JNumber? then n.mantissa else 0
    }
  }

  datatype Member = Member(name: string, value: Json)

  /** What a `JsonElement` accessor does: return a value or throw with a message. */
  datatype Outcome<T> = Returned(value: T) | Threw(message: string)

  const Int32Min := -0x8000_0000
  const Int32Max := 0x7FFF_FFFF
  const Int64Min := -0x8000_0000_0000_0000
  const Int64Max := 0x7FFF_FFFF_FFFF_FFFF
  /** `decimal` holds a 96-bit magnitude with at most 28 digits after the point. */
  const DecimalMagnitudeLimit := 0x1_0000_0000_0000_0000_0000_0000
  const DecimalMaxScale := 28

  /** `TryGetProperty` on an object: the value of the LAST member with that name. */
  function Property(members: seq<Member>, name: string): Option<Json>
  {
    if |members| == 0 then None
    else if members[|members| - 1].name == name then Some(members[|members| - 1].value)
    else Property(members[..|members| - 1], name)
  }

  /** The property found is present exactly when some member has the name, and it
      is the value of the last such member. */
  lemma {:induction false} PropertyIsLast(members: seq<Member>, name: string)
    ensures Property(members, name).Some? <==> exists i :: 0 <= i < |members| && members[i].name == name
    ensures Property(members, name).Some? ==>
      exists i :: 0 <= i < |members| && members[i].name == name && members[i].value == Property(members, name).value
                  && forall j :: i < j < |members| ==> members[j].name != name
  {
    if |members| > 0 && members[|members| - 1].name != name {
      var last := |members| - 1;
      var init := members[..last];
      PropertyIsLast(init, name);
      assert Property(members, name) == Property(init, name);
      if Property(init, name).Some? {
        var i :| 0 <= i < |init| && init[i].name == name && init[i].value == Property(init, name).value
                 && forall j :: i < j < |init| ==> init[j].name != name;
        assert members[i] == init[i];
        forall j | i < j < |members|
          ensures members[j].name != name
        {
          if j < last { assert members[j] == init[j]; }
        }
      } else {
        forall i | 0 <= i < |members|
          ensures members[i].name != name
        {
          if i < last { assert members[i] == init[i]; }
        }
      }
    }
  }

  /** The `JsonValueKind` name of an element's kind. */
  function KindName(e: Json): (k: string)
    ensures k in {"Null", "True", "False", "Number", "String", "Array", "Object"}
    ensures (k == "Object") == e.JObject? && (k == "Number") == e.JNumber? && (k == "String") == e.JString?
  {
    match e
    case JNull => "Null"
    case JBool(b) => if b then "True" else "False"
    case JNumber(_) => "Number"
    case JString(_) => "String"
    case JArray(_) => "Array"
    case JObject(_) => "Object"
  }

  /** The message every accessor throws when the element has the wrong kind:
      the kind it needs, then the kind it found. */
  function WrongKind(expected: string, actual: Json): string
  {
    "The requested operation requires an element of type '" + expected
      + "', but the target element has type '" + KindName(actual) + "'."
  }

  /** The default message of a `FormatException`, which the integer accessors
      throw for a number they cannot represent. */
  const NumberFormatMessage := "One of the identified items was in an invalid format."

  /** `TryGetProperty(name, out v)` on any element: objects answer, all other kinds throw. */
  function TryGetProperty(e: Json, name: string): (r: Outcome<Option<Json>>)
    ensures r.Returned? <==> e.JObject?
    ensures e.JObject? ==> r.value == Property(e.members, name)
    ensures !e.JObject? ==> r == Threw(WrongKind("Object", e))
  {
    if e.JObject? then Returned(Property(e.members, name)) else Threw(WrongKind("Object", e))
  }

  predicate IsInt32(n: Number)
  {
    n.scale == 0 && Int32Min <= n.mantissa <= Int32Max
  }

  predicate IsInt64(n: Number)
  {
    n.scale == 0 && Int64Min <= n.mantissa <= Int64Max
  }

  function Pow10(k: nat): (p: int)
    ensures p >= 1
  {
    if k == 0 then 1 else 10 * Pow10(k - 1)
  }

  /** `a / 10^d` for a magnitude `a`, rounded to the nearest integer and, on a
      tie, to the even one. */
  function RoundMagnitude(a: nat, d: nat): int
  {
    var p := Pow10(d);
    var q := a / p;
    var r := a % p;
    if 2 * r > p || (2 * r == p && q % 2 == 1) then q + 1 else q
  }

  /** `m / 10^d` rounded half to even; a negative value rounds as its magnitude
      does. */
  function RoundHalfEven(m: int, d: nat): int
  {
    if m < 0 then -RoundMagnitude(-m, d) else RoundMagnitude(m, d)
  }

  lemma RoundMagnitudeIsNearest(a: nat, d: nat, p: int, q: int)
    requires p == Pow10(d) && q == RoundMagnitude(a, d)
    ensures -p <= 2 * (a - q * p) <= p
    ensures 2 * (a - q * p) == p || 2 * (a - q * p) == -p ==> q % 2 == 0
  {
    var k := a / p;
    var r := a % p;
    DivModOf(a, p);
    if q == k + 1 {
      MulSucc(k, p);
    }
  }

  lemma DivModOf(a: nat, p: int)
    requires p >= 1
    ensures a == (a / p) * p + a % p && 0 <= a % p < p
  {
  }

  lemma MulSucc(k: int, p: int)
    ensures (k + 1) * p == k * p + p
  {
  }

  lemma MulNeg(q: int, p: int)
    ensures (-q) * p == -(q * p)
  {
  }

  /** The rounded value is within half a unit of `m / 10^d`, and a tie goes to
      an even quotient. */
  lemma RoundHalfEvenIsNearest(m: int, d: nat, p: int, q: int)
    requires p == Pow10(d) && q == RoundHalfEven(m, d)
    ensures -p <= 2 * (m - q * p) <= p
    ensures 2 * (m - q * p) == p || 2 * (m - q * p) == -p ==> q % 2 == 0
  {
    if m < 0 {
      RoundMagnitudeIsNearest(-m, d, p, -q);
      MulNeg(q, p);
    } else {
      RoundMagnitudeIsNearest(m, d, p, q);
    }
  }

  predicate FitsDecimal(m: int)
  {
    -DecimalMagnitudeLimit < m < DecimalMagnitudeLimit
  }

  /** The literal rounded to `e` digits after the point. */
  function DecimalAt(n: Number, e: nat): (r: Number)
    requires e <= n.scale
    ensures r.scale == e
  {
    Number(RoundHalfEven(n.mantissa, n.scale - e), e)
  }

  /** The most digits after the point a `decimal` read of `n` may keep. */
  function TopScale(n: Number): nat
  {
    if n.scale < DecimalMaxScale then n.scale else DecimalMaxScale
  }

  /** The largest scale from `e` down whose rounding fits 96 bits. */
  function DecimalSearch(n: Number, e: nat): Option<Number>
    requires e <= n.scale
  {
    if FitsDecimal(DecimalAt(n, e).mantissa) then Some(DecimalAt(n, e))
    else if e == 0 then None
    else DecimalSearch(n, e - 1)
  }

  /** `TryGetDecimal`: the literal rounded half to even to the most digits after
      the point, at most 28, whose magnitude fits 96 bits; nothing when not
      even the integer part fits. */
  function DecimalOf(n: Number): Option<Number>
  {
    DecimalSearch(n, TopScale(n))
  }

  lemma {:induction false} DecimalSearchIsLargest(n: Number, e: nat)
    requires e <= n.scale
    ensures DecimalSearch(n, e).None? <==> forall k :: 0 <= k <= e ==> !FitsDecimal(DecimalAt(n, k).mantissa)
    ensures DecimalSearch(n, e).Some? ==>
      var r := DecimalSearch(n, e).value;
      r.scale <= e && r == DecimalAt(n, r.scale) && FitsDecimal(r.mantissa)
      && forall k :: r.scale < k <= e ==> !FitsDecimal(DecimalAt(n, k).mantissa)
    decreases e
  {
    if !FitsDecimal(DecimalAt(n, e).mantissa) && e > 0 {
      DecimalSearchIsLargest(n, e - 1);
    }
  }

  /** A `decimal` read is the literal rounded to the largest scale, at most the
      literal's own and at most 28, whose magnitude fits 96 bits; it fails
      exactly when no scale fits. */
  lemma DecimalOfIsLargestFit(n: Number)
    ensures DecimalOf(n).None? <==> forall k :: 0 <= k <= TopScale(n) ==> !FitsDecimal(DecimalAt(n, k).mantissa)
    ensures DecimalOf(n).Some? ==>
      var r := DecimalOf(n).value;
      r.scale <= n.scale && r.scale <= DecimalMaxScale && r == DecimalAt(n, r.scale) && FitsDecimal(r.mantissa)
      && forall k :: r.scale < k <= TopScale(n) ==> !FitsDecimal(DecimalAt(n, k).mantissa)
  {
    DecimalSearchIsLargest(n, TopScale(n));
  }

  /** A literal with at most 28 fraction digits and a 96-bit mantissa is read
      exactly. */
  lemma DecimalOfExact(n: Number)
    requires n.scale <= DecimalMaxScale && FitsDecimal(n.mantissa)
    ensures DecimalOf(n) == Some(n)
  {
    assert RoundHalfEven(n.mantissa, 0) == n.mantissa;
  }

  /** A 29th fraction digit is rounded away rather than refused. */
  lemma DecimalOfRoundsExtraDigits()
    ensures DecimalOf(Number(12345678901234567890123456789, 29))
         == Some(Number(1234567890123456789012345679, 28))
  {
    var n := Number(12345678901234567890123456789, 29);
    assert Pow10(1) == 10;
    assert RoundHalfEven(n.mantissa, 1) == 1234567890123456789012345679;
  }

  /** `GetString()`: the text of a string, null for JSON null, and a throw otherwise. */
  function GetString(e: Json): (r: Outcome<Option<string>>)
    ensures r.Returned? <==> e.JString? || e.JNull?
    ensures r.Returned? ==> (r.value.Some? <==> e.JString?)
    ensures r.Returned? && e.JString? ==> r.value.value == e.s
    ensures r.Threw? ==> r.message == WrongKind("String", e)
  {
    match e
    case JString(s) => Returned(Some(s))
    case JNull => Returned(None)
    case _ => Threw(WrongKind("String", e))
  }

  /** `GetInt32()`: throws unless the element is an integer literal within 32 bits. */
  function GetInt32(e: Json): (r: Outcome<int>)
    ensures r.Returned? <==> e.JNumber? && IsInt32(e.n)
    ensures r.Returned? ==> r.value == e.n.mantissa && Int32Min <= r.value <= Int32Max
    ensures !e.JNumber? ==> r == Threw(WrongKind("Number", e))
    ensures e.JNumber? && !IsInt32(e.n) ==> r == Threw(NumberFormatMessage)
  {
    if !e.JNumber? then Threw(WrongKind("Number", e))
    else if !IsInt32(e.n) then Threw(NumberFormatMessage)
    else Returned(e.n.mantissa)
  }

  /** `GetInt64()`: throws unless the element is an integer literal within 64 bits. */
  function GetInt64(e: Json): (r: Outcome<int>)
    ensures r.Returned? <==> e.JNumber? && IsInt64(e.n)
    ensures r.Returned? ==> r.value == e.n.mantissa && Int64Min <= r.value <= Int64Max
    ensures !e.JNumber? ==> r == Threw(WrongKind("Number", e))
    ensures e.JNumber? && !IsInt64(e.n) ==> r == Threw(NumberFormatMessage)
  {
    if !e.JNumber? then Threw(WrongKind("Number", e))
    else if !IsInt64(e.n) then Threw(NumberFormatMessage)
    else Returned(e.n.mantissa)
  }

  /** Every `Int32` number also reads as an `Int64`, with the same value. */
  lemma Int32IsInt64(e: Json)
    requires GetInt32(e).Returned?
    ensures GetInt64(e) == Returned(GetInt32(e).value)
  {
  }
}
