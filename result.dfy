/** The two-variant outcome type threaded through the services (`Result<T>`),
    the `Error` record and the fixed table of `DomainErrors`. */
module Results {
  import opened Wrappers
  import opened Text

  /** `Error(Code, Message)`. */
  datatype Error = Error(code: string, message: string)

  /** `Error.ToString()`: `"<Code>: <Message>"`. */
  function ErrorToString(e: Error): string
  {
    e.code + ": " + e.message
  }

  /** The text before the first `c` in `s` (all of `s` when there is none). */
  function TextBefore(s: string, c: char): (r: string)
    ensures |r| <= |s| && r == s[..|r|] && c !in r
  {
    if |s| == 0 || s[0] == c then "" else [s[0]] + TextBefore(s[1..], c)
  }

  lemma {:induction false} TextBeforeOfPrefix(a: string, c: char, b: string)
    requires c !in a
    ensures TextBefore(a + [c] + b, c) == a
    decreases |a|
  {
    if |a| > 0 {
      assert (a + [c] + b)[1..] == a[1..] + [c] + b;
      TextBeforeOfPrefix(a[1..], c, b);
      assert [a[0]] + a[1..] == a;
    }
  }

  /** A rendered error gives its code back when the code has no colon, as none of
      the `DomainErrors` codes has. */
  lemma ErrorToStringCode(e: Error)
    requires ':' !in e.code
    ensures TextBefore(ErrorToString(e), ':') == e.code
  {
    assert ErrorToString(e) == e.code + [':'] + (" " + e.message);
    TextBeforeOfPrefix(e.code, ':', " " + e.message);
  }

  /** `Result<T>`: `Success(value)` or `Failure(error)`; the private constructors
      of the record allow no other combination of `Value` and `Error`. */
  datatype Result<T> = Success(value: T) | Failure(error: Error) {

    /** `IsSuccess => Error is null`. */
    predicate IsSuccess()
    {
      ErrorOrNull().None?
    }

    /** `IsFailure => Error is not null`. */
    predicate IsFailure()
    {
      ErrorOrNull().Some?
    }

    /** The `Error` property: null on a success. */
    function ErrorOrNull(): Option<Error>
    {
      if Failure? then Some(error) else None
    }

    /** The `Value` property: `default(T)`, shown here as none, on a failure. */
    function ValueOrDefault(): Option<T>
    {
      if Success? then Some(value) else None
    }

    function Map<U>(transform: T -> U): (r: Result<U>)
      ensures r.IsSuccess() <==> IsSuccess()
      ensures IsSuccess() ==> r == Result<U>.Success(transform(value))
      ensures IsFailure() ==> r.ErrorOrNull() == ErrorOrNull()
    {
      if IsSuccess() then Result<U>.Success(transform(value)) else Result<U>.Failure(error)
    }

    function Bind<U>(transform: T -> Result<U>): (r: Result<U>)
      ensures IsSuccess() ==> r == transform(value)
      ensures IsFailure() ==> r == Result<U>.Failure(error)
    {
      if IsSuccess() then transform(value) else Result<U>.Failure(error)
    }

    /** `Unwrap()` throws `InvalidOperationException` on a failure: callers must
        know the result succeeded. */
    function Unwrap(): T
      requires IsSuccess()
    {
      value
    }

    /** The message of the exception `Unwrap()` throws on a failure. */
    function UnwrapFailureMessage(): string
      requires IsFailure()
    {
      "Cannot unwrap failed result: " + ErrorToString(error)
    }

    function UnwrapOr(defaultValue: T): (r: T)
      ensures IsSuccess() ==> r == value
      ensures IsFailure() ==> r == defaultValue
    {
      if IsSuccess() then value else defaultValue
    }

    function UnwrapOrElse(defaultValueFactory: Error -> T): (r: T)
      ensures IsSuccess() ==> r == value
      ensures IsFailure() ==> r == defaultValueFactory(error)
    {
      if IsSuccess() then value else defaultValueFactory(error)
    }

    /** `OnSuccess(action)`: the action's effect is recorded by appending what it
        produces to `effects`; the receiver itself is returned. */
    function OnSuccess<A>(action: T -> A, effects: seq<A>): (r: (Result<T>, seq<A>))
      ensures r.0 == this
      ensures r.1 == if IsSuccess() then effects + [action(value)] else effects
    {
      (this, if IsSuccess() then effects + [action(value)] else effects)
    }

    function OnFailure<A>(action: Error -> A, effects: seq<A>): (r: (Result<T>, seq<A>))
      ensures r.0 == this
      ensures r.1 == if IsFailure() then effects + [action(error)] else effects
    {
      (this, if IsFailure() then effects + [action(error)] else effects)
    }
  }

  /** Exactly one of `Value` and `Error` is present, and `IsFailure` negates `IsSuccess`. */
  lemma SuccessIffNoError<T>(r: Result<T>)
    ensures r.IsSuccess() <==> r.ErrorOrNull() == None
    ensures r.IsFailure() <==> !r.IsSuccess()
    ensures r.IsSuccess() <==> r.ValueOrDefault().Some?
  {
  }

  lemma Constructors<T>(v: T, e: Error)
    ensures Result<T>.Success(v).ValueOrDefault() == Some(v) && Result<T>.Success(v).ErrorOrNull() == None
    ensures Result<T>.Failure(e).ErrorOrNull() == Some(e) && Result<T>.Failure(e).ValueOrDefault() == None
  {
  }

  /** `Map` is `Bind` followed by `Success`, and obeys the identity and composition laws. */
  lemma MapLaws<T, U, V>(r: Result<T>, f: T -> U, g: U -> V)
    ensures r.Map(f) == r.Bind(x => Result<U>.Success(f(x)))
    ensures r.Map(x => x) == r
    ensures r.Map(f).Map(g) == r.Map(x => g(f(x)))
  {
  }

  /** The monad laws: `Success` is a unit on both sides of `Bind`, and `Bind` associates. */
  lemma BindLaws<T, U, V>(v: T, r: Result<T>, f: T -> Result<U>, g: U -> Result<V>)
    ensures Result<T>.Success(v).Bind(f) == f(v)
    ensures r.Bind(x => Result<T>.Success(x)) == r
    ensures r.Bind(f).Bind(g) == r.Bind(x => f(x).Bind(g))
  {
  }

  // ---- DomainErrors ----

  const ValidationRequiredCode := "VALIDATION_REQUIRED"
  const ValidationInvalidCode := "VALIDATION_INVALID"
  const ValidationFormatCode := "VALIDATION_FORMAT"
  const NetworkRequestFailedCode := "NETWORK_REQUEST_FAILED"
  const NetworkTimeoutCode := "NETWORK_TIMEOUT"
  const NetworkConnectionFailedCode := "NETWORK_CONNECTION_FAILED"
  const DataParseErrorCode := "DATA_PARSE_ERROR"
  const DataNotFoundCode := "DATA_NOT_FOUND"
  const ConfigMissingApiKeyCode := "CONFIG_MISSING_API_KEY"
  const ConfigInvalidCode := "CONFIG_INVALID"

  /** Every code `DomainErrors` can produce. */
  const DomainCodes: seq<string> := [
    ValidationRequiredCode, ValidationInvalidCode, ValidationFormatCode,
    NetworkRequestFailedCode, NetworkTimeoutCode, NetworkConnectionFailedCode,
    DataParseErrorCode, DataNotFoundCode, ConfigMissingApiKeyCode, ConfigInvalidCode]

  const RequestFailedPrefix := "Request failed with status code "

  function Required(fieldName: string): Error
  {
    Error(ValidationRequiredCode, fieldName + " is required")
  }

  function InvalidValue(fieldName: string, value: string): Error
  {
    Error(ValidationInvalidCode, "Invalid value '" + value + "' for " + fieldName)
  }

  function InvalidFormat(fieldName: string): Error
  {
    Error(ValidationFormatCode, fieldName + " has invalid format")
  }

  function RequestFailed(statusCode: int): Error
  {
    Error(NetworkRequestFailedCode, RequestFailedPrefix + IntToString(statusCode))
  }

  function Timeout(): Error
  {
    Error(NetworkTimeoutCode, "Request timed out")
  }

  function ConnectionFailed(): Error
  {
    Error(NetworkConnectionFailedCode, "Failed to establish connection")
  }

  function ParseError(dataType: string): Error
  {
    Error(DataParseErrorCode, "Failed to parse " + dataType)
  }

  function NotFound(resourceType: string, identifier: string): Error
  {
    Error(DataNotFoundCode, resourceType + " with identifier '" + identifier + "' not found")
  }

  function MissingApiKey(): Error
  {
    Error(ConfigMissingApiKeyCode, "API key is not configured")
  }

  function InvalidConfiguration(setting: string): Error
  {
    Error(ConfigInvalidCode, "Invalid configuration for " + setting)
  }

  /** The ten codes are distinct, and none has a colon, so `Error.ToString()`
      always shows the code before the first colon. */
  lemma DomainCodesDistinct()
    ensures |DomainCodes| == 10
    ensures forall i, j :: 0 <= i < j < |DomainCodes| ==> DomainCodes[i] != DomainCodes[j]
    ensures forall i :: 0 <= i < |DomainCodes| ==> ':' !in DomainCodes[i]
  {
  }

  /** Each factory produces one fixed code, whatever its arguments. */
  lemma FactoryCodes(f: string, v: string, n: int)
    ensures Required(f).code == ValidationRequiredCode && InvalidValue(f, v).code == ValidationInvalidCode
    ensures InvalidFormat(f).code == ValidationFormatCode && RequestFailed(n).code == NetworkRequestFailedCode
    ensures Timeout().code == NetworkTimeoutCode && ConnectionFailed().code == NetworkConnectionFailedCode
    ensures ParseError(f).code == DataParseErrorCode && NotFound(f, v).code == DataNotFoundCode
    ensures MissingApiKey().code == ConfigMissingApiKeyCode && InvalidConfiguration(f).code == ConfigInvalidCode
  {
  }

  /** `RequestFailed(n)` carries `n`: the status code can be read back from the
      message, so distinct status codes give distinct errors. */
  lemma {:induction false} RequestFailedCarriesStatus(n: int)
    ensures var m := RequestFailed(n).message;
      |m| > |RequestFailedPrefix| && m[..|RequestFailedPrefix|] == RequestFailedPrefix
      && var digits := m[|RequestFailedPrefix|..];
         (digits[0] == '-' || IsDigit(digits[0])) && (forall k :: 1 <= k < |digits| ==> IsDigit(digits[k]))
         && ParseInt(digits) == n
  {
    var m := RequestFailed(n).message;
    assert m[|RequestFailedPrefix|..] == IntToString(n);
    ParseIntToString(n);
  }

  lemma RequestFailedInjective(a: int, b: int)
    requires RequestFailed(a) == RequestFailed(b)
    ensures a == b
  {
    RequestFailedCarriesStatus(a);
    RequestFailedCarriesStatus(b);
  }
}
