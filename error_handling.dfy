/**
 * The demo application's error utilities: the user-facing message of a thrown value,
 * the message for an HTTP status, the network-error test, and the wrapper that turns a
 * promise into a `[data, error]` pair.
 */
module ErrorHandling {
  import opened Wrappers
  import Text

  /** A thrown value, by the class `instanceof` distinguishes. */
  datatype Thrown =
    | VerificationErr(message: string, statusCode: Option<int>, code: Option<string>)
    | SdkErr(message: string, sdkProvider: Option<string>)
    | TypeErr(message: string)        // a built-in TypeError, such as a failed fetch
    | OtherErr(message: string)       // any other Error
    | NotAnError                      // a thrown string, number, object literal, ...
  {
    predicate IsError() { !NotAnError? }
  }

  const UNKNOWN_ERROR: string := "An unknown error occurred"

  /** `s ? a : b` for an optional string. */
  predicate TruthyString(s: Option<string>) {
    s.Some? && s.value != ""
  }

  /**
   * getErrorMessage: VerificationError first, then SDKError (naming its provider only
   * when one is set), then any Error's own message, then the fixed unknown-error text.
   */
  function GetErrorMessage(error: Thrown): (r: string)
    ensures error.VerificationErr? ==> r == "Verification failed: " + error.message
    ensures error.SdkErr? && TruthyString(error.sdkProvider) ==>
      r == "SDK Error (" + error.sdkProvider.value + "): " + error.message
    ensures error.SdkErr? && !TruthyString(error.sdkProvider) ==> r == "SDK Error: " + error.message
    ensures (error.TypeErr? || error.OtherErr?) ==> r == error.message
    ensures error.NotAnError? ==> r == UNKNOWN_ERROR
  {
    match error
    case VerificationErr(message, _, _) => "Verification failed: " + message
    case SdkErr(message, provider) =>
      "SDK Error" + (if TruthyString(provider) then " (" + provider.value + ")" else "") + ": " + message
    case TypeErr(message) => message
    case OtherErr(message) => message
    case NotAnError => UNKNOWN_ERROR
  }

  /** Every Error's message survives into the user-facing text, at its end. */
  lemma ErrorMessageEndsWithOwnMessage(error: Thrown)
    requires error.IsError()
    ensures var r := GetErrorMessage(error);
      |error.message| <= |r| && r[|r| - |error.message|..] == error.message
  {
    var r := GetErrorMessage(error);
    match error
    case VerificationErr(m, _, _) =>
      assert r == "Verification failed: " + m;
    case SdkErr(m, p) =>
      var head := "SDK Error" + (if TruthyString(p) then " (" + p.value + ")" else "") + ": ";
      assert r == head + m;
    case TypeErr(_) =>
    case OtherErr(_) =>
  }

  /** The prefixes getHttpErrorMessage puts before the message, by status code. */
  const HTTP_PREFIXES: map<int, string> := map[
    400 := "Bad Request",
    401 := "Authentication failed",
    403 := "Access denied",
    404 := "Service not found",
    429 := "Too many requests",
    500 := "Server error",
    503 := "Service unavailable"]

  const UNKNOWN_HTTP_ERROR: string := "Unknown error"

  /** `errorMessage || 'Unknown error'`. */
  function BaseMessage(errorMessage: Option<string>): (r: string)
    ensures r != ""
    ensures TruthyString(errorMessage) ==> r == errorMessage.value
  {
    if TruthyString(errorMessage) then errorMessage.value else UNKNOWN_HTTP_ERROR
  }

  /**
   * getHttpErrorMessage: the seven known codes put their fixed prefix and ": " before the
   * base message; any other code, or none, gives the base message alone.
   */
  function GetHttpErrorMessage(statusCode: Option<int>, errorMessage: Option<string>): (r: string)
    ensures statusCode.Some? && statusCode.value in HTTP_PREFIXES ==>
      r == HTTP_PREFIXES[statusCode.value] + ": " + BaseMessage(errorMessage)
    ensures !(statusCode.Some? && statusCode.value in HTTP_PREFIXES) ==> r == BaseMessage(errorMessage)
  {
    var base := BaseMessage(errorMessage);
    match statusCode
    case Some(400) => "Bad Request: " + base
    case Some(401) => "Authentication failed: " + base
    case Some(403) => "Access denied: " + base
    case Some(404) => "Service not found: " + base
    case Some(429) => "Too many requests: " + base
    case Some(500) => "Server error: " + base
    case Some(503) => "Service unavailable: " + base
    case _ => base
  }

  /** The message always ends with the base message, and is exactly it unless the code is known. */
  lemma HttpMessageShape(statusCode: Option<int>, errorMessage: Option<string>)
    ensures var r := GetHttpErrorMessage(statusCode, errorMessage);
      var base := BaseMessage(errorMessage);
      && |base| <= |r| && r[|r| - |base|..] == base
      && (r == base <==> !(statusCode.Some? && statusCode.value in HTTP_PREFIXES))
  {
    var r := GetHttpErrorMessage(statusCode, errorMessage);
    var base := BaseMessage(errorMessage);
    if statusCode.Some? && statusCode.value in HTTP_PREFIXES {
      var head := HTTP_PREFIXES[statusCode.value] + ": ";
      assert r == head + base;
      assert |r| > |base|;
    }
  }

  /**
   * isNetworkError: a TypeError whose message mentions `fetch`. Such an error is at least
   * as long as "fetch", and getErrorMessage shows it as its own message.
   */
  predicate IsNetworkError(error: Thrown): (b: bool)
    ensures b ==> error.TypeErr? && |error.message| >= 5
    ensures b ==> GetErrorMessage(error) == error.message
  {
    error.TypeErr? && Text.Contains(error.message, "fetch")
  }

  /**
   * The standard browser fetch failure is a network error; nothing but a TypeError ever
   * is, and a TypeError is one exactly when its message contains "fetch".
   */
  lemma NetworkErrorCases(prefix: string, suffix: string)
    ensures IsNetworkError(TypeErr(prefix + "fetch" + suffix))
    ensures forall e: Thrown :: IsNetworkError(e) <==> e.TypeErr? && Text.Contains(e.message, "fetch")
    ensures forall e: Thrown :: !e.TypeErr? ==> !IsNetworkError(e)
  {
    Text.ContainsInfix(prefix, "fetch", suffix);
  }

  /** An Error object whose `message` property can be reassigned. */
  class ErrorObject {
    var message: string

    constructor (message: string)
      ensures this.message == message
    {
      this.message := message;
    }
  }

  /**
   * handleAsyncError, on the settled promise: a value gives `[data, null]`; an error gives
   * `[null, error]` with the SAME error object, whose message is prefixed with
   * `errorMessage: ` only when a non-empty errorMessage is given.
   */
  method HandleAsyncError<T>(outcome: Result<T, ErrorObject>, errorMessage: Option<string>)
    returns (data: Option<T>, err: Option<ErrorObject>)
    modifies if outcome.Err? then {outcome.error} else {}
    ensures outcome.Ok? ==> data == Some(outcome.value) && err == None
    ensures outcome.Err? ==> data == None && err == Some(outcome.error)
    ensures outcome.Err? && TruthyString(errorMessage) ==>
      outcome.error.message == errorMessage.value + ": " + old(outcome.error.message)
    ensures outcome.Err? && !TruthyString(errorMessage) ==>
      outcome.error.message == old(outcome.error.message)
  {
    match outcome
    case Ok(value) =>
      data, err := Some(value), None;
    case Err(error) =>
      if TruthyString(errorMessage) {
        error.message := errorMessage.value + ": " + error.message;
      }
      data, err := None, Some(error);
  }
}
