/**
 * The provider-independent parts of BaseProvider that compute values: the check of
 * the options a verification is started with, the generic event mapping, and the
 * wrapping of foreign errors into the SDK's error type. The stateful parts (the
 * emitter, `destroy`, `_isLoaded`, `activeUI`) live in the SocureProvider class.
 */
module BaseProvider {
  import opened Wrappers
  import opened VecuErrors
  import opened JsValue

  /** The provider's `name`. */
  const PROVIDER_NAME: string := "socure"

  const INVALID_OPTIONS: string := "INVALID_OPTIONS"
  const SESSION_ID_REQUIRED: string := "Session ID is required"
  const TOKEN_REQUIRED: string := "Token is required"
  const CONTAINER_REQUIRED: string := "Valid HTML container element is required"
  const MODE_INVALID: string := "Mode must be either \"modal\" or \"embedded\""

  /** What the caller passed as `options.container`. */
  datatype ContainerArg =
    | NoContainer               // missing, null or another falsy value
    | NotAnElement(v: Value)    // a truthy value that is not an HTMLElement
    | Element(id: nat)          // an HTMLElement, by node identity

  /** `VerificationOptions`: the typed fields are strings, `config` is an untyped record. */
  datatype InitOptions = InitOptions(
    sessionId: string, token: string, container: ContainerArg, mode: string, config: Value)

  predicate ValidMode(mode: string) {
    mode == "modal" || mode == "embedded"
  }

  /** The options `validateInitOptions` lets through. */
  predicate AcceptedOptions(o: InitOptions) {
    o.sessionId != "" && o.token != "" && o.container.Element? && ValidMode(o.mode)
  }

  /**
   * validateInitOptions: the first failing check, in the order session id, token,
   * container, mode, gives an INVALID_OPTIONS error; no error means every check held.
   */
  function ValidateInitOptions(o: InitOptions): (r: Option<Failure>)
    ensures r.None? <==> AcceptedOptions(o)
    ensures r.Some? ==> r.value.VecuError? && r.value.code == INVALID_OPTIONS
    ensures r == Some(VecuError(INVALID_OPTIONS, SESSION_ID_REQUIRED)) <==> o.sessionId == ""
    ensures r == Some(VecuError(INVALID_OPTIONS, TOKEN_REQUIRED)) <==> o.sessionId != "" && o.token == ""
    ensures r == Some(VecuError(INVALID_OPTIONS, CONTAINER_REQUIRED)) <==>
      o.sessionId != "" && o.token != "" && !o.container.Element?
    ensures r == Some(VecuError(INVALID_OPTIONS, MODE_INVALID)) <==>
      o.sessionId != "" && o.token != "" && o.container.Element? && !ValidMode(o.mode)
  {
    if o.sessionId == "" then Some(VecuError(INVALID_OPTIONS, SESSION_ID_REQUIRED))
    else if o.token == "" then Some(VecuError(INVALID_OPTIONS, TOKEN_REQUIRED))
    else if !o.container.Element? then Some(VecuError(INVALID_OPTIONS, CONTAINER_REQUIRED))
    else if !ValidMode(o.mode) then Some(VecuError(INVALID_OPTIONS, MODE_INVALID))
    else None
  }

  /** A generic provider event: `{ type, data }` (its `timestamp` is a clock reading). */
  datatype GenericEvent = GenericEvent(eventType: string, data: Value)

  /**
   * BaseProvider.mapEvent: nothing for a non-object; otherwise the type, stringified,
   * defaulting to 'unknown', and the `data` field, defaulting to the event itself.
   */
  function MapGenericEvent(event: Value): (r: Option<GenericEvent>)
    ensures r.None? <==> !IsObject(event)
    ensures r.Some? && !Truthy(Get(event, "type")) ==> r.value.eventType == "unknown"
    ensures r.Some? && Get(event, "type").Str? && Truthy(Get(event, "type")) ==>
      r.value.eventType == Get(event, "type").s
    ensures r.Some? && Truthy(Get(event, "data")) ==> r.value.data == Get(event, "data")
    ensures r.Some? && !Truthy(Get(event, "data")) ==> r.value.data == event
  {
    if !Truthy(event) || !IsObject(event) then None
    else Some(GenericEvent(ToJsString(Or(Get(event, "type"), Str("unknown"))), Or(Get(event, "data"), event)))
  }

  /**
   * The error handleProviderError rethrows: a VecuError (or subclass) as it is;
   * anything else as a PROVIDER_ERROR that names the provider and the context, with
   * an Error's message or the text of a thrown non-Error.
   */
  function WrapProviderError(error: Failure, context: string): (r: Failure)
    ensures IsVecuError(r)
    ensures IsVecuError(error) ==> r == error
    ensures !IsVecuError(error) ==> r.VecuError? && r.code == "PROVIDER_ERROR"
    ensures !IsVecuError(error) ==>
      r.message == "socure provider error in " + context + ": " + (if error.NonError? then error.text else error.message)
  {
    if IsVecuError(error) then error
    else VecuError("PROVIDER_ERROR", PROVIDER_NAME + " provider error in " + context + ": " + Describe(error))
  }

  /** Wrapping twice is wrapping once: an error passed through two handlers keeps the first context. */
  lemma WrapProviderErrorIdempotent(error: Failure, inner: string, outer: string)
    ensures WrapProviderError(WrapProviderError(error, inner), outer) == WrapProviderError(error, inner)
  {
  }
}
