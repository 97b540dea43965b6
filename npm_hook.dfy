/**
 * The React hook that drives a verification through the NPM build of the SDK: the
 * idle / verifying / completed / failed state, the message shown after a failed start,
 * and the two references it keeps (the SDK instance and the session's cleanup function).
 * React state setters are modelled as immediate field updates.
 */
module NpmHook {
  import opened Wrappers
  import opened JsValue
  import Text
  import MessageRules

  const CORS_ERROR: string := "Unable to connect to verification service. This may be due to network restrictions or configuration issues."
  const NETWORK_ERROR: string := "Network connection error. Please check your internet connection and try again."
  const TIMEOUT_ERROR: string := "Request timed out. Please try again."
  const AUTH_ERROR: string := "Authentication failed. Please check your credentials."
  const FORBIDDEN_ERROR: string := "Access denied. Please check your permissions."
  const NOT_FOUND_ERROR: string := "Verification service not found. Please check your configuration."
  const SERVER_ERROR: string := "Verification service is temporarily unavailable. Please try again later."
  const GENERIC_ERROR: string := "Something went wrong during verification. Please try again."

  /** The hook's classifier, rule by rule in the order it tests them. */
  const HOOK_RULES: seq<MessageRules.Rule> := [
    MessageRules.Rule(["CORS", "Access-Control-Allow-Origin"], CORS_ERROR),
    MessageRules.Rule(["Failed to fetch"], NETWORK_ERROR),
    MessageRules.Rule(["timeout", "timed out"], TIMEOUT_ERROR),
    MessageRules.Rule(["401", "Unauthorized"], AUTH_ERROR),
    MessageRules.Rule(["403", "Forbidden"], FORBIDDEN_ERROR),
    MessageRules.Rule(["404"], NOT_FOUND_ERROR),
    MessageRules.Rule(["500", "Internal Server Error"], SERVER_ERROR)]

  const CONTAINER_NOT_FOUND: string := "Verification container not found"
  const COMPLETION_MESSAGE: string := "Verification completed successfully with NPM SDK!"

  /**
   * The user-facing message for a failed start: the first rule whose substrings the
   * original message contains, in the order CORS, fetch failure, timeout, 401, 403, 404,
   * 500; the generic message when none does.
   */
  method ClassifyInitError(originalMessage: string) returns (userFriendlyMessage: string)
    ensures MessageRules.ClassifiedAs(HOOK_RULES, originalMessage, GENERIC_ERROR, userFriendlyMessage)
    ensures userFriendlyMessage == MessageRules.Classify(HOOK_RULES, originalMessage, GENERIC_ERROR)
  {
    var m := originalMessage;
    var cors := Text.Contains(m, "CORS") || Text.Contains(m, "Access-Control-Allow-Origin");
    var fetch := Text.Contains(m, "Failed to fetch");
    var timeout := Text.Contains(m, "timeout") || Text.Contains(m, "timed out");
    var unauthorized := Text.Contains(m, "401") || Text.Contains(m, "Unauthorized");
    var forbidden := Text.Contains(m, "403") || Text.Contains(m, "Forbidden");
    var notFound := Text.Contains(m, "404");
    var server := Text.Contains(m, "500") || Text.Contains(m, "Internal Server Error");
    RuleMatches(m);
    if cors {
      userFriendlyMessage := CORS_ERROR;
      MessageRules.ClassifiedAtFirstMatch(HOOK_RULES, m, GENERIC_ERROR, 0);
    } else if fetch {
      userFriendlyMessage := NETWORK_ERROR;
      MessageRules.ClassifiedAtFirstMatch(HOOK_RULES, m, GENERIC_ERROR, 1);
    } else if timeout {
      userFriendlyMessage := TIMEOUT_ERROR;
      MessageRules.ClassifiedAtFirstMatch(HOOK_RULES, m, GENERIC_ERROR, 2);
    } else if unauthorized {
      userFriendlyMessage := AUTH_ERROR;
      MessageRules.ClassifiedAtFirstMatch(HOOK_RULES, m, GENERIC_ERROR, 3);
    } else if forbidden {
      userFriendlyMessage := FORBIDDEN_ERROR;
      MessageRules.ClassifiedAtFirstMatch(HOOK_RULES, m, GENERIC_ERROR, 4);
    } else if notFound {
      userFriendlyMessage := NOT_FOUND_ERROR;
      MessageRules.ClassifiedAtFirstMatch(HOOK_RULES, m, GENERIC_ERROR, 5);
    } else if server {
      userFriendlyMessage := SERVER_ERROR;
      MessageRules.ClassifiedAtFirstMatch(HOOK_RULES, m, GENERIC_ERROR, 6);
    } else {
      userFriendlyMessage := GENERIC_ERROR;
      MessageRules.ClassifiedAtNoMatch(HOOK_RULES, m, GENERIC_ERROR);
    }
  }

  /** Each of the hook's rules matches exactly when the message contains one of its substrings. */
  lemma RuleMatches(m: string)
    ensures MessageRules.Matches(HOOK_RULES[0], m) <==> Text.Contains(m, "CORS") || Text.Contains(m, "Access-Control-Allow-Origin")
    ensures MessageRules.Matches(HOOK_RULES[1], m) <==> Text.Contains(m, "Failed to fetch")
    ensures MessageRules.Matches(HOOK_RULES[2], m) <==> Text.Contains(m, "timeout") || Text.Contains(m, "timed out")
    ensures MessageRules.Matches(HOOK_RULES[3], m) <==> Text.Contains(m, "401") || Text.Contains(m, "Unauthorized")
    ensures MessageRules.Matches(HOOK_RULES[4], m) <==> Text.Contains(m, "403") || Text.Contains(m, "Forbidden")
    ensures MessageRules.Matches(HOOK_RULES[5], m) <==> Text.Contains(m, "404")
    ensures MessageRules.Matches(HOOK_RULES[6], m) <==> Text.Contains(m, "500") || Text.Contains(m, "Internal Server Error")
  {
    MessageRules.MatchesTwo("CORS", "Access-Control-Allow-Origin", CORS_ERROR, m);
    MessageRules.MatchesOne("Failed to fetch", NETWORK_ERROR, m);
    MessageRules.MatchesTwo("timeout", "timed out", TIMEOUT_ERROR, m);
    MessageRules.MatchesTwo("401", "Unauthorized", AUTH_ERROR, m);
    MessageRules.MatchesTwo("403", "Forbidden", FORBIDDEN_ERROR, m);
    MessageRules.MatchesOne("404", NOT_FOUND_ERROR, m);
    MessageRules.MatchesTwo("500", "Internal Server Error", SERVER_ERROR, m);
  }

  datatype VerificationState = Idle | Verifying | Completed | Failed

  /** What onSuccess records: the fixed message, the vendor's result and its session id. */
  datatype CompletionData = CompletionData(message: string, result: Value, sessionId: Value)

  /** A call the hook makes into the SDK: the session's cleanup function, or the instance's destroy. */
  datatype SdkCall = CallCleanup(cleanup: nat) | CallDestroy(sdk: nat)

  class NpmVerificationHook {
    var isVerifying: bool
    var state: VerificationState
    var completionData: Option<CompletionData>
    var errorMessage: Option<string>
    /** sdkInstanceRef and cleanupFnRef, by identity. */
    var sdkInstance: Option<nat>
    var cleanupFn: Option<nat>
    /** How many SDK instances were created; the next one gets this number. */
    var sdkCreated: nat
    /** Whether the verification container is shown. */
    var containerVisible: bool
    var calls: seq<SdkCall>

    /** The hook's invariant: busy exactly while verifying, completion data whenever completed. */
    predicate Valid()
      reads this
    {
      && (isVerifying <==> state == Verifying)
      && (state == Completed ==> completionData.Some?)
      && (sdkInstance.Some? ==> sdkInstance.value < sdkCreated)
    }

    constructor ()
      ensures Valid()
      ensures !isVerifying && state == Idle && completionData == None && errorMessage == None
      ensures sdkInstance == None && cleanupFn == None && sdkCreated == 0 && !containerVisible && calls == []
    {
      isVerifying := false;
      state := Idle;
      completionData := None;
      errorMessage := None;
      sdkInstance := None;
      cleanupFn := None;
      sdkCreated := 0;
      containerVisible := false;
      calls := [];
    }

    /**
     * initializeSDKVerificationWithCustomer. `containerFound` is whether the page has the
     * verification container; `started` is how startVerificationWithCustomer settles (the
     * cleanup function, or the rejection's message). The SDK instance is created only when
     * none is kept. A failure hides the container, ends in 'failed' with the classified
     * message, and rethrows that message.
     */
    method InitializeWithCustomer(containerFound: bool, started: Result<nat, string>) returns (r: Result<nat, string>)
      requires Valid()
      modifies this
      ensures Valid()
      ensures sdkInstance == (if old(sdkInstance).Some? then old(sdkInstance) else Some(old(sdkCreated)))
      ensures sdkCreated == (if old(sdkInstance).Some? then old(sdkCreated) else old(sdkCreated) + 1)
      ensures completionData == old(completionData) && calls == old(calls)
      ensures r.Ok? <==> containerFound && started.Ok?
      ensures r.Ok? ==> r == started && cleanupFn == Some(r.value)
      ensures r.Ok? ==> isVerifying && state == Verifying && containerVisible && errorMessage == old(errorMessage)
      ensures r.Err? ==> !isVerifying && state == Failed && !containerVisible
      ensures r.Err? ==> errorMessage == Some(r.error) && cleanupFn == old(cleanupFn)
      ensures r.Err? ==> r.error == MessageRules.Classify(HOOK_RULES,
        if containerFound then started.error else CONTAINER_NOT_FOUND, GENERIC_ERROR)
    {
      isVerifying := true;
      state := Verifying;
      if sdkInstance.None? {
        sdkInstance := Some(sdkCreated);
        sdkCreated := sdkCreated + 1;
      }
      if !containerFound {
        r := FailInitialization(CONTAINER_NOT_FOUND);
        return;
      }
      containerVisible := true;
      match started {
        case Ok(cleanup) =>
          cleanupFn := Some(cleanup);
          r := Ok(cleanup);
        case Err(message) =>
          r := FailInitialization(message);
      }
    }

    /** The catch block of the initialisation. */
    method FailInitialization(originalMessage: string) returns (r: Result<nat, string>)
      requires (sdkInstance.Some? ==> sdkInstance.value < sdkCreated) && (state == Completed ==> completionData.Some?)
      modifies this`containerVisible, this`isVerifying, this`state, this`errorMessage
      ensures Valid()
      ensures !isVerifying && state == Failed && !containerVisible
      ensures r.Err? && errorMessage == Some(r.error)
      ensures r.error == MessageRules.Classify(HOOK_RULES, originalMessage, GENERIC_ERROR)
    {
      containerVisible := false;
      isVerifying := false;
      state := Failed;
      var userFriendlyMessage := ClassifyInitError(originalMessage);
      errorMessage := Some(userFriendlyMessage);
      r := Err(userFriendlyMessage);
    }

    /**
     * The onSuccess callback: 'completed', no longer verifying, the container hidden, and
     * the completion record with `result || {}` and `result?.sessionId || "unknown"`.
     */
    method OnSuccess(result: Value)
      requires Valid()
      modifies this`completionData, this`state, this`isVerifying, this`containerVisible
      ensures Valid()
      ensures state == Completed && !isVerifying && !containerVisible
      ensures completionData == Some(CompletionData(COMPLETION_MESSAGE, Or(result, Obj(map[])),
                                                    Or(Get(result, "sessionId"), Str("unknown"))))
    {
      var data := CompletionData(COMPLETION_MESSAGE, Or(result, Obj(map[])), Or(Get(result, "sessionId"), Str("unknown")));
      containerVisible := false;
      completionData := Some(data);
      state := Completed;
      isVerifying := false;
    }

    /** The onError callback: 'failed', no longer verifying, the container hidden; the error message is kept. */
    method OnError()
      requires Valid()
      modifies this`state, this`isVerifying, this`containerVisible
      ensures Valid()
      ensures state == Failed && !isVerifying && !containerVisible
    {
      containerVisible := false;
      state := Failed;
      isVerifying := false;
    }

    /**
     * stopVerification: call the cleanup function, then destroy the SDK instance, clearing
     * each reference once its call returns; a throw (`cleanupThrows`, `destroyThrows`)
     * abandons the rest of that block. Then idle, no completion data, container hidden;
     * the error message is kept.
     */
    method StopVerification(cleanupThrows: bool, destroyThrows: bool)
      requires Valid()
      modifies this`cleanupFn, this`sdkInstance, this`calls, this`isVerifying, this`state,
               this`completionData, this`containerVisible
      ensures Valid()
      ensures !isVerifying && state == Idle && completionData == None && !containerVisible
      ensures old(cleanupFn).Some? && cleanupThrows ==>
        calls == old(calls) + [CallCleanup(old(cleanupFn).value)]
        && cleanupFn == old(cleanupFn) && sdkInstance == old(sdkInstance)
      ensures !(old(cleanupFn).Some? && cleanupThrows) ==>
        && cleanupFn == None
        && calls == old(calls) + (if old(cleanupFn).Some? then [CallCleanup(old(cleanupFn).value)] else [])
                               + (if old(sdkInstance).Some? then [CallDestroy(old(sdkInstance).value)] else [])
        && sdkInstance == (if old(sdkInstance).Some? && destroyThrows then old(sdkInstance) else None)
    {
      var abandoned := false;
      if cleanupFn.Some? {
        calls := calls + [CallCleanup(cleanupFn.value)];
        if cleanupThrows {
          abandoned := true;
        } else {
          cleanupFn := None;
        }
      }
      if !abandoned && sdkInstance.Some? {
        calls := calls + [CallDestroy(sdkInstance.value)];
        if !destroyThrows {
          sdkInstance := None;
        }
      }
      isVerifying := false;
      state := Idle;
      completionData := None;
      containerVisible := false;
    }

    /** resetVerification: idle, no completion data, not verifying, no error message, container hidden. */
    method ResetVerification()
      requires Valid()
      modifies this`state, this`completionData, this`isVerifying, this`errorMessage, this`containerVisible
      ensures Valid()
      ensures state == Idle && completionData == None && !isVerifying && errorMessage == None && !containerVisible
    {
      state := Idle;
      completionData := None;
      isVerifying := false;
      errorMessage := None;
      containerVisible := false;
    }
  }
}
