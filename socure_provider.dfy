/**
 * SocureProvider: the Socure integration of the SDK. It loads the vendor bundle
 * through the shared loader, starts a verification in a container, translates the
 * vendor's progress/success/error callbacks into provider events, and tears the
 * vendor state down again.
 *
 * The event emitter is an append-only log of emissions. Every event the provider
 * emits is sent twice: on its own type and on 'provider:event'. The vendor's
 * `launch` call and its callbacks' timing are outside the model: the callbacks are
 * methods that anyone may call in any order, and what `launch` returns is a parameter.
 */
module SocureProvider {
  import opened Wrappers
  import opened VecuErrors
  import opened JsValue
  import Text
  import SocureEventMapper
  import opened SocureSdkLoader
  import opened BaseProvider

  const PROVIDER_EVENT: string := "provider:event"
  const DOCUMENTS_UPLOADED: string := "DOCUMENTS_UPLOADED"
  const WAITING_FOR_USER_TO_REDIRECT: string := "WAITING_FOR_USER_TO_REDIRECT"
  const CONSENT_DECLINED: string := "CONSENT_DECLINED"
  const DOCUMENTS_UPLOAD_FAILED: string := "DOCUMENTS_UPLOAD_FAILED"

  const SMS_MESSAGE: string := "Verification complete! Check your SMS for further instructions."
  const EMAIL_MESSAGE: string := "Verification complete! Please check your email for further instructions."
  const DEFAULT_COMPLETION_MESSAGE: string := "Verification completed successfully! You may now proceed."

  /** The text the model gives a TypeError the engine raises (its wording is the engine's). */
  const TYPE_ERROR_TEXT: string := "TypeError"

  /** The progress statuses `handleProgressEvent` renames; every other status is 'verification:progress'. */
  const STATUS_MAPPING: map<string, string> := map[
    "WAITING_FOR_USER_TO_REDIRECT" := "qr_code_displayed",
    "WAITING_FOR_UPLOAD" := "verification:started",
    "DOCUMENTS_UPLOADED" := "verification:completed"
  ]

  // ---------------------------------------------------------------------------
  // Events
  // ---------------------------------------------------------------------------

  /** The `result` of a 'verification:completed' event. */
  datatype CompletionResult =
    | UploadedDocuments(docvTransactionToken: Value, deviceSessionToken: Value, customerUserId: Value)
    | VendorResponse(response: Value)

  /** The `data` of an event the provider emits. */
  datatype Payload =
    | LoadedInfo(provider: string)                                  // provider:loaded
    | ErrorInfo(error: Failure, provider: string, context: string)  // provider:error (code and message of error)
    | SessionInfo(sessionId: string)                                // ui:created, ui:ready, ui:closed
    | StatusInfo(sessionId: string, status: Value, docvTransactionToken: Value,
                 customerUserId: Value, mobileNumber: Value)
    | ProgressInfo(sessionId: string, step: string, percentage: int, message: string)
    | CompletedInfo(sessionId: string, message: string, result: CompletionResult)
    | FailedInfo(sessionId: string, code: string, message: string, docvTransactionToken: Value)
    | Mapped(data: SocureEventMapper.EventData)                     // a SocureEventMapper payload

  /** The envelope `{ type, data }` that is emitted (its timestamp is a clock reading). */
  datatype ProviderEvent = ProviderEvent(eventType: string, data: Payload)

  /** One `eventEmitter.emit(channel, event)`. */
  datatype Emission = Emission(channel: string, event: ProviderEvent)

  /** What `emitProviderEvent` does for each event in turn: emit it on its type, then on 'provider:event'. */
  function Broadcast(evs: seq<ProviderEvent>): (r: seq<Emission>)
    ensures |r| == 2 * |evs|
    ensures forall i :: 0 <= i < |evs| ==> r[2 * i] == Emission(evs[i].eventType, evs[i])
    ensures forall i :: 0 <= i < |evs| ==> r[2 * i + 1] == Emission(PROVIDER_EVENT, evs[i])
  {
    if evs == [] then []
    else [Emission(evs[0].eventType, evs[0]), Emission(PROVIDER_EVENT, evs[0])] + Broadcast(evs[1..])
  }

  lemma {:induction false} BroadcastConcat(a: seq<ProviderEvent>, b: seq<ProviderEvent>)
    ensures Broadcast(a + b) == Broadcast(a) + Broadcast(b)
    decreases |a|
  {
    if a == [] {
      assert a + b == b;
    } else {
      assert (a + b)[1..] == a[1..] + b;
      BroadcastConcat(a[1..], b);
    }
  }

  lemma BroadcastTwo(first: ProviderEvent, second: ProviderEvent)
    ensures Broadcast([first]) + Broadcast([second]) == Broadcast([first, second])
  {
    BroadcastConcat([first], [second]);
    assert [first] + [second] == [first, second];
  }

  /** The log of a broadcast is made of pairs, and only the second of each pair is on 'provider:event'. */
  lemma BroadcastPairs(evs: seq<ProviderEvent>, k: nat)
    requires k < |Broadcast(evs)|
    ensures k % 2 == 0 ==> Broadcast(evs)[k] == Emission(evs[k / 2].eventType, evs[k / 2])
    ensures k % 2 == 1 ==> Broadcast(evs)[k] == Emission(PROVIDER_EVENT, evs[k / 2])
    ensures k % 2 == 1 ==> Broadcast(evs)[k].event == Broadcast(evs)[k - 1].event
  {
    var i := k / 2;
    assert k == 2 * i || k == 2 * i + 1;
  }

  /** A thrown error as handleProviderError reports it. */
  function ErrorEvent(error: Failure, context: string): ProviderEvent {
    ProviderEvent("provider:error", ErrorInfo(error, PROVIDER_NAME, context))
  }

  // ---------------------------------------------------------------------------
  // Vendor callbacks, as the events they emit
  // ---------------------------------------------------------------------------

  /** What a callback emits, and whether it then throws. */
  datatype Reaction = Reaction(events: seq<ProviderEvent>, threw: bool)

  /** The event's data names the session `sessionId`. */
  predicate ForSession(e: ProviderEvent, sessionId: string) {
    match e.data
    case SessionInfo(id) => id == sessionId
    case StatusInfo(id, _, _, _, _) => id == sessionId
    case ProgressInfo(id, _, _, _) => id == sessionId
    case CompletedInfo(id, _, _) => id == sessionId
    case FailedInfo(id, _, _, _) => id == sessionId
    case _ => false
  }

  /** getCompletionMessage: SMS when there is a mobile number, else email when there is a user id, else the default. */
  function CompletionMessage(response: Value): (m: string)
    ensures Truthy(Get(response, "mobileNumber")) ==> m == SMS_MESSAGE
    ensures !Truthy(Get(response, "mobileNumber")) && Truthy(Get(response, "customerUserId")) ==> m == EMAIL_MESSAGE
    ensures !Truthy(Get(response, "mobileNumber")) && !Truthy(Get(response, "customerUserId")) ==>
      m == DEFAULT_COMPLETION_MESSAGE
  {
    if Truthy(Get(response, "mobileNumber")) then SMS_MESSAGE
    else if Truthy(Get(response, "customerUserId")) then EMAIL_MESSAGE
    else DEFAULT_COMPLETION_MESSAGE
  }

  /** `statusMapping[status] || 'verification:progress'`. */
  function StatusType(key: string): (t: string)
    ensures key in STATUS_MAPPING ==> t == STATUS_MAPPING[key]
    ensures key !in STATUS_MAPPING ==> t == "verification:progress"
  {
    if key in STATUS_MAPPING then STATUS_MAPPING[key] else "verification:progress"
  }

  /**
   * handleProgressEvent. An uploaded status is one 'verification:completed' event;
   * any other status is its mapped event followed by a 'verification:progress' event
   * (10% while waiting for the redirect, 30% otherwise); no status, nothing. A
   * non-string status emits its mapped event and then throws on `.replace`.
   */
  function ProgressReaction(event: Value, sessionId: string): (r: Reaction)
    ensures r.events == [] <==> IsNullish(event) || !Truthy(Get(event, "status"))
    ensures |r.events| <= 2
    ensures |r.events| == 2 <==>
      Get(event, "status").Str? && Truthy(Get(event, "status")) && Get(event, "status") != Str(DOCUMENTS_UPLOADED)
    ensures |r.events| == 2 ==> r.events[1].eventType == "verification:progress"
    ensures forall i :: 0 <= i < |r.events| ==> ForSession(r.events[i], sessionId)
  {
    if IsNullish(event) then Reaction([], true)
    else
      var status := Get(event, "status");
      if !Truthy(status) then Reaction([], false)
      else if status == Str(DOCUMENTS_UPLOADED) then Reaction([UploadedEvent(event, sessionId)], false)
      else if !status.Str? then Reaction([StatusEvent(event, sessionId)], true)
      else Reaction([StatusEvent(event, sessionId), ProgressStepEvent(sessionId, status.s)], false)
  }

  /** The 'verification:completed' event of a DOCUMENTS_UPLOADED progress event. */
  function UploadedEvent(event: Value, sessionId: string): ProviderEvent {
    ProviderEvent("verification:completed",
      CompletedInfo(sessionId, CompletionMessage(event),
        UploadedDocuments(Get(event, "docvTransactionToken"), Get(event, "deviceSessionToken"),
                          Get(event, "customerUserId"))))
  }

  /** The event a progress status is renamed to, carrying the status and the user's identifiers. */
  function StatusEvent(event: Value, sessionId: string): ProviderEvent {
    var status := Get(event, "status");
    ProviderEvent(StatusType(ToJsString(status)),
      StatusInfo(sessionId, status, Get(event, "docvTransactionToken"),
                 Get(event, "customerUserId"), Get(event, "mobileNumber")))
  }

  /** The 'verification:progress' event for the string status `s`. */
  function ProgressStepEvent(sessionId: string, s: string): ProviderEvent {
    ProviderEvent("verification:progress",
      ProgressInfo(sessionId, s, if s == WAITING_FOR_USER_TO_REDIRECT then 10 else 30, Text.Humanize(s)))
  }

  /** A progress event without an object to read, or without a status, emits nothing. */
  lemma ProgressWithoutStatus(event: Value, sessionId: string)
    ensures IsNullish(event) ==> ProgressReaction(event, sessionId) == Reaction([], true)
    ensures !IsNullish(event) && !Truthy(Get(event, "status")) ==> ProgressReaction(event, sessionId) == Reaction([], false)
  {
  }

  /** DOCUMENTS_UPLOADED emits exactly one 'verification:completed', with the completion message. */
  lemma ProgressUploaded(event: Value, sessionId: string)
    requires Get(event, "status") == Str(DOCUMENTS_UPLOADED)
    ensures var r := ProgressReaction(event, sessionId);
      && !r.threw
      && r.events == [ProviderEvent("verification:completed",
           CompletedInfo(sessionId, CompletionMessage(event),
             UploadedDocuments(Get(event, "docvTransactionToken"), Get(event, "deviceSessionToken"),
                               Get(event, "customerUserId"))))]
  {
  }

  /**
   * Any other string status emits its mapped event, then 'verification:progress' at
   * 10% while waiting for the redirect and 30% otherwise, with the status humanised.
   */
  lemma ProgressStatus(event: Value, sessionId: string)
    requires Get(event, "status").Str? && Truthy(Get(event, "status"))
    requires Get(event, "status") != Str(DOCUMENTS_UPLOADED)
    ensures var r := ProgressReaction(event, sessionId);
      var s := Get(event, "status").s;
      && !r.threw && |r.events| == 2
      && r.events[0] == ProviderEvent(StatusType(s),
           StatusInfo(sessionId, Str(s), Get(event, "docvTransactionToken"),
                      Get(event, "customerUserId"), Get(event, "mobileNumber")))
      && r.events[1] == ProviderEvent("verification:progress",
           ProgressInfo(sessionId, s, if s == WAITING_FOR_USER_TO_REDIRECT then 10 else 30, Text.Humanize(s)))
      && (r.events[1].data.percentage == 10 <==> s == WAITING_FOR_USER_TO_REDIRECT)
  {
  }

  /** A status that is not a string emits its mapped event and then throws. */
  lemma ProgressNonStringStatus(event: Value, sessionId: string)
    requires Truthy(Get(event, "status")) && !Get(event, "status").Str?
    ensures var r := ProgressReaction(event, sessionId);
      r.threw && |r.events| == 1 && r.events[0].eventType == StatusType(ToJsString(Get(event, "status")))
  {
  }

  /** An unmapped status is reported as 'verification:progress' twice. */
  lemma UnmappedStatusProgressTwice(event: Value, sessionId: string)
    requires Get(event, "status").Str? && Truthy(Get(event, "status"))
    requires Get(event, "status").s !in STATUS_MAPPING
    ensures var r := ProgressReaction(event, sessionId);
      |r.events| == 2 && r.events[0].eventType == "verification:progress"
      && r.events[1].eventType == "verification:progress"
  {
    assert Get(event, "status") != Str(DOCUMENTS_UPLOADED) by {
      assert DOCUMENTS_UPLOADED in STATUS_MAPPING;
    }
  }

  /** The vendor event onSuccess maps: `{ type: 'complete', data: response, timestamp: now }`. */
  function CompleteEvent(response: Value, now: int): Value {
    Obj(map["type" := Str("complete"), "data" := response, "timestamp" := Num(now)])
  }

  /** The vendor event onError maps: `{ type: 'error', data: error, timestamp: now }`. */
  function ErrorVendorEvent(error: Value, now: int): Value {
    Obj(map["type" := Str("error"), "data" := error, "timestamp" := Num(now)])
  }

  /** The mapper gives a vendor error event its 'error' type and the shaped error payload; it never throws on one. */
  lemma MapErrorVendorEvent(error: Value, now: int)
    ensures SocureEventMapper.MapEvent(ErrorVendorEvent(error, now), now)
         == SocureEventMapper.Returned(Some(SocureEventMapper.MappedEvent(
              Str("error"), SocureEventMapper.MapErrorData(error), Num(now))))
  {
    var e := ErrorVendorEvent(error, now);
    assert Get(e, "type") == Str("error");
    assert Get(e, "data") == error;
    assert Get(e, "timestamp") == Num(now);
    assert SocureEventMapper.MappedType(Str("error")) == Str("error");
    assert SocureEventMapper.MapEventData(Str("error"), error, now)
        == SocureEventMapper.Returned(SocureEventMapper.MapErrorData(error));
  }

  /** The events for a mapped vendor event: its type and shaped payload, when the mapper gave one. */
  function MappedEvents(m: SocureEventMapper.Outcome<Option<SocureEventMapper.MappedEvent>>): seq<ProviderEvent>
    requires m.Returned?
  {
    if m.value.Some? then [ProviderEvent(ToJsString(m.value.value.eventType), Mapped(m.value.value.data))] else []
  }

  /**
   * The onSuccess callback. A response whose status is DOCUMENTS_UPLOADED emits
   * nothing (the progress events announce it); any other response emits the mapped
   * 'complete' event and a fallback 'verification:completed' with the default message.
   */
  function SuccessReaction(response: Value, sessionId: string, now: int): (r: Reaction)
    ensures r.threw ==> r.events == []
    ensures |r.events| <= 2
    ensures r.events == [] && !r.threw <==> IsObject(response) && Get(response, "status") == Str(DOCUMENTS_UPLOADED)
    ensures r.events != [] ==> r.events[|r.events| - 1] == FallbackCompletion(response, sessionId)
  {
    if !IsObject(response) then Reaction([], true)
    else if Has(response, "status") && Get(response, "status") == Str(DOCUMENTS_UPLOADED) then Reaction([], false)
    else
      var mapped := SocureEventMapper.MapEvent(CompleteEvent(response, now), now);
      if mapped.Threw? then Reaction([], true)
      else Reaction(MappedEvents(mapped) + [FallbackCompletion(response, sessionId)], false)
  }

  /** The 'verification:completed' event onSuccess always adds, with the default message and the whole response. */
  function FallbackCompletion(response: Value, sessionId: string): ProviderEvent {
    ProviderEvent("verification:completed", CompletedInfo(sessionId, DEFAULT_COMPLETION_MESSAGE, VendorResponse(response)))
  }

  /** onSuccess throws on a non-object response and when the mapper throws on the 'complete' event. */
  lemma SuccessReactionThrows(response: Value, sessionId: string, now: int)
    ensures SuccessReaction(response, sessionId, now).threw <==>
      !IsObject(response) || (Get(response, "status") != Str(DOCUMENTS_UPLOADED)
                              && SocureEventMapper.MapEvent(CompleteEvent(response, now), now).Threw?)
  {
  }

  /** An uploaded-documents response emits nothing: handleProgressEvent already announced the completion. */
  lemma SuccessReactionUploaded(response: Value, sessionId: string, now: int)
    requires IsObject(response) && Get(response, "status") == Str(DOCUMENTS_UPLOADED)
    ensures SuccessReaction(response, sessionId, now) == Reaction([], false)
  {
  }

  /** Any other response that maps emits the mapped 'complete' event and then the fallback completion. */
  lemma SuccessReactionCompleted(response: Value, sessionId: string, now: int)
    requires IsObject(response) && Get(response, "status") != Str(DOCUMENTS_UPLOADED)
    requires SocureEventMapper.MapEvent(CompleteEvent(response, now), now).Returned?
    ensures var r := SuccessReaction(response, sessionId, now);
      && !r.threw && |r.events| == 2
      && r.events[0].eventType == "complete"
      && r.events[1] == FallbackCompletion(response, sessionId)
  {
    var e := CompleteEvent(response, now);
    assert Get(e, "type") == Str("complete");
    assert SocureEventMapper.MappedType(Str("complete")) == Str("complete");
    SocureEventMapper.MapEventType(e, now, "complete");
    assert "complete" in SocureEventMapper.EVENT_MAP;
  }

  /**
   * The onError callback. A declined consent is a failed verification with code
   * USER_CANCELLED followed by 'ui:closed'; a failed upload is a failed verification
   * with code UPLOAD_FAILED; anything else is the mapped 'error' event, followed by
   * 'ui:closed' when the error's code is USER_CANCELLED.
   */
  function ErrorReaction(error: Value, sessionId: string, now: int): (r: Reaction)
    ensures r.threw ==> r.events == []
    ensures !r.threw ==> 1 <= |r.events| <= 2
    ensures !r.threw ==>
      (r.events[0].eventType == "verification:failed" <==>
         Get(error, "status") == Str(CONSENT_DECLINED) || Get(error, "status") == Str(DOCUMENTS_UPLOAD_FAILED))
    ensures |r.events| == 2 ==> r.events[1] == ProviderEvent("ui:closed", SessionInfo(sessionId))
  {
    if !IsObject(error) then Reaction([], true)
    else
      var status := Get(error, "status");
      if Has(error, "status") && (status == Str(CONSENT_DECLINED) || status == Str(DOCUMENTS_UPLOAD_FAILED)) then
        Reaction(VendorFailureEvents(error, sessionId), false)
      else Reaction(MappedErrorEvents(error, sessionId), false)
  }

  /** The 'verification:failed' event of a declined consent (USER_CANCELLED) or a failed upload (UPLOAD_FAILED). */
  function FailedEvent(error: Value, sessionId: string): ProviderEvent
    requires Get(error, "status").Str?
  {
    var status := Get(error, "status");
    var code := if status == Str(CONSENT_DECLINED) then "USER_CANCELLED" else "UPLOAD_FAILED";
    ProviderEvent("verification:failed",
      FailedInfo(sessionId, code, Text.Humanize(status.s), Get(error, "docvTransactionToken")))
  }

  /** The failed verification, followed by 'ui:closed' when the consent was declined. */
  function VendorFailureEvents(error: Value, sessionId: string): seq<ProviderEvent>
    requires Get(error, "status").Str?
  {
    if Get(error, "status") == Str(CONSENT_DECLINED) then
      [FailedEvent(error, sessionId), ProviderEvent("ui:closed", SessionInfo(sessionId))]
    else [FailedEvent(error, sessionId)]
  }

  /** What mapEvent gives the vendor error event (MapErrorVendorEvent), then 'ui:closed' for a USER_CANCELLED code. */
  function MappedErrorEvents(error: Value, sessionId: string): seq<ProviderEvent>
    requires IsObject(error)
  {
    var mapped := ProviderEvent("error", Mapped(SocureEventMapper.MapErrorData(error)));
    if Has(error, "code") && Get(error, "code") == Str("USER_CANCELLED") then
      [mapped, ProviderEvent("ui:closed", SessionInfo(sessionId))]
    else [mapped]
  }

  /**
   * The event onError re-emits for a vendor error: mapEvent on `{ type: 'error', data: error,
   * timestamp }`, which always maps (so the `if (mappedEvent)` test always passes).
   */
  method MapVendorError(error: Value, now: int) returns (event: ProviderEvent)
    ensures event == ProviderEvent("error", Mapped(SocureEventMapper.MapErrorData(error)))
  {
    var mapped := SocureEventMapper.MapEvent(ErrorVendorEvent(error, now), now);
    MapErrorVendorEvent(error, now);
    event := ProviderEvent(ToJsString(mapped.value.value.eventType), Mapped(mapped.value.value.data));
  }

  /** onError throws exactly on a non-object error. */
  lemma ErrorReactionThrows(error: Value, sessionId: string, now: int)
    ensures ErrorReaction(error, sessionId, now).threw <==> !IsObject(error)
  {
  }

  /** A declined consent is a cancelled verification, and the UI closes. */
  lemma ErrorReactionDeclined(error: Value, sessionId: string, now: int)
    requires IsObject(error) && Get(error, "status") == Str(CONSENT_DECLINED)
    ensures ErrorReaction(error, sessionId, now).events ==
      [ProviderEvent("verification:failed",
         FailedInfo(sessionId, "USER_CANCELLED", Text.Humanize(Get(error, "status").s), Get(error, "docvTransactionToken"))),
       ProviderEvent("ui:closed", SessionInfo(sessionId))]
  {
  }

  /** A failed upload is a failed verification, and the UI stays open. */
  lemma ErrorReactionUploadFailed(error: Value, sessionId: string, now: int)
    requires IsObject(error) && Get(error, "status") == Str(DOCUMENTS_UPLOAD_FAILED)
    ensures ErrorReaction(error, sessionId, now).events ==
      [ProviderEvent("verification:failed",
         FailedInfo(sessionId, "UPLOAD_FAILED", Text.Humanize(Get(error, "status").s), Get(error, "docvTransactionToken")))]
  {
    assert Get(error, "status") != Str(CONSENT_DECLINED) by {
      assert DOCUMENTS_UPLOAD_FAILED[0] != CONSENT_DECLINED[0];
    }
    assert ErrorReaction(error, sessionId, now).events == [FailedEvent(error, sessionId)];
  }

  /**
   * Any other error object is the mapper's 'error' event; 'ui:closed' follows exactly
   * when its code is USER_CANCELLED, and no 'verification:failed' is emitted.
   */
  lemma ErrorReactionMapped(error: Value, sessionId: string, now: int)
    requires IsObject(error)
    requires Get(error, "status") != Str(CONSENT_DECLINED) && Get(error, "status") != Str(DOCUMENTS_UPLOAD_FAILED)
    ensures var r := ErrorReaction(error, sessionId, now);
      && !r.threw && 1 <= |r.events| <= 2
      && r.events[0] == ProviderEvent("error", Mapped(SocureEventMapper.MapErrorData(error)))
      && (|r.events| == 2 <==> Get(error, "code") == Str("USER_CANCELLED"))
      && (|r.events| == 2 ==> r.events[1] == ProviderEvent("ui:closed", SessionInfo(sessionId)))
  {
  }

  // ---------------------------------------------------------------------------
  // Webhooks
  // ---------------------------------------------------------------------------

  /** processWebhookData's result; `processedAt` is the clock reading it is stamped with. */
  datatype ProcessedWebhook = ProcessedWebhook(
    status: SocureEventMapper.Status, decision: SocureEventMapper.Decision,
    documentData: Option<map<string, Value>>, livenessData: Option<SocureEventMapper.WebhookLiveness>,
    fraudSignals: Option<SocureEventMapper.FraudSignals>, metadataProvider: string, processedAt: int)

  const WEBHOOK_FAILURE: Failure := ProviderError(PROVIDER_NAME, "Failed to process webhook data")

  /**
   * processWebhookData: the mapped webhook under `data` with `metadata.provider`
   * 'socure'; a mapper failure, and a null mapping (reading `.status` of null throws),
   * become one ProviderError.
   */
  function ProcessWebhookData(data: Value, now: int): (r: Result<ProcessedWebhook, Failure>)
    ensures r.Err? <==>
      SocureEventMapper.MapWebhookData(data).Threw? || SocureEventMapper.MapWebhookData(data) == SocureEventMapper.Returned(None)
    ensures r.Err? ==> r.error == WEBHOOK_FAILURE
    ensures r.Ok? ==>
      var m := SocureEventMapper.MapWebhookData(data).value.value;
      && r.value.status == m.status && r.value.decision == m.decision
      && r.value.documentData == m.documentData && r.value.livenessData == m.livenessData
      && r.value.fraudSignals == m.fraudSignals
      && r.value.metadataProvider == "socure" && r.value.processedAt == now
  {
    match SocureEventMapper.MapWebhookData(data)
    case Threw => Err(WEBHOOK_FAILURE)
    case Returned(None) => Err(WEBHOOK_FAILURE)
    case Returned(Some(m)) =>
      Ok(ProcessedWebhook(m.status, m.decision, m.documentData, m.livenessData, m.fraudSignals,
                          PROVIDER_NAME, now))
  }

  /** An absent payload is a processing failure, not a null result. */
  lemma AbsentWebhookFails(data: Value, now: int)
    requires !Truthy(data)
    ensures ProcessWebhookData(data, now) == Err(WEBHOOK_FAILURE)
  {
    SocureEventMapper.WebhookNullIff(data);
  }

  // ---------------------------------------------------------------------------
  // The provider object
  // ---------------------------------------------------------------------------

  /** A `div` the provider created, by creation serial, inside the element `parent`. */
  datatype UiContainer = UiContainer(serial: nat, parent: nat, mode: string)

  /** The container's `className`; a modal container is positioned `fixed` over the page, an embedded one `relative`. */
  function ContainerClass(c: UiContainer): string {
    "vecu-idv-" + PROVIDER_NAME + "-container vecu-idv-" + c.mode
  }

  /** The session `launch` returned, or the stand-in made when it returned nothing usable. */
  datatype Session = VendorSession(handle: Value) | MockSession(id: string)

  /** The VerificationUI handed back to the caller. */
  datatype VerificationUI = VerificationUI(container: UiContainer, sessionId: string)

  /** What the vendor's `launch` does: throw, or return a value. */
  datatype LaunchResult = LaunchThrew(error: Failure) | Launched(session: Value)

  /** The session kept from `launch`'s return value: the value itself when it is an object, else a stand-in for the session id. */
  function SessionOf(session: Value, sessionId: string): Session {
    if IsObject(session) then VendorSession(session) else MockSession(sessionId)
  }

  /** `options.config?.publicKey || options.config?.sdkKey`. */
  function SdkKey(config: Value): Value {
    Or(Get(config, "publicKey"), Get(config, "sdkKey"))
  }

  const SDK_NOT_LOADED: Failure := ProviderError(PROVIDER_NAME, "Socure DocV SDK not loaded")
  const SDK_KEY_REQUIRED: Failure := ProviderError(PROVIDER_NAME, "Socure SDK key is required in provider config")

  /**
   * What initializeVerification throws once the vendor SDK is loaded, decided by the
   * SDK key and by `launch`; None when `launch` returns and the session starts. A key
   * that is not a string fails on `substring` with a plain TypeError, which is wrapped
   * like a throwing `launch`.
   */
  function StartError(options: InitOptions, launch: LaunchResult): (e: Option<Failure>)
    ensures e.None? <==> Truthy(SdkKey(options.config)) && SdkKey(options.config).Str? && launch.Launched?
    ensures e.Some? ==> IsVecuError(e.value)
  {
    var key := SdkKey(options.config);
    if !Truthy(key) then Some(SDK_KEY_REQUIRED)
    else if !key.Str? then Some(WrapProviderError(PlainError(TYPE_ERROR_TEXT), "initializeVerification"))
    else if launch.LaunchThrew? then Some(WrapProviderError(launch.error, "initializeVerification"))
    else None
  }

  /** `r` is what the SDK key and `launch` decide: the session on success, else the error StartError names. */
  predicate StartDecidedBy(r: Result<VerificationUI, Failure>, options: InitOptions, launch: LaunchResult) {
    match StartError(options, launch)
    case None => r.Ok?
    case Some(e) => r == Err(e)
  }

  /** A handler registered with `on(event, handler)`, by handler identity. */
  datatype Subscription = Subscription(eventName: string, handler: nat)

  /** The parts of the DOM and of `window` that only the provider touches. */
  class Dom {
    /** The vendor's iframes whose `src` contains "socure": `iframe[src*="socure"]`. */
    var srcIframes: set<nat>
    /**
     * The other iframes that `iframe[id*="socure"]` matches: their `id` contains
     * "socure" but their `src` does not.
     */
    var idOnlyIframes: set<nat>
    /** Which of `window.Socure`, `window.socure`, `window.SOCURE` are defined. */
    var otherSocureGlobals: set<string>
    /** The containers the provider created that are in the document. */
    var uiContainers: set<UiContainer>
    /** Serial of the next created element. */
    var created: nat

    /** Every container the provider created has a serial below the next one. */
    predicate Valid()
      reads this
    {
      forall c :: c in uiContainers ==> c.serial < created
    }

    constructor ()
      ensures Valid()
      ensures srcIframes == {} && idOnlyIframes == {} && otherSocureGlobals == {} && uiContainers == {} && created == 0
    {
      srcIframes := {};
      idOnlyIframes := {};
      otherSocureGlobals := {};
      uiContainers := {};
      created := 0;
    }
  }

  class SocureProvider {
    const page: Page
    const dom: Dom
    /** `_isLoaded`. */
    var isLoaded: bool
    /** BaseProvider's `sdkInstance`: SocureProvider never assigns it (it keeps the SDK in `socureDocVSDK`). */
    var sdkInstance: Option<Sdk>
    var activeUI: Option<VerificationUI>
    var socureDocVSDK: Option<Sdk>
    var activeSession: Option<Session>
    var sdkLoader: SocureSDKLoader
    /** Everything emitted so far, in order. */
    var emitted: seq<Emission>
    var subscriptions: set<Subscription>

    ghost predicate Valid()
      reads this, page, page.loaderInstance, sdkLoader, dom
    {
      sdkLoader.page == page && sdkLoader.Valid() && page.Valid() && dom.Valid()
    }

    constructor (page: Page, dom: Dom)
      requires page.Valid() && dom.Valid()
      modifies page
      ensures Valid() && this.page == page && this.dom == dom
      ensures sdkLoader == page.loaderInstance
      ensures !isLoaded && sdkInstance == None && activeUI == None && socureDocVSDK == None
      ensures activeSession == None && emitted == [] && subscriptions == {}
    {
      this.page := page;
      this.dom := dom;
      isLoaded := false;
      sdkInstance := None;
      activeUI := None;
      socureDocVSDK := None;
      activeSession := None;
      emitted := [];
      subscriptions := {};
      var loader := SocureSDKLoader.GetInstance(page);
      sdkLoader := loader;
    }

    /** `on(event, handler)`. */
    method On(eventName: string, handler: nat)
      modifies this`subscriptions
      ensures subscriptions == old(subscriptions) + {Subscription(eventName, handler)}
    {
      subscriptions := subscriptions + {Subscription(eventName, handler)};
    }

    /** `off(event, handler)`. */
    method Off(eventName: string, handler: nat)
      modifies this`subscriptions
      ensures subscriptions == old(subscriptions) - {Subscription(eventName, handler)}
    {
      subscriptions := subscriptions - {Subscription(eventName, handler)};
    }

    /** The last thing emitted is the broadcast of `e`. */
    predicate LastEmitted(e: ProviderEvent)
      reads this
    {
      |emitted| >= 2 && emitted[|emitted| - 2..] == Broadcast([e])
    }

    /** emitProviderEvent: the event on its own type, then the same event on 'provider:event'. */
    method EmitProviderEvent(eventType: string, data: Payload)
      modifies this`emitted
      ensures emitted == old(emitted) + Broadcast([ProviderEvent(eventType, data)])
    {
      var event := ProviderEvent(eventType, data);
      emitted := emitted + [Emission(eventType, event)];
      emitted := emitted + [Emission(PROVIDER_EVENT, event)];
    }

    /** handleProviderError: reports the wrapped error as 'provider:error' and hands it back to be thrown. */
    method HandleProviderError(error: Failure, context: string) returns (thrown: Failure)
      modifies this`emitted
      ensures thrown == WrapProviderError(error, context)
      ensures emitted == old(emitted) + Broadcast([ErrorEvent(thrown, context)])
    {
      thrown := WrapProviderError(error, context);
      EmitProviderEvent("provider:error", ErrorInfo(thrown, PROVIDER_NAME, context));
    }

    /**
     * loadSDK (the load awaited to its end, settling with `outcome`): on success the
     * provider holds the loader's SDK, is loaded and emits 'provider:loaded'; on
     * failure it is not loaded and rethrows the wrapped error after 'provider:error'.
     */
    method LoadSDK(now: int, outcome: ScriptOutcome) returns (failure: Option<Failure>)
      requires Valid()
      modifies this`isLoaded, this`socureDocVSDK, this`emitted, page, sdkLoader
      ensures Valid() && page.loaderInstance == old(page.loaderInstance)
      ensures failure.None? ==>
        && isLoaded && socureDocVSDK.Some? && socureDocVSDK == sdkLoader.sdkInstance
        && emitted == old(emitted) + Broadcast([ProviderEvent("provider:loaded", LoadedInfo(PROVIDER_NAME))])
      ensures failure.Some? ==>
        && !isLoaded && socureDocVSDK == old(socureDocVSDK) && IsVecuError(failure.value)
        && sdkLoader.loadPromise == NoPromise && sdkLoader.sdkInstance == None
        && emitted == old(emitted) + Broadcast([ErrorEvent(failure.value, "loadSDK")])
      ensures !old(sdkLoader.NeedsForcedReload()) && old(sdkLoader.sdkInstance).Some? ==>
        failure.None? && socureDocVSDK == old(sdkLoader.sdkInstance) && page.scripts == old(page.scripts)
      ensures old(sdkLoader.NeedsForcedReload()) || (old(sdkLoader.sdkInstance).None? && old(sdkLoader.loadPromise).NoPromise?) ==>
        && page.scripts == old(page.scripts) + {ScriptTag(old(page.nodesCreated), SCRIPT_URL)}
        && (failure.None? <==> outcome.Registered?)
        && (failure.Some? ==> failure.value == WrapProviderError(InjectedLoadResult(SCRIPT_URL, outcome).error, "loadSDK"))
        && (failure.None? ==> socureDocVSDK == Some(outcome.sdk) && page.socureDocVSDK == Some(outcome.sdk))
    {
      var step := sdkLoader.Load(now);
      var result: Result<Sdk, Failure>;
      if step.Cached? {
        result := Ok(step.sdk);
      } else {
        result := sdkLoader.Settle(outcome);
      }
      if result.Ok? {
        socureDocVSDK := Some(result.value);
        isLoaded := true;
        EmitProviderEvent("provider:loaded", LoadedInfo(PROVIDER_NAME));
        failure := None;
      } else {
        isLoaded := false;
        var thrown := HandleProviderError(result.error, "loadSDK");
        failure := Some(thrown);
      }
    }

    /** The `forEach ... remove()` and `delete window[...]` part of the stale-state cleanup. */
    method ClearVendorState(container: nat)
      requires page.Valid()
      modifies page, dom
      ensures page.Valid() && page.loaderInstance == old(page.loaderInstance)
      ensures page.socureDocVSDK == None && dom.srcIframes == {} && dom.idOnlyIframes == {} && dom.otherSocureGlobals == {}
      ensures dom.uiContainers == set c | c in old(dom.uiContainers) && c.parent != container
      ensures page.scripts == set t | t in old(page.scripts) && !IsSocureScript(t)
      ensures page.nodesCreated == old(page.nodesCreated) && dom.created == old(dom.created)
    {
      dom.uiContainers := set c | c in dom.uiContainers && c.parent != container;
      dom.srcIframes := {};
      dom.idOnlyIframes := {};
      page.socureDocVSDK := None;
      dom.otherSocureGlobals := {};
      page.scripts := set t | t in page.scripts && !IsSocureScript(t);
    }

    /**
     * initializeVerification, with the load it may await settling with `loadOutcome`
     * and the vendor's `launch` behaving as `launch`. Invalid options, a missing SDK,
     * a missing SDK key, a failed reload and a throwing launch all end in
     * 'provider:error' and a thrown VecuError. When the vendor global or an iframe
     * whose `src` names the vendor is present, all vendor state (iframes matched by
     * `src` or by `id`) is cleared and the SDK is reloaded first; iframes matched by
     * `id` alone do not trigger this.
     */
    method InitializeVerification(options: InitOptions, now: int, loadOutcome: ScriptOutcome, launch: LaunchResult)
      returns (r: Result<VerificationUI, Failure>)
      requires Valid()
      modifies this, page, dom, sdkLoader
      ensures Valid() && old(emitted) <= emitted && sdkInstance == old(sdkInstance)
      ensures r.Err? ==> IsVecuError(r.error)
      ensures r.Err? ==>
        LastEmitted(ErrorEvent(r.error, "initializeVerification"))
      ensures !AcceptedOptions(options) ==>
        && r == Err(ValidateInitOptions(options).value)
        && emitted == old(emitted) + Broadcast([ErrorEvent(r.error, "initializeVerification")])
        && unchanged(page) && unchanged(dom) && sdkLoader == old(sdkLoader) && unchanged(sdkLoader)
      ensures AcceptedOptions(options) && old(HasStaleState()) ==>
        && old(sdkLoader).isDestroyed && fresh(sdkLoader) && page.loaderInstance == sdkLoader
        && dom.srcIframes == {} && dom.idOnlyIframes == {} && dom.otherSocureGlobals == {}
        && (loadOutcome.Registered? ==> socureDocVSDK == Some(loadOutcome.sdk) && StartDecidedBy(r, options, launch))
        && (!loadOutcome.Registered? ==>
              && r.Err? && !isLoaded
              && emitted == old(emitted) + Broadcast([ErrorEvent(r.error, "loadSDK"), ErrorEvent(r.error, "initializeVerification")]))
      ensures AcceptedOptions(options) && !old(HasStaleState()) ==>
        && sdkLoader == old(sdkLoader) && unchanged(sdkLoader) && unchanged(page)
        && (old(socureDocVSDK).None? ==> r == Err(SDK_NOT_LOADED))
        && (old(socureDocVSDK).Some? ==> StartDecidedBy(r, options, launch))
      ensures r.Ok? ==>
        && r.value.sessionId == options.sessionId && r.value.container in dom.uiContainers
        && r.value.container == UiContainer(old(dom.created), options.container.id, options.mode)
        && activeUI == Some(r.value) && activeSession.Some?
        && LastEmitted(ProviderEvent("ui:created", SessionInfo(options.sessionId)))
      ensures r.Ok? ==>
        && SdkKey(options.config).Str? && Truthy(SdkKey(options.config))
        && launch.Launched?
        && activeSession == Some(SessionOf(launch.session, options.sessionId))
      ensures r.Err? ==> activeUI == old(activeUI) && activeSession == old(activeSession)
    {
      var invalid := ValidateInitOptions(options);
      if invalid.Some? {
        r := Failed(invalid.value);
        return;
      }
      r := InitializeAccepted(options, now, loadOutcome, launch);
    }

    /** initializeVerification once validateInitOptions has passed: the stale-state step, then the session. */
    method InitializeAccepted(options: InitOptions, now: int, loadOutcome: ScriptOutcome, launch: LaunchResult)
      returns (r: Result<VerificationUI, Failure>)
      requires Valid() && AcceptedOptions(options)
      modifies this, page, dom, sdkLoader
      ensures Valid() && old(emitted) <= emitted && sdkInstance == old(sdkInstance)
      ensures r.Err? ==>
        && IsVecuError(r.error) && activeUI == old(activeUI) && activeSession == old(activeSession)
        && LastEmitted(ErrorEvent(r.error, "initializeVerification"))
      ensures old(HasStaleState()) ==>
        && old(sdkLoader).isDestroyed && fresh(sdkLoader) && page.loaderInstance == sdkLoader
        && dom.srcIframes == {} && dom.idOnlyIframes == {} && dom.otherSocureGlobals == {}
        && (loadOutcome.Registered? ==> socureDocVSDK == Some(loadOutcome.sdk) && StartDecidedBy(r, options, launch))
        && (!loadOutcome.Registered? ==>
              && r.Err? && !isLoaded
              && emitted == old(emitted) + Broadcast([ErrorEvent(r.error, "loadSDK"), ErrorEvent(r.error, "initializeVerification")]))
      ensures !old(HasStaleState()) ==>
        && sdkLoader == old(sdkLoader) && unchanged(sdkLoader) && unchanged(page)
        && (old(socureDocVSDK).None? ==> r == Err(SDK_NOT_LOADED))
        && (old(socureDocVSDK).Some? ==> StartDecidedBy(r, options, launch))
      ensures r.Ok? ==> SessionStarted(r.value, options, launch, old(dom.created))
    {
      if HasStaleState() {
        r := ReloadAndStart(options, now, loadOutcome, launch);
      } else {
        r := StartSession(options, launch);
      }
    }

    /** The stale-state branch of initializeVerification: clear and reload, then start the session. */
    method ReloadAndStart(options: InitOptions, now: int, loadOutcome: ScriptOutcome, launch: LaunchResult)
      returns (r: Result<VerificationUI, Failure>)
      requires Valid() && AcceptedOptions(options) && HasStaleState()
      modifies this, page, dom, sdkLoader
      ensures Valid() && old(emitted) <= emitted && sdkInstance == old(sdkInstance)
      ensures r.Err? ==>
        && IsVecuError(r.error) && activeUI == old(activeUI) && activeSession == old(activeSession)
        && LastEmitted(ErrorEvent(r.error, "initializeVerification"))
      ensures old(sdkLoader).isDestroyed && fresh(sdkLoader) && page.loaderInstance == sdkLoader
      ensures dom.srcIframes == {} && dom.idOnlyIframes == {} && dom.otherSocureGlobals == {}
      ensures loadOutcome.Registered? ==> socureDocVSDK == Some(loadOutcome.sdk) && StartDecidedBy(r, options, launch)
      ensures !loadOutcome.Registered? ==>
        && r.Err? && !isLoaded
        && emitted == old(emitted) + Broadcast([ErrorEvent(r.error, "loadSDK"), ErrorEvent(r.error, "initializeVerification")])
      ensures r.Ok? ==> SessionStarted(r.value, options, launch, old(dom.created))
    {
      var reloadFailure := ResetStaleState(options.container.id, now, loadOutcome);
      if reloadFailure.Some? {
        r := FailAfterReload(reloadFailure.value, old(emitted));
        return;
      }
      r := StartSession(options, launch);
    }

    /** The outer catch after a failed reload: loadSDK has already reported the error, which is reported again unchanged. */
    method FailAfterReload(failure: Failure, ghost before: seq<Emission>) returns (r: Result<VerificationUI, Failure>)
      requires Valid() && IsVecuError(failure)
      requires emitted == before + Broadcast([ErrorEvent(failure, "loadSDK")])
      modifies this`emitted
      ensures Valid() && r == Err(failure)
      ensures emitted == before + Broadcast([ErrorEvent(failure, "loadSDK"), ErrorEvent(failure, "initializeVerification")])
      ensures LastEmitted(ErrorEvent(failure, "initializeVerification"))
    {
      r := Failed(failure);
      BroadcastTwo(ErrorEvent(failure, "loadSDK"), ErrorEvent(failure, "initializeVerification"));
    }

    /**
     * What a started session leaves: the UI in a new container numbered `serial` under the
     * page's container, recorded as active with the launched session, after 'ui:created'.
     */
    predicate SessionStarted(ui: VerificationUI, options: InitOptions, launch: LaunchResult, serial: nat)
      requires AcceptedOptions(options)
      reads this, dom
    {
      && ui == VerificationUI(UiContainer(serial, options.container.id, options.mode), options.sessionId)
      && ui.container in dom.uiContainers && activeUI == Some(ui)
      && LastEmitted(ProviderEvent("ui:created", SessionInfo(options.sessionId)))
      && SdkKey(options.config).Str? && Truthy(SdkKey(options.config)) && launch.Launched?
      && activeSession == Some(SessionOf(launch.session, options.sessionId))
    }

    /** `window.SocureDocVSDK || document.querySelector('iframe[src*="socure"]')`. */
    predicate HasStaleState()
      reads this, page, dom
    {
      page.socureDocVSDK.Some? || dom.srcIframes != {}
    }

    /**
     * The stale-state step of initializeVerification: with no vendor global and no
     * iframe whose `src` names the vendor it does nothing, even when iframes whose
     * `id` names it are present; otherwise it clears the container and all vendor
     * state, replaces the loader by a fresh one and awaits a new load.
     */
    method ResetStaleState(containerId: nat, now: int, loadOutcome: ScriptOutcome) returns (failure: Option<Failure>)
      requires Valid()
      modifies this`isLoaded, this`socureDocVSDK, this`emitted, this`sdkLoader, page, dom, sdkLoader
      ensures Valid()
      ensures !old(HasStaleState()) ==>
        && failure.None? && unchanged(this) && unchanged(page) && unchanged(dom) && unchanged(sdkLoader)
      ensures old(HasStaleState()) ==>
        && old(sdkLoader).isDestroyed && fresh(sdkLoader) && page.loaderInstance == sdkLoader
        && dom.srcIframes == {} && dom.idOnlyIframes == {} && dom.otherSocureGlobals == {} && dom.created == old(dom.created)
        && dom.uiContainers == (set c | c in old(dom.uiContainers) && c.parent != containerId)
        && page.scripts == (set t | t in old(page.scripts) && !IsSocureScript(t)) + {ScriptTag(old(page.nodesCreated), SCRIPT_URL)}
        && (failure.None? <==> loadOutcome.Registered?)
        && (failure.None? ==>
              && isLoaded && socureDocVSDK == Some(loadOutcome.sdk) && page.socureDocVSDK == Some(loadOutcome.sdk)
              && emitted == old(emitted) + Broadcast([ProviderEvent("provider:loaded", LoadedInfo(PROVIDER_NAME))]))
        && (failure.Some? ==>
              && !isLoaded && socureDocVSDK == None && IsVecuError(failure.value)
              && failure.value == WrapProviderError(InjectedLoadResult(SCRIPT_URL, loadOutcome).error, "loadSDK")
              && emitted == old(emitted) + Broadcast([ErrorEvent(failure.value, "loadSDK")]))
    {
      if !HasStaleState() {
        return None;
      }
      ClearVendorState(containerId);
      isLoaded := false;
      socureDocVSDK := None;
      sdkLoader.Destroy();
      sdkLoader := SocureSDKLoader.GetInstance(page);
      failure := LoadSDK(now, loadOutcome);
    }

    /**
     * The rest of initializeVerification, with its `catch`: the session is started as
     * TryLaunch does, and an error it throws is reported and rethrown wrapped.
     */
    method StartSession(options: InitOptions, launch: LaunchResult) returns (r: Result<VerificationUI, Failure>)
      requires AcceptedOptions(options) && Valid()
      modifies this`activeUI, this`activeSession, this`emitted, dom`created, dom`uiContainers
      ensures Valid() && old(emitted) <= emitted
      ensures r.Err? ==>
        && IsVecuError(r.error) && activeUI == old(activeUI) && activeSession == old(activeSession)
        && LastEmitted(ErrorEvent(r.error, "initializeVerification"))
      ensures socureDocVSDK.None? ==> r == Err(SDK_NOT_LOADED)
      ensures socureDocVSDK.Some? ==> StartDecidedBy(r, options, launch)
      ensures r.Ok? ==> SessionStarted(r.value, options, launch, old(dom.created))
    {
      r := TryLaunch(options, launch);
      if r.Err? {
        r := Failed(r.error);
      }
    }

    /**
     * The `try` body of initializeVerification after the SDK is in place: the SDK and its key
     * are checked, the UI container is created, `launch` is called and the session and
     * UI recorded, and 'ui:created' is emitted. An error is handed back unwrapped, with
     * nothing emitted.
     */
    method TryLaunch(options: InitOptions, launch: LaunchResult) returns (r: Result<VerificationUI, Failure>)
      requires AcceptedOptions(options) && Valid()
      modifies this`activeUI, this`activeSession, this`emitted, dom`created, dom`uiContainers
      ensures Valid()
      ensures r.Err? ==> activeUI == old(activeUI) && activeSession == old(activeSession) && emitted == old(emitted)
      ensures socureDocVSDK.None? ==> r == Err(SDK_NOT_LOADED) && unchanged(dom)
      ensures socureDocVSDK.Some? && !Truthy(SdkKey(options.config)) ==> r == Err(SDK_KEY_REQUIRED) && unchanged(dom)
      ensures socureDocVSDK.Some? && Truthy(SdkKey(options.config)) && !SdkKey(options.config).Str? ==>
        r == Err(PlainError(TYPE_ERROR_TEXT)) && unchanged(dom)
      ensures socureDocVSDK.Some? && Truthy(SdkKey(options.config)) && SdkKey(options.config).Str? ==>
        var c := UiContainer(old(dom.created), options.container.id, options.mode);
        && dom.created == old(dom.created) + 1 && dom.uiContainers == old(dom.uiContainers) + {c}
        && dom.srcIframes == old(dom.srcIframes) && dom.idOnlyIframes == old(dom.idOnlyIframes) && dom.otherSocureGlobals == old(dom.otherSocureGlobals)
        && (launch.LaunchThrew? ==> r == Err(launch.error))
        && (launch.Launched? ==>
              && r == Ok(VerificationUI(c, options.sessionId)) && activeUI == Some(r.value)
              && activeSession == Some(SessionOf(launch.session, options.sessionId))
              && emitted == old(emitted) + Broadcast([ProviderEvent("ui:created", SessionInfo(options.sessionId))]))
    {
      if socureDocVSDK.None? {
        return Err(SDK_NOT_LOADED);
      }
      var sdkKey := SdkKey(options.config);
      if !Truthy(sdkKey) {
        return Err(SDK_KEY_REQUIRED);
      }
      if !sdkKey.Str? {
        // `sdkKey.substring` is not a function
        return Err(PlainError(TYPE_ERROR_TEXT));
      }
      // The token check that follows in the source cannot fail here: validateInitOptions rejected an empty token.
      var uiContainer := CreateUIContainer(options.container.id, options.mode);
      match launch {
        case LaunchThrew(e) =>
          return Err(e);
        case Launched(session) =>
          activeSession := Some(SessionOf(session, options.sessionId));
      }
      var ui := VerificationUI(uiContainer, options.sessionId);
      activeUI := Some(ui);
      EmitProviderEvent("ui:created", SessionInfo(options.sessionId));
      r := Ok(ui);
    }

    /** createUIContainer: a new `div` for `mode`, appended to the element `parent`. */
    method CreateUIContainer(parent: nat, mode: string) returns (c: UiContainer)
      modifies dom`created, dom`uiContainers
      requires dom.Valid()
      ensures dom.Valid() && c == UiContainer(old(dom.created), parent, mode) && c !in old(dom.uiContainers)
      ensures dom.created == old(dom.created) + 1 && dom.uiContainers == old(dom.uiContainers) + {c}
    {
      c := UiContainer(dom.created, parent, mode);
      dom.created := dom.created + 1;
      dom.uiContainers := dom.uiContainers + {c};
    }

    /** The `setTimeout` 100ms after a successful initializeVerification: 'ui:ready' for the session. */
    method UiReadyTimer(sessionId: string)
      modifies this`emitted
      ensures emitted == old(emitted) + Broadcast([ProviderEvent("ui:ready", SessionInfo(sessionId))])
    {
      EmitProviderEvent("ui:ready", SessionInfo(sessionId));
    }

    /** The outer `catch` of initializeVerification. */
    method Failed(error: Failure) returns (r: Result<VerificationUI, Failure>)
      requires Valid()
      modifies this`emitted
      ensures Valid() && r == Err(WrapProviderError(error, "initializeVerification")) && IsVecuError(r.error)
      ensures emitted == old(emitted) + Broadcast([ErrorEvent(r.error, "initializeVerification")])
      ensures LastEmitted(ErrorEvent(r.error, "initializeVerification"))
    {
      var thrown := HandleProviderError(error, "initializeVerification");
      r := Err(thrown);
    }

    /** The onProgress callback, which hands the event to handleProgressEvent. */
    method HandleProgressEvent(event: Value, sessionId: string) returns (threw: bool)
      modifies this`emitted
      ensures emitted == old(emitted) + Broadcast(ProgressReaction(event, sessionId).events)
      ensures threw == ProgressReaction(event, sessionId).threw
    {
      if IsNullish(event) {
        // reading `event.status` throws
        return true;
      }
      threw := false;
      var status := Get(event, "status");
      if !Truthy(status) {
        // an unexpected event structure is only logged
        return;
      }
      if status == Str(DOCUMENTS_UPLOADED) {
        var completed := UploadedEvent(event, sessionId);
        EmitProviderEvent(completed.eventType, completed.data);
        return;
      }
      var first := StatusEvent(event, sessionId);
      EmitProviderEvent(first.eventType, first.data);
      if !status.Str? {
        // `event.status.replace` is not a function
        return true;
      }
      var second := ProgressStepEvent(sessionId, status.s);
      EmitProviderEvent(second.eventType, second.data);
      BroadcastConcat([first], [second]);
      assert [first] + [second] == [first, second];
    }

    /** The onSuccess callback of the verification started for `sessionId`. */
    method OnSuccess(response: Value, sessionId: string, now: int) returns (threw: bool)
      modifies this`emitted
      ensures emitted == old(emitted) + Broadcast(SuccessReaction(response, sessionId, now).events)
      ensures threw == SuccessReaction(response, sessionId, now).threw
    {
      if !IsObject(response) {
        // `'status' in response` throws on a non-object
        return true;
      }
      threw := false;
      if Has(response, "status") && Get(response, "status") == Str(DOCUMENTS_UPLOADED) {
        return;
      }
      var mapped := SocureEventMapper.MapEvent(CompleteEvent(response, now), now);
      if mapped.Threw? {
        return true;
      }
      EmitCompletion(mapped, response, sessionId);
    }

    /** The events of a successful onSuccess: the mapped vendor event if any, then the fallback completion. */
    method EmitCompletion(mapped: SocureEventMapper.Outcome<Option<SocureEventMapper.MappedEvent>>,
                          response: Value, sessionId: string)
      requires mapped.Returned?
      modifies this`emitted
      ensures emitted == old(emitted) + Broadcast(MappedEvents(mapped) + [FallbackCompletion(response, sessionId)])
    {
      if mapped.value.Some? {
        EmitProviderEvent(ToJsString(mapped.value.value.eventType), Mapped(mapped.value.value.data));
      }
      var fallback := FallbackCompletion(response, sessionId);
      EmitProviderEvent(fallback.eventType, fallback.data);
      BroadcastConcat(MappedEvents(mapped), [fallback]);
    }

    /** The onError callback of the verification started for `sessionId`. */
    method OnError(error: Value, sessionId: string, now: int) returns (threw: bool)
      modifies this`emitted
      ensures emitted == old(emitted) + Broadcast(ErrorReaction(error, sessionId, now).events)
      ensures threw == ErrorReaction(error, sessionId, now).threw
    {
      if !IsObject(error) {
        // `'status' in error` throws on a non-object
        return true;
      }
      threw := false;
      var status := Get(error, "status");
      if Has(error, "status") && (status == Str(CONSENT_DECLINED) || status == Str(DOCUMENTS_UPLOAD_FAILED)) {
        EmitVendorFailure(error, sessionId);
      } else {
        EmitMappedError(error, sessionId, now);
      }
    }

    /** The declined-consent and failed-upload branch of onError. */
    method EmitVendorFailure(error: Value, sessionId: string)
      requires IsObject(error) && Has(error, "status")
      requires Get(error, "status") == Str(CONSENT_DECLINED) || Get(error, "status") == Str(DOCUMENTS_UPLOAD_FAILED)
      modifies this`emitted
      ensures emitted == old(emitted) + Broadcast(VendorFailureEvents(error, sessionId))
    {
      var status := Get(error, "status");
      var failed := FailedEvent(error, sessionId);
      EmitProviderEvent(failed.eventType, failed.data);
      if status == Str(CONSENT_DECLINED) {
        var closed := ProviderEvent("ui:closed", SessionInfo(sessionId));
        EmitProviderEvent(closed.eventType, closed.data);
        BroadcastConcat([failed], [closed]);
        assert VendorFailureEvents(error, sessionId) == [failed] + [closed];
      } else {
        assert VendorFailureEvents(error, sessionId) == [failed];
      }
    }

    /** The other branch of onError: the mapped vendor error, then 'ui:closed' for a USER_CANCELLED code. */
    method EmitMappedError(error: Value, sessionId: string, now: int)
      requires IsObject(error)
      modifies this`emitted
      ensures emitted == old(emitted) + Broadcast(MappedErrorEvents(error, sessionId))
    {
      var first := MapVendorError(error, now);
      EmitProviderEvent(first.eventType, first.data);
      if Has(error, "code") && Get(error, "code") == Str("USER_CANCELLED") {
        var closed := ProviderEvent("ui:closed", SessionInfo(sessionId));
        EmitProviderEvent(closed.eventType, closed.data);
        BroadcastConcat([first], [closed]);
      }
    }

    /** destroySession: the active session is destroyed (a throwing `destroy` is only logged) and dropped. */
    method DestroySession()
      modifies this`activeSession
      ensures activeSession == None
    {
      if activeSession.Some? {
        activeSession := None;
      }
    }

    /**
     * cleanupSDK: the session, the vendor iframes, the vendor globals and the
     * provider's containers go, the loader is destroyed and the SDK reference dropped.
     */
    method CleanupSDK()
      requires Valid()
      modifies this`activeSession, this`socureDocVSDK, page, dom, sdkLoader
      ensures Valid() && activeSession == None && socureDocVSDK == None
      ensures page.socureDocVSDK == None && page.loaderInstance == null
      ensures dom.srcIframes == {} && dom.idOnlyIframes == {} && dom.otherSocureGlobals == {} && dom.uiContainers == {}
      ensures sdkLoader.isDestroyed && !sdkLoader.IsLoaded()
      ensures page.scripts == set t | t in old(page.scripts) && !IsSocureScript(t)
    {
      DestroySession();
      dom.srcIframes := {};
      dom.idOnlyIframes := {};
      page.socureDocVSDK := None;
      dom.otherSocureGlobals := {};
      dom.uiContainers := {};
      sdkLoader.Destroy();
      socureDocVSDK := None;
    }

    /** The state `destroy()` leaves behind. */
    predicate TornDown()
      reads this
    {
      activeUI.None? && sdkInstance.None? && subscriptions == {} && !isLoaded
    }

    /**
     * BaseProvider.destroy: the active UI is destroyed (its session and container go),
     * cleanupSDK runs only when `sdkInstance` is set, listeners are removed and the
     * provider is no longer loaded. On a provider that is already torn down it changes
     * nothing, so calling it again is harmless.
     */
    method Destroy()
      requires Valid()
      modifies this, page, dom, sdkLoader
      ensures Valid() && TornDown()
      ensures emitted == old(emitted) && sdkLoader == old(sdkLoader)
      ensures old(activeUI).Some? ==> activeSession == None
      ensures old(activeUI).Some? && old(sdkInstance).None? ==>
        dom.uiContainers == old(dom.uiContainers) - {old(activeUI).value.container}
      ensures old(sdkInstance).None? ==>
        && socureDocVSDK == old(socureDocVSDK) && unchanged(page) && unchanged(sdkLoader)
        && dom.srcIframes == old(dom.srcIframes) && dom.idOnlyIframes == old(dom.idOnlyIframes) && dom.otherSocureGlobals == old(dom.otherSocureGlobals)
      ensures old(sdkInstance).Some? ==> sdkLoader.isDestroyed && socureDocVSDK == None && page.socureDocVSDK == None
      ensures old(TornDown()) ==> unchanged(this) && unchanged(page) && unchanged(dom) && unchanged(sdkLoader)
    {
      if activeUI.Some? {
        var ui := activeUI.value;
        DestroySession();
        dom.uiContainers := dom.uiContainers - {ui.container};
        activeUI := None;
      }
      if sdkInstance.Some? {
        CleanupSDK();
        sdkInstance := None;
      }
      subscriptions := {};
      isLoaded := false;
    }
  }
}
