# A Dafny model of the my-sdk-ui verification demo

This project models the core of a Next.js demo app that runs an identity verification
through the VECU IDV web SDK and its Socure DocV provider. It models:

- the Socure provider chunk of the SDK: BaseProvider's option validation, error wrapping
  and event emitter; the singleton loader of the vendor's script; the mapper from vendor
  events and webhooks to SDK events; and the provider's session lifecycle;
- the demo app's helpers: configuration, phone formatting and validation, error messages,
  analytics, the customer form, and the server action that starts a verification;
- the React hook that drives the NPM build of the SDK, and the page that uses it.

Dynamic JavaScript values (vendor payloads, webhook bodies, request bodies) are the
`JsValue.Value` datatype, with JavaScript truthiness, `||` and property lookup. Objects
whose fields the code updates in place are classes:

- `SocureSDKLoader` and the window/document `Page` it touches;
- `SocureProvider` and its `Dom`;
- the three analytics trackers;
- `NpmVerificationHook`.

An async operation is modelled as what it does up to its first `await`, plus a second
method for how the awaited promise settles. The settled outcome is a parameter.
Everything the provider emits is recorded, in order, in its `emitted` log.

Where the code and its description disagree, the model follows the code:

- `BaseProvider.destroy` calls `cleanupSDK` only when `sdkInstance` is set. `SocureProvider`
  never sets it; it keeps the SDK in `socureDocVSDK`. So `destroy()` never cleans up the
  vendor's state or the loader (`SocureProvider.SocureProvider.Destroy`).
- `load()` clears `isDestroyed` before `loadSDK` reads it. So through `load()`, the
  cache-busting `?t=` URL is never used (`SocureSdkLoader.SocureSDKLoader.Load` always
  injects the plain URL).
- The vendor global stays on `window` after a successful load. So every later
  `initializeVerification` takes the stale-state path: it clears the vendor state and
  reloads the script.
- When that reload fails, `loadSDK` reports 'provider:error' itself, and the outer catch
  reports the same error again (`FailAfterReload`).
- `validateInitOptions` has already rejected an empty token. So the token check in
  `initializeVerification` can never fail; it is not modelled as a separate error.
- A `USER_CANCELLED` vendor error emits the mapped error event and then 'ui:closed'.
- The NPM hook's error message is cleared only by `resetVerification`. `onError`,
  `stopVerification` and a later successful start keep the old one. `resetVerification`
  also leaves the container hidden.

## Model

| member | source | states |
|---|---|---|
| BaseProvider.ValidateInitOptions | public/lib/vecu-idv-web-sdk/dist/chunks/SocureProvider-BlZjcW9f.js:110-123 | Options are accepted iff no check fails. Each failure is an INVALID_OPTIONS VecuError, and each message is given iff its check is the first to fail: session id, token, container, mode. |
| BaseProvider.MapGenericEvent | public/lib/vecu-idv-web-sdk/dist/chunks/SocureProvider-BlZjcW9f.js:16-26 | No event iff the input is not an object. A falsy type becomes 'unknown' and a string type is kept. The data is the event's data when truthy, else the whole event. |
| BaseProvider.WrapProviderError | public/lib/vecu-idv-web-sdk/dist/chunks/SocureProvider-BlZjcW9f.js:91-103 | The result is always a VecuError. A VecuError passes through unchanged. Anything else becomes PROVIDER_ERROR with a message naming the provider and the context, followed by an Error's message or, for a thrown value that is not an Error, its text. |
| BaseProvider.WrapProviderErrorIdempotent | public/lib/vecu-idv-web-sdk/dist/chunks/SocureProvider-BlZjcW9f.js:91-103 | Wrapping twice, in any contexts, gives the first wrapping. |
| SocureEventMapper.RiskLevel | public/lib/vecu-idv-web-sdk/dist/chunks/SocureProvider-BlZjcW9f.js:368-374 | A score below 30 is low, below 70 medium, and anything else high, each as an if-and-only-if. |
| SocureEventMapper.ConfidenceLevel | public/lib/vecu-idv-web-sdk/dist/chunks/SocureProvider-BlZjcW9f.js:416-422 | A score of 80 or more is high, 50 or more medium, and anything below 50 low, each as an if-and-only-if. |
| SocureEventMapper.RiskLevelMonotone | public/lib/vecu-idv-web-sdk/dist/chunks/SocureProvider-BlZjcW9f.js:368-374 | A higher score never gives a lower risk level. |
| SocureEventMapper.ConfidenceLevelMonotone | public/lib/vecu-idv-web-sdk/dist/chunks/SocureProvider-BlZjcW9f.js:416-422 | A higher score never gives a lower confidence level. |
| SocureEventMapper.BucketBoundaries | public/lib/vecu-idv-web-sdk/dist/chunks/SocureProvider-BlZjcW9f.js:368-422 | The boundary scores fall on the right side: 29/30 and 69/70 for risk, 49/50 and 79/80 for confidence. |
| SocureEventMapper.RiskOf | public/lib/vecu-idv-web-sdk/dist/chunks/SocureProvider-BlZjcW9f.js:368-374 | An untyped score is bucketed by the number `<` converts it to: `RiskLevel` of that number, rounded down. A score that converts to NaN fails both `<` tests and is high. |
| SocureEventMapper.ConfidenceOf | public/lib/vecu-idv-web-sdk/dist/chunks/SocureProvider-BlZjcW9f.js:416-422 | An untyped score is bucketed by the number `>=` converts it to: `ConfidenceLevel` of that number, rounded down. A score that converts to NaN fails both `>=` tests and is low. |
| SocureEventMapper.NumeralScores | public/lib/vecu-idv-web-sdk/dist/chunks/SocureProvider-BlZjcW9f.js:368-422 | A score sent as the text of an integer ("45"), or as an array holding just that integer, is bucketed exactly like the integer. |
| SocureEventMapper.FractionalToNumber | public/lib/vecu-idv-web-sdk/dist/chunks/SocureProvider-BlZjcW9f.js:368-422 | Text such as "29.9" compares as its whole part. Text such as "-3.25" compares as one below the negated whole part, and "-3.0" as -3. |
| SocureEventMapper.FractionalScores | public/lib/vecu-idv-web-sdk/dist/chunks/SocureProvider-BlZjcW9f.js:368-422 | A non-negative score with a fraction is bucketed by its whole part: "29.9" is low risk and "69.5" medium. |
| SocureEventMapper.NonNumericScores | public/lib/vecu-idv-web-sdk/dist/chunks/SocureProvider-BlZjcW9f.js:368-422 | Non-blank text without a digit converts to NaN, so it is high risk and low confidence. |
| SocureEventMapper.BlankTextScore | public/lib/vecu-idv-web-sdk/dist/chunks/SocureProvider-BlZjcW9f.js:368-422 | Blank text converts to 0. |
| SocureEventMapper.EmptyArrayScores | public/lib/vecu-idv-web-sdk/dist/chunks/SocureProvider-BlZjcW9f.js:368-422 | The empty array, `[null]` and `[undefined]` join to "" and convert to 0. |
| SocureEventMapper.EventMapIntoVocabulary | public/lib/vecu-idv-web-sdk/dist/chunks/SocureProvider-BlZjcW9f.js:424-439 | Every vendor type in the table maps to a non-empty name from the provider-event vocabulary or the two names the table adds. |
| SocureEventMapper.ShapeSignals | public/lib/vecu-idv-web-sdk/dist/chunks/SocureProvider-BlZjcW9f.js:328-332 | The signal list maps iff no signal is null or undefined. It keeps the length, and each entry carries the signal's name, risk and description. |
| SocureEventMapper.MapEvent | public/lib/vecu-idv-web-sdk/dist/chunks/SocureProvider-BlZjcW9f.js:276-287 | An event maps to null iff it is not an object. A mapped event's type is the table's entry for its type, or the type itself. |
| SocureEventMapper.MapEventType | public/lib/vecu-idv-web-sdk/dist/chunks/SocureProvider-BlZjcW9f.js:281 | A string type in the table is renamed to its entry. Any other string type is kept as it is. |
| SocureEventMapper.UnshapedPayloadUnchanged | public/lib/vecu-idv-web-sdk/dist/chunks/SocureProvider-BlZjcW9f.js:288-304 | A type with no shaper (the switch's default) passes its data through unchanged, and mapping cannot throw. |
| SocureEventMapper.MapEventThrowsIff | public/lib/vecu-idv-web-sdk/dist/chunks/SocureProvider-BlZjcW9f.js:276-335 | mapEvent throws iff the event is a 'complete' one with truthy data and a truthy fraud object, whose signals are not an array or hold a null or undefined entry. |
| SocureEventMapper.MapEventDeterministic | public/lib/vecu-idv-web-sdk/dist/chunks/SocureProvider-BlZjcW9f.js:276-287 | Two events with the same type, data and timestamp fields map to the same result. |
| SocureEventMapper.CompletionRiskScenario | public/lib/vecu-idv-web-sdk/dist/chunks/SocureProvider-BlZjcW9f.js:305-335 | A completion whose fraud score is 45 and whose signal list is empty maps to overall risk medium, with no document or liveness data. |
| SocureEventMapper.MapCompleteData | public/lib/vecu-idv-web-sdk/dist/chunks/SocureProvider-BlZjcW9f.js:305-335 | An absent payload gives the empty completion. Otherwise it throws iff `fraud` is truthy and its signals are not an array free of null and undefined. Each part of a returned completion is present iff the payload has it, and the overall risk is the bucket of the fraud score. |
| SocureEventMapper.MapErrorData | public/lib/vecu-idv-web-sdk/dist/chunks/SocureProvider-BlZjcW9f.js:336-345 | The result always has a truthy code and message: the vendor's own when set, and UNKNOWN_ERROR without a payload. The details and the provider 'socure' are present iff there is a payload. |
| SocureEventMapper.MapEventData | public/lib/vecu-idv-web-sdk/dist/chunks/SocureProvider-BlZjcW9f.js:288-367 | Only a 'complete' payload can throw, and an 'error' payload gives error details. A capture keeps a truthy side and quality and says 'unknown' otherwise. A liveness result keeps truthy fields and falls back to false, 0 and 'low'. Both are stamped with the clock. A QR payload is renamed field by field, and a type with no shaper passes its data through. |
| SocureEventMapper.MapDecision | public/lib/vecu-idv-web-sdk/dist/chunks/SocureProvider-BlZjcW9f.js:406-415 | A decision is approved iff it is 'accept' and declined iff it is 'reject'. Anything else is review. |
| SocureEventMapper.MapWebhookSignals | public/lib/vecu-idv-web-sdk/dist/chunks/SocureProvider-BlZjcW9f.js:397-401 | The signals map iff they are an array. The length is kept, and each entry has that signal as type and description, with risk 'medium'. |
| SocureEventMapper.WebhookNullIff | public/lib/vecu-idv-web-sdk/dist/chunks/SocureProvider-BlZjcW9f.js:375-377 | A webhook maps to null iff its payload is falsy. |
| SocureEventMapper.WebhookThrowsIff | public/lib/vecu-idv-web-sdk/dist/chunks/SocureProvider-BlZjcW9f.js:375-405 | mapWebhookData throws exactly when the payload is truthy, fraud is truthy, and fraud.signals is not an array. |
| SocureEventMapper.WebhookResultFields | public/lib/vecu-idv-web-sdk/dist/chunks/SocureProvider-BlZjcW9f.js:381-404 | The provider is 'socure'. The status is completed iff the payload's status is 'complete'. Document, liveness and fraud data are present iff their sources are. Liveness passes iff the selfie decision is 'accept', with the livenessScore's confidence. |
| SocureEventMapper.WebhookDecisionPriority | public/lib/vecu-idv-web-sdk/dist/chunks/SocureProvider-BlZjcW9f.js:378-385 | The decision is the document's if truthy, else the selfie's if truthy, else review. |
| SocureEventMapper.RejectedDocumentDeclined | public/lib/vecu-idv-web-sdk/dist/chunks/SocureProvider-BlZjcW9f.js:378-385 | A document decision of 'reject' makes the webhook declined, whatever the selfie says. |
| SocureEventMapper.MapWebhookData | public/lib/vecu-idv-web-sdk/dist/chunks/SocureProvider-BlZjcW9f.js:375-415 | Null iff the payload is falsy. Throws iff the payload and its `fraud` are truthy and the signals are not an array. Any result belongs to provider 'socure' and carries the payload's referenceId as its session id. |
| SocureEventMapper.IndexedProps | public/lib/vecu-idv-web-sdk/dist/chunks/SocureProvider-BlZjcW9f.js:386-389 | Element i sits under the key String(i), and there are no other keys. |
| SocureEventMapper.Spread | public/lib/vecu-idv-web-sdk/dist/chunks/SocureProvider-BlZjcW9f.js:386-389 | An object spreads its own properties, a string its characters by index, an array its elements by index, and anything else nothing. |
| SocureEventMapper.SpreadStringScenario | public/lib/vecu-idv-web-sdk/dist/chunks/SocureProvider-BlZjcW9f.js:386-389 | Spreading "ab" gives exactly {0: "a", 1: "b"}. |
| SocureSdkLoader.ScriptUrl | public/lib/vecu-idv-web-sdk/dist/chunks/SocureProvider-BlZjcW9f.js:232-234 | Without a cache-busting time the URL is the configured script URL. With one, it still starts with that URL. |
| SocureSdkLoader.InjectedLoadResult | public/lib/vecu-idv-web-sdk/dist/chunks/SocureProvider-BlZjcW9f.js:220-252 | The load succeeds iff the bundle registered its SDK, and then yields that SDK. A timeout rejects with the 30-second TimeoutError. Any other failure rejects with a plain Error. |
| SocureSdkLoader.Page.InjectScript | public/lib/vecu-idv-web-sdk/dist/chunks/SocureProvider-BlZjcW9f.js:171-182 | Exactly one new script tag with that source is added, and nothing else on the page changes. |
| SocureSdkLoader.SocureSDKLoader.constructor | public/lib/vecu-idv-web-sdk/dist/chunks/SocureProvider-BlZjcW9f.js:185-189 | A new loader has no pending load, no cached instance and is not destroyed. |
| SocureSdkLoader.SocureSDKLoader.GetInstance | public/lib/vecu-idv-web-sdk/dist/chunks/SocureProvider-BlZjcW9f.js:190-195 | The existing singleton is returned; otherwise a fresh loader is created and becomes the singleton. The page is otherwise unchanged. |
| SocureSdkLoader.SocureSDKLoader.Load | public/lib/vecu-idv-web-sdk/dist/chunks/SocureProvider-BlZjcW9f.js:196-219 | Starts a load, with exactly one plain-URL script and the global gone, when a reset is forced or there is no instance and no load. Returns the cached instance, or joins a pending load, without touching loader or page. Never leaves the loader destroyed. |
| SocureSdkLoader.SocureSDKLoader.StartLoadSDK | public/lib/vecu-idv-web-sdk/dist/chunks/SocureProvider-BlZjcW9f.js:220-237 | A global that is already present becomes the pending load, with no script injected. Otherwise exactly one script tag is injected, cache-busted iff the loader is marked destroyed. |
| SocureSdkLoader.SocureSDKLoader.Settle | public/lib/vecu-idv-web-sdk/dist/chunks/SocureProvider-BlZjcW9f.js:211-218 | Success caches the SDK as the fulfilled load. Failure clears the load, so the next call starts over. An injected load settles as InjectedLoadResult, and an existing global resolves to itself. |
| SocureSdkLoader.SocureSDKLoader.Destroy | public/lib/vecu-idv-web-sdk/dist/chunks/SocureProvider-BlZjcW9f.js:259-272 | The loader is marked destroyed and holds no SDK or load. The global is deleted, every vendor script tag is removed and the singleton is cleared. Nothing else on the page changes. |
| SocureSdkLoader.SocureSDKLoader.IsLoaded | public/lib/vecu-idv-web-sdk/dist/chunks/SocureProvider-BlZjcW9f.js:253-255 | In a consistent loader, loaded iff the pending load has fulfilled. |
| SocureSdkLoader.SocureSDKLoader.GetSDK | public/lib/vecu-idv-web-sdk/dist/chunks/SocureProvider-BlZjcW9f.js:256-258 | An SDK iff the loader is loaded, and then the SDK the fulfilled load produced. |
| SocureSdkLoader.InjectedScriptIsRemovable | public/lib/vecu-idv-web-sdk/dist/chunks/SocureProvider-BlZjcW9f.js:259-272 | Every script the loader injects, cache-busted or not, is one that destroy removes. |
| SocureSdkLoader.SharedLoad | public/lib/vecu-idv-web-sdk/dist/chunks/SocureProvider-BlZjcW9f.js:196-219 | Two load() calls before settlement inject one script between them. After success the SDK is both cached and on the page. |
| SocureProvider.Broadcast | public/lib/vecu-idv-web-sdk/dist/chunks/SocureProvider-BlZjcW9f.js:82-90 | The log has two entries per event: entry 2i is event i on its own type, and entry 2i+1 is the same event on 'provider:event'. |
| SocureProvider.BroadcastPairs | public/lib/vecu-idv-web-sdk/dist/chunks/SocureProvider-BlZjcW9f.js:82-90 | Read from any position k of the log: an even k is an event on its own type, and an odd k repeats the event just before it on 'provider:event'. |
| SocureProvider.CompletionMessage | public/lib/vecu-idv-web-sdk/dist/chunks/SocureProvider-BlZjcW9f.js:442-450 | The SMS message when there is a mobile number, else the email message when there is a customer user id, else the default message. |
| SocureProvider.StatusType | public/lib/vecu-idv-web-sdk/dist/chunks/SocureProvider-BlZjcW9f.js:712-717 | A status in the table maps to its entry. Any other status maps to 'verification:progress'. |
| SocureProvider.ProgressWithoutStatus | public/lib/vecu-idv-web-sdk/dist/chunks/SocureProvider-BlZjcW9f.js:710-755 | A progress event with no status emits nothing and does not throw. A null or undefined event throws. |
| SocureProvider.ProgressUploaded | public/lib/vecu-idv-web-sdk/dist/chunks/SocureProvider-BlZjcW9f.js:718-734 | DOCUMENTS_UPLOADED emits exactly one 'verification:completed'. It carries the completion message and the tokens, and does not throw. |
| SocureProvider.ProgressStatus | public/lib/vecu-idv-web-sdk/dist/chunks/SocureProvider-BlZjcW9f.js:735-749 | Any other string status emits its mapped event with the status and the user's identifiers. Then comes 'verification:progress' with the humanised status, at 10% iff waiting for the redirect and 30% otherwise. |
| SocureProvider.ProgressNonStringStatus | public/lib/vecu-idv-web-sdk/dist/chunks/SocureProvider-BlZjcW9f.js:736-747 | A truthy status that is not a string emits only its mapped event, then throws on `.replace`. |
| SocureProvider.UnmappedStatusProgressTwice | public/lib/vecu-idv-web-sdk/dist/chunks/SocureProvider-BlZjcW9f.js:717-748 | A status outside the table is emitted as 'verification:progress' twice. |
| SocureProvider.ProgressReaction | public/lib/vecu-idv-web-sdk/dist/chunks/SocureProvider-BlZjcW9f.js:710-755 | Nothing is emitted iff the event has no truthy status. At most two events. Exactly two iff the status is a truthy string other than DOCUMENTS_UPLOADED, and the second is then 'verification:progress'. Every event carries the session id. |
| SocureProvider.MapErrorVendorEvent | public/lib/vecu-idv-web-sdk/dist/chunks/SocureProvider-BlZjcW9f.js:586-591 | The vendor error maps, without throwing, to an 'error' event carrying mapErrorData of the error. |
| SocureProvider.MapVendorError | public/lib/vecu-idv-web-sdk/dist/chunks/SocureProvider-BlZjcW9f.js:587-591 | The vendor error is re-emitted as an 'error' event whose payload is mapErrorData of the error. |
| SocureProvider.SuccessReactionThrows | public/lib/vecu-idv-web-sdk/dist/chunks/SocureProvider-BlZjcW9f.js:549-558 | onSuccess throws iff the response is not an object, or its status is not DOCUMENTS_UPLOADED and mapping the 'complete' event throws. |
| SocureProvider.SuccessReactionUploaded | public/lib/vecu-idv-web-sdk/dist/chunks/SocureProvider-BlZjcW9f.js:549 | A DOCUMENTS_UPLOADED response emits nothing and does not throw. |
| SocureProvider.SuccessReactionCompleted | public/lib/vecu-idv-web-sdk/dist/chunks/SocureProvider-BlZjcW9f.js:549-567 | Any other response that maps emits exactly the mapped 'complete' event, then the fallback 'verification:completed' with the default message and the whole response. |
| SocureProvider.SuccessReaction | public/lib/vecu-idv-web-sdk/dist/chunks/SocureProvider-BlZjcW9f.js:541-568 | A throw emits nothing. At most two events. Nothing is emitted, without a throw, iff the response is an object whose status is DOCUMENTS_UPLOADED. Otherwise the last event is the fallback 'verification:completed'. |
| SocureProvider.ErrorReactionThrows | public/lib/vecu-idv-web-sdk/dist/chunks/SocureProvider-BlZjcW9f.js:572 | onError throws iff the error is not an object. |
| SocureProvider.ErrorReactionDeclined | public/lib/vecu-idv-web-sdk/dist/chunks/SocureProvider-BlZjcW9f.js:572-584 | A declined consent emits exactly 'verification:failed' with code USER_CANCELLED and the humanised status, then 'ui:closed'. |
| SocureProvider.ErrorReactionUploadFailed | public/lib/vecu-idv-web-sdk/dist/chunks/SocureProvider-BlZjcW9f.js:572-581 | A failed upload emits exactly 'verification:failed' with code UPLOAD_FAILED, and no 'ui:closed'. |
| SocureProvider.ErrorReactionMapped | public/lib/vecu-idv-web-sdk/dist/chunks/SocureProvider-BlZjcW9f.js:586-598 | Any other error object emits the mapped 'error' event. A second event, 'ui:closed', follows iff the code is USER_CANCELLED. |
| SocureProvider.ErrorReaction | public/lib/vecu-idv-web-sdk/dist/chunks/SocureProvider-BlZjcW9f.js:569-599 | A throw emits nothing. Otherwise one or two events. The first is 'verification:failed' iff the status is CONSENT_DECLINED or DOCUMENTS_UPLOAD_FAILED. A second event is always 'ui:closed' for the session. |
| SocureProvider.ProcessWebhookData | public/lib/vecu-idv-web-sdk/dist/chunks/SocureProvider-BlZjcW9f.js:663-684 | Fails with the one ProviderError iff the mapper throws or gives null. Otherwise it carries the mapped status, decision, document, liveness and fraud data, with provider 'socure' and the processing time. |
| SocureProvider.AbsentWebhookFails | public/lib/vecu-idv-web-sdk/dist/chunks/SocureProvider-BlZjcW9f.js:663-684 | A falsy payload fails with the ProviderError, because reading a property of the null mapping throws. |
| SocureProvider.SocureProvider.constructor | public/lib/vecu-idv-web-sdk/dist/chunks/SocureProvider-BlZjcW9f.js:451-459 | A new provider is not loaded and has no SDK, UI or session. It has emitted nothing, has no subscriptions, and uses the page's singleton loader. |
| SocureProvider.SocureProvider.On | public/lib/vecu-idv-web-sdk/dist/chunks/SocureProvider-BlZjcW9f.js:104-106 | The handler is subscribed to the event. |
| SocureProvider.SocureProvider.Off | public/lib/vecu-idv-web-sdk/dist/chunks/SocureProvider-BlZjcW9f.js:107-109 | That subscription, and only that one, is removed. |
| SocureProvider.SocureProvider.EmitProviderEvent | public/lib/vecu-idv-web-sdk/dist/chunks/SocureProvider-BlZjcW9f.js:82-90 | The log grows by exactly the broadcast of the one event. |
| SocureProvider.SocureProvider.HandleProviderError | public/lib/vecu-idv-web-sdk/dist/chunks/SocureProvider-BlZjcW9f.js:91-103 | The error is wrapped, broadcast as 'provider:error' with its context, and handed back to be thrown. |
| SocureProvider.SocureProvider.LoadSDK | public/lib/vecu-idv-web-sdk/dist/chunks/SocureProvider-BlZjcW9f.js:460-475 | A cached SDK succeeds without touching the page. Success leaves the loader's SDK in use and loaded, then 'provider:loaded'. Failure is not loaded, leaves the loader retryable, and broadcasts and returns the wrapped error. A started load injects one script and succeeds iff the bundle registers. |
| SocureProvider.SocureProvider.ClearVendorState | public/lib/vecu-idv-web-sdk/dist/chunks/SocureProvider-BlZjcW9f.js:481-497 | The container's children, the iframes whose `src` or `id` names the vendor, the vendor globals and the vendor scripts are removed. Creation counters are unchanged. |
| SocureProvider.SocureProvider.InitializeVerification | public/lib/vecu-idv-web-sdk/dist/chunks/SocureProvider-BlZjcW9f.js:476-662 | Every failure is a VecuError, emitted last as 'provider:error', and leaves the UI and session unchanged. Invalid options touch nothing else. Stale state (the vendor global, or an iframe whose `src` names the vendor; an `id` match alone does not count) is cleared and the SDK reloaded with a fresh loader. Success holds a launched session, a new container and a last-emitted 'ui:created'. With valid options and an SDK in place (already loaded with no stale state, or registered by the reload), the result is exactly what the SDK key and `launch` decide: success if and only if the key is a non-empty string and `launch` returns, otherwise "SDK key is required" or the wrapped TypeError or launch error. |
| SocureProvider.SocureProvider.InitializeAccepted | public/lib/vecu-idv-web-sdk/dist/chunks/SocureProvider-BlZjcW9f.js:479-657 | With valid options: the stale-state step, then the session. The same outcome guarantees as InitializeVerification, including that once the SDK is in place the key and `launch` decide success and the error value. |
| SocureProvider.SocureProvider.ReloadAndStart | public/lib/vecu-idv-web-sdk/dist/chunks/SocureProvider-BlZjcW9f.js:479-506 | With stale state: the vendor state is cleared and the loader replaced. A failed reload reports the error twice (at loadSDK, then at initializeVerification). A registered reload leaves the result to the SDK key and `launch`: success if and only if the key is a string and `launch` returns, otherwise the error they name. |
| SocureProvider.SocureProvider.FailAfterReload | public/lib/vecu-idv-web-sdk/dist/chunks/SocureProvider-BlZjcW9f.js:659-661 | The already-wrapped load error is reported again unchanged and returned. |
| SocureProvider.SocureProvider.ResetStaleState | public/lib/vecu-idv-web-sdk/dist/chunks/SocureProvider-BlZjcW9f.js:479-505 | Without a vendor global or an iframe whose `src` names the vendor nothing changes, whatever iframes match by `id` alone. Otherwise the iframes matched by `src` or `id` are removed, the old loader is destroyed, a fresh one replaces it, and the load's outcome decides the SDK. |
| SocureProvider.StartError | public/lib/vecu-idv-web-sdk/dist/chunks/SocureProvider-BlZjcW9f.js:517-657 | With the SDK loaded, there is no error exactly when the key (`publicKey`, else `sdkKey`) is a non-empty string and `launch` returns; every error it names is a VecuError. |
| SocureProvider.SocureProvider.StartSession | public/lib/vecu-idv-web-sdk/dist/chunks/SocureProvider-BlZjcW9f.js:507-661 | A missing SDK fails with "Socure DocV SDK not loaded". With the SDK loaded, it succeeds if and only if the key is a non-empty string and `launch` returns. Otherwise it fails with "SDK key is required", the wrapped TypeError, or the launch error wrapped for initializeVerification. Every failure is a VecuError, broadcast last as 'provider:error', with UI and session unchanged. Success is a started session. |
| SocureProvider.SocureProvider.TryLaunch | public/lib/vecu-idv-web-sdk/dist/chunks/SocureProvider-BlZjcW9f.js:507-657 | Checks in order: the SDK ("not loaded"), the key (missing; not a string, so `substring` throws), then the launch. A failure before the launch changes nothing. A throwing launch leaves its new container behind. Success records UI and session and broadcasts 'ui:created'. |
| SocureProvider.SocureProvider.CreateUIContainer | public/lib/vecu-idv-web-sdk/dist/chunks/SocureProvider-BlZjcW9f.js:64-76 | A new container for the mode is appended under the parent. It was not in the document before. |
| SocureProvider.SocureProvider.UiReadyTimer | public/lib/vecu-idv-web-sdk/dist/chunks/SocureProvider-BlZjcW9f.js:654-656 | 'ui:ready' for the session is broadcast. |
| SocureProvider.SocureProvider.Failed | public/lib/vecu-idv-web-sdk/dist/chunks/SocureProvider-BlZjcW9f.js:659-661 | The error is wrapped, emitted last as 'provider:error', and returned. |
| SocureProvider.SocureProvider.HandleProgressEvent | public/lib/vecu-idv-web-sdk/dist/chunks/SocureProvider-BlZjcW9f.js:710-755 | The log grows by the progress reaction's events, and the handler throws exactly when the reaction does. |
| SocureProvider.SocureProvider.OnSuccess | public/lib/vecu-idv-web-sdk/dist/chunks/SocureProvider-BlZjcW9f.js:541-568 | The log grows by the success reaction's events, and the callback throws exactly when the reaction does. |
| SocureProvider.SocureProvider.EmitCompletion | public/lib/vecu-idv-web-sdk/dist/chunks/SocureProvider-BlZjcW9f.js:551-566 | The mapped event, if any, then the fallback completion. |
| SocureProvider.SocureProvider.OnError | public/lib/vecu-idv-web-sdk/dist/chunks/SocureProvider-BlZjcW9f.js:569-599 | The log grows by the error reaction's events, and the callback throws exactly when the reaction does. |
| SocureProvider.SocureProvider.EmitVendorFailure | public/lib/vecu-idv-web-sdk/dist/chunks/SocureProvider-BlZjcW9f.js:572-585 | 'verification:failed' for the status, then 'ui:closed'. |
| SocureProvider.SocureProvider.EmitMappedError | public/lib/vecu-idv-web-sdk/dist/chunks/SocureProvider-BlZjcW9f.js:586-598 | The mapped error event, then 'ui:closed' for USER_CANCELLED. |
| SocureProvider.SocureProvider.DestroySession | public/lib/vecu-idv-web-sdk/dist/chunks/SocureProvider-BlZjcW9f.js:756-766 | No active session remains. |
| SocureProvider.SocureProvider.CleanupSDK | public/lib/vecu-idv-web-sdk/dist/chunks/SocureProvider-BlZjcW9f.js:688-709 | Session, the iframes whose `src` or `id` names the vendor, vendor globals, the provider's containers and vendor scripts are gone. The loader is destroyed and the SDK reference dropped. |
| SocureProvider.SocureProvider.Destroy | public/lib/vecu-idv-web-sdk/dist/chunks/SocureProvider-BlZjcW9f.js:27-41 | The provider is torn down: no UI, not loaded, no subscriptions, and nothing emitted. It cleans up the SDK only when sdkInstance is set, so in practice the vendor state is left. A second call changes nothing. |
| AppConfig.GetConfig | src/lib/config.ts:9-30 | Each setting is the environment's value when that is non-empty, otherwise the default. isDevelopment holds iff NODE_ENV is 'development'. |
| AppConfig.NormalizedPath | src/lib/config.ts:37 | The result starts with '/'. A path that already does is kept; any other gets one '/' in front. |
| AppConfig.GetApiEndpoint | src/lib/config.ts:35-39 | The base URL followed by the normalised path, whether or not the path started with '/'. |
| AppConfig.EndpointSlashInsensitive | src/lib/config.ts:35-39 | 'x' and '/x' give the same endpoint. |
| AppConfig.EndpointOfNormalized | src/lib/config.ts:35-39 | Normalising the path first changes nothing. |
| Phone.Digits | src/lib/validation.ts:3 | The result holds only digits and is never longer than the input. |
| Phone.FormatPhoneNumber | src/lib/validation.ts:1-29 | Empty iff the input has no digits, and never longer than `+1 (XXX) XXX-XXXX`. It starts with '+1' when the digits start with the country code. Otherwise, past the area code, it starts with '(' and is at most `(XXX) XXX-XXXX`. |
| Phone.ValidatePhoneNumber | src/lib/validation.ts:31-37 | A valid number has at least ten characters, and formatting keeps all of its digits. |
| Phone.FormatEmptyAndCountryCode | src/lib/validation.ts:1-29 | Formatting gives the empty string iff the input has no digits. A lone '1' formats as '+1'. |
| Phone.FormatKeepsDigits | src/lib/validation.ts:10-28 | The formatted number's digits are the input's digits cut to what the layout keeps: 11 with a leading 1, else 10. |
| Phone.FormattedDigits | src/lib/validation.ts:10-28 | For a string of digits, the layout shows exactly the kept digits, in order. |
| Phone.FormatTruncated | src/lib/validation.ts:10-28 | The layout of the kept digits is the layout of all of them: digits past the limit are dropped. |
| Phone.FormatIdempotent | src/lib/validation.ts:1-29 | Formatting an already formatted number changes nothing. |
| Phone.FormatPreservesValidity | src/lib/validation.ts:1-37 | A valid number stays valid when formatted, and keeps its digits. |
| Phone.GetPhoneNumberForAPI | src/lib/validation.ts:39-50 | Ten digits become '+1' and the digits. Eleven digits starting with 1 become '+' and the digits. An invalid input is returned unchanged. |
| Phone.ApiNumberOfValid | src/lib/validation.ts:31-50 | A valid number becomes 12 characters: '+1' and ten national digits. The result is itself valid. |
| Phone.ApiNumberIdempotent | src/lib/validation.ts:39-50 | Normalising twice is the same as normalising once. |
| ErrorHandling.GetErrorMessage | src/lib/error-handling.ts:31-45 | A VerificationError is prefixed 'Verification failed: '. An SDKError is prefixed 'SDK Error (provider): ', or 'SDK Error: ' when no provider is set. Any other Error gives its own message, and a non-Error the unknown-error text. |
| ErrorHandling.ErrorMessageEndsWithOwnMessage | src/lib/error-handling.ts:31-45 | For every Error, the user-facing text ends with the error's own message. |
| ErrorHandling.BaseMessage | src/lib/error-handling.ts:48 | The given message when it is non-empty, otherwise the non-empty default. |
| ErrorHandling.GetHttpErrorMessage | src/lib/error-handling.ts:47-68 | Each of the seven known codes puts its fixed prefix and ': ' before the base message. Any other code, or none, gives the base message alone. |
| ErrorHandling.HttpMessageShape | src/lib/error-handling.ts:47-68 | The result always ends with the base message, and equals it iff the code is not one of the known seven. |
| ErrorHandling.IsNetworkError | src/lib/error-handling.ts:70-72 | A network error is a TypeError at least as long as "fetch", and getErrorMessage shows it as its own message. |
| ErrorHandling.NetworkErrorCases | src/lib/error-handling.ts:70-72 | A TypeError whose message contains "fetch" is a network error. Other Errors and non-Errors never are. |
| ErrorHandling.HandleAsyncError | src/lib/error-handling.ts:74-86 | A resolved promise gives [data, null]. A rejection gives [null, error] with the same error object, prefixed 'errorMessage: ' iff a non-empty errorMessage is given. |
| VerifyAction.WithOptional | src/app/actions/verify.ts:58-71 | The key is added with its value exactly when the string is set and non-empty. Other keys keep their values. |
| VerifyAction.RequestBody | src/app/actions/verify.ts:50-78 | An object with exactly the keys referenceId, config and customerInfo. The reference id is built from the clock reading, and customerInfo is the customer body. |
| VerifyAction.RequestBodyFixedParts | src/app/actions/verify.ts:50-54 | The body has exactly referenceId ("customer_" and the clock), the webhook config and the customer. |
| VerifyAction.CustomerBodyRequiredFields | src/app/actions/verify.ts:55-57 | The names are copied unchanged, and the address is the renamed address. |
| VerifyAction.CustomerBodyOptionalFields | src/app/actions/verify.ts:58-62 | middleName, email and phone are present iff set and non-empty. The phone is sent normalised. |
| VerifyAction.AddressBodyKeys | src/app/actions/verify.ts:63-76 | Six snake_case keys always appear. line_2 and minor_admin_division appear only when set. |
| VerifyAction.AddressBodyValues | src/app/actions/verify.ts:63-72 | line_1, locality and major_admin_division carry the form's values. |
| VerifyAction.AddressBodyValuesRest | src/app/actions/verify.ts:73-76 | country, postal_code and type carry the form's values. |
| VerifyAction.AddressBodyOptionalValues | src/app/actions/verify.ts:65-71 | The optional keys, when sent, carry the form's values. |
| VerifyAction.CaughtMessage | src/app/actions/verify.ts:166-176 | A fetch TypeError gives the network message, another Error its own message, and a non-Error the unknown message. |
| VerifyAction.ApiErrorMessage | src/app/actions/verify.ts:120-125 | The body's message when truthy, else its error when truthy, else "Failed to start verification". The result is always truthy. |
| VerifyAction.StartVerification | src/app/actions/verify.ts:38-178 | Posts the body to base URL + '/identity/verify/start'. Success iff the response is ok and its body is JSON, with its data. A non-ok response gives ApiErrorMessage, or the status line when the body is unusable, plus the status code. A throw gives the caught message and no status code. A fetch that throws a TypeError mentioning "fetch" gives exactly the failure envelope with the network message and no status code. |
| CustomerForm.ValidateForm | src/hooks/useCustomerForm.ts:125-159 | The errors are exactly FormErrors: empty iff the form is valid, and each field's key present iff its check fails, with that check's message. Email and phone distinguish required from invalid. No other keys appear. |
| CustomerForm.FormErrors | src/hooks/useCustomerForm.ts:125-158 | Only the eight checked keys appear, and a key is present iff its field's check gives a message. |
| CustomerForm.FormErrorsEmptyIff | src/hooks/useCustomerForm.ts:125-158 | No errors iff the record passes every check. |
| CustomerForm.FormErrorsByKey | src/hooks/useCustomerForm.ts:125-158 | Errors over the eight keys that agree with each field's check, key by key, are exactly FormErrors. |
| CustomerForm.ValidatePersonalFields | src/hooks/useCustomerForm.ts:129-144 | The name, email and phone checks: each key is present iff its check fails, with the right message. |
| CustomerForm.ValidateAddressFields | src/hooks/useCustomerForm.ts:145-156 | The street, city, state and postal code checks are added, and earlier errors are kept. The street, city and postal code keys are present iff the field is blank; the state key is present iff the state is empty, so a state of spaces passes. |
| CustomerForm.TitleCaseIsChars | src/hooks/useCustomerForm.ts:34-45 | Splitting on spaces, title-casing each word and joining is the character-by-character rule: upper-case at a word start, lower-case elsewhere. |
| CustomerForm.TitleCaseProperties | src/hooks/useCustomerForm.ts:34-45 | Title-casing keeps the length and the spaces. It upper-cases each word start, lower-cases every other letter, and is idempotent. |
| CustomerForm.TitleCase | src/hooks/useCustomerForm.ts:34-45 | The result is as long as the input and has spaces exactly where the input has them. |
| CustomerForm.BeforeDot | src/hooks/useCustomerForm.ts:30 | The longest prefix without a dot, followed by a dot or the end of the string. |
| CustomerForm.AddressFieldNameOf | src/hooks/useCustomerForm.ts:30 | 'address.' followed by a dot-free field gives that field back. |
| CustomerForm.SetAddressField | src/hooks/useCustomerForm.ts:48-54 | That address field has the new value, and every other address field keeps its own. |
| CustomerForm.SetTopField | src/hooks/useCustomerForm.ts:118-121 | That top-level field has the new value. Every other field and the address are unchanged. |
| CustomerForm.SelectAddressField | src/hooks/useCustomerForm.ts:108-116 | Selecting a value for 'address.X' sets X alone. Every other field is unchanged. |
| CustomerForm.SelectTopField | src/hooks/useCustomerForm.ts:117-122 | Selecting a value for a top-level name sets that field alone, and the address is unchanged. |
| CustomerForm.HandleSelectChange | src/hooks/useCustomerForm.ts:107-123 | 'address.X' sets address field X and no other field. Any other name sets that top-level field and no other field. |
| CustomerForm.InputPhone | src/hooks/useCustomerForm.ts:57-76 | The phone is stored formatted. Its error is absent iff the formatted number is valid, which a valid typed number always gives. No other field or error changes. |
| CustomerForm.InputLocality | src/hooks/useCustomerForm.ts:29-54 | The city is stored title-cased. No other address field and no error changes. |
| CustomerForm.InputEmail | src/hooks/useCustomerForm.ts:78-96 | The email is stored as typed. Its error is absent iff the email is non-empty and valid. No other field or error changes. |
| CustomerForm.InputOtherField | src/hooks/useCustomerForm.ts:98-103 | Any other top-level field is stored as typed. Nothing else changes. |
| CustomerForm.InputAddressField | src/hooks/useCustomerForm.ts:29-54 | Typing into an address field stores the text in that field, title-cased for the city and as typed otherwise. No other address field and no error changes, and no stray key is added. |
| CustomerForm.HandleInputChange | src/hooks/useCustomerForm.ts:26-105 | An 'address.X' name sets X, title-cased for the city, and nothing else in the record. The phone is stored formatted, with its error present iff the formatted number is invalid. The email is stored as typed, with its error present iff it is empty or invalid. Other names leave the errors alone, and no error under another key is added, changed or removed. |
| CustomerForm.ResetForm | src/hooks/useCustomerForm.ts:161-180 | The record has every string field empty except country 'US' and type 'HOME', and there are no errors. |
| CustomerForm.ResetFormInvalid | src/hooks/useCustomerForm.ts:161-180 | The reset record does not pass validation, because its required fields are empty. |
| MessageRules.FirstMatchTextSpec | src/hooks/useVerificationSDKNPM.ts:209-228 | First-match lookup finds nothing iff no rule matches. Otherwise it gives the text of the first matching rule. |
| MessageRules.FirstMatchUnique | src/hooks/useVerificationSDKNPM.ts:209-228 | There is at most one first matching rule. |
| MessageRules.ClassifiedAsIsClassify | src/hooks/useVerificationSDKNPM.ts:209-228 | The first-match relation determines the classification uniquely. |
| NpmHook.ClassifyInitError | src/hooks/useVerificationSDKNPM.ts:209-228 | The if/else chain returns the text of the first rule whose substrings the message contains (CORS, fetch, timeout, 401, 403, 404, 500), or the generic text. |
| NpmHook.RuleMatches | src/hooks/useVerificationSDKNPM.ts:212-225 | Each rule matches exactly when the message contains one of that branch's substrings. |
| NpmHook.NpmVerificationHook.constructor | src/hooks/useVerificationSDKNPM.ts:27-39 | Idle, with no completion, error, SDK, cleanup or visible container. |
| NpmHook.NpmVerificationHook.InitializeWithCustomer | src/hooks/useVerificationSDKNPM.ts:41-236 | An SDK instance is created only when none is kept. Success holds iff the container exists and the start resolves; it stores the cleanup and shows the container. Failure ends in 'failed' with the classified message, container hidden, and rethrows that message. |
| NpmHook.NpmVerificationHook.FailInitialization | src/hooks/useVerificationSDKNPM.ts:194-233 | 'failed', not verifying, container hidden, and the classified message stored and rethrown. |
| NpmHook.NpmVerificationHook.OnSuccess | src/hooks/useVerificationSDKNPM.ts:139-165 | 'completed', with the result (or {}) and its session id (or "unknown"). Not verifying, container hidden. |
| NpmHook.NpmVerificationHook.OnError | src/hooks/useVerificationSDKNPM.ts:166-179 | 'failed', not verifying, container hidden. The error message is kept. |
| NpmHook.NpmVerificationHook.StopVerification | src/hooks/useVerificationSDKNPM.ts:238-265 | The cleanup, then the SDK's destroy, each reference cleared once its call returns; a throw abandons the rest of its block. Ends idle, with no completion and the container hidden. |
| NpmHook.NpmVerificationHook.ResetVerification | src/hooks/useVerificationSDKNPM.ts:267-279 | Idle, with no completion, error or busy flag, and the container hidden. |
| NpmPage.ShowFormIffIdle | src/app/npm/page.tsx:45 | Under the hook's invariant, the form shows exactly in the idle state. |
| NpmPage.ShowForm | src/app/npm/page.tsx:45 | The form shows only in the idle and verifying states, and always when the page is idle and not busy. |
| NpmPage.Fallback | src/app/npm/page.tsx:67 | The message itself when non-empty, else the default text. Never empty. |
| NpmPage.RuleMatches | src/app/npm/page.tsx:51-65 | Each page rule matches exactly when the message contains one of its substrings. |
| NpmPage.GetErrorMessageClassifies | src/app/npm/page.tsx:48-68 | getErrorMessage gives the first matching rule's text, else the fallback. |
| NpmPage.GetErrorMessageIsClassify | src/app/npm/page.tsx:48-68 | getErrorMessage equals the page's first-match classification. |
| NpmPage.GetErrorMessage | src/app/npm/page.tsx:48-68 | Never empty. It is one of the seven rule texts or the fallback, and it is the CORS text whenever the message mentions CORS. |
| NpmPage.OrUndefined | src/app/npm/page.tsx:88-95 | An empty string becomes absent, and anything else is kept. |
| NpmPage.FormToCustomerInfo | src/app/npm/page.tsx:85-101 | Required fields are copied. Each optional field is absent iff the form field is empty. |
| NpmPage.ConversionRoundTrip | src/app/npm/page.tsx:85-101 | Reading the customer info back gives the form record again. |
| NpmPage.ConvertedOptionalsNonEmpty | src/app/npm/page.tsx:85-101 | No optional field of the converted record is the empty string. |
| NpmPage.HandleSubmit | src/app/npm/page.tsx:70-115 | An invalid form gets exactly validateForm's errors (FormErrors, which are non-empty), no toast, and an untouched hook. A valid form clears the errors and starts the hook. The toast reports success iff the start succeeded, and otherwise shows the page's message for the hook's error. |
| Analytics.PerformanceMonitor.constructor | src/lib/analytics.ts:10-12 | No metrics and no timers. |
| Analytics.PerformanceMonitor.StartTimer | src/lib/analytics.ts:14-16 | That timer is (re)started at the current time. |
| Analytics.PerformanceMonitor.EndTimer | src/lib/analytics.ts:18-42 | A timer not started (or started at 0) gives 0 and changes nothing. Otherwise the elapsed time is returned, the timer is removed and one metric is appended. |
| Analytics.PerformanceMonitor.GetMetrics | src/lib/analytics.ts:44-46 | The recorded metrics, oldest first. |
| Analytics.PerformanceMonitor.ClearMetrics | src/lib/analytics.ts:48-51 | No metrics and no timers. |
| Analytics.Bump | src/lib/analytics.ts:90-98 | That counter goes up by one, and no other changes. |
| Analytics.BumpTimesCounts | src/lib/analytics.ts:90-93 | n interactions with a field add n to its counter and change no other. |
| Analytics.FreshAnalytics | src/lib/analytics.ts:84-88 | All counters are zero, with the session starting now and no completion or abandonment. |
| Analytics.FormAnalyticsTracker.constructor | src/lib/analytics.ts:84-88 | A fresh session. |
| Analytics.FormAnalyticsTracker.TrackFieldInteraction | src/lib/analytics.ts:90-93 | Only that field's interaction counter is bumped. |
| Analytics.FormAnalyticsTracker.TrackValidationError | src/lib/analytics.ts:95-98 | Only that field's error counter is bumped. |
| Analytics.FormAnalyticsTracker.TrackFormCompletion | src/lib/analytics.ts:100-102 | The completion time is measured from the session start. |
| Analytics.FormAnalyticsTracker.TrackFormAbandonment | src/lib/analytics.ts:104-106 | The abandonment point is the given field. |
| Analytics.FormAnalyticsTracker.GetAnalytics | src/lib/analytics.ts:108-110 | The current record. |
| Analytics.FormAnalyticsTracker.Reset | src/lib/analytics.ts:112-118 | A fresh session starting now. |
| Analytics.ByProvider | src/lib/analytics.ts:169-171 | The filter never grows the log. |
| Analytics.ByProviderMembers | src/lib/analytics.ts:169-171 | The filter keeps exactly that provider's events. |
| Analytics.ByProviderConcat | src/lib/analytics.ts:169-171 | Filtering distributes over concatenation, so order is kept. |
| Analytics.SdkAnalyticsTracker.constructor | src/lib/analytics.ts:133 | An empty log. |
| Analytics.SdkAnalyticsTracker.TrackEvent | src/lib/analytics.ts:135-148 | Exactly one record is appended. |
| Analytics.SdkAnalyticsTracker.TrackError | src/lib/analytics.ts:150-163 | Exactly one error record is appended. |
| Analytics.SdkAnalyticsTracker.GetEvents | src/lib/analytics.ts:165-167 | The log, oldest first. |
| Analytics.SdkAnalyticsTracker.GetEventsByProvider | src/lib/analytics.ts:169-171 | The provider's events, in tracking order, and exactly those. |
| Analytics.SdkAnalyticsTracker.ClearEvents | src/lib/analytics.ts:173-175 | An empty log. |
| Analytics.TrackedEventFiltered | src/lib/analytics.ts:135-171 | A new event shows up last in its provider's list. No other provider's list changes. |

## Left out

- Timers, the DOM beyond the elements the provider creates, network I/O and the vendor's
  own code. Clock readings are integer parameters; how a script load, a fetch or a vendor
  launch ends is a parameter.
- JavaScript numbers are modelled as unbounded integers. A score given as a number with a
  fraction is not modelled; a score given as text with a fraction is. Floating point is
  not modelled either, so `PerformanceMonitor.getAverageTime` is left out.
- SocureEventMapper.RiskOf and SocureEventMapper.ConfidenceOf: the conversion of text to a
  number reads decimal numerals, with an optional sign, a fraction and surrounding
  whitespace. Other numerals are taken as NaN, although JavaScript reads them as numbers:
  hexadecimal, octal and binary (`0x1F`), exponents (`1e2`) and `Infinity`. An object is
  taken as its default text "[object Object]"; a custom `valueOf` or `toString` is not
  modelled.
- ErrorHandling.HandleAsyncError: the rejection is taken to be an Error object, as the
  source's `(error: Error)` annotation says. When an errorMessage is given, a rejection
  that is not an Error (null, a string) makes the source's own `.catch` throw; rejections
  that are not Errors are not modelled.
- Text case mapping covers ASCII letters only.
- The email regular expression of `validateEmail` is a parameter (`validEmail`).
- EventEmitter's handler dispatch is not modelled. Emission is a log of (event name,
  event) pairs; subscriptions are a set.
- A load that settles after a later `destroy()` or reload is not modelled. Each
  settlement applies to the loader's current pending load.
- `getAnalytics` returns a copy in the source. Aliasing is not modelled because the
  model's records are values.
- CustomerForm.InputPhone: the source sets `phone: undefined` in the errors. The model
  removes the key, which every reader of `errors[field]` sees the same way.
- CustomerForm.InputEmail: the source sets `email: undefined` in the errors. The model
  removes the key in the same way.
- CustomerForm.HandleInputChange and CustomerForm.HandleSelectChange: a field literally
  named "address" would replace the address object by a string. Both functions exclude
  that name by a precondition.
- CustomerForm.InputOtherField and CustomerForm.SelectTopField: these exclude the name
  "address" for the same reason.
- NpmHook.NpmVerificationHook.InitializeWithCustomer: a thrown non-Error is modelled by its
  message string. A throwing `createVecuIDVSDK`, the copying of the customer info (lines
  106-122) and the container's `innerHTML` and spinner are not modelled.
- NpmPage.HandleSubmit: only the toast each submission raises is modelled. The toast list,
  its dismissal and the page's `useEffect` reactions are not.
- SocureProvider.SocureProvider.TryLaunch: a `substring` call on a key that is not a
  string throws a TypeError. It is modelled as a plain error with a fixed placeholder
  text, not the engine's message.
- The title-casing of the city in `src/hooks/useCustomerForm.ts` (lines 40-43) has two
  identical branches, one for words ending in '.'. They are modelled as one.
- SocureEventMapper.MapEventThrowsIff: the constant `status: 'completed'` key of
  `mapCompleteData`'s result is left out of the Completion record.
- A lookup in the event table for a name such as `constructor` would find an inherited
  prototype member. The model's table holds only the listed keys.
- SocureProvider.StatusType and Analytics.Bump: a status or field name that names an
  `Object.prototype` member (`toString`, `constructor`, `valueOf`, ...) finds the inherited
  function in the source, so `statusMapping[status]` yields that function instead of
  'verification:progress', and the counter becomes a string concatenation instead of 1.
  The model treats such names as absent keys, because its maps hold only own keys and its
  counters are integers.
- BaseProvider.loadScript is not modelled: the Socure SDK is loaded through the loader.
- Console logging is not modelled. A session `destroy` that throws is only logged, so it
  changes nothing in the model.

