/**
 * SocureEventMapper: stateless translation of Socure's vendor events and
 * webhook payloads into the SDK's canonical event and result shapes.
 * Clock readings (`Date.now()`, `new Date()`) are parameters.
 */
module SocureEventMapper {
  import opened Wrappers
  import opened JsValue

  /** The outcome of a JavaScript expression that may throw (here always a TypeError). */
  datatype Outcome<+T> = Returned(value: T) | Threw

  /** The three-step scale shared by risk labels and confidence labels: 'low' | 'medium' | 'high'. */
  datatype Level = Low | Medium | High

  function Rank(l: Level): nat {
    match l
    case Low => 0
    case Medium => 1
    case High => 2
  }

  // ---------------------------------------------------------------------------
  // Bucketing
  // ---------------------------------------------------------------------------

  /** mapRiskLevel on a numeric score: `< 30` low, `< 70` medium, otherwise high. */
  function RiskLevel(score: int): (r: Level)
    ensures r == Low <==> score < 30
    ensures r == Medium <==> 30 <= score < 70
    ensures r == High <==> 70 <= score
  {
    if score < 30 then Low else if score < 70 then Medium else High
  }

  /** mapConfidence on a numeric score: `>= 80` high, `>= 50` medium, otherwise low. */
  function ConfidenceLevel(score: int): (r: Level)
    ensures r == High <==> 80 <= score
    ensures r == Medium <==> 50 <= score < 80
    ensures r == Low <==> score < 50
  {
    if score >= 80 then High else if score >= 50 then Medium else Low
  }

  /** Risk never decreases as the score grows. */
  lemma RiskLevelMonotone(a: int, b: int)
    requires a <= b
    ensures Rank(RiskLevel(a)) <= Rank(RiskLevel(b))
  {
  }

  /** Confidence never decreases as the score grows. */
  lemma ConfidenceLevelMonotone(a: int, b: int)
    requires a <= b
    ensures Rank(ConfidenceLevel(a)) <= Rank(ConfidenceLevel(b))
  {
  }

  /** The boundary values of both scales. */
  lemma BucketBoundaries()
    ensures RiskLevel(29) == Low && RiskLevel(30) == Medium
    ensures RiskLevel(69) == Medium && RiskLevel(70) == High
    ensures ConfidenceLevel(49) == Low && ConfidenceLevel(50) == Medium
    ensures ConfidenceLevel(79) == Medium && ConfidenceLevel(80) == High
  {
  }

  /**
   * The number a relational comparison with a number sees (`ToNumber`, after
   * `ToPrimitive` for objects), rounded down to an integer; None is NaN, which makes
   * every comparison false. An array compares as its `join(',')`; a plain object as
   * the text "[object Object]", which is NaN.
   */
  function ToNumber(v: Value): Option<int> {
    match v
    case Undefined => None
    case Null => Some(0)
    case Bool(b) => Some(if b then 1 else 0)
    case Num(n) => Some(n)
    case Str(s) => StringToNumber(s)
    case Arr(_) => StringToNumber(ToJsString(v))
    case Obj(_) => None
  }

  /** mapRiskLevel applied to an untyped score: NaN fails both `<` tests, so it is high. */
  function RiskOf(score: Value): (r: Level)
    ensures ToNumber(score).Some? ==> r == RiskLevel(ToNumber(score).value)
    ensures ToNumber(score).None? ==> r == High
  {
    match ToNumber(score)
    case Some(n) => RiskLevel(n)
    case None => High
  }

  /** mapConfidence applied to an untyped score: NaN fails both `>=` tests, so it is low. */
  function ConfidenceOf(score: Value): (r: Level)
    ensures ToNumber(score).Some? ==> r == ConfidenceLevel(ToNumber(score).value)
    ensures ToNumber(score).None? ==> r == Low
  {
    match ToNumber(score)
    case Some(n) => ConfidenceLevel(n)
    case None => Low
  }

  /** A score sent as an integer's numeral, or as an array holding just that integer, is bucketed like the integer. */
  lemma NumeralScores(n: int)
    ensures RiskOf(Str(Text.IntToString(n))) == RiskLevel(n)
    ensures ConfidenceOf(Str(Text.IntToString(n))) == ConfidenceLevel(n)
    ensures RiskOf(Arr([Num(n)])) == RiskLevel(n)
    ensures ConfidenceOf(Arr([Num(n)])) == ConfidenceLevel(n)
  {
    NumeralToNumber(n);
  }

  lemma NumeralToNumber(n: int)
    ensures ToNumber(Str(Text.IntToString(n))) == Some(n)
    ensures ToNumber(Arr([Num(n)])) == Some(n)
  {
    NumeralRoundTrip(n);
    JoinSingleton(Num(n));
    var s := Text.IntToString(n);
    assert ToJsString(Num(n)) == s;
    assert ToJsString(Arr([Num(n)])) == s;
  }

  /** Blank text compares as 0: low risk and low confidence. */
  lemma BlankTextScore(s: string)
    requires Text.IsBlank(s)
    ensures ToNumber(Str(s)) == Some(0)
  {
    assert Text.Trim(s) == [];
  }

  /** The empty array, and an array holding only null or undefined, join to "" and compare as 0. */
  lemma EmptyArrayScores()
    ensures ToNumber(Arr([])) == Some(0)
    ensures ToNumber(Arr([Null])) == Some(0) && ToNumber(Arr([Undefined])) == Some(0)
  {
    JoinSingleton(Null);
    JoinSingleton(Undefined);
    assert Text.Trim("") == [];
  }

  /**
   * A score sent as a numeral with a fractional part ("29.9", "-3.25") compares as its value
   * rounded down: the whole part, one further below zero for a negative non-whole numeral.
   */
  lemma FractionalToNumber(m: nat, f: string)
    requires Text.AllDecimal(f)
    ensures ToNumber(Str(Text.NatToString(m) + "." + f)) == Some(m)
    ensures ToNumber(Str("-" + (Text.NatToString(m) + "." + f))) == Some(Text.NegatedFloor(m, Text.Inexact(f)))
  {
    var d := Text.NatToString(m);
    Text.DecimalValueOfNat(m);
    assert d != [] && Text.DecimalValue(d) == m;
    PositiveFraction(d + "." + f, d, f);
    NegativeFraction("-" + (d + "." + f), d, f);
  }

  lemma PositiveFraction(t: string, d: string, f: string)
    requires d != [] && Text.AllDecimal(d) && Text.AllDecimal(f)
    requires t == d + "." + f
    ensures ToNumber(Str(t)) == Some(Text.DecimalValue(d) as int)
  {
    Text.FractionEnds(d, f);
    Text.TrimOfTrimmed(t);
    Text.DecimalFloorOfFraction(d, f);
    assert StringToNumber(t) == Text.DecimalFloor(t);
  }

  lemma NegativeFraction(t: string, d: string, f: string)
    requires d != [] && Text.AllDecimal(d) && Text.AllDecimal(f)
    requires t == "-" + (d + "." + f)
    ensures ToNumber(Str(t)) == Some(Text.NegatedFloor(Text.DecimalValue(d), Text.Inexact(f)))
  {
    Text.FractionEnds(d, f);
    Text.TrimOfTrimmed(t);
    Text.DecimalFloorOfNegativeFraction(t, d, f);
    assert StringToNumber(t) == Text.DecimalFloor(t);
  }

  /** A non-negative score with a fraction is bucketed by its whole part: "29.9" is low risk, "69.5" medium. */
  lemma FractionalScores(m: nat, f: string)
    requires Text.AllDecimal(f)
    ensures RiskOf(Str(Text.NatToString(m) + "." + f)) == RiskLevel(m)
    ensures ConfidenceOf(Str(Text.NatToString(m) + "." + f)) == ConfidenceLevel(m)
  {
    FractionalToNumber(m, f);
  }

  /** Non-blank text without a digit is NaN: high risk and low confidence. */
  lemma NonNumericScores(s: string)
    requires !Text.IsBlank(s) && Text.NoDigit(s)
    ensures ToNumber(Str(s)) == None
    ensures RiskOf(Str(s)) == High && ConfidenceOf(Str(s)) == Low
  {
    DigitFreeText(s);
  }

  lemma DigitFreeText(s: string)
    requires !Text.IsBlank(s) && Text.NoDigit(s)
    ensures StringToNumber(s) == None
  {
    var t := Text.Trim(s);
    Text.TrimNoDigit(s);
    Text.DecimalFloorNeedsDigit(t);
    assert t != [];
  }

  // ---------------------------------------------------------------------------
  // Vendor events
  // ---------------------------------------------------------------------------

  /** SocureEventMapper.eventMap: vendor event type to canonical event type. */
  const EVENT_MAP: map<string, string> := map[
    "init" := "ready",
    "ready" := "ready",
    "start" := "start",
    "document_front_capture" := "document:front:capture",
    "document_back_capture" := "document:back:capture",
    "document_processing" := "document:processing",
    "liveness_start" := "liveness:start",
    "liveness_processing" := "liveness:processing",
    "liveness_complete" := "liveness:complete",
    "complete" := "complete",
    "error" := "error",
    "close" := "close",
    "qr_code_displayed" := "qr_code:displayed",
    "mobile_handoff" := "mobile:handoff"
  ]

  /** The provider event names (PROVIDER_EVENTS) plus the two the table adds. */
  const CANONICAL_PROVIDER_EVENTS: set<string> := {
    "ready", "start", "complete", "error", "close",
    "document:front:capture", "document:back:capture", "document:processing",
    "liveness:start", "liveness:processing", "liveness:complete",
    "qr_code:displayed", "mobile:handoff"
  }

  /** Every known vendor event type maps into the closed canonical vocabulary. */
  lemma EventMapIntoVocabulary()
    ensures forall t :: t in EVENT_MAP ==> EVENT_MAP[t] in CANONICAL_PROVIDER_EVENTS
    ensures forall t :: t in EVENT_MAP ==> EVENT_MAP[t] != ""
  {
  }

  datatype DocumentData = DocumentData(
    documentType: Value, number: Value, issuingCountry: Value, expirationDate: Value,
    firstName: Value, lastName: Value, dateOfBirth: Value, address: Value)

  datatype CompletionLiveness = CompletionLiveness(passed: Value, score: Value, confidence: Value)

  datatype Signal = Signal(signalType: Value, risk: Value, description: Value)

  datatype FraudSignals = FraudSignals(overallRisk: Level, signals: seq<Signal>)

  /** The canonical payload of an event, per shaper. */
  datatype EventData =
    | Unshaped(raw: Value)
    | EmptyCompletion
    | Completion(sessionId: Value, documentData: Option<DocumentData>,
                 livenessData: Option<CompletionLiveness>, fraudSignals: Option<FraudSignals>)
    | ErrorDetails(code: Value, message: Value, details: Option<Value>, provider: Option<string>)
    | DocumentCapture(side: Value, quality: Value, capturedAt: int)
    | LivenessResult(passed: Value, score: Value, confidence: Value, observedAt: int)
    | QrCode(qrCodeUrl: Value, sessionUrl: Value, expiresAt: Value)

  /** A canonical event; `timestamp` is the value the `Date` is built from. */
  datatype MappedEvent = MappedEvent(eventType: Value, data: EventData, timestamp: Value)

  /** The vendor types that have a payload shaper (the cases of mapEventData's switch). */
  predicate HasShaper(t: Value) {
    t == Str("complete") || t == Str("error") || t == Str("document_front_capture")
    || t == Str("document_back_capture") || t == Str("liveness_complete") || t == Str("qr_code_displayed")
  }

  /** `signals.map(s => ({ type: s.name, risk: s.risk, description: s.description }))`. */
  function MapCompletionSignals(signals: Value): Option<seq<Signal>> {
    if !signals.Arr? then None else ShapeSignals(signals.elems)
  }

  function ShapeSignals(es: seq<Value>): (r: Option<seq<Signal>>)
    ensures r.Some? <==> forall i :: 0 <= i < |es| ==> !IsNullish(es[i])
    ensures r.Some? ==> |r.value| == |es|
    ensures r.Some? ==> forall i :: 0 <= i < |es| ==>
      r.value[i] == Signal(Get(es[i], "name"), Get(es[i], "risk"), Get(es[i], "description"))
  {
    if es == [] then Some([])
    else if IsNullish(es[0]) then None
    else
      match ShapeSignals(es[1..])
      case None => None
      case Some(rest) =>
        Some([Signal(Get(es[0], "name"), Get(es[0], "risk"), Get(es[0], "description"))] + rest)
  }

  /**
   * mapCompleteData. An absent payload gives the empty completion. Otherwise it throws
   * exactly when `fraud` is present and its signals are not an array free of null and
   * undefined; else each part of the completion is present exactly when the payload has
   * it, and the overall risk is the bucket of the fraud score.
   */
  function MapCompleteData(data: Value): (r: Outcome<EventData>)
    ensures !Truthy(data) ==> r == Returned(EmptyCompletion)
    ensures var fraud := Get(data, "fraud");
      var signals := Get(fraud, "signals");
      r.Threw? <==> (Truthy(data) && Truthy(fraud)
        && !(signals.Arr? && forall i :: 0 <= i < |signals.elems| ==> !IsNullish(signals.elems[i])))
    ensures Truthy(data) && r.Returned? ==>
      var c := r.value;
      && c.Completion? && c.sessionId == Get(data, "referenceId")
      && (c.documentData.Some? <==> Truthy(Get(data, "documentData")))
      && (c.livenessData.Some? <==> Truthy(Get(data, "livenessData")))
      && (c.fraudSignals.Some? <==> Truthy(Get(data, "fraud")))
      && (c.fraudSignals.Some? ==> c.fraudSignals.value.overallRisk == RiskOf(Get(Get(data, "fraud"), "score")))
  {
    if !Truthy(data) then Returned(EmptyCompletion)
    else
      var doc := Get(data, "documentData");
      var documentData :=
        if Truthy(doc) then
          Some(DocumentData(Get(doc, "type"), Get(doc, "documentNumber"), Get(doc, "issuingCountry"),
                            Get(doc, "expirationDate"), Get(doc, "firstName"), Get(doc, "lastName"),
                            Get(doc, "dateOfBirth"), Get(doc, "address")))
        else None;
      var live := Get(data, "livenessData");
      var livenessData :=
        if Truthy(live) then
          Some(CompletionLiveness(Get(live, "passed"), Get(live, "score"), Get(live, "confidence")))
        else None;
      var fraud := Get(data, "fraud");
      if !Truthy(fraud) then
        Returned(Completion(Get(data, "referenceId"), documentData, livenessData, None))
      else
        match MapCompletionSignals(Get(fraud, "signals"))
        case None => Threw
        case Some(signals) =>
          Returned(Completion(Get(data, "referenceId"), documentData, livenessData,
                              Some(FraudSignals(RiskOf(Get(fraud, "score")), signals))))
  }

  /**
   * mapErrorData: an error always has a truthy code and message, the caller's own when
   * set; the details and the provider name are attached exactly when there is a payload.
   */
  function MapErrorData(data: Value): (r: EventData)
    ensures r.ErrorDetails? && Truthy(r.code) && Truthy(r.message)
    ensures r.provider.Some? <==> Truthy(data)
    ensures r.details.Some? <==> Truthy(data)
    ensures Truthy(data) ==> r.provider == Some("socure") && r.details == Some(Get(data, "details"))
    ensures Truthy(data) && Truthy(Get(data, "code")) ==> r.code == Get(data, "code")
    ensures Truthy(data) && Truthy(Get(data, "message")) ==> r.message == Get(data, "message")
    ensures !Truthy(data) ==> r.code == Str("UNKNOWN_ERROR")
  {
    if !Truthy(data) then
      ErrorDetails(Str("UNKNOWN_ERROR"), Str("Unknown error occurred"), None, None)
    else
      ErrorDetails(Or(Get(data, "code"), Str("SOCURE_ERROR")),
                   Or(Get(data, "message"), Str("Socure verification error")),
                   Some(Get(data, "details")), Some("socure"))
  }

  /**
   * mapEventData's switch, on strict equality of the vendor type. Only a 'complete' payload can throw. A capture keeps a truthy side
   * and quality and says 'unknown' otherwise; a liveness result keeps truthy fields and falls
   * back to false, 0 and 'low'; both are stamped with the clock. A QR payload is renamed
   * field by field, and a type with no shaper passes its data through.
   */
  function MapEventData(eventType: Value, data: Value, now: int): (r: Outcome<EventData>)
    ensures r.Threw? ==> eventType == Str("complete")
    ensures eventType == Str("error") ==> r.Returned? && r.value.ErrorDetails?
    ensures (eventType == Str("document_front_capture") || eventType == Str("document_back_capture")) ==>
      && r.Returned? && r.value.DocumentCapture? && r.value.capturedAt == now
      && (if Truthy(Get(data, "side")) then r.value.side == Get(data, "side") else r.value.side == Str("unknown"))
      && (if Truthy(Get(data, "quality")) then r.value.quality == Get(data, "quality") else r.value.quality == Str("unknown"))
    ensures eventType == Str("liveness_complete") ==>
      && r.Returned? && r.value.LivenessResult? && r.value.observedAt == now
      && (if Truthy(Get(data, "passed")) then r.value.passed == Get(data, "passed") else r.value.passed == Bool(false))
      && (if Truthy(Get(data, "score")) then r.value.score == Get(data, "score") else r.value.score == Num(0))
      && (if Truthy(Get(data, "confidence")) then r.value.confidence == Get(data, "confidence") else r.value.confidence == Str("low"))
    ensures eventType == Str("qr_code_displayed") ==>
      && r.Returned? && r.value.QrCode? && r.value.qrCodeUrl == Get(data, "url")
      && r.value.sessionUrl == Get(data, "sessionUrl") && r.value.expiresAt == Get(data, "expiresAt")
    ensures !HasShaper(eventType) ==> r == Returned(Unshaped(data))
  {
    if eventType == Str("complete") then MapCompleteData(data)
    else if eventType == Str("error") then Returned(MapErrorData(data))
    else if eventType == Str("document_front_capture") || eventType == Str("document_back_capture") then
      Returned(DocumentCapture(Or(Get(data, "side"), Str("unknown")),
                               Or(Get(data, "quality"), Str("unknown")), now))
    else if eventType == Str("liveness_complete") then
      Returned(LivenessResult(Or(Get(data, "passed"), Bool(false)), Or(Get(data, "score"), Num(0)),
                              Or(Get(data, "confidence"), Str("low")), now))
    else if eventType == Str("qr_code_displayed") then
      Returned(QrCode(Get(data, "url"), Get(data, "sessionUrl"), Get(data, "expiresAt")))
    else Returned(Unshaped(data))
  }

  /** The canonical type: `eventMap[type] || type` (the table is looked up under `String(type)`). */
  function MappedType(eventType: Value): Value {
    var key := ToJsString(eventType);
    if key in EVENT_MAP then Str(EVENT_MAP[key]) else eventType
  }

  /** SocureEventMapper.mapEvent. `now` stands for `Date.now()`. */
  function MapEvent(socureEvent: Value, now: int): (r: Outcome<Option<MappedEvent>>)
    ensures r == Returned(None) <==> !IsObject(socureEvent)
    ensures r.Returned? && r.value.Some? ==>
      r.value.value.eventType == MappedType(Get(socureEvent, "type"))
  {
    if !Truthy(socureEvent) || !IsObject(socureEvent) then Returned(None)
    else
      var eventType := Get(socureEvent, "type");
      var mappedType := MappedType(eventType);
      match MapEventData(eventType, Get(socureEvent, "data"), now)
      case Threw => Threw
      case Returned(data) =>
        Returned(Some(MappedEvent(mappedType, data, Or(Get(socureEvent, "timestamp"), Num(now)))))
  }

  /** A vendor type from the table is renamed; any other string type is kept as it is. */
  lemma MapEventType(socureEvent: Value, now: int, t: string)
    requires IsObject(socureEvent) && Get(socureEvent, "type") == Str(t)
    requires MapEvent(socureEvent, now).Returned?
    ensures MapEvent(socureEvent, now).value.Some?
    ensures t in EVENT_MAP ==> MapEvent(socureEvent, now).value.value.eventType == Str(EVENT_MAP[t])
    ensures t !in EVENT_MAP ==> MapEvent(socureEvent, now).value.value.eventType == Str(t)
  {
  }

  /** Without a shaper the payload passes through unchanged, and nothing can throw. */
  lemma UnshapedPayloadUnchanged(socureEvent: Value, now: int)
    requires IsObject(socureEvent) && !HasShaper(Get(socureEvent, "type"))
    ensures MapEvent(socureEvent, now).Returned? && MapEvent(socureEvent, now).value.Some?
    ensures MapEvent(socureEvent, now).value.value.data == Unshaped(Get(socureEvent, "data"))
  {
  }

  /** mapEvent throws exactly for a truthy 'complete' payload whose fraud signals cannot be mapped. */
  lemma MapEventThrowsIff(socureEvent: Value, now: int)
    requires IsObject(socureEvent)
    ensures var data := Get(socureEvent, "data");
            var fraud := Get(data, "fraud");
            MapEvent(socureEvent, now) == Threw <==>
              Get(socureEvent, "type") == Str("complete") && Truthy(data) && Truthy(fraud)
              && MapCompletionSignals(Get(fraud, "signals")).None?
  {
  }

  /** The result depends only on the event's type, data and timestamp fields. */
  lemma MapEventDeterministic(a: Value, b: Value, now: int)
    requires IsObject(a) && IsObject(b)
    requires Get(a, "type") == Get(b, "type") && Get(a, "data") == Get(b, "data")
    requires Get(a, "timestamp") == Get(b, "timestamp")
    ensures MapEvent(a, now) == MapEvent(b, now)
  {
  }

  /** A completion whose fraud score is 45 carries overall risk 'medium'. */
  lemma CompletionRiskScenario(now: int)
    ensures var fraud := Obj(map["score" := Num(45), "signals" := Arr([])]);
            var event := Obj(map["type" := Str("complete"), "data" := Obj(map["fraud" := fraud])]);
            MapEvent(event, now) == Returned(Some(MappedEvent(
              Str("complete"), Completion(Undefined, None, None, Some(FraudSignals(Medium, []))), Num(now))))
  {
    var fraud := Obj(map["score" := Num(45), "signals" := Arr([])]);
    var data := Obj(map["fraud" := fraud]);
    var event := Obj(map["type" := Str("complete"), "data" := data]);
    assert Get(event, "type") == Str("complete");
    assert Get(event, "data") == data;
    assert Get(event, "timestamp") == Undefined;
    assert Get(data, "fraud") == fraud && Get(data, "documentData") == Undefined;
    assert Get(data, "livenessData") == Undefined && Get(data, "referenceId") == Undefined;
    assert Get(fraud, "signals") == Arr([]) && Get(fraud, "score") == Num(45);
    assert ToJsString(Str("complete")) == "complete";
  }

  // ---------------------------------------------------------------------------
  // Webhooks
  // ---------------------------------------------------------------------------

  datatype Decision = Approved | Declined | Review

  datatype Status = Completed | Failed

  datatype WebhookLiveness = WebhookLiveness(passed: bool, score: Value, confidence: Level)

  /** The canonical verification result; `completedAt` is the value its `Date` is built from. */
  datatype WebhookResult = WebhookResult(
    sessionId: Value, provider: string, status: Status, decision: Decision,
    documentData: Option<map<string, Value>>, livenessData: Option<WebhookLiveness>,
    fraudSignals: Option<FraudSignals>, completedAt: Value)

  /** mapDecision: accept is approved, reject is declined, anything else is review. */
  function MapDecision(decision: Value): (r: Decision)
    ensures r == Approved <==> decision == Str("accept")
    ensures r == Declined <==> decision == Str("reject")
  {
    if decision == Str("accept") then Approved
    else if decision == Str("reject") then Declined
    else Review
  }

  /** Distinct indices have distinct numerals, so index keys never collide. */
  lemma IndexKeysDistinct()
    ensures forall i: int, j: int :: Text.IntToString(i) == Text.IntToString(j) ==> i == j
  {
    forall i: int, j: int | Text.IntToString(i) == Text.IntToString(j)
      ensures i == j
    {
      NumeralRoundTrip(i);
      NumeralRoundTrip(j);
    }
  }

  /** The properties of an indexed value: element `i` under the key `String(i)`. */
  function IndexedProps(es: seq<Value>): (r: map<string, Value>)
    ensures forall i :: 0 <= i < |es| ==> Text.IntToString(i) in r && r[Text.IntToString(i)] == es[i]
    ensures forall k :: k in r ==> exists i :: 0 <= i < |es| && k == Text.IntToString(i)
  {
    IndexKeysDistinct();
    map i | 0 <= i < |es| :: Text.IntToString(i) := es[i]
  }

  /**
   * The own enumerable properties an object spread `...v` copies: an object's own
   * properties, a string's characters and an array's elements by index, and nothing
   * for null, undefined, booleans and numbers.
   */
  function Spread(v: Value): (r: map<string, Value>)
    ensures v.Obj? ==> r == v.props
    ensures v.Str? ==> forall i :: 0 <= i < |v.s| ==> Text.IntToString(i) in r && r[Text.IntToString(i)] == Str([v.s[i]])
    ensures v.Str? ==> forall k :: k in r ==> exists i :: 0 <= i < |v.s| && k == Text.IntToString(i)
    ensures v.Arr? ==> r == IndexedProps(v.elems)
    ensures !v.Obj? && !v.Str? && !v.Arr? ==> r == map[]
  {
    match v
    case Obj(m) => m
    case Str(t) => IndexedProps(seq(|t|, i requires 0 <= i < |t| => Str([t[i]])))
    case Arr(es) => IndexedProps(es)
    case _ => map[]
  }

  /** A string spreads as its characters under "0", "1", ...: `{..."ab"}` is `{0: "a", 1: "b"}`. */
  lemma SpreadStringScenario()
    ensures Spread(Str("ab")) == map["0" := Str("a"), "1" := Str("b")]
  {
    var r := Spread(Str("ab"));
    assert Text.IntToString(0) == "0" && Text.IntToString(1) == "1";
    assert r.Keys == {"0", "1"};
  }

  /** `signals.map(s => ({ type: s, risk: 'medium', description: s }))`; throws unless an array. */
  function MapWebhookSignals(signals: Value): (r: Option<seq<Signal>>)
    ensures r.Some? <==> signals.Arr?
    ensures r.Some? ==> |r.value| == |signals.elems|
    ensures r.Some? ==> forall i :: 0 <= i < |r.value| ==>
      r.value[i] == Signal(signals.elems[i], Str("medium"), signals.elems[i])
  {
    if signals.Arr? then Some(seq(|signals.elems|, i requires 0 <= i < |signals.elems| =>
                                 Signal(signals.elems[i], Str("medium"), signals.elems[i])))
    else None
  }

  /** The raw decision: documentVerification's, else selfieVerification's, else 'review'. */
  function RawDecision(webhookData: Value): Value {
    Or(Or(Get(Get(webhookData, "documentVerification"), "decision"),
          Get(Get(webhookData, "selfieVerification"), "decision")),
       Str("review"))
  }

  /**
   * mapWebhookData. An absent payload maps to null and nothing else does; it throws
   * exactly when `fraud` is present and its signals are not an array; a result is always
   * the 'socure' provider's, for the payload's reference id.
   */
  function MapWebhookData(webhookData: Value): (r: Outcome<Option<WebhookResult>>)
    ensures r == Returned(None) <==> !Truthy(webhookData)
    ensures r == Threw <==>
      Truthy(webhookData) && Truthy(Get(webhookData, "fraud")) && !Get(Get(webhookData, "fraud"), "signals").Arr?
    ensures r.Returned? && r.value.Some? ==>
      r.value.value.provider == "socure" && r.value.value.sessionId == Get(webhookData, "referenceId")
  {
    if !Truthy(webhookData) then Returned(None)
    else
      var dv := Get(webhookData, "documentVerification");
      var sv := Get(webhookData, "selfieVerification");
      var fraud := Get(webhookData, "fraud");
      var documentData :=
        if Truthy(dv) then Some(map["type" := Get(dv, "documentType")] + Spread(Get(dv, "documentFields")))
        else None;
      var livenessData :=
        if Truthy(sv) then
          Some(WebhookLiveness(Get(sv, "decision") == Str("accept"), Get(sv, "livenessScore"),
                               ConfidenceOf(Get(sv, "livenessScore"))))
        else None;
      var status := if Get(webhookData, "status") == Str("complete") then Completed else Failed;
      var fraudSignals :=
        if Truthy(fraud) then
          match MapWebhookSignals(Get(fraud, "signals"))
          case None => None
          case Some(signals) => Some(Some(FraudSignals(RiskOf(Get(fraud, "score")), signals)))
        else Some(None);
      if fraudSignals.None? then Threw
      else
        Returned(Some(WebhookResult(Get(webhookData, "referenceId"), "socure", status,
                                    MapDecision(RawDecision(webhookData)), documentData, livenessData,
                                    fraudSignals.value, Get(webhookData, "updatedAt"))))
  }

  /** An absent (falsy) payload maps to null; nothing else does. */
  lemma WebhookNullIff(webhookData: Value)
    ensures MapWebhookData(webhookData) == Returned(None) <==> !Truthy(webhookData)
  {
  }

  /** mapWebhookData throws exactly when fraud is present and its signals are not an array. */
  lemma WebhookThrowsIff(webhookData: Value)
    ensures MapWebhookData(webhookData) == Threw <==>
      Truthy(webhookData) && Truthy(Get(webhookData, "fraud"))
      && !Get(Get(webhookData, "fraud"), "signals").Arr?
  {
  }

  /** What a mapped webhook result says about its payload. */
  lemma WebhookResultFields(webhookData: Value)
    requires MapWebhookData(webhookData).Returned? && MapWebhookData(webhookData).value.Some?
    ensures var m := MapWebhookData(webhookData).value.value;
            var dv := Get(webhookData, "documentVerification");
            var sv := Get(webhookData, "selfieVerification");
            && m.provider == "socure"
            && (m.status == Completed <==> Get(webhookData, "status") == Str("complete"))
            && (m.documentData.Some? <==> Truthy(dv))
            && (m.livenessData.Some? <==> Truthy(sv))
            && (m.livenessData.Some? ==> (m.livenessData.value.passed <==> Get(sv, "decision") == Str("accept")))
            && (m.livenessData.Some? ==> m.livenessData.value.confidence == ConfidenceOf(Get(sv, "livenessScore")))
            && (m.fraudSignals.Some? <==> Truthy(Get(webhookData, "fraud")))
  {
  }

  /**
   * The decision comes from documentVerification first, then selfieVerification, then 'review'.
   */
  lemma WebhookDecisionPriority(webhookData: Value)
    requires MapWebhookData(webhookData).Returned? && MapWebhookData(webhookData).value.Some?
    ensures var m := MapWebhookData(webhookData).value.value;
            var d1 := Get(Get(webhookData, "documentVerification"), "decision");
            var d2 := Get(Get(webhookData, "selfieVerification"), "decision");
            && (Truthy(d1) ==> m.decision == MapDecision(d1))
            && (!Truthy(d1) && Truthy(d2) ==> m.decision == MapDecision(d2))
            && (!Truthy(d1) && !Truthy(d2) ==> m.decision == Review)
  {
  }

  /** A webhook whose document decision is 'reject' is declined, whatever the selfie said. */
  lemma RejectedDocumentDeclined(webhookData: Value)
    requires Truthy(webhookData) && !Truthy(Get(webhookData, "fraud"))
    requires Get(Get(webhookData, "documentVerification"), "decision") == Str("reject")
    ensures MapWebhookData(webhookData).Returned? && MapWebhookData(webhookData).value.Some?
    ensures MapWebhookData(webhookData).value.value.decision == Declined
  {
  }
}
