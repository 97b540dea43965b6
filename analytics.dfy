/**
 * The analytics utilities: a timer registry that turns start/end pairs into duration
 * metrics, a form tracker with per-field counters, and an append-only log of SDK events.
 * Clock readings (`performance.now()`, `Date.now()`) are integer parameters.
 */
module Analytics {
  import opened Wrappers
  import opened JsValue

  // ---- PerformanceMonitor ---------------------------------------------------------

  datatype PerformanceMetric = PerformanceMetric(name: string, duration: int, timestamp: int, metadata: Option<Value>)

  /** `if (!startTime)`: a timer counts as started only with a start time other than 0. */
  predicate TimerStarted(startTimes: map<string, int>, name: string) {
    name in startTimes && startTimes[name] != 0
  }

  class PerformanceMonitor {
    var metrics: seq<PerformanceMetric>
    var startTimes: map<string, int>

    constructor ()
      ensures metrics == [] && startTimes == map[]
    {
      metrics := [];
      startTimes := map[];
    }

    /** startTimer: record (or restart) the timer with the current clock reading. */
    method StartTimer(name: string, now: int)
      modifies this
      ensures startTimes == old(startTimes)[name := now]
      ensures metrics == old(metrics)
    {
      startTimes := startTimes[name := now];
    }

    /**
     * endTimer: a timer not started (or started at time 0) gives 0 and changes nothing;
     * otherwise the elapsed time is returned, the timer removed and one metric appended.
     */
    method EndTimer(name: string, now: int, timestamp: int, metadata: Option<Value>) returns (duration: int)
      modifies this
      ensures !TimerStarted(old(startTimes), name) ==>
        duration == 0 && startTimes == old(startTimes) && metrics == old(metrics)
      ensures TimerStarted(old(startTimes), name) ==>
        && duration == now - old(startTimes)[name]
        && startTimes == old(startTimes) - {name}
        && metrics == old(metrics) + [PerformanceMetric(name, duration, timestamp, metadata)]
    {
      if !(name in startTimes) || startTimes[name] == 0 {
        return 0;
      }
      var startTime := startTimes[name];
      duration := now - startTime;
      startTimes := startTimes - {name};
      metrics := metrics + [PerformanceMetric(name, duration, timestamp, metadata)];
    }

    /** getMetrics: a copy of the metrics, oldest first. */
    method GetMetrics() returns (r: seq<PerformanceMetric>)
      ensures r == metrics
    {
      r := metrics;
    }

    /** clearMetrics: no metrics and no running timers. */
    method ClearMetrics()
      modifies this
      ensures metrics == [] && startTimes == map[]
    {
      metrics := [];
      startTimes := map[];
    }
  }

  // ---- FormAnalyticsTracker -------------------------------------------------------

  datatype FormAnalytics = FormAnalytics(
    formStartTime: int, fieldInteractions: map<string, int>, validationErrors: map<string, int>,
    completionTime: Option<int>, abandonmentPoint: Option<string>)

  /** A counter's value: `counters[name] || 0`. */
  function Count(counters: map<string, int>, name: string): int {
    if name in counters then counters[name] else 0
  }

  /** `counters[name] = (counters[name] || 0) + 1`: that counter goes up by one, no other changes. */
  function Bump(counters: map<string, int>, name: string): (r: map<string, int>)
    ensures Count(r, name) == Count(counters, name) + 1
    ensures forall g :: g != name ==> Count(r, g) == Count(counters, g)
    ensures r.Keys == counters.Keys + {name}
  {
    counters[name := (if name in counters && counters[name] != 0 then counters[name] else 0) + 1]
  }

  /** A counter bumped `n` times for the same field counts `n` more. */
  function BumpTimes(counters: map<string, int>, name: string, n: nat): map<string, int>
    decreases n
  {
    if n == 0 then counters else Bump(BumpTimes(counters, name, n - 1), name)
  }

  lemma {:induction false} BumpTimesCounts(counters: map<string, int>, name: string, n: nat)
    ensures Count(BumpTimes(counters, name, n), name) == Count(counters, name) + n
    ensures forall g :: g != name ==> Count(BumpTimes(counters, name, n), g) == Count(counters, g)
    decreases n
  {
    if n > 0 {
      BumpTimesCounts(counters, name, n - 1);
    }
  }

  /** The record of a fresh (or reset) form session. */
  function FreshAnalytics(now: int): (r: FormAnalytics)
    ensures r.formStartTime == now
    ensures forall f :: Count(r.fieldInteractions, f) == 0 && Count(r.validationErrors, f) == 0
    ensures r.completionTime == None && r.abandonmentPoint == None
  {
    FormAnalytics(now, map[], map[], None, None)
  }

  class FormAnalyticsTracker {
    var analytics: FormAnalytics

    constructor (now: int)
      ensures analytics == FreshAnalytics(now)
    {
      analytics := FreshAnalytics(now);
    }

    /** trackFieldInteraction: that field's interaction counter, and nothing else, goes up by one. */
    method TrackFieldInteraction(fieldName: string)
      modifies this
      ensures analytics == old(analytics).(fieldInteractions := Bump(old(analytics).fieldInteractions, fieldName))
    {
      analytics := analytics.(fieldInteractions := Bump(analytics.fieldInteractions, fieldName));
    }

    /** trackValidationError: that field's error counter, and nothing else, goes up by one. */
    method TrackValidationError(fieldName: string)
      modifies this
      ensures analytics == old(analytics).(validationErrors := Bump(old(analytics).validationErrors, fieldName))
    {
      analytics := analytics.(validationErrors := Bump(analytics.validationErrors, fieldName));
    }

    /** trackFormCompletion: the time since the session started. */
    method TrackFormCompletion(now: int)
      modifies this
      ensures analytics == old(analytics).(completionTime := Some(now - old(analytics).formStartTime))
    {
      analytics := analytics.(completionTime := Some(now - analytics.formStartTime));
    }

    /** trackFormAbandonment: the field the user left the form at. */
    method TrackFormAbandonment(currentField: string)
      modifies this
      ensures analytics == old(analytics).(abandonmentPoint := Some(currentField))
    {
      analytics := analytics.(abandonmentPoint := Some(currentField));
    }

    /** getAnalytics: the current record. */
    method GetAnalytics() returns (r: FormAnalytics)
      ensures r == analytics
    {
      r := analytics;
    }

    /** reset: a fresh session starting now, with empty counters. */
    method Reset(now: int)
      modifies this
      ensures analytics == FreshAnalytics(now)
    {
      analytics := FreshAnalytics(now);
    }
  }

  // ---- SDKAnalyticsTracker --------------------------------------------------------

  datatype SdkEventAnalytics = SdkEventAnalytics(
    eventType: string, timestamp: int, provider: string, sessionId: Option<string>,
    error: Option<string>, metadata: Option<Value>)

  /** `events.filter(e => e.provider === provider)`. */
  function ByProvider(events: seq<SdkEventAnalytics>, provider: string): (r: seq<SdkEventAnalytics>)
    ensures |r| <= |events|
  {
    if events == [] then []
    else ByProvider(events[..|events| - 1], provider)
         + (if events[|events| - 1].provider == provider then [events[|events| - 1]] else [])
  }

  /** The filter keeps exactly the events of that provider. */
  lemma {:induction false} ByProviderMembers(events: seq<SdkEventAnalytics>, provider: string)
    ensures forall e :: e in ByProvider(events, provider) <==> e in events && e.provider == provider
    decreases |events|
  {
    if events != [] {
      var init := events[..|events| - 1];
      ByProviderMembers(init, provider);
      assert events == init + [events[|events| - 1]];
    }
  }

  /** Filtering distributes over concatenation, so the filter keeps the original order. */
  lemma {:induction false} ByProviderConcat(a: seq<SdkEventAnalytics>, b: seq<SdkEventAnalytics>, provider: string)
    ensures ByProvider(a + b, provider) == ByProvider(a, provider) + ByProvider(b, provider)
    decreases |b|
  {
    if b == [] {
      assert a + b == a;
    } else {
      var init := b[..|b| - 1];
      var last := b[|b| - 1];
      var tail := if last.provider == provider then [last] else [];
      ByProviderConcat(a, init, provider);
      var ab := a + b;
      assert ab[..|ab| - 1] == a + init;
      assert ab[|ab| - 1] == last;
      assert ByProvider(ab, provider) == ByProvider(a + init, provider) + tail;
      assert ByProvider(b, provider) == ByProvider(init, provider) + tail;
    }
  }

  class SdkAnalyticsTracker {
    var events: seq<SdkEventAnalytics>

    constructor ()
      ensures events == []
    {
      events := [];
    }

    /** trackEvent: exactly one record appended, earlier records untouched. */
    method TrackEvent(eventType: string, provider: string, sessionId: Option<string>, metadata: Option<Value>, now: int)
      modifies this
      ensures events == old(events) + [SdkEventAnalytics(eventType, now, provider, sessionId, None, metadata)]
    {
      events := events + [SdkEventAnalytics(eventType, now, provider, sessionId, None, metadata)];
    }

    /** trackError: exactly one error record appended, earlier records untouched. */
    method TrackError(eventType: string, provider: string, error: string, sessionId: Option<string>, now: int)
      modifies this
      ensures events == old(events) + [SdkEventAnalytics(eventType, now, provider, sessionId, Some(error), None)]
    {
      events := events + [SdkEventAnalytics(eventType, now, provider, sessionId, Some(error), None)];
    }

    /** getEvents: a copy of the log, oldest first. */
    method GetEvents() returns (r: seq<SdkEventAnalytics>)
      ensures r == events
    {
      r := events;
    }

    /** getEventsByProvider: the provider's events, in the order they were tracked. */
    method GetEventsByProvider(provider: string) returns (r: seq<SdkEventAnalytics>)
      ensures r == ByProvider(events, provider)
      ensures forall e :: e in r <==> e in events && e.provider == provider
    {
      r := ByProvider(events, provider);
      ByProviderMembers(events, provider);
    }

    /** clearEvents: an empty log. */
    method ClearEvents()
      modifies this
      ensures events == []
    {
      events := [];
    }
  }

  /** A tracked event shows up last among its provider's events, and no other provider's list changes. */
  lemma TrackedEventFiltered(events: seq<SdkEventAnalytics>, e: SdkEventAnalytics, provider: string)
    ensures ByProvider(events + [e], provider) ==
      ByProvider(events, provider) + (if e.provider == provider then [e] else [])
  {
    ByProviderConcat(events, [e], provider);
    assert ByProvider([e], provider) == ByProvider([], provider) + (if e.provider == provider then [e] else []);
  }
}
