/** Telemetry counters (lib/metrics.ts): a record of counters, one per event name plus
    a total, and the 50 most recent `error` events, newest first. */
module Metrics {
  import opened Js
  import opened Types

  const MAX_LAST_ERRORS := 50
  const TOTAL_KEY := "telemetry_total"
  const INITIAL_KEYS := {"telemetry_total", "ready_total", "error_total", "skip_total", "load_total"}

  /** The counter an event name increments: `${event}_total`. */
  function CounterKey(event: string): string {
    event + "_total"
  }

  lemma CounterKeyInjective(a: string, b: string)
    requires CounterKey(a) == CounterKey(b)
    ensures a == b
  {
    assert a == CounterKey(a)[..|a|];
    assert b == CounterKey(b)[..|b|];
  }

  /** Only the event "telemetry" increments the total a second time. */
  lemma CounterKeyTotal(event: string)
    ensures CounterKey(event) == TOTAL_KEY <==> event == "telemetry"
  {
    assert CounterKey("telemetry") == TOTAL_KEY;
    if CounterKey(event) == TOTAL_KEY {
      CounterKeyInjective(event, "telemetry");
    }
  }

  /** `counters[key] ?? 0` */
  function Count(counters: map<string, int>, key: string): int {
    if key in counters then counters[key] else 0
  }

  /** The counters after one event: the total rises by one, then `${event}_total`
      rises by one from its value (0 when absent). For the event "telemetry" both
      steps hit the total. */
  function CountersAfter(counters: map<string, int>, event: string): (r: map<string, int>)
    requires TOTAL_KEY in counters
    ensures r.Keys == counters.Keys + {CounterKey(event)}
    ensures event == "telemetry" ==> r[TOTAL_KEY] == counters[TOTAL_KEY] + 2
    ensures event != "telemetry" ==> r[TOTAL_KEY] == counters[TOTAL_KEY] + 1
    ensures event != "telemetry" ==> r[CounterKey(event)] == Count(counters, CounterKey(event)) + 1
    ensures forall k :: k in counters && k != TOTAL_KEY && k != CounterKey(event) ==> r[k] == counters[k]
  {
    CounterKeyTotal(event);
    var c := counters[TOTAL_KEY := counters[TOTAL_KEY] + 1];
    c[CounterKey(event) := Count(c, CounterKey(event)) + 1]
  }

  function Take<T>(s: seq<T>, n: nat): (r: seq<T>)
    ensures |r| <= n && |r| <= |s| && r == s[..|r|]
    ensures |s| <= n ==> r == s
  {
    if |s| <= n then s else s[..n]
  }

  /** `lastErrors` after one event: an `error` is unshifted, and when that makes the
      list longer than 50 the last (oldest) entry is popped. */
  function ErrorsAfter(lastErrors: seq<TelemetryEvent>, evt: TelemetryEvent): (r: seq<TelemetryEvent>)
    ensures evt.event != "error" ==> r == lastErrors
    ensures evt.event == "error" && |lastErrors| <= MAX_LAST_ERRORS ==>
      r == Take([evt] + lastErrors, MAX_LAST_ERRORS)
    ensures |lastErrors| <= MAX_LAST_ERRORS ==> |r| <= MAX_LAST_ERRORS
  {
    if evt.event != "error" then lastErrors
    else
      var u := [evt] + lastErrors;
      if |u| > MAX_LAST_ERRORS then u[..|u| - 1] else u
  }

  // ---------------------------------------------------------------------------
  // Many events

  /** How many of the events carry this name. */
  function Occurrences(events: seq<string>, event: string): nat {
    if |events| == 0 then 0
    else Occurrences(events[..|events| - 1], event) + (if events[|events| - 1] == event then 1 else 0)
  }

  function CountersAfterAll(counters: map<string, int>, events: seq<string>): (r: map<string, int>)
    requires TOTAL_KEY in counters
    ensures TOTAL_KEY in r
  {
    if |events| == 0 then counters
    else CountersAfter(CountersAfterAll(counters, events[..|events| - 1]), events[|events| - 1])
  }

  /** Over any run of events the total counts every event, plus one more for each
      event named "telemetry", and every other counter counts its own event name. */
  lemma {:induction false} CountersCount(counters: map<string, int>, events: seq<string>, event: string)
    requires TOTAL_KEY in counters && event != "telemetry"
    ensures CountersAfterAll(counters, events)[TOTAL_KEY]
      == counters[TOTAL_KEY] + |events| + Occurrences(events, "telemetry")
    ensures Count(CountersAfterAll(counters, events), CounterKey(event))
      == Count(counters, CounterKey(event)) + Occurrences(events, event)
  {
    if |events| > 0 {
      var init := events[..|events| - 1];
      var last := events[|events| - 1];
      CountersCount(counters, init, event);
      if last != event && CounterKey(last) == CounterKey(event) {
        CounterKeyInjective(last, event);
      }
      CounterKeyTotal(event);
    }
  }

  /** The `error` events among these, newest first. */
  function NewestErrors(events: seq<TelemetryEvent>): (r: seq<TelemetryEvent>)
    ensures forall e :: e in r ==> e in events && e.event == "error"
  {
    if |events| == 0 then []
    else
      var last := events[|events| - 1];
      (if last.event == "error" then [last] else []) + NewestErrors(events[..|events| - 1])
  }

  function ErrorsAfterAll(lastErrors: seq<TelemetryEvent>, events: seq<TelemetryEvent>): seq<TelemetryEvent> {
    if |events| == 0 then lastErrors
    else ErrorsAfter(ErrorsAfterAll(lastErrors, events[..|events| - 1]), events[|events| - 1])
  }

  lemma TakeOfTake<T>(x: seq<T>, y: seq<T>, n: nat)
    ensures Take(x + Take(y, n), n) == Take(x + y, n)
  {
    if |y| > n {
      assert (x + y)[..n] == (x + y[..n])[..n];
    }
  }

  /** After any run of events, `lastErrors` holds the 50 newest `error` events, newest
      first, followed by what it held before, cut to 50. */
  lemma {:induction false} ErrorsAreNewestFirst(lastErrors: seq<TelemetryEvent>, events: seq<TelemetryEvent>)
    requires |lastErrors| <= MAX_LAST_ERRORS
    ensures ErrorsAfterAll(lastErrors, events) == Take(NewestErrors(events) + lastErrors, MAX_LAST_ERRORS)
  {
    if |events| == 0 {
      assert NewestErrors(events) + lastErrors == lastErrors;
    } else {
      var init := events[..|events| - 1];
      var last := events[|events| - 1];
      ErrorsAreNewestFirst(lastErrors, init);
      var before := ErrorsAfterAll(lastErrors, init);
      assert |before| <= MAX_LAST_ERRORS;
      assert ErrorsAfterAll(lastErrors, events) == ErrorsAfter(before, last);
      if last.event == "error" {
        assert NewestErrors(events) == [last] + NewestErrors(init);
        calc {
          ErrorsAfterAll(lastErrors, events);
          Take([last] + before, MAX_LAST_ERRORS);
          Take([last] + Take(NewestErrors(init) + lastErrors, MAX_LAST_ERRORS), MAX_LAST_ERRORS);
          { TakeOfTake([last], NewestErrors(init) + lastErrors, MAX_LAST_ERRORS); }
          Take([last] + (NewestErrors(init) + lastErrors), MAX_LAST_ERRORS);
          { assert [last] + (NewestErrors(init) + lastErrors) == NewestErrors(events) + lastErrors; }
          Take(NewestErrors(events) + lastErrors, MAX_LAST_ERRORS);
        }
      } else {
        assert NewestErrors(events) == NewestErrors(init);
      }
    }
  }

  /** The module-level `counters` record and `lastErrors` array. */
  class Metrics {
    var counters: map<string, int>
    var lastErrors: seq<TelemetryEvent>

    ghost predicate Valid()
      reads this
    {
      && INITIAL_KEYS <= counters.Keys
      && |lastErrors| <= MAX_LAST_ERRORS
      && forall e :: e in lastErrors ==> e.event == "error"
    }

    /** Five counters at 0, no errors. */
    constructor()
      ensures Valid()
      ensures counters.Keys == INITIAL_KEYS && forall k :: k in counters ==> counters[k] == 0
      ensures lastErrors == []
    {
      counters := map["telemetry_total" := 0, "ready_total" := 0, "error_total" := 0,
                      "skip_total" := 0, "load_total" := 0];
      lastErrors := [];
    }

    /** `recordTelemetry(evt)`. The telemetry endpoint only calls it for an event
        whose `event` and `ts` are non-empty. */
    method RecordTelemetry(evt: TelemetryEvent)
      requires Valid() && evt.event != "" && evt.ts != ""
      modifies this
      ensures Valid()
      ensures counters == CountersAfter(old(counters), evt.event)
      ensures lastErrors == ErrorsAfter(old(lastErrors), evt)
    {
      counters := counters[TOTAL_KEY := counters[TOTAL_KEY] + 1];
      var key := CounterKey(evt.event);
      counters := counters[key := Count(counters, key) + 1];
      if evt.event == "error" {
        lastErrors := [evt] + lastErrors;
        if |lastErrors| > MAX_LAST_ERRORS {
          lastErrors := lastErrors[..|lastErrors| - 1];
        }
      }
    }

    /** `getMetrics()`: the current record and list, unchanged. */
    method GetMetrics() returns (c: map<string, int>, errors: seq<TelemetryEvent>)
      requires Valid()
      ensures c == counters && errors == lastErrors
      ensures |errors| <= MAX_LAST_ERRORS && forall e :: e in errors ==> e.event == "error"
      ensures INITIAL_KEYS <= c.Keys
    {
      c := counters;
      errors := lastErrors;
    }
  }
}
