/** The `SurfNPerf` object of surfnperf.js: marks, navigation timing, durations,
    events and custom data over the host's timing capabilities. */
module Surf {
  import opened Wrappers
  import opened Host
  import Helpers

  /** A JavaScript number that may be `undefined` or `NaN` (both `None`).
      Timestamps are whole numbers of milliseconds. */
  type Num = Option<int>

  /** JavaScript truthiness of a number: defined and not zero. */
  predicate Truthy(n: Num)
  {
    n.Some? && n.value != 0
  }

  /** JavaScript's `a || b` on numbers. */
  function Or(a: Num, b: Num): Num
  {
    if Truthy(a) then a else b
  }

  /** JavaScript's `t0 || t1 || ... || tn`: the first truthy operand, or the
      last operand (as it is) when none is truthy. */
  function FirstTruthy(tiers: seq<Num>): Num
  {
    if |tiers| == 0 then None
    else if |tiers| == 1 || Truthy(tiers[0]) then tiers[0]
    else FirstTruthy(tiers[1..])
  }

  lemma FirstTruthyCons(x: Num, rest: seq<Num>)
    requires |rest| > 0
    ensures FirstTruthy([x] + rest) == Or(x, FirstTruthy(rest))
  {
    assert ([x] + rest)[1..] == rest;
  }

  /** Property access `m[k]` on a store of numbers. */
  function Lookup(m: map<string, int>, k: string): Num
  {
    if k in m then Some(m[k]) else None
  }

  /** The part of `m` on the keys in `s`. */
  function Restrict<V>(m: map<string, V>, s: set<string>): map<string, V>
  {
    map k | k in m && k in s :: m[k]
  }

  lemma RestrictGrows<V>(base: map<string, V>, m: map<string, V>, s: set<string>, k: string)
    requires k in m
    ensures (base + Restrict(m, s))[k := m[k]] == base + Restrict(m, s + {k})
  {
  }

  /** JavaScript's `x - y` on numbers that may be undefined. */
  function Minus(x: Num, y: Num): (r: Num)
  {
    if x.Some? && y.Some? then Some(x.value - y.value) else None
  }

  /** The `timeType` argument after its default is applied: `'highRes'`,
      `'DOM'`, or any other string. */
  datatype TimeType = HighRes | Dom | OtherTimeType

  /** A value stored in an event record or in the custom store. */
  datatype Value = Number(n: int) | Text(s: string)

  /** A value used as an operand of `-`: a non-number gives `NaN`. */
  function ToNum(v: Option<Value>): Num
  {
    if v.Some? && v.value.Number? then Some(v.value.n) else None
  }

  datatype Capabilities = Capabilities(navigationTiming: bool, highResTime: bool, userTiming: bool)

  /** `_setPerformanceApis`: the three capability flags, from the shape of
      `window.performance` (`None` when the host has no such object). */
  function DetectCapabilities(performance: Option<PerformanceApi>): (c: Capabilities)
    ensures performance.None? ==> !c.navigationTiming && !c.highResTime && !c.userTiming
    ensures c.navigationTiming <==> performance.Some? && performance.value.timing.Some?
    ensures c.highResTime <==> performance.Some? && performance.value.hasNow
    ensures c.userTiming <==> performance.Some? && performance.value.hasMark
                              && performance.value.hasMeasure && performance.value.hasGetEntriesByName
  {
    match performance
    case None => Capabilities(false, false, false)
    case Some(p) =>
      Capabilities(p.timing.Some?, p.hasNow, p.hasMark && p.hasMeasure && p.hasGetEntriesByName)
  }

  /** Navigation-lifecycle fields from `navigationStart` to `domLoading`. */
  const EarlyEvents: seq<string> := ["navigationStart", "unloadEventEnd", "unloadEventStart",
    "redirectStart", "redirectEnd", "fetchStart", "domainLookupStart", "domainLookupEnd",
    "connectStart", "secureConnectionStart", "connectEnd", "requestStart", "responseStart",
    "responseEnd", "domLoading"]

  /** Navigation-lifecycle fields from `domInteractive` to `loadEventEnd`. */
  const LateEvents: seq<string> := ["domInteractive", "domContentLoadedEventStart",
    "domContentLoadedEventEnd", "domComplete", "loadEventStart", "loadEventEnd"]

  /** `_isTimingMark`: whether a key names a navigation-lifecycle field. */
  function IsTimingMark(k: string): (r: bool)
    ensures r <==> k in EarlyEvents || k in LateEvents
  {
    k in EarlyEvents + LateEvents
  }

  /** `_measureName`: the reserved-prefix name of the measure from `a` to `b`. */
  function MeasureName(a: string, b: string): (r: string)
    ensures |r| == 5 + |a| + 4 + |b|
    ensures r[..5] == "_SNP_" && r[5..5 + |a|] == a
    ensures r[5 + |a|..9 + |a|] == "_TO_" && r[9 + |a|..] == b
  {
    "_SNP_" + a + "_TO_" + b
  }

  /** `_roundedDuration(a, b)`: `b - a`; rounding a whole number is the identity. */
  function RoundedDuration(a: Num, b: Num): (r: Num)
    ensures r.Some? <==> a.Some? && b.Some?
    ensures r.Some? ==> a.value + r.value == b.value
  {
    Minus(b, a)
  }

  /** `_setPerfProperties`: defines `window.SURF_N_PERF` with empty stores when
      it is undefined, and otherwise shares the existing store. */
  method SetPerfProperties(window: Window) returns (store: GlobalStore)
    modifies window
    ensures window.perfStore == store
    ensures old(window.perfStore) != null ==> store == old(window.perfStore)
    ensures old(window.perfStore) == null ==>
      fresh(store) && store.marks == map[] && store.highResMarks == map[]
  {
    if window.perfStore == null {
      window.perfStore := new GlobalStore(map[], map[]);
    }
    store := window.perfStore;
  }

  class SurfNPerf {
    /** The capability flags, fixed at initialisation. */
    const caps: Capabilities
    /** `performanceTiming()`: the navigation timing table, or `{}` without navigation timing. */
    const timing: map<string, int>
    const clock: Clock
    /** `window.SURF_N_PERF`. */
    const global: GlobalStore
    /** The host timeline behind `userTiming()`. */
    const timeline: Timeline

    var marks: map<string, int>
    var highResMarks: map<string, int>
    var events: map<string, map<string, Value>>
    var custom: map<string, Value>

    /** `new SurfNPerf()`, which runs `initialize`: detect the capabilities,
        define or share the global store, record the initial path. */
    constructor (api: Option<PerformanceApi>, window: Window, clock: Clock, timeline: Timeline, path: string)
      modifies window
      ensures caps == DetectCapabilities(api)
      ensures timing == if caps.navigationTiming then api.value.timing.value else map[]
      ensures window.perfStore == global
      ensures old(window.perfStore) != null ==> global == old(window.perfStore)
      ensures old(window.perfStore) == null ==>
        fresh(global) && global.marks == map[] && global.highResMarks == map[]
      ensures this.clock == clock && this.timeline == timeline
      ensures marks == map[] && highResMarks == map[] && events == map[]
      ensures custom == map["initialUrl" := Text(path)]
    {
      caps := DetectCapabilities(api);
      timing := if api.Some? && api.value.timing.Some? then api.value.timing.value else map[];
      var store := SetPerfProperties(window);
      global := store;
      this.clock := clock;
      this.timeline := timeline;
      marks, highResMarks, events, custom := map[], map[], map[], map[];
      new;
      SetCustom("initialUrl", Text(path));
    }

    /** `now(timeType)` (default `HighRes`). */
    function Now(t: TimeType): (r: int)
      reads clock
      ensures caps.highResTime && t == HighRes ==> r == clock.highRes
      ensures !caps.highResTime || t != HighRes ==> r == clock.wall
    {
      if caps.highResTime && t == HighRes then clock.highRes else clock.wall
    }

    /** The stores `getMark(k, t)` consults, in order. */
    function Tiers(k: string, t: TimeType): seq<Num>
      reads this, global
    {
      (if t == HighRes && caps.highResTime
       then [Lookup(highResMarks, k), Lookup(global.highResMarks, k)]
       else [])
      + [Lookup(marks, k), Lookup(global.marks, k)]
    }

    /** `getMark(k, timeType)` (default `HighRes`). */
    function GetMark(k: string, t: TimeType): (r: Num)
      reads this, global
      ensures r == FirstTruthy(Tiers(k, t))
    {
      var mark := if t == HighRes && caps.highResTime
                  then Or(Lookup(highResMarks, k), Lookup(global.highResMarks, k))
                  else None;
      var hr, ghr, dom, gdom := Lookup(highResMarks, k), Lookup(global.highResMarks, k),
                                Lookup(marks, k), Lookup(global.marks, k);
      FirstTruthyCons(dom, [gdom]);
      FirstTruthyCons(ghr, [dom, gdom]);
      FirstTruthyCons(hr, [ghr, dom, gdom]);
      assert [hr, ghr] + [dom, gdom] == [hr] + ([ghr] + ([dom] + [gdom]));
      Or(mark, Or(dom, gdom))
    }

    /** `getTimingMark(k, timeType)` (default `Dom`). */
    function GetTimingMark(k: string, t: TimeType): (r: Num)
      reads this, global
      decreases if t == Dom then 0 else 2
      ensures caps.navigationTiming && (t == Dom || !caps.highResTime) ==> r == Lookup(timing, k)
      ensures caps.navigationTiming && caps.highResTime && t != Dom ==> r == PerformanceTimingL2(k)
      ensures caps.navigationTiming && caps.highResTime && t != Dom && r.Some? ==> r.value >= 0
      ensures !caps.navigationTiming ==>
        r == GetMark(if k in EarlyEvents then "pageStart" else "loadEventEnd", Dom)
    {
      if caps.navigationTiming then
        if t == Dom || !caps.highResTime then Lookup(timing, k) else PerformanceTimingL2(k)
      else if k in EarlyEvents then GetMark("pageStart", Dom)
      else GetMark("loadEventEnd", Dom)
    }

    /** `_performanceTimingL2(k)`: the DOM field `k` moved onto the high-resolution
        clock, anchored at the global high-resolution `loadEventEnd` mark, and
        clamped at zero. */
    function PerformanceTimingL2(k: string): (r: Num)
      reads this, global
      decreases 1
      ensures r.Some? <==> GetTimingMark("loadEventEnd", Dom).Some? && GetTimingMark(k, Dom).Some?
                           && "loadEventEnd" in global.highResMarks
      ensures r.Some? ==> r.value >= 0
      ensures r.Some? ==>
        r.value + GetTimingMark("loadEventEnd", Dom).value
        >= global.highResMarks["loadEventEnd"] + GetTimingMark(k, Dom).value
      ensures r.Some? && r.value > 0 ==>
        r.value + GetTimingMark("loadEventEnd", Dom).value
        == global.highResMarks["loadEventEnd"] + GetTimingMark(k, Dom).value
    {
      var delta := Minus(GetTimingMark("loadEventEnd", Dom), GetTimingMark(k, Dom));
      var value := Minus(Lookup(global.highResMarks, "loadEventEnd"), delta);
      if value.Some? && value.value < 0 then Some(0) else value
    }

    /** `_getDurationMark(k)`: how `duration` resolves one endpoint. */
    function GetDurationMark(k: string): (r: Num)
      reads this, global
      ensures !IsTimingMark(k) ==> r == GetMark(k, HighRes)
      ensures IsTimingMark(k) && caps.navigationTiming && caps.highResTime ==> r == PerformanceTimingL2(k)
      ensures IsTimingMark(k) && caps.navigationTiming && !caps.highResTime ==> r == Lookup(timing, k)
      ensures IsTimingMark(k) && !caps.navigationTiming ==>
        r == GetMark(if k in EarlyEvents then "pageStart" else "loadEventEnd", Dom)
    {
      if IsTimingMark(k) then GetTimingMark(k, HighRes) else GetMark(k, HighRes)
    }

    /** The value `duration(a, b)` returns, given the timeline's entries before
        the call and what the host's measure made of the two endpoints. */
    function DurationSpec(a: string, b: string, outcome: MeasureOutcome, before: seq<Entry>): Num
      reads this, global
    {
      if caps.userTiming then FirstNamed(before + Recorded(MeasureName(a, b), outcome), MeasureName(a, b))
      else RoundedDuration(GetDurationMark(a), GetDurationMark(b))
    }

    /** `duration(a, b)`: with user timing, the host measures under the reserved
        name and the first entry of that name is read back; otherwise the two
        resolved endpoints are subtracted. */
    method Duration(a: string, b: string, outcome: MeasureOutcome) returns (r: Num)
      modifies timeline
      ensures timeline.entries == old(timeline.entries)
        + (if caps.userTiming then Recorded(MeasureName(a, b), outcome) else [])
      ensures r == DurationSpec(a, b, outcome, old(timeline.entries))
    {
      if caps.userTiming {
        timeline.Measure(MeasureName(a, b), a, b, outcome);
        r := FirstNamed(timeline.entries, MeasureName(a, b));
      } else {
        r := RoundedDuration(GetDurationMark(a), GetDurationMark(b));
      }
    }

    /** `mark(k)`. The native mark is not guarded: when the host raises, the
        exception reaches the caller (`thrown`) after the high-resolution mark
        was written and before the DOM mark is. */
    method Mark(k: string, native: MarkOutcome) returns (thrown: bool)
      modifies this`marks, this`highResMarks, timeline
      ensures thrown <==> caps.userTiming && native == Rejected
      ensures highResMarks == if caps.highResTime then old(highResMarks)[k := clock.highRes] else old(highResMarks)
      ensures marks == if thrown then old(marks) else old(marks)[k := clock.wall]
      ensures timeline.entries ==
        if caps.userTiming && !thrown then old(timeline.entries) + [MarkEntry(k)] else old(timeline.entries)
      ensures !thrown && clock.wall != 0 && (caps.highResTime ==> clock.highRes != 0) ==>
        forall t :: GetMark(k, t) == Some(Now(t))
      ensures !thrown && caps.highResTime && clock.highRes == 0 && clock.wall != 0
              && !Truthy(Lookup(global.highResMarks, k)) ==>
        GetMark(k, HighRes) == Some(clock.wall)
    {
      thrown := false;
      if caps.highResTime {
        highResMarks := highResMarks[k := Now(HighRes)];
      }
      if caps.userTiming {
        thrown := timeline.Mark(k, native);
        if thrown {
          return;
        }
      }
      marks := marks[k := Now(Dom)];
    }

    /** `_data.events[e]`, or an empty record when the event is unknown. */
    function EventRecord(e: string): map<string, Value>
      reads this
    {
      if e in events then events[e] else map[]
    }

    /** `getEventData(e, k)`. */
    function GetEventData(e: string, k: string): (r: Option<Value>)
      reads this
      ensures e !in events ==> r == None
      ensures r.Some? ==> e in events && k in events[e] && r.value == events[e][k]
      ensures e in events && k in events[e] ==> r == Some(events[e][k])
    {
      if e in events && k in events[e] then Some(events[e][k]) else None
    }

    /** `updateEvent(e, k, v)`: creates the record only when it is absent, then
        sets one field. */
    method UpdateEvent(e: string, k: string, v: Value)
      modifies this`events
      ensures events == old(events)[e := old(EventRecord(e))[k := v]]
      ensures GetEventData(e, k) == Some(v)
      ensures forall e', k' :: e' != e || k' != k ==> GetEventData(e', k') == old(GetEventData(e', k'))
    {
      var withRecord := Helpers.Defaults(events, map[e := map[]]);
      events := withRecord[e := withRecord[e][k := v]];
    }

    /** `resetEvent(e, k, v)`: replaces the record by one holding only `k`. */
    method ResetEvent(e: string, k: string, v: Value)
      modifies this`events
      ensures events == old(events)[e := map[k := v]]
      ensures forall k' :: GetEventData(e, k') == if k' == k then Some(v) else None
      ensures forall e', k' :: e' != e ==> GetEventData(e', k') == old(GetEventData(e', k'))
    {
      events := events[e := map[]];
      events := events[e := events[e][k := v]];
    }

    /** `eventStart(e)`. */
    method EventStart(e: string)
      modifies this`events
      ensures events == old(events)[e := map["start" := Number(Now(HighRes))]]
      ensures forall k :: k != "start" ==> GetEventData(e, k) == None
      ensures EventDuration(e) == None
    {
      ResetEvent(e, "start", Number(Now(HighRes)));
    }

    /** `eventEnd(e, options)`: merges every option into the record, then sets
        `end` to the time read on entry. */
    method EventEnd(e: string, options: map<string, Value>)
      modifies this`events
      ensures events == old(events)[e := (old(EventRecord(e)) + options)["end" := Number(Now(HighRes))]]
      ensures forall k :: k in options && k != "end" ==> GetEventData(e, k) == Some(options[k])
      ensures "start" !in options ==>
        EventDuration(e) == Minus(Some(Now(HighRes)), ToNum(old(GetEventData(e, "start"))))
    {
      var now := Now(HighRes);
      var todo := options.Keys;
      ghost var done: set<string> := {};
      while todo != {}
        invariant todo <= options.Keys && done == options.Keys - todo
        invariant done == {} ==> events == old(events)
        invariant done != {} ==> events == old(events)[e := old(EventRecord(e)) + Restrict(options, done)]
        decreases todo
      {
        var k :| k in todo;
        ghost var record := old(EventRecord(e)) + Restrict(options, done);
        assert EventRecord(e) == record;
        UpdateEvent(e, k, options[k]);
        todo, done := todo - {k}, done + {k};
        RestrictGrows(old(EventRecord(e)), options, done - {k}, k);
      }
      assert Restrict(options, done) == options;
      assert EventRecord(e) == old(EventRecord(e)) + options;
      UpdateEvent(e, "end", Number(now));
    }

    /** `eventDuration(e)`: `end - start` of the record. */
    function EventDuration(e: string): (r: Num)
      reads this
      ensures r.Some? <==> ToNum(GetEventData(e, "start")).Some? && ToNum(GetEventData(e, "end")).Some?
      ensures r.Some? ==> r.value == ToNum(GetEventData(e, "end")).value - ToNum(GetEventData(e, "start")).value
    {
      RoundedDuration(ToNum(GetEventData(e, "start")), ToNum(GetEventData(e, "end")))
    }

    /** `setCustom(k, v)`. */
    method SetCustom(k: string, v: Value)
      modifies this`custom
      ensures custom == old(custom)[k := v]
      ensures GetCustom(k) == Some(v)
      ensures forall k' :: k' != k ==> GetCustom(k') == old(GetCustom(k'))
    {
      custom := custom[k := v];
    }

    /** `getCustom(k)`. */
    function GetCustom(k: string): (r: Option<Value>)
      reads this
      ensures r.Some? <==> k in custom
      ensures r.Some? ==> r.value == custom[k]
    {
      if k in custom then Some(custom[k]) else None
    }

    /** `getNetworkTime()`: App Cache, DNS and TCP. */
    method GetNetworkTime(outcome: MeasureOutcome) returns (r: Num)
      modifies timeline
      ensures timeline.entries == old(timeline.entries)
        + (if caps.userTiming then Recorded(MeasureName("fetchStart", "connectEnd"), outcome) else [])
      ensures r == DurationSpec("fetchStart", "connectEnd", outcome, old(timeline.entries))
    {
      r := Duration("fetchStart", "connectEnd", outcome);
    }

    /** `getServerTime()`: request and response. */
    method GetServerTime(outcome: MeasureOutcome) returns (r: Num)
      modifies timeline
      ensures timeline.entries == old(timeline.entries)
        + (if caps.userTiming then Recorded(MeasureName("requestStart", "responseEnd"), outcome) else [])
      ensures r == DurationSpec("requestStart", "responseEnd", outcome, old(timeline.entries))
    {
      r := Duration("requestStart", "responseEnd", outcome);
    }

    /** `getNetworkLatency()`: network and server together. */
    method GetNetworkLatency(outcome: MeasureOutcome) returns (r: Num)
      modifies timeline
      ensures timeline.entries == old(timeline.entries)
        + (if caps.userTiming then Recorded(MeasureName("fetchStart", "responseEnd"), outcome) else [])
      ensures r == DurationSpec("fetchStart", "responseEnd", outcome, old(timeline.entries))
    {
      r := Duration("fetchStart", "responseEnd", outcome);
    }

    /** `getProcessingLoadTime()`: processing the response up to the load event. */
    method GetProcessingLoadTime(outcome: MeasureOutcome) returns (r: Num)
      modifies timeline
      ensures timeline.entries == old(timeline.entries)
        + (if caps.userTiming then Recorded(MeasureName("responseEnd", "loadEventEnd"), outcome) else [])
      ensures r == DurationSpec("responseEnd", "loadEventEnd", outcome, old(timeline.entries))
    {
      r := Duration("responseEnd", "loadEventEnd", outcome);
    }

    /** `getFullRequestLoadTime()`: from navigation start to the load event. */
    method GetFullRequestLoadTime(outcome: MeasureOutcome) returns (r: Num)
      modifies timeline
      ensures timeline.entries == old(timeline.entries)
        + (if caps.userTiming then Recorded(MeasureName("navigationStart", "loadEventEnd"), outcome) else [])
      ensures r == DurationSpec("navigationStart", "loadEventEnd", outcome, old(timeline.entries))
    {
      r := Duration("navigationStart", "loadEventEnd", outcome);
    }
  }
}
