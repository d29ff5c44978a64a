/** Properties of the SurfNPerf model that relate several calls or hold for
    all states: mark precedence, degraded routing, the high-resolution
    correction, durations and measure names. */
module Properties {
  import opened Wrappers
  import opened Host
  import opened Surf

  /** The `||` chain returns the first truthy operand, and the last operand
      when no operand is truthy. */
  lemma {:induction false} FirstTruthyPicks(tiers: seq<Num>)
    ensures Truthy(FirstTruthy(tiers)) <==> exists i :: 0 <= i < |tiers| && Truthy(tiers[i])
    ensures forall i :: 0 <= i < |tiers| && Truthy(tiers[i]) && (forall j :: 0 <= j < i ==> !Truthy(tiers[j])) ==>
      FirstTruthy(tiers) == tiers[i]
    ensures |tiers| > 0 && (forall i :: 0 <= i < |tiers| ==> !Truthy(tiers[i])) ==>
      FirstTruthy(tiers) == tiers[|tiers| - 1]
  {
    if |tiers| > 1 {
      var rest := tiers[1..];
      FirstTruthyPicks(rest);
      assert forall i :: 1 <= i < |tiers| ==> tiers[i] == rest[i - 1];
      if !Truthy(tiers[0]) {
        forall i | 0 <= i < |tiers| && Truthy(tiers[i]) && (forall j :: 0 <= j < i ==> !Truthy(tiers[j]))
          ensures FirstTruthy(tiers) == tiers[i]
        {
          assert i >= 1;
          assert forall j :: 0 <= j < i - 1 ==> rest[j] == tiers[j + 1];
        }
      }
    }
  }

  /** `getMark` precedence: the instance high-resolution store, then the global
      one (only for a high-resolution request on a high-resolution host), then
      the instance DOM store, then the global DOM store; a stored 0 counts as
      absent, and when no store holds a truthy value the global DOM entry is
      returned as it is (undefined, or 0). */
  lemma GetMarkPrecedence(s: SurfNPerf, k: string, t: TimeType)
    ensures var consulted := t == HighRes && s.caps.highResTime;
      && (consulted && Truthy(Lookup(s.highResMarks, k)) ==>
            s.GetMark(k, t) == Lookup(s.highResMarks, k))
      && (consulted && !Truthy(Lookup(s.highResMarks, k)) && Truthy(Lookup(s.global.highResMarks, k)) ==>
            s.GetMark(k, t) == Lookup(s.global.highResMarks, k))
      && ((!consulted || (!Truthy(Lookup(s.highResMarks, k)) && !Truthy(Lookup(s.global.highResMarks, k)))) ==>
            s.GetMark(k, t) == (if Truthy(Lookup(s.marks, k)) then Lookup(s.marks, k)
                                else Lookup(s.global.marks, k)))
  {
  }

  /** A DOM request, an unrecognised time type, or a host without
      high-resolution time never looks at the high-resolution stores. */
  lemma HighResStoresOnlyWhenRequested(s: SurfNPerf, k: string, t: TimeType)
    requires t != HighRes || !s.caps.highResTime
    ensures s.GetMark(k, t) == s.GetMark(k, Dom)
    ensures s.GetMark(k, t) == Or(Lookup(s.marks, k), Lookup(s.global.marks, k))
  {
  }

  /** Without navigation timing, an early lifecycle field falls back on the
      `pageStart` mark and every other key (a late field such as
      `domInteractive`, or any other name) on the `loadEventEnd` mark. */
  lemma DegradedTimingMarks(s: SurfNPerf, k: string, t: TimeType)
    requires !s.caps.navigationTiming
    ensures k in EarlyEvents ==> s.GetTimingMark(k, t) == s.GetMark("pageStart", Dom)
    ensures k in LateEvents ==> s.GetTimingMark(k, t) == s.GetMark("loadEventEnd", Dom)
    ensures !IsTimingMark(k) ==> s.GetTimingMark(k, t) == s.GetMark("loadEventEnd", Dom)
  {
    assert forall i, j :: 0 <= i < |EarlyEvents| && 0 <= j < |LateEvents| ==> EarlyEvents[i] != LateEvents[j];
  }

  /** With navigation timing, a DOM request (or any request on a host without
      high-resolution time) reads the table field as it is, zero included. */
  lemma RawTimingField(s: SurfNPerf, k: string, t: TimeType)
    requires s.caps.navigationTiming && (t == Dom || !s.caps.highResTime)
    ensures s.GetTimingMark(k, t) == (if k in s.timing then Some(s.timing[k]) else None)
  {
  }

  /** The worked example: DOM `loadEventEnd` 2000, `responseEnd` 1500 and a
      global high-resolution `loadEventEnd` anchor of 500 give 0. */
  lemma CorrectionExample(s: SurfNPerf)
    requires s.caps.navigationTiming && s.caps.highResTime
    requires Lookup(s.timing, "loadEventEnd") == Some(2000) && Lookup(s.timing, "responseEnd") == Some(1500)
    requires Lookup(s.global.highResMarks, "loadEventEnd") == Some(500)
    ensures s.GetTimingMark("responseEnd", HighRes) == Some(0)
  {
  }

  /** The anchor is the global store's high-resolution `loadEventEnd` mark; the
      instance's own high-resolution marks play no part. */
  lemma CorrectionAnchorsOnGlobalStore(s: SurfNPerf, k: string)
    requires s.caps.navigationTiming && s.caps.highResTime
    ensures s.PerformanceTimingL2(k) ==
      var v := Minus(Lookup(s.global.highResMarks, "loadEventEnd"),
                     Minus(Lookup(s.timing, "loadEventEnd"), Lookup(s.timing, k)));
      if v.Some? && v.value < 0 then Some(0) else v
  {
  }

  /** The correction keeps the order of the DOM fields it converts. */
  lemma CorrectionMonotone(s: SurfNPerf, j: string, k: string)
    requires s.caps.navigationTiming && s.caps.highResTime
    requires j in s.timing && k in s.timing && s.timing[j] <= s.timing[k]
    requires "loadEventEnd" in s.timing && "loadEventEnd" in s.global.highResMarks
    ensures s.PerformanceTimingL2(j).Some? && s.PerformanceTimingL2(k).Some?
    ensures s.PerformanceTimingL2(j).value <= s.PerformanceTimingL2(k).value
  {
    CorrectionAnchorsOnGlobalStore(s, j);
    CorrectionAnchorsOnGlobalStore(s, k);
  }

  /** Two fields that neither clamps to zero keep their DOM distance. */
  lemma CorrectionPreservesOffsets(s: SurfNPerf, j: string, k: string)
    requires s.caps.navigationTiming && s.caps.highResTime
    requires s.PerformanceTimingL2(j).Some? && s.PerformanceTimingL2(j).value > 0
    requires s.PerformanceTimingL2(k).Some? && s.PerformanceTimingL2(k).value > 0
    ensures j in s.timing && k in s.timing
    ensures s.PerformanceTimingL2(k).value - s.PerformanceTimingL2(j).value == s.timing[k] - s.timing[j]
  {
  }

  /** Without user timing, `duration(a, b)` is the difference of the two
      resolved endpoints, undefined when either is missing; the host's measure
      and the timeline play no part. */
  lemma DurationWithoutUserTiming(s: SurfNPerf, a: string, b: string, o: MeasureOutcome, es: seq<Entry>,
                                  o': MeasureOutcome, es': seq<Entry>)
    requires !s.caps.userTiming
    ensures s.DurationSpec(a, b, o, es).Some? <==> s.GetDurationMark(a).Some? && s.GetDurationMark(b).Some?
    ensures s.DurationSpec(a, b, o, es).Some? ==>
      s.DurationSpec(a, b, o, es).value == s.GetDurationMark(b).value - s.GetDurationMark(a).value
    ensures s.DurationSpec(a, b, o, es) == s.DurationSpec(a, b, o', es')
  {
  }

  /** With navigation timing and high-resolution time (and no user timing), a
      duration between two recorded lifecycle fields in DOM order is defined
      and not negative. */
  lemma NavigationDurationNonNegative(s: SurfNPerf, a: string, b: string, o: MeasureOutcome, es: seq<Entry>)
    requires !s.caps.userTiming && s.caps.navigationTiming && s.caps.highResTime
    requires IsTimingMark(a) && IsTimingMark(b)
    requires a in s.timing && b in s.timing && s.timing[a] <= s.timing[b]
    requires "loadEventEnd" in s.timing && "loadEventEnd" in s.global.highResMarks
    ensures s.DurationSpec(a, b, o, es).Some? && s.DurationSpec(a, b, o, es).value >= 0
  {
    CorrectionMonotone(s, a, b);
  }

  /** `getServerTime()` with DOM `requestStart` 1400, `responseEnd` 1500,
      `loadEventEnd` 2000 and an anchor of 500: both endpoints are clamped to
      zero, so the server time is 0. */
  lemma ServerTimeClampedExample(s: SurfNPerf, o: MeasureOutcome, es: seq<Entry>)
    requires !s.caps.userTiming && s.caps.navigationTiming && s.caps.highResTime
    requires Lookup(s.timing, "requestStart") == Some(1400) && Lookup(s.timing, "responseEnd") == Some(1500)
    requires Lookup(s.timing, "loadEventEnd") == Some(2000)
    requires Lookup(s.global.highResMarks, "loadEventEnd") == Some(500)
    ensures s.DurationSpec("requestStart", "responseEnd", o, es) == Some(0)
  {
  }

  /** Without navigation timing and user timing, the three metrics between
      early fields come out as 0 (once `pageStart` is marked), and the two that
      end at `loadEventEnd` are the `loadEventEnd` mark minus the `pageStart`
      mark. */
  lemma DegradedDerivedMetrics(s: SurfNPerf, o: MeasureOutcome, es: seq<Entry>)
    requires !s.caps.userTiming && !s.caps.navigationTiming
    ensures var start := s.GetMark("pageStart", Dom);
      && s.DurationSpec("fetchStart", "connectEnd", o, es) == Minus(start, start)
      && s.DurationSpec("requestStart", "responseEnd", o, es) == Minus(start, start)
      && s.DurationSpec("fetchStart", "responseEnd", o, es) == Minus(start, start)
    ensures var start, end := s.GetMark("pageStart", Dom), s.GetMark("loadEventEnd", Dom);
      && s.DurationSpec("responseEnd", "loadEventEnd", o, es) == Minus(end, start)
      && s.DurationSpec("navigationStart", "loadEventEnd", o, es) == Minus(end, start)
  {
    DegradedTimingMarks(s, "loadEventEnd", HighRes);
  }

  /** The first entry of a name in a longer timeline is the one in the prefix,
      if the prefix has one. */
  lemma {:induction false} FirstNamedAppend(es: seq<Entry>, more: seq<Entry>, name: string)
    ensures FirstNamed(es + more, name) ==
      if FirstNamed(es, name).Some? then FirstNamed(es, name) else FirstNamed(more, name)
  {
    if es != [] {
      assert (es + more)[1..] == es[1..] + more;
      FirstNamedAppend(es[1..], more, name);
    } else {
      assert es + more == more;
    }
  }

  /** With user timing, the first measure of a pair is what `duration` reports:
      on a timeline without an entry of the reserved name it is the host's
      measure, or undefined when the host could not measure. */
  lemma FreshMeasure(s: SurfNPerf, a: string, b: string, o: MeasureOutcome, es: seq<Entry>)
    requires s.caps.userTiming
    requires forall i :: 0 <= i < |es| ==> es[i].name != MeasureName(a, b)
    ensures s.DurationSpec(a, b, o, es) == if o.Measured? then Some(o.duration) else None
  {
    FirstNamedAppend(es, Recorded(MeasureName(a, b), o), MeasureName(a, b));
  }

  /** With user timing, once an entry of the reserved name exists, every later
      `duration(a, b)` returns that first entry's duration, whatever the host
      measures now. */
  lemma RepeatedMeasureReadsFirst(s: SurfNPerf, a: string, b: string, o: MeasureOutcome, es: seq<Entry>)
    requires s.caps.userTiming
    requires FirstNamed(es, MeasureName(a, b)).Some?
    ensures s.DurationSpec(a, b, o, es) == FirstNamed(es, MeasureName(a, b))
  {
    FirstNamedAppend(es, Recorded(MeasureName(a, b), o), MeasureName(a, b));
  }

  /** Two endpoint pairs whose first keys have the same length share a measure
      name only when they are the same pair. */
  lemma MeasureNameSameLengthInjective(a: string, b: string, a': string, b': string)
    requires |a| == |a'| && MeasureName(a, b) == MeasureName(a', b')
    ensures a == a' && b == b'
  {
    var n := MeasureName(a, b);
    assert a == n[5..5 + |a|] == a';
    assert b == n[9 + |a|..] == b';
  }

  /** Keys that contain the infix can collide: two different pairs share one
      measure name. */
  lemma MeasureNamesCollide()
    ensures MeasureName("x_TO_y", "z") == MeasureName("x", "y_TO_z")
    ensures ("x_TO_y", "z") != ("x", "y_TO_z")
  {
  }

  /** With user timing, such a collision makes one pair's `duration` report the
      other pair's earlier measure. */
  lemma CollidingPairsShareMeasure(s: SurfNPerf, o: MeasureOutcome, o': MeasureOutcome, es: seq<Entry>)
    requires s.caps.userTiming
    requires FirstNamed(es, MeasureName("x", "y_TO_z")).Some?
    ensures s.DurationSpec("x_TO_y", "z", o, es) == s.DurationSpec("x", "y_TO_z", o', es)
    ensures s.DurationSpec("x_TO_y", "z", o, es) == FirstNamed(es, MeasureName("x", "y_TO_z"))
  {
    MeasureNamesCollide();
    RepeatedMeasureReadsFirst(s, "x", "y_TO_z", o', es);
    RepeatedMeasureReadsFirst(s, "x_TO_y", "z", o, es);
  }

  /** Two caller-chosen keys marked in that order, with the host clock moving
      forward in between, give a duration equal to the time that passed, so
      never negative (on a host without user timing). */
  method DurationOfOrderedMarks(s: SurfNPerf, a: string, b: string, dHighRes: nat, dWall: nat,
                                o: MeasureOutcome, es: seq<Entry>)
    requires !s.caps.userTiming && !IsTimingMark(a) && !IsTimingMark(b) && a != b
    requires s.clock.wall > 0 && (s.caps.highResTime ==> s.clock.highRes > 0)
    modifies s`marks, s`highResMarks, s.timeline, s.clock
    ensures s.DurationSpec(a, b, o, es) == Some(if s.caps.highResTime then dHighRes else dWall)
    ensures s.DurationSpec(a, b, o, es).value >= 0
  {
    var first := s.Now(HighRes);
    var thrownA := s.Mark(a, Placed);
    s.clock.Advance(dHighRes, dWall);
    var thrownB := s.Mark(b, Placed);
    assert s.GetMark(a, HighRes) == Some(first);
  }
}
