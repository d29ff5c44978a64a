/** The host environment surfnperf.js runs in, reduced to what the library reads
    and writes: the `window.performance` object, the two clocks, the shared
    `window.SURF_N_PERF` store and the user-timing entry buffer. */
module Host {
  import opened Wrappers

  /** The shape of `window.performance` that capability detection inspects:
      the navigation timing table `performance.timing` (DOM timestamps by field
      name) and the presence of `now`, `mark`, `measure` and `getEntriesByName`. */
  datatype PerformanceApi = PerformanceApi(
    timing: Option<map<string, int>>,
    hasNow: bool,
    hasMark: bool,
    hasMeasure: bool,
    hasGetEntriesByName: bool)

  /** The two clock sources: `performance.now()` (monotonic, high resolution)
      and `Date.now()` (wall clock). Their current readings are fields the host
      advances; the library only reads them. */
  class Clock {
    var highRes: int
    var wall: int

    constructor (highRes: int, wall: int)
      ensures this.highRes == highRes && this.wall == wall
    {
      this.highRes := highRes;
      this.wall := wall;
    }

    /** Time passing on the host: neither clock goes backwards. */
    method Advance(dHighRes: nat, dWall: nat)
      modifies this
      ensures highRes == old(highRes) + dHighRes && wall == old(wall) + dWall
    {
      highRes := highRes + dHighRes;
      wall := wall + dWall;
    }
  }

  /** `window.SURF_N_PERF`: marks recorded outside any instance (for example by
      an inline script in the page head), shared by every instance in the page. */
  class GlobalStore {
    var marks: map<string, int>
    var highResMarks: map<string, int>

    constructor (marks: map<string, int>, highResMarks: map<string, int>)
      ensures this.marks == marks && this.highResMarks == highResMarks
    {
      this.marks := marks;
      this.highResMarks := highResMarks;
    }
  }

  /** The slot `window.SURF_N_PERF`, `null` while nothing has defined it. */
  class Window {
    var perfStore: GlobalStore?

    constructor (perfStore: GlobalStore?)
      ensures this.perfStore == perfStore
    {
      this.perfStore := perfStore;
    }
  }

  /** One entry of the host's performance timeline: a mark placed by
      `performance.mark(name)` (whose duration is zero in the User Timing
      standard) or a measure placed by `performance.measure(name, a, b)`. */
  datatype Entry = MarkEntry(name: string) | MeasureEntry(name: string, duration: int)

  function EntryDuration(e: Entry): int
  {
    match e
    case MarkEntry(_) => 0
    case MeasureEntry(_, d) => d
  }

  /** What the host's `performance.mark(name)` did: placed the mark, or raised
      (the User Timing standard rejects, for one, the names of navigation
      timing attributes). When it raises is host behaviour and is left abstract. */
  datatype MarkOutcome = Placed | Rejected

  /** What the host's `performance.measure(name, a, b)` made of its two
      endpoints: a measure of some duration, or an exception (at least one of
      the endpoints is not recorded yet). When it succeeds is host behaviour and
      is left abstract. */
  datatype MeasureOutcome = Measured(duration: int) | Unmeasurable

  /** The entries a measure call appends to the timeline. */
  function Recorded(name: string, outcome: MeasureOutcome): (es: seq<Entry>)
  {
    match outcome
    case Measured(d) => [MeasureEntry(name, d)]
    case Unmeasurable => []
  }

  /** `(getEntriesByName(name)[0] || {}).duration`: the duration of the first
      entry of that name, undefined when there is none. */
  function FirstNamed(entries: seq<Entry>, name: string): (r: Option<int>)
    ensures r.Some? <==> exists i :: 0 <= i < |entries| && entries[i].name == name
    ensures r.Some? ==>
      exists i :: 0 <= i < |entries| && entries[i].name == name && r.value == EntryDuration(entries[i])
        && forall j :: 0 <= j < i ==> entries[j].name != name
  {
    if entries == [] then None
    else if entries[0].name == name then Some(EntryDuration(entries[0]))
    else
      var r := FirstNamed(entries[1..], name);
      assert forall i :: 1 <= i < |entries| ==> entries[i] == entries[1..][i - 1];
      r
  }

  /** The host's performance timeline, written by the native `mark` and
      `measure` primitives. */
  class Timeline {
    var entries: seq<Entry>

    constructor ()
      ensures entries == []
    {
      entries := [];
    }

    /** `performance.mark(name)`: appends a mark entry when the host places the
        mark; `raised` reports the exception otherwise. */
    method Mark(name: string, outcome: MarkOutcome) returns (raised: bool)
      modifies this
      ensures raised <==> outcome == Rejected
      ensures entries == if raised then old(entries) else old(entries) + [MarkEntry(name)]
    {
      raised := outcome == Rejected;
      if !raised {
        entries := entries + [MarkEntry(name)];
      }
    }

    /** `performance.measure(name, startMark, endMark)`: appends a measure when
      the host could measure, and nothing when it raised. */
    method Measure(name: string, startMark: string, endMark: string, outcome: MeasureOutcome)
      modifies this
      ensures entries == old(entries) + Recorded(name, outcome)
    {
      entries := entries + Recorded(name, outcome);
    }
  }
}
