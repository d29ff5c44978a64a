# SurfNPerf in Dafny

This project models the `SurfNPerf` object of `surfnperf.js` and proves properties of it. `SurfNPerf` is a browser instrumentation layer. It records named timestamps ("marks"), resolves navigation-lifecycle timestamps, computes durations between two named points and keeps ad-hoc event records and custom data. It works the same on four kinds of host: hosts with the precise mark/measure API (user timing), the navigation timing table, the monotonic `performance.now()` clock, or only `Date.now()`.

Files:

- `wrappers.dfy`: `Option`. JavaScript's `undefined` (and `NaN`, for numbers) is `None`.
- `helpers.dfy`: the free helpers `defaults` and `contains`, as loops.
- `host.dfy`: the host, passed in as objects and values:
  - `PerformanceApi`: the shape of `window.performance` that detection inspects;
  - `Clock`: the current readings of `performance.now()` and `Date.now()`;
  - `GlobalStore` and `Window`: `window.SURF_N_PERF` and the slot that holds it (shared by reference);
  - `Timeline`: the host's performance entry buffer, written by the native `mark` and `measure`;
  - `FirstNamed`: `getEntriesByName(name)[0].duration`.
- `surfnperf.dfy`: module `Surf`, holding the class `SurfNPerf`.
  - Constant fields: the capability flags (computed once, when the object is built), the navigation timing table, and the injected clock, global store and timeline.
  - Fields updated in place: `marks`, `highResMarks`, `events` and `custom`.
  - Methods for operations that change state; functions (with `reads` clauses) for lookups.
- `properties.dfy`: lemmas relating several operations or covering all states.

Modelling choices:

- Timestamps are integers. `Num = Option<int>` is a JavaScript number that may be undefined or NaN.
- `getMark`'s `||` chain is modelled through `FirstTruthy`, exactly over the keys a store holds as its own (inherited object properties are under "Left out"):
  - a stored 0 counts as absent and lookup falls through;
  - when nothing is truthy, the last operand (the global DOM entry) is returned as it is, so the result can be `Some(0)`.
- The `timeType` argument is `TimeType = HighRes | Dom | OtherTimeType`, taken after its default has been applied. The defaults are `HighRes` for `now` and `getMark` and `Dom` for `getTimingMark`. Any other string behaves as DOM in `now` and `getMark` but as high resolution in `getTimingMark`, as in the code.
- The host's `performance.mark` either places the mark or raises. This is a `MarkOutcome` argument (`Placed | Rejected`) of `Mark`. `mark(k)` does not catch the exception: it reaches the caller after the high-resolution mark was written and before the DOM mark is, and `Mark` reports it as `thrown`.
- The host's `performance.measure` either succeeds or raises. This is modelled as a `MeasureOutcome` argument (`Measured(d) | Unmeasurable`). `Duration` and the five metrics take it as a parameter; when it succeeds is never specified.
- `DurationSpec` is the value `duration(a, b)` returns. It is a function of the current state, the measure outcome and the timeline before the call. The method `Duration` and the five metric methods are proved equal to it, and the lemmas in `properties.dfy` are about it.
- Event fields and custom values are `Value = Number(n) | Text(s)`. When a field is used in a subtraction, a `Text` value gives `NaN`.

Behaviour that follows from the code and that a reader of the library's description might not expect:

- On a host without user timing, `getServerTime()` with DOM `requestStart` 1400, `responseEnd` 1500, `loadEventEnd` 2000 and a high-resolution anchor of 500 returns 0, not 100. The correction `_performanceTimingL2` clamps both endpoints to 0 (`ServerTimeClampedExample`).
- `mark` never writes `window.SURF_N_PERF`. So a second instance in the same page does not see another instance's marks through the shared store. It sees only marks written into that store by other code before it was read.
- Without navigation timing, every key that is not an early lifecycle field (including caller-chosen names) resolves to the `loadEventEnd` mark.
- With user timing, `duration(a, b)` reads the first timeline entry with the reserved name. A repeated call therefore reports the first measure (`RepeatedMeasureReadsFirst`), reading the timeline in append order (see "Left out"). Two different pairs of keys can share one reserved name (`MeasureNamesCollide`).

## Model

| member | source | states |
|---|---|---|
| Helpers.Defaults | surfnperf.js:57-63 | the result has the keys of both maps; every property already present keeps its value; every missing property gets the default's value |
| Helpers.Contains | surfnperf.js:75-87 | the scan answers true exactly when the value occurs in the array |
| Host.FirstNamed | surfnperf.js:442-445 | defined exactly when some entry has the name, and then it is the duration of the first such entry |
| Host.Timeline.Mark | surfnperf.js:295 | the native mark appends one mark entry of that name when the host places it, and raises (leaving the timeline as it was) otherwise |
| Host.Timeline.Measure | surfnperf.js:417-429 | the native measure appends a measure entry when the host could measure, and nothing when it raised (the exception is swallowed) |
| Surf.DetectCapabilities | surfnperf.js:125-135 | navigation timing iff `performance.timing` exists; high-res iff `performance.now` exists; user timing iff mark, measure and getEntriesByName all exist; all three false without a `performance` object |
| Surf.SetPerfProperties | surfnperf.js:146-153 | an existing global store is kept and shared by reference; a missing one is replaced by a fresh store with empty mark maps |
| Surf.SurfNPerf.constructor | surfnperf.js:94-111 | initialisation: flags from detection, timing table only with navigation timing, global store defined or shared, empty instance stores, custom holds exactly `initialUrl` = the page path |
| Surf.IsTimingMark | surfnperf.js:334-336 | true exactly for the 15 early and 6 late navigation-lifecycle names |
| Surf.MeasureName | surfnperf.js:403-405 | the name is `_SNP_`, then `a`, then `_TO_`, then `b`, with its length the sum of the parts |
| Surf.RoundedDuration | surfnperf.js:389-391 | defined exactly when both operands are; then the start plus the result is the end |
| Surf.SurfNPerf.Now | surfnperf.js:195-202 | the monotonic clock only when high-res time is available and requested, the wall clock otherwise |
| Surf.SurfNPerf.GetMark | surfnperf.js:312-321 | the result is the `||` chain over the consulted stores in precedence order: high-res instance and global stores only for a high-res request on a high-res host, then the instance DOM store, then the global DOM store |
| Surf.SurfNPerf.GetTimingMark | surfnperf.js:248-264 | with navigation timing and a DOM request or no high-res time: the raw table field; with navigation timing, high-res time and any other request: the correction `PerformanceTimingL2`, never negative; without navigation timing: the DOM `pageStart` mark for early lifecycle fields and the DOM `loadEventEnd` mark for every other key |
| Surf.SurfNPerf.PerformanceTimingL2 | surfnperf.js:229-235 | defined exactly when both DOM fields and the global high-res anchor exist; never negative; never below anchor minus delta; equal to it unless clamped to zero |
| Surf.SurfNPerf.GetDurationMark | surfnperf.js:349-355 | caller keys resolve through `getMark` (high-res); lifecycle keys resolve to the correction, to the raw table field, or to the fallback mark, depending on the flags |
| Surf.SurfNPerf.Duration | surfnperf.js:459-466 | the timeline gains the host's measure only with user timing; the result is `DurationSpec` of the state before the call |
| Surf.SurfNPerf.Mark | surfnperf.js:290-298 | the high-res mark is set to the high-res clock only with high-res time; the native mark is called only with user timing and the call throws exactly when the host rejects it; the DOM mark is set to the wall clock unless the call threw; the timeline gains the mark entry only when placed; nothing else changes (global store untouched); without a throw, `getMark(k, t)` equals `now(t)` for every time type when the clocks read non-zero, and a high-res reading of 0 makes the high-res `getMark` fall through to the wall-clock DOM mark (with no truthy global high-res entry) |
| Surf.SurfNPerf.GetEventData | surfnperf.js:551-556 | undefined for an unknown event or an absent field; when the event has the field, exactly its stored value |
| Surf.SurfNPerf.UpdateEvent | surfnperf.js:479-486 | the record is created only if absent; only field `k` changes; every other field of every event keeps its value |
| Surf.SurfNPerf.ResetEvent | surfnperf.js:499-502 | the record then holds exactly field `k`; other events are unchanged |
| Surf.SurfNPerf.EventStart | surfnperf.js:513-515 | the record is exactly `{start: now()}`; prior fields are gone; the event duration is undefined |
| Surf.SurfNPerf.EventEnd | surfnperf.js:527-538 | the record is the old record merged with every option, then `end` is set to the time read on entry, overriding any `end` option; the duration is that time minus the recorded start |
| Surf.SurfNPerf.EventDuration | surfnperf.js:568-570 | defined exactly when both `start` and `end` hold numbers, and then it is `end` minus `start` |
| Surf.SurfNPerf.SetCustom | surfnperf.js:582-584 | overwrites one key and leaves every other key unchanged |
| Surf.SurfNPerf.GetCustom | surfnperf.js:596-598 | the stored value, undefined when absent |
| Surf.SurfNPerf.GetNetworkTime | surfnperf.js:609-611 | duration from `fetchStart` to `connectEnd` |
| Surf.SurfNPerf.GetServerTime | surfnperf.js:622-624 | duration from `requestStart` to `responseEnd` |
| Surf.SurfNPerf.GetNetworkLatency | surfnperf.js:635-637 | duration from `fetchStart` to `responseEnd` |
| Surf.SurfNPerf.GetProcessingLoadTime | surfnperf.js:648-650 | duration from `responseEnd` to `loadEventEnd` |
| Surf.SurfNPerf.GetFullRequestLoadTime | surfnperf.js:661-663 | duration from `navigationStart` to `loadEventEnd` |
| Properties.FirstTruthyPicks | surfnperf.js:318-320 | the `||` chain returns the first truthy operand, or the last operand when none is truthy |
| Properties.GetMarkPrecedence | surfnperf.js:312-321 | the precedence spelled out tier by tier: a truthy instance high-res mark wins, then a global one, then the instance DOM mark; otherwise the global DOM entry as it is |
| Properties.HighResStoresOnlyWhenRequested | surfnperf.js:317-319 | a DOM or unrecognised request, or a host without high-res time, gives the DOM-only lookup |
| Properties.DegradedTimingMarks | surfnperf.js:257-263 | without navigation timing: early fields give the `pageStart` DOM mark; late fields and all other keys give the `loadEventEnd` DOM mark |
| Properties.RawTimingField | surfnperf.js:251-253 | with navigation timing and a DOM request or no high-res time, the table field is returned as it is |
| Properties.CorrectionExample | surfnperf.js:229-235 | DOM `loadEventEnd` 2000, `responseEnd` 1500 and anchor 500 give 0 |
| Properties.CorrectionAnchorsOnGlobalStore | surfnperf.js:230-231 | the corrected value uses the global store's high-res `loadEventEnd` and the table; the instance stores play no part |
| Properties.CorrectionMonotone | surfnperf.js:229-235 | the correction keeps the DOM order of the fields |
| Properties.CorrectionPreservesOffsets | surfnperf.js:229-235 | two unclamped corrected fields keep their DOM distance |
| Properties.DurationWithoutUserTiming | surfnperf.js:463-465 | without user timing, the duration is the end point minus the start point, undefined when either is missing, whatever the host measure or timeline |
| Properties.NavigationDurationNonNegative | surfnperf.js:459-466 | without user timing, with navigation timing and high-res time, a duration between recorded lifecycle fields in DOM order is defined and not negative |
| Properties.ServerTimeClampedExample | surfnperf.js:622-624 | without user timing, with the DOM values 1400, 1500, 2000 and anchor 500, the server time is 0 |
| Properties.DegradedDerivedMetrics | surfnperf.js:609-663 | without navigation and user timing, network time, server time and latency are `pageStart` minus itself; processing and full load times are the `loadEventEnd` mark minus the `pageStart` mark |
| Properties.FirstNamedAppend | surfnperf.js:443 | appending to the timeline does not change the first entry of a name that is already present |
| Properties.FreshMeasure | surfnperf.js:459-462 | with user timing and no earlier entry of the reserved name, the duration is the host's measure, or undefined when the host could not measure |
| Properties.RepeatedMeasureReadsFirst | surfnperf.js:442-445 | with user timing, once the reserved name has an entry, every later call returns that first entry |
| Properties.MeasureNameSameLengthInjective | surfnperf.js:403-405 | pairs whose first keys have equal length share a name only if they are equal |
| Properties.MeasureNamesCollide | surfnperf.js:403-405 | `("x_TO_y", "z")` and `("x", "y_TO_z")` share one measure name |
| Properties.CollidingPairsShareMeasure | surfnperf.js:442-445 | with user timing, such a collision makes one pair report the other's earlier measure |
| Properties.DurationOfOrderedMarks | surfnperf.js:459-466 | without user timing, two distinct caller keys marked in order, with the clocks advanced in between, have a duration equal to the time that passed on the clock in use (high-res or wall), so never negative |

## Left out

- The module loader wrapper (surfnperf.js:23-34) and the `Date.now` shim (surfnperf.js:39-43): host plumbing.
- `console.error` reporting in `_setMeasure`: an output sink. A failed measure is the `Unmeasurable` outcome and leaves the timeline unchanged.
- The semantics of the native `performance.mark`, `measure` and `getEntriesByName`, reduced to appending and reading timeline entries. When a measure succeeds, and its duration, are inputs.
- `_round` and the `decimalPlaces` options of `duration` and `eventDuration`. Timestamps are integers, and `toFixed` of an integer gives the integer back, so rounding is the identity and is folded into `RoundedDuration`. Floating-point timestamps are not modelled.
- `performanceTiming()` and `userTiming()`: folded into the constant fields `timing` and `timeline`.
- `_setInitialUrl`: `window.location.pathname` is the constructor's `path` argument.
- Clock monotonicity is an assumption about the host, not something the code ensures: the clock is a pair of current readings, and `Host.Clock.Advance` (used by `DurationOfOrderedMarks`) only moves them forward.
- Host.Timeline.Mark: which names the host rejects (the User Timing standard rejects the names of navigation timing attributes such as `loadEventEnd`) is left abstract as the `MarkOutcome` argument.
- Host.FirstNamed: the timeline is read in append order. The host's `getEntriesByName` returns entries sorted by `startTime`, so `RepeatedMeasureReadsFirst` and `CollidingPairsShareMeasure` hold for the model's reading, and for the host only when the earlier measure also starts no later.
- Calling `initialize()` on an object a second time: it recomputes the same flags from the same host and rewrites `initialUrl`. The model runs it once, in the constructor.
- Surf.SetPerfProperties: a pre-existing `window.SURF_N_PERF` object without a `marks` property (which the code replaces), or without `highResMarks` (which the code keeps, so later high-res lookups would throw), is not modelled. The shared store always carries both maps.
- Surf.SurfNPerf.constructor: the navigation timing table is a snapshot taken when the object is built. The code re-reads `window.performance.timing` on every call (surfnperf.js:215), and the host fills its fields in while the page loads, so the model describes the table as it stands at one moment.
- Surf.SurfNPerf.constructor: the instance keeps the global store it obtained at initialisation. Code elsewhere reassigning `window.SURF_N_PERF` afterwards is not modelled.
- Surf.ToNum: JavaScript's coercion of non-number operands of `-` (numeric strings, booleans, `null`) is not modelled. A non-number field gives `NaN`.
- Surf.Lookup: stores are JavaScript objects used as maps, and the model reads only their own keys. In the code a key naming an inherited property (`toString`, `constructor`, …) finds a truthy function, and an event or key named `__proto__` writes onto the prototype in `updateEvent`; neither is modelled.
- Values of types other than numbers and strings (objects, booleans) in event options and custom data.
- The enumeration order of `for ... in` over `options` and over the defaults, and inherited properties. Every key is visited exactly once in some order. The keys are distinct, so the result does not depend on the order.
- The `Array.prototype.indexOf` branch of `contains`: it answers the same question as the modelled scan.
- Sharing marks between instances: the code never writes the global store after creating it, so there is nothing to model.
