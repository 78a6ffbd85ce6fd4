# Time-window monitor throttle, in Dafny

This project models the monitor throttling of the ERMA monitoring library. It covers two classes:

- `TimeWindowMonitorThrottle` decides, for each monitor instance, whether it may be processed. It keeps:
  - a count per monitor name for the current time window;
  - a cap on how many distinct names it tracks;
  - a unique-name overflow counter;
  - a lifetime throttled counter;
  - an "essential only" mode that it escalates to once, when too many distinct names have arrived.

  It writes its answer into an attribute of the monitor. A later check of the same monitor returns that stored answer.
- `ThrottlingMonitorProcessor` sits in front of a downstream processor. It forwards a monitor only when the throttle allows it. By default only the process hook is throttled; the create and start hooks are throttled only when their flag is set.

Layout:

- `monitoring.dfy` (module `Monitoring`) holds the parts of the monitoring API the throttle touches:
  - a `Monitor` class with an optional name, an integer level and a map of boolean attributes;
  - the levels `INFO < ESSENTIAL`, the two the throttle distinguishes;
  - the two diagnostic event names and the `Diagnostic` events;
  - a `RecordingProcessor` standing for the downstream processor.
- `throttle.dfy` (module `Throttling`) has two halves:
  - the throttle's behaviour on values: `ThrottleState`, `Check` for one `shouldAllow`, `WindowTick` for one run of the window manager, and `TickDiagnostics` for the events it fires;
  - the class `TimeWindowMonitorThrottle`, whose methods mutate its fields in place. Each method is proved to leave exactly the state the value-level function gives.
- `reports.dfy` (module `WindowReports`) holds the per-name half of a tick: zeroing the counts, the reports for names over the limit, and the loop invariant of `ResetMonitorCounts`.
- `throttle_properties.dfy` (module `ThrottleProperties`) proves properties over whole runs:
  - the unique-name bound;
  - escalation lasting until a reset;
  - how a burst of new names fills the free slots;
  - how one repeated name meets its per-window limit;
  - that a second check repeats the first.

  It also holds the throttle's own test scenarios, stated as calls on the class.
- `processor.dfy` (module `Processor`) holds the class `ThrottlingMonitorProcessor`.
- `processor_scenarios.dfy` (module `ProcessorScenarios`) holds the processor's two test scenarios, stated as calls on the classes with loops over the names `"m0"`, `"m1"`, … .

A diagnostic event is returned from `Tick` as a value instead of being fired.

## Model

| member | source | states |
|---|---|---|
| Throttling.ValidateLimits | src/java/com/orbitz/monitoring/lib/TimeWindowMonitorThrottle.java:65-78 | no error iff all three limits are at least 1; otherwise the first failing check, in source order, is reported with its value |
| Throttling.TimeWindowMonitorThrottle.Create | src/java/com/orbitz/monitoring/lib/TimeWindowMonitorThrottle.java:63-84 | fails exactly when validation reports an error, with that error; otherwise a fresh throttle: enabled, not escalated, empty map, both counters 0, the three values stored unchanged |
| Throttling.TimeWindowMonitorThrottle.constructor | src/java/com/orbitz/monitoring/lib/TimeWindowMonitorThrottle.java:32-44 | the answer attribute is built from the instance identity; the initial state is enabled, not escalated, with an empty map and zero counters |
| Throttling.TimeWindowMonitorThrottle.CreateDefault | src/java/com/orbitz/monitoring/lib/TimeWindowMonitorThrottle.java:50-54 | a fresh throttle with a 60 second window, 10000 names and 600 per name |
| Throttling.Check | src/java/com/orbitz/monitoring/lib/TimeWindowMonitorThrottle.java:112-184 | see the rules listed under the table |
| Throttling.TimeWindowMonitorThrottle.ShouldAllow | src/java/com/orbitz/monitoring/lib/TimeWindowMonitorThrottle.java:112-123 | the answer, the new throttle state and the monitor's new attributes are exactly those `Check` gives for the monitor's name, level and stored answer |
| Throttling.TimeWindowMonitorThrottle.PostThrottleCheck | src/java/com/orbitz/monitoring/lib/TimeWindowMonitorThrottle.java:125-130 | a refusal adds 1 to the throttled total; the monitor is tagged with the answer in either case |
| Throttling.TimeWindowMonitorThrottle.AllowCheckWithSideEffects | src/java/com/orbitz/monitoring/lib/TimeWindowMonitorThrottle.java:140-160 | answer and state are the level filter followed by the name rule, with a null name counted as "<null>" |
| Throttling.TimeWindowMonitorThrottle.DisallowByMonitorLevel | src/java/com/orbitz/monitoring/lib/TimeWindowMonitorThrottle.java:162-171 | refuses iff the throttle is essential-only and the monitor's level is below ESSENTIAL |
| Throttling.TimeWindowMonitorThrottle.AllowNewMonitor | src/java/com/orbitz/monitoring/lib/TimeWindowMonitorThrottle.java:173-184 | allows iff the map holds fewer names than the unique-name limit; a refusal adds 1 to the overflow count, and nothing else changes |
| Throttling.TimeWindowMonitorThrottle.Enable | src/java/com/orbitz/monitoring/lib/TimeWindowMonitorThrottle.java:189-191 | only the enabled flag changes, to true |
| Throttling.TimeWindowMonitorThrottle.Disable | src/java/com/orbitz/monitoring/lib/TimeWindowMonitorThrottle.java:196-198 | only the enabled flag changes, to false |
| Throttling.TimeWindowMonitorThrottle.IsIdempotent | src/java/com/orbitz/monitoring/lib/TimeWindowMonitorThrottle.java:206-208 | always false |
| Throttling.TimeWindowMonitorThrottle.Reset | src/java/com/orbitz/monitoring/lib/TimeWindowMonitorThrottle.java:213-217 | whatever the history: enabled, not escalated, empty map, both counters 0, limits kept |
| Throttling.TimeWindowMonitorThrottle.ClearAllCounts | src/java/com/orbitz/monitoring/lib/TimeWindowMonitorThrottle.java:219-223 | the map is emptied and both counters are zeroed; flags and limits are kept |
| Throttling.TimeWindowMonitorThrottle.GetTimeWindowSizeSeconds | src/java/com/orbitz/monitoring/lib/TimeWindowMonitorThrottle.java:230-232 | returns the stored window size |
| Throttling.TimeWindowMonitorThrottle.SetTimeWindowSizeSeconds | src/java/com/orbitz/monitoring/lib/TimeWindowMonitorThrottle.java:234-236 | stores the value unchecked and changes nothing else |
| Throttling.TimeWindowMonitorThrottle.GetUniqueMonitorNameLimit | src/java/com/orbitz/monitoring/lib/TimeWindowMonitorThrottle.java:238-240 | returns the stored unique-name limit |
| Throttling.TimeWindowMonitorThrottle.SetUniqueMonitorNameLimit | src/java/com/orbitz/monitoring/lib/TimeWindowMonitorThrottle.java:242-244 | stores the value unchecked and changes nothing else |
| Throttling.TimeWindowMonitorThrottle.GetUniqueMonitorNamePerWindowLimit | src/java/com/orbitz/monitoring/lib/TimeWindowMonitorThrottle.java:246-248 | returns the stored per-window limit |
| Throttling.TimeWindowMonitorThrottle.SetUniqueMonitorNamePerWindowLimit | src/java/com/orbitz/monitoring/lib/TimeWindowMonitorThrottle.java:250-252 | stores the value unchecked and changes nothing else |
| Throttling.TimeWindowMonitorThrottle.GetTotalThrottledCount | src/java/com/orbitz/monitoring/lib/TimeWindowMonitorThrottle.java:254-256 | returns the lifetime throttled count |
| Throttling.WindowTick | src/java/com/orbitz/monitoring/lib/TimeWindowMonitorThrottle.java:266-313 | see the rules listed under the table |
| Throttling.TickDiagnostics | src/java/com/orbitz/monitoring/lib/TimeWindowMonitorThrottle.java:280-301 | see the rules listed under the table |
| Throttling.TimeWindowMonitorThrottle.Tick | src/java/com/orbitz/monitoring/lib/TimeWindowMonitorThrottle.java:266-269 | the new state is `WindowTick` of the old one; the events list each of `TickDiagnostics` exactly once, with the overflow event last |
| Throttling.TimeWindowMonitorThrottle.ResetMonitorCounts | src/java/com/orbitz/monitoring/lib/TimeWindowMonitorThrottle.java:271-293 | every count becomes 0 with the keys kept; the reports are exactly one per name over the per-window limit, each carrying its excess and the total |
| Throttling.TimeWindowMonitorThrottle.CheckUniqueCount | src/java/com/orbitz/monitoring/lib/TimeWindowMonitorThrottle.java:295-313 | an overflow event (count and the mode before escalation) iff the overflow count is non-zero; escalation with all counts cleared only the first time |
| WindowReports.ZeroCountsSize | src/java/com/orbitz/monitoring/lib/TimeWindowMonitorThrottle.java:272-278 | zeroing the counts keeps the number of names |
| WindowReports.ResetStep | src/java/com/orbitz/monitoring/lib/TimeWindowMonitorThrottle.java:273-291 | one loop iteration moves a name from pending to done, sets its count to 0 and adds its report exactly when it was over the limit; the invariant is preserved |
| ThrottleProperties.NameBoundHoldsOnEveryRun | src/java/com/orbitz/monitoring/lib/TimeWindowMonitorThrottle.java:173-184 | over any sequence of checks, ticks, enables, disables and resets, the map never holds more names than the unique-name limit, and the limits never change |
| ThrottleProperties.EscalationLastsUntilReset | src/java/com/orbitz/monitoring/lib/TimeWindowMonitorThrottle.java:303-307 | once essential-only, the throttle stays so over any run without a reset |
| ThrottleProperties.DistinctNamesFillFreeSlots | src/java/com/orbitz/monitoring/lib/TimeWindowMonitorThrottle.java:148-157 | see the rules listed under the table |
| ThrottleProperties.RepeatedNameVolume | src/java/com/orbitz/monitoring/lib/TimeWindowMonitorThrottle.java:148-151 | see the rules listed under the table |
| ThrottleProperties.SecondCheckRepeatsFirst | src/java/com/orbitz/monitoring/lib/TimeWindowMonitorThrottle.java:113-130 | checking a monitor again with the tag the first check left repeats the first answer and changes nothing |
| ThrottleProperties.SameMonitorAlwaysAllowed | test/src/java/com/orbitz/monitoring/lib/TimeWindowMonitorThrottleTest.java:77-85 | one monitor checked 1 + n times by a default throttle is allowed every time, and its name is counted once |
| ThrottleProperties.DisabledAllowsAll | test/src/java/com/orbitz/monitoring/lib/TimeWindowMonitorThrottleTest.java:69-75 | a disabled default throttle allows every monitor of any name sequence and counts no name and no refusal |
| ThrottleProperties.NullNameAllowed | test/src/java/com/orbitz/monitoring/lib/TimeWindowMonitorThrottleTest.java:64-67 | a monitor without a name is allowed and counted under "<null>" |
| ThrottleProperties.TooManyUniqueNamesScenario | test/src/java/com/orbitz/monitoring/lib/TimeWindowMonitorThrottleTest.java:87-143 | see the rules listed under the table |
| Processor.ThrottlingMonitorProcessor.constructor | src/java/com/orbitz/monitoring/lib/processor/ThrottlingMonitorProcessor.java:24-36 | keeps the throttle and the delegate; throttling at create and at start both default to off |
| Processor.ThrottlingMonitorProcessor.Process | src/java/com/orbitz/monitoring/lib/processor/ThrottlingMonitorProcessor.java:45-53 | the monitor is appended to the delegate's processed list exactly when the throttle allows it; throttle and monitor change as `ShouldAllow` says |
| Processor.ThrottlingMonitorProcessor.MonitorCreated | src/java/com/orbitz/monitoring/lib/processor/ThrottlingMonitorProcessor.java:60-68 | with the flag off, always forwarded, and the throttle and monitor are untouched; with it on, forwarded exactly when the throttle allows |
| Processor.ThrottlingMonitorProcessor.MonitorStarted | src/java/com/orbitz/monitoring/lib/processor/ThrottlingMonitorProcessor.java:76-84 | the same rule with the start flag |
| Processor.ThrottlingMonitorProcessor.SetApplyThrottlingAtCreate | src/java/com/orbitz/monitoring/lib/processor/ThrottlingMonitorProcessor.java:86-88 | sets only the create flag |
| Processor.ThrottlingMonitorProcessor.SetApplyThrottlingAtStart | src/java/com/orbitz/monitoring/lib/processor/ThrottlingMonitorProcessor.java:90-92 | sets only the start flag |
| ProcessorScenarios.BurstOfNewNames | test/src/java/com/orbitz/monitoring/lib/processor/ThrottlingMonitorProcessorTest.java:17-35 | see the rules listed under the table |
| ProcessorScenarios.DisableThenEnable | test/src/java/com/orbitz/monitoring/lib/processor/ThrottlingMonitorProcessorTest.java:37-62 | see the rules listed under the table |
| ProcessorScenarios.DecimalInjective | test/src/java/com/orbitz/monitoring/lib/processor/ThrottlingMonitorProcessorTest.java:28 | different numbers have different decimal spellings, so the names "m" + i of a run are pairwise distinct |

The rows that point here state the following.

`Throttling.Check`:
- When disabled, it allows and nothing changes: no count and no tag.
- When the monitor is already tagged, the stored answer comes back and nothing changes.
- A first check tags the monitor with the answer. The throttled total goes up by exactly 1 iff the answer is false.
- A level denial touches neither the name map nor the overflow count.
- A known name's count goes up by 1, and it is allowed iff the new count is at most the per-window limit (the limit is inclusive).
- A new name is admitted with count 1 iff the map has room. Otherwise it is an overflow and the map is unchanged.
- The flags and the limits never change, and the map stays within the unique-name limit.

`Throttling.WindowTick`:
- With no overflow, or when already escalated, only the counts go to 0; the keys, counters and mode are kept.
- At the first overflow it becomes essential-only with an empty map and both counters at 0.
- The number of names never grows.

`Throttling.TickDiagnostics`:
- There is exactly one report per name whose count is over the limit. It carries the count minus the limit and the throttled total.
- An overflow event carrying the overflow count and the mode is present iff the overflow count is non-zero.

`ThrottleProperties.DistinctNamesFillFreeSlots`:
- When new distinct names are checked in turn, the i-th is allowed iff i is below the number of free slots.
- The overflow count and the throttled total each grow by the number of names past the free slots.

`ThrottleProperties.RepeatedNameVolume`:
- When one known name is checked n times, the i-th check is allowed iff the count after it is within the per-window limit.
- Its count grows by n.
- The total grows by the number of checks over the limit, and the overflow count does not change.

`ThrottleProperties.TooManyUniqueNamesScenario` uses limits of 2 names and 100 per name:
- "one" and "two" are allowed and "three" is refused, leaving the total at 1.
- The tick fires one overflow event with count 1 and escalates.
- "four" and "five" are refused by level.
- ESSENTIAL "six" and "seven" are allowed.
- "eight", "nine" and "ten" are refused, twice for "ten", counted once.
- The total ends at 5, and the next tick fires one overflow event with count 3.
- Both fired events are named `alarm.monitoring.api.TooManyUniqueNames`.

`ProcessorScenarios.BurstOfNewNames` uses limits of 100 names and 10 per name:
- "foo" is forwarded.
- Of 200 monitors with new names, exactly 99 are forwarded (so at least one and fewer than 200), and 101 are throttled.

`ProcessorScenarios.DisableThenEnable`:
- While the throttle is disabled, each of 101 monitors reaches the delegate at once and nothing is counted.
- After re-enabling, the same 101 names on new monitors leave a throttled total of 1.

## Left out

- Scheduling and threads: the executor that runs the window manager, `startWindowManager` and `shutdown` are not modelled. A window tick is the explicit call `Tick`.
- Concurrency: `ConcurrentHashMap`, `AtomicInteger` and the non-atomic check-then-put and size snapshot are modelled as one sequential step each. The unique-name bound is proved for sequential use only.
- Logging (log4j) is left out. Firing an event is replaced by returning the `Diagnostic` values from `Tick`, in a sequence.
- Throttling.TimeWindowMonitorThrottle.ResetMonitorCounts: the order of the per-name reports follows the map's iteration order, which is unspecified. The contract therefore states that each expected report appears exactly once, not their order.
- Throttling.TimeWindowMonitorThrottle.constructor: the attribute key uses the instance's hash code. It is modelled by an instance identifier string given at construction.
- MonitoringLevel and `hasHigherOrEqualPriorityThan` are external. Levels are integers, `INFO = 1 < ESSENTIAL = 2`, compared with `>=`; the other levels are not needed. A monitor built from a name alone has level INFO.
- Throttling.TimeWindowMonitorThrottle.ShouldAllow: every counter is an unbounded integer, so the 32-bit wrap-around of `AtomicInteger` is not modelled for any of them:
  - A per-name count wraps after about 2^31 checks of one name in one window.
  - `totalThrottledCount` (lines 38, 127) is zeroed only by `reset` or by the first escalation. It wraps after about 2^31 refusals since then, across any number of windows and names.
  - `uniqueOverflowCount` (line 180) is never zeroed again once the throttle has escalated (line 305). It wraps after about 2^31 overflows since the last reset or first escalation.
  - After such a wrap, `getTotalThrottledCount` and the totals and overflow counts carried by the fired events (lines 289, 299) are negative in the source. The model keeps counting upward.
- Construction with invalid limits throws `IllegalArgumentException` in the source. Here it is the `Failure` result of `Create`. The plain constructor stores its values unchecked, as the setters do.
- The setters at lines 234-252 do not validate. ThrottleProperties.NameBoundHoldsOnEveryRun covers runs without setter calls, because lowering the unique-name limit below the current map size would break the bound.
- The `MonitorThrottle` interface and the `MonitorProcessor` delegate are not modelled as interfaces. The processor holds the concrete throttle class and a recording delegate.
- `MockMonitorProcessor` is not part of this model. The scenarios read the delegate's recorded list instead of extracting it.
- The test at TimeWindowMonitorThrottleTest.java:135 expects a throttled total of 6. The code zeroes the total when it escalates (`clearAllCounts`, lines 219-223, called at line 307), so the model follows the code and ends at 5.
- The same test polls `getThrottlingLevel()` (line 99), which the throttle does not have. The scenario calls `Tick` at that point instead.
- `testThrottleThreeSecondWindow` depends on wall-clock time and reads an attribute the code never sets.
- `MBeanPollerTimerTask` and its test, and the deadlock-detection test, are JMX and thread plumbing outside the throttle.
- Monitors carry only the throttle's boolean attributes. Other monitor attributes, and the attributes set on fired events, are the fields of `Diagnostic`.
