/** The time-window monitor throttle: an admission gate that decides, per monitor
    instance, whether the monitor may be processed. It keeps one counter per monitor
    name for the current window, caps the number of distinct names it tracks, and
    escalates once to essential-only admission when too many distinct names arrive.

    The first half of the module states the throttle's behaviour on values
    (ThrottleState and the functions over it); the class TimeWindowMonitorThrottle
    is the object that the program mutates, and each of its methods is proved to
    move its fields exactly as the corresponding function says. */
module Throttling {
  import opened Monitoring
  import opened WindowReports

  const DEFAULT_TIME_WINDOW_SECONDS: int := 60
  const DEFAULT_UNIQUE_MONITOR_NAME_LIMIT: int := 10000
  const DEFAULT_UNIQUE_MONITOR_NAME_PER_WINDOW_LIMIT: int := 600

  /** The name under which a monitor without a name is counted. */
  const NULL_NAME: string := "<null>"

  /** Every field of a throttle that its decisions depend on or change. */
  datatype ThrottleState = ThrottleState(
    enabled: bool,
    allowEssentialLevelOnly: bool,
    monitorMap: map<string, int>,
    uniqueOverflowCount: int,
    totalThrottledCount: int,
    timeWindowSizeSeconds: int,
    uniqueMonitorNameLimit: int,
    uniqueMonitorNamePerWindowLimit: int)

  predicate SameLimits(s: ThrottleState, t: ThrottleState)
  {
    s.timeWindowSizeSeconds == t.timeWindowSizeSeconds &&
    s.uniqueMonitorNameLimit == t.uniqueMonitorNameLimit &&
    s.uniqueMonitorNamePerWindowLimit == t.uniqueMonitorNamePerWindowLimit
  }

  /** The state of a freshly constructed throttle. */
  function InitialState(timeWindowSizeSeconds: int, uniqueMonitorNameLimit: int,
                        uniqueMonitorNamePerWindowLimit: int): ThrottleState
  {
    ThrottleState(true, false, map[], 0, 0,
                  timeWindowSizeSeconds, uniqueMonitorNameLimit, uniqueMonitorNamePerWindowLimit)
  }

  // ---------------------------------------------------------------------------
  // Construction

  /** Why a construction was rejected; each carries the offending value. */
  datatype ConfigError =
    | InvalidTimeWindowSize(value: int)
    | InvalidUniqueMonitorNameLimit(value: int)
    | InvalidPerWindowLimit(value: int)

  /** The constructor's validation: the first of the three values below 1 is reported. */
  function ValidateLimits(timeWindowSizeSeconds: int, uniqueMonitorNameLimit: int,
                          uniqueMonitorNamePerWindowLimit: int): (e: Option<ConfigError>)
    ensures e.None? <==>
      1 <= timeWindowSizeSeconds && 1 <= uniqueMonitorNameLimit && 1 <= uniqueMonitorNamePerWindowLimit
    ensures timeWindowSizeSeconds < 1 ==> e == Some(InvalidTimeWindowSize(timeWindowSizeSeconds))
    ensures 1 <= timeWindowSizeSeconds && uniqueMonitorNameLimit < 1 ==>
      e == Some(InvalidUniqueMonitorNameLimit(uniqueMonitorNameLimit))
    ensures 1 <= timeWindowSizeSeconds && 1 <= uniqueMonitorNameLimit && uniqueMonitorNamePerWindowLimit < 1 ==>
      e == Some(InvalidPerWindowLimit(uniqueMonitorNamePerWindowLimit))
  {
    if timeWindowSizeSeconds < 1 then Some(InvalidTimeWindowSize(timeWindowSizeSeconds))
    else if uniqueMonitorNameLimit < 1 then Some(InvalidUniqueMonitorNameLimit(uniqueMonitorNameLimit))
    else if uniqueMonitorNamePerWindowLimit < 1 then Some(InvalidPerWindowLimit(uniqueMonitorNamePerWindowLimit))
    else None
  }

  // ---------------------------------------------------------------------------
  // Admission

  function MonitorName(name: Option<string>): string
  {
    if name.None? then NULL_NAME else name.value
  }

  /** In essential-only mode a monitor below ESSENTIAL priority is refused outright. */
  predicate LevelDenies(s: ThrottleState, level: int)
  {
    s.allowEssentialLevelOnly && !HasHigherOrEqualPriorityThan(level, ESSENTIAL)
  }

  /** The answer of a check together with the state it leaves behind. */
  datatype Admission = Admission(allow: bool, state: ThrottleState)

  /** A name not yet in the map: admitted with count 1 while the map has room;
      otherwise refused and counted as a unique-name overflow. */
  function AdmitNewName(s: ThrottleState, name: string): Admission
  {
    if |s.monitorMap| >= s.uniqueMonitorNameLimit then
      Admission(false, s.(uniqueOverflowCount := s.uniqueOverflowCount + 1))
    else
      Admission(true, s.(monitorMap := s.monitorMap[name := 1]))
  }

  /** The level filter, then the per-name window count. */
  function AllowCheck(s: ThrottleState, name: string, level: int): Admission
  {
    if LevelDenies(s, level) then Admission(false, s)
    else if name in s.monitorMap then
      var count := s.monitorMap[name] + 1;
      Admission(count <= s.uniqueMonitorNamePerWindowLimit, s.(monitorMap := s.monitorMap[name := count]))
    else AdmitNewName(s, name)
  }

  /** A refusal adds one to the lifetime throttled count. */
  function PostCheck(s: ThrottleState, allow: bool): ThrottleState
  {
    if allow then s else s.(totalThrottledCount := s.totalThrottledCount + 1)
  }

  /** The answer of shouldAllow, the state after it, and the monitor's tag after it. */
  datatype Decision = Decision(allow: bool, state: ThrottleState, tag: Option<bool>)

  /** One call of shouldAllow on a monitor whose tag for this throttle is `tag`. */
  function Check(s: ThrottleState, tag: Option<bool>, name: string, level: int): (d: Decision)
    // disabled: allowed, and nothing at all changes
    ensures !s.enabled ==> d == Decision(true, s, tag)
    // already tagged: the stored answer, and nothing at all changes
    ensures s.enabled && tag.Some? ==> d == Decision(tag.value, s, tag)
    // first check: the monitor is tagged with the answer; a refusal is counted once
    ensures s.enabled && tag.None? ==>
      d.tag == Some(d.allow) &&
      d.state.totalThrottledCount == s.totalThrottledCount + (if d.allow then 0 else 1)
    // refused by level without touching the name map or the overflow count
    ensures s.enabled && tag.None? && LevelDenies(s, level) ==>
      !d.allow && d.state == s.(totalThrottledCount := s.totalThrottledCount + 1)
    // a known name: its count goes up by one, and the limit is inclusive
    ensures s.enabled && tag.None? && !LevelDenies(s, level) && name in s.monitorMap ==>
      d.state.monitorMap == s.monitorMap[name := s.monitorMap[name] + 1] &&
      d.state.uniqueOverflowCount == s.uniqueOverflowCount &&
      (d.allow <==> s.monitorMap[name] + 1 <= s.uniqueMonitorNamePerWindowLimit)
    // a new name: admitted with count 1 iff the map has room, else an overflow
    ensures s.enabled && tag.None? && !LevelDenies(s, level) && name !in s.monitorMap ==>
      (d.allow <==> |s.monitorMap| < s.uniqueMonitorNameLimit) &&
      d.state.monitorMap == (if d.allow then s.monitorMap[name := 1] else s.monitorMap) &&
      d.state.uniqueOverflowCount == s.uniqueOverflowCount + (if d.allow then 0 else 1)
    // a check never changes the flags or the limits
    ensures d.state.enabled == s.enabled
    ensures d.state.allowEssentialLevelOnly == s.allowEssentialLevelOnly
    ensures SameLimits(d.state, s)
    // the map never grows past the unique-name limit
    ensures |s.monitorMap| <= s.uniqueMonitorNameLimit ==>
      |d.state.monitorMap| <= s.uniqueMonitorNameLimit
  {
    if !s.enabled then Decision(true, s, tag)
    else if tag.Some? then Decision(tag.value, s, tag)
    else
      var a := AllowCheck(s, name, level);
      Decision(a.allow, PostCheck(a.state, a.allow), Some(a.allow))
  }

  // ---------------------------------------------------------------------------
  // The window tick

  function Cleared(s: ThrottleState): ThrottleState
  {
    s.(monitorMap := map[], uniqueOverflowCount := 0, totalThrottledCount := 0)
  }

  /** After an overflow, escalate once: essential-only, with every count cleared. */
  function EscalateOnOverflow(s: ThrottleState): ThrottleState
  {
    if s.uniqueOverflowCount != 0 && !s.allowEssentialLevelOnly then
      Cleared(s).(allowEssentialLevelOnly := true)
    else s
  }

  /** The state after one run of the window manager. */
  function WindowTick(s: ThrottleState): (t: ThrottleState)
    ensures t.enabled == s.enabled && SameLimits(t, s)
    // no overflow, or already escalated: only the per-name counts go back to 0
    ensures s.uniqueOverflowCount == 0 || s.allowEssentialLevelOnly ==>
      t.allowEssentialLevelOnly == s.allowEssentialLevelOnly &&
      t.monitorMap.Keys == s.monitorMap.Keys &&
      (forall n :: n in t.monitorMap ==> t.monitorMap[n] == 0) &&
      t.uniqueOverflowCount == s.uniqueOverflowCount &&
      t.totalThrottledCount == s.totalThrottledCount
    // first overflow: escalation to essential-only, with every count cleared
    ensures s.uniqueOverflowCount != 0 && !s.allowEssentialLevelOnly ==>
      t.allowEssentialLevelOnly && t.monitorMap == map[] &&
      t.uniqueOverflowCount == 0 && t.totalThrottledCount == 0
    ensures |t.monitorMap| <= |s.monitorMap|
  {
    ZeroCountsSize(s.monitorMap);
    EscalateOnOverflow(s.(monitorMap := ZeroCounts(s.monitorMap)))
  }

  /** The diagnostic events one run of the window manager fires, as a set. */
  function TickDiagnostics(s: ThrottleState): (r: set<Diagnostic>)
    // one report for each name over the limit, carrying its excess and the lifetime total
    ensures forall n :: n in s.monitorMap && s.monitorMap[n] > s.uniqueMonitorNamePerWindowLimit ==>
      ThrottledName(n, s.monitorMap[n] - s.uniqueMonitorNamePerWindowLimit, s.totalThrottledCount) in r
    ensures forall d :: d in r && d.ThrottledName? ==>
      d.throttledMonitorName in s.monitorMap &&
      s.monitorMap[d.throttledMonitorName] > s.uniqueMonitorNamePerWindowLimit &&
      d.throttledCount == s.monitorMap[d.throttledMonitorName] - s.uniqueMonitorNamePerWindowLimit &&
      d.totalThrottledCount == s.totalThrottledCount
    // an overflow report exactly when there was an overflow
    ensures forall d :: d in r && d.TooManyUniqueNames? ==>
      d == TooManyUniqueNames(s.uniqueOverflowCount, s.allowEssentialLevelOnly)
    ensures s.uniqueOverflowCount != 0 <==>
      TooManyUniqueNames(s.uniqueOverflowCount, s.allowEssentialLevelOnly) in r
  {
    OverLimitReports(s.monitorMap, s.monitorMap.Keys, s.uniqueMonitorNamePerWindowLimit, s.totalThrottledCount) +
    (if s.uniqueOverflowCount != 0
     then {TooManyUniqueNames(s.uniqueOverflowCount, s.allowEssentialLevelOnly)}
     else {})
  }

  // ---------------------------------------------------------------------------
  // The throttle object

  class TimeWindowMonitorThrottle {
    /** The attribute under which this throttle stores its answer on a monitor. */
    const throttleResultAttribute: string

    var enabled: bool
    var allowEssentialLevelOnly: bool
    var uniqueOverflowCount: int
    var totalThrottledCount: int
    var timeWindowSizeSeconds: int
    var uniqueMonitorNameLimit: int
    var uniqueMonitorNamePerWindowLimit: int
    var monitorMap: map<string, int>

    function State(): ThrottleState
      reads this
    {
      ThrottleState(enabled, allowEssentialLevelOnly, monitorMap, uniqueOverflowCount,
                    totalThrottledCount, timeWindowSizeSeconds, uniqueMonitorNameLimit,
                    uniqueMonitorNamePerWindowLimit)
    }

    /** The answer this throttle stored on `m`, if any. */
    function TagOn(m: Monitor): Option<bool>
      reads m
    {
      if throttleResultAttribute in m.attributes then Some(m.attributes[throttleResultAttribute]) else None
    }

    /** What shouldAllow would do with `m` in the current state. */
    function Decide(m: Monitor): Decision
      reads this, m
    {
      Check(State(), TagOn(m), MonitorName(m.name), m.level)
    }

    /** A monitor's attributes after the decision `d`: the tag is written once. */
    function Tagged(attributes: map<string, bool>, d: Decision): map<string, bool>
    {
      if throttleResultAttribute !in attributes && d.tag.Some?
      then attributes[throttleResultAttribute := d.tag.value]
      else attributes
    }

    /** Stores the three limits unchecked; `Create` validates them first.
        `instanceId` stands for the instance's hash code in the attribute name. */
    constructor (instanceId: string, timeWindowSizeSeconds: int, uniqueMonitorNameLimit: int,
                 uniqueMonitorNamePerWindowLimit: int)
      ensures throttleResultAttribute == "TimeWindowMonitorThrottle_" + instanceId + "_allowed"
      ensures State() == InitialState(timeWindowSizeSeconds, uniqueMonitorNameLimit,
                                      uniqueMonitorNamePerWindowLimit)
    {
      throttleResultAttribute := "TimeWindowMonitorThrottle_" + instanceId + "_allowed";
      enabled := true;
      allowEssentialLevelOnly := false;
      uniqueOverflowCount := 0;
      totalThrottledCount := 0;
      this.timeWindowSizeSeconds := timeWindowSizeSeconds;
      this.uniqueMonitorNameLimit := uniqueMonitorNameLimit;
      this.uniqueMonitorNamePerWindowLimit := uniqueMonitorNamePerWindowLimit;
      monitorMap := map[];
    }

    /** Construction with validation: fails on any limit below 1, otherwise stores the
        three values unchanged. */
    static method Create(instanceId: string, timeWindowSizeSeconds: int, uniqueMonitorNameLimit: int,
                         uniqueMonitorNamePerWindowLimit: int)
      returns (r: Result<TimeWindowMonitorThrottle, ConfigError>)
      ensures r.Failure? <==>
        ValidateLimits(timeWindowSizeSeconds, uniqueMonitorNameLimit, uniqueMonitorNamePerWindowLimit).Some?
      ensures r.Failure? ==>
        Some(r.error) == ValidateLimits(timeWindowSizeSeconds, uniqueMonitorNameLimit, uniqueMonitorNamePerWindowLimit)
      ensures r.Success? ==>
        fresh(r.value) &&
        r.value.State() == InitialState(timeWindowSizeSeconds, uniqueMonitorNameLimit,
                                        uniqueMonitorNamePerWindowLimit)
    {
      var e := ValidateLimits(timeWindowSizeSeconds, uniqueMonitorNameLimit, uniqueMonitorNamePerWindowLimit);
      if e.Some? {
        return Failure(e.value);
      }
      var t := new TimeWindowMonitorThrottle(instanceId, timeWindowSizeSeconds, uniqueMonitorNameLimit,
                                             uniqueMonitorNamePerWindowLimit);
      return Success(t);
    }

    /** The default constructor: a 60 second window, 10000 names, 600 per name. */
    static method CreateDefault(instanceId: string) returns (t: TimeWindowMonitorThrottle)
      ensures fresh(t)
      ensures t.State() == InitialState(DEFAULT_TIME_WINDOW_SECONDS, DEFAULT_UNIQUE_MONITOR_NAME_LIMIT,
                                        DEFAULT_UNIQUE_MONITOR_NAME_PER_WINDOW_LIMIT)
    {
      t := new TimeWindowMonitorThrottle(instanceId, DEFAULT_TIME_WINDOW_SECONDS,
                                         DEFAULT_UNIQUE_MONITOR_NAME_LIMIT,
                                         DEFAULT_UNIQUE_MONITOR_NAME_PER_WINDOW_LIMIT);
    }

    /** Returns false if `m` is to be throttled, counting the first check of each
        monitor instance and tagging the monitor with the answer. */
    method ShouldAllow(m: Monitor) returns (allow: bool)
      modifies this`monitorMap, this`uniqueOverflowCount, this`totalThrottledCount, m`attributes
      ensures allow == old(Decide(m)).allow
      ensures State() == old(Decide(m)).state
      ensures m.attributes == Tagged(old(m.attributes), old(Decide(m)))
    {
      if !enabled {
        return true;
      }
      if throttleResultAttribute in m.attributes {
        return m.attributes[throttleResultAttribute];
      }
      allow := AllowCheckWithSideEffects(m);
      PostThrottleCheck(m, allow);
    }

    method PostThrottleCheck(m: Monitor, allow: bool)
      modifies this`totalThrottledCount, m`attributes
      ensures State() == PostCheck(old(State()), allow)
      ensures m.attributes == old(m.attributes)[throttleResultAttribute := allow]
    {
      if !allow {
        totalThrottledCount := totalThrottledCount + 1;
      }
      m.attributes := m.attributes[throttleResultAttribute := allow];
    }

    method AllowCheckWithSideEffects(m: Monitor) returns (allow: bool)
      modifies this`monitorMap, this`uniqueOverflowCount
      ensures Admission(allow, State()) == AllowCheck(old(State()), MonitorName(m.name), m.level)
    {
      var disallow := DisallowByMonitorLevel(m);
      if disallow {
        return false;
      }
      var name := if m.name.None? then NULL_NAME else m.name.value;
      if name in monitorMap {
        var count := monitorMap[name] + 1;
        monitorMap := monitorMap[name := count];
        allow := count <= uniqueMonitorNamePerWindowLimit;
      } else {
        allow := AllowNewMonitor(name);
        if allow {
          monitorMap := monitorMap[name := 1];
        }
      }
    }

    method DisallowByMonitorLevel(m: Monitor) returns (disallow: bool)
      ensures disallow <==> allowEssentialLevelOnly && m.level < ESSENTIAL
    {
      disallow := allowEssentialLevelOnly && !HasHigherOrEqualPriorityThan(m.level, ESSENTIAL);
    }

    method AllowNewMonitor(name: string) returns (allow: bool)
      modifies this`uniqueOverflowCount
      ensures allow <==> |monitorMap| < uniqueMonitorNameLimit
      ensures uniqueOverflowCount == old(uniqueOverflowCount) + (if allow then 0 else 1)
    {
      var snapshotMapSize := |monitorMap|;
      var tooManyUniqueNames := snapshotMapSize >= uniqueMonitorNameLimit;
      if tooManyUniqueNames {
        uniqueOverflowCount := uniqueOverflowCount + 1;
      }
      allow := !tooManyUniqueNames;
    }

    method Enable()
      modifies this`enabled
      ensures enabled
    {
      enabled := true;
    }

    method Disable()
      modifies this`enabled
      ensures !enabled
    {
      enabled := false;
    }

    /** Always false: the interface's notion of idempotence is not claimed, although
        the tag makes repeated checks of one monitor instance agree. */
    method IsIdempotent() returns (r: bool)
      ensures !r
    {
      r := false;
    }

    /** Back to the state of a fresh throttle, whatever the history; limits are kept. */
    method Reset()
      modifies this`monitorMap, this`uniqueOverflowCount, this`totalThrottledCount,
               this`allowEssentialLevelOnly, this`enabled
      ensures State() == InitialState(timeWindowSizeSeconds, uniqueMonitorNameLimit,
                                      uniqueMonitorNamePerWindowLimit)
    {
      ClearAllCounts();
      allowEssentialLevelOnly := false;
      enabled := true;
    }

    method ClearAllCounts()
      modifies this`monitorMap, this`uniqueOverflowCount, this`totalThrottledCount
      ensures State() == Cleared(old(State()))
    {
      monitorMap := map[];
      uniqueOverflowCount := 0;
      totalThrottledCount := 0;
    }

    method GetTimeWindowSizeSeconds() returns (r: int)
      ensures r == timeWindowSizeSeconds
    {
      r := timeWindowSizeSeconds;
    }

    /** Setters store any value: a limit below 1 is not refused here. */
    method SetTimeWindowSizeSeconds(v: int)
      modifies this`timeWindowSizeSeconds
      ensures timeWindowSizeSeconds == v
    {
      timeWindowSizeSeconds := v;
    }

    method GetUniqueMonitorNameLimit() returns (r: int)
      ensures r == uniqueMonitorNameLimit
    {
      r := uniqueMonitorNameLimit;
    }

    method SetUniqueMonitorNameLimit(v: int)
      modifies this`uniqueMonitorNameLimit
      ensures uniqueMonitorNameLimit == v
    {
      uniqueMonitorNameLimit := v;
    }

    method GetUniqueMonitorNamePerWindowLimit() returns (r: int)
      ensures r == uniqueMonitorNamePerWindowLimit
    {
      r := uniqueMonitorNamePerWindowLimit;
    }

    method SetUniqueMonitorNamePerWindowLimit(v: int)
      modifies this`uniqueMonitorNamePerWindowLimit
      ensures uniqueMonitorNamePerWindowLimit == v
    {
      uniqueMonitorNamePerWindowLimit := v;
    }

    method GetTotalThrottledCount() returns (r: int)
      ensures r == totalThrottledCount
    {
      r := totalThrottledCount;
    }

    /** One run of the window manager: the diagnostic events it fires are returned. */
    method Tick() returns (events: seq<Diagnostic>)
      modifies this`monitorMap, this`uniqueOverflowCount, this`totalThrottledCount,
               this`allowEssentialLevelOnly
      ensures State() == WindowTick(old(State()))
      ensures ListsOnce(events, TickDiagnostics(old(State())))
      // the overflow report, when there is one, comes after every per-name report
      ensures old(uniqueOverflowCount) != 0 ==>
        |events| > 0 &&
        events[|events| - 1] == TooManyUniqueNames(old(uniqueOverflowCount), old(allowEssentialLevelOnly))
    {
      ghost var s := old(State());
      var nameReports := ResetMonitorCounts();
      var overflowReports := CheckUniqueCount();
      events := nameReports + overflowReports;
      ghost var overLimit := OverLimitReports(s.monitorMap, s.monitorMap.Keys,
                                              s.uniqueMonitorNamePerWindowLimit, s.totalThrottledCount);
      ghost var overflow: set<Diagnostic> := if s.uniqueOverflowCount != 0
        then {TooManyUniqueNames(s.uniqueOverflowCount, s.allowEssentialLevelOnly)} else {};
      assert ListsOnce(overflowReports, overflow);
      ListsOnceAppend(nameReports, overLimit, overflowReports, overflow);
    }

    /** Every per-name count goes back to 0, keys kept; a report for each name that
        went over the per-window limit. */
    method ResetMonitorCounts() returns (reports: seq<Diagnostic>)
      modifies this`monitorMap
      ensures monitorMap == ZeroCounts(old(monitorMap))
      ensures ListsOnce(reports,
        OverLimitReports(old(monitorMap), old(monitorMap).Keys,
                                  uniqueMonitorNamePerWindowLimit, totalThrottledCount))
    {
      ghost var before := monitorMap;
      ghost var done: set<string> := {};
      var limit, total := uniqueMonitorNamePerWindowLimit, totalThrottledCount;
      var pending := monitorMap.Keys;
      reports := [];
      while pending != {}
        invariant ResetProgress(before, done, pending, monitorMap, reports, limit, total)
        decreases pending
      {
        var monitorName :| monitorName in pending;
        ghost var m0, r0 := monitorMap, reports;
        var count := monitorMap[monitorName];
        monitorMap := monitorMap[monitorName := 0];
        if count > limit {
          reports := reports + [ThrottledName(monitorName, count - limit, total)];
        }
        ResetStep(before, done, pending, monitorName, m0, r0, monitorMap, reports, limit, total);
        pending := pending - {monitorName};
        done := done + {monitorName};
      }
      ResetDone(before, done, monitorMap, reports, limit, total);
    }

    /** Reports a unique-name overflow and escalates once to essential-only. */
    method CheckUniqueCount() returns (reports: seq<Diagnostic>)
      modifies this`monitorMap, this`uniqueOverflowCount, this`totalThrottledCount,
               this`allowEssentialLevelOnly
      ensures State() == EscalateOnOverflow(old(State()))
      ensures reports == if old(uniqueOverflowCount) != 0
                         then [TooManyUniqueNames(old(uniqueOverflowCount), old(allowEssentialLevelOnly))]
                         else []
    {
      var count := uniqueOverflowCount;
      reports := [];
      if count != 0 {
        reports := [TooManyUniqueNames(count, allowEssentialLevelOnly)];
        if !allowEssentialLevelOnly {
          allowEssentialLevelOnly := true;
          ClearAllCounts();
        }
      }
    }
  }
}
