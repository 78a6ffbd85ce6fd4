/** Properties of the throttle over whole sequences of calls: the unique-name bound
    on every run, escalation lasting until a reset, how a stream of distinct names
    fills the free name slots, how one repeated name meets its per-window limit, and
    the escalation scenario stated as calls on the throttle object itself. */
module ThrottleProperties {
  import opened Monitoring
  import opened WindowReports
  import opened Throttling

  /** One operation on a throttle: a check of a monitor (with the tag it carries for
      this throttle), a run of the window manager, or a lifecycle call. */
  datatype Op =
    | ShouldAllowOp(name: Option<string>, level: int, tag: Option<bool>)
    | TickOp
    | EnableOp
    | DisableOp
    | ResetOp

  function Step(s: ThrottleState, op: Op): ThrottleState
  {
    match op
    case ShouldAllowOp(name, level, tag) => Check(s, tag, MonitorName(name), level).state
    case TickOp => WindowTick(s)
    case EnableOp => s.(enabled := true)
    case DisableOp => s.(enabled := false)
    case ResetOp =>
      InitialState(s.timeWindowSizeSeconds, s.uniqueMonitorNameLimit, s.uniqueMonitorNamePerWindowLimit)
  }

  function Run(s: ThrottleState, ops: seq<Op>): ThrottleState
    decreases |ops|
  {
    if ops == [] then s else Run(Step(s, ops[0]), ops[1..])
  }

  /** Run sequentially, the name map never holds more names than the unique-name limit. */
  lemma {:induction false} NameBoundHoldsOnEveryRun(s: ThrottleState, ops: seq<Op>)
    requires |s.monitorMap| <= s.uniqueMonitorNameLimit
    ensures SameLimits(Run(s, ops), s)
    ensures |Run(s, ops).monitorMap| <= s.uniqueMonitorNameLimit
    decreases |ops|
  {
    if ops != [] {
      NameBoundHoldsOnEveryRun(Step(s, ops[0]), ops[1..]);
    }
  }

  /** Once escalated, the throttle stays essential-only until it is reset. */
  lemma {:induction false} EscalationLastsUntilReset(s: ThrottleState, ops: seq<Op>)
    requires s.allowEssentialLevelOnly
    requires forall i :: 0 <= i < |ops| ==> !ops[i].ResetOp?
    ensures Run(s, ops).allowEssentialLevelOnly
    decreases |ops|
  {
    if ops != [] {
      EscalationLastsUntilReset(Step(s, ops[0]), ops[1..]);
    }
  }

  /** Checks a fresh, untagged monitor for each name in turn, all at `level`; the
      answers come back in order. */
  function CheckFresh(s: ThrottleState, names: seq<string>, level: int): (ThrottleState, seq<bool>)
    decreases |names|
  {
    if names == [] then (s, [])
    else
      var d := Check(s, None, names[0], level);
      var rest := CheckFresh(d.state, names[1..], level);
      (rest.0, [d.allow] + rest.1)
  }

  /** How many of the counts start + 1 .. start + n lie above `limit`. */
  function Excess(start: int, n: nat, limit: int): int
  {
    if start + n <= limit then 0 else if start >= limit then n else start + n - limit
  }

  /** A stream of distinct new names: exactly the free name slots are filled, and every
      name after that is refused and counted as an overflow and as throttled. */
  lemma {:induction false} DistinctNamesFillFreeSlots(s: ThrottleState, names: seq<string>, level: int)
    requires s.enabled && !LevelDenies(s, level)
    requires |s.monitorMap| <= s.uniqueMonitorNameLimit
    requires forall i, j :: 0 <= i < j < |names| ==> names[i] != names[j]
    requires forall i :: 0 <= i < |names| ==> names[i] !in s.monitorMap
    ensures |CheckFresh(s, names, level).1| == |names|
    ensures forall i :: 0 <= i < |names| ==>
      CheckFresh(s, names, level).1[i] == (i < s.uniqueMonitorNameLimit - |s.monitorMap|)
    ensures CheckFresh(s, names, level).0.uniqueOverflowCount ==
      s.uniqueOverflowCount + Excess(|s.monitorMap|, |names|, s.uniqueMonitorNameLimit)
    ensures CheckFresh(s, names, level).0.totalThrottledCount ==
      s.totalThrottledCount + Excess(|s.monitorMap|, |names|, s.uniqueMonitorNameLimit)
    decreases |names|
  {
    if names != [] {
      var d := Check(s, None, names[0], level);
      var rest := names[1..];
      assert forall i :: 0 <= i < |rest| ==> rest[i] == names[i + 1];
      assert forall i :: 0 <= i < |rest| ==> rest[i] !in d.state.monitorMap;
      DistinctNamesFillFreeSlots(d.state, rest, level);
    }
  }

  function Repeat(name: string, n: nat): seq<string>
  {
    if n == 0 then [] else [name] + Repeat(name, n - 1)
  }

  /** One known name checked n times in a window: the i-th check is allowed exactly
      when the name's count after it is within the (inclusive) per-window limit, and
      every check above the limit is throttled. */
  lemma {:induction false} RepeatedNameVolume(s: ThrottleState, name: string, level: int, n: nat)
    requires s.enabled && !LevelDenies(s, level)
    requires name in s.monitorMap
    ensures |CheckFresh(s, Repeat(name, n), level).1| == n
    ensures forall i :: 0 <= i < n ==>
      CheckFresh(s, Repeat(name, n), level).1[i] ==
        (s.monitorMap[name] + i + 1 <= s.uniqueMonitorNamePerWindowLimit)
    ensures CheckFresh(s, Repeat(name, n), level).0.monitorMap ==
      s.monitorMap[name := s.monitorMap[name] + n]
    ensures CheckFresh(s, Repeat(name, n), level).0.uniqueOverflowCount == s.uniqueOverflowCount
    ensures CheckFresh(s, Repeat(name, n), level).0.totalThrottledCount ==
      s.totalThrottledCount + Excess(s.monitorMap[name], n, s.uniqueMonitorNamePerWindowLimit)
    decreases n
  {
    if n != 0 {
      var d := Check(s, None, name, level);
      assert Repeat(name, n)[1..] == Repeat(name, n - 1);
      RepeatedNameVolume(d.state, name, level, n - 1);
      assert d.state.monitorMap[name := s.monitorMap[name] + n] ==
        s.monitorMap[name := s.monitorMap[name] + n];
    }
  }

  /** A sequence without repetitions, drawn from `S`, is no longer than `S` is large. */
  lemma {:induction false} DistinctWithin(s: seq<Diagnostic>, S: set<Diagnostic>)
    requires forall i, j :: 0 <= i < j < |s| ==> s[i] != s[j]
    requires forall x :: x in s ==> x in S
    ensures |s| <= |S|
    decreases |s|
  {
    if s != [] {
      var rest := s[1..];
      forall x | x in rest
        ensures x in S - {s[0]}
      {
        var k :| 0 <= k < |rest| && rest[k] == x;
        assert s[k + 1] == x;
      }
      forall i, j | 0 <= i < j < |rest|
        ensures rest[i] != rest[j]
      {
        assert rest[i] == s[i + 1] && rest[j] == s[j + 1];
      }
      DistinctWithin(rest, S - {s[0]});
    }
  }

  /** A listing of a single diagnostic is that diagnostic alone. */
  lemma SingleReport(events: seq<Diagnostic>, e: Diagnostic)
    requires ListsOnce(events, {e})
    ensures events == [e]
  {
    assert e in events;
    DistinctWithin(events, {e});
    assert events[0] in events;
  }

  /** Checking a monitor again, with the tag the first check left on it, repeats the
      first answer and changes nothing more. */
  lemma SecondCheckRepeatsFirst(s: ThrottleState, name: string, level: int)
    ensures var first := Check(s, None, name, level);
            var second := Check(first.state, first.tag, name, level);
            second == Decision(first.allow, first.state, first.tag)
  {
  }

  /** One monitor named "foo" checked 1 + n times by a default throttle: every answer
      is true, and only the first check counts the name. */
  method SameMonitorAlwaysAllowed(n: nat) returns (allAllowed: bool, fooCount: int)
    ensures allAllowed
    ensures fooCount == 1
  {
    var t := TimeWindowMonitorThrottle.CreateDefault("default");
    var same := new Monitor(Some("foo"), INFO);
    allAllowed := t.ShouldAllow(same);
    var i := 0;
    while i < n
      invariant 0 <= i <= n
      invariant t.TagOn(same) == Some(true) && t.enabled
      invariant t.monitorMap == map["foo" := 1]
      invariant allAllowed
    {
      var allow := t.ShouldAllow(same);
      allAllowed := allAllowed && allow;
      i := i + 1;
    }
    fooCount := t.monitorMap["foo"];
  }

  /** A disabled default throttle allows a monitor for each of `names`, however many
      and whatever they are, and never counts a name or a refusal. */
  method DisabledAllowsAll(names: seq<string>) returns (allAllowed: bool, namesCounted: int, throttled: int)
    ensures allAllowed
    ensures namesCounted == 0 && throttled == 0
  {
    var t := TimeWindowMonitorThrottle.CreateDefault("default");
    t.Disable();
    allAllowed := true;
    var i := 0;
    while i < |names|
      invariant 0 <= i <= |names|
      invariant t.State() == InitialState(DEFAULT_TIME_WINDOW_SECONDS, DEFAULT_UNIQUE_MONITOR_NAME_LIMIT,
                                          DEFAULT_UNIQUE_MONITOR_NAME_PER_WINDOW_LIMIT).(enabled := false)
      invariant allAllowed
    {
      var m := new Monitor(Some(names[i]), INFO);
      var allow := t.ShouldAllow(m);
      allAllowed := allAllowed && allow;
      i := i + 1;
    }
    namesCounted := |t.monitorMap|;
    throttled := t.GetTotalThrottledCount();
  }

  /** A monitor without a name is counted as "<null>" and allowed by a default throttle. */
  method NullNameAllowed() returns (allow: bool, counted: bool)
    ensures allow && counted
  {
    var t := TimeWindowMonitorThrottle.CreateDefault("default");
    var m := new Monitor(None, INFO);
    allow := t.ShouldAllow(m);
    counted := NULL_NAME in t.monitorMap;
  }

  /** Checks a new monitor with the given name and level. */
  method CheckNewMonitor(t: TimeWindowMonitorThrottle, name: string, level: int) returns (allow: bool)
    modifies t`monitorMap, t`uniqueOverflowCount, t`totalThrottledCount
    ensures allow == Check(old(t.State()), None, name, level).allow
    ensures t.State() == Check(old(t.State()), None, name, level).state
  {
    var m := new Monitor(Some(name), level);
    allow := t.ShouldAllow(m);
  }

  /** A name not yet in the map, checked for the first time while the map has room. */
  lemma NewNameAdmitted(s: ThrottleState, name: string, level: int)
    requires s.enabled && !LevelDenies(s, level)
    requires name !in s.monitorMap && |s.monitorMap| < s.uniqueMonitorNameLimit
    ensures Check(s, None, name, level) == Decision(true, s.(monitorMap := s.monitorMap[name := 1]), Some(true))
  {
  }

  /** A name not yet in the map, checked for the first time while the map is full. */
  lemma NewNameRefused(s: ThrottleState, name: string, level: int)
    requires s.enabled && !LevelDenies(s, level)
    requires name !in s.monitorMap && |s.monitorMap| >= s.uniqueMonitorNameLimit
    ensures Check(s, None, name, level) ==
      Decision(false, s.(uniqueOverflowCount := s.uniqueOverflowCount + 1,
                         totalThrottledCount := s.totalThrottledCount + 1), Some(false))
  {
  }

  /** "one" and "two" pass, "three" is over the limit of two names. */
  method ScenarioBeforeTick(t: TimeWindowMonitorThrottle) returns (a1: bool, a2: bool, a3: bool)
    requires t.State() == InitialState(1, 2, 100)
    modifies t`monitorMap, t`uniqueOverflowCount, t`totalThrottledCount
    ensures a1 && a2 && !a3
    ensures t.State() == InitialState(1, 2, 100).(monitorMap := map["one" := 1, "two" := 1],
                                                  uniqueOverflowCount := 1, totalThrottledCount := 1)
  {
    NewNameAdmitted(t.State(), "one", INFO);
    a1 := CheckNewMonitor(t, "one", INFO);
    NewNameAdmitted(t.State(), "two", INFO);
    a2 := CheckNewMonitor(t, "two", INFO);
    assert t.monitorMap == map["one" := 1, "two" := 1];
    NewNameRefused(t.State(), "three", INFO);
    a3 := CheckNewMonitor(t, "three", INFO);
  }

  const ESCALATED := InitialState(1, 2, 100).(allowEssentialLevelOnly := true)

  /** Escalated: "four" and "five" are refused by level, ESSENTIAL "six" and "seven" pass. */
  method ScenarioAfterTick(t: TimeWindowMonitorThrottle) returns (a4: bool, a5: bool, a6: bool, a7: bool)
    requires t.State() == ESCALATED
    modifies t`monitorMap, t`uniqueOverflowCount, t`totalThrottledCount
    ensures !a4 && !a5 && a6 && a7
    ensures t.State() == ESCALATED.(monitorMap := map["six" := 1, "seven" := 1], totalThrottledCount := 2)
  {
    a4 := CheckNewMonitor(t, "four", INFO);
    a5 := CheckNewMonitor(t, "five", INFO);
    NewNameAdmitted(t.State(), "six", ESSENTIAL);
    a6 := CheckNewMonitor(t, "six", ESSENTIAL);
    NewNameAdmitted(t.State(), "seven", ESSENTIAL);
    a7 := CheckNewMonitor(t, "seven", ESSENTIAL);
  }

  /** Two ESSENTIAL names are in the map: "eight", "nine" and "ten" overflow, and "ten"
      checked a second time keeps its stored answer without being counted again. */
  method ScenarioFullAgain(t: TimeWindowMonitorThrottle) returns (a8: bool, a9: bool, a10: bool, a11: bool)
    requires t.State() == ESCALATED.(monitorMap := map["six" := 1, "seven" := 1], totalThrottledCount := 2)
    modifies t`monitorMap, t`uniqueOverflowCount, t`totalThrottledCount
    ensures !a8 && !a9 && !a10 && !a11
    ensures t.State() == ESCALATED.(monitorMap := map["six" := 1, "seven" := 1],
                                    uniqueOverflowCount := 3, totalThrottledCount := 5)
  {
    NewNameRefused(t.State(), "eight", ESSENTIAL);
    a8 := CheckNewMonitor(t, "eight", ESSENTIAL);
    NewNameRefused(t.State(), "nine", ESSENTIAL);
    a9 := CheckNewMonitor(t, "nine", ESSENTIAL);
    var ten := new Monitor(Some("ten"), ESSENTIAL);
    NewNameRefused(t.State(), "ten", ESSENTIAL);
    a10 := t.ShouldAllow(ten);
    a11 := t.ShouldAllow(ten);
  }

  /** The escalation scenario with a 1 second window, 2 names and 100 per name. The
      escalation cleared the throttled count, so it ends at 5. */
  method TooManyUniqueNamesScenario()
    returns (answers: seq<bool>, throttledAfterThree: int, firstTick: seq<Diagnostic>,
             secondTick: seq<Diagnostic>, throttledAtEnd: int)
    ensures answers == [true, true, false, false, false, true, true, false, false, false, false]
    ensures throttledAfterThree == 1
    ensures firstTick == [TooManyUniqueNames(1, false)]
    ensures secondTick == [TooManyUniqueNames(3, true)]
    ensures firstTick[0].EventName() == secondTick[0].EventName() == TOO_MANY_UNIQUE_NAMES
    ensures throttledAtEnd == 5
  {
    var created := TimeWindowMonitorThrottle.Create("scenario", 1, 2, 100);
    var t := created.value;
    var a1, a2, a3 := ScenarioBeforeTick(t);
    throttledAfterThree := t.GetTotalThrottledCount();

    assert OverLimitReports(t.monitorMap, t.monitorMap.Keys, 100, 1) == {};
    firstTick := t.Tick();
    SingleReport(firstTick, TooManyUniqueNames(1, false));

    var a4, a5, a6, a7 := ScenarioAfterTick(t);
    var a8, a9, a10, a11 := ScenarioFullAgain(t);
    answers := [a1, a2, a3, a4, a5, a6, a7, a8, a9, a10, a11];
    throttledAtEnd := t.GetTotalThrottledCount();

    assert OverLimitReports(t.monitorMap, t.monitorMap.Keys, 100, 5) == {};
    secondTick := t.Tick();
    SingleReport(secondTick, TooManyUniqueNames(3, true));
  }
}
