/** Runs of a throttling processor over many distinct monitor names: a burst of new
    names is cut off at the unique-name limit, and a disabled throttle lets
    everything through without counting anything. */
module ProcessorScenarios {
  import opened Monitoring
  import opened Throttling
  import opened Processor

  /** The decimal digits of `n`, most significant first, without leading zeros. */
  function Decimal(n: nat): (s: string)
    ensures |s| >= 1 && (n < 10 <==> |s| == 1)
    decreases n
  {
    if n < 10 then ["0123456789"[n]] else Decimal(n / 10) + ["0123456789"[n % 10]]
  }

  lemma DigitInjective(a: nat, b: nat)
    requires a < 10 && b < 10 && "0123456789"[a] == "0123456789"[b]
    ensures a == b
  {
  }

  /** Different numbers are written differently. */
  lemma {:induction false} DecimalInjective(a: nat, b: nat)
    requires Decimal(a) == Decimal(b)
    ensures a == b
    decreases a
  {
    var s := Decimal(a);
    if a < 10 && b < 10 {
      assert s[0] == "0123456789"[a] == "0123456789"[b];
      DigitInjective(a, b);
    } else if a >= 10 && b >= 10 {
      var p, q := Decimal(a / 10), Decimal(b / 10);
      assert s == p + ["0123456789"[a % 10]] == q + ["0123456789"[b % 10]];
      assert s[|s| - 1] == "0123456789"[a % 10] == "0123456789"[b % 10];
      DigitInjective(a % 10, b % 10);
      assert p == s[..|s| - 1] == q;
      DecimalInjective(a / 10, b / 10);
    }
  }

  /** The name of the i-th monitor of a run: "m" followed by i in decimal. */
  function Name(i: nat): string
  {
    "m" + Decimal(i)
  }

  /** The names of a run are pairwise different. */
  lemma NamesDiffer(i: nat, j: nat)
    requires i != j
    ensures Name(i) != Name(j)
  {
    if Name(i) == Name(j) {
      assert Decimal(i) == Name(i)[1..] == Name(j)[1..] == Decimal(j);
      DecimalInjective(i, j);
    }
  }

  /** No name of a run is "foo". */
  lemma NotFoo(i: nat)
    ensures Name(i) != "foo"
  {
    assert Name(i)[0] == 'm';
  }

  function Min(a: int, b: int): int
  {
    if a < b then a else b
  }

  /** A throttle of 100 names and 10 per name per window, behind a processor: "foo"
      passes first, then 200 monitors with new names arrive, of which only 99 fit
      under the unique-name limit beside "foo"; the other 101 are throttled. */
  method BurstOfNewNames() returns (fooPassed: bool, passedInBurst: int, throttled: int)
    ensures fooPassed
    ensures passedInBurst == 99 && 0 < passedInBurst < 200
    ensures throttled == 101
  {
    var created := TimeWindowMonitorThrottle.Create("t", 1, 100, 10);
    var t := created.value;
    var recorder := new RecordingProcessor();
    var p := new ThrottlingMonitorProcessor(t, recorder);
    var foo := new Monitor(Some("foo"), INFO);
    p.Process(foo);
    fooPassed := recorder.processed == [foo];
    forall j: nat
      ensures Name(j) !in t.monitorMap
    {
      NotFoo(j);
    }

    var i := 0;
    while i < 200
      invariant 0 <= i <= 200
      invariant t.enabled && !t.allowEssentialLevelOnly && t.uniqueMonitorNameLimit == 100
      invariant |t.monitorMap| == 1 + Min(i, 99)
      invariant forall j: nat :: i <= j ==> Name(j) !in t.monitorMap
      invariant |recorder.processed| == 1 + Min(i, 99)
      invariant t.totalThrottledCount == i - Min(i, 99)
    {
      var m := new Monitor(Some(Name(i)), INFO);
      p.Process(m);
      forall j: nat | i < j
        ensures Name(j) !in t.monitorMap
      {
        NamesDiffer(i, j);
      }
      i := i + 1;
    }
    passedInBurst := |recorder.processed| - 1;
    throttled := t.GetTotalThrottledCount();
  }

  /** A throttle of 100 names and 10 per name per window: while disabled, each of 101
      monitors is handed on at once and nothing is counted; once enabled again, the
      same 101 names arrive on new monitors and the last one is throttled. */
  method DisableThenEnable() returns (eachPassedAtOnce: bool, throttledWhileDisabled: int,
                                      throttledAfterEnable: int)
    ensures eachPassedAtOnce
    ensures throttledWhileDisabled == 0
    ensures throttledAfterEnable == 1
  {
    var created := TimeWindowMonitorThrottle.Create("t", 5, 100, 10);
    var t := created.value;
    var recorder := new RecordingProcessor();
    var p := new ThrottlingMonitorProcessor(t, recorder);
    t.Disable();

    eachPassedAtOnce := true;
    var i := 0;
    while i < 101
      invariant 0 <= i <= 101
      invariant t.State() == InitialState(5, 100, 10).(enabled := false)
      invariant eachPassedAtOnce
    {
      var m := new Monitor(Some(Name(i)), INFO);
      p.Process(m);
      eachPassedAtOnce := eachPassedAtOnce && |recorder.processed| > 0 &&
                          recorder.processed[|recorder.processed| - 1] == m;
      i := i + 1;
    }
    throttledWhileDisabled := t.GetTotalThrottledCount();

    t.Enable();
    i := 0;
    while i < 101
      invariant 0 <= i <= 101
      invariant t.enabled && !t.allowEssentialLevelOnly && t.uniqueMonitorNameLimit == 100
      invariant |t.monitorMap| == Min(i, 100)
      invariant forall j: nat :: i <= j ==> Name(j) !in t.monitorMap
      invariant t.totalThrottledCount == i - Min(i, 100)
    {
      var m := new Monitor(Some(Name(i)), INFO);
      p.Process(m);
      forall j: nat | i < j
        ensures Name(j) !in t.monitorMap
      {
        NamesDiffer(i, j);
      }
      i := i + 1;
    }
    throttledAfterEnable := t.GetTotalThrottledCount();
  }
}
