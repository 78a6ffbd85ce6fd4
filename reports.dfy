/** The per-name part of a window tick, on values: every count goes back to zero, and
    one report is due for each name whose count went over the per-window limit. The
    loop that does this in place, TimeWindowMonitorThrottle.ResetMonitorCounts, is
    proved through the invariant stated here. */
module WindowReports {
  import opened Monitoring

  function ZeroCounts(m: map<string, int>): map<string, int>
  {
    map n | n in m :: 0
  }

  lemma ZeroCountsSize(m: map<string, int>)
    ensures |ZeroCounts(m)| == |m|
  {
    assert ZeroCounts(m).Keys == m.Keys;
  }

  /** One report per name of `names` whose count went over the per-window limit. */
  function OverLimitReports(m: map<string, int>, names: set<string>, limit: int, total: int): set<Diagnostic>
  {
    set n | n in names && n in m && m[n] > limit :: ThrottledName(n, m[n] - limit, total)
  }

  /** `reports` lists every element of `expected` exactly once, and nothing else. */
  ghost predicate ListsOnce(reports: seq<Diagnostic>, expected: set<Diagnostic>)
  {
    (forall i, j :: 0 <= i < j < |reports| ==> reports[i] != reports[j]) &&
    (forall e :: e in reports <==> e in expected)
  }

  lemma ListsOnceAppend(a: seq<Diagnostic>, sa: set<Diagnostic>, b: seq<Diagnostic>, sb: set<Diagnostic>)
    requires ListsOnce(a, sa) && ListsOnce(b, sb) && sa !! sb
    ensures ListsOnce(a + b, sa + sb)
  {
    forall i, j | 0 <= i < j < |a + b| ensures (a + b)[i] != (a + b)[j] {
      if j >= |a| && i < |a| {
        assert (a + b)[i] in sa && (a + b)[j] in sb;
      }
    }
  }

  /** Adding one more name to `names` adds at most that name's report, which is new. */
  lemma OverLimitReportsStep(m: map<string, int>, names: set<string>, n: string, limit: int, total: int)
    requires n !in names
    ensures n in m && m[n] > limit ==>
      ThrottledName(n, m[n] - limit, total) !in OverLimitReports(m, names, limit, total) &&
      OverLimitReports(m, names + {n}, limit, total) ==
        OverLimitReports(m, names, limit, total) + {ThrottledName(n, m[n] - limit, total)}
    ensures !(n in m && m[n] > limit) ==>
      OverLimitReports(m, names + {n}, limit, total) == OverLimitReports(m, names, limit, total)
  {
  }

  /** The loop invariant of resetting the counts: the names in `done` are at 0 and
      reported, those in `pending` still hold their count. */
  ghost predicate ResetProgress(before: map<string, int>, done: set<string>, pending: set<string>,
                                m: map<string, int>, reports: seq<Diagnostic>, limit: int, total: int)
  {
    pending !! done && pending + done == before.Keys &&
    m.Keys == before.Keys &&
    (forall n :: n in m ==> m[n] == if n in pending then before[n] else 0) &&
    ListsOnce(reports, OverLimitReports(before, done, limit, total))
  }

  /** One iteration of the reset loop: name `n` moves from `pending` to `done`, its count
      goes to 0 and, when it was over the limit, its report is appended. */
  lemma ResetStep(before: map<string, int>, done: set<string>, pending: set<string>, n: string,
                  m: map<string, int>, reports: seq<Diagnostic>,
                  m': map<string, int>, reports': seq<Diagnostic>, limit: int, total: int)
    requires ResetProgress(before, done, pending, m, reports, limit, total)
    requires n in pending
    requires m' == m[n := 0]
    requires reports' == if n in m && m[n] > limit
                         then reports + [ThrottledName(n, m[n] - limit, total)]
                         else reports
    ensures ResetProgress(before, done + {n}, pending - {n}, m', reports', limit, total)
  {
    OverLimitReportsStep(before, done, n, limit, total);
  }

  lemma ResetDone(before: map<string, int>, done: set<string>, m: map<string, int>,
                  reports: seq<Diagnostic>, limit: int, total: int)
    requires ResetProgress(before, done, {}, m, reports, limit, total)
    ensures m == ZeroCounts(before)
    ensures ListsOnce(reports, OverLimitReports(before, before.Keys, limit, total))
  {
    assert done == before.Keys;
  }
}
