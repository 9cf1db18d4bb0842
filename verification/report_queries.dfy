/** The read-only report queries of api/views.py: a citizen's own reports and a technician's
    open assignments, newest first, and the admin dashboard's counts. The table is a sequence
    of rows; the database's `ORDER BY created_at DESC` is any newest-first arrangement of the
    selected rows (rows created in the same instant may come in either order). */
module ReportQueries {
  import opened Wrappers
  import opened Models
  import opened Permissions

  // ---------------------------------------------------------------------------
  // Selection and newest-first ordering
  // ---------------------------------------------------------------------------

  /** `rs` lists newer rows before older ones. */
  predicate NewestFirst(rs: seq<Report>) {
    forall i, j :: 0 <= i < j < |rs| ==> rs[i].createdAt >= rs[j].createdAt
  }

  /** The rows of `rs` that `keep` selects, each as many times as it occurs, in table order. */
  function Where(rs: seq<Report>, keep: Report -> bool): (out: seq<Report>)
    ensures forall r :: keep(r) ==> multiset(out)[r] == multiset(rs)[r]
    ensures forall r :: !keep(r) ==> multiset(out)[r] == 0
    ensures forall r :: r in out <==> r in rs && keep(r)
  {
    if |rs| == 0 then []
    else
      assert rs == [rs[0]] + rs[1..];
      var rest := Where(rs[1..], keep);
      if keep(rs[0]) then [rs[0]] + rest else rest
  }

  /** A row at least as new as every row of a newest-first list may go in front of it. */
  lemma PrependKeepsNewestFirst(x: Report, rest: seq<Report>)
    requires NewestFirst(rest)
    requires forall k :: 0 <= k < |rest| ==> rest[k].createdAt <= x.createdAt
    ensures NewestFirst([x] + rest)
  {
  }

  /** Every row that is `r` or one of `rs` is dated no later than `head`. */
  lemma RowsOfMultisetAreBounded(rest: seq<Report>, rs: seq<Report>, r: Report, head: int)
    requires multiset(rest) == multiset(rs) + multiset{r}
    requires r.createdAt <= head
    requires forall k :: 0 <= k < |rs| ==> rs[k].createdAt <= head
    ensures forall k :: 0 <= k < |rest| ==> rest[k].createdAt <= head
  {
    forall k | 0 <= k < |rest|
      ensures rest[k].createdAt <= head
    {
      assert rest[k] in multiset(rest);
      if rest[k] != r {
        assert rest[k] in multiset(rs);
        var j :| 0 <= j < |rs| && rs[j] == rest[k];
      }
    }
  }

  /** Places `r` among the newest-first rows `rs`, after every row at least as new. */
  function InsertByDate(r: Report, rs: seq<Report>): (out: seq<Report>)
    requires NewestFirst(rs)
    ensures NewestFirst(out)
    ensures multiset(out) == multiset(rs) + multiset{r}
  {
    if |rs| == 0 then [r]
    else if r.createdAt >= rs[0].createdAt then
      PrependKeepsNewestFirst(r, rs);
      [r] + rs
    else
      assert rs == [rs[0]] + rs[1..];
      var rest := InsertByDate(r, rs[1..]);
      RowsOfMultisetAreBounded(rest, rs[1..], r, rs[0].createdAt);
      PrependKeepsNewestFirst(rs[0], rest);
      [rs[0]] + rest
  }

  /** The rows of `rs` rearranged newest first. */
  function SortNewestFirst(rs: seq<Report>): (out: seq<Report>)
    ensures NewestFirst(out)
    ensures multiset(out) == multiset(rs)
  {
    if |rs| == 0 then []
    else
      assert rs == [rs[0]] + rs[1..];
      InsertByDate(rs[0], SortNewestFirst(rs[1..]))
  }

  /** MyReportsListView's queryset: the requester's own reports, newest first. */
  function MyReports(all: seq<Report>, user: UserId): (out: seq<Report>)
    ensures NewestFirst(out)
    ensures forall r: Report :: r.citizen == user ==> multiset(out)[r] == multiset(all)[r]
    ensures forall r :: r in out <==> r in all && r.citizen == user
  {
    SortNewestFirst(Where(all, (r: Report) => r.citizen == user))
  }

  /** A technician's open work: assigned to them and Assigned or In Progress. */
  predicate IsOpenAssignment(r: Report, tech: UserId) {
    r.assignedTechnician == Some(tech) && (r.status == Assigned || r.status == InProgress)
  }

  /** AssignedReportListView's queryset: exactly the caller's open assignments, newest first. */
  function AssignedReports(all: seq<Report>, tech: UserId): (out: seq<Report>)
    ensures NewestFirst(out)
    ensures forall r :: IsOpenAssignment(r, tech) ==> multiset(out)[r] == multiset(all)[r]
    ensures forall r :: r in out <==> r in all && IsOpenAssignment(r, tech)
  {
    SortNewestFirst(Where(all, (r: Report) => IsOpenAssignment(r, tech)))
  }

  datatype ListResponse = Listed(reports: seq<Report>) | ListDenied

  /** MyReportsListView: any signed-in user. */
  function MyReportsView(u: Requester, all: seq<Report>): (resp: ListResponse)
    ensures resp.Listed? <==> IsAuthenticated(u)
    ensures resp.Listed? ==> resp.reports == MyReports(all, u.account.id)
    ensures resp.Listed? ==> forall r :: r in resp.reports ==> r.citizen == u.account.id
  {
    if !IsAuthenticated(u) then ListDenied else Listed(MyReports(all, u.account.id))
  }

  /** AssignedReportListView: technicians only. */
  function AssignedReportsView(u: Requester, all: seq<Report>): (resp: ListResponse)
    ensures resp.Listed? <==> IsTechnicianUser(u)
    ensures resp.Listed? ==> resp.reports == AssignedReports(all, u.account.id)
    ensures resp.Listed? ==> forall r :: r in resp.reports ==> IsOpenAssignment(r, u.account.id)
  {
    if !IsTechnicianUser(u) then ListDenied else Listed(AssignedReports(all, u.account.id))
  }

  /** A report that is resolved, closed, or not yet assigned never appears in any technician's list. */
  lemma ClosedWorkLeavesTheList(all: seq<Report>, tech: UserId, r: Report)
    requires r.status !in {Assigned, InProgress}
    ensures r !in AssignedReports(all, tech)
  {
  }

  // ---------------------------------------------------------------------------
  // Dashboard (DashboardStatsView.get)
  // ---------------------------------------------------------------------------

  /** The category column, row by row. */
  function CategoryColumn(rs: seq<Report>): (col: seq<Option<string>>)
    ensures |col| == |rs|
    ensures forall i :: 0 <= i < |rs| ==> col[i] == rs[i].category
  {
    if |rs| == 0 then [] else [rs[0].category] + CategoryColumn(rs[1..])
  }

  /** The calendar day of each row's creation, row by row. */
  function DayColumn(rs: seq<Report>): (col: seq<int>)
    ensures |col| == |rs|
    ensures forall i :: 0 <= i < |rs| ==> col[i] == DayOf(rs[i].createdAt)
  {
    if |rs| == 0 then [] else [DayOf(rs[0].createdAt)] + DayColumn(rs[1..])
  }

  /** The status of each row, row by row. */
  function StatusColumn(rs: seq<Report>): (col: seq<Status>)
    ensures |col| == |rs|
    ensures forall i :: 0 <= i < |rs| ==> col[i] == rs[i].status
  {
    if |rs| == 0 then [] else [rs[0].status] + StatusColumn(rs[1..])
  }

  /** `reports_by_category`: one key per category that is neither null nor empty and occurs in
      the table, mapped to the number of reports in it. */
  function ReportsByCategory(rs: seq<Report>): (m: map<string, nat>)
    ensures forall c :: c in m <==> c != "" && Some(c) in CategoryColumn(rs)
    ensures forall c :: c in m ==> m[c] == multiset(CategoryColumn(rs))[Some(c)]
  {
    if |rs| == 0 then map[]
    else
      var m := ReportsByCategory(rs[1..]);
      assert CategoryColumn(rs) == [rs[0].category] + CategoryColumn(rs[1..]);
      match rs[0].category
      case Some(c) =>
        if c == "" then m else m[c := (if c in m then m[c] else 0) + 1]
      case None => m
  }

  /** The seven calendar days ending with `today`. */
  function LastSevenDays(today: int): set<int> {
    {today - 6, today - 5, today - 4, today - 3, today - 2, today - 1, today}
  }

  /** The seven days are exactly those from six days before `today` up to `today`. */
  lemma LastSevenDaysAreTheWeek(today: int)
    ensures forall d :: d in LastSevenDays(today) <==> today - 6 <= d <= today
  {
  }

  lemma LastSevenDaysHasSeven(today: int)
    ensures |LastSevenDays(today)| == 7
    ensures forall d :: d in LastSevenDays(today) <==> today - 6 <= d <= today
  {
    LastSevenDaysAreTheWeek(today);
    var s1: set<int> := {today - 6};
    var s2 := s1 + {today - 5};
    assert today - 5 !in s1;
    var s3 := s2 + {today - 4};
    assert today - 4 !in s2;
    var s4 := s3 + {today - 3};
    assert today - 3 !in s3;
    var s5 := s4 + {today - 2};
    assert today - 2 !in s4;
    var s6 := s5 + {today - 1};
    assert today - 1 !in s5;
    var s7 := s6 + {today};
    assert today !in s6;
    assert LastSevenDays(today) == s7;
  }

  /** `daily_reports_last_7_days`: every day of the last seven days starts at zero; then each
      day from the first of them on that has reports gets its count. The query has a lower bound
      only, so a report dated after `today` adds its day as an extra key. */
  function DailyReports(rs: seq<Report>, today: int): (m: map<int, nat>)
    ensures forall d :: d in m <==> today - 6 <= d && (d <= today || d in DayColumn(rs))
    ensures forall d :: d in m ==> m[d] == multiset(DayColumn(rs))[d]
  {
    if |rs| == 0 then
      LastSevenDaysAreTheWeek(today);
      map d | d in LastSevenDays(today) :: 0
    else
      var m := DailyReports(rs[1..], today);
      var d := DayOf(rs[0].createdAt);
      assert DayColumn(rs) == [d] + DayColumn(rs[1..]);
      assert multiset(DayColumn(rs)) == multiset{d} + multiset(DayColumn(rs[1..]));
      if d < today - 6 then m else m[d := (if d in m then m[d] else 0) + 1]
  }

  /** When no report is dated after `today`, the daily map has exactly the last seven days as
      keys, zero for a day without reports. */
  lemma DailyReportsHaveSevenKeys(rs: seq<Report>, today: int)
    requires forall r :: r in rs ==> DayOf(r.createdAt) <= today
    ensures DailyReports(rs, today).Keys == LastSevenDays(today)
    ensures |DailyReports(rs, today)| == 7
    ensures forall d :: d in LastSevenDays(today) && d !in DayColumn(rs) ==> DailyReports(rs, today)[d] == 0
  {
    LastSevenDaysHasSeven(today);
    var m := DailyReports(rs, today);
    forall d | d in DayColumn(rs)
      ensures d <= today
    {
      var i :| 0 <= i < |rs| && DayColumn(rs)[i] == d;
      assert rs[i] in rs;
    }
    assert m.Keys == LastSevenDays(today);
  }

  /** A report dated after `today` (a clock or time-zone skew between the server's date and the
      stored one) gives the daily map an eighth key. */
  lemma FutureDatedReportAddsAKey(rs: seq<Report>, today: int, r: Report)
    requires r in rs && DayOf(r.createdAt) > today
    ensures DayOf(r.createdAt) in DailyReports(rs, today)
    ensures DailyReports(rs, today).Keys != LastSevenDays(today)
  {
    var d := DayOf(r.createdAt);
    assert d in DayColumn(rs) by {
      var i :| 0 <= i < |rs| && rs[i] == r;
      assert DayColumn(rs)[i] == d;
    }
    assert d !in LastSevenDays(today);
  }

  /** The dashboard's response body. */
  datatype DashboardStats = DashboardStats(
    totalReports: nat,
    newReportsToday: nat,
    inProgressReports: nat,
    resolvedReports: nat,
    reportsByCategory: map<string, nat>,
    dailyReportsLast7Days: map<int, nat>)

  /** The row filters the dashboard counts with. */
  function CreatedOn(day: int): Report -> bool {
    (r: Report) => DayOf(r.createdAt) == day
  }

  function InStatus(status: Status): Report -> bool {
    (r: Report) => r.status == status
  }

  /** Two filters that never both hold select no more rows together than the table has. */
  lemma {:induction false} DisjointSelectionsFit(rs: seq<Report>, k1: Report -> bool, k2: Report -> bool)
    requires forall r :: !(k1(r) && k2(r))
    ensures |Where(rs, k1)| + |Where(rs, k2)| <= |rs|
  {
    if |rs| > 0 {
      DisjointSelectionsFit(rs[1..], k1, k2);
    }
  }

  /** The number of rows created on `day` is the multiplicity of `day` in the day column. */
  lemma {:induction false} CreatedOnCountsTheDay(rs: seq<Report>, day: int)
    ensures |Where(rs, CreatedOn(day))| == multiset(DayColumn(rs))[day]
  {
    if |rs| > 0 {
      CreatedOnCountsTheDay(rs[1..], day);
      assert DayColumn(rs) == [DayOf(rs[0].createdAt)] + DayColumn(rs[1..]);
    }
  }

  /** The number of rows in `status` is the multiplicity of `status` in the status column. */
  lemma {:induction false} InStatusCountsTheStatus(rs: seq<Report>, status: Status)
    ensures |Where(rs, InStatus(status))| == multiset(StatusColumn(rs))[status]
  {
    if |rs| > 0 {
      InStatusCountsTheStatus(rs[1..], status);
      assert StatusColumn(rs) == [rs[0].status] + StatusColumn(rs[1..]);
    }
  }

  /** The dashboard's figures for table `rs` on day `today`: the row count, the rows in progress,
      resolved and created today, the per-category counts and the daily map. The new-today count
      and today's entry of the daily map agree, and the in-progress and resolved counts never
      exceed the total. */
  function Dashboard(rs: seq<Report>, today: int): (stats: DashboardStats)
    ensures stats.totalReports == |rs|
    ensures stats.inProgressReports == multiset(StatusColumn(rs))[InProgress]
    ensures stats.resolvedReports == multiset(StatusColumn(rs))[Resolved]
    ensures stats.reportsByCategory == ReportsByCategory(rs)
    ensures stats.dailyReportsLast7Days == DailyReports(rs, today)
    ensures stats.inProgressReports + stats.resolvedReports <= stats.totalReports
    ensures stats.newReportsToday == multiset(DayColumn(rs))[today]
    ensures today in stats.dailyReportsLast7Days
    ensures stats.dailyReportsLast7Days[today] == stats.newReportsToday
    ensures forall c :: c in stats.reportsByCategory <==> c != "" && Some(c) in CategoryColumn(rs)
  {
    DisjointSelectionsFit(rs, InStatus(InProgress), InStatus(Resolved));
    InStatusCountsTheStatus(rs, InProgress);
    InStatusCountsTheStatus(rs, Resolved);
    CreatedOnCountsTheDay(rs, today);
    DashboardStats(
      |rs|,
      |Where(rs, CreatedOn(today))|,
      |Where(rs, InStatus(InProgress))|,
      |Where(rs, InStatus(Resolved))|,
      ReportsByCategory(rs),
      DailyReports(rs, today))
  }

  datatype DashboardResponse = Stats(stats: DashboardStats) | DashboardDenied

  /** DashboardStatsView: administrators only. */
  function DashboardView(u: Requester, rs: seq<Report>, today: int): (resp: DashboardResponse)
    ensures resp.Stats? <==> IsAdminUser(u)
    ensures resp.Stats? ==> resp.stats == Dashboard(rs, today)
    ensures resp.Stats? ==> resp.stats.totalReports == |rs|
  {
    if IsAdminUser(u) then Stats(Dashboard(rs, today)) else DashboardDenied
  }
}
