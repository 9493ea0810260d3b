/**
 * The super-admin history page (`SuperHistory`): its state, the load and the minute tick that
 * replace it, and what each tab's table and chart show for that state.
 */
module SuperHistoryPage {
  import opened Common
  import opened Calendar
  import opened Records
  import opened Revenue
  import Seqs
  import Grouping
  import Search
  import SessionTime
  import Business
  import Ranking

  datatype HistoryTab = SessionsTab | RoutersTab | PaymentsTab | BusinessTab

  /** What `Promise.all` of the three list calls resolves to; each list may come back `null`. */
  datatype Fetched = Fetched(sessions: Option<seq<Session>>, routers: Option<seq<Router>>,
                             payments: Option<seq<Payment>>)

  // ---------------------------------------------------------------------------------
  // The payments chart: its own filter, without the search text and case-insensitive on status.

  /** The test of `renderPaymentsChart`: approved in any letter case, and inside both inclusive date bounds. */
  predicate ChartCounts(p: Payment, startDay: Option<int>, endDay: Option<int>)
    ensures ChartCounts(p, startDay, endDay) <==>
              && ApprovedIgnoringCase(p)
              && (startDay.Some? ==> DayNumber(p.createdAt) >= startDay.value)
              && (endDay.Some? ==> DayNumber(p.createdAt) < endDay.value
                                   || (DayNumber(p.createdAt) == endDay.value && MsOfDay(p.createdAt) == 0))
  {
    && ApprovedIgnoringCase(p)
    && Search.NotBefore(Some(p.createdAt), Search.DateBound(startDay))
    && Search.NotAfter(Some(p.createdAt), Search.DateBound(endDay))
  }

  /** The payments the chart counts: a subsequence keeping exactly those that pass its test. */
  function ChartPayments(payments: seq<Payment>, startDay: Option<int>, endDay: Option<int>): (r: seq<Payment>)
    ensures Seqs.Subsequence(r, payments)
    ensures forall p :: p in r <==> p in payments && ChartCounts(p, startDay, endDay)
  {
    Seqs.FilterIsSubsequence(payments, p => ChartCounts(p, startDay, endDay));
    Seqs.Filter(payments, p => ChartCounts(p, startDay, endDay))
  }

  /**
   * Every payment the business chart and table count is also counted by the payments chart,
   * which ignores the search text and accepts 'Approved' as well as 'approved'.
   */
  lemma ChartCoversBusinessPayments(payments: seq<Payment>, search: string, startDay: Option<int>, endDay: Option<int>)
    ensures forall p :: p in Business.ApprovedFiltered(payments, search, startDay, endDay) ==>
              p in ChartPayments(payments, startDay, endDay)
  {
    var filtered := Search.SuperFilterPayments(payments, search, startDay, endDay);
    forall p | p in Business.ApprovedFiltered(payments, search, startDay, endDay)
      ensures p in ChartPayments(payments, startDay, endDay)
    {
      var i :| 0 <= i < |filtered| && filtered[i] == p;
      ApprovedTestsDiffer(p);
      var j :| 0 <= j < |payments| && payments[j] == p;
      assert ChartCounts(payments[j], startDay, endDay);
    }
  }

  datatype PaymentsChart = NoPayments | NoApprovedPayments | PaymentBars(bars: seq<DateBar>)

  /** `{ name, status: r.health === 'ok' ? 1 : 0 }` */
  datatype RouterBar = RouterBar(name: Option<string>, status: int)

  datatype RoutersChart = NoRouters | RouterBars(bars: seq<RouterBar>)

  /** `renderRoutersChart`: one bar per router, in list order, at 1 exactly when its health is 'ok'. */
  function RoutersChartOf(routers: seq<Router>): (c: RoutersChart)
    ensures c.NoRouters? <==> routers == []
    ensures c.RouterBars? ==>
              && |c.bars| == |routers|
              && forall i :: 0 <= i < |routers| ==>
                   && c.bars[i].name == routers[i].name
                   && (c.bars[i].status == 1 <==> routers[i].health == Some("ok"))
                   && (c.bars[i].status == 0 <==> routers[i].health != Some("ok"))
  {
    if routers == [] then NoRouters
    else RouterBars(seq(|routers|, i requires 0 <= i < |routers| =>
                        RouterBar(routers[i].name, if routers[i].health == Some("ok") then 1 else 0)))
  }

  datatype BusinessChartView = NoBusinessData | BusinessBars(bars: seq<Business.BizBar>)

  /** The table under the tabs: the filtered list of the active tab, or the business table. */
  datatype Table =
    | SessionsTable(sessions: seq<Session>)
    | RoutersTable(routers: seq<Router>)
    | PaymentsTable(payments: seq<Payment>)
    | BusinessTotals(rows: seq<Business.Row>, count: nat, shown: seq<Business.Row>, noData: bool)

  class SuperHistory {
    var sessions: seq<Session>
    var routers: seq<Router>
    var payments: seq<Payment>
    var loading: bool
    var minLoadingDone: bool
    var activeTab: HistoryTab
    var search: string
    var startDay: Option<int>   // the 'From' date input; None for ''
    var endDay: Option<int>     // the 'To' date input; None for ''

    /** The `useState` initial values. */
    constructor ()
      ensures sessions == [] && routers == [] && payments == []
      ensures loading && !minLoadingDone
      ensures activeTab == SessionsTab && search == "" && startDay == None && endDay == None
    {
      sessions, routers, payments := [], [], [];
      loading, minLoadingDone := true, false;
      activeTab, search, startDay, endDay := SessionsTab, "", None, None;
    }

    /** The loader screen shows until the data has loaded and the three-second minimum has passed. */
    predicate ShowsLoader()
      reads this
    {
      loading || !minLoadingDone
    }

    /** The three-second timer of the first effect. */
    method MinLoadingElapsed()
      modifies this
      ensures minLoadingDone && (ShowsLoader() <==> loading)
      ensures sessions == old(sessions) && routers == old(routers) && payments == old(payments)
      ensures loading == old(loading) && activeTab == old(activeTab) && search == old(search)
      ensures startDay == old(startDay) && endDay == old(endDay)
    {
      minLoadingDone := true;
    }

    /**
     * `loadData` once its `Promise.all` has settled: each list becomes what was fetched or [],
     * a failure clears all three, and `finally` ends the loading either way.
     */
    method Load(result: ApiResult<Fetched>)
      modifies this
      ensures result.Ok? ==>
                && sessions == OrEmpty(result.value.sessions)
                && routers == OrEmpty(result.value.routers)
                && payments == OrEmpty(result.value.payments)
      ensures result.Fail? ==> sessions == [] && routers == [] && payments == []
      ensures !loading
      ensures minLoadingDone == old(minLoadingDone) && activeTab == old(activeTab) && search == old(search)
      ensures startDay == old(startDay) && endDay == old(endDay)
    {
      loading := true;
      match result {
        case Ok(f) =>
          sessions := OrEmpty(f.sessions);
          routers := OrEmpty(f.routers);
          payments := OrEmpty(f.payments);
        case Fail(_) =>
          sessions, routers, payments := [], [], [];
      }
      loading := false;
    }

    /** The minute interval: `setSessions(prev => prev.map(...))` at `now`. */
    method TickSessions(now: Instant)
      modifies this
      ensures sessions == SessionTime.Tick(old(sessions), now)
      ensures routers == old(routers) && payments == old(payments) && loading == old(loading)
      ensures minLoadingDone == old(minLoadingDone) && activeTab == old(activeTab) && search == old(search)
      ensures startDay == old(startDay) && endDay == old(endDay)
    {
      sessions := SessionTime.Tick(sessions, now);
    }

    /** A tab button, the search box and the two date inputs each replace one field. */
    method SelectTab(tab: HistoryTab)
      modifies this
      ensures activeTab == tab
      ensures sessions == old(sessions) && routers == old(routers) && payments == old(payments)
      ensures loading == old(loading) && minLoadingDone == old(minLoadingDone) && search == old(search)
      ensures startDay == old(startDay) && endDay == old(endDay)
    {
      activeTab := tab;
    }

    method SetSearch(q: string)
      modifies this
      ensures search == q
      ensures sessions == old(sessions) && routers == old(routers) && payments == old(payments)
      ensures loading == old(loading) && minLoadingDone == old(minLoadingDone) && activeTab == old(activeTab)
      ensures startDay == old(startDay) && endDay == old(endDay)
    {
      search := q;
    }

    method SetStartDay(day: Option<int>)
      modifies this
      ensures startDay == day
      ensures sessions == old(sessions) && routers == old(routers) && payments == old(payments)
      ensures loading == old(loading) && minLoadingDone == old(minLoadingDone) && activeTab == old(activeTab)
      ensures search == old(search) && endDay == old(endDay)
    {
      startDay := day;
    }

    method SetEndDay(day: Option<int>)
      modifies this
      ensures endDay == day
      ensures sessions == old(sessions) && routers == old(routers) && payments == old(payments)
      ensures loading == old(loading) && minLoadingDone == old(minLoadingDone) && activeTab == old(activeTab)
      ensures search == old(search) && startDay == old(startDay)
    {
      endDay := day;
    }

    /**
     * `renderPaymentsChart`: "No payments" for an empty list, "No approved payments" when no
     * payment passes the chart's own test, otherwise one bar per date in order of first
     * appearance, together adding up to the counted payments.
     */
    method PaymentsChartView() returns (chart: PaymentsChart)
      ensures chart.NoPayments? <==> payments == []
      ensures chart.NoApprovedPayments? <==> payments != [] && ChartPayments(payments, startDay, endDay) == []
      ensures chart.PaymentBars? ==>
                var counted := ChartPayments(payments, startDay, endDay);
                && |chart.bars| == |Grouping.Groups(counted, DateKey)|
                && (forall i :: 0 <= i < |chart.bars| ==>
                      chart.bars[i].date == Grouping.Groups(counted, DateKey)[i]
                      && chart.bars[i].amount == Grouping.SumFor(counted, DateKey, Amount, chart.bars[i].date))
                && Grouping.Total(chart.bars, BarAmount) == PaymentsTotal(counted)
    {
      if |payments| == 0 {
        return NoPayments;
      }
      var counted := ChartPayments(payments, startDay, endDay);
      var bars := DateBars(counted);
      if |bars| == 0 {
        return NoApprovedPayments;
      }
      return PaymentBars(bars);
    }

    /** `renderBusinessChart`: "No business data" exactly when no approved payment passes the filter. */
    method BusinessChartView() returns (chart: BusinessChartView)
      ensures chart.NoBusinessData? <==> Business.ApprovedFiltered(payments, search, startDay, endDay) == []
      ensures chart.BusinessBars? ==>
                var approved := Business.ApprovedFiltered(payments, search, startDay, endDay);
                && multiset(chart.bars) == multiset(Business.BusinessEntries(approved))
                && Ranking.SortedDesc(chart.bars, Business.BarTotal)
                && Grouping.Total(chart.bars, Business.BarTotal) == PaymentsTotal(approved)
    {
      var bars := Business.BusinessChart(payments, search, startDay, endDay);
      if |bars| == 0 {
        return NoBusinessData;
      }
      return BusinessBars(bars);
    }

    /** `renderSessionChart` at `now`. */
    method SessionChartView(now: Instant) returns (chart: SessionTime.SessionChart)
      ensures chart.NoActiveSessions? <==> forall s :: s in sessions ==> s.ended
      ensures chart.Lines? ==>
                var active := SessionTime.ActiveSessions(sessions);
                && |chart.points| == Max0(SessionTime.CeilHours(SessionTime.MaxRemaining(active, now)) + 1)
                && forall i :: 0 <= i < |chart.points| ==>
                     chart.points[i] == SessionTime.ChartPoint(i, SessionTime.PointValues(active, now, i))
    {
      chart := SessionTime.SessionChartPoints(sessions, now);
    }

    /** `renderTable`: the active tab's list through `filterData`, or the business table. */
    method TableView(now: Instant) returns (table: Table)
      ensures activeTab == SessionsTab ==> table == SessionsTable(Search.SuperFilterSessions(sessions, search))
      ensures activeTab == RoutersTab ==> table == RoutersTable(Search.SuperFilterRouters(routers, search))
      ensures activeTab == PaymentsTab ==>
                table == PaymentsTable(Search.SuperFilterPayments(payments, search, startDay, endDay))
      ensures activeTab == BusinessTab ==>
                var approved := Business.ApprovedFiltered(payments, search, startDay, endDay);
                var order := Grouping.Groups(Business.AllKeys(approved, sessions, routers), Business.Id);
                && table.BusinessTotals?
                && |table.rows| == table.count == |order|
                && (forall i :: 0 <= i < |table.rows| ==>
                      && table.rows[i].totals == Windows(Grouping.Members(approved, Business.PaymentKey, order[i]), now)
                      && table.rows[i].sessions == |Grouping.Members(sessions, Business.SessionKey, order[i])|
                      && table.rows[i].routers == |Business.RouterIds(routers, order[i])|
                      && Business.NameOK(approved, sessions, routers, order[i], table.rows[i].business))
                && (table.noData <==> approved == [] && sessions == [] && routers == [])
                && Seqs.Subsequence(table.shown, table.rows)
                && (forall i :: 0 <= i < |table.shown| ==> Business.RowMatches(table.shown[i], search))
                && (forall i :: 0 <= i < |table.rows| && Business.RowMatches(table.rows[i], search) ==>
                      table.rows[i] in table.shown)
    {
      match activeTab {
        case SessionsTab => table := SessionsTable(Search.SuperFilterSessions(sessions, search));
        case RoutersTab => table := RoutersTable(Search.SuperFilterRouters(routers, search));
        case PaymentsTab => table := PaymentsTable(Search.SuperFilterPayments(payments, search, startDay, endDay));
        case BusinessTab =>
          var rows, count, shown, noData := Business.BusinessTable(payments, sessions, routers, search, startDay, endDay, now);
          table := BusinessTotals(rows, count, shown, noData);
      }
    }
  }
}
