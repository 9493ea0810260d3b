/**
 * The business owner's history page (`OwnerHistory` in OwnerActivity.jsx): the same state and
 * tick as the super-admin page, but one tab-keyed filter, a lower date bound only, exact
 * 'approved' matching, and a revenue and session summary above the table.
 */
module OwnerActivityPage {
  import opened Common
  import opened Calendar
  import opened Records
  import opened Revenue
  import Seqs
  import Grouping
  import Search
  import SessionTime
  import SuperHistoryPage

  /** The approved payments the summary and the chart count: the tab's filter, then `status === 'approved'`. */
  function OwnerApproved(tab: Search.Tab, payments: seq<Payment>, search: string, dateDay: Option<int>): (r: seq<Payment>)
    ensures Seqs.Subsequence(r, Search.OwnerFilterPayments(tab, payments, search, dateDay))
    ensures forall p :: p in r <==> p in Search.OwnerFilterPayments(tab, payments, search, dateDay) && ApprovedExact(p)
    ensures forall p :: p in r ==> p in payments
  {
    var filtered := Search.OwnerFilterPayments(tab, payments, search, dateDay);
    Seqs.FilterIsSubsequence(filtered, ApprovedExact);
    Seqs.Filter(filtered, ApprovedExact)
  }

  /** `sessions.filter(s => s.ended)` */
  function InactiveSessions(sessions: seq<Session>): (r: seq<Session>)
    ensures forall i :: 0 <= i < |r| ==> r[i].ended
  {
    Seqs.Filter(sessions, (s: Session) => s.ended)
  }

  /** Active and inactive split the whole, unfiltered session list. */
  lemma ActiveInactivePartition(sessions: seq<Session>)
    ensures |SessionTime.ActiveSessions(sessions)| + |InactiveSessions(sessions)| == |sessions|
  {
    Seqs.FilterPartition(sessions, (s: Session) => !s.ended, (s: Session) => s.ended);
  }

  /** The line above the table: the four revenue windows, and the active and inactive counts. */
  datatype Summary = Summary(revenue: WindowTotals, active: nat, inactive: nat)

  datatype PaymentsChart = NoPayments | PaymentBars(bars: seq<DateBar>)

  datatype Table =
    | SessionsTable(sessions: seq<Session>)
    | RoutersTable(routers: seq<Router>)
    | PaymentsTable(payments: seq<Payment>)

  class OwnerActivity {
    var sessions: seq<Session>
    var routers: seq<Router>
    var payments: seq<Payment>
    var loading: bool
    var minLoadingDone: bool
    var activeTab: Search.Tab
    var search: string
    var dateDay: Option<int>   // `paymentDateFilter`; None for ''

    constructor ()
      ensures sessions == [] && routers == [] && payments == []
      ensures loading && !minLoadingDone
      ensures activeTab == Search.SessionsTab && search == "" && dateDay == None
    {
      sessions, routers, payments := [], [], [];
      loading, minLoadingDone := true, false;
      activeTab, search, dateDay := Search.SessionsTab, "", None;
    }

    predicate ShowsLoader()
      reads this
    {
      loading || !minLoadingDone
    }

    /** The one-second timer of the first effect. */
    method MinLoadingElapsed()
      modifies this
      ensures minLoadingDone && (ShowsLoader() <==> loading)
      ensures sessions == old(sessions) && routers == old(routers) && payments == old(payments)
      ensures loading == old(loading) && activeTab == old(activeTab) && search == old(search) && dateDay == old(dateDay)
    {
      minLoadingDone := true;
    }

    /** `loadData` once settled: each list is what was fetched or [], a failure clears all three. */
    method Load(result: ApiResult<SuperHistoryPage.Fetched>)
      modifies this
      ensures result.Ok? ==>
                && sessions == OrEmpty(result.value.sessions)
                && routers == OrEmpty(result.value.routers)
                && payments == OrEmpty(result.value.payments)
      ensures result.Fail? ==> sessions == [] && routers == [] && payments == []
      ensures !loading
      ensures minLoadingDone == old(minLoadingDone) && activeTab == old(activeTab)
      ensures search == old(search) && dateDay == old(dateDay)
    {
      loading := true;
      match result {
        case Ok(f) =>
          sessions := OrEmpty(f.sessions);
          routers := OrEmpty(f.routers);
          payments := OrEmpty(f.payments);
        case Fail(_) =>
          sessions, routers, payments := [], [], [];
      }
      loading := false;
    }

    /** The minute interval at `now`. */
    method TickSessions(now: Instant)
      modifies this
      ensures sessions == SessionTime.Tick(old(sessions), now)
      ensures routers == old(routers) && payments == old(payments) && loading == old(loading)
      ensures minLoadingDone == old(minLoadingDone) && activeTab == old(activeTab)
      ensures search == old(search) && dateDay == old(dateDay)
    {
      sessions := SessionTime.Tick(sessions, now);
    }

    method SelectTab(tab: Search.Tab)
      modifies this
      ensures activeTab == tab
      ensures sessions == old(sessions) && routers == old(routers) && payments == old(payments)
      ensures loading == old(loading) && minLoadingDone == old(minLoadingDone)
      ensures search == old(search) && dateDay == old(dateDay)
    {
      activeTab := tab;
    }

    method SetSearch(q: string)
      modifies this
      ensures search == q
      ensures sessions == old(sessions) && routers == old(routers) && payments == old(payments)
      ensures loading == old(loading) && minLoadingDone == old(minLoadingDone)
      ensures activeTab == old(activeTab) && dateDay == old(dateDay)
    {
      search := q;
    }

    method SetDate(day: Option<int>)
      modifies this
      ensures dateDay == day
      ensures sessions == old(sessions) && routers == old(routers) && payments == old(payments)
      ensures loading == old(loading) && minLoadingDone == old(minLoadingDone)
      ensures activeTab == old(activeTab) && search == old(search)
    {
      dateDay := day;
    }

    /**
     * The summary of `renderTable` at `now`: revenue windows over the approved payments that pass
     * the active tab's filter, and active/inactive counts over all sessions, which add up to them.
     */
    method SummaryView(now: Instant) returns (summary: Summary)
      ensures summary.revenue == Windows(OwnerApproved(activeTab, payments, search, dateDay), now)
      ensures summary.active == |SessionTime.ActiveSessions(sessions)|
      ensures summary.inactive == |InactiveSessions(sessions)|
      ensures summary.active + summary.inactive == |sessions|
    {
      var approved := OwnerApproved(activeTab, payments, search, dateDay);
      var active := SessionTime.ActiveSessions(sessions);
      var inactive := InactiveSessions(sessions);
      ActiveInactivePartition(sessions);
      summary := Summary(Windows(approved, now), |active|, |inactive|);
    }

    /**
     * `renderPaymentsChart`: "No payments" only for an empty list; otherwise one bar per date of
     * the approved filtered payments, in order of first appearance, adding up to their total
     * (possibly no bar at all: there is no "no approved payments" message here).
     */
    method PaymentsChartView() returns (chart: PaymentsChart)
      ensures chart.NoPayments? <==> payments == []
      ensures chart.PaymentBars? ==>
                var counted := OwnerApproved(activeTab, payments, search, dateDay);
                && |chart.bars| == |Grouping.Groups(counted, DateKey)|
                && (forall i :: 0 <= i < |chart.bars| ==>
                      chart.bars[i].date == Grouping.Groups(counted, DateKey)[i]
                      && chart.bars[i].amount == Grouping.SumFor(counted, DateKey, Amount, chart.bars[i].date))
                && Grouping.Total(chart.bars, BarAmount) == PaymentsTotal(counted)
    {
      if |payments| == 0 {
        return NoPayments;
      }
      var bars := DateBars(OwnerApproved(activeTab, payments, search, dateDay));
      return PaymentBars(bars);
    }

    /** `renderTable`'s list: the active tab's records through the active tab's filter. */
    method TableView() returns (table: Table)
      ensures activeTab == Search.SessionsTab ==>
                table == SessionsTable(Search.OwnerFilterSessions(activeTab, sessions, search, dateDay))
      ensures activeTab == Search.RoutersTab ==>
                table == RoutersTable(Search.OwnerFilterRouters(activeTab, routers, search, dateDay))
      ensures activeTab == Search.PaymentsTab ==>
                table == PaymentsTable(Search.OwnerFilterPayments(activeTab, payments, search, dateDay))
    {
      match activeTab {
        case SessionsTab => table := SessionsTable(Search.OwnerFilterSessions(activeTab, sessions, search, dateDay));
        case RoutersTab => table := RoutersTable(Search.OwnerFilterRouters(activeTab, routers, search, dateDay));
        case PaymentsTab => table := PaymentsTable(Search.OwnerFilterPayments(activeTab, payments, search, dateDay));
      }
    }

    /** `renderSessionChart` at `now`. */
    method SessionChartView(now: Instant) returns (chart: SessionTime.SessionChart)
      ensures chart.NoActiveSessions? <==> forall s :: s in sessions ==> s.ended
      ensures chart.Lines? ==>
                var active := SessionTime.ActiveSessions(sessions);
                && |chart.points| == Max0(SessionTime.CeilHours(SessionTime.MaxRemaining(active, now)) + 1)
                && forall i :: 0 <= i < |chart.points| ==>
                     chart.points[i] == SessionTime.ChartPoint(i, SessionTime.PointValues(active, now, i))
    {
      chart := SessionTime.SessionChartPoints(sessions, now);
    }
  }

  /** The owner's revenue counts exact 'approved' only: a payment with status 'Approved' is left out. */
  lemma CapitalisedApprovedNotCounted(tab: Search.Tab, payments: seq<Payment>, search: string, dateDay: Option<int>, p: Payment)
    requires p.status == Some("Approved")
    ensures p !in OwnerApproved(tab, payments, search, dateDay)
  {
  }
}
