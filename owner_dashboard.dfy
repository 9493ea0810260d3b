/** The business owner's dashboard (`OwnerDashboard`): its routers and its four figures. */
module OwnerDashboardModel {
  import opened Common
  import opened Records

  /** The body of `api.getOwnerStats`. */
  datatype Stats = Stats(revenueToday: int, revenueThisMonth: int, activeSessions: int, pendingPayments: int)

  /** The figures set when there is nothing to show or the load failed. */
  const ZeroStats := Stats(0, 0, 0, 0)

  /** A stats card's value: the figure, or '—' while `stats` is null. */
  datatype CardValue = Figure(n: int) | Dash

  class OwnerDashboard {
    var stats: Option<Stats>
    var routers: seq<Router>
    var loading: bool

    constructor ()
      ensures stats == None && routers == [] && loading
    {
      stats, routers, loading := None, [], true;
    }

    /**
     * `loadData`, given the outcome of `api.getMyRouters` and of `api.getOwnerStats` (whose body
     * may be null). The stats are requested only for an owner with routers; returns whether
     * they were.
     */
    method LoadData(routersResult: ApiResult<Option<seq<Router>>>, statsResult: ApiResult<Option<Stats>>)
      returns (statsRequested: bool)
      modifies this
      ensures !loading
      ensures statsRequested <==> routersResult.Ok? && OrEmpty(routersResult.value) != []
      ensures routersResult.Fail? ==> routers == [] && stats == Some(ZeroStats)
      ensures routersResult.Ok? && OrEmpty(routersResult.value) == [] ==> routers == [] && stats == Some(ZeroStats)
      ensures statsRequested && statsResult.Ok? ==>
                routers == OrEmpty(routersResult.value) && stats == statsResult.value
      ensures statsRequested && statsResult.Fail? ==> routers == [] && stats == Some(ZeroStats)
      // Without routers the figures are zero, never the server's.
      ensures routers == [] ==> stats == Some(ZeroStats)
    {
      loading := true;
      statsRequested := false;
      if routersResult.Fail? {
        stats := Some(ZeroStats);
        routers := [];
        loading := false;
        return;
      }
      routers := OrEmpty(routersResult.value);
      if routers == [] {
        stats := Some(ZeroStats);
      } else {
        statsRequested := true;
        if statsResult.Ok? {
          stats := statsResult.value;
        } else {
          stats := Some(ZeroStats);
          routers := [];
        }
      }
      loading := false;
    }

    /** `routers.length === 0`: the single "add a router" notice. */
    predicate NoRouters()
      reads this
    {
      routers == []
    }

    /** The four cards, in order: today, this month, active sessions, pending payments. */
    function Cards(): (cards: seq<CardValue>)
      reads this
      ensures |cards| == 4
      ensures stats.None? <==> forall i :: 0 <= i < 4 ==> cards[i] == Dash
      ensures stats.Some? ==> cards == [Figure(stats.value.revenueToday), Figure(stats.value.revenueThisMonth),
                                        Figure(stats.value.activeSessions), Figure(stats.value.pendingPayments)]
    {
      match stats
      case None => [Dash, Dash, Dash, Dash]
      case Some(s) =>
        var cards := [Figure(s.revenueToday), Figure(s.revenueThisMonth), Figure(s.activeSessions), Figure(s.pendingPayments)];
        assert cards[0] != Dash;
        cards
    }
  }
}
