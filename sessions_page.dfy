/**
 * The sessions page (`SessionsPage`): routers then sessions loaded on mount, an eight-second
 * refresh of the sessions, and Extend/Terminate on each session the server has not ended.
 */
module SessionsPageModel {
  import opened Common
  import opened Calendar
  import opened Records
  import opened SessionTime

  /** What a button sends to the API. */
  datatype SessionRequest = ExtendRequest(sessionId: int, hours: int) | TerminateRequest(sessionId: int)

  /** One table row: the "Remaining" cell and which buttons it carries. */
  datatype SessionRow = SessionRow(remaining: SessionsPageCell, extend: bool, terminate: bool)

  /**
   * A row at `now`: 'Ended' and no button for an ended session; otherwise whole hours and both
   * buttons, even once the end time has passed (then showing 0h).
   */
  function RowOf(s: Session, now: Instant): (r: SessionRow)
    ensures r.remaining.EndedLabel? <==> s.ended
    ensures r.extend <==> !s.ended
    ensures r.terminate <==> !s.ended
    ensures !s.ended && now >= s.endTime ==> r.extend && r.terminate && r.remaining == HoursLabel(0)
  {
    var offered := ActionsOffered(s);
    SessionRow(SessionsPageRemaining(s, now), offered, offered)
  }

  class SessionsPage {
    var sessions: seq<Session>
    var routers: seq<Router>
    var loading: bool

    constructor ()
      ensures sessions == [] && routers == [] && loading
    {
      sessions, routers, loading := [], [], true;
    }

    /** The yellow "Aucun router configuré" warning. */
    predicate ShowsNoRouterWarning()
      reads this
    {
      |routers| == 0
    }

    /**
     * The mount effect's `init`: routers (`r || []`), then sessions, then the end of loading.
     * A call that throws stops `init` where it is, and the page keeps loading.
     */
    method Init(routersResult: ApiResult<Option<seq<Router>>>, sessionsResult: ApiResult<seq<Session>>)
      modifies this
      ensures routersResult.Ok? ==> routers == OrEmpty(routersResult.value)
      ensures routersResult.Fail? ==> routers == old(routers)
      ensures routersResult.Ok? && sessionsResult.Ok? ==> sessions == sessionsResult.value && !loading
      ensures routersResult.Fail? || sessionsResult.Fail? ==> sessions == old(sessions) && loading == old(loading)
      ensures routersResult == Ok(None) ==> ShowsNoRouterWarning()
    {
      if routersResult.Fail? {
        return;
      }
      routers := OrEmpty(routersResult.value);
      if sessionsResult.Fail? {
        return;
      }
      sessions := sessionsResult.value;
      loading := false;
    }

    /** `loadSessions`: the eight-second refresh, and the reload after a button. */
    method LoadSessions(sessionsResult: ApiResult<seq<Session>>)
      modifies this
      ensures sessionsResult.Ok? ==> sessions == sessionsResult.value
      ensures sessionsResult.Fail? ==> sessions == old(sessions)
      ensures routers == old(routers) && loading == old(loading)
    {
      if sessionsResult.Ok? {
        sessions := sessionsResult.value;
      }
    }

    /** `extend(id)`: always asks for exactly one more hour, and reloads the list once the call succeeds. */
    method Extend(id: int, call: ApiResult<()>, reload: ApiResult<seq<Session>>) returns (request: SessionRequest)
      modifies this
      ensures request == ExtendRequest(id, 1)
      ensures call.Ok? && reload.Ok? ==> sessions == reload.value
      ensures call.Fail? || reload.Fail? ==> sessions == old(sessions)
      ensures routers == old(routers) && loading == old(loading)
    {
      request := ExtendRequest(id, 1);
      if call.Ok? {
        LoadSessions(reload);
      }
    }

    /** `terminate(id)`: ends the session server-side, and reloads the list once the call succeeds. */
    method Terminate(id: int, call: ApiResult<()>, reload: ApiResult<seq<Session>>) returns (request: SessionRequest)
      modifies this
      ensures request == TerminateRequest(id)
      ensures call.Ok? && reload.Ok? ==> sessions == reload.value
      ensures call.Fail? || reload.Fail? ==> sessions == old(sessions)
      ensures routers == old(routers) && loading == old(loading)
    {
      request := TerminateRequest(id);
      if call.Ok? {
        LoadSessions(reload);
      }
    }
  }
}
