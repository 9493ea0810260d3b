/**
 * Remaining session time: the minute tick of the two history pages
 * (`remainingHours = max(0, end_time - now)` on every session the server has not ended),
 * how that time is shown, and the points of the "Active Sessions Evolution" chart.
 * Hours are kept as milliseconds; only the rounding rules are computed in whole hours.
 */
module SessionTime {
  import opened Common
  import opened Calendar
  import opened Records
  import Seqs

  /** `Math.max(0, end_time - now)`, in milliseconds. */
  function Remaining(s: Session, now: Instant): (r: nat)
    ensures r == 0 <==> now >= s.endTime
    ensures r > 0 ==> r == s.endTime - now
  {
    Max0(s.endTime - now)
  }

  /** One session through the tick's `map` callback. */
  function TickSession(s: Session, now: Instant): Session
  {
    if !s.ended then s.(remainingMs := Some(Remaining(s, now))) else s
  }

  /** `prev.map(...)`: the session list after one minute tick at `now`. */
  function Tick(sessions: seq<Session>, now: Instant): (r: seq<Session>)
    ensures |r| == |sessions|
    ensures forall i :: 0 <= i < |r| ==> r[i].ended == sessions[i].ended
    ensures forall i :: 0 <= i < |r| && sessions[i].ended ==> r[i] == sessions[i]
    ensures forall i :: 0 <= i < |r| && !sessions[i].ended ==>
              && r[i] == sessions[i].(remainingMs := r[i].remainingMs)
              && r[i].remainingMs == Some(Remaining(sessions[i], now))
              && r[i].remainingMs.value >= 0
              && (r[i].remainingMs.value == 0 <==> now >= sessions[i].endTime)
  {
    seq(|sessions|, i requires 0 <= i < |sessions| => TickSession(sessions[i], now))
  }

  /** Ticking twice at the same instant is ticking once: nothing accumulates. */
  lemma TickIdempotent(sessions: seq<Session>, now: Instant)
    ensures Tick(Tick(sessions, now), now) == Tick(sessions, now)
  {
    var once := Tick(sessions, now);
    assert forall i :: 0 <= i < |once| ==> TickSession(once[i], now) == once[i];
  }

  /** A later tick never shows more remaining time for the same session. */
  lemma TickMonotone(sessions: seq<Session>, earlier: Instant, later: Instant, i: int)
    requires earlier <= later && 0 <= i < |sessions| && !sessions[i].ended
    ensures Tick(sessions, later)[i].remainingMs.value <= Tick(sessions, earlier)[i].remainingMs.value
  {
  }

  /** What the "Remaining" cell of a history table shows. */
  datatype HistoryCell =
    | EndedCell            // 'Ended'
    | HoursCell(ms: int)   // remainingHours.toFixed(2) + 'h'
    | UndefinedHoursCell   // 'undefinedh': a live session before the first tick

  /** `s.ended ? 'Ended' : s.remainingHours?.toFixed(2) + 'h'` */
  function HistoryRemainingCell(s: Session): (c: HistoryCell)
    ensures c.EndedCell? <==> s.ended
    ensures c.UndefinedHoursCell? <==> !s.ended && s.remainingMs.None?
  {
    if s.ended then EndedCell
    else match s.remainingMs
      case None => UndefinedHoursCell
      case Some(ms) => HoursCell(ms)
  }

  /** After a tick no cell reads "undefinedh": each live session shows its time left at that tick. */
  lemma TickedCells(sessions: seq<Session>, now: Instant, i: int)
    requires 0 <= i < |sessions|
    ensures HistoryRemainingCell(Tick(sessions, now)[i])
            == if sessions[i].ended then EndedCell else HoursCell(Remaining(sessions[i], now))
  {
  }

  /**
   * The tick never ends a session: one past its end time that the server has not ended
   * shows "0.00h", not 'Ended'.
   */
  lemma ExpiredSessionShowsZeroHours(sessions: seq<Session>, now: Instant, i: int)
    requires 0 <= i < |sessions| && !sessions[i].ended && now >= sessions[i].endTime
    ensures Tick(sessions, now)[i].ended == false
    ensures HistoryRemainingCell(Tick(sessions, now)[i]) == HoursCell(0)
  {
  }

  /** `Math.round(ms / 3600000)`: the nearest whole hour, halves rounded up. */
  function RoundHours(ms: int): (r: int)
    ensures 2 * r * HourMs - HourMs <= 2 * ms < 2 * r * HourMs + HourMs
  {
    (2 * ms + HourMs) / (2 * HourMs)
  }

  /** `Math.ceil(ms / 3600000)` */
  function CeilHours(ms: int): (r: int)
    ensures (r - 1) * HourMs < ms <= r * HourMs
  {
    -((-ms) / HourMs)
  }

  /** Rounding is determined by the characterisation in RoundHours' contract, so shifting by an hour shifts the result by one. */
  lemma RoundHoursShift(ms: int, k: int)
    ensures RoundHours(ms - k * HourMs) == RoundHours(ms) - k
  {
    var a, b := RoundHours(ms - k * HourMs), RoundHours(ms);
    assert 2 * a * HourMs - HourMs <= 2 * (ms - k * HourMs) < 2 * a * HourMs + HourMs;
    assert 2 * b * HourMs - HourMs <= 2 * ms < 2 * b * HourMs + HourMs;
    assert (a + k - b) * (2 * HourMs) < 2 * HourMs;
    assert (b - a - k) * (2 * HourMs) < 2 * HourMs;
  }

  /** What the Sessions page shows in its "Remaining" column. */
  datatype SessionsPageCell = EndedLabel | HoursLabel(hours: nat)

  /** `s.ended ? 'Ended' : Math.max(0, Math.round((end_time - now) / 3600000)) + 'h'` */
  function SessionsPageRemaining(s: Session, now: Instant): (r: SessionsPageCell)
    ensures s.ended <==> r.EndedLabel?
    ensures r.HoursLabel? && now >= s.endTime ==> r.hours == 0
    ensures r.HoursLabel? && r.hours > 0 ==>
              2 * r.hours * HourMs - HourMs <= 2 * (s.endTime - now) < 2 * r.hours * HourMs + HourMs
    ensures r.HoursLabel? && r.hours == 0 ==> 2 * (s.endTime - now) < HourMs
  {
    if s.ended then EndedLabel else HoursLabel(Max0(RoundHours(s.endTime - now)))
  }

  /** Half an hour left displays as 1h; a millisecond less displays as 0h. */
  lemma HalfHourRoundsUp(s: Session, now: Instant)
    requires !s.ended
    ensures s.endTime - now == HourMs / 2 ==> SessionsPageRemaining(s, now) == HoursLabel(1)
    ensures s.endTime - now == HourMs / 2 - 1 ==> SessionsPageRemaining(s, now) == HoursLabel(0)
  {
  }

  /**
   * The server flag alone decides whether Extend and Terminate are offered: exactly when the
   * remaining column shows hours, whatever the time.
   */
  function ActionsOffered(s: Session): (offered: bool)
    ensures forall now :: offered <==> SessionsPageRemaining(s, now).HoursLabel?
  {
    !s.ended
  }

  /** `activeSessions = sessions.filter(s => !s.ended)` */
  function ActiveSessions(sessions: seq<Session>): (r: seq<Session>)
    ensures forall i :: 0 <= i < |r| ==> !r[i].ended
  {
    Seqs.Filter(sessions, (s: Session) => !s.ended)
  }

  /** `Math.max(0, Math.round((end_time - now) / 3600000 - hour))`: a session's line at an hour of the chart. */
  function PointValue(s: Session, now: Instant, hour: int): (v: nat)
    ensures v == Max0(RoundHours(s.endTime - now) - hour)
  {
    RoundHoursShift(s.endTime - now, hour);
    Max0(RoundHours(s.endTime - now - hour * HourMs))
  }

  /** `point[s.phone] = remaining` for each active session in turn: a later session with the same phone overwrites. */
  function PointValues(active: seq<Session>, now: Instant, hour: int): map<Option<string>, int>
  {
    if active == [] then map[]
    else
      var last := active[|active| - 1];
      PointValues(active[..|active| - 1], now, hour)[last.phone := PointValue(last, now, hour)]
  }

  /** Every active phone has a value at every hour, the value is never negative and never grows with the hour. */
  lemma {:induction false} PointValuesNonIncreasing(active: seq<Session>, now: Instant, hour: int)
    ensures PointValues(active, now, hour).Keys == PointValues(active, now, hour + 1).Keys
    ensures forall k :: k in PointValues(active, now, hour) <==> exists s :: s in active && s.phone == k
    ensures forall k :: k in PointValues(active, now, hour) ==>
              0 <= PointValues(active, now, hour + 1)[k] <= PointValues(active, now, hour)[k]
  {
    if active != [] {
      var init := active[..|active| - 1];
      PointValuesNonIncreasing(init, now, hour);
      assert active == init + [active[|active| - 1]];
    }
  }

  /** `Math.max(...activeSessions.map(s => end_time - now))` */
  function MaxRemaining(active: seq<Session>, now: Instant): (m: int)
    requires active != []
    ensures forall s :: s in active ==> s.endTime - now <= m
    ensures exists s :: s in active && s.endTime - now == m
  {
    var rest := active[1..];
    if rest == [] then active[0].endTime - now
    else
      var m := MaxRemaining(rest, now);
      assert forall s :: s in active ==> s == active[0] || s in rest;
      if active[0].endTime - now >= m then active[0].endTime - now else m
  }

  /** One point of the chart: `{ hour: i, [phone]: remaining, ... }`. */
  datatype ChartPoint = ChartPoint(hour: int, values: map<Option<string>, int>)

  datatype SessionChart = NoActiveSessions | Lines(points: seq<ChartPoint>)

  /** The inner `forEach`: the values of one point. */
  method PointAt(active: seq<Session>, now: Instant, hour: int) returns (values: map<Option<string>, int>)
    ensures values == PointValues(active, now, hour)
  {
    values := map[];
    var j := 0;
    while j < |active|
      invariant 0 <= j <= |active|
      invariant values == PointValues(active[..j], now, hour)
    {
      assert active[..j + 1][..j] == active[..j];
      values := values[active[j].phone := PointValue(active[j], now, hour)];
      j := j + 1;
    }
    assert active[..|active|] == active;
  }

  lemma NoActiveSessionsMeansAllEnded(sessions: seq<Session>)
    ensures ActiveSessions(sessions) == [] <==> forall s :: s in sessions ==> s.ended
  {
    if ActiveSessions(sessions) == [] {
      forall s | s in sessions ensures s.ended {
        var i :| 0 <= i < |sessions| && sessions[i] == s;
      }
    } else {
      assert ActiveSessions(sessions)[0] in sessions;
    }
  }

  /**
   * `renderSessionChart`: one point per hour from 0 to `Math.ceil(maxHours)` inclusive,
   * built by a `for` loop with an inner `forEach`.
   */
  method SessionChartPoints(sessions: seq<Session>, now: Instant) returns (chart: SessionChart)
    ensures chart.NoActiveSessions? <==> forall s :: s in sessions ==> s.ended
    ensures chart.Lines? ==>
              var active := ActiveSessions(sessions);
              && |chart.points| == Max0(CeilHours(MaxRemaining(active, now)) + 1)
              && forall i :: 0 <= i < |chart.points| ==>
                   chart.points[i] == ChartPoint(i, PointValues(active, now, i))
  {
    var active := ActiveSessions(sessions);
    NoActiveSessionsMeansAllEnded(sessions);
    if |active| == 0 {
      return NoActiveSessions;
    }
    var maxHours := CeilHours(MaxRemaining(active, now));
    ghost var count := Max0(maxHours + 1);
    var points: seq<ChartPoint> := [];
    var hour := 0;
    while hour <= maxHours
      invariant 0 <= hour <= count
      invariant |points| == hour
      invariant forall i :: 0 <= i < hour ==> points[i] == ChartPoint(i, PointValues(active, now, i))
      decreases maxHours - hour
    {
      var values := PointAt(active, now, hour);
      points := points + [ChartPoint(hour, values)];
      hour := hour + 1;
    }
    assert |points| == count;
    chart := Lines(points);
  }
}
