/**
 * Revenue over a payments list, as both history pages compute it: which payments count as
 * approved, the day/week/month/year windows around `now`, and the per-date bars of the
 * payments chart. Amounts are whole francs (`Number(p.amount)` of a well-formed amount).
 */
module Revenue {
  import opened Common
  import opened Calendar
  import opened Records
  import opened Text
  import Seqs
  import Grouping

  function Amount(p: Payment): int
  {
    p.amount
  }

  /** `.reduce((sum, p) => sum + Number(p.amount), 0)` */
  function PaymentsTotal(ps: seq<Payment>): int
  {
    Grouping.Total(ps, Amount)
  }

  /** Every amount is zero or more. */
  predicate NonNegative(ps: seq<Payment>)
  {
    forall i :: 0 <= i < |ps| ==> ps[i].amount >= 0
  }

  /** `p.status === 'approved'` (the business chart, the business table, OwnerActivity). */
  predicate ApprovedExact(p: Payment)
    ensures ApprovedExact(p) ==> ApprovedIgnoringCase(p)
  {
    assert Lower("approved") == "approved";
    p.status == Some("approved")
  }

  /** `p.status?.toLowerCase() === 'approved'` (the SuperHistory payments chart). */
  predicate ApprovedIgnoringCase(p: Payment)
    ensures ApprovedIgnoringCase(p) <==>
              && p.status.Some? && |p.status.value| == |"approved"|
              && forall i :: 0 <= i < |p.status.value| ==> LowerChar(p.status.value[i]) == "approved"[i]
  {
    p.status.Some? && Lower(p.status.value) == "approved"
  }

  /** The case-insensitive test accepts everything the exact one does, and more. */
  lemma ApprovedTestsDiffer(p: Payment)
    ensures ApprovedExact(p) ==> ApprovedIgnoringCase(p)
    ensures p.status == Some("Approved") ==> ApprovedIgnoringCase(p) && !ApprovedExact(p)
  {
    if p.status == Some("Approved") {
      assert Lower("Approved")[0] == 'a';
      assert Lower("Approved") == "approved";
    }
    if ApprovedExact(p) {
      assert Lower("approved") == "approved";
    }
  }

  // ---------------------------------------------------------------------------------
  // The windows around `now`.

  /** `new Date(p.created_at).toDateString() === now.toDateString()`: the same local day. */
  predicate InDay(p: Payment, now: Instant)
    ensures InDay(p, now) <==> now - MsOfDay(now) <= p.createdAt < now - MsOfDay(now) + DayMs
  {
    DayNumber(p.createdAt) == DayNumber(now)
  }

  /** `new Date(p.created_at) >= startWeek`: no upper bound. */
  predicate InWeek(p: Payment, now: Instant)
    ensures InWeek(p, now) <==> p.createdAt >= now - Weekday(now) * DayMs
  {
    p.createdAt >= WeekStart(now)
  }

  /** Same `getMonth()` and same `getFullYear()`. */
  predicate InMonth(p: Payment, now: Instant)
    ensures InDay(p, now) ==> InMonth(p, now)
  {
    DateOf(p.createdAt).month == DateOf(now).month && DateOf(p.createdAt).year == DateOf(now).year
  }

  /** Same `getFullYear()`. */
  predicate InYear(p: Payment, now: Instant)
    ensures InMonth(p, now) ==> InYear(p, now)
  {
    DateOf(p.createdAt).year == DateOf(now).year
  }

  function DayPayments(ps: seq<Payment>, now: Instant): seq<Payment>
  {
    Seqs.Filter(ps, p => InDay(p, now))
  }

  function WeekPayments(ps: seq<Payment>, now: Instant): seq<Payment>
  {
    Seqs.Filter(ps, p => InWeek(p, now))
  }

  function MonthPayments(ps: seq<Payment>, now: Instant): seq<Payment>
  {
    Seqs.Filter(ps, p => InMonth(p, now))
  }

  function YearPayments(ps: seq<Payment>, now: Instant): seq<Payment>
  {
    Seqs.Filter(ps, p => InYear(p, now))
  }

  /** The four sums shown for one list of payments: today, this week, this month, this year. */
  datatype WindowTotals = WindowTotals(day: int, week: int, month: int, year: int)

  /**
   * The four sums over the same list. With non-negative amounts they are ordered as the windows
   * nest (today within this month within this year), and none exceeds the list's total.
   */
  function Windows(ps: seq<Payment>, now: Instant): (w: WindowTotals)
    ensures NonNegative(ps) ==> 0 <= w.day <= w.month <= w.year <= PaymentsTotal(ps) && 0 <= w.week <= PaymentsTotal(ps)
  {
    WindowSumsOrdered(ps, now);
    WindowTotals(PaymentsTotal(DayPayments(ps, now)), PaymentsTotal(WeekPayments(ps, now)),
                 PaymentsTotal(MonthPayments(ps, now)), PaymentsTotal(YearPayments(ps, now)))
  }

  lemma {:induction false} TotalPrepend(x: Payment, s: seq<Payment>)
    ensures PaymentsTotal([x] + s) == x.amount + PaymentsTotal(s)
  {
    Grouping.TotalAppend([x], s, Amount);
    assert [x][..0] == [];
  }

  /** Dropping payments of non-negative amount never raises the sum. */
  lemma {:induction false} FilterTotalAtMost(ps: seq<Payment>, keep: Payment -> bool)
    requires NonNegative(ps)
    ensures 0 <= PaymentsTotal(Seqs.Filter(ps, keep)) <= PaymentsTotal(ps)
  {
    if ps != [] {
      var rest := ps[1..];
      assert NonNegative(rest) by {
        forall i | 0 <= i < |rest| ensures rest[i].amount >= 0 {
          assert rest[i] == ps[i + 1];
        }
      }
      FilterTotalAtMost(rest, keep);
      assert ps == [ps[0]] + rest;
      assert ps[0].amount >= 0;
      TotalPrepend(ps[0], rest);
      var kept := Seqs.Filter(rest, keep);
      if keep(ps[0]) {
        assert Seqs.Filter(ps, keep) == [ps[0]] + kept;
        TotalPrepend(ps[0], kept);
      } else {
        assert Seqs.Filter(ps, keep) == [] + kept == kept;
      }
    }
  }

  /**
   * The payments counted today are among those counted this month, which are among those
   * counted this year; with non-negative amounts the sums are ordered the same way.
   */
  lemma WindowsNested(ps: seq<Payment>, now: Instant)
    ensures forall p :: p in DayPayments(ps, now) ==> p in MonthPayments(ps, now)
    ensures forall p :: p in MonthPayments(ps, now) ==> p in YearPayments(ps, now)
    ensures Seqs.Filter(MonthPayments(ps, now), p => InDay(p, now)) == DayPayments(ps, now)
    ensures Seqs.Filter(YearPayments(ps, now), p => InMonth(p, now)) == MonthPayments(ps, now)
  {
    var day, month, year := p => InDay(p, now), p => InMonth(p, now), p => InYear(p, now);
    Seqs.FilterNested(ps, day, month);
    Seqs.FilterNested(ps, month, year);
  }

  /** With non-negative amounts, each narrower window sums to no more than the wider one around it. */
  lemma WindowSumsOrdered(ps: seq<Payment>, now: Instant)
    ensures NonNegative(ps) ==>
              && 0 <= PaymentsTotal(DayPayments(ps, now)) <= PaymentsTotal(MonthPayments(ps, now))
              && PaymentsTotal(MonthPayments(ps, now)) <= PaymentsTotal(YearPayments(ps, now)) <= PaymentsTotal(ps)
              && 0 <= PaymentsTotal(WeekPayments(ps, now)) <= PaymentsTotal(ps)
  {
    if NonNegative(ps) {
      var day, month, year := p => InDay(p, now), p => InMonth(p, now), p => InYear(p, now);
      Seqs.FilterNested(ps, day, month);
      Seqs.FilterNested(ps, month, year);
      var m, y := MonthPayments(ps, now), YearPayments(ps, now);
      FilterTotalAtMost(ps, year);
      FilterTotalAtMost(y, month);
      FilterTotalAtMost(m, day);
      FilterTotalAtMost(ps, p => InWeek(p, now));
    }
  }

  /**
   * The week starts at `now` minus `getDay()` days at now's time of day, so a payment made
   * today counts in the week unless today is Sunday and the payment is earlier in the day than now.
   */
  lemma TodayInWeek(p: Payment, now: Instant)
    requires InDay(p, now)
    ensures InWeek(p, now) <==> Weekday(now) > 0 || MsOfDay(p.createdAt) >= MsOfDay(now)
  {
    var d, wd := DayNumber(now), Weekday(now);
    assert p.createdAt == d * DayMs + MsOfDay(p.createdAt);
    assert WeekStart(now) == (d - wd) * DayMs + MsOfDay(now);
  }

  /** The week has no upper bound: anything dated from now on counts, however far ahead. */
  lemma WeekHasNoUpperBound(p: Payment, now: Instant)
    requires p.createdAt >= now
    ensures InWeek(p, now)
  {
  }

  /**
   * So the day total can exceed the week total: on a Sunday at noon, a payment made at 8:00
   * that morning is counted today but not this week.
   */
  lemma DayCanExceedWeek()
    ensures var now := 3 * DayMs + 12 * HourMs;
            var p := Payment(1, None, 500, None, None, None, Some("approved"), 3 * DayMs + 8 * HourMs);
            Weekday(now) == 0 && Windows([p], now).day == 500 && Windows([p], now).week == 0
  {
    var now := 3 * DayMs + 12 * HourMs;
    var p := Payment(1, None, 500, None, None, None, Some("approved"), 3 * DayMs + 8 * HourMs);
    assert DayNumber(now) == 3 && DayNumber(p.createdAt) == 3;
    assert WeekStart(now) == now;
    assert [p][..0] == [];
    assert DayPayments([p], now) == [p];
    assert WeekPayments([p], now) == [];
  }

  // ---------------------------------------------------------------------------------
  // The payments chart: `grouped[toLocaleDateString()] += amount`, then `Object.entries`.

  /** One bar: `{ date, amount }`. */
  datatype DateBar = DateBar(date: Date, amount: int)

  function DateKey(p: Payment): Date
  {
    DateOf(p.createdAt)
  }

  function BarAmount(b: DateBar): int
  {
    b.amount
  }

  /** `Object.entries(grouped).map(([date, amount]) => ({ date, amount }))` */
  method EntriesOf(order: seq<Date>, sums: map<Date, int>) returns (bars: seq<DateBar>)
    requires forall k :: k in order ==> k in sums
    ensures |bars| == |order|
    ensures forall i :: 0 <= i < |bars| ==> bars[i] == DateBar(order[i], sums[order[i]])
  {
    bars := [];
    var i := 0;
    while i < |order|
      invariant 0 <= i <= |order|
      invariant |bars| == i
      invariant forall j :: 0 <= j < i ==> bars[j] == DateBar(order[j], sums[order[j]])
    {
      bars := bars + [DateBar(order[i], sums[order[i]])];
      i := i + 1;
    }
  }

  /** The bars: one per local date in order of first appearance, each the sum of that date's payments. */
  method DateBars(ps: seq<Payment>) returns (bars: seq<DateBar>)
    ensures |bars| == |Grouping.Groups(ps, DateKey)|
    ensures forall i :: 0 <= i < |bars| ==>
              bars[i].date == Grouping.Groups(ps, DateKey)[i]
              && bars[i].amount == Grouping.SumFor(ps, DateKey, Amount, bars[i].date)
    ensures Grouping.Total(bars, BarAmount) == PaymentsTotal(ps)
  {
    var order, _, sums := Grouping.GroupBy(ps, DateKey, DateKey, Amount);
    bars := EntriesOf(order, sums);
    Grouping.TotalOfEntries(bars, BarAmount, order, ps, DateKey, Amount);
    Grouping.GroupSumsConserveTotal(ps, DateKey, Amount);
  }

  /**
   * The bars follow first appearance, not the calendar: a list holding a payment of
   * 1970-01-03 before one of 1970-01-02 charts the 3rd first.
   */
  lemma BarsFollowListOrder()
    ensures var later := Payment(1, None, 100, None, None, None, Some("approved"), 2 * DayMs);
            var earlier := Payment(2, None, 200, None, None, None, Some("approved"), DayMs);
            DateKey(later).day == 3 && DateKey(earlier).day == 2
            && Grouping.Groups([later, earlier], DateKey) == [DateKey(later), DateKey(earlier)]
  {
    var later := Payment(1, None, 100, None, None, None, Some("approved"), 2 * DayMs);
    var earlier := Payment(2, None, 200, None, None, None, Some("approved"), DayMs);
    assert DayNumber(DayMs) == 1 && DayNumber(2 * DayMs) == 2;
    assert 719469 / 146097 == 4;
    assert 135081 / 1460 == 92 && 135081 / 36524 == 3 && 135081 / 146096 == 0;
    assert 134992 / 365 == 369;
    assert 369 / 4 == 92 && 369 / 100 == 3;
    assert 1537 / 153 == 10 && 1532 / 5 == 306;
    assert 719470 / 146097 == 4;
    assert 135082 / 1460 == 92 && 135082 / 36524 == 3 && 135082 / 146096 == 0;
    assert 134993 / 365 == 369;
    assert 1542 / 153 == 10;
    assert [later, earlier][..1] == [later];
    assert [later][..0] == [];
    assert Grouping.Groups([later], DateKey) == [DateKey(later)];
  }
}
