/**
 * The search box and date inputs of the two history pages (`filterData`).
 * A record is kept when one of the fields listed for its kind contains the lower-cased
 * query; a field the record lacks never matches.
 */
module Search {
  import opened Common
  import opened Calendar
  import opened Records
  import opened Text
  import opened Seqs

  /** `f?.toLowerCase().includes(q)` */
  predicate FieldMatches(f: Option<string>, q: string)
  {
    f.Some? && Includes(Lower(f.value), q)
  }

  /** The `sessions` predicate: phone, mac or router name. */
  predicate SessionText(f: Fields, q: string)
  {
    FieldMatches(f.phone, q) || FieldMatches(f.mac, q) || FieldMatches(f.routerName, q)
  }

  /** The `routers` predicate: name, ip or location. */
  predicate RouterText(f: Fields, q: string)
  {
    FieldMatches(f.name, q) || FieldMatches(f.ip, q) || FieldMatches(f.location, q)
  }

  /** The text part of the `payments` predicate: phone, router name or plan. */
  predicate PaymentText(f: Fields, q: string)
  {
    FieldMatches(f.phone, q) || FieldMatches(f.routerName, q) || FieldMatches(f.plan, q)
  }

  /** `bound ? created >= bound : true`; an invalid date compares false. */
  predicate NotBefore(created: Option<Instant>, bound: Option<Instant>)
  {
    bound.None? || (created.Some? && created.value >= bound.value)
  }

  /** `bound ? created <= bound : true`; an invalid date compares false. */
  predicate NotAfter(created: Option<Instant>, bound: Option<Instant>)
  {
    bound.None? || (created.Some? && created.value <= bound.value)
  }

  /** A date input's value, a day or '' (None), as the instant `new Date(value)` gives. */
  function DateBound(day: Option<int>): Option<Instant>
  {
    if day.Some? then Some(DateInputInstant(day.value)) else None
  }

  // ---------------------------------------------------------------------------------
  // SuperHistory: `filterData(data, type)`; the kind of record is fixed by the caller.

  /** `filterData(sessions, 'sessions')` */
  function SuperFilterSessions(sessions: seq<Session>, search: string): (r: seq<Session>)
    ensures Subsequence(r, sessions)
    ensures forall i :: 0 <= i < |r| ==> SessionText(SessionFields(r[i]), Lower(search))
    ensures forall i :: 0 <= i < |sessions| && SessionText(SessionFields(sessions[i]), Lower(search)) ==>
              sessions[i] in r
  {
    var keep := (s: Session) => SessionText(SessionFields(s), Lower(search));
    FilterIsSubsequence(sessions, keep);
    Filter(sessions, keep)
  }

  /** `filterData(routers, 'routers')` */
  function SuperFilterRouters(routers: seq<Router>, search: string): (r: seq<Router>)
    ensures Subsequence(r, routers)
    ensures forall i :: 0 <= i < |r| ==> RouterText(RouterFields(r[i]), Lower(search))
    ensures forall i :: 0 <= i < |routers| && RouterText(RouterFields(routers[i]), Lower(search)) ==>
              routers[i] in r
  {
    var keep := (x: Router) => RouterText(RouterFields(x), Lower(search));
    FilterIsSubsequence(routers, keep);
    Filter(routers, keep)
  }

  /** The `payments` predicate of SuperHistory: text, and both date bounds inclusive. */
  predicate SuperPaymentMatches(p: Payment, search: string, startDay: Option<int>, endDay: Option<int>)
  {
    && PaymentText(PaymentFields(p), Lower(search))
    && NotBefore(Some(p.createdAt), DateBound(startDay))
    && NotAfter(Some(p.createdAt), DateBound(endDay))
  }

  /** `filterData(payments, 'payments')` */
  function SuperFilterPayments(payments: seq<Payment>, search: string, startDay: Option<int>, endDay: Option<int>)
    : (r: seq<Payment>)
    ensures Subsequence(r, payments)
    ensures forall i :: 0 <= i < |r| ==>
              && PaymentText(PaymentFields(r[i]), Lower(search))
              && (startDay.Some? ==> r[i].createdAt >= DateInputInstant(startDay.value))
              && (endDay.Some? ==> r[i].createdAt <= DateInputInstant(endDay.value))
    ensures forall i :: 0 <= i < |payments| && SuperPaymentMatches(payments[i], search, startDay, endDay) ==>
              payments[i] in r
  {
    var keep := (p: Payment) => SuperPaymentMatches(p, search, startDay, endDay);
    FilterIsSubsequence(payments, keep);
    Filter(payments, keep)
  }

  /** A record none of whose listed fields is present is dropped, even for an empty query. */
  lemma MissingFieldsNeverMatch(sessions: seq<Session>, search: string, i: int)
    requires 0 <= i < |sessions|
    requires sessions[i].phone.None? && sessions[i].mac.None? && sessions[i].routerName.None?
    ensures sessions[i] !in SuperFilterSessions(sessions, search)
  {
  }

  /** With an empty query every record with at least one listed field present is kept. */
  lemma EmptyQueryKeepsPresentFields(sessions: seq<Session>, i: int)
    requires 0 <= i < |sessions|
    requires sessions[i].phone.Some? || sessions[i].mac.Some? || sessions[i].routerName.Some?
    ensures sessions[i] in SuperFilterSessions(sessions, "")
  {
    var f := sessions[i];
    assert Lower("") == "";
    if f.phone.Some? { IncludesEmpty(Lower(f.phone.value)); }
    if f.mac.Some? { IncludesEmpty(Lower(f.mac.value)); }
    if f.routerName.Some? { IncludesEmpty(Lower(f.routerName.value)); }
  }

  /**
   * `new Date(endDate)` is midnight at the start of the chosen day, so the "inclusive" end bound
   * keeps only the first millisecond of that day: a payment made later that day is dropped.
   */
  lemma EndDayOnlyMidnightIncluded(p: Payment, search: string, startDay: Option<int>, endDay: int)
    requires DayNumber(p.createdAt) == endDay
    ensures SuperPaymentMatches(p, search, startDay, Some(endDay)) ==> MsOfDay(p.createdAt) == 0
    ensures MsOfDay(p.createdAt) == 0 && PaymentText(PaymentFields(p), Lower(search))
            && NotBefore(Some(p.createdAt), DateBound(startDay))
            ==> SuperPaymentMatches(p, search, startDay, Some(endDay))
  {
  }

  // ---------------------------------------------------------------------------------
  // OwnerActivity: `filterData(data)` chooses its predicate from the active tab, whatever the data.

  datatype Tab = SessionsTab | RoutersTab | PaymentsTab

  /** The predicate `filterData` applies on a tab; the payments one has a lower date bound only. */
  predicate TabMatches(tab: Tab, f: Fields, q: string, dateFilter: Option<Instant>)
  {
    match tab
    case SessionsTab => SessionText(f, q)
    case RoutersTab => RouterText(f, q)
    case PaymentsTab => PaymentText(f, q) && NotBefore(f.createdAt, dateFilter)
  }

  function OwnerFilterSessions(tab: Tab, sessions: seq<Session>, search: string, dateDay: Option<int>)
    : (r: seq<Session>)
    ensures Subsequence(r, sessions)
    ensures forall i :: 0 <= i < |r| ==> TabMatches(tab, SessionFields(r[i]), Lower(search), DateBound(dateDay))
    ensures forall i :: 0 <= i < |sessions| && TabMatches(tab, SessionFields(sessions[i]), Lower(search), DateBound(dateDay)) ==>
              sessions[i] in r
  {
    var keep := (s: Session) => TabMatches(tab, SessionFields(s), Lower(search), DateBound(dateDay));
    FilterIsSubsequence(sessions, keep);
    Filter(sessions, keep)
  }

  function OwnerFilterRouters(tab: Tab, routers: seq<Router>, search: string, dateDay: Option<int>)
    : (r: seq<Router>)
    ensures Subsequence(r, routers)
    ensures forall i :: 0 <= i < |r| ==> TabMatches(tab, RouterFields(r[i]), Lower(search), DateBound(dateDay))
    ensures forall i :: 0 <= i < |routers| && TabMatches(tab, RouterFields(routers[i]), Lower(search), DateBound(dateDay)) ==>
              routers[i] in r
  {
    var keep := (x: Router) => TabMatches(tab, RouterFields(x), Lower(search), DateBound(dateDay));
    FilterIsSubsequence(routers, keep);
    Filter(routers, keep)
  }

  function OwnerFilterPayments(tab: Tab, payments: seq<Payment>, search: string, dateDay: Option<int>)
    : (r: seq<Payment>)
    ensures Subsequence(r, payments)
    ensures forall i :: 0 <= i < |r| ==> TabMatches(tab, PaymentFields(r[i]), Lower(search), DateBound(dateDay))
    ensures forall i :: 0 <= i < |payments| && TabMatches(tab, PaymentFields(payments[i]), Lower(search), DateBound(dateDay)) ==>
              payments[i] in r
  {
    var keep := (p: Payment) => TabMatches(tab, PaymentFields(p), Lower(search), DateBound(dateDay));
    FilterIsSubsequence(payments, keep);
    Filter(payments, keep)
  }

  /** On the payments tab a payment is kept however late it was made: the date filter is a lower bound only. */
  lemma OwnerDateFilterHasNoUpperBound(payments: seq<Payment>, search: string, day: int, i: int)
    requires 0 <= i < |payments| && PaymentText(PaymentFields(payments[i]), Lower(search))
    requires payments[i].createdAt >= DateInputInstant(day)
    ensures payments[i] in OwnerFilterPayments(PaymentsTab, payments, search, Some(day))
  {
  }

  /** On the routers tab the payments list runs through the routers predicate and comes out empty. */
  lemma RoutersTabEmptiesPayments(payments: seq<Payment>, search: string, dateDay: Option<int>)
    ensures OwnerFilterPayments(RoutersTab, payments, search, dateDay) == []
  {
  }

  /** On the payments tab with a date chosen, sessions (which have no `created_at`) all fail the date test. */
  lemma PaymentsTabDateEmptiesSessions(sessions: seq<Session>, search: string, day: int)
    ensures OwnerFilterSessions(PaymentsTab, sessions, search, Some(day)) == []
  {
  }
}
