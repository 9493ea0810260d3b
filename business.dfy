/**
 * SuperHistory's per-business views: the revenue bar chart (`renderBusinessChart`) and the
 * totals table (`renderBusinessTable`). Both group approved payments by business id, a missing
 * id becoming 'unknown'; the table also counts sessions and distinct routers per business.
 */
module Business {
  import opened Common
  import opened Calendar
  import opened Records
  import opened Text
  import opened Revenue
  import Seqs
  import Grouping
  import Ranking
  import Search

  /** `x.business?.id || 'unknown'` */
  function BizKey(b: Option<BizRef>): string
  {
    if b.Some? then OrElse(b.value.id, "unknown") else "unknown"
  }

  /** `x.business?.name || 'Unknown'` */
  function BizName(b: Option<BizRef>): string
  {
    if b.Some? then OrElse(b.value.name, "Unknown") else "Unknown"
  }

  function PaymentKey(p: Payment): string { BizKey(p.business) }
  function PaymentName(p: Payment): string { BizName(p.business) }
  function SessionKey(s: Session): string { BizKey(s.business) }
  function SessionName(s: Session): string { BizName(s.business) }

  /** `(typeof r.business === 'object' ? r.business?.id : r.business) || 'unknown'` */
  function RouterKey(r: Router): string
  {
    match r.business
    case BusinessObject(ref) => BizKey(ref)
    case BusinessScalar(id) => OrElse(id, "unknown")
  }

  // ---------------------------------------------------------------------------------
  // The chart.

  /** One bar: `{ name, total }`. */
  datatype BizBar = BizBar(name: string, total: int)

  function BarTotal(b: BizBar): int { b.total }

  /** The dictionary's values before sorting: one per business, named after its first payment. */
  function BusinessEntries(approved: seq<Payment>): (r: seq<BizBar>)
    ensures |r| == |Grouping.Groups(approved, PaymentKey)|
    ensures Grouping.Total(r, BarTotal) == PaymentsTotal(approved)
  {
    var g := Grouping.Groups(approved, PaymentKey);
    var r := seq(|g|, i requires 0 <= i < |g| =>
               BizBar(PaymentName(Grouping.FirstWith(approved, PaymentKey, g[i])),
                      Grouping.SumFor(approved, PaymentKey, Amount, g[i])));
    Grouping.TotalOfEntries(r, BarTotal, g, approved, PaymentKey, Amount);
    Grouping.GroupSumsConserveTotal(approved, PaymentKey, Amount);
    r
  }

  /** `Object.values(businessMap)` */
  method ValuesOf(order: seq<string>, names: map<string, string>, sums: map<string, int>) returns (bars: seq<BizBar>)
    requires forall k :: k in order ==> k in names && k in sums
    ensures |bars| == |order|
    ensures forall i :: 0 <= i < |bars| ==> bars[i] == BizBar(names[order[i]], sums[order[i]])
  {
    bars := [];
    var i := 0;
    while i < |order|
      invariant 0 <= i <= |order|
      invariant |bars| == i
      invariant forall j :: 0 <= j < i ==> bars[j] == BizBar(names[order[j]], sums[order[j]])
    {
      bars := bars + [BizBar(names[order[i]], sums[order[i]])];
      i := i + 1;
    }
  }

  /** The payments the chart and the table count: the filtered list, then `status === 'approved'`. */
  function ApprovedFiltered(payments: seq<Payment>, search: string, startDay: Option<int>, endDay: Option<int>)
    : (r: seq<Payment>)
    ensures Seqs.Subsequence(r, Search.SuperFilterPayments(payments, search, startDay, endDay))
    ensures forall p :: p in r <==> p in Search.SuperFilterPayments(payments, search, startDay, endDay) && ApprovedExact(p)
    ensures forall p :: p in r ==> p in payments
  {
    var filtered := Search.SuperFilterPayments(payments, search, startDay, endDay);
    Seqs.FilterIsSubsequence(filtered, ApprovedExact);
    Seqs.Filter(filtered, ApprovedExact)
  }

  /**
   * `renderBusinessChart`: the businesses of the approved filtered payments, largest total first;
   * the same bars as the dictionary holds, and they add up to the approved total.
   */
  method BusinessChart(payments: seq<Payment>, search: string, startDay: Option<int>, endDay: Option<int>)
    returns (bars: seq<BizBar>)
    ensures var approved := ApprovedFiltered(payments, search, startDay, endDay);
            && multiset(bars) == multiset(BusinessEntries(approved))
            && Ranking.SortedDesc(bars, BarTotal)
            && Grouping.Total(bars, BarTotal) == PaymentsTotal(approved)
    ensures |bars| == 0 <==> ApprovedFiltered(payments, search, startDay, endDay) == []
  {
    var approved := ApprovedFiltered(payments, search, startDay, endDay);
    var order, names, sums := Grouping.GroupBy(approved, PaymentKey, PaymentName, Amount);
    var entries := ValuesOf(order, names, sums);
    EntriesAreBusinessEntries(approved, order, names, sums, entries);
    bars := Ranking.SortDesc(entries, BarTotal);
    if approved != [] {
      assert Grouping.HasKey(approved, PaymentKey, PaymentKey(approved[0]));
    }
  }

  lemma EntriesAreBusinessEntries(approved: seq<Payment>, order: seq<string>, names: map<string, string>,
                                  sums: map<string, int>, entries: seq<BizBar>)
    requires order == Grouping.Groups(approved, PaymentKey)
    requires forall k :: k in order ==> k in names && k in sums
    requires forall k :: k in order ==>
               sums[k] == Grouping.SumFor(approved, PaymentKey, Amount, k)
               && names[k] == PaymentName(Grouping.FirstWith(approved, PaymentKey, k))
    requires |entries| == |order|
    requires forall i :: 0 <= i < |entries| ==> entries[i] == BizBar(names[order[i]], sums[order[i]])
    ensures entries == BusinessEntries(approved)
  {
    var be := BusinessEntries(approved);
    forall i | 0 <= i < |entries| ensures entries[i] == be[i] {
      assert order[i] in order;
    }
  }

  // ---------------------------------------------------------------------------------
  // The table.

  /** A dictionary entry: `{ id, name, payments, sessions, routers }`. */
  datatype Entry = Entry(id: string, name: string, payments: seq<Payment>, sessions: nat, routers: set<int>)

  function Id(k: string): string { k }

  /** The keys in the order the three `forEach` loops meet them. */
  function AllKeys(ap: seq<Payment>, ss: seq<Session>, rs: seq<Router>): (r: seq<string>)
    ensures |r| == |ap| + |ss| + |rs|
  {
    seq(|ap|, i requires 0 <= i < |ap| => PaymentKey(ap[i]))
    + seq(|ss|, i requires 0 <= i < |ss| => SessionKey(ss[i]))
    + seq(|rs|, i requires 0 <= i < |rs| => RouterKey(rs[i]))
  }

  /** The ids of the routers of one business: a `Set`, so each router counts once. */
  function RouterIds(rs: seq<Router>, k: string): (ids: set<int>)
    ensures forall id :: id in ids <==> exists i :: 0 <= i < |rs| && RouterKey(rs[i]) == k && rs[i].id == id
  {
    if rs == [] then {}
    else
      var init, last := rs[..|rs| - 1], rs[|rs| - 1];
      assert rs == init + [last];
      RouterIds(init, k) + (if RouterKey(last) == k then {last.id} else {})
  }

  /** A router whose entry name the table derives from the router itself. */
  predicate NamesItself(r: Router)
  {
    r.business.BusinessObject? || Truthy(r.business.id)
  }

  /** `typeof r.business === 'object' ? r.business?.name : ... || 'Unknown'`, then `|| 'Unknown'`. */
  function RouterName(r: Router): string
  {
    match r.business
    case BusinessObject(ref) => BizName(ref)
    case BusinessScalar(_) => "Unknown"
  }

  /** How the table names an entry: after the first payment, else the first session, else the first router. */
  ghost predicate NameOK(ap: seq<Payment>, ss: seq<Session>, rs: seq<Router>, k: string, name: string)
  {
    if Grouping.HasKey(ap, PaymentKey, k) then name == PaymentName(Grouping.FirstWith(ap, PaymentKey, k))
    else if Grouping.HasKey(ss, SessionKey, k) then name == SessionName(Grouping.FirstWith(ss, SessionKey, k))
    else Grouping.HasKey(rs, RouterKey, k) && NamesItself(Grouping.FirstWith(rs, RouterKey, k)) ==>
           name == RouterName(Grouping.FirstWith(rs, RouterKey, k))
  }

  /** The entry for key `k` once the loops have consumed the given payments, sessions and routers. */
  ghost predicate EntryOK(ap: seq<Payment>, ss: seq<Session>, rs: seq<Router>, k: string, e: Entry)
  {
    && e.id == k
    && e.payments == Grouping.Members(ap, PaymentKey, k)
    && e.sessions == |Grouping.Members(ss, SessionKey, k)|
    && e.routers == RouterIds(rs, k)
    && NameOK(ap, ss, rs, k, e.name)
  }

  /** The dictionary and its insertion order once the loops have consumed the given lists. */
  ghost predicate TableOf(ap: seq<Payment>, ss: seq<Session>, rs: seq<Router>,
                          order: seq<string>, table: map<string, Entry>)
  {
    && order == Grouping.Groups(AllKeys(ap, ss, rs), Id)
    && (forall k :: k in table <==> k in order)
    && (forall k :: k in table ==> EntryOK(ap, ss, rs, k, table[k]))
  }

  lemma AllKeysFacts(ap: seq<Payment>, ss: seq<Session>, rs: seq<Router>, k: string)
    ensures Grouping.HasKey(AllKeys(ap, ss, rs), Id, k) <==>
              Grouping.HasKey(ap, PaymentKey, k) || Grouping.HasKey(ss, SessionKey, k) || Grouping.HasKey(rs, RouterKey, k)
  {
    var all := AllKeys(ap, ss, rs);
    if Grouping.HasKey(all, Id, k) {
      var i :| 0 <= i < |all| && Id(all[i]) == k;
      if i < |ap| {
        assert PaymentKey(ap[i]) == k;
      } else if i < |ap| + |ss| {
        assert SessionKey(ss[i - |ap|]) == k;
      } else {
        assert RouterKey(rs[i - |ap| - |ss|]) == k;
      }
    }
    if Grouping.HasKey(ap, PaymentKey, k) {
      var i :| 0 <= i < |ap| && PaymentKey(ap[i]) == k;
      assert Id(all[i]) == k;
    }
    if Grouping.HasKey(ss, SessionKey, k) {
      var i :| 0 <= i < |ss| && SessionKey(ss[i]) == k;
      assert Id(all[|ap| + i]) == k;
    }
    if Grouping.HasKey(rs, RouterKey, k) {
      var i :| 0 <= i < |rs| && RouterKey(rs[i]) == k;
      assert Id(all[|ap| + |ss| + i]) == k;
    }
  }

  /** A key the table does not hold yet has met no payment, session or router. */
  lemma AbsentKey(ap: seq<Payment>, ss: seq<Session>, rs: seq<Router>, order: seq<string>, table: map<string, Entry>, k: string)
    requires TableOf(ap, ss, rs, order, table) && k !in table
    ensures !Grouping.HasKey(ap, PaymentKey, k) && !Grouping.HasKey(ss, SessionKey, k) && !Grouping.HasKey(rs, RouterKey, k)
  {
    AllKeysFacts(ap, ss, rs, k);
  }

  /** The insertion order after one more key. */
  lemma OrderStep(ap: seq<Payment>, ss: seq<Session>, rs: seq<Router>, order: seq<string>, table: map<string, Entry>,
                  k: string, all': seq<string>)
    requires TableOf(ap, ss, rs, order, table)
    requires all' == AllKeys(ap, ss, rs) + [k]
    ensures Grouping.Groups(all', Id) == if k in table then order else order + [k]
  {
    Grouping.GroupsAppend(AllKeys(ap, ss, rs), k, Id);
  }

  /** The table after one more item whose key is `k`, given the entry it leaves at `k` and that the others still hold. */
  lemma TableStep(ap: seq<Payment>, ss: seq<Session>, rs: seq<Router>, order: seq<string>, table: map<string, Entry>,
                  ap': seq<Payment>, ss': seq<Session>, rs': seq<Router>, k: string, e: Entry)
    requires TableOf(ap, ss, rs, order, table)
    requires AllKeys(ap', ss', rs') == AllKeys(ap, ss, rs) + [k]
    requires forall j :: j in table && j != k ==> EntryOK(ap', ss', rs', j, table[j])
    requires EntryOK(ap', ss', rs', k, e)
    ensures TableOf(ap', ss', rs', if k in table then order else order + [k], table[k := e])
  {
    OrderStep(ap, ss, rs, order, table, k, AllKeys(ap', ss', rs'));
    var t := table[k := e];
    forall j | j in t ensures EntryOK(ap', ss', rs', j, t[j]) {
      if j != k {
        assert t[j] == table[j];
      }
    }
  }

  lemma PaymentEntryKept(ap: seq<Payment>, p: Payment, j: string, e: Entry)
    requires EntryOK(ap, [], [], j, e) && j != PaymentKey(p)
    ensures EntryOK(ap + [p], [], [], j, e)
  {
    Grouping.MembersAppend(ap, p, PaymentKey, j);
    Grouping.HasKeyAppend(ap, p, PaymentKey, j);
    if Grouping.HasKey(ap, PaymentKey, j) {
      Grouping.FirstWithAppend(ap, p, PaymentKey, j);
    }
  }

  lemma PaymentEntryAdded(ap: seq<Payment>, p: Payment, e: Entry)
    requires EntryOK(ap, [], [], PaymentKey(p), e)
    ensures Grouping.HasKey(ap, PaymentKey, PaymentKey(p)) ==>
              EntryOK(ap + [p], [], [], PaymentKey(p), e.(payments := e.payments + [p]))
  {
    var k := PaymentKey(p);
    Grouping.MembersAppend(ap, p, PaymentKey, k);
    Grouping.FirstWithAppend(ap, p, PaymentKey, k);
  }

  lemma PaymentEntryNew(ap: seq<Payment>, p: Payment)
    requires !Grouping.HasKey(ap, PaymentKey, PaymentKey(p))
    ensures EntryOK(ap + [p], [], [], PaymentKey(p), Entry(PaymentKey(p), PaymentName(p), [p], 0, {}))
  {
    var k := PaymentKey(p);
    Grouping.MembersAppend(ap, p, PaymentKey, k);
    Grouping.FirstWithAppend(ap, p, PaymentKey, k);
    assert Grouping.Members(ap, PaymentKey, k) == [];
  }

  /** Before the first loop the dictionary is empty. */
  lemma EmptyTable()
    ensures TableOf([], [], [], [], map[])
  {
    assert AllKeys([], [], []) == [];
  }

  /** One payment through the first loop. */
  lemma PaymentStep(ap: seq<Payment>, p: Payment, order: seq<string>, table: map<string, Entry>,
                    order': seq<string>, table': map<string, Entry>)
    requires TableOf(ap, [], [], order, table)
    requires order' == if PaymentKey(p) in table then order else order + [PaymentKey(p)]
    requires PaymentKey(p) in table ==>
               table' == table[PaymentKey(p) := table[PaymentKey(p)].(payments := table[PaymentKey(p)].payments + [p])]
    requires PaymentKey(p) !in table ==>
               table' == table[PaymentKey(p) := Entry(PaymentKey(p), PaymentName(p), [p], 0, {})]
    ensures TableOf(ap + [p], [], [], order', table')
  {
    var k := PaymentKey(p);
    assert AllKeys(ap + [p], [], []) == AllKeys(ap, [], []) + [k];
    forall j | j in table && j != k ensures EntryOK(ap + [p], [], [], j, table[j]) {
      PaymentEntryKept(ap, p, j, table[j]);
    }
    var e := if k in table then table[k].(payments := table[k].payments + [p]) else Entry(k, PaymentName(p), [p], 0, {});
    if k !in table {
      AbsentKey(ap, [], [], order, table, k);
      PaymentEntryNew(ap, p);
    } else {
      AllKeysFacts(ap, [], [], k);
      PaymentEntryAdded(ap, p, table[k]);
    }
    TableStep(ap, [], [], order, table, ap + [p], [], [], k, e);
  }

  lemma SessionEntryKept(ap: seq<Payment>, ss: seq<Session>, s: Session, j: string, e: Entry)
    requires EntryOK(ap, ss, [], j, e) && j != SessionKey(s)
    ensures EntryOK(ap, ss + [s], [], j, e)
  {
    Grouping.MembersAppend(ss, s, SessionKey, j);
    Grouping.HasKeyAppend(ss, s, SessionKey, j);
    if Grouping.HasKey(ss, SessionKey, j) {
      Grouping.FirstWithAppend(ss, s, SessionKey, j);
    }
  }

  lemma SessionEntryCounted(ap: seq<Payment>, ss: seq<Session>, s: Session, e: Entry)
    requires EntryOK(ap, ss, [], SessionKey(s), e)
    requires Grouping.HasKey(ap, PaymentKey, SessionKey(s)) || Grouping.HasKey(ss, SessionKey, SessionKey(s))
    ensures EntryOK(ap, ss + [s], [], SessionKey(s), e.(sessions := e.sessions + 1))
  {
    var k := SessionKey(s);
    Grouping.MembersAppend(ss, s, SessionKey, k);
    Grouping.FirstWithAppend(ss, s, SessionKey, k);
  }

  lemma SessionEntryNew(ap: seq<Payment>, ss: seq<Session>, s: Session)
    requires !Grouping.HasKey(ap, PaymentKey, SessionKey(s)) && !Grouping.HasKey(ss, SessionKey, SessionKey(s))
    ensures EntryOK(ap, ss + [s], [], SessionKey(s), Entry(SessionKey(s), SessionName(s), [], 1, {}))
  {
    var k := SessionKey(s);
    Grouping.MembersAppend(ss, s, SessionKey, k);
    Grouping.FirstWithAppend(ss, s, SessionKey, k);
    assert Grouping.Members(ap, PaymentKey, k) == [];
    assert Grouping.Members(ss, SessionKey, k) == [];
  }

  /** One session through the second loop: `order'` and `table'` are the dictionary after it. */
  lemma SessionStep(ap: seq<Payment>, ss: seq<Session>, s: Session, order: seq<string>, table: map<string, Entry>,
                    order': seq<string>, table': map<string, Entry>)
    requires TableOf(ap, ss, [], order, table)
    requires order' == if SessionKey(s) in table then order else order + [SessionKey(s)]
    requires SessionKey(s) in table ==>
               table' == table[SessionKey(s) := table[SessionKey(s)].(sessions := table[SessionKey(s)].sessions + 1)]
    requires SessionKey(s) !in table ==>
               table' == table[SessionKey(s) := Entry(SessionKey(s), SessionName(s), [], 1, {})]
    ensures TableOf(ap, ss + [s], [], order', table')
  {
    var k := SessionKey(s);
    assert AllKeys(ap, ss + [s], []) == AllKeys(ap, ss, []) + [k];
    forall j | j in table && j != k ensures EntryOK(ap, ss + [s], [], j, table[j]) {
      SessionEntryKept(ap, ss, s, j, table[j]);
    }
    var e := if k in table then table[k].(sessions := table[k].sessions + 1) else Entry(k, SessionName(s), [], 1, {});
    if k !in table {
      AbsentKey(ap, ss, [], order, table, k);
      SessionEntryNew(ap, ss, s);
    } else {
      AllKeysFacts(ap, ss, [], k);
      SessionEntryCounted(ap, ss, s, table[k]);
    }
    TableStep(ap, ss, [], order, table, ap, ss + [s], [], k, e);
  }

  lemma RouterEntryKept(ap: seq<Payment>, ss: seq<Session>, rs: seq<Router>, r: Router, j: string, e: Entry)
    requires EntryOK(ap, ss, rs, j, e) && j != RouterKey(r)
    ensures EntryOK(ap, ss, rs + [r], j, e)
  {
    assert (rs + [r])[..|rs + [r]| - 1] == rs;
    Grouping.HasKeyAppend(rs, r, RouterKey, j);
    if Grouping.HasKey(rs, RouterKey, j) {
      Grouping.FirstWithAppend(rs, r, RouterKey, j);
    }
  }

  lemma RouterEntryAdded(ap: seq<Payment>, ss: seq<Session>, rs: seq<Router>, r: Router, e: Entry)
    requires EntryOK(ap, ss, rs, RouterKey(r), e)
    requires Grouping.HasKey(ap, PaymentKey, RouterKey(r)) || Grouping.HasKey(ss, SessionKey, RouterKey(r))
             || Grouping.HasKey(rs, RouterKey, RouterKey(r))
    ensures EntryOK(ap, ss, rs + [r], RouterKey(r), e.(routers := e.routers + {r.id}))
  {
    assert (rs + [r])[..|rs + [r]| - 1] == rs;
    Grouping.FirstWithAppend(rs, r, RouterKey, RouterKey(r));
  }

  lemma RouterEntryNew(ap: seq<Payment>, ss: seq<Session>, rs: seq<Router>, r: Router, looked: string)
    requires !Grouping.HasKey(ap, PaymentKey, RouterKey(r)) && !Grouping.HasKey(ss, SessionKey, RouterKey(r))
    requires !Grouping.HasKey(rs, RouterKey, RouterKey(r))
    requires NamesItself(r) ==> looked == RouterName(r)
    ensures EntryOK(ap, ss, rs + [r], RouterKey(r), Entry(RouterKey(r), looked, [], 0, {r.id}))
  {
    var k := RouterKey(r);
    assert (rs + [r])[..|rs + [r]| - 1] == rs;
    Grouping.FirstWithAppend(rs, r, RouterKey, k);
    assert Grouping.Members(ap, PaymentKey, k) == [];
    assert Grouping.Members(ss, SessionKey, k) == [];
    assert RouterIds(rs, k) == {};
  }

  /** One router through the third loop; `looked` is the name its branch gives a new entry. */
  lemma RouterStep(ap: seq<Payment>, ss: seq<Session>, rs: seq<Router>, r: Router, looked: string,
                   order: seq<string>, table: map<string, Entry>, order': seq<string>, table': map<string, Entry>)
    requires TableOf(ap, ss, rs, order, table)
    requires RouterKey(r) !in table && NamesItself(r) ==> looked == RouterName(r)
    requires order' == if RouterKey(r) in table then order else order + [RouterKey(r)]
    requires RouterKey(r) in table ==>
               table' == table[RouterKey(r) := table[RouterKey(r)].(routers := table[RouterKey(r)].routers + {r.id})]
    requires RouterKey(r) !in table ==>
               table' == table[RouterKey(r) := Entry(RouterKey(r), looked, [], 0, {r.id})]
    ensures TableOf(ap, ss, rs + [r], order', table')
  {
    var k := RouterKey(r);
    assert AllKeys(ap, ss, rs + [r]) == AllKeys(ap, ss, rs) + [k];
    forall j | j in table && j != k ensures EntryOK(ap, ss, rs + [r], j, table[j]) {
      RouterEntryKept(ap, ss, rs, r, j, table[j]);
    }
    var e := if k in table then table[k].(routers := table[k].routers + {r.id}) else Entry(k, looked, [], 0, {r.id});
    if k !in table {
      AbsentKey(ap, ss, rs, order, table, k);
      RouterEntryNew(ap, ss, rs, r, looked);
    } else {
      AllKeysFacts(ap, ss, rs, k);
      RouterEntryAdded(ap, ss, rs, r, table[k]);
    }
    TableStep(ap, ss, rs, order, table, ap, ss, rs + [r], k, e);
  }

  /** The JavaScript property key `businessMap[bizId]` looks up: an absent id reads as "undefined". */
  function PropertyKey(id: Option<string>): string
  {
    if id.Some? then id.value else "undefined"
  }

  /** One payment of `filteredPayments.forEach(...)`: create its business's entry if needed, then push it. */
  method AddPayment(ghost done: seq<Payment>, p: Payment, order0: seq<string>, table0: map<string, Entry>)
    returns (order: seq<string>, table: map<string, Entry>)
    requires TableOf(done, [], [], order0, table0)
    ensures TableOf(done + [p], [], [], order, table)
  {
    var k := PaymentKey(p);
    if k !in table0 {
      table := table0[k := Entry(k, PaymentName(p), [p], 0, {})];
      order := order0 + [k];
    } else {
      table := table0[k := table0[k].(payments := table0[k].payments + [p])];
      order := order0;
    }
    PaymentStep(done, p, order0, table0, order, table);
  }

  /** `filteredPayments.forEach(...)`: an entry per business, collecting its payments. */
  method AddPayments(approved: seq<Payment>) returns (order: seq<string>, table: map<string, Entry>)
    ensures TableOf(approved, [], [], order, table)
  {
    order, table := [], map[];
    EmptyTable();
    var i := 0;
    while i < |approved|
      invariant 0 <= i <= |approved|
      invariant TableOf(approved[..i], [], [], order, table)
    {
      order, table := AddPayment(approved[..i], approved[i], order, table);
      assert approved[..i + 1] == approved[..i] + [approved[i]];
      i := i + 1;
    }
    assert approved[..|approved|] == approved;
  }

  /** One session of `sessions.forEach(...)`: create its business's entry if needed, then count it. */
  method AddSession(ghost approved: seq<Payment>, ghost done: seq<Session>, s: Session,
                    order0: seq<string>, table0: map<string, Entry>)
    returns (order: seq<string>, table: map<string, Entry>)
    requires TableOf(approved, done, [], order0, table0)
    ensures TableOf(approved, done + [s], [], order, table)
  {
    var k := SessionKey(s);
    if k !in table0 {
      table := table0[k := Entry(k, SessionName(s), [], 1, {})];
      order := order0 + [k];
    } else {
      table := table0[k := table0[k].(sessions := table0[k].sessions + 1)];
      order := order0;
    }
    SessionStep(approved, done, s, order0, table0, order, table);
  }

  /** `sessions.forEach(...)`: count each session under its business, creating entries as needed. */
  method AddSessions(ghost approved: seq<Payment>, sessions: seq<Session>, order0: seq<string>, table0: map<string, Entry>)
    returns (order: seq<string>, table: map<string, Entry>)
    requires TableOf(approved, [], [], order0, table0)
    ensures TableOf(approved, sessions, [], order, table)
  {
    order, table := order0, table0;
    var j := 0;
    while j < |sessions|
      invariant 0 <= j <= |sessions|
      invariant TableOf(approved, sessions[..j], [], order, table)
    {
      order, table := AddSession(approved, sessions[..j], sessions[j], order, table);
      assert sessions[..j + 1] == sessions[..j] + [sessions[j]];
      j := j + 1;
    }
    assert sessions[..|sessions|] == sessions;
  }

  /** The name the router branch gives a new entry, looking the bare id up in the dictionary. */
  function LookedUpName(r: Router, table: map<string, Entry>): (name: string)
    ensures RouterKey(r) !in table && NamesItself(r) ==> name == RouterName(r)
  {
    match r.business
    case BusinessObject(ref) => BizName(ref)
    case BusinessScalar(id) =>
      var lookup := PropertyKey(id);
      if lookup in table then OrElse(Some(table[lookup].name), "Unknown") else "Unknown"
  }

  /** One router of `routers.forEach(...)`: create its business's entry if needed, then add its id. */
  method AddRouter(ghost approved: seq<Payment>, ghost sessions: seq<Session>, ghost done: seq<Router>, r: Router,
                   order0: seq<string>, table0: map<string, Entry>)
    returns (order: seq<string>, table: map<string, Entry>)
    requires TableOf(approved, sessions, done, order0, table0)
    ensures TableOf(approved, sessions, done + [r], order, table)
  {
    var k := RouterKey(r);
    var looked := LookedUpName(r, table0);
    if k !in table0 {
      table := table0[k := Entry(k, looked, [], 0, {r.id})];
      order := order0 + [k];
    } else {
      table := table0[k := table0[k].(routers := table0[k].routers + {r.id})];
      order := order0;
    }
    RouterStep(approved, sessions, done, r, looked, order0, table0, order, table);
  }

  /** `routers.forEach(...)`: add each router id to its business's set, creating entries as needed. */
  method AddRouters(ghost approved: seq<Payment>, ghost sessions: seq<Session>, routers: seq<Router>,
                    order0: seq<string>, table0: map<string, Entry>)
    returns (order: seq<string>, table: map<string, Entry>)
    requires TableOf(approved, sessions, [], order0, table0)
    ensures TableOf(approved, sessions, routers, order, table)
  {
    order, table := order0, table0;
    var l := 0;
    while l < |routers|
      invariant 0 <= l <= |routers|
      invariant TableOf(approved, sessions, routers[..l], order, table)
    {
      order, table := AddRouter(approved, sessions, routers[..l], routers[l], order, table);
      assert routers[..l + 1] == routers[..l] + [routers[l]];
      l := l + 1;
    }
    assert routers[..|routers|] == routers;
  }

  /** The three `forEach` loops of `renderBusinessTable` that fill `businessMap`. */
  method FillTable(approved: seq<Payment>, sessions: seq<Session>, routers: seq<Router>)
    returns (order: seq<string>, table: map<string, Entry>)
    ensures order == Grouping.Groups(AllKeys(approved, sessions, routers), Id)
    ensures forall k :: k in table <==> k in order
    ensures forall k :: k in table ==> EntryOK(approved, sessions, routers, k, table[k])
  {
    order, table := AddPayments(approved);
    order, table := AddSessions(approved, sessions, order, table);
    order, table := AddRouters(approved, sessions, routers, order, table);
  }

  /** One table row: `{ business, totalDay, totalWeek, totalMonth, totalYear, sessions, routers }`. */
  datatype Row = Row(business: string, totals: WindowTotals, sessions: nat, routers: nat)

  /** `Object.values(businessMap).map(data => ...)` for one entry: its payments' windows around `now`. */
  function RowOf(e: Entry, now: Instant): Row
  {
    Row(e.name, Windows(e.payments, now), e.sessions, |e.routers|)
  }

  /** `b.business.toLowerCase().includes(search.toLowerCase())` */
  predicate RowMatches(b: Row, search: string)
  {
    Includes(Lower(b.business), Lower(search))
  }

  /**
   * `renderBusinessTable`: one row per business met among the approved filtered payments, all
   * sessions and all routers, in the order the loops meet them; `count` is the avatar's number,
   * `shown` the rows whose name matches the search, and `noData` the "No data" line, which looks
   * at the rows before that name filter.
   */
  method BusinessTable(payments: seq<Payment>, sessions: seq<Session>, routers: seq<Router>,
                       search: string, startDay: Option<int>, endDay: Option<int>, now: Instant)
    returns (rows: seq<Row>, count: nat, shown: seq<Row>, noData: bool)
    ensures var approved := ApprovedFiltered(payments, search, startDay, endDay);
            var order := Grouping.Groups(AllKeys(approved, sessions, routers), Id);
            && |rows| == count == |order|
            && forall i :: 0 <= i < |rows| ==>
                 && rows[i].totals == Windows(Grouping.Members(approved, PaymentKey, order[i]), now)
                 && rows[i].sessions == |Grouping.Members(sessions, SessionKey, order[i])|
                 && rows[i].routers == |RouterIds(routers, order[i])|
                 && NameOK(approved, sessions, routers, order[i], rows[i].business)
    ensures noData <==> ApprovedFiltered(payments, search, startDay, endDay) == [] && sessions == [] && routers == []
    ensures Seqs.Subsequence(shown, rows)
    ensures forall i :: 0 <= i < |shown| ==> RowMatches(shown[i], search)
    ensures forall i :: 0 <= i < |rows| && RowMatches(rows[i], search) ==> rows[i] in shown
  {
    var approved := ApprovedFiltered(payments, search, startDay, endDay);
    var order, table := FillTable(approved, sessions, routers);
    rows := RowsOf(approved, sessions, routers, order, table, now);
    count := |rows|;
    var keep := (b: Row) => RowMatches(b, search);
    Seqs.FilterIsSubsequence(rows, keep);
    shown := Seqs.Filter(rows, keep);
    noData := |rows| == 0;
    NoRowsOnlyWhenNothing(approved, sessions, routers);
  }

  /** `Object.values(businessMap).map(...)`: one row per entry, in insertion order, describing that business. */
  method RowsOf(ghost ap: seq<Payment>, ghost ss: seq<Session>, ghost rs: seq<Router>,
                order: seq<string>, table: map<string, Entry>, now: Instant)
    returns (rows: seq<Row>)
    requires forall k :: k in table <==> k in order
    requires forall k :: k in table ==> EntryOK(ap, ss, rs, k, table[k])
    ensures |rows| == |order|
    ensures forall i :: 0 <= i < |rows| ==>
              && rows[i].totals == Windows(Grouping.Members(ap, PaymentKey, order[i]), now)
              && rows[i].sessions == |Grouping.Members(ss, SessionKey, order[i])|
              && rows[i].routers == |RouterIds(rs, order[i])|
              && NameOK(ap, ss, rs, order[i], rows[i].business)
  {
    rows := seq(|order|, i requires 0 <= i < |order| => RowOf(table[order[i]], now));
    forall i | 0 <= i < |rows|
      ensures && rows[i].totals == Windows(Grouping.Members(ap, PaymentKey, order[i]), now)
              && rows[i].sessions == |Grouping.Members(ss, SessionKey, order[i])|
              && rows[i].routers == |RouterIds(rs, order[i])|
              && NameOK(ap, ss, rs, order[i], rows[i].business)
    {
      assert order[i] in order;
      assert EntryOK(ap, ss, rs, order[i], table[order[i]]);
    }
  }

  /** The table is empty exactly when there is no approved payment, no session and no router. */
  lemma NoRowsOnlyWhenNothing(ap: seq<Payment>, ss: seq<Session>, rs: seq<Router>)
    ensures Grouping.Groups(AllKeys(ap, ss, rs), Id) == [] <==> ap == [] && ss == [] && rs == []
  {
    var all := AllKeys(ap, ss, rs);
    if all != [] {
      assert Grouping.HasKey(all, Id, all[0]);
    }
  }

  /**
   * Each approved payment lands in exactly one row and each session is counted in exactly one:
   * over the rows, the entries' payments add up to the approved total and the session counts
   * to the number of sessions.
   */
  lemma TablePartitions(ap: seq<Payment>, ss: seq<Session>, rs: seq<Router>)
    ensures var order := Grouping.Groups(AllKeys(ap, ss, rs), Id);
            && Grouping.MembersTotal(order, ap, PaymentKey, Amount) == PaymentsTotal(ap)
            && Grouping.MembersCount(order, ss, SessionKey) == |ss|
  {
    var order := Grouping.Groups(AllKeys(ap, ss, rs), Id);
    forall i | 0 <= i < |ap| ensures PaymentKey(ap[i]) in order {
      AllKeysFacts(ap, ss, rs, PaymentKey(ap[i]));
    }
    forall i | 0 <= i < |ss| ensures SessionKey(ss[i]) in order {
      AllKeysFacts(ap, ss, rs, SessionKey(ss[i]));
    }
    Grouping.MembersPartition(order, ap, PaymentKey, Amount);
    Grouping.MembersPartition(order, ss, SessionKey, Grouping.One);
  }
}
