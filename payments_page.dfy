/**
 * The payments page (`PaymentsPage`): the list loaded under a status/phone filter, Approve and
 * Reject on pending payments, and the status colour.
 */
module PaymentsPageModel {
  import opened Common
  import opened Records
  import Seqs

  /** The `filters` state sent with every list request: `{ status, phone }`. */
  datatype Filters = Filters(status: string, phone: string)

  datatype Colour = Green | Red | Yellow

  /** The status cell's colour: approved green, rejected red, anything else yellow. */
  function StatusColour(status: Option<string>): (c: Colour)
    ensures c == Green <==> status == Some("approved")
    ensures c == Red <==> status == Some("rejected")
    ensures c == Yellow <==> status != Some("approved") && status != Some("rejected")
  {
    if status == Some("approved") then Green
    else if status == Some("rejected") then Red
    else Yellow
  }

  /** Approve and Reject are shown for pending payments only. */
  function ActionsShown(p: Payment): (shown: bool)
    ensures shown <==> p.status == Some("pending")
    ensures shown ==> StatusColour(p.status) == Yellow
  {
    p.status == Some("pending")
  }

  /** `prev.filter(p => p.id !== id)` */
  function WithoutId(ps: seq<Payment>, id: int): (r: seq<Payment>)
    ensures Seqs.Subsequence(r, ps)
    ensures forall i :: 0 <= i < |r| ==> r[i].id != id
    ensures forall i :: 0 <= i < |ps| && ps[i].id != id ==> ps[i] in r
  {
    var keep := (p: Payment) => p.id != id;
    Seqs.FilterIsSubsequence(ps, keep);
    Seqs.Filter(ps, keep)
  }

  /** The entries that go are exactly those with the id: the list shrinks by their number. */
  lemma WithoutIdRemovesExactly(ps: seq<Payment>, id: int)
    ensures |WithoutId(ps, id)| + |Seqs.Filter(ps, (p: Payment) => p.id == id)| == |ps|
    ensures WithoutId(WithoutId(ps, id), id) == WithoutId(ps, id)
  {
    Seqs.FilterPartition(ps, (p: Payment) => p.id != id, (p: Payment) => p.id == id);
    Seqs.FilterIdempotent(ps, (p: Payment) => p.id != id);
  }

  class PaymentsPage {
    var payments: seq<Payment>
    var filters: Filters
    var routers: seq<Router>
    var loading: bool

    constructor ()
      ensures payments == [] && filters == Filters("", "") && routers == [] && loading
    {
      payments, filters, routers, loading := [], Filters("", ""), [], true;
    }

    predicate ShowsNoRouterWarning()
      reads this
    {
      |routers| == 0
    }

    /** The mount effect's `init`: routers (`r || []`), then the payments, then the end of loading. */
    method Init(routersResult: ApiResult<Option<seq<Router>>>, paymentsResult: ApiResult<seq<Payment>>)
      modifies this
      ensures routersResult.Ok? ==> routers == OrEmpty(routersResult.value)
      ensures routersResult.Fail? ==> routers == old(routers)
      ensures routersResult.Ok? && paymentsResult.Ok? ==> payments == paymentsResult.value && !loading
      ensures routersResult.Fail? || paymentsResult.Fail? ==> payments == old(payments) && loading == old(loading)
      ensures filters == old(filters)
    {
      if routersResult.Fail? {
        return;
      }
      routers := OrEmpty(routersResult.value);
      if paymentsResult.Fail? {
        return;
      }
      payments := paymentsResult.value;
      loading := false;
    }

    /** `loadPayments`: the list the server returns for the current filters replaces the local one. */
    method LoadPayments(result: ApiResult<seq<Payment>>) returns (sent: Filters)
      modifies this
      ensures sent == filters
      ensures result.Ok? ==> payments == result.value
      ensures result.Fail? ==> payments == old(payments)
      ensures filters == old(filters) && routers == old(routers) && loading == old(loading)
    {
      sent := filters;
      if result.Ok? {
        payments := result.value;
      }
    }

    /** The status selector: replaces the status, keeps the phone, and the filters effect reloads. */
    method SetStatusFilter(status: string, reload: ApiResult<seq<Payment>>) returns (sent: Filters)
      modifies this
      ensures filters == Filters(status, old(filters).phone)
      ensures sent == filters
      ensures reload.Ok? ==> payments == reload.value
      ensures reload.Fail? ==> payments == old(payments)
      ensures routers == old(routers) && loading == old(loading)
    {
      filters := filters.(status := status);
      sent := LoadPayments(reload);
    }

    /** The phone input: replaces the phone, keeps the status, and the filters effect reloads. */
    method SetPhoneFilter(phone: string, reload: ApiResult<seq<Payment>>) returns (sent: Filters)
      modifies this
      ensures filters == Filters(old(filters).status, phone)
      ensures sent == filters
      ensures reload.Ok? ==> payments == reload.value
      ensures reload.Fail? ==> payments == old(payments)
      ensures routers == old(routers) && loading == old(loading)
    {
      filters := filters.(phone := phone);
      sent := LoadPayments(reload);
    }

    /** `confirm(id)`: no local edit; once the call succeeds the list is reloaded. */
    method Confirm(id: int, call: ApiResult<()>, reload: ApiResult<seq<Payment>>)
      modifies this
      ensures call.Ok? && reload.Ok? ==> payments == reload.value
      ensures call.Fail? || reload.Fail? ==> payments == old(payments)
      ensures filters == old(filters) && routers == old(routers) && loading == old(loading)
    {
      if call.Ok? {
        var _ := LoadPayments(reload);
      }
    }

    /**
     * `reject(id)`: nothing happens unless the prompt is accepted; then the delete call is sent,
     * and only once it succeeds are the entries with that id dropped from the list.
     */
    method Reject(id: int, confirmed: bool, call: ApiResult<()>) returns (called: bool)
      modifies this
      ensures called <==> confirmed
      ensures confirmed && call.Ok? ==> payments == WithoutId(old(payments), id)
      ensures !confirmed || call.Fail? ==> payments == old(payments)
      ensures filters == old(filters) && routers == old(routers) && loading == old(loading)
    {
      if !confirmed {
        return false;
      }
      called := true;
      if call.Ok? {
        payments := WithoutId(payments, id);
      }
    }
  }
}
