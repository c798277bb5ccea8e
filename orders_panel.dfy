/** The admin orders table (`src/components/OrdersPanel.tsx`): the list is
    replaced by a reload, patched after a status change and shortened after a
    cancellation, each only when the server reports success; the visible rows
    are a search and status filter over it. */
module OrdersPanel {
  import opened Wrappers
  import opened Text
  import opened SearchParams
  import opened AdminTypes
  import opened AdminAction
  import opened Seqs

  const StatusChoices: seq<string> := ["all", "Pending", "Confirmed", "Processing", "Shipped", "Delivered", "Cancelled"]

  /** A `sonner` toast. */
  datatype Toast = ToastSuccess(text: string) | ToastError(text: string)

  /** `prev.map((o) => o._id === id ? { ...o, status } : o)`: the orders with
      that id get the new status; nothing else changes. */
  function WithStatus(orders: seq<AdminOrder>, id: string, status: string): (r: seq<AdminOrder>)
    ensures |r| == |orders|
    ensures forall i | 0 <= i < |r| :: r[i].(status := orders[i].status) == orders[i]
    ensures forall i | 0 <= i < |r| :: r[i].status == if orders[i].id == id then status else orders[i].status
  {
    seq(|orders|, i requires 0 <= i < |orders| => if orders[i].id == id then orders[i].(status := status) else orders[i])
  }

  /** A change for an id that is not listed changes nothing. */
  lemma WithStatusAbsent(orders: seq<AdminOrder>, id: string, status: string)
    requires forall i | 0 <= i < |orders| :: orders[i].id != id
    ensures WithStatus(orders, id, status) == orders
  {
  }

  /** `prev.filter((o) => o._id !== id)`. */
  function WithoutId(orders: seq<AdminOrder>, id: string): (r: seq<AdminOrder>)
    ensures forall o | o in r :: o in orders && o.id != id
    ensures forall o | o in orders && o.id != id :: o in r
    ensures SubseqOf(r, orders)
    ensures forall o | o in orders && o.id != id :: multiset(r)[o] == multiset(orders)[o]
  {
    Filter(orders, (o: AdminOrder) => o.id != id)
  }

  /** `matchSearch`: an empty search matches; otherwise a case-insensitive
      substring of the customer name, or a substring of the phone or the id. */
  predicate MatchSearch(o: AdminOrder, search: string): (r: bool)
    ensures search == o.id || search == o.shippingInfo.phone ==> r
    ensures ToLower(search) == ToLower(o.shippingInfo.name) ==> r
    ensures r ==> (search == "" || |search| <= |o.shippingInfo.name|
                   || |search| <= |o.shippingInfo.phone| || |search| <= |o.id|)
  {
    search == ""
    || Contains(ToLower(o.shippingInfo.name), ToLower(search))
    || Contains(o.shippingInfo.phone, search)
    || Contains(o.id, search)
  }

  /** `matchStatus`. */
  predicate MatchStatus(o: AdminOrder, statusFilter: string) {
    statusFilter == "all" || o.status == statusFilter
  }

  /** `filtered`: the matching orders, in list order. */
  function Filtered(orders: seq<AdminOrder>, search: string, statusFilter: string): (r: seq<AdminOrder>)
    ensures forall o | o in r :: o in orders && MatchSearch(o, search) && MatchStatus(o, statusFilter)
    ensures forall o | o in orders && MatchSearch(o, search) && MatchStatus(o, statusFilter) :: o in r
    ensures SubseqOf(r, orders)
  {
    Filter(orders, (o: AdminOrder) => MatchSearch(o, search) && MatchStatus(o, statusFilter))
  }

  /** With no search and every status, all orders are shown. */
  lemma ShowAll(orders: seq<AdminOrder>)
    ensures Filtered(orders, "", "all") == orders
  {
    FilterAll(orders, (o: AdminOrder) => MatchSearch(o, "") && MatchStatus(o, "all"));
  }

  /** The name part of the search ignores the case of the search text. */
  lemma NameMatchIgnoresCase(o: AdminOrder, search: string)
    ensures Contains(ToLower(o.shippingInfo.name), ToLower(search))
      == Contains(ToLower(o.shippingInfo.name), ToLower(ToLower(search)))
  {
    ToLowerIdempotent(search);
  }

  /** The cancel button is disabled while a request is pending or for an order
      already cancelled. */
  function CancelDisabled(o: AdminOrder, isPending: bool): (disabled: bool)
    ensures disabled <==> isPending || o.status == "Cancelled"
  {
    isPending || o.status == "Cancelled"
  }

  /** The arguments of every reload. */
  function ReloadArgs(status: string): OrdersArgs {
    OrdersArgs(None, Some(50), Some(status))
  }

  /** A reload for "all" sends no status filter; any other non-empty status is
      sent as it is. */
  lemma ReloadQuery(status: string)
    ensures StatusParam(ReloadArgs(status).status).None? <==> status == "" || status == "all"
    ensures NumberParam(ReloadArgs(status).limit) == Some("50")
  {
    assert NatToString(5) == "5";
    assert IntToString(50) == "50";
  }

  /** The panel's state. */
  class Panel {
    var orders: seq<AdminOrder>
    var total: int
    var statusFilter: string
    var search: string
    var expandedId: Option<string>

    constructor(initialOrders: seq<AdminOrder>, initialTotal: int)
      ensures orders == initialOrders && total == initialTotal
      ensures statusFilter == "all" && search == "" && expandedId == None
    {
      orders := initialOrders;
      total := initialTotal;
      statusFilter := "all";
      search := "";
      expandedId := None;
    }

    /** The rows shown. */
    function Visible(): seq<AdminOrder>
      reads this
    {
      Filtered(orders, search, statusFilter)
    }

    /** `reload(status)`: the list and total are replaced by a successful
        response and kept otherwise. */
    method Reload(status: string, server: Params -> OrdersResponse) returns (request: Params)
      modifies this
      ensures Get(request, "status") == StatusParam(Some(status)) && Get(request, "limit") == Some("50")
      ensures Get(request, "page") == None
      ensures server(request).success ==> orders == server(request).orders && total == server(request).total
      ensures !server(request).success ==> orders == old(orders) && total == old(total)
      ensures statusFilter == old(statusFilter) && search == old(search) && expandedId == old(expandedId)
    {
      ReloadQuery(status);
      request := AdminOrdersQuery(ReloadArgs(status));
      var res := server(request);
      if res.success {
        orders := res.orders;
        total := res.total;
      }
    }

    /** Choosing a status filter stores it and reloads with it. */
    method SelectStatus(v: string, server: Params -> OrdersResponse) returns (request: Params)
      modifies this
      ensures statusFilter == v
      ensures Get(request, "status") == StatusParam(Some(v))
      ensures server(request).success ==> orders == server(request).orders && total == server(request).total
      ensures !server(request).success ==> orders == old(orders) && total == old(total)
      ensures search == old(search) && expandedId == old(expandedId)
    {
      statusFilter := v;
      request := Reload(v, server);
    }

    method SetSearch(s: string)
      modifies this
      ensures search == s && orders == old(orders) && statusFilter == old(statusFilter) && total == old(total)
      ensures expandedId == old(expandedId)
    {
      search := s;
    }

    /** `handleStatusChange`: a success patches the status of that order; a
        refusal leaves the list as it is. */
    method ChangeStatus(id: string, status: string, server: (string, string) -> Ack) returns (toast: Toast)
      modifies this
      ensures server(id, status).success ==> orders == WithStatus(old(orders), id, status)
      ensures server(id, status).success ==> toast == ToastSuccess("Order status updated to " + status)
      ensures !server(id, status).success ==> orders == old(orders)
      ensures !server(id, status).success ==> toast == ToastError(OrElse(server(id, status).message, "Failed to update status"))
      ensures total == old(total) && search == old(search) && statusFilter == old(statusFilter)
      ensures expandedId == old(expandedId)
    {
      var res := server(id, status);
      if res.success {
        orders := WithStatus(orders, id, status);
        toast := ToastSuccess("Order status updated to " + status);
      } else {
        toast := ToastError(OrElse(res.message, "Failed to update status"));
      }
    }

    /** `handleCancel`: a success drops the order and counts one fewer in
        total; a refusal changes neither. */
    method Cancel(id: string, server: string -> Ack) returns (toast: Toast)
      modifies this
      ensures server(id).success ==> orders == WithoutId(old(orders), id) && total == old(total) - 1
      ensures server(id).success ==> toast == ToastSuccess("Order cancelled and stock restored")
      ensures !server(id).success ==> orders == old(orders) && total == old(total)
      ensures !server(id).success ==> toast == ToastError(OrElse(server(id).message, "Failed to cancel order"))
      ensures search == old(search) && statusFilter == old(statusFilter) && expandedId == old(expandedId)
    {
      var res := server(id);
      if res.success {
        orders := WithoutId(orders, id);
        total := total - 1;
        toast := ToastSuccess("Order cancelled and stock restored");
      } else {
        toast := ToastError(OrElse(res.message, "Failed to cancel order"));
      }
    }

    /** A click on a row collapses it when it is open and otherwise makes it the
        only open row. */
    method ToggleRow(id: string)
      modifies this
      ensures old(expandedId) == Some(id) ==> expandedId == None
      ensures old(expandedId) != Some(id) ==> expandedId == Some(id)
      ensures orders == old(orders) && total == old(total)
      ensures statusFilter == old(statusFilter) && search == old(search)
    {
      expandedId := if expandedId == Some(id) then None else Some(id);
    }
  }
}
