/** The admin dashboard (`src/components/AdminDashboard.tsx`): the order
    counters of the stats bar, the two tabs and logging out. */
module AdminDashboard {
  import opened Wrappers
  import opened AdminTypes
  import opened AdminAction
  import opened Seqs

  /** `orders.filter((o) => o.status === status).length`, the stats bar's
      counter for one status (`'Pending'` and `'Delivered'` are shown). */
  function CountStatus(orders: seq<AdminOrder>, status: string): (n: nat)
    ensures n == CountIf(orders, (o: AdminOrder) => o.status == status)
  {
    CountIfFilter(orders, (o: AdminOrder) => o.status == status);
    |Filter(orders, (o: AdminOrder) => o.status == status)|
  }

  /** No order is both pending and delivered, so the two counters never add up
      to more than the list. */
  lemma CountersBounded(orders: seq<AdminOrder>)
    ensures CountStatus(orders, "Pending") + CountStatus(orders, "Delivered") <= |orders|
  {
    CountDisjoint(orders, (o: AdminOrder) => o.status == "Pending", (o: AdminOrder) => o.status == "Delivered");
  }

  /** A list of pending orders counts each of them as pending. */
  lemma {:induction false} AllPending(orders: seq<AdminOrder>)
    requires forall i | 0 <= i < |orders| :: orders[i].status == "Pending"
    ensures CountStatus(orders, "Pending") == |orders| && CountStatus(orders, "Delivered") == 0
  {
    if orders != [] {
      AllPending(orders[1..]);
    }
  }

  datatype Tab = OrdersTab | ProductsTab

  /** What the content area shows: its heading, the count beside it and the
      panel. */
  datatype Content = Content(heading: string, count: int, showsOrders: bool)

  /** The selected tab alone decides the content. */
  function ContentFor(tab: Tab, ordersTotal: int, productsTotal: int): (c: Content)
    ensures tab == OrdersTab ==> c == Content("Order Management", ordersTotal, true)
    ensures tab == ProductsTab ==> c == Content("Product Management", productsTotal, false)
  {
    if tab == OrdersTab then Content("Order Management", ordersTotal, true)
    else Content("Product Management", productsTotal, false)
  }

  class Dashboard {
    var tab: Tab

    constructor()
      ensures tab == OrdersTab
    {
      tab := OrdersTab;
    }

    method SelectTab(t: Tab)
      modifies this
      ensures tab == t
    {
      tab := t;
    }

    /** `handleLogout`: the token cookie is deleted, then the login page is
        shown. */
    method Logout(store: CookieStore) returns (destination: string)
      modifies store
      ensures GetAdminToken(store) == None
      ensures destination == "/admin/web-management/login"
    {
      AdminLogout(store);
      destination := "/admin/web-management/login";
    }
  }
}
