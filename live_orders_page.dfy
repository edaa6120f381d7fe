/**
 * The live-orders page (src/app/dashboard/live-orders/page.tsx): the
 * pending and in-preparation counts, the status tabs, and the orders table,
 * which this page always renders active-only.
 */
module LiveOrdersPage {
  import opened Wrappers
  import opened Entities
  import Seqs
  import StatusTabs
  import OrdersTable
  import DashboardStatsHook
  import DashboardPage

  /** The live tabs' status set, also the initial filter. */
  const LiveStatuses: seq<Status> := [Pending, Confirmed]

  /** The live table's `handleStatusChange`. */
  function HandleStatusChange(value: string): (r: seq<Status>)
    ensures value == "all" ==> r == [Pending, Confirmed]
    ensures value != "all" ==> r == [value]
  {
    StatusTabs.FilterFor(LiveStatuses, value)
  }

  /** The initial filter shows "All"; every tab choice shows itself and re-choosing it keeps the filter. */
  lemma LiveTabs(value: string)
    ensures StatusTabs.TabValue(LiveStatuses) == Some("all")
    ensures StatusTabs.TabValue(HandleStatusChange(value)) == Some(value)
    ensures HandleStatusChange(StatusTabs.TabValue(HandleStatusChange(value)).value) == HandleStatusChange(value)
  {
    StatusTabs.TabRoundTrip(LiveStatuses, value);
  }

  /** The pending and in-preparation cards: the orders with that status; 0 while orders are undefined. */
  function StatusCount(orders: Option<seq<Order>>, status: Status): (n: nat)
    ensures orders.None? ==> n == 0
    ensures orders.Some? ==> n <= |orders.value|
  {
    match orders
    case None => 0
    case Some(os) => Seqs.Count(os, (o: Order) => o.status == status)
  }

  /**
   * The two cards agree with the dashboard figures over all orders, and
   * together with the overview's live-orders card.
   */
  lemma CountsMatchStats(orders: seq<Order>)
    ensures StatusCount(Some(orders), Pending) == DashboardStatsHook.CurrentStats(orders).pendingOrders
    ensures StatusCount(Some(orders), Confirmed) == DashboardStatsHook.CurrentStats(orders).confirmedOrders
    ensures StatusCount(Some(orders), Pending) + StatusCount(Some(orders), Confirmed)
         == DashboardPage.ActiveOrders(Some(DashboardPage.OverviewStats(orders)))
  {
    Seqs.FilterAgree(orders, (o: Order) => o.status == Pending, DashboardStatsHook.IsPending);
    Seqs.FilterAgree(orders, (o: Order) => o.status == Confirmed, DashboardStatsHook.IsConfirmed);
  }

  /** The live table's test: active, in the status filter (empty keeps all), and matching the search. */
  predicate LiveShown(filter: seq<Status>, search: string, o: Order) {
    OrdersTable.IsActive(o)
    && (filter == [] || o.status in filter)
    && (search == "" || OrdersTable.Matches(o.id, search) || OrdersTable.Matches(o.customerName, search))
  }

  /**
   * The table as this page renders it: in the fetched order, exactly the
   * active orders that pass the status filter and the search, whatever their day.
   */
  function ShownOrders(orders: Option<seq<Order>>, filter: seq<Status>, search: string,
                       localDate: string -> OrdersTable.CalendarDate, today: OrdersTable.CalendarDate): (r: seq<Order>)
    ensures forall i :: 0 <= i < |r| ==> OrdersTable.IsActive(r[i])
    ensures |filter| > 0 ==> forall i :: 0 <= i < |r| ==> r[i].status in filter
    ensures orders.None? ==> r == []
    ensures orders.Some? ==> Seqs.SubseqOf(r, orders.value)
    ensures orders.Some? ==> |r| == Seqs.Count(orders.value, (o: Order) => LiveShown(filter, search, o))
    ensures forall i :: 0 <= i < |r| ==> LiveShown(filter, search, r[i])
    ensures orders.Some? ==> forall i :: 0 <= i < |orders.value| && LiveShown(filter, search, orders.value[i]) ==>
      orders.value[i] in r
  {
    if orders.Some? then
      Seqs.FilterAgree(orders.value,
        (o: Order) => OrdersTable.Keep(OrdersTable.Props(filter, search, true, false), localDate, today, o),
        (o: Order) => LiveShown(filter, search, o));
      OrdersTable.FilterOrders(orders, OrdersTable.Props(filter, search, true, false), localDate, today)
    else []
  }

  /** With the initial filter and no search, the table shows exactly the active orders, in order. */
  lemma InitialShowsActive(orders: seq<Order>, localDate: string -> OrdersTable.CalendarDate, today: OrdersTable.CalendarDate)
    ensures ShownOrders(Some(orders), LiveStatuses, "", localDate, today) == Seqs.Filter(orders, OrdersTable.IsActive)
  {
    Seqs.FilterAgree(orders,
      (o: Order) => OrdersTable.Keep(OrdersTable.Props(LiveStatuses, "", true, false), localDate, today, o),
      OrdersTable.IsActive);
  }

  /** A status tab with no search shows as many orders as that status's card counts. */
  lemma TabMatchesCard(orders: seq<Order>, status: Status,
                       localDate: string -> OrdersTable.CalendarDate, today: OrdersTable.CalendarDate)
    requires status == Pending || status == Confirmed
    ensures |ShownOrders(Some(orders), HandleStatusChange(status), "", localDate, today)| == StatusCount(Some(orders), status)
  {
    Seqs.FilterAgree(orders,
      (o: Order) => OrdersTable.Keep(OrdersTable.Props([status], "", true, false), localDate, today, o),
      (o: Order) => o.status == status);
  }

  /**
   * A tab value naming any other status (the cast is unchecked) shows
   * nothing: the active-only filter excludes every order it selects.
   */
  lemma InactiveTabShowsNothing(orders: Option<seq<Order>>, value: string, search: string,
                                localDate: string -> OrdersTable.CalendarDate, today: OrdersTable.CalendarDate)
    requires value != "all" && value != Pending && value != Confirmed
    ensures ShownOrders(orders, HandleStatusChange(value), search, localDate, today) == []
  {
  }
}
