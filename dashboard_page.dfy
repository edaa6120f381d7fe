/**
 * The status tabs shared by the overview and live-orders pages: the tab value
 * selects a status filter for `OrdersTable`, and the filter is shown back as
 * the active tab.
 */
module StatusTabs {
  import opened Wrappers
  import opened Entities

  /**
   * `handleStatusChange`: `'all'` selects the page's whole status set, any
   * other value only itself (cast to a status unchecked).
   */
  function FilterFor(all: seq<Status>, value: string): (r: seq<Status>)
    ensures value == "all" ==> r == all
    ensures value != "all" ==> r == [value]
  {
    if value == "all" then all else [value]
  }

  /**
   * The `Tabs` value: `'all'` when more than one status is selected, else the
   * only one; an empty filter has no first element (`undefined`, here `None`).
   */
  function TabValue(filter: seq<Status>): (v: Option<string>)
    ensures v.None? <==> filter == []
    ensures |filter| > 1 ==> v == Some("all")
    ensures |filter| == 1 ==> v == Some(filter[0])
  {
    if |filter| > 1 then Some("all")
    else if filter == [] then None
    else Some(filter[0])
  }

  /**
   * With a status set of more than one status, choosing a tab shows that
   * tab as active, and re-choosing the shown tab keeps the filter.
   */
  lemma TabRoundTrip(all: seq<Status>, value: string)
    requires |all| > 1
    ensures TabValue(FilterFor(all, value)) == Some(value)
    ensures FilterFor(all, TabValue(FilterFor(all, value)).value) == FilterFor(all, value)
  {
  }
}

/**
 * The overview page (src/app/dashboard/page.tsx): the order-history tabs,
 * the live-orders card, the available-tables card, and which orders the
 * stats cards count. Today's date is an input.
 */
module DashboardPage {
  import opened Wrappers
  import opened Entities
  import Seqs
  import StatusTabs
  import DashboardStatsHook
  import OrdersTable
  import TablesPage

  /** The history tabs' status set, also the initial filter. */
  const HistoryStatuses: seq<Status> := [Completed, Cancelled]

  /** The history table's `handleStatusChange`. */
  function HandleStatusChange(value: string): (r: seq<Status>)
    ensures value == "all" ==> r == [Completed, Cancelled]
    ensures value != "all" ==> r == [value]
  {
    StatusTabs.FilterFor(HistoryStatuses, value)
  }

  /**
   * The initial filter shows the "All" tab; every tab choice shows itself
   * and re-choosing it keeps the filter.
   */
  lemma HistoryTabs(value: string)
    ensures StatusTabs.TabValue(HistoryStatuses) == Some("all")
    ensures StatusTabs.TabValue(HandleStatusChange(value)) == Some(value)
    ensures HandleStatusChange(StatusTabs.TabValue(HandleStatusChange(value)).value) == HandleStatusChange(value)
  {
    StatusTabs.TabRoundTrip(HistoryStatuses, value);
  }

  /** The history table's test: the status filter (empty keeps all) and the search on id or customer name. */
  predicate HistoryShown(filter: seq<Status>, search: string, o: Order) {
    (filter == [] || o.status in filter)
    && (search == "" || OrdersTable.Matches(o.id, search) || OrdersTable.Matches(o.customerName, search))
  }

  /**
   * The history table: every order (not only active ones, whatever its day)
   * that passes the status filter and the search, in the fetched order.
   */
  function HistoryOrders(orders: Option<seq<Order>>, filter: seq<Status>, search: string,
                         localDate: string -> OrdersTable.CalendarDate, today: OrdersTable.CalendarDate): (r: seq<Order>)
    ensures orders.None? ==> r == []
    ensures orders.Some? ==> Seqs.SubseqOf(r, orders.value)
    ensures orders.Some? ==> |r| == Seqs.Count(orders.value, (o: Order) => HistoryShown(filter, search, o))
    ensures forall i :: 0 <= i < |r| ==> HistoryShown(filter, search, r[i])
    ensures orders.Some? ==> forall i :: 0 <= i < |orders.value| && HistoryShown(filter, search, orders.value[i]) ==>
      orders.value[i] in r
  {
    if orders.Some? then
      Seqs.FilterAgree(orders.value,
        (o: Order) => OrdersTable.Keep(OrdersTable.Props(filter, search, false, false), localDate, today, o),
        (o: Order) => HistoryShown(filter, search, o));
      OrdersTable.FilterOrders(orders, OrdersTable.Props(filter, search, false, false), localDate, today)
    else []
  }

  /** The history table does not depend on the time zone or on today's date. */
  lemma HistoryIgnoresDates(orders: Option<seq<Order>>, filter: seq<Status>, search: string,
                            localDate: string -> OrdersTable.CalendarDate, today: OrdersTable.CalendarDate,
                            otherDate: string -> OrdersTable.CalendarDate, otherToday: OrdersTable.CalendarDate)
    ensures HistoryOrders(orders, filter, search, localDate, today)
         == HistoryOrders(orders, filter, search, otherDate, otherToday)
  {
    if orders.Some? {
      var props := OrdersTable.Props(filter, search, false, false);
      Seqs.FilterAgree(orders.value, (o: Order) => OrdersTable.Keep(props, localDate, today, o),
                       (o: Order) => OrdersTable.Keep(props, otherDate, otherToday, o));
    }
  }

  /**
   * Under any history tab the table shows only orders of that tab's
   * statuses; under "All" every completed or cancelled order matching the
   * search is shown.
   */
  lemma HistoryTabShowsItsStatuses(orders: seq<Order>, value: string, search: string,
                                   localDate: string -> OrdersTable.CalendarDate, today: OrdersTable.CalendarDate)
    ensures var r := HistoryOrders(Some(orders), HandleStatusChange(value), search, localDate, today);
      forall i :: 0 <= i < |r| ==> r[i].status in HandleStatusChange(value)
    ensures value == "all" ==> forall i :: 0 <= i < |orders| && orders[i].status in HistoryStatuses ==>
      (search == "" || OrdersTable.Matches(orders[i].id, search) || OrdersTable.Matches(orders[i].customerName, search)) ==>
      orders[i] in HistoryOrders(Some(orders), HandleStatusChange(value), search, localDate, today)
  {
  }

  /** The live-orders card: pending plus confirmed, a missing figure counting 0. */
  function ActiveOrders(stats: Option<DateStats>): (n: nat)
    ensures stats.None? ==> n == 0
    ensures stats.Some? ==> n == stats.value.stats.pendingOrders + stats.value.stats.confirmedOrders
  {
    match stats
    case None => 0
    case Some(s) => s.stats.pendingOrders + s.stats.confirmedOrders
  }

  /** The card counts exactly the active (pending or confirmed) orders among those the stats cover. */
  lemma ActiveOrdersAreActive(orders: seq<Order>, date: Option<string>)
    ensures ActiveOrders(Some(DashboardStatsHook.StatsByDate(orders, date)))
         == Seqs.Count(DashboardStatsHook.Relevant(orders, date), OrdersTable.IsActive)
  {
    Seqs.CountUnion(DashboardStatsHook.Relevant(orders, date),
      DashboardStatsHook.IsPending, DashboardStatsHook.IsConfirmed, OrdersTable.IsActive);
  }

  /** The stats cards as written: `useStatsByDate()` with no date, so over every order. */
  function OverviewStats(orders: seq<Order>): (r: DateStats)
    ensures r.date == "all"
    ensures r.stats == DashboardStatsHook.CurrentStats(orders)
  {
    DashboardStatsHook.CurrentMatchesUndated(orders);
    DashboardStatsHook.StatsByDate(orders, None)
  }

  /**
   * The cards are labelled as today's figures, yet a completed order from
   * another day is counted, where today's figures count nothing.
   */
  lemma OverviewCountsEarlierDays(o: Order, today: string)
    requires o.status == Completed && today != "" && !(today <= o.createdAt)
    ensures OverviewStats([o]).stats.completedOrders == 1
    ensures TodayStats([o], today).stats.completedOrders == 0
  {
    assert [o][1..] == [];
    assert DashboardStatsHook.Relevant([o], Some(today)) == [];
  }

  /**
   * The stats cards as intended: `useStatsByDate(today)`, where `today` is
   * the `YYYY-MM-DD` prefix of the current ISO timestamp. Only orders
   * created today are counted, so no figure exceeds the all-time one.
   */
  function TodayStats(orders: seq<Order>, today: string): (r: DateStats)
    requires today != ""
    ensures r.date == today
    ensures r.stats.completedOrders <= DashboardStatsHook.CurrentStats(orders).completedOrders
    ensures r.stats.pendingOrders <= DashboardStatsHook.CurrentStats(orders).pendingOrders
    ensures r.stats.confirmedOrders <= DashboardStatsHook.CurrentStats(orders).confirmedOrders
    ensures (forall i :: 0 <= i < |orders| ==> !(today <= orders[i].createdAt)) ==>
      r.stats.completedOrders == 0 && r.stats.pendingOrders == 0 && r.stats.confirmedOrders == 0
  {
    DashboardStatsHook.DatedCountsBounded(orders, today);
    NothingFromToday(orders, today);
    DashboardStatsHook.StatsByDate(orders, Some(today))
  }

  lemma NothingFromToday(orders: seq<Order>, today: string)
    ensures (forall i :: 0 <= i < |orders| ==> !(today <= orders[i].createdAt)) ==>
      DashboardStatsHook.Relevant(orders, Some(today)) == []
  {
    var rel := DashboardStatsHook.Relevant(orders, Some(today));
    if rel != [] {
      assert rel[0] in orders;
    }
  }

  /** The available-tables card: tables whose status is available; 0 while the tables are undefined. */
  function AvailableTables(tables: Option<seq<Table>>): (n: nat)
    ensures tables.None? ==> n == 0
    ensures tables.Some? ==> n <= |tables.value|
  {
    match tables
    case None => 0
    case Some(ts) => Seqs.Count(ts, (t: Table) => t.status == Available)
  }

  /**
   * The card agrees with the tables page's available count and with the
   * number of cards its "available" tab shows.
   */
  lemma AvailableTablesMatchesTablesPage(tables: seq<Table>)
    ensures AvailableTables(Some(tables)) == TablesPage.StatusCount(Some(tables), Available)
    ensures AvailableTables(Some(tables))
         == |TablesPage.VisibleTables(Some(tables), TablesPage.OnlyStatus(Available), "all")|
  {
    Seqs.FilterAgree(tables, (t: Table) => t.status == Available, (t: Table) => t.status == Available);
    TablesPage.StatusCountMatchesTab(tables, Available);
  }
}
