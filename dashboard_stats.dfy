/**
 * `useDashboardStats` (src/hooks/use-dashboard-stats.ts): the dashboard
 * figures computed from the fetched order list, optionally restricted to one
 * date, their query keys, and the invalidation on every `newOrder` event.
 */
module DashboardStatsHook {
  import opened Wrappers
  import opened Entities
  import opened QueryCache
  import Seqs

  /** `dashboardKeys.stats()`. */
  function StatsKey(): Key {
    [Name("dashboard"), Name("stats")]
  }

  /** `dashboardKeys.detail(date)`: always under `stats()`. */
  function StatsDetailKey(date: string): (k: Key)
    ensures StatsKey() <= k && |k| == 3 && k[2] == Name(date)
  {
    StatsKey() + [Name(date)]
  }

  predicate IsCompleted(o: Order) { o.status == Completed }
  predicate IsPending(o: Order) { o.status == Pending }
  predicate IsConfirmed(o: Order) { o.status == Confirmed }

  /** `['completed', 'confirmed'].includes(order.status)`. */
  predicate CountsTowardsRevenue(o: Order) { o.status == Completed || o.status == Confirmed }

  /** The sum of the orders' total amounts. */
  function SumAmounts(orders: seq<Order>): real {
    if orders == [] then 0.0 else orders[0].totalAmount + SumAmounts(orders[1..])
  }

  /**
   * The orders a date-restricted query counts: those whose `createdAt` starts
   * with the date; an absent or empty date (both falsy) keeps every order.
   */
  function Relevant(orders: seq<Order>, date: Option<string>): (r: seq<Order>)
    ensures date.None? || date.value == "" ==> r == orders
    ensures forall i :: 0 <= i < |r| ==> r[i] in orders && date.GetOr("") <= r[i].createdAt
    ensures forall i :: 0 <= i < |orders| && date.GetOr("") <= orders[i].createdAt ==> orders[i] in r
    ensures Seqs.SubseqOf(r, orders)
    ensures |r| == Seqs.Count(orders, (o: Order) => date.GetOr("") <= o.createdAt)
  {
    if date.None? || date.value == "" then
      SubseqRefl(orders);
      Seqs.FilterAll(orders, (o: Order) => date.GetOr("") <= o.createdAt);
      orders
    else Seqs.Filter(orders, (o: Order) => date.value <= o.createdAt)
  }

  lemma {:induction false} SubseqRefl<T>(s: seq<T>)
    ensures Seqs.SubseqOf(s, s)
  {
    if s != [] {
      SubseqRefl(s[1..]);
    }
  }

  /** The five figures over a list of orders. */
  function Figures(orders: seq<Order>): (st: DashboardStats)
    ensures st.completedOrders == Seqs.Count(orders, IsCompleted)
    ensures st.pendingOrders == Seqs.Count(orders, IsPending)
    ensures st.confirmedOrders == Seqs.Count(orders, IsConfirmed)
    ensures st.averageOrder == Average(st.revenue, st.completedOrders + st.confirmedOrders)
  {
    var completed := Seqs.Count(orders, IsCompleted);
    var pending := Seqs.Count(orders, IsPending);
    var confirmed := Seqs.Count(orders, IsConfirmed);
    var revenue := SumAmounts(Seqs.Filter(orders, CountsTowardsRevenue));
    DashboardStats(revenue, completed, pending, confirmed, Average(revenue, completed + confirmed))
  }

  /** `relevantOrdersCount > 0 ? todayRevenue / relevantOrdersCount : 0`. */
  function Average(revenue: real, count: nat): (a: real)
    ensures count > 0 ==> a * count as real == revenue
    ensures count == 0 ==> a == 0.0
  {
    if count > 0 then
      var a := revenue / count as real;
      a
    else 0.0
  }

  /**
   * `useCurrentStats`'s query function, over every fetched order: the three
   * status counts (together at most the number of orders), the revenue of the
   * completed and confirmed orders, and their average.
   */
  function CurrentStats(orders: seq<Order>): (st: DashboardStats)
    ensures st.completedOrders == Seqs.Count(orders, IsCompleted)
    ensures st.pendingOrders == Seqs.Count(orders, IsPending)
    ensures st.confirmedOrders == Seqs.Count(orders, IsConfirmed)
    ensures st.completedOrders + st.pendingOrders + st.confirmedOrders <= |orders|
    ensures st.revenue == SumAmounts(Seqs.Filter(orders, IsCompleted)) + SumAmounts(Seqs.Filter(orders, IsConfirmed))
  {
    CountsBounded(orders);
    RevenueSplits(orders);
    Figures(orders)
  }

  /**
   * The average times the number of completed and confirmed orders is the
   * revenue; with no such order the average is 0.
   */
  predicate AverageConsistent(st: DashboardStats) {
    var count := st.completedOrders + st.confirmedOrders;
    (count > 0 ==> st.averageOrder * count as real == st.revenue)
    && (count == 0 ==> st.averageOrder == 0.0)
  }

  /** The current figures are consistent, and with no completed or confirmed order the revenue is 0. */
  lemma CurrentAverage(orders: seq<Order>)
    ensures AverageConsistent(CurrentStats(orders))
    ensures CurrentStats(orders).completedOrders + CurrentStats(orders).confirmedOrders == 0 ==>
      CurrentStats(orders).revenue == 0.0
  {
    AverageTimesCount(Figures(orders));
    if Figures(orders).completedOrders + Figures(orders).confirmedOrders == 0 {
      NoCountNoRevenue(orders);
    }
  }

  lemma AverageTimesCount(st: DashboardStats)
    requires st.averageOrder == Average(st.revenue, st.completedOrders + st.confirmedOrders)
    ensures AverageConsistent(st)
  {
  }

  /** The query function of `useStatsByDate`: the figures of the relevant orders, labelled with the date or `all`. */
  function StatsByDate(orders: seq<Order>, date: Option<string>): (r: DateStats)
    ensures r.date == if date.None? || date.value == "" then "all" else date.value
    ensures r.stats == Figures(Relevant(orders, date))
  {
    DateStats(if date.None? || date.value == "" then "all" else date.value, Figures(Relevant(orders, date)))
  }

  /** `useCurrentStats` and `useStatsByDate()` compute the same figures over all orders. */
  lemma CurrentMatchesUndated(orders: seq<Order>)
    ensures CurrentStats(orders) == StatsByDate(orders, None).stats
    ensures StatsByDate(orders, None) == StatsByDate(orders, Some(""))
  {
  }

  /** The three status counts never exceed the number of relevant orders. */
  lemma CountsBounded(orders: seq<Order>)
    ensures Figures(orders).completedOrders + Figures(orders).pendingOrders + Figures(orders).confirmedOrders <= |orders|
  {
    Seqs.CountDisjoint3(orders, IsCompleted, IsPending, IsConfirmed);
  }

  /** Revenue is the completed orders' total plus the confirmed orders' total; pending and cancelled add nothing. */
  lemma {:induction false} RevenueSplits(orders: seq<Order>)
    ensures Figures(orders).revenue
         == SumAmounts(Seqs.Filter(orders, IsCompleted)) + SumAmounts(Seqs.Filter(orders, IsConfirmed))
  {
    RevenueSplitsFilters(orders);
  }

  lemma {:induction false} RevenueSplitsFilters(orders: seq<Order>)
    ensures SumAmounts(Seqs.Filter(orders, CountsTowardsRevenue))
         == SumAmounts(Seqs.Filter(orders, IsCompleted)) + SumAmounts(Seqs.Filter(orders, IsConfirmed))
  {
    if orders != [] {
      RevenueSplitsFilters(orders[1..]);
    }
  }

  /** With no completed or confirmed order there is nothing to sum. */
  lemma NoRevenueWithoutCount(orders: seq<Order>)
    requires Seqs.Count(orders, IsCompleted) + Seqs.Count(orders, IsConfirmed) == 0
    ensures Seqs.Filter(orders, CountsTowardsRevenue) == []
  {
  }

  /**
   * With no completed or confirmed order both revenue and average are 0;
   * otherwise the average times that count is the revenue (the contract of `Average`).
   */
  lemma NoCountNoRevenue(orders: seq<Order>)
    requires Figures(orders).completedOrders + Figures(orders).confirmedOrders == 0
    ensures Figures(orders).revenue == 0.0 && Figures(orders).averageOrder == 0.0
  {
    NoRevenueWithoutCount(orders);
  }

  /** With non-negative amounts, revenue is non-negative. */
  lemma {:induction false} RevenueNonNegative(orders: seq<Order>)
    requires forall i :: 0 <= i < |orders| ==> orders[i].totalAmount >= 0.0
    ensures SumAmounts(orders) >= 0.0
  {
    if orders != [] {
      RevenueNonNegative(orders[1..]);
    }
  }

  lemma {:induction false} CountOfFilterBounded(s: seq<Order>, p: Order -> bool, q: Order -> bool)
    ensures Seqs.Count(Seqs.Filter(s, q), p) <= Seqs.Count(s, p)
  {
    if s != [] {
      CountOfFilterBounded(s[1..], p, q);
      if q(s[0]) {
        assert Seqs.Filter(s, q) == [s[0]] + Seqs.Filter(s[1..], q);
        assert ([s[0]] + Seqs.Filter(s[1..], q))[1..] == Seqs.Filter(s[1..], q);
      }
    }
  }

  /** One date's counts never exceed the counts over all orders. */
  lemma DatedCountsBounded(orders: seq<Order>, date: string)
    ensures var day := StatsByDate(orders, Some(date)).stats;
      var all := CurrentStats(orders);
      day.completedOrders <= all.completedOrders
      && day.pendingOrders <= all.pendingOrders
      && day.confirmedOrders <= all.confirmedOrders
  {
    if date != "" {
      var q := (o: Order) => date <= o.createdAt;
      CountOfFilterBounded(orders, IsCompleted, q);
      CountOfFilterBounded(orders, IsPending, q);
      CountOfFilterBounded(orders, IsConfirmed, q);
    }
  }

  /** The two queries: `stats()` for the current figures, `detail` of the date (or `all`) for one date. */
  function CurrentStatsQuery(): (q: QueryOptions)
    ensures q.key == StatsKey() && q.url == "/api/orders" && q.staleTime == FiveMinutes
  {
    QueryOptions(StatsKey(), "/api/orders", FiveMinutes, true)
  }

  function StatsByDateQuery(date: Option<string>): (q: QueryOptions)
    ensures q.key == StatsDetailKey(StatsByDate([], date).date)
    ensures q.url == "/api/orders" && q.staleTime == FiveMinutes
  {
    QueryOptions(StatsDetailKey(if date.None? || date.value == "" then "all" else date.value), "/api/orders", FiveMinutes, true)
  }

  /**
   * The literal date `"all"` shares its cache slot with the undated query,
   * although the figures it computes differ (it keeps only orders whose
   * `createdAt` starts with "all").
   */
  lemma AllDateSharesSlot(o: Order)
    requires o.status == Completed && !("all" <= o.createdAt)
    ensures StatsByDateQuery(Some("all")).key == StatsByDateQuery(None).key
    ensures StatsByDate([o], Some("all")).stats != StatsByDate([o], None).stats
  {
    assert Relevant([o], Some("all")) == [];
    assert Seqs.Filter([o], IsCompleted) == [o];
  }

  /** The `newOrder` socket handler: invalidates every stats query. */
  method OnNewOrder(client: QueryClient<CachedData>)
    modifies client
    ensures client.entries == Invalidated(old(client.entries), StatsKey())
  {
    client.InvalidateQueries(StatsKey());
  }

  /**
   * After the invalidation the current stats and every date's stats are stale,
   * and slots outside `['dashboard', 'stats', ...]` (the orders list included) keep their flag.
   */
  lemma NewOrderStalesEveryDate(m: map<Key, Entry<CachedData>>)
    ensures forall d :: StatsDetailKey(d) in m ==> Invalidated(m, StatsKey())[StatsDetailKey(d)].stale
    ensures StatsKey() in m ==> Invalidated(m, StatsKey())[StatsKey()].stale
    ensures forall k :: k in m && |k| > 0 && k[0] != Name("dashboard") ==> Invalidated(m, StatsKey())[k] == m[k]
  {
    forall k | k in m && |k| > 0 && k[0] != Name("dashboard")
      ensures Invalidated(m, StatsKey())[k] == m[k]
    {
      assert !(StatsKey() <= k);
    }
  }
}
