/**
 * `useOrders` (src/hooks/use-orders.ts): the orders query keys, the detail
 * query's enablement, and the two writes into the cached order list: the
 * status-update `onSuccess` updater and the socket's `newOrder` merge.
 */
module OrdersHook {
  import opened Wrappers
  import opened Entities
  import opened QueryCache
  import Seqs

  const Root := "orders"

  /** The list query: `lists()`, fetched from `/api/orders`, stale after five minutes. */
  function AllOrdersQuery(): (q: QueryOptions)
    ensures q.key == [Name("orders"), Name("list")] && q.enabled
  {
    QueryOptions(ListsKey(Root), "/api/orders", FiveMinutes, true)
  }

  /** The detail query: `detail(id)`, enabled only for a non-empty id (`!!id`). */
  function OrderDetailsQuery(id: string): (q: QueryOptions)
    ensures q.key == [Name("orders"), Name("detail"), Name(id)]
    ensures q.enabled <==> id != ""
    ensures q.url == "/api/orders/" + id
  {
    QueryOptions(DetailKey(Root, id), "/api/orders/" + id, FiveMinutes, id != "")
  }

  predicate HasId(orders: seq<Order>, id: string) {
    exists i :: 0 <= i < |orders| && orders[i].id == id
  }

  /** No two orders share an `_id`. */
  predicate UniqueIds(orders: seq<Order>) {
    forall i, j :: 0 <= i < j < |orders| ==> orders[i].id != orders[j].id
  }

  /**
   * The `newOrder` updater: an undefined cache becomes `[o]`; an order whose id
   * is already cached leaves the list as it is; otherwise `o` is prepended.
   */
  function MergeNewOrder(cached: Option<seq<Order>>, o: Order): (r: seq<Order>)
    ensures HasId(r, o.id)
    ensures cached.Some? ==> |r| == |cached.value| || |r| == |cached.value| + 1
    ensures cached.Some? ==> r[|r| - |cached.value|..] == cached.value
    ensures cached.Some? && |r| == |cached.value| + 1 ==> r[0] == o && !HasId(cached.value, o.id)
  {
    match cached
    case None => assert [o][0].id == o.id; [o]
    case Some(prev) =>
      if HasId(prev, o.id) then prev
      else
        assert ([o] + prev)[0].id == o.id;
        assert ([o] + prev)[1..] == prev;
        [o] + prev
  }

  /** Receiving the same event twice leaves the cache as receiving it once. */
  lemma MergeIdempotent(cached: Option<seq<Order>>, o: Order)
    ensures MergeNewOrder(Some(MergeNewOrder(cached, o)), o) == MergeNewOrder(cached, o)
  {
  }

  /** An empty cache becomes the single new order; an unseen order grows the list by one at the front. */
  lemma MergeCases(cached: Option<seq<Order>>, o: Order)
    ensures cached.None? ==> MergeNewOrder(cached, o) == [o]
    ensures cached.Some? && !HasId(cached.value, o.id) ==> MergeNewOrder(cached, o) == [o] + cached.value
    ensures cached.Some? && HasId(cached.value, o.id) ==> MergeNewOrder(cached, o) == cached.value
  {
  }

  /** A merge never introduces a duplicate id into a duplicate-free list. */
  lemma MergeKeepsIdsUnique(cached: Option<seq<Order>>, o: Order)
    requires cached.Some? ==> UniqueIds(cached.value)
    ensures UniqueIds(MergeNewOrder(cached, o))
  {
    if cached.Some? && !HasId(cached.value, o.id) {
      var r := MergeNewOrder(cached, o);
      forall i, j | 0 <= i < j < |r|
        ensures r[i].id != r[j].id
      {
        if i == 0 {
          assert r[j] == cached.value[j - 1];
        } else {
          assert r[i] == cached.value[i - 1] && r[j] == cached.value[j - 1];
        }
      }
    }
  }

  /**
   * The status-update updater: an undefined cache becomes `[]`; otherwise each
   * order whose id is `orderId` gets the requested status, all else unchanged.
   */
  function SetStatus(cached: Option<seq<Order>>, orderId: string, status: Status): (r: seq<Order>)
    ensures cached.None? ==> r == []
    ensures cached.Some? ==> |r| == |cached.value|
    ensures cached.Some? ==> forall i :: 0 <= i < |r| ==>
      r[i].id == cached.value[i].id
      && (r[i].id == orderId ==> r[i] == cached.value[i].(status := status))
      && (r[i].id != orderId ==> r[i] == cached.value[i])
  {
    match cached
    case None => []
    case Some(prev) =>
      Seqs.Map(prev, (o: Order) => if o.id == orderId then o.(status := status) else o)
  }

  /** Applying the same status update twice is the same as once. */
  lemma SetStatusIdempotent(orders: seq<Order>, orderId: string, status: Status)
    ensures SetStatus(Some(SetStatus(Some(orders), orderId, status)), orderId, status)
         == SetStatus(Some(orders), orderId, status)
  {
  }

  /** After the update every cached copy of `orderId` has the new status, and the set of ids is unchanged. */
  lemma SetStatusEffect(orders: seq<Order>, orderId: string, status: Status)
    ensures forall i :: 0 <= i < |orders| && orders[i].id == orderId ==>
      SetStatus(Some(orders), orderId, status)[i].status == status
    ensures forall id :: HasId(SetStatus(Some(orders), orderId, status), id) <==> HasId(orders, id)
  {
    var r := SetStatus(Some(orders), orderId, status);
    forall id
      ensures HasId(r, id) <==> HasId(orders, id)
    {
      if HasId(r, id) {
        var i :| 0 <= i < |r| && r[i].id == id;
        assert orders[i].id == id;
      }
      if HasId(orders, id) {
        var i :| 0 <= i < |orders| && orders[i].id == id;
        assert r[i].id == id;
      }
    }
  }

  /** What the list slot holds, as the updaters receive it (`undefined` when absent). */
  function CachedOrders(m: map<Key, Entry<CachedData>>): (r: Option<seq<Order>>)
    ensures r.Some? <==> ListsKey(Root) in m && m[ListsKey(Root)].value.OrderList?
  {
    var k := ListsKey(Root);
    if k in m && m[k].value.OrderList? then Some(m[k].value.orders) else None
  }

  /** `useUpdateOrderStatus`'s `onSuccess`: rewrites the list slot with the requested status. */
  method OnStatusUpdated(client: QueryClient<CachedData>, orderId: string, status: Status)
    modifies client
    ensures client.entries == Written(old(client.entries), ListsKey(Root),
      OrderList(SetStatus(CachedOrders(old(client.entries)), orderId, status)))
  {
    var updated := SetStatus(CachedOrders(client.entries), orderId, status);
    client.SetQueryData(ListsKey(Root), OrderList(updated));
  }

  /** The socket's `newOrder` handler: merges the order into the list slot. */
  method OnNewOrder(client: QueryClient<CachedData>, o: Order)
    modifies client
    ensures client.entries == Written(old(client.entries), ListsKey(Root),
      OrderList(MergeNewOrder(CachedOrders(old(client.entries)), o)))
  {
    var merged := MergeNewOrder(CachedOrders(client.entries), o);
    client.SetQueryData(ListsKey(Root), OrderList(merged));
  }

  /** Both cache writes touch only the list slot; detail slots keep their values. */
  lemma CacheWritesTouchOnlyList(m: map<Key, Entry<CachedData>>, v: CachedData, id: string)
    ensures DetailKey(Root, id) in m ==> Written(m, ListsKey(Root), v)[DetailKey(Root, id)] == m[DetailKey(Root, id)]
  {
    KeyShapes(Root, Root, id, id, "");
  }
}
