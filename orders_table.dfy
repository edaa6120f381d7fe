/**
 * `OrdersTable` (src/components/dashboard/orders-table.tsx): which orders
 * the table shows, the per-order item count, and the set of expanded rows.
 * The calendar date of an order's `createdAt` in the browser's time zone,
 * and today's date, are inputs.
 */
module OrdersTable {
  import opened Wrappers
  import opened Entities
  import Seqs
  import Text

  datatype CalendarDate = CalendarDate(day: int, month: int, year: int)

  /** The component's props that drive filtering. */
  datatype Props = Props(filterStatus: seq<Status>, searchQuery: string, showActiveOnly: bool, showToday: bool)

  predicate IsActive(o: Order) {
    o.status == Pending || o.status == Confirmed
  }

  /** `s.toLowerCase().includes(q.toLowerCase())`. */
  predicate Matches(s: string, q: string) {
    Text.Contains(Text.Lower(s), Text.Lower(q))
  }

  /** The `filter` callback, check by check with its early `return false`s. */
  predicate Keep(props: Props, localDate: string -> CalendarDate, today: CalendarDate, o: Order) {
    (!props.showActiveOnly || IsActive(o))
    && (|props.filterStatus| == 0 || o.status in props.filterStatus)
    && (!props.showToday || localDate(o.createdAt) == today)
    && (props.searchQuery == "" || Matches(o.id, props.searchQuery) || Matches(o.customerName, props.searchQuery))
  }

  /** `filteredOrders`: the kept orders in their original order; `[]` while orders are undefined. */
  function FilterOrders(orders: Option<seq<Order>>, props: Props, localDate: string -> CalendarDate, today: CalendarDate)
    : (r: seq<Order>)
    ensures orders.None? ==> r == []
    ensures orders.Some? ==> Seqs.SubseqOf(r, orders.value)
    ensures orders.Some? ==> |r| == Seqs.Count(orders.value, (o: Order) => Keep(props, localDate, today, o))
    ensures orders.Some? ==> forall i :: 0 <= i < |orders.value| && Keep(props, localDate, today, orders.value[i]) ==>
      orders.value[i] in r
    ensures forall i :: 0 <= i < |r| ==> orders.Some? && r[i] in orders.value
    ensures props.showActiveOnly ==> forall i :: 0 <= i < |r| ==> IsActive(r[i])
    ensures |props.filterStatus| > 0 ==> forall i :: 0 <= i < |r| ==> r[i].status in props.filterStatus
    ensures props.showToday ==> forall i :: 0 <= i < |r| ==> localDate(r[i].createdAt) == today
    ensures props.searchQuery != "" ==> forall i :: 0 <= i < |r| ==>
      Matches(r[i].id, props.searchQuery) || Matches(r[i].customerName, props.searchQuery)
  {
    match orders
    case None => []
    case Some(os) => Seqs.Filter(os, (o: Order) => Keep(props, localDate, today, o))
  }

  /** With every filter off, the table shows every order as fetched. */
  lemma NoFilterShowsAll(orders: seq<Order>, localDate: string -> CalendarDate, today: CalendarDate)
    ensures FilterOrders(Some(orders), Props([], "", false, false), localDate, today) == orders
  {
    Seqs.FilterAll(orders, (o: Order) => Keep(Props([], "", false, false), localDate, today, o));
  }

  lemma LowerIdempotent(s: string)
    ensures Text.Lower(Text.Lower(s)) == Text.Lower(s)
  {
  }

  /** The search ignores ASCII case: a query and its lower-cased form show the same orders. */
  lemma SearchIgnoresCase(o: Order, q: string)
    ensures Matches(o.id, q) == Matches(o.id, Text.Lower(q))
    ensures Matches(o.customerName, q) == Matches(o.customerName, Text.Lower(q))
  {
    LowerIdempotent(q);
  }

  /** `item.quantity` summed with `reduce`, from the left. */
  function SumQuantities(items: seq<OrderItem>): int {
    if items == [] then 0 else SumQuantities(items[..|items| - 1]) + items[|items| - 1].quantity
  }

  /** `getOrderItemsCount`: the quantities' sum, 0 when `items` is absent. */
  function ItemCount(o: Order): (n: int)
    ensures o.items.None? ==> n == 0
    ensures o.items.Some? ==> n == SumQuantities(o.items.value)
  {
    match o.items
    case None => 0
    case Some(items) => SumQuantities(items)
  }

  /** Counting a list split in two adds the two counts: each line's quantity is counted once. */
  lemma {:induction false} SumQuantitiesConcat(a: seq<OrderItem>, b: seq<OrderItem>)
    ensures SumQuantities(a + b) == SumQuantities(a) + SumQuantities(b)
    decreases |b|
  {
    if b == [] {
      assert a + b == a;
    } else {
      assert (a + b)[..|a + b| - 1] == a + b[..|b| - 1];
      SumQuantitiesConcat(a, b[..|b| - 1]);
    }
  }

  /** With non-negative quantities, the count is non-negative and at least each line's quantity. */
  lemma {:induction false} ItemCountBounds(items: seq<OrderItem>)
    requires forall i :: 0 <= i < |items| ==> items[i].quantity >= 0
    ensures SumQuantities(items) >= 0
    ensures forall i :: 0 <= i < |items| ==> items[i].quantity <= SumQuantities(items)
  {
    if items != [] {
      ItemCountBounds(items[..|items| - 1]);
      forall i | 0 <= i < |items| - 1
        ensures items[i].quantity <= SumQuantities(items)
      {
        assert items[..|items| - 1][i] == items[i];
      }
    }
  }

  /** The expanded-row set after `toggleOrder(id)`. */
  function Toggled(expanded: set<string>, id: string): (r: set<string>)
    ensures id in r <==> id !in expanded
    ensures forall x :: x != id ==> (x in r <==> x in expanded)
  {
    if id in expanded then expanded - {id} else expanded + {id}
  }

  /** Toggling the same row twice restores the set. */
  lemma ToggleTwice(expanded: set<string>, id: string)
    ensures Toggled(Toggled(expanded, id), id) == expanded
  {
  }

  /** The component's row-expansion state. */
  class TableState {
    var expanded: set<string>

    constructor ()
      ensures expanded == {}
    {
      expanded := {};
    }

    /** `toggleOrder`: copy the set, delete or add the id, store the copy. */
    method ToggleOrder(id: string)
      modifies this
      ensures expanded == Toggled(old(expanded), id)
    {
      var next := expanded;
      if id in next {
        next := next - {id};
      } else {
        next := next + {id};
      }
      expanded := next;
    }
  }
}
