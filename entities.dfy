/**
 * The records the dashboard reads from the backend (orders, menu items,
 * categories, tables, table settings) and the derived dashboard figures.
 * Only the fields the modelled logic reads are kept.
 */
module Entities {
  import opened Wrappers

  /** Order statuses are strings at run time: pages cast tab values to them unchecked. */
  type Status = string

  const Pending: Status := "pending"
  const Confirmed: Status := "confirmed"
  const Completed: Status := "completed"
  const Cancelled: Status := "cancelled"

  datatype OrderItem = OrderItem(id: string, menuItemId: string, quantity: int, itemPrice: real)

  /** `items` is optional in the backend schema; `totalAmount` is exact (no floating point). */
  datatype Order = Order(
    id: string,
    customerName: string,
    status: Status,
    totalAmount: real,
    createdAt: string,
    items: Option<seq<OrderItem>>)

  datatype Category = Category(
    id: string,
    name: string,
    description: Option<string>,
    storeId: Option<string>,
    available: Option<bool>)

  datatype MenuItem = MenuItem(
    id: string,
    name: string,
    description: Option<string>,
    price: real,
    tax: Option<real>,
    category: Category,
    storeId: string,
    imageUrl: Option<string>,
    allergens: Option<seq<string>>,
    isAvailable: Option<bool>)

  datatype TableStatus = Available | Occupied | Reserved | Maintenance

  datatype Table = Table(
    id: string,
    number: string,
    capacity: int,
    section: string,
    status: TableStatus,
    storeId: string)

  datatype TableSettings = TableSettings(id: string, storeId: string, sections: seq<string>)

  /** The five dashboard figures. */
  datatype DashboardStats = DashboardStats(
    revenue: real,
    completedOrders: nat,
    pendingOrders: nat,
    confirmedOrders: nat,
    averageOrder: real)

  /** The figures with the date they were computed for (`'all'` when none). */
  datatype DateStats = DateStats(date: string, stats: DashboardStats)

  /** What a slot of the shared query cache holds. */
  datatype CachedData =
    | OrderList(orders: seq<Order>)
    | MenuItemList(menuItems: seq<MenuItem>)
    | MenuItemEntry(menuItem: MenuItem)
    | CategoryList(categories: seq<Category>)
    | CategoryEntry(category: Category)
    | TableList(tables: seq<Table>)
    | TableEntry(table: Table)
    | SectionList(sections: seq<string>)
    | StatsEntry(stats: DashboardStats)
    | DateStatsEntry(dateStats: DateStats)
}
