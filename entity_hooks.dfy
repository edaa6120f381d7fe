/**
 * `useMenuItems` (src/hooks/use-menu-items.ts): the menu-item query keys and
 * queries, the requests each mutation sends, and each mutation's `onSuccess`
 * effect on the shared query cache.
 */
module MenuItemsHook {
  import opened Wrappers
  import opened Entities
  import opened QueryCache
  import opened Forms

  const Root := "menu-items"
  const Base := "/api/menu-items"

  /** `useAllMenuItems`: `lists()`, fetched from `/api/menu-items`, stale after five minutes. */
  function AllMenuItemsQuery(): (q: QueryOptions)
    ensures q.key == [Name("menu-items"), Name("list")]
    ensures q.url == "/api/menu-items" && q.staleTime == FiveMinutes && q.enabled
  {
    QueryOptions(ListsKey(Root), Base, FiveMinutes, true)
  }

  /** `useMenuItemById(id)`: `detail(id)`, enabled only for a non-empty id (`!!id`). */
  function MenuItemByIdQuery(id: string): (q: QueryOptions)
    ensures q.key == [Name("menu-items"), Name("detail"), Name(id)]
    ensures q.enabled <==> id != ""
    ensures q.url == "/api/menu-items/" + id && q.staleTime == FiveMinutes
  {
    QueryOptions(DetailKey(Root, id), Base + "/" + id, FiveMinutes, id != "")
  }

  /**
   * The update mutation's URL: the id is `formData.get('id') as string`, so a
   * form without an `id` field puts `null` in the path. A non-text `id` field
   * gives `None` (its string form is not modelled).
   */
  function UpdateUrl(fields: seq<Field>): (r: Option<string>)
    ensures Lookup(fields, "id").None? ==> r == Some("/api/menu-items/null")
    ensures r.Some? && Lookup(fields, "id").Some? ==>
      Lookup(fields, "id").value.Str? && r.value == "/api/menu-items/" + Lookup(fields, "id").value.s
  {
    match Lookup(fields, "id")
    case None => Some("/api/menu-items/null")
    case Some(v) => if v.Str? then Some(Base + "/" + v.s) else None
  }

  /** A form whose first `id` field holds `id` is sent to that item's URL. */
  lemma UpdateUrlOfId(fields: seq<Field>, id: string)
    requires Lookup(fields, "id") == Some(Str(id))
    ensures UpdateUrl(fields) == Some("/api/menu-items/" + id)
  {
  }

  /** The availability mutation's body: the flag and the category, nothing else. */
  datatype AvailabilityBody = AvailabilityBody(isAvailable: bool, categoryId: string)

  datatype AvailabilityCall = AvailabilityCall(url: string, body: AvailabilityBody)

  /** `updateMenuItemAvailabilityMutation`'s request: PUT to the item's URL. */
  function AvailabilityRequest(id: string, isAvailable: bool, categoryId: string): (c: AvailabilityCall)
    ensures c.url == "/api/menu-items/" + id
    ensures c.body.isAvailable == isAvailable && c.body.categoryId == categoryId
  {
    AvailabilityCall(Base + "/" + id, AvailabilityBody(isAvailable, categoryId))
  }

  /** The delete mutation's URL; its result is the id it was given. */
  function DeleteUrl(id: string): (url: string)
    ensures |url| == |Base| + 1 + |id| && url[..|Base| + 1] == "/api/menu-items/" && url[|Base| + 1..] == id
  {
    Base + "/" + id
  }

  /** Create success: the list queries are invalidated. */
  method OnCreated(client: QueryClient<CachedData>)
    modifies client
    ensures client.entries == AfterCreate(old(client.entries), Root)
  {
    client.InvalidateQueries(ListsKey(Root));
  }

  /** Update success: the returned item is written into `detail(data._id)`, then the lists are invalidated. */
  method OnUpdated(client: QueryClient<CachedData>, data: MenuItem)
    modifies client
    ensures client.entries == AfterUpdate(old(client.entries), Root, data.id, MenuItemEntry(data))
  {
    client.SetQueryData(DetailKey(Root, data.id), MenuItemEntry(data));
    client.InvalidateQueries(ListsKey(Root));
  }

  /** Availability success: the same effect as an update. */
  method OnAvailabilityUpdated(client: QueryClient<CachedData>, data: MenuItem)
    modifies client
    ensures client.entries == AfterUpdate(old(client.entries), Root, data.id, MenuItemEntry(data))
  {
    client.SetQueryData(DetailKey(Root, data.id), MenuItemEntry(data));
    client.InvalidateQueries(ListsKey(Root));
  }

  /** Delete success with the returned id: its detail slot is removed, then the lists are invalidated. */
  method OnDeleted(client: QueryClient<CachedData>, id: string)
    modifies client
    ensures client.entries == AfterDelete(old(client.entries), Root, id)
  {
    client.RemoveQueries(DetailKey(Root, id));
    client.InvalidateQueries(ListsKey(Root));
  }
}

/**
 * `useCategories` (src/hooks/use-categories.ts): keys, queries, requests and
 * `onSuccess` cache effects for categories.
 */
module CategoriesHook {
  import opened Wrappers
  import opened Entities
  import opened QueryCache

  const Root := "categories"
  const Base := "/api/categories"

  function AllCategoriesQuery(): (q: QueryOptions)
    ensures q.key == [Name("categories"), Name("list")]
    ensures q.url == "/api/categories" && q.staleTime == FiveMinutes && q.enabled
  {
    QueryOptions(ListsKey(Root), Base, FiveMinutes, true)
  }

  /** `useCategoryById(id)`: enabled only for a non-empty id. */
  function CategoryByIdQuery(id: string): (q: QueryOptions)
    ensures q.key == [Name("categories"), Name("detail"), Name(id)]
    ensures q.enabled <==> id != ""
    ensures q.url == "/api/categories/" + id && q.staleTime == FiveMinutes
  {
    QueryOptions(DetailKey(Root, id), Base + "/" + id, FiveMinutes, id != "")
  }

  /** The update mutation's argument `{ id, name, description?, available }`. */
  datatype UpdateRequest = UpdateRequest(id: string, name: string, description: Option<string>, available: bool)

  /** What is PUT: `updateData`, the argument without its `id`. */
  datatype UpdateBody = UpdateBody(name: string, description: Option<string>, available: bool)

  datatype UpdateCall = UpdateCall(url: string, body: UpdateBody)

  /** The category update: the id goes into the URL, every other field into the body. */
  function Update(req: UpdateRequest): (c: UpdateCall)
    ensures |c.url| == |Base| + 1 + |req.id| && c.url[..|Base| + 1] == "/api/categories/" && c.url[|Base| + 1..] == req.id
    ensures c.body.name == req.name && c.body.description == req.description && c.body.available == req.available
  {
    UpdateCall(Base + "/" + req.id, UpdateBody(req.name, req.description, req.available))
  }

  /** The id read back from the URL, with the body, rebuilds the request: nothing is lost by moving the id. */
  lemma UpdateSplitsRequest(req: UpdateRequest)
    ensures var c := Update(req);
      UpdateRequest(c.url[|Base| + 1..], c.body.name, c.body.description, c.body.available) == req
  {
  }

  function DeleteUrl(id: string): (url: string)
    ensures |url| == |Base| + 1 + |id| && url[..|Base| + 1] == "/api/categories/" && url[|Base| + 1..] == id
  {
    Base + "/" + id
  }

  method OnCreated(client: QueryClient<CachedData>)
    modifies client
    ensures client.entries == AfterCreate(old(client.entries), Root)
  {
    client.InvalidateQueries(ListsKey(Root));
  }

  method OnUpdated(client: QueryClient<CachedData>, data: Category)
    modifies client
    ensures client.entries == AfterUpdate(old(client.entries), Root, data.id, CategoryEntry(data))
  {
    client.SetQueryData(DetailKey(Root, data.id), CategoryEntry(data));
    client.InvalidateQueries(ListsKey(Root));
  }

  method OnDeleted(client: QueryClient<CachedData>, id: string)
    modifies client
    ensures client.entries == AfterDelete(old(client.entries), Root, id)
  {
    client.RemoveQueries(DetailKey(Root, id));
    client.InvalidateQueries(ListsKey(Root));
  }
}

/**
 * `useTables` (src/hooks/use-tables.ts): keys, queries, requests and
 * `onSuccess` cache effects for tables.
 */
module TablesHook {
  import opened Wrappers
  import opened Entities
  import opened QueryCache

  const Root := "tables"
  const Base := "/api/tables"

  function AllTablesQuery(): (q: QueryOptions)
    ensures q.key == [Name("tables"), Name("list")]
    ensures q.url == "/api/tables" && q.staleTime == FiveMinutes && q.enabled
  {
    QueryOptions(ListsKey(Root), Base, FiveMinutes, true)
  }

  /** `useTableById(id)`: enabled only for a non-empty id. */
  function TableByIdQuery(id: string): (q: QueryOptions)
    ensures q.key == [Name("tables"), Name("detail"), Name(id)]
    ensures q.enabled <==> id != ""
    ensures q.url == "/api/tables/" + id && q.staleTime == FiveMinutes
  {
    QueryOptions(DetailKey(Root, id), Base + "/" + id, FiveMinutes, id != "")
  }

  /** The update mutation's argument: an id and optional fields. */
  datatype UpdateRequest = UpdateRequest(
    id: string,
    number: Option<string>,
    capacity: Option<int>,
    section: Option<string>,
    status: Option<TableStatus>,
    storeId: Option<string>)

  /** What is PUT: the argument without its `id`. */
  datatype UpdateBody = UpdateBody(
    number: Option<string>,
    capacity: Option<int>,
    section: Option<string>,
    status: Option<TableStatus>,
    storeId: Option<string>)

  datatype UpdateCall = UpdateCall(url: string, body: UpdateBody)

  function Update(req: UpdateRequest): (c: UpdateCall)
    ensures |c.url| == |Base| + 1 + |req.id| && c.url[..|Base| + 1] == "/api/tables/" && c.url[|Base| + 1..] == req.id
    ensures c.body.number == req.number && c.body.capacity == req.capacity && c.body.section == req.section
    ensures c.body.status == req.status && c.body.storeId == req.storeId
  {
    UpdateCall(Base + "/" + req.id, UpdateBody(req.number, req.capacity, req.section, req.status, req.storeId))
  }

  /** The id read back from the URL, with the body, rebuilds the request. */
  lemma UpdateSplitsRequest(req: UpdateRequest)
    ensures var c := Update(req);
      UpdateRequest(c.url[|Base| + 1..], c.body.number, c.body.capacity, c.body.section, c.body.status, c.body.storeId) == req
  {
  }

  function DeleteUrl(id: string): (url: string)
    ensures |url| == |Base| + 1 + |id| && url[..|Base| + 1] == "/api/tables/" && url[|Base| + 1..] == id
  {
    Base + "/" + id
  }

  method OnCreated(client: QueryClient<CachedData>)
    modifies client
    ensures client.entries == AfterCreate(old(client.entries), Root)
  {
    client.InvalidateQueries(ListsKey(Root));
  }

  method OnUpdated(client: QueryClient<CachedData>, data: Table)
    modifies client
    ensures client.entries == AfterUpdate(old(client.entries), Root, data.id, TableEntry(data))
  {
    client.SetQueryData(DetailKey(Root, data.id), TableEntry(data));
    client.InvalidateQueries(ListsKey(Root));
  }

  method OnDeleted(client: QueryClient<CachedData>, id: string)
    modifies client
    ensures client.entries == AfterDelete(old(client.entries), Root, id)
  {
    client.RemoveQueries(DetailKey(Root, id));
    client.InvalidateQueries(ListsKey(Root));
  }
}

/**
 * `useTableSettings(storeId)` (src/hooks/use-table-settings.ts): the per-store
 * section list, its query, and the two mutations that save sections and
 * write the server's list back into the cache.
 */
module TableSettingsHook {
  import opened Wrappers
  import opened Entities
  import opened QueryCache

  /** `tableSettingsKeys.store(storeId)`. */
  function StoreKey(storeId: string): Key {
    [Name("table-settings"), Name(storeId)]
  }

  /** `tableSettingsKeys.sections(storeId)`: under the store's key. */
  function SectionsKey(storeId: string): (k: Key)
    ensures StoreKey(storeId) <= k
    ensures k == [Name("table-settings"), Name(storeId), Name("settings"), Name("sections")]
  {
    StoreKey(storeId) + [Name("settings"), Name("sections")]
  }

  /** Each store has its own sections slot, outside every other store's keys and every entity's keys. */
  lemma SectionsKeysSeparate(s: string, t: string, root: string)
    ensures StoreKey(t) <= SectionsKey(s) <==> s == t
    ensures root != "table-settings" ==> !(AllKey(root) <= SectionsKey(s))
  {
    if StoreKey(t) <= SectionsKey(s) {
      assert StoreKey(t)[1] == SectionsKey(s)[1];
    }
    if AllKey(root) <= SectionsKey(s) {
      assert AllKey(root)[0] == SectionsKey(s)[0];
    }
  }

  /** `useSections`: fetched from `/api/table-settings/<storeId>`, stale after one second, not five minutes. */
  function SectionsQuery(storeId: string): (q: QueryOptions)
    ensures q.key == SectionsKey(storeId) && q.url == "/api/table-settings/" + storeId
    ensures q.staleTime == 1000 && q.staleTime < FiveMinutes && q.enabled
  {
    QueryOptions(SectionsKey(storeId), "/api/table-settings/" + storeId, 1000, true)
  }

  /**
   * What `useSections` reads for a store from the cache: the list in the
   * store's sections slot (the query stores `data.settings.sections` there), or
   * nothing while that slot is empty.
   */
  function CachedSections(m: map<Key, Entry<CachedData>>, storeId: string): Option<seq<string>> {
    var k := SectionsKey(storeId);
    if k in m && m[k].value.SectionList? then Some(m[k].value.sections) else None
  }

  /** A section-saving request: the URL POSTed to and its body. */
  datatype SectionsCall = SectionsCall(url: string, storeId: Option<string>, sections: seq<string>)

  /** `addSectionMutation`: the store is in the path, the body is `{ sections }`. */
  function AddSectionRequest(storeId: string, sections: seq<string>): (c: SectionsCall)
    ensures c.url == "/api/table-settings/" + storeId + "/sections"
    ensures c.storeId.None? && c.sections == sections
  {
    SectionsCall("/api/table-settings/" + storeId + "/sections", None, sections)
  }

  /** `createFirstSectionMutation`: the store is in the body, `{ storeId, sections }`. */
  function CreateFirstSectionRequest(storeId: string, sections: seq<string>): (c: SectionsCall)
    ensures c.url == "/api/table-settings"
    ensures c.storeId == Some(storeId) && c.sections == sections
  {
    SectionsCall("/api/table-settings", Some(storeId), sections)
  }

  /**
   * The `onSuccess` of both mutations: the hook's sections slot is replaced by
   * the list in the server's answer; nothing is appended locally.
   */
  method OnSectionsSaved(client: QueryClient<CachedData>, storeId: string, data: TableSettings)
    modifies client
    ensures client.entries == Written(old(client.entries), SectionsKey(storeId), SectionList(data.sections))
  {
    client.SetQueryData(SectionsKey(storeId), SectionList(data.sections));
  }

  /**
   * After a save, the store's slot holds exactly the server's list whatever it
   * held before, and no other store's slot and no entity slot changes.
   */
  lemma SectionsSavedEffect(m: map<Key, Entry<CachedData>>, storeId: string, data: TableSettings)
    ensures var r := Written(m, SectionsKey(storeId), SectionList(data.sections));
      r[SectionsKey(storeId)] == Entry(SectionList(data.sections), false)
      && CachedSections(r, storeId) == Some(data.sections)
      && (forall t :: t != storeId ==> CachedSections(r, t) == CachedSections(m, t))
      && (forall t :: t != storeId && SectionsKey(t) in m ==> r[SectionsKey(t)] == m[SectionsKey(t)])
      && (forall k :: k in m && |k| > 0 && k[0] != Name("table-settings") ==> r[k] == m[k])
  {
    var r := Written(m, SectionsKey(storeId), SectionList(data.sections));
    forall t | t != storeId && SectionsKey(t) in m
      ensures r[SectionsKey(t)] == m[SectionsKey(t)]
    {
      assert SectionsKey(t)[1] != SectionsKey(storeId)[1];
    }
    forall t | t != storeId ensures CachedSections(r, t) == CachedSections(m, t) {
      assert SectionsKey(t)[1] != SectionsKey(storeId)[1];
    }
  }
}
