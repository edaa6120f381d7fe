# food-order-ADMIN, modelled in Dafny

food-order-ADMIN is the back office of a restaurant ordering system, built with Next.js. Staff use it to:

- watch live orders arrive over a socket;
- move orders through pending, confirmed ("in preparation"), completed and cancelled;
- manage menu items, categories, tables and the store's table sections.

The browser talks to a separate backend only through:

- thin Next.js route handlers built by `createApiHandler`;
- an edge middleware that turns away unauthenticated page requests;
- an axios instance whose response interceptor refreshes an expired session.

Fetched data lives in a react-query cache. Mutations keep it current from their `onSuccess` handlers.

This project models the logic behind those pieces:

| Group | Modules |
|---|---|
| Proxy | `ApiProxy` |
| Session gate | `SessionGate` |
| 401 interceptor | `ApiClient` |
| Cache and its per-entity hooks | `QueryCache`, `OrdersHook`, `DashboardStatsHook`, `MenuItemsHook`, `CategoriesHook`, `TablesHook`, `TableSettingsHook` |
| List logic of the pages and the orders table | `OrdersTable`, `MenuPage`, `TablesPage`, `StatusTabs`, `DashboardPage`, `LiveOrdersPage`, `CategoriesPage` |
| Form and submit logic of the dialogs | `Allergens`, `AllergenPipeline`, `Forms`, `MenuItemModals`, `TableModals` |

Shared vocabulary sits in `Wrappers`, `Seqs`, `Text` and `Entities`.

The source's state changes are modelled as mutable state:

- The query client is a class over a `map` from query key to entry (a value and a stale flag).
- `FormData`, the proxy's `NextResponse`, the browser location, the orders table's expanded-row set and the dialogs are also classes.
- Their methods are proved against the specification functions the lemmas talk about.

Pure computations are functions. These include filters, counts, key builders, the allergen pipeline and the submit sequences of the dialogs.

Everything outside the program is a parameter:

- the backend's answers;
- socket events;
- the public API base URL;
- today's date;
- whether each awaited call resolves.

## Model

| member | source | states |
|---|---|---|
| ApiProxy.IndexFrom | src/lib/apiUtils.ts:31 | the search inside `replace`: returns the first index at or after `from` where the pattern occurs, and None exactly when there is no later occurrence |
| ApiProxy.ReplaceFirst | src/lib/apiUtils.ts:31 | `replace` with a string pattern changes only the first occurrence and keeps every later one; without an occurrence the string is unchanged |
| ApiProxy.SubstitutePath | src/lib/apiUtils.ts:28-33 | the `forEach` loop leaves `finalPath` equal to the template with each parameter's first `:key` replaced, in parameter order |
| ApiProxy.FirstPlaceholder | src/lib/apiUtils.ts:30-32 | after a colon-free prefix, the first `:key` found is the one right after the prefix |
| ApiProxy.ReplaceAfterPrefix | src/lib/apiUtils.ts:31 | replacing `:key` after a colon-free prefix puts the value exactly there and keeps the rest |
| ApiProxy.RepeatedTokenKept | src/lib/apiUtils.ts:28-33 | a token that appears twice in the template is replaced once; the second stays literal |
| ApiProxy.SubstituteTwoParams | src/lib/apiUtils.ts:28-33 | a two-parameter template receives both values in place |
| ApiProxy.UnmatchedTokenKept | src/lib/apiUtils.ts:28-33 | a parameter whose token is absent leaves the path unchanged |
| ApiProxy.CookieHeaders | src/lib/apiUtils.ts:22-25 | a `Cookie` header equal to the inbound cookie is sent exactly when that cookie is present and non-empty; otherwise no header is sent |
| ApiProxy.BuildConfig | src/lib/apiUtils.ts:35-56 | URL is the API base plus the substituted path, with credentials. A body is attached iff `includeBody` holds and the method is not GET. It is multipart iff the content type contains `multipart/form-data`, which also adds that Content-Type. Otherwise it is the JSON body, or `{}` when parsing fails |
| ApiProxy.RelayedCookies | src/lib/apiUtils.ts:61-70 | relaying after the JSON content type yields exactly the upstream `Set-Cookie` values, in order and with repeats |
| ApiProxy.ErrorMessage | src/lib/apiUtils.ts:78-80 | "Invalid credentials" iff the method is POST and the path contains `login`; otherwise "METHOD request to PATH failed" |
| ApiProxy.ErrorDetails | src/lib/apiUtils.ts:85 | the details are never empty: the upstream data, else the error message, else the fixed fallback text |
| ApiProxy.ErrorStatus | src/lib/apiUtils.ts:86-88 | the upstream status when present and non-zero, else 500 |
| ApiProxy.NextResponse.Append | src/lib/apiUtils.ts:68 | `headers.append` adds one header at the end and changes nothing else |
| ApiProxy.Handle | src/lib/apiUtils.ts:13-91 | a success answers 200 with the processed (or raw) data and every upstream cookie relayed. A failure answers with the shaped error body, whose status equals the HTTP status, and no cookies |
| SessionGate.Gate | middleware.ts:5-32 | verify is called only for matched, non-`/login` paths with a non-empty token, at `BASE/auth/verify` with `Authentication=TOKEN`. Such a page passes iff that call succeeds. Unmatched and `/login...` paths always pass. A missing token redirects |
| SessionGate.DashboardNeedsVerifiedToken | middleware.ts:8-27 | a `/dashboard...` request passes iff it carries a non-empty token the backend confirms |
| SessionGate.ApiPrefixNotSegment | middleware.ts:30-32 | the matcher excludes by prefix: `/apiary` and `/favicon_ico` are never gated, `/dashboard` is |
| ApiClient.Send | src/lib/api.ts:8-23 | a call with answers available consumes at least one; only a 2xx resolves; a rejection carries a non-2xx outcome; an unsettled call has used every answer |
| ApiClient.SendAccounting | src/lib/api.ts:8-23 | each request sent, refreshes and retries included, consumes exactly one network answer from the front, and the first request sent is the call's own |
| ApiClient.SuccessPassesThrough | src/lib/api.ts:9 | a 2xx answer resolves unchanged with no extra request |
| ApiClient.OtherFailureRejected | src/lib/api.ts:11-21 | any non-401 failure is rejected as is, without a refresh |
| ApiClient.RefreshThenRetry | src/lib/api.ts:10-15 | a 401, then any successful refresh: the original request is re-issued through the interceptor, and the caller gets exactly what that retry produces (its reply, its further requests, its navigation) |
| ApiClient.RetryFailureRejected | src/lib/api.ts:13-15 | a retry that fails with anything but 401 rejects the caller with the retry's own error, and the browser is not sent to `/login` |
| ApiClient.RefreshFailureGoesToLogin | src/lib/api.ts:16-21 | a 401, then a failed refresh: the location is set to `/login` and the original 401 is rejected |
| ApiClient.RetriesAreUnbounded | src/lib/api.ts:8-15 | a retry that gets 401 again is refreshed and retried again; no cap on retries |
| ApiClient.HelperRequest | src/lib/api.ts:25-29 | verify is the only GET helper; refresh is the helper the interceptor uses |
| ApiClient.BrowserLocation.Dispatch | src/lib/api.ts:16-18 | the reply is the interceptor's; `href` becomes `/login` exactly when a refresh failed, else it is unchanged |
| QueryCache.ListsKey | src/hooks/use-categories.ts:8 | `lists()` lies under `all` and has two elements |
| QueryCache.ListKey | src/hooks/use-categories.ts:9 | `list(filters)` lies under `lists()` |
| QueryCache.DetailKey | src/hooks/use-categories.ts:11 | `detail(id)` lies under `all` and has three elements |
| QueryCache.KeyShapes | src/hooks/use-menu-items.ts:6-12 | a list key and a detail key never lie under one another. Two detail keys nest iff root and id agree |
| QueryCache.Written | src/hooks/use-menu-items.ts:71 | `setQueryData` makes the slot hold the value, fresh; every other slot is unchanged |
| QueryCache.Removed | src/hooks/use-menu-items.ts:103-105 | `removeQueries` drops exactly the slots under the prefix; the rest keep their entries |
| QueryCache.Invalidated | src/hooks/use-menu-items.ts:73-75 | `invalidateQueries` keeps every slot and value and marks stale exactly those under the prefix, plus those already stale |
| QueryCache.QueryClient.GetQueryData | src/hooks/use-orders.ts:72 | a present slot gives its value; an absent one gives undefined |
| QueryCache.QueryClient.SetQueryData | src/hooks/use-menu-items.ts:71 | the client's map becomes `Written` of the old one |
| QueryCache.QueryClient.RemoveQueries | src/hooks/use-menu-items.ts:103-105 | the client's map becomes `Removed` of the old one |
| QueryCache.QueryClient.InvalidateQueries | src/hooks/use-menu-items.ts:52-54 | the client's map becomes `Invalidated` of the old one |
| QueryCache.AfterCreateEffect | src/hooks/use-menu-items.ts:51-55 | a create leaves the keys; list slots become stale, all others are unchanged |
| QueryCache.AfterUpdateEffect | src/hooks/use-menu-items.ts:69-76 | an update writes the record fresh into its detail slot and makes list slots stale; no other slot changes |
| QueryCache.AfterDeleteEffect | src/hooks/use-menu-items.ts:101-110 | a delete removes the detail slot (and anything under it) and makes list slots stale; no other slot changes |
| OrdersHook.AllOrdersQuery | src/hooks/use-orders.ts:85-95 | the list query uses `['orders','list']` |
| OrdersHook.OrderDetailsQuery | src/hooks/use-orders.ts:98-109 | `['orders','detail',id]`, fetched from `/api/orders/ID`, enabled iff the id is non-empty |
| OrdersHook.MergeNewOrder | src/hooks/use-orders.ts:132-138 | after a merge the order's id is present. The old list survives as a suffix. When the list grew by one, the new order is at the front and its id was absent |
| OrdersHook.MergeCases | src/hooks/use-orders.ts:133-137 | an empty cache becomes `[order]`. An unseen id is prepended. A known id leaves the list unchanged |
| OrdersHook.MergeIdempotent | src/hooks/use-orders.ts:135-136 | receiving the same event twice equals receiving it once |
| OrdersHook.MergeKeepsIdsUnique | src/hooks/use-orders.ts:132-138 | a duplicate-free list stays duplicate-free |
| OrdersHook.SetStatus | src/hooks/use-orders.ts:72-79 | an undefined cache becomes `[]`. Otherwise length and order are kept, and each entry with the id gets the requested status with its other fields unchanged. Other entries are untouched |
| OrdersHook.SetStatusIdempotent | src/hooks/use-orders.ts:72-79 | applying the same status update twice equals applying it once |
| OrdersHook.SetStatusEffect | src/hooks/use-orders.ts:74-78 | every copy of the order has the new status and the set of ids is unchanged |
| OrdersHook.CachedOrders | src/hooks/use-orders.ts:72 | the updater's `oldData` is defined iff the list slot holds an order list |
| OrdersHook.OnStatusUpdated | src/hooks/use-orders.ts:70-79 | the list slot is rewritten with `SetStatus` of what it held; nothing else changes |
| OrdersHook.OnNewOrder | src/hooks/use-orders.ts:129-139 | the list slot is rewritten with the merge of what it held; nothing else changes |
| OrdersHook.CacheWritesTouchOnlyList | src/hooks/use-orders.ts:72-132 | both writes leave every detail slot as it was |
| DashboardStatsHook.StatsDetailKey | src/hooks/use-dashboard-stats.ts:8-12 | `detail(date)` always lies under `stats()` |
| DashboardStatsHook.Relevant | src/hooks/use-dashboard-stats.ts:101-103 | with a non-empty date, exactly the orders whose `createdAt` starts with it, in order; otherwise all orders. Its length is the number of passing entries, so duplicates are kept as often as they occur |
| DashboardStatsHook.Figures | src/hooks/use-dashboard-stats.ts:105-117 | the completed, pending and confirmed counts are the number of orders with exactly that status |
| DashboardStatsHook.Average | src/hooks/use-dashboard-stats.ts:125-126 | with a positive count the average times the count is the revenue; otherwise 0 |
| DashboardStatsHook.CurrentStats | src/hooks/use-dashboard-stats.ts:56-84 | `useCurrentStats` over every order: each count is the number of orders with that status, together at most the number of orders; revenue is the completed total plus the confirmed total |
| DashboardStatsHook.CurrentAverage | src/hooks/use-dashboard-stats.ts:69-77 | the current average times the completed-plus-confirmed count is the revenue; with no such order average and revenue are 0 |
| DashboardStatsHook.StatsByDate | src/hooks/use-dashboard-stats.ts:92-137 | the result is labelled with the date, or `'all'` when it is absent or empty, and its figures are those of exactly the relevant orders (exact status counts, revenue, average) |
| DashboardStatsHook.CurrentMatchesUndated | src/hooks/use-dashboard-stats.ts:47-89 | `useCurrentStats` equals `useStatsByDate()` over all orders; an empty date is the same as none |
| DashboardStatsHook.CountsBounded | src/hooks/use-dashboard-stats.ts:106-117 | the three counts sum to at most the number of relevant orders |
| DashboardStatsHook.RevenueSplits | src/hooks/use-dashboard-stats.ts:120-122 | revenue is the completed orders' total plus the confirmed orders' total; pending and cancelled add nothing |
| DashboardStatsHook.RevenueSplitsFilters | src/hooks/use-dashboard-stats.ts:120-122 | the revenue filter splits into the completed filter and the confirmed filter |
| DashboardStatsHook.NoRevenueWithoutCount | src/hooks/use-dashboard-stats.ts:120-122 | with no completed or confirmed order nothing is summed |
| DashboardStatsHook.NoCountNoRevenue | src/hooks/use-dashboard-stats.ts:120-126 | with no completed or confirmed order both revenue and average are 0 |
| DashboardStatsHook.RevenueNonNegative | src/hooks/use-dashboard-stats.ts:120-122 | non-negative amounts give non-negative revenue |
| DashboardStatsHook.DatedCountsBounded | src/hooks/use-dashboard-stats.ts:101-117 | one date's counts never exceed the counts over all orders |
| DashboardStatsHook.CurrentStatsQuery | src/hooks/use-dashboard-stats.ts:47-49 | the current stats live at `stats()` |
| DashboardStatsHook.StatsByDateQuery | src/hooks/use-dashboard-stats.ts:92-94 | a dated query lives at `detail(date or 'all')` |
| DashboardStatsHook.AllDateSharesSlot | src/hooks/use-dashboard-stats.ts:94-103 | the literal date `"all"` shares the undated query's slot, yet computes different figures |
| DashboardStatsHook.OnNewOrder | src/hooks/use-dashboard-stats.ts:36-39 | the socket handler invalidates everything under `stats()` |
| DashboardStatsHook.NewOrderStalesEveryDate | src/hooks/use-dashboard-stats.ts:36-39 | afterwards the current stats and every date's stats are stale; slots outside `dashboard` are unchanged |
| OrdersTable.FilterOrders | src/components/dashboard/orders-table.tsx:74-102 | the result is an order-preserving subsequence of the fetched orders and `[]` when they are undefined. Every order passing the callback is kept. Active-only keeps only pending and confirmed. A non-empty status set requires membership. The today filter requires the local day. A non-empty search requires a lower-cased substring match on id or customer name. Its length is the number of passing entries, so duplicates are kept as often as they occur |
| OrdersTable.NoFilterShowsAll | src/components/dashboard/orders-table.tsx:74-102 | with every filter off the table shows every order as fetched |
| OrdersTable.LowerIdempotent | src/components/dashboard/orders-table.tsx:99-101 | lower-casing twice equals lower-casing once |
| OrdersTable.SearchIgnoresCase | src/components/dashboard/orders-table.tsx:99-101 | a query and its lower-cased form match the same orders |
| OrdersTable.ItemCount | src/components/dashboard/orders-table.tsx:48-50 | the sum of the item quantities, and 0 when `items` is absent |
| OrdersTable.SumQuantitiesConcat | src/components/dashboard/orders-table.tsx:49 | the count of a split list is the sum of the parts' counts |
| OrdersTable.ItemCountBounds | src/components/dashboard/orders-table.tsx:49 | with non-negative quantities the count is non-negative and at least each line's quantity |
| OrdersTable.Toggled | src/components/dashboard/orders-table.tsx:52-60 | the id is in the result iff it was not in the set; every other id is unchanged |
| OrdersTable.ToggleTwice | src/components/dashboard/orders-table.tsx:52-60 | toggling the same id twice restores the set |
| OrdersTable.TableState.ToggleOrder | src/components/dashboard/orders-table.tsx:52-60 | the stored set becomes the toggled copy of the old one |
| Allergens.Capitalise | src/components/menu/add-menu-item-modal.tsx:74 | same length; the first character is upper-cased and the rest lower-cased |
| Allergens.NormalisePieces | src/components/menu/add-menu-item-modal.tsx:72-74 | never more entries than pieces |
| Allergens.Normalise | src/components/menu/add-menu-item-modal.tsx:71-74 | never more entries than comma pieces |
| Allergens.NormaliseEntries | src/components/menu/add-menu-item-modal.tsx:71-74 | every entry is non-empty, comma-free, trimmed and capitalised |
| Allergens.NormaliseKeepsPieces | src/components/menu/add-menu-item-modal.tsx:71-74 | every piece that is not blank after trimming reaches the list, trimmed and capitalised |
| Allergens.JoinRoundTrip | src/components/menu/edit-menu-item-modal.tsx:52-92 | normalising the `", "`-join of a normalised list gives that list back |
| Allergens.Idempotent | src/components/menu/add-menu-item-modal.tsx:71-74 | normalising the re-joined output of the pipeline changes nothing |
| AllergenPipeline.NormalisePiecesIsPipeline | src/components/menu/add-menu-item-modal.tsx:72-74 | the piece-by-piece pipeline equals `map(trim)`, then `filter(non-empty)`, then `map(capitalise)`: exactly those pieces, in source order |
| AllergenPipeline.NormaliseIsPipeline | src/components/menu/add-menu-item-modal.tsx:71-74 | the allergens text becomes exactly its trimmed, non-blank comma pieces, capitalised, in source order |
| Forms.Lookup | src/hooks/use-menu-items.ts:61 | `formData.get(name)` is absent iff no field has the name; otherwise it is a field's value |
| Forms.LookupAt | src/hooks/use-menu-items.ts:61 | `get` returns the first field with the name |
| Forms.LookupAppend | src/components/menu/add-menu-item-modal.tsx:58-76 | an appended field is found only when no earlier field has its name; other names are unaffected |
| Forms.FormData.Append | src/components/menu/add-menu-item-modal.tsx:59 | `append` adds one field at the end |
| Forms.FormData.Get | src/hooks/use-menu-items.ts:61 | `get` answers from the object's fields as `Lookup` does |
| MenuItemModals.InitialAddForm | src/components/menu/add-menu-item-modal.tsx:28-38 | price 0, tax 0, available, empty texts, the dialog's store |
| MenuItemModals.AddFields | src/components/menu/add-menu-item-modal.tsx:58-76 | nine fields with an image, eight without |
| MenuItemModals.AddPayloadFields | src/components/menu/add-menu-item-modal.tsx:58-76 | the sent form carries the store, the availability flag and the normalised allergen list; `image` is present iff a file was chosen |
| MenuItemModals.AddFieldsValues | src/components/menu/add-menu-item-modal.tsx:59-65 | the `storeId` and `isAvailable` fields carry the form's store and availability flag |
| MenuItemModals.AddFieldsExtras | src/components/menu/add-menu-item-modal.tsx:67-76 | the image field iff a file was chosen, and the allergens as given |
| MenuItemModals.AddMenuItemModal.HandleSubmit | src/components/menu/add-menu-item-modal.tsx:54-97 | sends the payload of the form as it was. It closes iff the create succeeds. On success the form, file and preview reset; on failure they are unchanged |
| MenuItemModals.AddMenuItemModal.Reset | src/components/menu/add-menu-item-modal.tsx:82-94 | the initial form for the store, no file, no preview |
| MenuItemModals.Populated | src/components/menu/edit-menu-item-modal.tsx:43-54 | description defaults to empty, tax to 0, availability to true unless explicitly false. The category id is taken from the category. The allergen text is the list joined with `", "` |
| MenuItemModals.EditFields | src/components/menu/edit-menu-item-modal.tsx:77-94 | eight fields with an image, seven without |
| MenuItemModals.EditPayloadFields | src/components/menu/edit-menu-item-modal.tsx:77-94 | no `storeId` is sent. Category, tax and availability are sent as in the form, with `image` iff a file was chosen and the normalised allergens |
| MenuItemModals.EditFieldsValues | src/components/menu/edit-menu-item-modal.tsx:80-83 | category, tax and availability are read back as in the form |
| MenuItemModals.EditFieldsExtras | src/components/menu/edit-menu-item-modal.tsx:85-94 | no store field; image iff chosen; allergens as given |
| MenuItemModals.NoStoreField | src/components/menu/edit-menu-item-modal.tsx:77-94 | without a `storeId` form field the payload has none |
| MenuItemModals.EditRoundTrip | src/components/menu/edit-menu-item-modal.tsx:43-96 | opening an item with normalised allergens and saving without edits resends the same allergens, category, tax (0 when absent) and availability (true when absent) |
| MenuItemModals.EditMenuItemModal.OnMenuItemChange | src/components/menu/edit-menu-item-modal.tsx:43-59 | a non-null item repopulates the form; a null one leaves it. The preview is set only when the item has an image URL |
| MenuItemModals.EditMenuItemModal.HandleSubmit | src/components/menu/edit-menu-item-modal.tsx:73-106 | with no item nothing is sent. Otherwise the payload goes to `onUpdate` with the item's id, and the dialog closes iff that succeeds |
| MenuPage.StripLeadingSlashes | src/app/dashboard/menu/page.tsx:43 | removes exactly the leading run of `/` and keeps the rest |
| MenuPage.ImageUrl | src/app/dashboard/menu/page.tsx:41-45 | an absent or empty URL gives `''`; otherwise the base, one `/`, and the path without leading slashes |
| MenuPage.StripSlashes | src/app/dashboard/menu/page.tsx:43 | any number of leading slashes is removed |
| MenuPage.LeadingSlashesIgnored | src/app/dashboard/menu/page.tsx:41-45 | with or without leading slashes a path gives the same URL |
| MenuPage.CategoryFilter | src/app/dashboard/menu/page.tsx:47-50 | `'all'` keeps everything. Otherwise the result is the order-preserving subsequence of items in the chosen category, with every such item kept. Undefined items give `[]`. Its length is the number of passing entries, so duplicates are kept as often as they occur |
| MenuPage.StatusFilterAsWritten | src/app/dashboard/menu/page.tsx:211-214 | the filter as written keeps, in order, exactly the items for which the tab is `all` or `isAvailable` equals (tab == `'available'`). Its length is the number of passing entries, so duplicates are kept as often as they occur |
| MenuPage.AvailableTabShowsUnavailable | src/app/dashboard/menu/page.tsx:189-214 | as written the "Available" and "Unavailable" tabs show the same items, only unavailable ones, and an available item is hidden under "Available" |
| MenuPage.StatusFilter | src/app/dashboard/menu/page.tsx:180-214 | corrected: `'all'` keeps everything; "Available" keeps exactly the available items, "Unavailable" exactly the unavailable ones, in order. Its length is the number of passing entries, so duplicates are kept as often as they occur |
| MenuPage.VisibleItems | src/app/dashboard/menu/page.tsx:211-215 | the grid as written: nothing while items are undefined; otherwise, in order, exactly the fetched items that pass both the category tab and the as-written status tab |
| MenuPage.GridHidesAvailable | src/app/dashboard/menu/page.tsx:189-214 | as written an available item is not in the grid under the "Available" tab, whatever the category tab |
| MenuPage.VisibleItemsCorrected | src/app/dashboard/menu/page.tsx:211-215 | corrected grid: in order, exactly the fetched items that pass the category tab and the corrected status tab |
| MenuPage.CorrectedGridShowsAvailable | src/app/dashboard/menu/page.tsx:189-214 | corrected: an available item of the active category is shown under "Available" |
| MenuPage.VisibleAll | src/app/dashboard/menu/page.tsx:211-214 | with both filters on `'all'` the grid, as written and corrected, shows every fetched item |
| MenuPage.AvailableCount | src/app/dashboard/menu/page.tsx:126 | 0 while items are undefined, never more than the items |
| MenuPage.AvailableCountMatchesTab | src/app/dashboard/menu/page.tsx:126 | the card equals the number of items the corrected "Available" tab shows |
| MenuPage.CategoryLabel | src/app/dashboard/menu/page.tsx:257 | a non-empty name of a category with the id, else "Uncategorized"; "Uncategorized" when no category has the id |
| MenuPage.CategoryLabelFirstMatch | src/app/dashboard/menu/page.tsx:257 | the first category with the id names the badge |
| MenuPage.HandleUpdate | src/app/dashboard/menu/page.tsx:56-63 | the caller's form gains an `id` field at the end and is what the mutation receives |
| MenuPage.EditFieldsHaveNoId | src/app/dashboard/menu/page.tsx:58 | the edit dialog's form has no `id` of its own |
| MenuPage.EditSaveTargetsItem | src/app/dashboard/menu/page.tsx:56-59 | saving from the edit dialog PUTs to the edited item's URL |
| MenuItemsHook.AllMenuItemsQuery | src/hooks/use-menu-items.ts:19-27 | `['menu-items','list']`, `/api/menu-items`, five minutes |
| MenuItemsHook.MenuItemByIdQuery | src/hooks/use-menu-items.ts:30-39 | `['menu-items','detail',id]`, enabled iff the id is non-empty |
| MenuItemsHook.UpdateUrl | src/hooks/use-menu-items.ts:61-62 | the URL takes the form's first `id` field; with no `id` it ends in `null` |
| MenuItemsHook.UpdateUrlOfId | src/hooks/use-menu-items.ts:61-62 | a form whose first `id` is `id` goes to `/api/menu-items/ID` |
| MenuItemsHook.AvailabilityRequest | src/hooks/use-menu-items.ts:81-82 | PUT to the item's URL with the flag and the category only |
| MenuItemsHook.DeleteUrl | src/hooks/use-menu-items.ts:98 | the URL is the base, `/`, then exactly the id |
| MenuItemsHook.OnCreated | src/hooks/use-menu-items.ts:51-55 | the cache becomes `AfterCreate` |
| MenuItemsHook.OnUpdated | src/hooks/use-menu-items.ts:69-76 | the cache becomes `AfterUpdate` with the returned item |
| MenuItemsHook.OnAvailabilityUpdated | src/hooks/use-menu-items.ts:85-92 | the same effect as an update |
| MenuItemsHook.OnDeleted | src/hooks/use-menu-items.ts:101-110 | the cache becomes `AfterDelete` for the returned id |
| CategoriesHook.AllCategoriesQuery | src/hooks/use-categories.ts:19-27 | `['categories','list']`, `/api/categories`, five minutes |
| CategoriesHook.CategoryByIdQuery | src/hooks/use-categories.ts:30-39 | `['categories','detail',id]`, enabled iff the id is non-empty |
| CategoriesHook.Update | src/hooks/use-categories.ts:61-67 | the id goes into the URL and every other field into the body |
| CategoriesHook.UpdateSplitsRequest | src/hooks/use-categories.ts:61-67 | the URL's id and the body rebuild the request: nothing is lost |
| CategoriesHook.DeleteUrl | src/hooks/use-categories.ts:83 | the URL is the base, `/`, then exactly the id |
| CategoriesHook.OnCreated | src/hooks/use-categories.ts:51-56 | the cache becomes `AfterCreate` |
| CategoriesHook.OnUpdated | src/hooks/use-categories.ts:70-77 | the cache becomes `AfterUpdate` with the returned category |
| CategoriesHook.OnDeleted | src/hooks/use-categories.ts:86-95 | the cache becomes `AfterDelete` for the returned id |
| TablesHook.AllTablesQuery | src/hooks/use-tables.ts:20-28 | `['tables','list']`, `/api/tables`, five minutes |
| TablesHook.TableByIdQuery | src/hooks/use-tables.ts:31-40 | `['tables','detail',id]`, enabled iff the id is non-empty |
| TablesHook.Update | src/hooks/use-tables.ts:64-72 | the id goes into the URL and every optional field into the body |
| TablesHook.UpdateSplitsRequest | src/hooks/use-tables.ts:64-72 | the URL's id and the body rebuild the request |
| TablesHook.DeleteUrl | src/hooks/use-tables.ts:88 | the URL is the base, `/`, then exactly the id |
| TablesHook.OnCreated | src/hooks/use-tables.ts:54-59 | the cache becomes `AfterCreate` |
| TablesHook.OnUpdated | src/hooks/use-tables.ts:75-82 | the cache becomes `AfterUpdate` with the returned table |
| TablesHook.OnDeleted | src/hooks/use-tables.ts:91-100 | the cache becomes `AfterDelete` for the returned id |
| TableSettingsHook.SectionsKey | src/hooks/use-table-settings.ts:6-10 | `['table-settings', store, 'settings', 'sections']`, under the store's key |
| TableSettingsHook.SectionsKeysSeparate | src/hooks/use-table-settings.ts:6-10 | a store's key covers a sections key iff the stores agree; no entity key covers it |
| TableSettingsHook.SectionsQuery | src/hooks/use-table-settings.ts:17-25 | fetched from `/api/table-settings/STORE`, stale after 1000 ms rather than five minutes |
| TableSettingsHook.AddSectionRequest | src/hooks/use-table-settings.ts:28-34 | POST to `/api/table-settings/STORE/sections` with only the sections in the body |
| TableSettingsHook.CreateFirstSectionRequest | src/hooks/use-table-settings.ts:42-48 | POST to `/api/table-settings` with the store and the sections in the body |
| TableSettingsHook.OnSectionsSaved | src/hooks/use-table-settings.ts:35-53 | both mutations write the server's list into the store's sections slot |
| TableSettingsHook.SectionsSavedEffect | src/hooks/use-table-settings.ts:35-53 | afterwards the slot holds exactly the server's list, fresh, so the sections the hook reads for that store are the saved settings' sections; every other store reads what it read before, and entity slots are unchanged |
| TablesPage.LexLeTotal | src/app/dashboard/tables/page.tsx:274 | the section order is total |
| TablesPage.LexLeAntisymmetric | src/app/dashboard/tables/page.tsx:274 | the section order is antisymmetric |
| TablesPage.LexLeTransitive | src/app/dashboard/tables/page.tsx:274 | the section order is transitive |
| TablesPage.TableLeTotal | src/app/dashboard/tables/page.tsx:270-275 | the comparator orders any two tables |
| TablesPage.TableLeTransitive | src/app/dashboard/tables/page.tsx:270-275 | the comparator's order is transitive |
| TablesPage.NumbersCompareNumerically | src/app/dashboard/tables/page.tsx:272 | within a section table 2 precedes table 10, although `"10"` precedes `"2"` as text |
| TablesPage.SortedAllPairs | src/app/dashboard/tables/page.tsx:270-275 | in a sorted list every earlier table may precede every later one |
| TablesPage.Insert | src/app/dashboard/tables/page.tsx:270-275 | inserting keeps the list sorted and adds exactly that table |
| TablesPage.SortTables | src/app/dashboard/tables/page.tsx:270-275 | the result is sorted by section, then by numeric number, and is a permutation of the input |
| TablesPage.VisibleTables | src/app/dashboard/tables/page.tsx:265-275 | sorted, and a permutation of exactly the tables whose status and section match (or `'all'`); nothing while tables are undefined |
| TablesPage.TotalCount | src/app/dashboard/tables/page.tsx:161 | the number of tables, 0 while undefined |
| TablesPage.StatusCount | src/app/dashboard/tables/page.tsx:172-196 | 0 while undefined, never more than the tables |
| TablesPage.CardsBounded | src/app/dashboard/tables/page.tsx:161-196 | available, occupied and reserved add up to at most the total |
| TablesPage.StatusCountMatchesTab | src/app/dashboard/tables/page.tsx:265-275 | each status card equals the number of tables its tab shows under every section |
| TablesPage.UpdateRequestFor | src/app/dashboard/tables/page.tsx:124-128 | the id, every form field, and the user's store or `''` |
| TablesPage.UpdateSendsForm | src/app/dashboard/tables/page.tsx:122-128 | the PUT goes to the table's URL carrying the form and store, never the id |
| TablesPage.DeleteClick | src/app/dashboard/tables/page.tsx:91-94 | remembers the id and opens the confirmation; the update dialog state is unchanged |
| TablesPage.TableLabel | src/app/dashboard/tables/page.tsx:98 | a non-empty number of a table with the id, else "Unknown Table"; "Unknown Table" when none has it |
| TablesPage.TableLabelFirstMatch | src/app/dashboard/tables/page.tsx:98 | the first fetched table with the id decides the label: its number when non-empty, else "Unknown Table", whatever later tables say |
| TablesPage.ConfirmDelete | src/app/dashboard/tables/page.tsx:96-110 | a delete with its toast name is fired iff the pending id is non-empty; then the dialog closes and the id clears; otherwise nothing changes |
| TablesPage.DeleteThenConfirm | src/app/dashboard/tables/page.tsx:91-110 | click then confirm deletes that table at `/api/tables/<id>` and leaves nothing pending; a second confirm does nothing |
| TablesPage.AfterUpdateTable | src/app/dashboard/tables/page.tsx:122-135 | success closes the update dialog and clears the selection; failure changes nothing |
| TablesPage.HandleTableSave | src/app/dashboard/tables/page.tsx:112-135 | as written each handler shows the success toast iff the mutation succeeds and the error toast iff it fails, and always resolves to the dialog |
| TablesPage.HandleTableSaveCorrected | src/app/dashboard/tables/page.tsx:112-135 | corrected: the same toasts, and the handler resolves iff the mutation succeeds |
| TablesPage.CloseUpdateModal | src/app/dashboard/tables/page.tsx:372-375 | the update dialog's `onClose` closes it and clears the selection; the delete state is unchanged |
| TablesPage.FailedUpdateClosesDialog | src/app/dashboard/tables/page.tsx:122-135 | as written a failed update still resolves, and the dialog's `onClose` then leaves the page exactly as a successful one would: dialog closed |
| TableModals.MessageText | src/components/tables/add-table-modal.tsx:54-90 | every error toast has a non-empty text |
| TableModals.InitialAddForm | src/components/tables/add-table-modal.tsx:31-37 | number `''`, capacity 0, section `''`, available, the dialog's store |
| TableModals.FirstSectionAddedTwice | src/components/tables/add-table-modal.tsx:46-64 | as written, with no sections yet, a successful `createFirstSection` is followed by `addSection` of the same section |
| TableModals.CorrectedCreatesSectionOnce | src/components/tables/add-table-modal.tsx:45-92 | corrected: at most one section call per submit; a store's first section is created once, then the table |
| TableModals.AddSubmitGuards | src/components/tables/add-table-modal.tsx:42-92 | the table is created iff the section is non-empty and every section call needed succeeded; the dialog closes iff, in addition, the create succeeds |
| TableModals.AddStepsGuards | src/components/tables/add-table-modal.tsx:42-92 | the same, given the trimmed section |
| TableModals.BlankSectionCreatesTable | src/components/tables/add-table-modal.tsx:46-76 | a whitespace-only section skips both section calls yet passes the empty check, so the table is created |
| TableModals.PaddedSectionNotAdded | src/components/tables/add-table-modal.tsx:60-64 | a padded name of a listed section makes no section call and is saved padded |
| TableModals.AddTableModal.HandleSectionChange | src/components/tables/add-table-modal.tsx:94-101 | "new" enters new-section mode with an empty section; any other value is selected |
| TableModals.AddTableModal.HandleCancelNewSection | src/components/tables/add-table-modal.tsx:103-106 | leaves new-section mode with an empty section |
| TableModals.AddTableModal.HandleSubmit | src/components/tables/add-table-modal.tsx:42-92 | performs `AddSubmitSteps` of the old form, with the first section created under the current `storeId` prop and the table under the form's own copy. When it closes the form resets to the initial one with that prop's store; otherwise the form is unchanged |
| TableModals.MountedBeforeStoreKnown | src/components/tables/add-table-modal.tsx:31-87 | a dialog mounted while the prop is `''` creates the first section under the later prop's store, but the table with an empty store |
| TableModals.FormOf | src/components/tables/update-table-modal.tsx:42-47 | the table's number, capacity, section and status |
| TableModals.UpdateSubmitGuards | src/components/tables/update-table-modal.tsx:65-92 | the update is sent iff the section is non-empty and a needed `addSection` succeeded. The dialog closes iff the update also succeeds. Every update targets this table and at most one section call is made |
| TableModals.UpdateStepsGuards | src/components/tables/update-table-modal.tsx:65-92 | the same, given the trimmed section |
| TableModals.UpdateTableModal.OnTableChange | src/components/tables/update-table-modal.tsx:41-49 | the form resets to the new table and new-section mode is left |
| TableModals.UpdateTableModal.HandleSectionChange | src/components/tables/update-table-modal.tsx:51-58 | "new" enters new-section mode with an empty section; any other value is selected |
| TableModals.UpdateTableModal.HandleCancelNewSection | src/components/tables/update-table-modal.tsx:60-63 | leaves new-section mode and restores the table's own section |
| TableModals.UpdateTableModal.HandleSubmit | src/components/tables/update-table-modal.tsx:65-92 | performs `UpdateSubmitSteps` |
| TableModals.PageOutcomes | src/app/dashboard/tables/page.tsx:362-378 | on the tables page, the dialog's `onCreate`/`onUpdate` settles as the page's handler does, so it resolves even when the mutation fails |
| TableModals.AddStepsCreateFailedToast | src/components/tables/add-table-modal.tsx:78-90 | the dialog's "Failed to create table" toast shows iff the create was sent and `onCreate` rejected |
| TableModals.FailedCreateClosesDialog | src/components/tables/add-table-modal.tsx:78-90 | as written, on the tables page a failed create still closes the add dialog, and the dialog's own error toast never shows |
| TableModals.FailedUpdateClosesDialog | src/components/tables/update-table-modal.tsx:86-90 | as written, on the tables page a failed update still closes the update dialog |
| TableModals.CorrectedCreateClosesOnlyOnSuccess | src/components/tables/add-table-modal.tsx:78-90 | corrected: the add dialog closes iff the create is sent and succeeds; its error toast shows iff the create is sent and fails |
| TableModals.CorrectedUpdateClosesOnlyOnSuccess | src/components/tables/update-table-modal.tsx:86-90 | corrected: the update dialog closes iff the update is sent and succeeds |
| TableModals.CancelRestoresSection | src/components/tables/update-table-modal.tsx:51-63 | choosing "new" then cancelling gives back the table's section |
| StatusTabs.FilterFor | src/app/dashboard/page.tsx:41-47 | `'all'` selects the page's status set; any other value only itself |
| StatusTabs.TabValue | src/app/dashboard/page.tsx:173 | `'all'` for more than one status, else the only one; undefined for an empty filter |
| StatusTabs.TabRoundTrip | src/app/dashboard/page.tsx:41-173 | with a status set of several statuses, a chosen tab is shown active, and re-choosing it keeps the filter |
| DashboardPage.HandleStatusChange | src/app/dashboard/page.tsx:41-47 | `'all'` gives completed and cancelled; any other value v gives `[v]` |
| DashboardPage.HistoryTabs | src/app/dashboard/page.tsx:26-173 | the initial filter shows "All", and every choice round-trips through the tab value |
| DashboardPage.HistoryOrders | src/app/dashboard/page.tsx:196-200 | the history table shows, in order, exactly the orders that pass the status filter and the search, of any status and any day; nothing while orders are undefined. Its length is the number of passing entries, so duplicates are kept as often as they occur |
| DashboardPage.HistoryIgnoresDates | src/app/dashboard/page.tsx:196-200 | the history table does not depend on the time zone or on today's date |
| DashboardPage.HistoryTabShowsItsStatuses | src/app/dashboard/page.tsx:196-200 | the history table shows only the tab's statuses; under "All" every completed or cancelled order matching the search is shown |
| DashboardPage.ActiveOrders | src/app/dashboard/page.tsx:49 | pending plus confirmed, 0 while stats are missing |
| DashboardPage.ActiveOrdersAreActive | src/app/dashboard/page.tsx:49 | the card counts exactly the pending or confirmed orders the stats cover |
| DashboardPage.OverviewStats | src/app/dashboard/page.tsx:34 | as written the cards are computed under `'all'` from every order |
| DashboardPage.OverviewCountsEarlierDays | src/app/dashboard/page.tsx:29-34 | as written a completed order from an earlier day is counted, although today's figures count nothing |
| DashboardPage.TodayStats | src/app/dashboard/page.tsx:29-34 | corrected: the figures are labelled with today, each count is at most the all-time count, and all counts are 0 when no order is from today |
| DashboardPage.NothingFromToday | src/app/dashboard/page.tsx:29-34 | with no order from today, no order is relevant |
| DashboardPage.AvailableTables | src/app/dashboard/page.tsx:146 | 0 while tables are undefined, never more than the tables |
| DashboardPage.AvailableTablesMatchesTablesPage | src/app/dashboard/page.tsx:146 | equals the tables page's available card and the number of tables its "available" tab shows |
| LiveOrdersPage.HandleStatusChange | src/app/dashboard/live-orders/page.tsx:21-27 | `'all'` gives pending and confirmed; any other value v gives `[v]` |
| LiveOrdersPage.LiveTabs | src/app/dashboard/live-orders/page.tsx:14-62 | the initial filter shows "All", and every choice round-trips through the tab value |
| LiveOrdersPage.StatusCount | src/app/dashboard/live-orders/page.tsx:18-19 | 0 while orders are undefined, never more than the orders |
| LiveOrdersPage.CountsMatchStats | src/app/dashboard/live-orders/page.tsx:18-19 | the two cards equal the dashboard figures, and together the overview's live-orders card |
| LiveOrdersPage.ShownOrders | src/app/dashboard/live-orders/page.tsx:85-89 | in the fetched order, exactly the pending or confirmed orders that pass the status filter and the search, whatever their day; nothing while orders are undefined. Its length is the number of passing entries, so duplicates are kept as often as they occur |
| LiveOrdersPage.InitialShowsActive | src/app/dashboard/live-orders/page.tsx:14-89 | initially the table shows exactly the active orders, in order |
| LiveOrdersPage.TabMatchesCard | src/app/dashboard/live-orders/page.tsx:18-89 | a status tab shows as many orders as that status's card counts |
| LiveOrdersPage.InactiveTabShowsNothing | src/app/dashboard/live-orders/page.tsx:25-89 | a tab value naming any other status shows nothing |
| CategoriesPage.ViewOf | src/app/dashboard/categories/page.tsx:32-75 | loading wins, then the error; an undefined or empty list gives the empty state; otherwise the list as fetched |
| CategoriesPage.FilterFromTab | src/app/dashboard/categories/page.tsx:162 | `'all'` gives all; any other value is whether it equals `'true'` |
| CategoriesPage.TabOf | src/app/dashboard/categories/page.tsx:161 | `'all'`, `'true'` or `'false'`; `'all'` exactly for all |
| CategoriesPage.TabRoundTrip | src/app/dashboard/categories/page.tsx:161-162 | showing a filter and reselecting its tab is the identity. Each tab value survives. Any other value means false |
| CategoriesPage.ShownCategories | src/app/dashboard/categories/page.tsx:193-194 | `'all'` keeps everything. A boolean keeps an order-preserving subsequence of exactly the categories whose `available` equals it. Its length is the number of passing entries, so duplicates are kept as often as they occur |
| CategoriesPage.UnflaggedOnlyUnderAll | src/app/dashboard/categories/page.tsx:194 | a category without the flag appears only under `'all'`; the two boolean tabs together list at most every category |
| CategoriesPage.DeleteClick | src/app/dashboard/categories/page.tsx:107-110 | remembers the id and opens the confirmation; the edit dialog state is unchanged |
| CategoriesPage.CategoryLabel | src/app/dashboard/categories/page.tsx:119 | a non-empty name of a category with the id, else "Unknown Category"; "Unknown Category" when none has it |
| CategoriesPage.CategoryLabelFirstMatch | src/app/dashboard/categories/page.tsx:119 | the first category with the id decides the label: its name when non-empty, else "Unknown Category", whatever later categories say |
| CategoriesPage.ConfirmDelete | src/app/dashboard/categories/page.tsx:117-131 | a delete with its toast name is fired iff the pending id is non-empty; then the dialog closes and the id clears; otherwise nothing changes |
| CategoriesPage.DeleteThenConfirm | src/app/dashboard/categories/page.tsx:107-131 | click then confirm deletes that category at its URL and leaves nothing pending; a second confirm does nothing |

## Left out

- Network I/O is not modelled. The backend's answers, `request.json()`/`formData()`, and the socket connection's lifecycle are inputs or absent. Only what the handlers do with them is modelled.
- react-query is modelled only as a key-to-entry map with a stale flag. Time-based staleness, refetching, garbage collection, retries and persistence are not modelled. The stale times are recorded as constants.
- Toasts are reduced to their message, or left out where a toast is all a branch does. Examples are `handleStatusChange` in the orders table and the menu page's `handleDelete`.
- Floating point is modelled as `real`, so rounding and `toFixed` are not modelled.
- Dates are inputs:
  - "today" and the local calendar date of an order are parameters;
  - the Europe/Athens time zone and `Date` parsing are left out.
- `localeCompare` is modelled as lexicographic order on character codes.
- Case mapping is ASCII only.
- `Number()` is modelled on decimal numerals. A table number that is not a numeral (NaN) is not modelled.
- TablesPage.SortTables is an insertion sort proved sorted and a permutation. It does not claim to reproduce the engine's tie order for equal keys.
- ApiProxy.ReplaceFirst treats the replacement literally. The special `$` patterns of JavaScript's `replace` are not modelled.
- MenuItemsHook.UpdateUrl models a text `id` field. A file under the name `id` is not modelled.
- ApiClient.Send settles only while the list of network answers lasts. A call that outlives the list is reported unsettled rather than left pending.
- Auth plumbing, the category form dialogs, UI components, layout, configuration and the route files other than `createApiHandler` are not part of this model.
- The table dialogs take the outcome of `onCreate`/`onUpdate` as an input, since the dialogs do not know their caller. TableModals.PageOutcomes gives that outcome for the tables page, where it always resolves.
- The delete confirmation on the tables and categories pages closes the dialog and clears the pending id only when that id is non-empty. The model follows the code. It does not follow the looser reading that confirming always closes the dialog.

## Findings

| source | as written | input that shows it | evidently intended | confidence | as-written member | corrected member |
|---|---|---|---|---|---|---|
| src/app/dashboard/menu/page.tsx:211-214 | the status filter compares the tab value with lower-case `'available'`, but the tabs are `Available` and `Unavailable` (lines 189, 195) | an item with `isAvailable` true under the "Available" tab is hidden; both tabs show only unavailable items | each tab shows the items with that availability | high, not executed | MenuPage.AvailableTabShowsUnavailable | MenuPage.VisibleItemsCorrected |
| src/components/tables/add-table-modal.tsx:60-64 | the `addSection` guard does not check that sections already exist, so it fires right after `createFirstSection` | no sections loaded and section "Patio": `createFirstSection(["Patio"])` then `addSection(["Patio"])` | only one section call; the comment at line 59 says "if there are sections" | high, not executed | TableModals.FirstSectionAddedTwice | TableModals.CorrectedCreatesSectionOnce |
| src/app/dashboard/page.tsx:29-34 | `today` is computed but `useStatsByDate()` is called without it, so the overview cards count every order ever placed | one completed order created on an earlier day: completed shows 1 where today's count is 0 | `useStatsByDate(today)` | medium, not executed | DashboardPage.OverviewCountsEarlierDays | DashboardPage.TodayStats |
| src/app/dashboard/tables/page.tsx:112-135 | `handleCreateTable` and `handleUpdateTable` catch the mutation's error and resolve, so the dialog's `await onCreate(...)` and `await onUpdate(...)` never throw | a create whose mutation fails: the page shows its error toast, then the add dialog closes and resets the typed form; the dialog's own error toast (add-table-modal.tsx line 90) never shows | the handlers pass the failure on, so the dialog stays open with the user's input (update-table-modal.tsx line 90 says the error toast is left to the page) | medium, not executed | TableModals.FailedCreateClosesDialog | TableModals.CorrectedCreateClosesOnlyOnSuccess |
