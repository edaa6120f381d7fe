/**
 * The menu page (src/app/dashboard/menu/page.tsx): image URLs, the category
 * and availability filters over the fetched items, the available-items card,
 * the category badge, and `handleUpdate`, which tags the edit dialog's form
 * with the item id before the update mutation reads it back.
 * The public API base URL is an input.
 */
module MenuPage {
  import opened Wrappers
  import opened Entities
  import opened Forms
  import Seqs
  import MenuItemModals
  import MenuItemsHook

  // ---- Image URLs ----

  /** `s.replace(/^\/+/, '')`: every leading `/` removed, the rest kept. */
  function StripLeadingSlashes(s: string): (r: string)
    ensures |r| <= |s| && r == s[|s| - |r|..]
    ensures forall i :: 0 <= i < |s| - |r| ==> s[i] == '/'
    ensures r == [] || r[0] != '/'
    decreases |s|
  {
    if s != [] && s[0] == '/' then StripLeadingSlashes(s[1..]) else s
  }

  /**
   * `getImageUrl`: an absent or empty URL gives `''`; otherwise the base, one
   * `/`, and the URL without its leading slashes.
   */
  function ImageUrl(apiBase: string, imageUrl: Option<string>): (r: string)
    ensures imageUrl.None? || imageUrl.value == "" ==> r == ""
    ensures imageUrl.Some? && imageUrl.value != "" ==>
      exists k :: 0 <= k <= |imageUrl.value| && (forall i :: 0 <= i < k ==> imageUrl.value[i] == '/')
        && (k == |imageUrl.value| || imageUrl.value[k] != '/')
        && r == apiBase + "/" + imageUrl.value[k..]
  {
    if imageUrl.None? || imageUrl.value == "" then ""
    else
      var clean := StripLeadingSlashes(imageUrl.value);
      var k := |imageUrl.value| - |clean|;
      assert imageUrl.value[k..] == clean;
      apiBase + "/" + clean
  }

  function Slashes(n: nat): (r: string)
    ensures |r| == n && forall i :: 0 <= i < n ==> r[i] == '/'
  {
    if n == 0 then "" else "/" + Slashes(n - 1)
  }

  lemma {:induction false} StripSlashes(n: nat, path: string)
    requires path == [] || path[0] != '/'
    ensures StripLeadingSlashes(Slashes(n) + path) == path
  {
    if n > 0 {
      var rest := Slashes(n - 1) + path;
      assert Slashes(n) + path == ['/'] + rest;
      assert (['/'] + rest)[1..] == rest;
      StripSlashes(n - 1, path);
    } else {
      assert Slashes(n) + path == path;
    }
  }

  /**
   * However many slashes an image path starts with, the URL is the same; and a
   * path without a leading slash is appended after exactly one `/`.
   */
  lemma LeadingSlashesIgnored(apiBase: string, path: string, n: nat)
    requires path != [] && path[0] != '/'
    ensures ImageUrl(apiBase, Some(Slashes(n) + path)) == ImageUrl(apiBase, Some(path)) == apiBase + "/" + path
  {
    var u := Slashes(n) + path;
    StripSlashes(n, path);
    assert u != "" && StripLeadingSlashes(u) == path;
    assert ImageUrl(apiBase, Some(u)) == apiBase + "/" + path;
    assert StripLeadingSlashes(path) == path;
    assert ImageUrl(apiBase, Some(path)) == apiBase + "/" + path;
  }

  // ---- Filters ----

  /** The category tab keeps an item: `'all'`, or the item's category is the active one. */
  predicate InCategory(active: string, m: MenuItem) {
    active == "all" || m.category.id == active
  }

  /**
   * `filteredItems`: every item under `'all'`, else the items of the active
   * category, in order; `[]` while the items are undefined.
   */
  function CategoryFilter(items: Option<seq<MenuItem>>, active: string): (r: seq<MenuItem>)
    ensures items.None? ==> r == []
    ensures items.Some? && active == "all" ==> r == items.value
    ensures items.Some? ==> Seqs.SubseqOf(r, items.value)
    ensures items.Some? ==> |r| == Seqs.Count(items.value, (m: MenuItem) => InCategory(active, m))
    ensures forall i :: 0 <= i < |r| ==> active == "all" || r[i].category.id == active
    ensures items.Some? ==> forall i :: 0 <= i < |items.value| && items.value[i].category.id == active ==>
      items.value[i] in r
  {
    match items
    case None => []
    case Some(xs) =>
      var keep := (m: MenuItem) => InCategory(active, m);
      if active == "all" then
        Seqs.FilterAll(xs, keep);
        Seqs.Filter(xs, keep)
      else Seqs.Filter(xs, keep)
  }

  /** The status filter as written: the tab value is compared with lower-case `'available'`. */
  predicate ShownAsWritten(status: string, m: MenuItem) {
    status == "all" || m.isAvailable == Some(status == "available")
  }

  function StatusFilterAsWritten(items: seq<MenuItem>, status: string): (r: seq<MenuItem>)
    ensures Seqs.SubseqOf(r, items)
    ensures |r| == Seqs.Count(items, (m: MenuItem) => ShownAsWritten(status, m))
    ensures forall i :: 0 <= i < |r| ==> ShownAsWritten(status, r[i])
    ensures forall i :: 0 <= i < |items| && ShownAsWritten(status, items[i]) ==> items[i] in r
  {
    Seqs.Filter(items, (m: MenuItem) => ShownAsWritten(status, m))
  }

  /**
   * The tabs' values are `"Available"` and `"Unavailable"`, neither equal to
   * `'available'`: both tabs show the same items, only those explicitly
   * unavailable, and an available item is hidden under "Available".
   */
  lemma AvailableTabShowsUnavailable(items: seq<MenuItem>, m: MenuItem)
    requires m.isAvailable == Some(true)
    ensures StatusFilterAsWritten(items, "Available") == StatusFilterAsWritten(items, "Unavailable")
    ensures forall i :: 0 <= i < |StatusFilterAsWritten(items, "Available")| ==>
      StatusFilterAsWritten(items, "Available")[i].isAvailable == Some(false)
    ensures StatusFilterAsWritten([m], "Available") == []
    ensures AvailableCount(Some([m])) == 1
  {
    Seqs.FilterAgree(items, (x: MenuItem) => ShownAsWritten("Available", x), (x: MenuItem) => ShownAsWritten("Unavailable", x));
    assert [m][1..] == [];
  }

  /** The status filter as intended: each tab compared with its own value. */
  predicate Shown(status: string, m: MenuItem) {
    status == "all" || m.isAvailable == Some(status == "Available")
  }

  /**
   * The intended status filter: `'all'` keeps everything; "Available" keeps
   * exactly the items marked available and "Unavailable" exactly those marked
   * unavailable (items with no flag appear only under `'all'`).
   */
  function StatusFilter(items: seq<MenuItem>, status: string): (r: seq<MenuItem>)
    ensures status == "all" ==> r == items
    ensures Seqs.SubseqOf(r, items)
    ensures |r| == Seqs.Count(items, (m: MenuItem) => Shown(status, m))
    ensures status == "Available" ==>
      (forall i :: 0 <= i < |r| ==> r[i].isAvailable == Some(true))
      && (forall i :: 0 <= i < |items| && items[i].isAvailable == Some(true) ==> items[i] in r)
    ensures status == "Unavailable" ==>
      (forall i :: 0 <= i < |r| ==> r[i].isAvailable == Some(false))
      && (forall i :: 0 <= i < |items| && items[i].isAvailable == Some(false) ==> items[i] in r)
  {
    var keep := (m: MenuItem) => Shown(status, m);
    if status == "all" then
      Seqs.FilterAll(items, keep);
      Seqs.Filter(items, keep)
    else Seqs.Filter(items, keep)
  }

  /**
   * The grid as written: the as-written status filter applied to the category
   * filter's result, which is one filter keeping, in order, exactly the fetched
   * items that pass both tabs.
   */
  function VisibleItems(items: Option<seq<MenuItem>>, active: string, status: string): (r: seq<MenuItem>)
    ensures items.None? ==> r == []
    ensures items.Some? ==>
      r == Seqs.Filter(items.value, (m: MenuItem) => InCategory(active, m) && ShownAsWritten(status, m))
  {
    match items
    case None => []
    case Some(xs) =>
      Seqs.FilterFilter(xs, (m: MenuItem) => InCategory(active, m), (m: MenuItem) => ShownAsWritten(status, m),
        (m: MenuItem) => InCategory(active, m) && ShownAsWritten(status, m));
      StatusFilterAsWritten(CategoryFilter(items, active), status)
  }

  /** As written, an available item is hidden from the grid under the "Available" tab, whatever the category tab. */
  lemma GridHidesAvailable(m: MenuItem, active: string)
    requires m.isAvailable == Some(true)
    ensures VisibleItems(Some([m]), active, "Available") == []
  {
    assert [m][1..] == [];
  }

  /** The grid as intended: the corrected status filter applied to the category filter's result. */
  function VisibleItemsCorrected(items: Option<seq<MenuItem>>, active: string, status: string): (r: seq<MenuItem>)
    ensures items.None? ==> r == []
    ensures items.Some? ==>
      r == Seqs.Filter(items.value, (m: MenuItem) => InCategory(active, m) && Shown(status, m))
  {
    match items
    case None => []
    case Some(xs) =>
      Seqs.FilterFilter(xs, (m: MenuItem) => InCategory(active, m), (m: MenuItem) => Shown(status, m),
        (m: MenuItem) => InCategory(active, m) && Shown(status, m));
      StatusFilter(CategoryFilter(items, active), status)
  }

  /** With the corrected filter, an available item of the active category shows under "Available". */
  lemma CorrectedGridShowsAvailable(m: MenuItem, active: string)
    requires m.isAvailable == Some(true) && InCategory(active, m)
    ensures VisibleItemsCorrected(Some([m]), active, "Available") == [m]
  {
    assert [m][1..] == [];
  }

  /** With both filters on `'all'` the grid shows every fetched item. */
  lemma VisibleAll(items: seq<MenuItem>)
    ensures VisibleItems(Some(items), "all", "all") == items
    ensures VisibleItemsCorrected(Some(items), "all", "all") == items
  {
    Seqs.FilterAll(items, (m: MenuItem) => InCategory("all", m) && ShownAsWritten("all", m));
    Seqs.FilterAll(items, (m: MenuItem) => InCategory("all", m) && Shown("all", m));
  }

  /** The available-items card: items with a truthy `isAvailable`; 0 while the items are undefined. */
  function AvailableCount(items: Option<seq<MenuItem>>): (n: nat)
    ensures items.None? ==> n == 0
    ensures items.Some? ==> n <= |items.value|
  {
    match items
    case None => 0
    case Some(xs) => Seqs.Count(xs, (m: MenuItem) => m.isAvailable == Some(true))
  }

  /** The card's count is the number of items the intended "Available" tab shows. */
  lemma AvailableCountMatchesTab(items: seq<MenuItem>)
    ensures AvailableCount(Some(items)) == |StatusFilter(items, "Available")|
  {
    Seqs.FilterAgree(items, (m: MenuItem) => m.isAvailable == Some(true), (m: MenuItem) => Shown("Available", m));
  }

  // ---- Category badge ----

  /**
   * The badge: the name of the first fetched category with the item's category
   * id, or "Uncategorized" when there is none or its name is empty.
   */
  function CategoryLabel(categories: Option<seq<Category>>, categoryId: string): (r: string)
    ensures r != ""
    ensures r != "Uncategorized" ==>
      categories.Some? &&
      exists i :: 0 <= i < |categories.value| && categories.value[i].id == categoryId && categories.value[i].name == r
    ensures categories.Some? && (forall i :: 0 <= i < |categories.value| ==> categories.value[i].id != categoryId) ==>
      r == "Uncategorized"
  {
    match categories
    case None => "Uncategorized"
    case Some(cs) =>
      var i := Seqs.FindIndex(cs, (c: Category) => c.id == categoryId);
      if i < |cs| && cs[i].name != "" then cs[i].name else "Uncategorized"
  }

  /** The first category with the id names the badge, whatever later duplicates say. */
  lemma CategoryLabelFirstMatch(cs: seq<Category>, k: nat, categoryId: string)
    requires k < |cs| && cs[k].id == categoryId && cs[k].name != ""
    requires forall j :: 0 <= j < k ==> cs[j].id != categoryId
    ensures CategoryLabel(Some(cs), categoryId) == cs[k].name
  {
    var p := (c: Category) => c.id == categoryId;
    assert p(cs[k]);
    assert Seqs.FindIndex(cs, p) == k;
  }

  // ---- Update ----

  /** `handleUpdate`: the item id is appended to the caller's form, which is then handed to the update mutation. */
  method HandleUpdate(id: string, data: FormData) returns (sent: FormData)
    modifies data
    ensures sent == data
    ensures data.fields == old(data.fields) + [Field("id", Str(id))]
  {
    data.Append("id", Str(id));
    sent := data;
  }

  /** The edit dialog's fields contain no `id`, so the one `handleUpdate` appends is the one read back. */
  lemma EditFieldsHaveNoId(form: MenuItemModals.EditForm, image: Option<FileRef>, allergens: seq<string>)
    ensures Lookup(MenuItemModals.EditFields(form, image, allergens), "id").None?
  {
    var fs := MenuItemModals.EditFields(form, image, allergens);
    forall i | 0 <= i < |fs| ensures fs[i].name != "id" {
      assert |fs[i].name| > 2;
    }
  }

  /**
   * Saving the edit dialog for item `id` reaches `PUT /api/menu-items/<id>`:
   * the appended `id` field is found, and the update URL is built from it.
   */
  lemma EditSaveTargetsItem(form: MenuItemModals.EditForm, image: Option<FileRef>, allergens: seq<string>, id: string)
    ensures MenuItemsHook.UpdateUrl(MenuItemModals.EditFields(form, image, allergens) + [Field("id", Str(id))])
         == Some("/api/menu-items/" + id)
  {
    var fs := MenuItemModals.EditFields(form, image, allergens);
    EditFieldsHaveNoId(form, image, allergens);
    LookupAppend(fs, "id", Str(id), "id");
  }
}
