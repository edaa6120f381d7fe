/**
 * The categories page (src/app/dashboard/categories/page.tsx): which view
 * it renders, the availability tabs and filter, and the delete
 * confirmation.
 */
module CategoriesPage {
  import opened Wrappers
  import opened Entities
  import Seqs
  import CategoriesHook

  // ---- View ----

  /** What the page renders: a spinner, the error text, the empty state, or the list. */
  datatype View = Loading | LoadError | EmptyState | Listing(categories: seq<Category>)

  /**
   * Loading wins over an error; otherwise an undefined or empty list shows
   * the empty state, and a non-empty one is listed as fetched.
   */
  function ViewOf(isLoading: bool, hasError: bool, data: Option<seq<Category>>): (v: View)
    ensures isLoading <==> v.Loading?
    ensures v.LoadError? <==> !isLoading && hasError
    ensures v.EmptyState? <==> !isLoading && !hasError && (data.None? || data.value == [])
    ensures v.Listing? ==> data.Some? && v.categories == data.value && v.categories != []
  {
    if isLoading then Loading
    else if hasError then LoadError
    else
      var categories := data.GetOr([]);
      if |categories| == 0 then EmptyState else Listing(categories)
  }

  // ---- Availability filter ----

  /** `availabilityFilter`: `'all'` or a boolean. */
  datatype AvailabilityFilter = AllCategories | OnlyAvailable(available: bool)

  /** The tab's `onValueChange`: `'all'`, else whether the value is `'true'`. */
  function FilterFromTab(value: string): (f: AvailabilityFilter)
    ensures f.AllCategories? <==> value == "all"
    ensures value != "all" ==> f == OnlyAvailable(value == "true")
  {
    if value == "all" then AllCategories else OnlyAvailable(value == "true")
  }

  /** The tab's `value`: `'all'`, else the boolean's `toString()`. */
  function TabOf(f: AvailabilityFilter): (value: string)
    ensures value == "all" || value == "true" || value == "false"
    ensures value == "all" <==> f.AllCategories?
  {
    match f
    case AllCategories => "all"
    case OnlyAvailable(b) => if b then "true" else "false"
  }

  /**
   * Displaying a filter and reselecting its tab is the identity; each of the
   * three tab values survives the round trip; any other value means `false`.
   */
  lemma TabRoundTrip(f: AvailabilityFilter, value: string)
    ensures FilterFromTab(TabOf(f)) == f
    ensures value == "all" || value == "true" || value == "false" ==> TabOf(FilterFromTab(value)) == value
    ensures value != "all" && value != "true" ==> FilterFromTab(value) == OnlyAvailable(false)
  {
  }

  /** A category passes when the filter is `'all'` or its `available` equals the filter. */
  predicate Shown(f: AvailabilityFilter, c: Category) {
    f.AllCategories? || c.available == Some(f.available)
  }

  /**
   * The listed categories: all of them under `'all'`; under a boolean
   * exactly those whose `available` is that boolean, in order.
   */
  function ShownCategories(categories: seq<Category>, f: AvailabilityFilter): (r: seq<Category>)
    ensures f.AllCategories? ==> r == categories
    ensures Seqs.SubseqOf(r, categories)
    ensures |r| == Seqs.Count(categories, (c: Category) => Shown(f, c))
    ensures f.OnlyAvailable? ==> forall i :: 0 <= i < |r| ==> r[i].available == Some(f.available)
    ensures f.OnlyAvailable? ==> forall i :: 0 <= i < |categories| && categories[i].available == Some(f.available) ==>
      categories[i] in r
  {
    var keep := (c: Category) => Shown(f, c);
    if f.AllCategories? then
      Seqs.FilterAll(categories, keep);
      Seqs.Filter(categories, keep)
    else Seqs.Filter(categories, keep)
  }

  /**
   * A category with no `available` flag is listed only under `'all'`, and
   * the two boolean tabs together list at most every category once.
   */
  lemma UnflaggedOnlyUnderAll(categories: seq<Category>, c: Category, b: bool)
    requires c.available.None?
    ensures c !in ShownCategories(categories, OnlyAvailable(b))
    ensures |ShownCategories(categories, OnlyAvailable(true))| + |ShownCategories(categories, OnlyAvailable(false))|
         <= |categories|
  {
    Seqs.CountDisjoint3(categories,
      (x: Category) => Shown(OnlyAvailable(true), x), (x: Category) => Shown(OnlyAvailable(false), x),
      (x: Category) => false);
  }

  // ---- Delete ----

  /** The page's delete-related state. */
  datatype PageState = PageState(
    categoryToDelete: Option<string>,
    confirmDialogOpen: bool,
    isModalOpen: bool,
    selectedCategory: Option<Category>)

  /** `handleDeleteClick(id)`: remember the category and open the confirmation. */
  function DeleteClick(s: PageState, id: string): (r: PageState)
    ensures r.categoryToDelete == Some(id) && r.confirmDialogOpen
    ensures r.isModalOpen == s.isModalOpen && r.selectedCategory == s.selectedCategory
  {
    s.(categoryToDelete := Some(id), confirmDialogOpen := true)
  }

  /**
   * The name used in the delete toasts: the first category with the id, or
   * "Unknown Category" when there is none or its name is empty.
   */
  function CategoryLabel(categories: seq<Category>, id: string): (r: string)
    ensures r != ""
    ensures r != "Unknown Category" ==>
      exists i :: 0 <= i < |categories| && categories[i].id == id && categories[i].name == r
    ensures (forall i :: 0 <= i < |categories| ==> categories[i].id != id) ==> r == "Unknown Category"
  {
    var i := Seqs.FindIndex(categories, (c: Category) => c.id == id);
    if i < |categories| && categories[i].name != "" then categories[i].name else "Unknown Category"
  }

  /**
   * The first category with the id decides the label: its name when that is
   * non-empty, else "Unknown Category", whatever later categories say.
   */
  lemma CategoryLabelFirstMatch(cs: seq<Category>, k: nat, id: string)
    requires k < |cs| && cs[k].id == id
    requires forall j :: 0 <= j < k ==> cs[j].id != id
    ensures CategoryLabel(cs, id) == if cs[k].name != "" then cs[k].name else "Unknown Category"
  {
    var p := (c: Category) => c.id == id;
    assert p(cs[k]);
    assert Seqs.FindIndex(cs, p) == k;
  }

  /** A delete the page fires: the id sent to `DELETE /api/categories/<id>`, and the name its toasts show. */
  datatype DeleteRequest = DeleteRequest(id: string, name: string)

  /**
   * `handleConfirmDelete`: only with a non-empty pending id does it fire the
   * delete for that id, close the confirmation and clear the pending id;
   * otherwise nothing changes.
   */
  function ConfirmDelete(s: PageState, categories: seq<Category>): (r: (PageState, Option<DeleteRequest>))
    ensures r.1.Some? <==> s.categoryToDelete.Some? && s.categoryToDelete.value != ""
    ensures r.1.Some? ==>
      r.1.value == DeleteRequest(s.categoryToDelete.value, CategoryLabel(categories, s.categoryToDelete.value))
      && r.0 == s.(categoryToDelete := None, confirmDialogOpen := false)
    ensures r.1.None? ==> r.0 == s
  {
    if s.categoryToDelete.Some? && s.categoryToDelete.value != "" then
      var id := s.categoryToDelete.value;
      (s.(confirmDialogOpen := false, categoryToDelete := None), Some(DeleteRequest(id, CategoryLabel(categories, id))))
    else (s, None)
  }

  /**
   * Clicking delete on a category and confirming sends the delete to that
   * category's URL and leaves nothing pending; a second confirm does nothing.
   */
  lemma DeleteThenConfirm(s: PageState, id: string, categories: seq<Category>)
    requires id != ""
    ensures var (after, req) := ConfirmDelete(DeleteClick(s, id), categories);
      req.Some? && req.value.id == id
      && CategoriesHook.DeleteUrl(req.value.id) == "/api/categories/" + id
      && !after.confirmDialogOpen && after.categoryToDelete.None?
      && ConfirmDelete(after, categories) == (after, None)
  {
  }
}
