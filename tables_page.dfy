/**
 * The tables page (src/app/dashboard/tables/page.tsx): the status and section
 * filters, the section-then-number sort of the shown tables, the count cards,
 * the update payload, and the delete confirmation.
 * `localeCompare` is modelled as lexicographic order on character codes.
 */
module TablesPage {
  import opened Wrappers
  import opened Entities
  import Seqs
  import TablesHook

  // ---- Filters ----

  /** The status tab: `'all'` or one status. */
  datatype StatusChoice = AllStatuses | OnlyStatus(status: TableStatus)

  /** The `filter` callback: status matches (or `'all'`) and section matches (or `'all'`). */
  predicate Shown(status: StatusChoice, section: string, t: Table) {
    (status.AllStatuses? || t.status == status.status) && (section == "all" || t.section == section)
  }

  // ---- Sort order ----

  /** `a.localeCompare(b) <= 0`, as lexicographic order on character codes. */
  predicate LexLe(a: string, b: string)
    decreases |a|
  {
    a == [] || (b != [] && (a[0] < b[0] || (a[0] == b[0] && LexLe(a[1..], b[1..]))))
  }

  lemma {:induction false} LexLeTotal(a: string, b: string)
    ensures LexLe(a, b) || LexLe(b, a)
    decreases |a|
  {
    if a != [] && b != [] && a[0] == b[0] {
      LexLeTotal(a[1..], b[1..]);
    }
  }

  lemma {:induction false} LexLeAntisymmetric(a: string, b: string)
    requires LexLe(a, b) && LexLe(b, a)
    ensures a == b
    decreases |a|
  {
    if a != [] {
      LexLeAntisymmetric(a[1..], b[1..]);
      assert a == [a[0]] + a[1..] && b == [b[0]] + b[1..];
    }
  }

  lemma {:induction false} LexLeTransitive(a: string, b: string, c: string)
    requires LexLe(a, b) && LexLe(b, c)
    ensures LexLe(a, c)
    decreases |a|
  {
    if a != [] && a[0] == b[0] && b[0] == c[0] {
      LexLeTransitive(a[1..], b[1..], c[1..]);
    }
  }

  function DigitValue(c: char): nat {
    if '0' <= c <= '9' then (c as int - '0' as int) as nat else 0
  }

  /** `Number(s)` for a decimal numeral (the empty string gives 0, as in JavaScript). */
  function NumberOf(s: string): nat
    decreases |s|
  {
    if s == [] then 0 else 10 * NumberOf(s[..|s| - 1]) + DigitValue(s[|s| - 1])
  }

  /**
   * The comparator's order: `a` may come before `b`. Within a section by
   * numeric table number, otherwise by section name.
   */
  predicate TableLe(a: Table, b: Table) {
    if a.section == b.section then NumberOf(a.number) <= NumberOf(b.number) else LexLe(a.section, b.section)
  }

  lemma TableLeTotal(a: Table, b: Table)
    ensures TableLe(a, b) || TableLe(b, a)
  {
    LexLeTotal(a.section, b.section);
  }

  lemma TableLeTransitive(a: Table, b: Table, c: Table)
    requires TableLe(a, b) && TableLe(b, c)
    ensures TableLe(a, c)
  {
    if a.section != b.section && b.section != c.section {
      LexLeTransitive(a.section, b.section, c.section);
      if a.section == c.section {
        LexLeAntisymmetric(a.section, b.section);
      }
    } else if a.section != b.section || b.section != c.section {
      if a.section == c.section {
        LexLeAntisymmetric(a.section, b.section);
      }
    }
  }

  /** Numbers compare as numbers: table 2 comes before table 10 of the same section, unlike their strings. */
  lemma NumbersCompareNumerically(t2: Table, t10: Table)
    requires t2.section == t10.section && t2.number == "2" && t10.number == "10"
    ensures TableLe(t2, t10) && !TableLe(t10, t2)
    ensures LexLe("10", "2") && !LexLe("2", "10")
  {
    assert "1"[..0] == "";
    assert "10"[..1] == "1";
    assert "2"[..0] == "";
  }

  /** Each neighbour pair in the comparator's order. */
  predicate Sorted(s: seq<Table>) {
    forall i :: 0 <= i < |s| - 1 ==> TableLe(s[i], s[i + 1])
  }

  /** In a sorted list every earlier table may precede every later one. */
  lemma {:induction false} SortedAllPairs(s: seq<Table>, i: nat, j: nat)
    requires Sorted(s) && i < j < |s|
    ensures TableLe(s[i], s[j])
    decreases j - i
  {
    if j > i + 1 {
      SortedAllPairs(s, i + 1, j);
      TableLeTransitive(s[i], s[i + 1], s[j]);
    }
  }

  /** `x` inserted before the first table it may precede. */
  function Insert(x: Table, s: seq<Table>): (r: seq<Table>)
    ensures |r| == |s| + 1
    ensures multiset(r) == multiset(s) + multiset{x}
    ensures r[0] == x || (s != [] && r[0] == s[0])
    ensures Sorted(s) ==> Sorted(r)
  {
    if s == [] then [x]
    else if TableLe(x, s[0]) then [x] + s
    else
      TableLeTotal(x, s[0]);
      var rest := Insert(x, s[1..]);
      assert s == [s[0]] + s[1..];
      [s[0]] + rest
  }

  /** The sort: a stable insertion sort in the comparator's order. */
  function SortTables(s: seq<Table>): (r: seq<Table>)
    ensures |r| == |s|
    ensures multiset(r) == multiset(s)
    ensures Sorted(r)
  {
    if s == [] then []
    else
      assert s == [s[0]] + s[1..];
      Insert(s[0], SortTables(s[1..]))
  }

  /**
   * The grid: the filtered tables, sorted; nothing while the tables are
   * undefined. Exactly the tables passing both filters are shown, each as
   * often as fetched, in the comparator's order.
   */
  function VisibleTables(tables: Option<seq<Table>>, status: StatusChoice, section: string): (r: seq<Table>)
    ensures tables.None? ==> r == []
    ensures Sorted(r)
    ensures tables.Some? ==> multiset(r) == multiset(Seqs.Filter(tables.value, (t: Table) => Shown(status, section, t)))
    ensures forall i :: 0 <= i < |r| ==> Shown(status, section, r[i]) && tables.Some? && r[i] in tables.value
    ensures tables.Some? ==> forall i :: 0 <= i < |tables.value| && Shown(status, section, tables.value[i]) ==>
      tables.value[i] in r
  {
    match tables
    case None => []
    case Some(ts) =>
      var shown := Seqs.Filter(ts, (t: Table) => Shown(status, section, t));
      var r := SortTables(shown);
      SameMembers(r, shown);
      r
  }

  /** Two sequences with the same multiset have the same members. */
  lemma SameMembers(a: seq<Table>, b: seq<Table>)
    requires multiset(a) == multiset(b)
    ensures forall i :: 0 <= i < |a| ==> a[i] in b
    ensures forall i :: 0 <= i < |b| ==> b[i] in a
  {
    forall i | 0 <= i < |a| ensures a[i] in b {
      assert a[i] in multiset(a);
    }
    forall i | 0 <= i < |b| ensures b[i] in a {
      assert b[i] in multiset(b);
    }
  }

  // ---- Count cards ----

  /** The total card: the number of tables, 0 while they are not loaded. */
  function TotalCount(tables: Option<seq<Table>>): (n: nat)
    ensures tables.None? ==> n == 0
    ensures tables.Some? ==> n == |tables.value|
  {
    if tables.Some? then |tables.value| else 0
  }

  /** A status card: how many tables have that status, 0 while they are not loaded. */
  function StatusCount(tables: Option<seq<Table>>, status: TableStatus): (n: nat)
    ensures tables.None? ==> n == 0
    ensures tables.Some? ==> n <= |tables.value|
  {
    match tables
    case None => 0
    case Some(ts) => Seqs.Count(ts, (t: Table) => t.status == status)
  }

  /** The available, occupied and reserved cards add up to at most the total. */
  lemma CardsBounded(tables: Option<seq<Table>>)
    ensures StatusCount(tables, Available) + StatusCount(tables, Occupied) + StatusCount(tables, Reserved)
         <= TotalCount(tables)
  {
    if tables.Some? {
      Seqs.CountDisjoint3(tables.value,
        (t: Table) => t.status == Available, (t: Table) => t.status == Occupied, (t: Table) => t.status == Reserved);
    }
  }

  /** A status card counts exactly the tables its tab shows with every section selected. */
  lemma StatusCountMatchesTab(tables: seq<Table>, status: TableStatus)
    ensures StatusCount(Some(tables), status) == |VisibleTables(Some(tables), OnlyStatus(status), "all")|
  {
    Seqs.FilterAgree(tables, (t: Table) => t.status == status, (t: Table) => Shown(OnlyStatus(status), "all", t));
  }

  // ---- Update ----

  /** The update dialog's form. */
  datatype UpdateTableForm = UpdateTableForm(number: string, capacity: int, section: string, status: TableStatus)

  /** What `handleUpdateTable` hands the mutation: the id, the form's fields and the user's store (empty when unknown). */
  function UpdateRequestFor(id: string, form: UpdateTableForm, userStoreId: Option<string>): (req: TablesHook.UpdateRequest)
    ensures req.id == id && req.storeId == Some(userStoreId.GetOr(""))
    ensures req.number == Some(form.number) && req.capacity == Some(form.capacity)
    ensures req.section == Some(form.section) && req.status == Some(form.status)
  {
    TablesHook.UpdateRequest(id, Some(form.number), Some(form.capacity), Some(form.section), Some(form.status),
      Some(if userStoreId.Some? && userStoreId.value != "" then userStoreId.value else ""))
  }

  /** The PUT goes to the table's URL and carries every form field and the user's store, never the id. */
  lemma UpdateSendsForm(id: string, form: UpdateTableForm, userStoreId: Option<string>)
    ensures TablesHook.Update(UpdateRequestFor(id, form, userStoreId)).url == "/api/tables/" + id
    ensures TablesHook.Update(UpdateRequestFor(id, form, userStoreId)).body
         == TablesHook.UpdateBody(Some(form.number), Some(form.capacity), Some(form.section), Some(form.status),
              Some(userStoreId.GetOr("")))
  {
    var c := TablesHook.Update(UpdateRequestFor(id, form, userStoreId));
    assert c.url == c.url[..|TablesHook.Base| + 1] + c.url[|TablesHook.Base| + 1..];
  }

  // ---- Dialog state ----

  /** The page's dialog state. */
  datatype PageState = PageState(
    tableToDelete: Option<string>,
    confirmDialogOpen: bool,
    isUpdateModalOpen: bool,
    selectedTable: Option<Table>)

  /** `handleDeleteClick(id)`: remember the table and open the confirmation. */
  function DeleteClick(s: PageState, id: string): (r: PageState)
    ensures r.tableToDelete == Some(id) && r.confirmDialogOpen
    ensures r.isUpdateModalOpen == s.isUpdateModalOpen && r.selectedTable == s.selectedTable
  {
    s.(tableToDelete := Some(id), confirmDialogOpen := true)
  }

  /** The toast's name: the first fetched table with the id's number, or "Unknown Table". */
  function TableLabel(tables: Option<seq<Table>>, id: string): (r: string)
    ensures r != ""
    ensures r != "Unknown Table" ==>
      tables.Some? && exists i :: 0 <= i < |tables.value| && tables.value[i].id == id && tables.value[i].number == r
    ensures tables.None? || (forall i :: 0 <= i < |tables.value| ==> tables.value[i].id != id) ==> r == "Unknown Table"
  {
    match tables
    case None => "Unknown Table"
    case Some(ts) =>
      var i := Seqs.FindIndex(ts, (t: Table) => t.id == id);
      if i < |ts| && ts[i].number != "" then ts[i].number else "Unknown Table"
  }

  /**
   * The first fetched table with the id decides the label: its number when
   * that is non-empty, else "Unknown Table", whatever later tables say.
   */
  lemma TableLabelFirstMatch(ts: seq<Table>, k: nat, id: string)
    requires k < |ts| && ts[k].id == id
    requires forall j :: 0 <= j < k ==> ts[j].id != id
    ensures TableLabel(Some(ts), id) == if ts[k].number != "" then ts[k].number else "Unknown Table"
  {
    var p := (t: Table) => t.id == id;
    assert p(ts[k]);
    assert Seqs.FindIndex(ts, p) == k;
  }

  datatype DeleteRequest = DeleteRequest(id: string, name: string)

  /**
   * `handleConfirmDelete`: only with a non-empty pending id does it fire the
   * delete for that id (labelled for the toasts), close the confirmation and
   * clear the pending id; otherwise nothing changes.
   */
  function ConfirmDelete(s: PageState, tables: Option<seq<Table>>): (r: (PageState, Option<DeleteRequest>))
    ensures r.1.Some? <==> s.tableToDelete.Some? && s.tableToDelete.value != ""
    ensures r.1.Some? ==>
      r.1.value == DeleteRequest(s.tableToDelete.value, TableLabel(tables, s.tableToDelete.value))
      && r.0 == s.(tableToDelete := None, confirmDialogOpen := false)
    ensures r.1.None? ==> r.0 == s
  {
    if s.tableToDelete.Some? && s.tableToDelete.value != "" then
      var id := s.tableToDelete.value;
      (s.(confirmDialogOpen := false, tableToDelete := None), Some(DeleteRequest(id, TableLabel(tables, id))))
    else (s, None)
  }

  /**
   * Clicking delete on a table and confirming deletes exactly that table and
   * leaves the confirmation closed with nothing pending; a second confirm does nothing.
   */
  lemma DeleteThenConfirm(s: PageState, id: string, tables: Option<seq<Table>>)
    requires id != ""
    ensures var (after, req) := ConfirmDelete(DeleteClick(s, id), tables);
      req == Some(DeleteRequest(id, TableLabel(tables, id)))
      && TablesHook.DeleteUrl(req.value.id) == "/api/tables/" + id
      && !after.confirmDialogOpen && after.tableToDelete.None?
      && ConfirmDelete(after, tables) == (after, None)
  {
  }

  /** What one of the page's save handlers does: which toast it shows, and whether the promise the dialog awaits resolves. */
  datatype HandlerRun = HandlerRun(successToast: bool, errorToast: bool, resolves: bool)

  /**
   * `handleCreateTable` and `handleUpdateTable` as written: each shows the
   * toast for the mutation's outcome and catches its error without passing it
   * on, so the dialog's `await onCreate(...)`/`await onUpdate(...)` resolves
   * whether or not the mutation succeeded.
   */
  function HandleTableSave(mutationOk: bool): (h: HandlerRun)
    ensures h.successToast == mutationOk && h.errorToast == !mutationOk
    ensures h.resolves
  {
    HandlerRun(mutationOk, !mutationOk, true)
  }

  /** The intended handlers: the same toasts, with the failure passed on to the dialog. */
  function HandleTableSaveCorrected(mutationOk: bool): (h: HandlerRun)
    ensures h.successToast == mutationOk && h.errorToast == !mutationOk
    ensures h.resolves <==> mutationOk
  {
    HandlerRun(mutationOk, !mutationOk, mutationOk)
  }

  /** The update dialog's `onClose`: close it and clear the selection. */
  function CloseUpdateModal(s: PageState): (r: PageState)
    ensures !r.isUpdateModalOpen && r.selectedTable.None?
    ensures r.tableToDelete == s.tableToDelete && r.confirmDialogOpen == s.confirmDialogOpen
  {
    s.(isUpdateModalOpen := false, selectedTable := None)
  }

  /** `handleUpdateTable`'s outcome: on success the update dialog closes and the selection clears; on failure nothing changes. */
  function AfterUpdateTable(s: PageState, ok: bool): (r: PageState)
    ensures ok ==> !r.isUpdateModalOpen && r.selectedTable.None?
    ensures !ok ==> r == s
    ensures r.tableToDelete == s.tableToDelete && r.confirmDialogOpen == s.confirmDialogOpen
  {
    if ok then s.(isUpdateModalOpen := false, selectedTable := None) else s
  }

  /**
   * Because `handleUpdateTable` always resolves, the dialog then calls
   * `onClose`: a failed update leaves the page exactly as a successful one,
   * with the dialog closed and the selection cleared.
   */
  lemma FailedUpdateClosesDialog(s: PageState)
    ensures HandleTableSave(false).resolves
    ensures CloseUpdateModal(AfterUpdateTable(s, false)) == CloseUpdateModal(AfterUpdateTable(s, true))
    ensures !CloseUpdateModal(AfterUpdateTable(s, false)).isUpdateModalOpen
  {
  }
}
