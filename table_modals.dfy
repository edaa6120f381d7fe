/**
 * The add and update table dialogs (src/components/tables/add-table-modal.tsx,
 * src/components/tables/update-table-modal.tsx): their form state, the
 * section picker, and the awaited steps of `handleSubmit`. The sections list
 * is the one captured when the dialog last rendered; each awaited call's
 * outcome is an input. A submit is recorded as the sequence of calls and
 * toasts it makes.
 */
module TableModals {
  import opened Entities
  import Text
  import TablesPage

  /** The add dialog's form. */
  datatype AddTableForm = AddTableForm(number: string, capacity: int, section: string, status: TableStatus, storeId: string)

  /** What a submit does, in order. */
  datatype Step =
    | CreateFirstSection(storeId: string, sections: seq<string>)
    | AddSection(sections: seq<string>)
    | CreateTable(form: AddTableForm)
    | UpdateTable(id: string, update: TablesPage.UpdateTableForm)
    | Close
    | ErrorToast(message: Message)

  predicate IsSectionCall(s: Step) {
    s.CreateFirstSection? || s.AddSection?
  }

  /** The error toasts a submit can show. */
  datatype Message = SectionFailed | NoSection | CreateFailed

  function MessageText(m: Message): (text: string)
    ensures text != []
  {
    match m
    case SectionFailed => "Failed to create section"
    case NoSection => "Please select a section or create a new one"
    case CreateFailed => "Failed to create table"
  }

  /** Whether each awaited call resolves: the first-section call, the add-section call, and `onCreate`/`onUpdate`. */
  datatype Outcomes = Outcomes(createFirstOk: bool, addOk: bool, saveOk: bool)

  /** The value the section picker reports when "new section" is chosen. */
  const NewSection := "new"

  // ---- Add ----

  function InitialAddForm(storeId: string): (f: AddTableForm)
    ensures f.number == "" && f.capacity == 0 && f.section == "" && f.status == Available && f.storeId == storeId
  {
    AddTableForm("", 0, "", Available, storeId)
  }

  /** The condition guarding `createFirstSection`, on the trimmed section: no sections yet and a non-blank section. */
  predicate FirstSectionNeeded(trimmed: string, sections: seq<string>) {
    |sections| == 0 && trimmed != ""
  }

  /** The condition guarding `addSection` as written, on the trimmed section: non-blank and not listed. */
  predicate AddSectionNeeded(trimmed: string, sections: seq<string>) {
    trimmed !in sections && trimmed != ""
  }

  /**
   * The add dialog's `handleSubmit` as written, step by step: the first-section
   * call, then (tested against the same captured list) the add-section call,
   * each stopping with a toast on failure; the empty-section check; `onCreate`.
   */
  function AddSubmitSteps(form: AddTableForm, storeId: string, sections: seq<string>, o: Outcomes): seq<Step> {
    AddSteps(form, storeId, Text.Trim(form.section), sections, o)
  }

  /** The same steps, given the trimmed section `t`. */
  function AddSteps(form: AddTableForm, storeId: string, t: string, sections: seq<string>, o: Outcomes): seq<Step> {
    var s := form.section;
    var first := if FirstSectionNeeded(t, sections) then [CreateFirstSection(storeId, [s])] else [];
    if FirstSectionNeeded(t, sections) && !o.createFirstOk then first + [ErrorToast(SectionFailed)]
    else
      var add := if AddSectionNeeded(t, sections) then [AddSection([s])] else [];
      if AddSectionNeeded(t, sections) && !o.addOk then first + add + [ErrorToast(SectionFailed)]
      else if s == "" then first + add + [ErrorToast(NoSection)]
      else if o.saveOk then first + add + [CreateTable(form), Close]
      else first + add + [CreateTable(form), ErrorToast(CreateFailed)]
  }

  /**
   * With no sections yet and a new section typed, a successful
   * `createFirstSection` is followed by an `addSection` of the same section.
   */
  lemma FirstSectionAddedTwice(form: AddTableForm, storeId: string, o: Outcomes)
    requires Text.Trim(form.section) != "" && o.createFirstOk
    ensures var steps := AddSubmitSteps(form, storeId, [], o);
      |steps| >= 2 && steps[0] == CreateFirstSection(storeId, [form.section]) && steps[1] == AddSection([form.section])
  {
    var t := Text.Trim(form.section);
    assert FirstSectionNeeded(t, []) && AddSectionNeeded(t, []);
    var pre := [CreateFirstSection(storeId, [form.section])] + [AddSection([form.section])];
    var steps := AddSteps(form, storeId, t, [], o);
    assert steps[..2] == pre;
  }

  /** The intended `addSection` guard: only when sections already exist. */
  predicate AddSectionNeededCorrected(trimmed: string, sections: seq<string>) {
    |sections| > 0 && AddSectionNeeded(trimmed, sections)
  }

  /** The add dialog's `handleSubmit` with the intended guard. */
  function AddSubmitStepsCorrected(form: AddTableForm, storeId: string, sections: seq<string>, o: Outcomes): seq<Step> {
    AddStepsCorrected(form, storeId, Text.Trim(form.section), sections, o)
  }

  /** The same corrected steps, given the trimmed section `t`. */
  function AddStepsCorrected(form: AddTableForm, storeId: string, t: string, sections: seq<string>, o: Outcomes): seq<Step> {
    var s := form.section;
    var pre :=
      if FirstSectionNeeded(t, sections) then [CreateFirstSection(storeId, [s])]
      else if AddSectionNeededCorrected(t, sections) then [AddSection([s])]
      else [];
    if FirstSectionNeeded(t, sections) && !o.createFirstOk then pre + [ErrorToast(SectionFailed)]
    else if AddSectionNeededCorrected(t, sections) && !o.addOk then pre + [ErrorToast(SectionFailed)]
    else if s == "" then pre + [ErrorToast(NoSection)]
    else if o.saveOk then pre + [CreateTable(form), Close]
    else pre + [CreateTable(form), ErrorToast(CreateFailed)]
  }

  /**
   * With the intended guard a submit makes at most one section call, and the
   * first section of a store is created once, followed directly by the table.
   */
  lemma CorrectedCreatesSectionOnce(form: AddTableForm, storeId: string, sections: seq<string>, o: Outcomes)
    ensures SectionCalls(AddSubmitStepsCorrected(form, storeId, sections, o)) <= 1
    ensures sections == [] && Text.Trim(form.section) != "" && o.createFirstOk && o.saveOk ==>
      AddSubmitStepsCorrected(form, storeId, sections, o) == [CreateFirstSection(storeId, [form.section]), CreateTable(form), Close]
  {
    var t := Text.Trim(form.section);
    assert t != "" ==> form.section != "";
    CorrectedStepsOnce(form, storeId, t, sections, o);
  }

  lemma CorrectedStepsOnce(form: AddTableForm, storeId: string, t: string, sections: seq<string>, o: Outcomes)
    requires t != "" ==> form.section != ""
    ensures SectionCalls(AddStepsCorrected(form, storeId, t, sections, o)) <= 1
    ensures sections == [] && t != "" && o.createFirstOk && o.saveOk ==>
      AddStepsCorrected(form, storeId, t, sections, o) == [CreateFirstSection(storeId, [form.section]), CreateTable(form), Close]
  {
    var s := form.section;
    var pre :=
      if FirstSectionNeeded(t, sections) then [CreateFirstSection(storeId, [s])]
      else if AddSectionNeededCorrected(t, sections) then [AddSection([s])]
      else [];
    var rest :=
      if FirstSectionNeeded(t, sections) && !o.createFirstOk then [ErrorToast(SectionFailed)]
      else if AddSectionNeededCorrected(t, sections) && !o.addOk then [ErrorToast(SectionFailed)]
      else if s == "" then [ErrorToast(NoSection)]
      else if o.saveOk then [CreateTable(form), Close]
      else [CreateTable(form), ErrorToast(CreateFailed)];
    assert AddStepsCorrected(form, storeId, t, sections, o) == pre + rest;
    SectionCallsAppend(pre, rest);
    assert SectionCalls(rest) == 0 by {
      assert forall i :: 0 <= i < |rest| ==> !IsSectionCall(rest[i]);
      NoSectionCalls(rest);
    }
    assert SectionCalls(pre) <= 1 by {
      if pre != [] {
        assert pre[1..] == [];
      }
    }
  }

  /**
   * The table is created exactly when the section is non-empty and every
   * section call that was needed succeeded; a failed section call ends the
   * submit with a toast.
   */
  lemma AddSubmitGuards(form: AddTableForm, storeId: string, sections: seq<string>, o: Outcomes)
    ensures (CreateTable(form) in AddSubmitSteps(form, storeId, sections, o)) <==>
      form.section != ""
      && (FirstSectionNeeded(Text.Trim(form.section), sections) ==> o.createFirstOk)
      && (AddSectionNeeded(Text.Trim(form.section), sections) ==> o.addOk)
    ensures (Close in AddSubmitSteps(form, storeId, sections, o)) <==> CreateTable(form) in AddSubmitSteps(form, storeId, sections, o) && o.saveOk
  {
    AddStepsGuards(form, storeId, Text.Trim(form.section), sections, o);
  }

  lemma AddStepsGuards(form: AddTableForm, storeId: string, t: string, sections: seq<string>, o: Outcomes)
    ensures (CreateTable(form) in AddSteps(form, storeId, t, sections, o)) <==>
      form.section != ""
      && (FirstSectionNeeded(t, sections) ==> o.createFirstOk)
      && (AddSectionNeeded(t, sections) ==> o.addOk)
    ensures (Close in AddSteps(form, storeId, t, sections, o)) <==> CreateTable(form) in AddSteps(form, storeId, t, sections, o) && o.saveOk
  {
    var s := form.section;
    var first := if FirstSectionNeeded(t, sections) then [CreateFirstSection(storeId, [s])] else [];
    var add := if AddSectionNeeded(t, sections) then [AddSection([s])] else [];
    assert CreateTable(form) !in first && Close !in first;
    assert CreateTable(form) !in add && Close !in add;
  }

  /**
   * A whitespace-only section skips both section calls (they test the trimmed
   * value) yet passes the empty check (which tests the untrimmed one): the
   * table is created with a blank section.
   */
  lemma BlankSectionCreatesTable(form: AddTableForm, storeId: string, sections: seq<string>, o: Outcomes)
    requires form.section != "" && Text.Trim(form.section) == ""
    ensures AddSubmitSteps(form, storeId, sections, o)
         == [CreateTable(form)] + (if o.saveOk then [Close] else [ErrorToast(CreateFailed)])
  {
  }

  /**
   * A padded name of a listed section makes no section call, and the table is
   * created with the padded name, which is not in the list.
   */
  lemma PaddedSectionNotAdded(form: AddTableForm, storeId: string, sections: seq<string>, o: Outcomes)
    requires |sections| > 0 && Text.Trim(form.section) in sections && form.section !in sections
    ensures forall i :: 0 <= i < |AddSubmitSteps(form, storeId, sections, o)| ==> !IsSectionCall(AddSubmitSteps(form, storeId, sections, o)[i])
    ensures o.saveOk ==> CreateTable(form) in AddSubmitSteps(form, storeId, sections, o)
  {
    var t := Text.Trim(form.section);
    assert !FirstSectionNeeded(t, sections) && !AddSectionNeeded(t, sections);
    assert form.section != "";
    assert AddSteps(form, storeId, t, sections, o) == [CreateTable(form)] + (if o.saveOk then [Close] else [ErrorToast(CreateFailed)]);
  }

  /** The add dialog's state. */
  class AddTableModal {
    var form: AddTableForm
    var isAddingNewSection: bool

    /** Mounting with the `storeId` prop of that render: the form takes its own copy of it. */
    constructor (storeId: string)
      ensures form == InitialAddForm(storeId) && !isAddingNewSection
    {
      form := InitialAddForm(storeId);
      isAddingNewSection := false;
    }

    /** `handleSectionChange`: "new" enters new-section mode with an empty section; any other value is selected. */
    method HandleSectionChange(value: string)
      modifies this
      ensures value == NewSection ==> isAddingNewSection && form == old(form).(section := "")
      ensures value != NewSection ==> isAddingNewSection == old(isAddingNewSection) && form == old(form).(section := value)
    {
      if value == NewSection {
        isAddingNewSection := true;
        form := form.(section := "");
      } else {
        form := form.(section := value);
      }
    }

    /** `handleCancelNewSection`: leave new-section mode with no section. */
    method HandleCancelNewSection()
      modifies this
      ensures !isAddingNewSection && form == old(form).(section := "")
    {
      isAddingNewSection := false;
      form := form.(section := "");
    }

    /**
     * `handleSubmit` with the `storeId` prop and the `sections` of the current
     * render: the steps taken, and the form reset to its initial state, with
     * that prop's store, after a successful create.
     */
    method HandleSubmit(storeId: string, sections: seq<string>, o: Outcomes) returns (steps: seq<Step>)
      modifies this
      ensures steps == AddSubmitSteps(old(form), storeId, sections, o)
      ensures Close in steps ==> form == InitialAddForm(storeId)
      ensures Close !in steps ==> form == old(form)
      ensures isAddingNewSection == old(isAddingNewSection)
    {
      var f := form;
      var s := f.section;
      var t := Text.Trim(s);
      var first: seq<Step> := [];
      if FirstSectionNeeded(t, sections) {
        first := [CreateFirstSection(storeId, [s])];
        if !o.createFirstOk {
          steps := first + [ErrorToast(SectionFailed)];
          assert steps == AddSteps(f, storeId, t, sections, o);
          return;
        }
      }
      assert first == if FirstSectionNeeded(t, sections) then [CreateFirstSection(storeId, [s])] else [];
      var add: seq<Step> := [];
      if AddSectionNeeded(t, sections) {
        add := [AddSection([s])];
        if !o.addOk {
          steps := first + add + [ErrorToast(SectionFailed)];
          assert steps == AddSteps(f, storeId, t, sections, o);
          assert Close !in first + add;
          return;
        }
      }
      assert add == if AddSectionNeeded(t, sections) then [AddSection([s])] else [];
      var pre := first + add;
      assert Close !in pre;
      if s == "" {
        steps := pre + [ErrorToast(NoSection)];
        assert steps == AddSteps(f, storeId, t, sections, o);
      } else if o.saveOk {
        steps := pre + [CreateTable(f), Close];
        assert steps == AddSteps(f, storeId, t, sections, o);
        form := InitialAddForm(storeId);
      } else {
        steps := pre + [CreateTable(f), ErrorToast(CreateFailed)];
        assert steps == AddSteps(f, storeId, t, sections, o);
      }
    }
  }

  /**
   * A dialog mounted while the page's `storeId` prop is still `''` keeps that
   * store in its form: once the prop is known, a submit creates the first
   * section under the prop's store but the table with the form's empty store.
   */
  method MountedBeforeStoreKnown(store: string, section: string, o: Outcomes) returns (steps: seq<Step>)
    requires store != "" && section != NewSection && Text.Trim(section) != ""
    requires o.createFirstOk && o.addOk && o.saveOk
    ensures steps == [CreateFirstSection(store, [section]), AddSection([section]),
                      CreateTable(InitialAddForm("").(section := section)), Close]
    ensures steps[2].form.storeId == "" != store
  {
    var dialog := new AddTableModal("");
    dialog.HandleSectionChange(section);
    steps := dialog.HandleSubmit(store, [], o);
  }

  // ---- Update ----

  /** The form the update dialog shows for a table. */
  function FormOf(t: Table): (f: TablesPage.UpdateTableForm)
    ensures f.number == t.number && f.capacity == t.capacity && f.section == t.section && f.status == t.status
  {
    TablesPage.UpdateTableForm(t.number, t.capacity, t.section, t.status)
  }

  /**
   * The update dialog's `handleSubmit`: an `addSection` for a non-blank
   * section not yet listed (stopping with a toast on failure), the
   * empty-section check, then `onUpdate(table._id, form)`; only success closes.
   */
  function UpdateSubmitSteps(table: Table, form: TablesPage.UpdateTableForm, sections: seq<string>, o: Outcomes): seq<Step> {
    UpdateSteps(table, form, Text.Trim(form.section), sections, o)
  }

  /** The same steps, given the trimmed section `t`. */
  function UpdateSteps(table: Table, form: TablesPage.UpdateTableForm, t: string, sections: seq<string>, o: Outcomes): seq<Step> {
    var s := form.section;
    var add := if AddSectionNeeded(t, sections) then [AddSection([s])] else [];
    if AddSectionNeeded(t, sections) && !o.addOk then add + [ErrorToast(SectionFailed)]
    else if s == "" then add + [ErrorToast(NoSection)]
    else if o.saveOk then add + [UpdateTable(table.id, form), Close]
    else add + [UpdateTable(table.id, form)]
  }

  /**
   * The update is sent, for the dialog's table, exactly when the section is
   * non-empty and any needed section call succeeded; at most one section call
   * is made; the dialog closes only after a successful update.
   */
  lemma UpdateSubmitGuards(table: Table, form: TablesPage.UpdateTableForm, sections: seq<string>, o: Outcomes)
    ensures UpdateTable(table.id, form) in UpdateSubmitSteps(table, form, sections, o) <==>
      form.section != "" && (AddSectionNeeded(Text.Trim(form.section), sections) ==> o.addOk)
    ensures Close in UpdateSubmitSteps(table, form, sections, o) <==>
      UpdateTable(table.id, form) in UpdateSubmitSteps(table, form, sections, o) && o.saveOk
    ensures forall i :: 0 <= i < |UpdateSubmitSteps(table, form, sections, o)| ==>
      IsUpdateOf(UpdateSubmitSteps(table, form, sections, o)[i], table.id)
    ensures SectionCalls(UpdateSubmitSteps(table, form, sections, o)) <= 1
  {
    UpdateStepsGuards(table, form, Text.Trim(form.section), sections, o);
  }

  /** A step that is not an update, or one for table `id`. */
  predicate IsUpdateOf(s: Step, id: string) {
    s.UpdateTable? ==> s.id == id
  }

  /** The number of section calls among the steps. */
  function SectionCalls(steps: seq<Step>): nat {
    if steps == [] then 0 else (if IsSectionCall(steps[0]) then 1 else 0) + SectionCalls(steps[1..])
  }

  lemma UpdateStepsGuards(table: Table, form: TablesPage.UpdateTableForm, t: string, sections: seq<string>, o: Outcomes)
    ensures UpdateTable(table.id, form) in UpdateSteps(table, form, t, sections, o) <==>
      form.section != "" && (AddSectionNeeded(t, sections) ==> o.addOk)
    ensures Close in UpdateSteps(table, form, t, sections, o) <==>
      UpdateTable(table.id, form) in UpdateSteps(table, form, t, sections, o) && o.saveOk
    ensures forall i :: 0 <= i < |UpdateSteps(table, form, t, sections, o)| ==>
      IsUpdateOf(UpdateSteps(table, form, t, sections, o)[i], table.id)
    ensures SectionCalls(UpdateSteps(table, form, t, sections, o)) <= 1
  {
    var add := if AddSectionNeeded(t, sections) then [AddSection([form.section])] else [];
    assert UpdateTable(table.id, form) !in add && Close !in add;
    var s := form.section;
    var rest :=
      if AddSectionNeeded(t, sections) && !o.addOk then [ErrorToast(SectionFailed)]
      else if s == "" then [ErrorToast(NoSection)]
      else if o.saveOk then [UpdateTable(table.id, form), Close]
      else [UpdateTable(table.id, form)];
    assert UpdateSteps(table, form, t, sections, o) == add + rest;
    SectionCallsAppend(add, rest);
    assert SectionCalls(rest) == 0 by {
      assert forall i :: 0 <= i < |rest| ==> !IsSectionCall(rest[i]);
      NoSectionCalls(rest);
    }
    assert SectionCalls(add) == |add| by {
      if add != [] {
        assert add[1..] == [];
      }
    }
  }

  lemma {:induction false} SectionCallsAppend(a: seq<Step>, b: seq<Step>)
    ensures SectionCalls(a + b) == SectionCalls(a) + SectionCalls(b)
  {
    if a != [] {
      assert (a + b)[1..] == a[1..] + b;
      SectionCallsAppend(a[1..], b);
    } else {
      assert a + b == b;
    }
  }

  lemma {:induction false} NoSectionCalls(steps: seq<Step>)
    requires forall i :: 0 <= i < |steps| ==> !IsSectionCall(steps[i])
    ensures SectionCalls(steps) == 0
  {
    if steps != [] {
      NoSectionCalls(steps[1..]);
    }
  }

  /** The update dialog's state, for the table it was opened on. */
  class UpdateTableModal {
    var table: Table
    var form: TablesPage.UpdateTableForm
    var isAddingNewSection: bool

    constructor (t: Table)
      ensures table == t && form == FormOf(t) && !isAddingNewSection
    {
      table := t;
      form := FormOf(t);
      isAddingNewSection := false;
    }

    /** The `[table]` effect: the form is reset to the table's values and new-section mode is left. */
    method OnTableChange(t: Table)
      modifies this
      ensures table == t && form == FormOf(t) && !isAddingNewSection
    {
      table := t;
      form := FormOf(t);
      isAddingNewSection := false;
    }

    method HandleSectionChange(value: string)
      modifies this
      ensures table == old(table)
      ensures value == NewSection ==> isAddingNewSection && form == old(form).(section := "")
      ensures value != NewSection ==> isAddingNewSection == old(isAddingNewSection) && form == old(form).(section := value)
    {
      if value == NewSection {
        isAddingNewSection := true;
        form := form.(section := "");
      } else {
        form := form.(section := value);
      }
    }

    /** `handleCancelNewSection`: leave new-section mode and restore the table's own section. */
    method HandleCancelNewSection()
      modifies this
      ensures table == old(table) && !isAddingNewSection && form == old(form).(section := table.section)
    {
      isAddingNewSection := false;
      form := form.(section := table.section);
    }

    /** `handleSubmit` with the captured `sections`; the dialog's own state does not change. */
    method HandleSubmit(sections: seq<string>, o: Outcomes) returns (steps: seq<Step>)
      ensures steps == UpdateSubmitSteps(table, form, sections, o)
    {
      var f := form;
      var s := f.section;
      var t := Text.Trim(s);
      var add: seq<Step> := [];
      if t !in sections && t != "" {
        add := [AddSection([s])];
        if !o.addOk {
          steps := add + [ErrorToast(SectionFailed)];
          return;
        }
      }
      if s == "" {
        steps := add + [ErrorToast(NoSection)];
      } else if o.saveOk {
        steps := add + [UpdateTable(table.id, f), Close];
      } else {
        steps := add + [UpdateTable(table.id, f)];
      }
    }
  }

  // ---- Wired to the tables page ----

  /**
   * The outcomes a dialog on the tables page sees: its section calls' own, and
   * `onCreate`/`onUpdate` settling as the page's handler settles.
   */
  function PageOutcomes(createFirstOk: bool, addOk: bool, mutationOk: bool): (o: Outcomes)
    ensures o.createFirstOk == createFirstOk && o.addOk == addOk
    ensures o.saveOk == TablesPage.HandleTableSave(mutationOk).resolves
  {
    Outcomes(createFirstOk, addOk, TablesPage.HandleTableSave(mutationOk).resolves)
  }

  /** The dialog's "Failed to create table" toast shows exactly when `onCreate` was awaited and rejected. */
  lemma AddStepsCreateFailedToast(form: AddTableForm, storeId: string, t: string, sections: seq<string>, o: Outcomes)
    ensures ErrorToast(CreateFailed) in AddSteps(form, storeId, t, sections, o) <==>
      CreateTable(form) in AddSteps(form, storeId, t, sections, o) && !o.saveOk
  {
    var s := form.section;
    var first := if FirstSectionNeeded(t, sections) then [CreateFirstSection(storeId, [s])] else [];
    var add := if AddSectionNeeded(t, sections) then [AddSection([s])] else [];
    assert CreateTable(form) !in first + add && ErrorToast(CreateFailed) !in first + add;
  }

  /**
   * As written, a create that fails on the tables page still closes the add
   * dialog (and `AddTableModal.HandleSubmit` then resets the typed form); the
   * dialog's own "Failed to create table" toast never shows.
   */
  lemma FailedCreateClosesDialog(form: AddTableForm, storeId: string, sections: seq<string>, createFirstOk: bool, addOk: bool)
    ensures var steps := AddSubmitSteps(form, storeId, sections, PageOutcomes(createFirstOk, addOk, false));
      (CreateTable(form) in steps ==> Close in steps) && ErrorToast(CreateFailed) !in steps
  {
    var o := PageOutcomes(createFirstOk, addOk, false);
    AddSubmitGuards(form, storeId, sections, o);
    AddStepsCreateFailedToast(form, storeId, Text.Trim(form.section), sections, o);
  }

  /** As written, an update that fails on the tables page still closes the update dialog. */
  lemma FailedUpdateClosesDialog(table: Table, form: TablesPage.UpdateTableForm, sections: seq<string>, addOk: bool)
    ensures var steps := UpdateSubmitSteps(table, form, sections, PageOutcomes(false, addOk, false));
      UpdateTable(table.id, form) in steps ==> Close in steps
  {
    UpdateSubmitGuards(table, form, sections, PageOutcomes(false, addOk, false));
  }

  /**
   * With handlers that pass the failure on, the add dialog closes only after a
   * successful create, and a failed create shows the dialog's toast instead.
   */
  lemma CorrectedCreateClosesOnlyOnSuccess(form: AddTableForm, storeId: string, sections: seq<string>, createFirstOk: bool, addOk: bool, mutationOk: bool)
    ensures var steps := AddSubmitSteps(form, storeId, sections, Outcomes(createFirstOk, addOk, TablesPage.HandleTableSaveCorrected(mutationOk).resolves));
      (Close in steps <==> CreateTable(form) in steps && mutationOk)
      && (ErrorToast(CreateFailed) in steps <==> CreateTable(form) in steps && !mutationOk)
  {
    var o := Outcomes(createFirstOk, addOk, TablesPage.HandleTableSaveCorrected(mutationOk).resolves);
    AddSubmitGuards(form, storeId, sections, o);
    AddStepsCreateFailedToast(form, storeId, Text.Trim(form.section), sections, o);
  }

  /** With handlers that pass the failure on, the update dialog closes only after a successful update. */
  lemma CorrectedUpdateClosesOnlyOnSuccess(table: Table, form: TablesPage.UpdateTableForm, sections: seq<string>, addOk: bool, mutationOk: bool)
    ensures var steps := UpdateSubmitSteps(table, form, sections, Outcomes(false, addOk, TablesPage.HandleTableSaveCorrected(mutationOk).resolves));
      Close in steps <==> UpdateTable(table.id, form) in steps && mutationOk
  {
    UpdateSubmitGuards(table, form, sections, Outcomes(false, addOk, TablesPage.HandleTableSaveCorrected(mutationOk).resolves));
  }

  /** Choosing "new" and then cancelling brings back the table's section, whatever was picked before. */
  lemma CancelRestoresSection(t: Table, f: TablesPage.UpdateTableForm)
    ensures f.(section := "").(section := t.section) == f.(section := t.section)
    ensures FormOf(t).(section := "").(section := t.section) == FormOf(t)
  {
  }
}
