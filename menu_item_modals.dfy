/**
 * The add and edit menu-item dialogs (src/components/menu/add-menu-item-modal.tsx,
 * src/components/menu/edit-menu-item-modal.tsx): their form state, the
 * `FormData` each submit builds, and what happens to the state afterwards.
 * The outcome of the `onCreate`/`onUpdate` callback is an input.
 */
module MenuItemModals {
  import opened Wrappers
  import opened Entities
  import opened Forms
  import Allergens
  import Text

  // ---- Add ----

  /** The add dialog's form state (the unused `allergens` array is left out). */
  datatype AddForm = AddForm(
    name: string,
    description: string,
    price: real,
    tax: real,
    categoryId: string,
    storeId: string,
    allergensText: string,
    isAvailable: bool)

  /** The state the dialog opens with, and returns to after a successful create. */
  function InitialAddForm(storeId: string): (f: AddForm)
    ensures f.price == 0.0 && f.tax == 0.0 && f.isAvailable
    ensures f.name == "" && f.description == "" && f.categoryId == "" && f.allergensText == ""
    ensures f.storeId == storeId
  {
    AddForm("", "", 0.0, 0.0, "", storeId, "", true)
  }

  /** The fields `handleSubmit` appends, in order, given the allergen list it stringifies. */
  function AddFields(form: AddForm, image: Option<FileRef>, allergens: seq<string>): (fs: seq<Field>)
    ensures |fs| == if image.Some? then 9 else 8
  {
    AddFormFields(form) + ImageFields(image) + [Field("allergens", JsonList(allergens))]
  }

  function AddFormFields(form: AddForm): seq<Field> {
    [Field("name", Str(form.name)),
     Field("description", Str(form.description)),
     Field("price", Number(form.price)),
     Field("tax", Number(form.tax)),
     Field("categoryId", Str(form.categoryId)),
     Field("storeId", Str(form.storeId)),
     Field("isAvailable", Flag(form.isAvailable))]
  }

  /** The `image` field, appended only when a file was chosen. */
  function ImageFields(image: Option<FileRef>): seq<Field> {
    if image.Some? then [Field("image", Blob(image.value))] else []
  }

  /** What the add dialog sends: the allergen text normalised into a list. */
  function AddPayload(form: AddForm, image: Option<FileRef>): seq<Field> {
    AddFields(form, image, Allergens.Normalise(form.allergensText))
  }

  /**
   * The server reads the store, the availability flag, the image (only when
   * one was chosen) and the normalised allergen list from the add payload.
   */
  lemma AddPayloadFields(form: AddForm, image: Option<FileRef>)
    ensures Lookup(AddPayload(form, image), "storeId") == Some(Str(form.storeId))
    ensures Lookup(AddPayload(form, image), "isAvailable") == Some(Flag(form.isAvailable))
    ensures Lookup(AddPayload(form, image), "image") == if image.Some? then Some(Blob(image.value)) else None
    ensures Lookup(AddPayload(form, image), "allergens") == Some(JsonList(Allergens.Normalise(form.allergensText)))
  {
    AddFieldsValues(form, image, Allergens.Normalise(form.allergensText));
    AddFieldsExtras(form, image, Allergens.Normalise(form.allergensText));
  }

  lemma AddFieldsValues(form: AddForm, image: Option<FileRef>, allergens: seq<string>)
    ensures Lookup(AddFields(form, image, allergens), "storeId") == Some(Str(form.storeId))
    ensures Lookup(AddFields(form, image, allergens), "isAvailable") == Some(Flag(form.isAvailable))
  {
    var fields := AddFormFields(form);
    FormFieldFound(fields, image, allergens, 5, "storeId");
    assert "description"[0] != "isAvailable"[0];
    FormFieldFound(fields, image, allergens, 6, "isAvailable");
  }

  lemma AddFieldsExtras(form: AddForm, image: Option<FileRef>, allergens: seq<string>)
    ensures Lookup(AddFields(form, image, allergens), "image") == if image.Some? then Some(Blob(image.value)) else None
    ensures Lookup(AddFields(form, image, allergens), "allergens") == Some(JsonList(allergens))
  {
    var fields := AddFormFields(form);
    assert "price"[0] != "image"[0];
    ImageFieldFound(fields, image, allergens);
    AllergensFieldFound(fields, image, allergens);
  }

  /** A form field, appended before the image and the allergens, is found at its place. */
  lemma FormFieldFound(fields: seq<Field>, image: Option<FileRef>, allergens: seq<string>, k: nat, name: string)
    requires k < |fields| && fields[k].name == name
    requires forall j :: 0 <= j < k ==> fields[j].name != name
    ensures Lookup(fields + ImageFields(image) + [Field("allergens", JsonList(allergens))], name) == Some(fields[k].value)
  {
    LookupAt(fields, k, name);
    LookupPrefix(fields, ImageFields(image), name);
    LookupPrefix(fields + ImageFields(image), [Field("allergens", JsonList(allergens))], name);
  }

  /** Appended after form fields without one, the `image` field is found exactly when a file was chosen. */
  lemma ImageFieldFound(fields: seq<Field>, image: Option<FileRef>, allergens: seq<string>)
    requires forall i :: 0 <= i < |fields| ==> fields[i].name != "image"
    ensures Lookup(fields + ImageFields(image) + [Field("allergens", JsonList(allergens))], "image")
         == if image.Some? then Some(Blob(image.value)) else None
  {
    var files, last := ImageFields(image), [Field("allergens", JsonList(allergens))];
    LookupSkip(fields, files, "image");
    if image.Some? {
      LookupAt(files, 0, "image");
      LookupPrefix(fields + files, last, "image");
    } else {
      LookupSkip(fields + files, last, "image");
    }
  }

  /** The allergens field, appended last, is found when no form field shares its name. */
  lemma AllergensFieldFound(fields: seq<Field>, image: Option<FileRef>, allergens: seq<string>)
    requires forall i :: 0 <= i < |fields| ==> fields[i].name != "allergens"
    ensures Lookup(fields + ImageFields(image) + [Field("allergens", JsonList(allergens))], "allergens")
         == Some(JsonList(allergens))
  {
    var files, last := ImageFields(image), [Field("allergens", JsonList(allergens))];
    LookupSkip(fields, files, "allergens");
    LookupSkip(fields + files, last, "allergens");
    LookupAt(last, 0, "allergens");
  }

  class AddMenuItemModal {
    const storeId: string
    var form: AddForm
    var imageFile: Option<FileRef>
    var imagePreview: Option<string>

    constructor (storeId: string)
      ensures this.storeId == storeId && form == InitialAddForm(storeId)
      ensures imageFile.None? && imagePreview.None?
    {
      this.storeId := storeId;
      form := InitialAddForm(storeId);
      imageFile := None;
      imagePreview := None;
    }

    /**
     * `handleSubmit`: builds the form data and hands it to `onCreate`
     * (`createOk` is whether it resolved). On success the dialog closes and
     * the form and image reset; on failure only a toast is shown.
     */
    method HandleSubmit(createOk: bool) returns (sent: FormData, closed: bool)
      modifies this
      ensures fresh(sent) && sent.fields == AddPayload(old(form), old(imageFile))
      ensures closed == createOk
      ensures createOk ==> form == InitialAddForm(storeId) && imageFile.None? && imagePreview.None?
      ensures !createOk ==> form == old(form) && imageFile == old(imageFile) && imagePreview == old(imagePreview)
    {
      var f, image := form, imageFile;
      sent := new FormData();
      sent.Append("name", Str(f.name));
      sent.Append("description", Str(f.description));
      sent.Append("price", Number(f.price));
      sent.Append("tax", Number(f.tax));
      sent.Append("categoryId", Str(f.categoryId));
      sent.Append("storeId", Str(f.storeId));
      sent.Append("isAvailable", Flag(f.isAvailable));
      assert sent.fields == AddFormFields(f);
      if image.Some? {
        sent.Append("image", Blob(image.value));
      }
      assert sent.fields == AddFormFields(f) + ImageFields(image);
      var allergens := Allergens.Normalise(f.allergensText);
      sent.Append("allergens", JsonList(allergens));
      assert sent.fields == AddPayload(f, image);
      closed := createOk;
      if createOk {
        Reset();
      }
    }

    /** The success path's reset: the initial form for this store, no image, no preview. */
    method Reset()
      modifies this
      ensures form == InitialAddForm(storeId) && imageFile.None? && imagePreview.None?
    {
      form := InitialAddForm(storeId);
      imageFile := None;
      imagePreview := None;
    }
  }

  // ---- Edit ----

  /** The edit dialog's form state. */
  datatype EditForm = EditForm(
    name: string,
    description: string,
    price: real,
    tax: real,
    categoryId: string,
    allergensText: string,
    isAvailable: bool)

  function InitialEditForm(): EditForm {
    EditForm("", "", 0.0, 0.0, "", "", true)
  }

  /**
   * The population effect: absent description and tax default to `''` and 0,
   * the category is referenced by id, the allergens are joined with `", "`, and
   * `isAvailable ?? true` keeps an explicit `false`.
   */
  function Populated(m: MenuItem): (f: EditForm)
    ensures f.name == m.name && f.price == m.price
    ensures f.description == m.description.GetOr("")
    ensures f.tax == m.tax.GetOr(0.0)
    ensures f.categoryId == m.category.id
    ensures f.allergensText == Text.Join(m.allergens.GetOr([]), ", ")
    ensures f.isAvailable <==> m.isAvailable != Some(false)
  {
    EditForm(
      m.name,
      if m.description.Some? && m.description.value != "" then m.description.value else "",
      m.price,
      if m.tax.Some? && m.tax.value != 0.0 then m.tax.value else 0.0,
      m.category.id,
      Text.Join(if m.allergens.Some? then m.allergens.value else [], ", "),
      if m.isAvailable.Some? then m.isAvailable.value else true)
  }

  /**
   * The fields the edit `handleSubmit` appends: no `storeId`. Its `tax || 0`
   * only changes `NaN`, which a `real` cannot be, so the tax is sent as is.
   */
  function EditFields(form: EditForm, image: Option<FileRef>, allergens: seq<string>): (fs: seq<Field>)
    ensures |fs| == if image.Some? then 8 else 7
  {
    EditFormFields(form) + ImageFields(image) + [Field("allergens", JsonList(allergens))]
  }

  function EditFormFields(form: EditForm): seq<Field> {
    [Field("name", Str(form.name)),
     Field("description", Str(form.description)),
     Field("price", Number(form.price)),
     Field("tax", Number(form.tax)),
     Field("categoryId", Str(form.categoryId)),
     Field("isAvailable", Flag(form.isAvailable))]
  }

  /** What the edit dialog sends. */
  function EditPayload(form: EditForm, image: Option<FileRef>): seq<Field> {
    EditFields(form, image, Allergens.Normalise(form.allergensText))
  }

  /**
   * The edit payload carries no store id (the item keeps its store), and the
   * server reads the category, tax, availability, image and allergens from it.
   */
  lemma EditPayloadFields(form: EditForm, image: Option<FileRef>)
    ensures Lookup(EditPayload(form, image), "storeId") == None
    ensures Lookup(EditPayload(form, image), "categoryId") == Some(Str(form.categoryId))
    ensures Lookup(EditPayload(form, image), "tax") == Some(Number(form.tax))
    ensures Lookup(EditPayload(form, image), "isAvailable") == Some(Flag(form.isAvailable))
    ensures Lookup(EditPayload(form, image), "image") == if image.Some? then Some(Blob(image.value)) else None
    ensures Lookup(EditPayload(form, image), "allergens") == Some(JsonList(Allergens.Normalise(form.allergensText)))
  {
    EditFieldsValues(form, image, Allergens.Normalise(form.allergensText));
    EditFieldsExtras(form, image, Allergens.Normalise(form.allergensText));
  }

  lemma EditFieldsValues(form: EditForm, image: Option<FileRef>, allergens: seq<string>)
    ensures Lookup(EditFields(form, image, allergens), "categoryId") == Some(Str(form.categoryId))
    ensures Lookup(EditFields(form, image, allergens), "tax") == Some(Number(form.tax))
    ensures Lookup(EditFields(form, image, allergens), "isAvailable") == Some(Flag(form.isAvailable))
  {
    EditFieldsNumbers(form, image, allergens);
    EditFieldsFlag(form, image, allergens);
  }

  lemma EditFieldsNumbers(form: EditForm, image: Option<FileRef>, allergens: seq<string>)
    ensures Lookup(EditFields(form, image, allergens), "categoryId") == Some(Str(form.categoryId))
    ensures Lookup(EditFields(form, image, allergens), "tax") == Some(Number(form.tax))
  {
    var fields := EditFormFields(form);
    FormFieldFound(fields, image, allergens, 3, "tax");
    FormFieldFound(fields, image, allergens, 4, "categoryId");
  }

  lemma EditFieldsFlag(form: EditForm, image: Option<FileRef>, allergens: seq<string>)
    ensures Lookup(EditFields(form, image, allergens), "isAvailable") == Some(Flag(form.isAvailable))
  {
    var fields := EditFormFields(form);
    assert "description"[0] != "isAvailable"[0];
    FormFieldFound(fields, image, allergens, 5, "isAvailable");
  }

  lemma EditFieldsExtras(form: EditForm, image: Option<FileRef>, allergens: seq<string>)
    ensures Lookup(EditFields(form, image, allergens), "storeId") == None
    ensures Lookup(EditFields(form, image, allergens), "image") == if image.Some? then Some(Blob(image.value)) else None
    ensures Lookup(EditFields(form, image, allergens), "allergens") == Some(JsonList(allergens))
  {
    var fields := EditFormFields(form);
    assert "price"[0] != "image"[0];
    ImageFieldFound(fields, image, allergens);
    AllergensFieldFound(fields, image, allergens);
    NoStoreField(fields, image, allergens);
  }

  /** Without a `storeId` among the form fields, the payload has none. */
  lemma NoStoreField(fields: seq<Field>, image: Option<FileRef>, allergens: seq<string>)
    requires forall i :: 0 <= i < |fields| ==> fields[i].name != "storeId"
    ensures Lookup(fields + ImageFields(image) + [Field("allergens", JsonList(allergens))], "storeId") == None
  {
    var all := fields + ImageFields(image) + [Field("allergens", JsonList(allergens))];
    forall i | 0 <= i < |all| ensures all[i].name != "storeId" {
      if i < |fields| {
        assert all[i] == fields[i];
      }
    }
  }

  /**
   * Opening an item and saving it unchanged resends its category, tax,
   * availability and (when already normalised) its allergen list.
   */
  lemma EditRoundTrip(m: MenuItem)
    requires forall i :: 0 <= i < |m.allergens.GetOr([])| ==> Allergens.IsNormalEntry(m.allergens.GetOr([])[i])
    ensures Lookup(EditPayload(Populated(m), None), "allergens") == Some(JsonList(m.allergens.GetOr([])))
    ensures Lookup(EditPayload(Populated(m), None), "categoryId") == Some(Str(m.category.id))
    ensures Lookup(EditPayload(Populated(m), None), "tax") == Some(Number(m.tax.GetOr(0.0)))
    ensures Lookup(EditPayload(Populated(m), None), "isAvailable") == Some(Flag(m.isAvailable.GetOr(true)))
  {
    EditPayloadFields(Populated(m), None);
    Allergens.JoinRoundTrip(m.allergens.GetOr([]));
  }

  class EditMenuItemModal {
    var menuItem: Option<MenuItem>
    var form: EditForm
    var imageFile: Option<FileRef>
    var imagePreview: Option<string>

    constructor ()
      ensures menuItem.None? && form == InitialEditForm()
      ensures imageFile.None? && imagePreview.None?
    {
      menuItem := None;
      form := InitialEditForm();
      imageFile := None;
      imagePreview := None;
    }

    /** The `[menuItem]` effect: a non-null item repopulates the form and, with an image URL, the preview. */
    method OnMenuItemChange(m: Option<MenuItem>, apiBase: string)
      modifies this
      ensures menuItem == m && imageFile == old(imageFile)
      ensures m.Some? ==> form == Populated(m.value)
      ensures m.None? ==> form == old(form)
      ensures imagePreview ==
        if m.Some? && m.value.imageUrl.Some? && m.value.imageUrl.value != "" then Some(apiBase + m.value.imageUrl.value)
        else old(imagePreview)
    {
      menuItem := m;
      if m.Some? {
        form := Populated(m.value);
        if m.value.imageUrl.Some? && m.value.imageUrl.value != "" {
          imagePreview := Some(apiBase + m.value.imageUrl.value);
        }
      }
    }

    /**
     * `handleSubmit`: nothing without an item; otherwise `onUpdate(menuItem._id, data)`
     * (`updateOk` is whether it resolved), closing the dialog on success.
     */
    method HandleSubmit(updateOk: bool) returns (call: Option<(string, FormData)>, closed: bool)
      ensures menuItem.None? ==> call.None? && !closed
      ensures menuItem.Some? ==>
        call.Some? && call.value.0 == menuItem.value.id && fresh(call.value.1)
        && call.value.1.fields == EditPayload(form, imageFile)
      ensures closed <==> menuItem.Some? && updateOk
    {
      if menuItem.None? {
        return None, false;
      }
      var f, image := form, imageFile;
      var sent := new FormData();
      sent.Append("name", Str(f.name));
      sent.Append("description", Str(f.description));
      sent.Append("price", Number(f.price));
      sent.Append("tax", Number(f.tax));
      sent.Append("categoryId", Str(f.categoryId));
      sent.Append("isAvailable", Flag(f.isAvailable));
      assert sent.fields == EditFormFields(f);
      if image.Some? {
        sent.Append("image", Blob(image.value));
      }
      assert sent.fields == EditFormFields(f) + ImageFields(image);
      var allergens := Allergens.Normalise(f.allergensText);
      sent.Append("allergens", JsonList(allergens));
      call := Some((menuItem.value.id, sent));
      closed := updateOk;
    }
  }
}
