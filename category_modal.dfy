/** The add/edit category modal: its schema, its wording and its name field. */
module CategoryModal {
  import opened Wrappers
  import Api

  const NameMinLength := 3
  const NameMessage := "Nama kategori minimal 3 karakter."

  /** The messages `categorySchema` reports for a name. */
  function CategoryIssues(name: string): (issues: seq<string>)
    ensures issues == [] <==> |name| >= NameMinLength
    ensures issues != [] ==> issues == [NameMessage]
  {
    if |name| < NameMinLength then [NameMessage] else []
  }

  const EditTitle := "Edit Category"
  const AddTitle := "Add Category"
  const EditDescription := "Ubah nama kategori yang sudah ada."
  const AddDescription := "Buat kategori baru untuk artikel Anda."

  /** The title says "Edit Category" exactly when a category is given. */
  function ModalTitle(category: Option<Api.Category>): (title: string)
    ensures title == EditTitle <==> category.Some?
    ensures title == AddTitle <==> category.None?
  {
    if category.Some? then EditTitle else AddTitle
  }

  /** The description follows the same choice as the title. */
  function ModalDescription(category: Option<Api.Category>): (description: string)
    ensures description == EditDescription <==> category.Some?
    ensures description == AddDescription <==> category.None?
  {
    if category.Some? then EditDescription else AddDescription
  }

  /** `disabled={isSaving}`: an absent prop leaves the button enabled. */
  function SaveDisabled(isSaving: Option<bool>): (disabled: bool)
    ensures disabled <==> isSaving == Some(true)
  {
    isSaving.Some? && isSaving.value
  }

  class CategoryModalState {
    var name: string

    constructor ()
      ensures name == ""
    {
      name := "";
    }

    /**
     * The effect on the `category` prop: edit mode loads the category's name,
     * add mode resets the field to "".
     */
    method SyncWithCategory(category: Option<Api.Category>)
      modifies this`name
      ensures category.Some? ==> name == category.value.name
      ensures category.None? ==> name == ""
    {
      if category.Some? {
        name := category.value.name;
      } else {
        name := "";
      }
    }

    /** `form.handleSubmit(onSave)`: `onSave` receives the name only when it is valid. */
    method Submit() returns (saved: Option<string>)
      ensures saved.Some? <==> CategoryIssues(name) == []
      ensures saved.Some? ==> saved.value == name
    {
      saved := if CategoryIssues(name) == [] then Some(name) else None;
    }
  }
}
