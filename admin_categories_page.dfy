/**
 * The admin category table: the paginated fetch, the add/edit modal with its
 * save, and the delete flow through the confirmation dialog.
 */
module AdminCategoriesPage {
  import opened Wrappers
  import Api
  import PageCount
  import AppPagination

  const ItemsPerPage := 10

  /** `Math.ceil(response.data.total / itemsPerPage)` with ten categories per page. */
  function TotalPages(total: nat): (pages: nat)
    ensures pages == 0 <==> total == 0
    ensures total <= pages * ItemsPerPage
    ensures total > 0 ==> (pages - 1) * ItemsPerPage < total
  {
    PageCount.CeilDiv(total, ItemsPerPage)
  }

  /** The pagination bar appears exactly when there are more than ten categories. */
  lemma PaginationShownIff(currentPage: int, total: nat)
    ensures AppPagination.Render(currentPage, TotalPages(total)).Some? <==> total > ItemsPerPage
  {
  }

  /** The form values the modal submits. */
  datatype CategoryFormData = CategoryFormData(name: string)

  /** The request a save issues. */
  datatype SaveRequest =
    | Update(id: string, data: CategoryFormData)  // PUT /categories/{id}
    | Create(data: CategoryFormData)              // POST /categories

  /** A save updates the category being edited and creates one otherwise. */
  function SaveTarget(editing: Option<Api.Category>, data: CategoryFormData): (req: SaveRequest)
    ensures req.data == data
    ensures req.Update? <==> editing.Some?
    ensures req.Update? ==> req.id == editing.value.id
  {
    if editing.Some? then Update(editing.value.id, data) else Create(data)
  }

  /** The query a fetch sends: the debounced search term, the page and the page size. */
  datatype Query = Query(search: string, page: int, limit: nat)

  class CategoriesPageState {
    var categories: seq<Api.Category>
    var totalCategories: nat
    var currentPage: int
    var totalPages: nat
    var isLoading: bool
    var isModalOpen: bool
    var isSaving: bool
    var editingCategory: Option<Api.Category>
    var isDeleteDialogOpen: bool
    var deletingCategory: Option<Api.Category>

    /**
     * A category is only ever edited in an open modal, and the delete dialog
     * is open exactly while a category is selected for deletion.
     */
    predicate Valid()
      reads this
    {
      (editingCategory.Some? ==> isModalOpen) &&
      (isDeleteDialogOpen <==> deletingCategory.Some?)
    }

    constructor ()
      ensures Valid()
      ensures categories == [] && totalCategories == 0 && currentPage == 1 && totalPages == 1
      ensures isLoading && !isModalOpen && !isSaving && editingCategory == None
      ensures !isDeleteDialogOpen && deletingCategory == None
    {
      categories, totalCategories, currentPage, totalPages := [], 0, 1, 1;
      isLoading, isModalOpen, isSaving, editingCategory := true, false, false, None;
      isDeleteDialogOpen, deletingCategory := false, None;
    }

    /** `fetchCategories` up to its `await`: loading starts and the query goes out. */
    method StartFetch(search: string) returns (query: Query)
      modifies this`isLoading
      requires Valid()
      ensures Valid()
      ensures isLoading
      ensures query == Query(search, currentPage, ItemsPerPage)
    {
      isLoading := true;
      query := Query(search, currentPage, ItemsPerPage);
    }

    /** The rest of `fetchCategories`: on success the page, total and page count are replaced. */
    method FinishFetch(response: Api.Response<Api.Page<Api.Category>>)
      modifies this`categories, this`totalCategories, this`totalPages, this`isLoading
      requires Valid()
      ensures Valid()
      ensures !isLoading
      ensures response.Ok? ==>
        categories == response.value.data && totalCategories == response.value.total &&
        totalPages == TotalPages(response.value.total)
      ensures response.Failed? ==>
        categories == old(categories) && totalCategories == old(totalCategories) &&
        totalPages == old(totalPages)
    {
      if response.Ok? {
        categories := response.value.data;
        totalCategories := response.value.total;
        totalPages := TotalPages(response.value.total);
      }
      isLoading := false;
    }

    /** `onPageChange={setCurrentPage}`. */
    method SetPage(page: int)
      modifies this`currentPage
      requires Valid()
      ensures Valid()
      ensures currentPage == page
    {
      currentPage := page;
    }

    /** `handleOpenModal(category = null)`: no argument opens the modal in add mode. */
    method OpenModal(category: Option<Api.Category>)
      modifies this`editingCategory, this`isModalOpen
      requires Valid()
      ensures Valid()
      ensures isModalOpen && editingCategory == category
    {
      editingCategory := category;
      isModalOpen := true;
    }

    method CloseModal()
      modifies this`editingCategory, this`isModalOpen
      requires Valid()
      ensures Valid()
      ensures !isModalOpen && editingCategory == None
    {
      isModalOpen := false;
      editingCategory := None;
    }

    /** `handleSaveCategory` up to its `await`: saving starts and the request goes out. */
    method StartSave(data: CategoryFormData) returns (request: SaveRequest)
      modifies this`isSaving
      requires Valid()
      ensures Valid()
      ensures isSaving
      ensures request == SaveTarget(editingCategory, data)
    {
      isSaving := true;
      request := SaveTarget(editingCategory, data);
    }

    /**
     * The rest of `handleSaveCategory`: on success the modal closes and a
     * fetch starts (`refetch`); on failure the modal stays as it is. Saving
     * ends in both cases.
     */
    method FinishSave(response: Api.Response<()>) returns (refetch: bool)
      requires Valid()
      modifies this`isSaving, this`isModalOpen, this`editingCategory, this`isLoading
      ensures Valid()
      ensures !isSaving
      ensures refetch <==> response.Ok?
      ensures response.Ok? ==> !isModalOpen && editingCategory == None && isLoading
      ensures response.Failed? ==>
        isModalOpen == old(isModalOpen) && editingCategory == old(editingCategory) &&
        isLoading == old(isLoading)
    {
      refetch := response.Ok?;
      if response.Ok? {
        CloseModal();
        isLoading := true;
      }
      isSaving := false;
    }

    method OpenDeleteDialog(category: Api.Category)
      modifies this`deletingCategory, this`isDeleteDialogOpen
      requires Valid()
      ensures Valid()
      ensures isDeleteDialogOpen && deletingCategory == Some(category)
    {
      deletingCategory := Some(category);
      isDeleteDialogOpen := true;
    }

    method CloseDeleteDialog()
      modifies this`deletingCategory, this`isDeleteDialogOpen
      requires Valid()
      ensures Valid()
      ensures !isDeleteDialogOpen && deletingCategory == None
    {
      isDeleteDialogOpen := false;
      deletingCategory := None;
    }

    /**
     * `handleDeleteCategory`: with nothing selected it does nothing;
     * otherwise it requests the deletion of the selected id, starts a fetch
     * when that succeeds, and closes the dialog in every outcome.
     */
    method DeleteCategory(response: Api.Response<()>) returns (requested: Option<string>, refetch: bool)
      requires Valid()
      modifies this`deletingCategory, this`isDeleteDialogOpen, this`isLoading
      ensures Valid()
      ensures old(deletingCategory).None? ==>
        requested == None && !refetch && isLoading == old(isLoading) &&
        !isDeleteDialogOpen && deletingCategory == None
      ensures old(deletingCategory).Some? ==>
        requested == Some(old(deletingCategory).value.id) &&
        (refetch <==> response.Ok?) &&
        (isLoading == if response.Ok? then true else old(isLoading)) &&
        !isDeleteDialogOpen && deletingCategory == None
    {
      if deletingCategory.None? {
        return None, false;
      }
      requested := Some(deletingCategory.value.id);
      refetch := response.Ok?;
      if response.Ok? {
        isLoading := true;
      }
      CloseDeleteDialog();
    }
  }
}
