/** The categories page: a server-paginated list of categories, ten to a
    page, with one form used both to add and to rename a category, and a
    delete button whose failures are explained by the server's message when
    the category still has products. */
module Categories {
  import opened Wrappers
  import opened Text
  import Pagination

  datatype Category = Category(id: int, name: string)

  const UpdatedMessage: string := "تم تحديث الفئة بنجاح"
  const CreatedMessage: string := "تمت إضافة الفئة بنجاح"
  const SaveFailedMessage: string := "تعذر إضافة الفئة، من فضلك حاول لاحقاً"
  const DeletedMessage: string := "تم حذف الفئة بنجاح"
  const DeleteFailedMessage: string := "تعذر حذف الفئة، من فضلك حاول لاحقاً"
  /** The phrase ("linked to products") that marks a delete refused because
      the category still has products. */
  const LinkedToProductsPhrase: string := "مرتبط بمنتجات"

  /** `categoriesData?.totalCount || 0`. */
  function TotalCount(count: Option<nat>): nat {
    count.GetOr(0)
  }

  /** `Math.ceil(totalCount / categoriesPerPage)`. */
  function TotalPagesOf(count: Option<nat>): int {
    Pagination.TotalPages(TotalCount(count), Pagination.CategoriesPerPage)
  }

  /** The page count is the fewest pages of ten that hold every category;
      with no data it is 0; the pager shows exactly when there are more than
      ten categories. */
  lemma {:induction false} CategoryPagesHoldEveryCategory(count: Option<nat>)
    ensures var n := TotalPagesOf(count);
            && n * Pagination.CategoriesPerPage >= TotalCount(count)
            && (n == 0 || (n - 1) * Pagination.CategoriesPerPage < TotalCount(count))
            && (count.None? ==> n == 0)
            && (Pagination.PagerShown(n) <==> TotalCount(count) > Pagination.CategoriesPerPage)
  {
    var n := TotalPagesOf(count);
    var c := TotalCount(count);
    if n > 1 {
      assert (n - 1) * Pagination.CategoriesPerPage >= Pagination.CategoriesPerPage;
    }
    if c > Pagination.CategoriesPerPage {
      Pagination.FactorsOfSmallerProduct(1, n, Pagination.CategoriesPerPage);
    }
  }

  /** The text of a successful delete: `response.message || default`. */
  function DeleteSuccessMessage(message: Option<string>): (r: string)
    ensures r != ""
    ensures message.Some? && message.value != "" ==> r == message.value
    ensures message.None? || message.value == "" ==> r == DeletedMessage
  {
    if message.Some? && message.value != "" then message.value else DeletedMessage
  }

  /** The text of a failed delete: the error's own message when it says the
      category is linked to products, else the generic failure text. */
  function DeleteErrorMessage(message: Option<string>): string {
    if message.Some? && message.value != "" && Contains(message.value, LinkedToProductsPhrase)
    then message.value
    else DeleteFailedMessage
  }

  /** The server's message is shown exactly when it carries the linked-to-
      products phrase; every other failure shows the generic text. */
  lemma DeleteErrorShowsServerMessageIffLinked(message: Option<string>)
    ensures message.Some? && message.value != DeleteFailedMessage ==>
              (DeleteErrorMessage(message) == message.value <==> Contains(message.value, LinkedToProductsPhrase))
    ensures DeleteErrorMessage(message) == DeleteFailedMessage
            || (message.Some? && DeleteErrorMessage(message) == message.value
                && Contains(message.value, LinkedToProductsPhrase))
  {
  }

  /** The mutation `handleSubmit` sends. */
  datatype Request = Update(id: int, name: string) | Create(name: string)

  /** Update the category being edited, keeping its id, or create one. */
  function SubmitRequest(editing: Option<Category>, name: string): (r: Request)
    ensures r.Update? <==> editing.Some?
    ensures r.Update? ==> r.id == editing.value.id
    ensures r.name == name
  {
    if editing.Some? then Update(editing.value.id, name) else Create(name)
  }

  /** The mutation `handleDelete` sends. */
  datatype DeleteOutcome = Deleted(responseMessage: Option<string>) | Failed(errorMessage: Option<string>)

  datatype NoticeKind = Success | Failure

  class CategoriesPage {
    var categories: seq<Category>
    var totalCount: nat
    var searchTerm: string
    var currentPage: int
    var showAddModal: bool
    var editingCategory: Option<Category>
    /** `formData.name`. */
    var name: string
    var showNotification: bool
    var notificationType: NoticeKind
    var notificationMessage: string

    /** A page number is at least 1, and a category is only edited in the
        open form. */
    ghost predicate Valid()
      reads this
    {
      currentPage >= 1 && (editingCategory.Some? ==> showAddModal)
    }

    constructor ()
      ensures Valid()
      ensures categories == [] && totalCount == 0 && searchTerm == "" && currentPage == 1
      ensures !showAddModal && editingCategory.None? && name == "" && !showNotification
    {
      categories, totalCount := [], 0;
      searchTerm := "";
      currentPage := 1;
      showAddModal := false;
      editingCategory := None;
      name := "";
      showNotification, notificationType, notificationMessage := false, Success, "";
    }

    /** The query answer for the current page and search term:
        `categoriesData?.data || []` and `categoriesData?.totalCount || 0`. */
    method Load(data: Option<seq<Category>>, count: Option<nat>)
      requires Valid()
      modifies this`categories, this`totalCount
      ensures Valid()
      ensures categories == (if data.Some? then data.value else []) && totalCount == TotalCount(count)
    {
      categories := if data.Some? then data.value else [];
      totalCount := TotalCount(count);
    }

    function TotalPages(): (n: int)
      reads this
      ensures n >= 0
    {
      Pagination.TotalPages(totalCount, Pagination.CategoriesPerPage)
    }

    /** `showNotificationModal(type, message)`. */
    method Notify(kind: NoticeKind, message: string)
      modifies this`showNotification, this`notificationType, this`notificationMessage
      ensures showNotification && notificationType == kind && notificationMessage == message
    {
      notificationType := kind;
      notificationMessage := message;
      showNotification := true;
    }

    /** Typing in the search box; the page number is kept. */
    method SetSearchTerm(term: string)
      requires Valid()
      modifies this`searchTerm
      ensures Valid() && searchTerm == term
    {
      searchTerm := term;
    }

    /** The "new category" button. */
    method OpenAddModal()
      requires Valid()
      modifies this`showAddModal
      ensures Valid() && showAddModal
    {
      showAddModal := true;
    }

    /** Typing in the form's name field. */
    method SetName(value: string)
      requires Valid() && showAddModal
      modifies this`name
      ensures Valid() && name == value
    {
      name := value;
    }

    /** resetForm. */
    method ResetForm()
      modifies this`name
      ensures name == ""
    {
      name := "";
    }

    /** handleEdit: remember the category, copy its name into the form and
        open the form. */
    method HandleEdit(category: Category)
      requires Valid()
      modifies this`editingCategory, this`name, this`showAddModal
      ensures Valid()
      ensures editingCategory == Some(category) && name == category.name && showAddModal
    {
      editingCategory := Some(category);
      name := category.name;
      showAddModal := true;
    }

    /** The form's close and cancel buttons. */
    method CloseModal()
      requires Valid()
      modifies this`showAddModal, this`editingCategory, this`name
      ensures Valid()
      ensures !showAddModal && editingCategory.None? && name == ""
    {
      showAddModal := false;
      editingCategory := None;
      ResetForm();
    }

    /** handleSubmit: send the update or the create; on success notify,
        close the form, forget the edited category and clear the name; on
        failure only notify. */
    method HandleSubmit(succeeded: bool) returns (request: Request)
      requires Valid()
      modifies this`showAddModal, this`editingCategory, this`name
      modifies this`showNotification, this`notificationType, this`notificationMessage
      ensures Valid()
      ensures request == SubmitRequest(old(editingCategory), old(name))
      ensures showNotification
      ensures succeeded ==>
                && !showAddModal && editingCategory.None? && name == ""
                && notificationType == Success
                && notificationMessage == (if request.Update? then UpdatedMessage else CreatedMessage)
      ensures !succeeded ==>
                && showAddModal == old(showAddModal) && editingCategory == old(editingCategory)
                && name == old(name)
                && notificationType == Failure && notificationMessage == SaveFailedMessage
    {
      if editingCategory.Some? {
        request := Update(editingCategory.value.id, name);
        if succeeded {
          Notify(Success, UpdatedMessage);
        }
      } else {
        request := Create(name);
        if succeeded {
          Notify(Success, CreatedMessage);
        }
      }
      if succeeded {
        showAddModal := false;
        editingCategory := None;
        ResetForm();
      } else {
        Notify(Failure, SaveFailedMessage);
      }
    }

    /** handleDelete: once confirmed, the delete's outcome decides the
        notification; the list and form are untouched. */
    method HandleDelete(id: int, confirmed: bool, outcome: DeleteOutcome)
      requires Valid()
      modifies this`showNotification, this`notificationType, this`notificationMessage
      ensures Valid()
      ensures !confirmed ==>
                && showNotification == old(showNotification) && notificationType == old(notificationType)
                && notificationMessage == old(notificationMessage)
      ensures confirmed && outcome.Deleted? ==>
                && showNotification && notificationType == Success
                && notificationMessage == DeleteSuccessMessage(outcome.responseMessage)
      ensures confirmed && outcome.Failed? ==>
                && showNotification && notificationType == Failure
                && notificationMessage == DeleteErrorMessage(outcome.errorMessage)
    {
      if confirmed {
        match outcome
        case Deleted(message) =>
          Notify(Success, DeleteSuccessMessage(message));
        case Failed(message) =>
          Notify(Failure, DeleteErrorMessage(message));
      }
    }

    /** The previous-page button: `max(1, page - 1)`. */
    method GoPrevious()
      requires Valid()
      modifies this`currentPage
      ensures Valid() && currentPage == Pagination.Prev(old(currentPage))
    {
      currentPage := Pagination.Prev(currentPage);
    }

    /** The next-page button, present only while the pager shows:
        `min(totalPages, page + 1)`. */
    method GoNext()
      requires Valid() && Pagination.PagerShown(TotalPages())
      modifies this`currentPage
      ensures Valid() && currentPage == Pagination.Next(old(currentPage), TotalPages())
    {
      currentPage := Pagination.Next(currentPage, TotalPages());
    }

    /** A numbered page button. */
    method GoTo(page: int)
      requires Valid() && page in Pagination.PageButtons(TotalPages())
      modifies this`currentPage
      ensures Valid() && currentPage == page
    {
      Pagination.PageButtonsAreTheValidPages(TotalPages(), page);
      currentPage := page;
    }
  }
}
