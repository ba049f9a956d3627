/**
 * The delete confirmation dialog: it runs the parent's `onConfirm`, shows
 * a busy state while that runs and an error when it rejects, and refuses to
 * close while busy. Opening and closing it is the parent's business.
 */
module DeleteDialog {
  import opened Wrappers
  import Api

  const DefaultItemType := "category"

  /** `x || next` on an optional string: a missing or empty string falls through. */
  predicate Present(x: Option<string>)
  {
    x.Some? && x.value != ""
  }

  /**
   * The message shown when `onConfirm` rejects: the response's message if it
   * has one, else the error's own message, else a fixed text naming the item type.
   */
  function DeleteErrorMessage(error: Api.HttpError, itemType: string): (m: string)
    ensures m != ""
    ensures Present(error.responseMessage) ==> m == error.responseMessage.value
    ensures !Present(error.responseMessage) && Present(error.message) ==> m == error.message.value
    ensures !Present(error.responseMessage) && !Present(error.message) ==>
      m == "Failed to delete " + itemType + ". Please try again."
  {
    if Present(error.responseMessage) then error.responseMessage.value
    else if Present(error.message) then error.message.value
    else "Failed to delete " + itemType + ". Please try again."
  }

  /** The `itemType` prop after its default: only an absent prop becomes "category". */
  function ItemTypeOrDefault(itemType: Option<string>): (t: string)
    ensures itemType.None? ==> t == DefaultItemType
    ensures itemType.Some? ==> t == itemType.value
  {
    if itemType.Some? then itemType.value else DefaultItemType
  }

  class DeleteDialogState {
    const itemType: string
    var isDeleting: bool
    var errorMessage: Option<string>

    /** A shown error is never empty. */
    predicate Valid()
      reads this
    {
      errorMessage.Some? ==> errorMessage.value != ""
    }

    constructor (itemType: Option<string>)
      ensures Valid()
      ensures this.itemType == ItemTypeOrDefault(itemType)
      ensures !isDeleting && errorMessage == None
    {
      this.itemType := ItemTypeOrDefault(itemType);
      isDeleting, errorMessage := false, None;
    }

    /** Both buttons are disabled while deleting. */
    function ButtonsDisabled(): bool
      reads this
    {
      isDeleting
    }

    function ConfirmLabel(): (caption: string)
      reads this
      ensures isDeleting ==> caption == "Deleting..."
      ensures !isDeleting ==> caption == "Delete " + itemType
    {
      if isDeleting then "Deleting..." else "Delete " + itemType
    }

    /** `handleConfirm` up to its `await onConfirm()`: busy, with the error cleared. */
    method BeginConfirm()
      modifies this`isDeleting, this`errorMessage
      ensures Valid()
      ensures isDeleting && errorMessage == None
    {
      isDeleting := true;
      errorMessage := None;
    }

    /**
     * The rest of `handleConfirm`: a rejection records its message; busy ends
     * either way. A success leaves the dialog as it is: closing it is up to
     * the parent.
     */
    method FinishConfirm(outcome: Api.Response<()>)
      requires Valid()
      modifies this`isDeleting, this`errorMessage
      ensures Valid()
      ensures !isDeleting
      ensures outcome.Ok? ==> errorMessage == old(errorMessage)
      ensures outcome.Failed? ==> errorMessage == Some(DeleteErrorMessage(outcome.error, itemType))
    {
      if outcome.Failed? {
        errorMessage := Some(DeleteErrorMessage(outcome.error, itemType));
      }
      isDeleting := false;
    }

    /**
     * `handleClose`: ignored while deleting; otherwise the error is cleared
     * and the parent's `onClose` is called (`callsOnClose`).
     */
    method HandleClose() returns (callsOnClose: bool)
      requires Valid()
      modifies this`errorMessage
      ensures Valid()
      ensures callsOnClose <==> !isDeleting
      ensures callsOnClose ==> errorMessage == None
      ensures !callsOnClose ==> errorMessage == old(errorMessage)
    {
      callsOnClose := !isDeleting;
      if callsOnClose {
        errorMessage := None;
      }
    }
  }
}
