/** The delete-with-confirmation flow for a time entry. The two awaited calls
    of `handleDelete` (the delete request and the success callback) are split
    into the start of the deletion and one event per settlement. */
module UseDeleteTimeEntry {
  import opened Wrappers
  import opened Domain
  import opened Errors
  import opened ErrorMessages
  import Services

  /** Where a started `handleDelete` stands. */
  datatype Stage = Idle | Deleting(id: int) | NotifyingSuccess

  class DeleteTimeEntryFlow {
    var showModal: bool
    var entryToDelete: Option<TimeEntry>
    var idToDelete: Option<int>
    var isDeleting: bool
    var error: Option<string>
    ghost var stage: Stage

    /** A deletion is running exactly while a `handleDelete` has not
        finished, and an entry picked for deletion is the one whose id is kept. */
    ghost predicate Valid()
      reads this
    {
      (isDeleting <==> !stage.Idle?)
      && (entryToDelete.Some? ==> idToDelete == Some(entryToDelete.value.id))
    }

    constructor ()
      ensures Valid()
      ensures !showModal && entryToDelete.None? && idToDelete.None? && !isDeleting && error.None?
      ensures stage == Idle
    {
      showModal := false;
      entryToDelete := None;
      idToDelete := None;
      isDeleting := false;
      error := None;
      stage := Idle;
    }

    /** `confirmDelete`: opens the modal for an entry of a list. */
    method ConfirmDelete(entry: TimeEntry)
      requires Valid()
      modifies this
      ensures Valid()
      ensures entryToDelete == Some(entry) && idToDelete == Some(entry.id) && showModal && error.None?
      ensures isDeleting == old(isDeleting) && stage == old(stage)
    {
      entryToDelete := Some(entry);
      idToDelete := Some(entry.id);
      showModal := true;
      error := None;
    }

    /** `confirmDeleteById`: opens the modal for an id alone. */
    method ConfirmDeleteById(id: int)
      requires Valid()
      modifies this
      ensures Valid()
      ensures idToDelete == Some(id) && entryToDelete.None? && showModal && error.None?
      ensures isDeleting == old(isDeleting) && stage == old(stage)
    {
      idToDelete := Some(id);
      entryToDelete := None;
      showModal := true;
      error := None;
    }

    /** `cancelDelete`: closes the modal and forgets the entry. */
    method CancelDelete()
      requires Valid()
      modifies this
      ensures Valid()
      ensures !showModal && entryToDelete.None? && idToDelete.None?
      ensures isDeleting == old(isDeleting) && error == old(error) && stage == old(stage)
    {
      showModal := false;
      entryToDelete := None;
      idToDelete := None;
    }

    /** `handleDelete`, up to the delete request: nothing happens without an
        id or while a deletion runs; otherwise the request for the kept id
        goes out. */
    method HandleDelete() returns (request: Option<Services.ApiRequest>)
      requires Valid()
      modifies this
      ensures Valid()
      ensures request.Some? <==> old(idToDelete.Some? && !isDeleting)
      ensures request.Some? ==>
        request.value == Services.DeleteTimeEntry(old(idToDelete.value))
        && stage == Deleting(old(idToDelete.value)) && isDeleting && error.None?
      ensures request.None? ==> isDeleting == old(isDeleting) && error == old(error) && stage == old(stage)
      ensures showModal == old(showModal) && entryToDelete == old(entryToDelete) && idToDelete == old(idToDelete)
    {
      if idToDelete.None? || isDeleting {
        return None;
      }
      isDeleting := true;
      error := None;
      stage := Deleting(idToDelete.value);
      request := Some(Services.DeleteTimeEntry(idToDelete.value));
    }

    /** The delete request succeeded: the modal closes, the entry is
        forgotten and the success callback is called. */
    method DeleteResolved()
      requires Valid() && stage.Deleting?
      modifies this
      ensures Valid()
      ensures !showModal && entryToDelete.None? && idToDelete.None?
      ensures stage == NotifyingSuccess && isDeleting && error == old(error)
    {
      showModal := false;
      entryToDelete := None;
      idToDelete := None;
      stage := NotifyingSuccess;
    }

    /** The delete request failed with `e`: the modal stays open with the
        thrown message, or the delete fallback for a non-`Error`. */
    method DeleteRejected(e: Thrown)
      requires Valid() && stage.Deleting?
      modifies this
      ensures Valid()
      ensures error == Some(GetErrorMessage(e, DeleteTimeEntry)) && !isDeleting && stage == Idle
      ensures showModal == old(showModal) && entryToDelete == old(entryToDelete) && idToDelete == old(idToDelete)
    {
      error := Some(GetErrorMessage(e, DeleteTimeEntry));
      isDeleting := false;
      stage := Idle;
    }

    /** The success callback settled, with the thrown value if it failed:
        the deletion ends, and a failing callback is reported like a failing
        delete. */
    method SuccessCallbackSettled(failure: Option<Thrown>)
      requires Valid() && stage == NotifyingSuccess
      modifies this
      ensures Valid()
      ensures !isDeleting && stage == Idle
      ensures failure.None? ==> error == old(error)
      ensures failure.Some? ==> error == Some(GetErrorMessage(failure.value, DeleteTimeEntry))
      ensures showModal == old(showModal) && entryToDelete == old(entryToDelete) && idToDelete == old(idToDelete)
    {
      if failure.Some? {
        error := Some(GetErrorMessage(failure.value, DeleteTimeEntry));
      }
      isDeleting := false;
      stage := Idle;
    }

    /** `clearError`. */
    method ClearError()
      requires Valid()
      modifies this
      ensures Valid()
      ensures error.None?
      ensures showModal == old(showModal) && entryToDelete == old(entryToDelete) && idToDelete == old(idToDelete)
      ensures isDeleting == old(isDeleting) && stage == old(stage)
    {
      error := None;
    }
  }

  /** Confirming an entry and deleting it sends the delete request for that
      entry's id and ends with the modal closed, nothing selected and no error. */
  method DeleteConfirmedEntry(entry: TimeEntry) returns (request: Services.ApiRequest, open: bool, selected: Option<int>, error: Option<string>)
    ensures request == Services.DeleteTimeEntry(entry.id)
    ensures !open && selected.None? && error.None?
  {
    var flow := new DeleteTimeEntryFlow();
    flow.ConfirmDelete(entry);
    var sent := flow.HandleDelete();
    request := sent.value;
    flow.DeleteResolved();
    flow.SuccessCallbackSettled(None);
    open, selected, error := flow.showModal, flow.idToDelete, flow.error;
  }

  /** A second `handleDelete` while the first runs sends nothing; a failing
      delete keeps the modal open on the same id and shows the message. */
  method DoubleSubmitThenFailure(id: int, e: Thrown) returns (second: Option<Services.ApiRequest>, open: bool, selected: Option<int>, error: Option<string>)
    ensures second.None?
    ensures open && selected == Some(id) && error == Some(GetErrorMessage(e, DeleteTimeEntry))
  {
    var flow := new DeleteTimeEntryFlow();
    flow.ConfirmDeleteById(id);
    var first := flow.HandleDelete();
    second := flow.HandleDelete();
    flow.DeleteRejected(e);
    open, selected, error := flow.showModal, flow.idToDelete, flow.error;
  }
}
