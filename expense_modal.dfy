/**
 * The expense modal: it guards closing while a save is in flight, runs the save through the
 * parent's `onSaved`, and turns a failed save into the error record that the form displays.
 */
module ExpenseModal {
  import opened Wrappers
  import opened JsValues
  import opened FieldErrors
  import opened ExpenseDraft
  import ExpenseForm

  /**
   * What a rejected `onSaved` throws, as far as the modal reads it:
   * `err?.response?.data?.errors` (an object, so truthy whenever present) and `err?.message`.
   */
  datatype Failure = Failure(errors: Option<ErrorRecord>, message: Option<string>)

  const UnknownError := "Unknown error"

  /** The `catch` block: field errors verbatim, else the message, else "Unknown error". */
  function Classify(f: Failure): (r: ErrorRecord)
    ensures f.errors.Some? ==> r == f.errors.value
    ensures f.errors.None? && Truthy(f.message) ==> r == [ErrorEntry("general", [f.message.value])]
    ensures f.errors.None? && !Truthy(f.message) ==> r == [ErrorEntry("general", [UnknownError])]
  {
    if f.errors.Some? then f.errors.value
    else if Truthy(f.message) then [ErrorEntry("general", [f.message.value])]
    else [ErrorEntry("general", [UnknownError])]
  }

  /** A classified failure is a well-formed record whenever the server's record is one. */
  lemma ClassifyWellFormed(f: Failure)
    requires f.errors.Some? ==> WellFormed(f.errors.value)
    ensures WellFormed(Classify(f))
  {
  }

  /**
   * A failure without field errors shows exactly one general line in the banner (the message,
   * or "Unknown error") and no message under any input.
   */
  lemma {:induction false} GeneralFailureDisplay(f: Failure, key: string)
    requires f.errors.None?
    ensures ExpenseForm.Banner(Some(Classify(f))) ==
            Some([ExpenseForm.GeneralLine(if Truthy(f.message) then f.message.value else UnknownError)])
    ensures key in ExpenseForm.FieldKeys ==> ExpenseForm.FieldMessage(Some(Classify(f)), key).None?
  {
    var msg := if Truthy(f.message) then f.message.value else UnknownError;
    var r := Classify(f);
    assert r == [ErrorEntry("general", [msg])];
    assert r[1..] == [];
    assert ExpenseForm.KeyedLines(r) == [] + ExpenseForm.KeyedLines(r[1..]);
    assert ExpenseForm.KeyedLines(r[1..]) == [];
    assert Lookup(r, "general") == Some([msg]);
    assert ExpenseForm.GeneralLines(r) == [ExpenseForm.GeneralLine(msg)];
    assert ExpenseForm.KeyedLines(r) == [];
    assert ExpenseForm.GeneralLines(r) + ExpenseForm.KeyedLines(r) == [ExpenseForm.GeneralLine(msg)];
    assert ExpenseForm.Banner(Some(r)) == Some([ExpenseForm.GeneralLine(msg)]);
  }

  /** `isEditing ? initialData.id : undefined`: the id handed to `onSaved`. */
  function SavedId(initialData: Option<Expense>): (id: Option<int>)
    ensures id.Some? <==> initialData.Some?
    ensures id.Some? ==> id.value == initialData.value.id
  {
    match initialData
    case Some(e) => Some(e.id)
    case None => None
  }

  /** The dialog title. */
  function Title(initialData: Option<Expense>): (text: string)
    ensures text == "Edit Expense" <==> initialData.Some?
    ensures text == "Add Expense" <==> initialData.None?
  {
    if initialData.Some? then "Edit Expense" else "Add Expense"
  }

  /** The call `onSaved(payload, id)` that a save issues. */
  datatype SaveCall<P> = SaveCall(payload: P, id: Option<int>)

  /** The modal component with its `open` and `initialData` props. */
  class Modal {
    var open: bool
    var initialData: Option<Expense>
    var isSaving: bool
    var apiErrors: Option<ErrorRecord>

    /**
     * The modal's invariant: an error record is never on display while a save is in flight.
     * Beginning a save clears the errors, and the errors are only set by the step that ends a save.
     */
    ghost predicate Valid()
      reads this
    {
      apiErrors.Some? ==> !isSaving
    }

    constructor (open: bool, initialData: Option<Expense>)
      ensures Valid()
      ensures this.open == open && this.initialData == initialData
      ensures !isSaving && apiErrors.None?
    {
      this.open := open;
      this.initialData := initialData;
      isSaving := false;
      apiErrors := None;
    }

    /**
     * `handleDialogOpenChange(nextOpen)`: a close request during a save is dropped; otherwise a
     * close clears the errors, and the request is forwarded to `onOpenChange`.
     */
    method DialogOpenChange(nextOpen: bool) returns (forwarded: Option<bool>)
      requires Valid()
      modifies this
      ensures Valid()
      ensures !nextOpen && old(isSaving) ==> forwarded.None? && apiErrors == old(apiErrors)
      ensures !nextOpen && !old(isSaving) ==> forwarded == Some(false) && apiErrors.None?
      ensures nextOpen ==> forwarded == Some(true) && apiErrors == old(apiErrors)
      ensures isSaving == old(isSaving) && open == old(open) && initialData == old(initialData)
    {
      if !nextOpen && isSaving {
        return None;
      }
      if !nextOpen {
        apiErrors := None;
      }
      forwarded := Some(nextOpen);
    }

    /** The start of `handleSave`: clear the errors, mark the save in flight, call `onSaved`. */
    method BeginSave<P>(payload: P) returns (call: SaveCall<P>)
      requires Valid()
      modifies this
      ensures Valid()
      ensures apiErrors.None? && isSaving
      ensures call == SaveCall(payload, SavedId(initialData))
      ensures open == old(open) && initialData == old(initialData)
    {
      apiErrors := None;
      isSaving := true;
      call := SaveCall(payload, SavedId(initialData));
    }

    /** `onSaved` resolved: ask the parent to close, then the `finally` clears the flag. */
    method FinishOk() returns (forwarded: Option<bool>)
      requires Valid()
      modifies this
      ensures Valid()
      ensures forwarded == Some(false) && !isSaving
      ensures apiErrors == old(apiErrors) && open == old(open) && initialData == old(initialData)
    {
      forwarded := Some(false);
      isSaving := false;
    }

    /** `onSaved` rejected: keep the modal open and show the classified errors. */
    method FinishErr(f: Failure) returns (forwarded: Option<bool>)
      requires Valid()
      modifies this
      ensures Valid()
      ensures forwarded.None? && !isSaving && apiErrors == Some(Classify(f))
      ensures open == old(open) && initialData == old(initialData)
    {
      apiErrors := Some(Classify(f));
      isSaving := false;
      forwarded := None;
    }

    /** `handleCancel`: ignored during a save, otherwise clear the errors and ask to close. */
    method Cancel() returns (forwarded: Option<bool>)
      requires Valid()
      modifies this
      ensures Valid()
      ensures old(isSaving) ==> forwarded.None? && apiErrors == old(apiErrors)
      ensures !old(isSaving) ==> forwarded == Some(false) && apiErrors.None?
      ensures isSaving == old(isSaving) && open == old(open) && initialData == old(initialData)
    {
      forwarded := None;
      if !isSaving {
        apiErrors := None;
        forwarded := Some(false);
      }
    }

    /** A new `open` prop; the `[open]` effect runs when it changes and clears state on close. */
    method OpenChanged(next: bool)
      requires Valid()
      modifies this
      ensures Valid()
      ensures open == next && initialData == old(initialData)
      ensures old(open) && !next ==> apiErrors.None? && !isSaving
      ensures !(old(open) && !next) ==> apiErrors == old(apiErrors) && isSaving == old(isSaving)
    {
      var changed := open != next;
      open := next;
      if changed && !next {
        apiErrors := None;
        isSaving := false;
      }
    }

    /** A new `initialData` prop. */
    method InitialDataChanged(next: Option<Expense>)
      requires Valid()
      modifies this
      ensures Valid()
      ensures initialData == next
      ensures open == old(open) && isSaving == old(isSaving) && apiErrors == old(apiErrors)
    {
      initialData := next;
    }
  }

  /**
   * A user who tries to close the dialog while a save is in flight is ignored; the save's success
   * then asks the parent to close, with no errors on display.
   */
  method CloseDuringSave<P>(m: Modal, payload: P) returns (attempt: Option<bool>, onSuccess: Option<bool>)
    requires m.Valid()
    modifies m
    ensures m.Valid()
    ensures attempt.None? && onSuccess == Some(false)
    ensures !m.isSaving && m.apiErrors.None?
    ensures m.open == old(m.open) && m.initialData == old(m.initialData)
  {
    var call := m.BeginSave(payload);
    attempt := m.DialogOpenChange(false);
    onSuccess := m.FinishOk();
  }
}
