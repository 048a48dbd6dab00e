/**
 * The add-expense dialog: an `open` flag and a draft. Closing discards the draft; a successful
 * post notifies the parent, discards the draft and closes; a failed post changes nothing.
 */
module AddExpense {
  import opened Wrappers
  import opened ExpenseDraft

  /** The observable steps of a successful submit, in the order the handler takes them. */
  datatype Step = CallOnAdded | ResetDraft | SetOpen(value: bool)

  /** The steps a submit takes after `api.post` settled. */
  function SubmitSteps(posted: bool): (steps: seq<Step>)
    ensures posted ==> steps == [CallOnAdded, ResetDraft, SetOpen(false)]
    ensures !posted ==> steps == []
  {
    if posted then [CallOnAdded, ResetDraft, SetOpen(false)] else []
  }

  class Dialog {
    var open: bool
    var form: Draft

    /** Initially closed, with a fresh draft. */
    constructor (now: int)
      ensures !open && form == Defaults(now)
    {
      open := false;
      form := Defaults(now);
    }

    method HandleChange(f: Field, value: string)
      modifies this
      ensures form == WithField(old(form), f, value) && open == old(open)
    {
      form := WithField(form, f, value);
    }

    method HandleDateChange(picked: Option<Instant>, now: int)
      modifies this
      ensures form == WithDate(old(form), picked, now) && open == old(open)
    {
      form := WithDate(form, picked, now);
    }

    method ResetForm(now: int)
      modifies this
      ensures form == Defaults(now) && open == old(open)
    {
      form := Defaults(now);
    }

    /** `handleOpenChange(isOpen)`: closing resets the draft; opening keeps it. */
    method HandleOpenChange(isOpen: bool, now: int)
      modifies this
      ensures open == isOpen
      ensures !isOpen ==> form == Defaults(now)
      ensures isOpen ==> form == old(form)
    {
      if !isOpen {
        ResetForm(now);
      }
      open := isOpen;
    }

    /** The first half of `handleSubmit`: the payload posted to "/expenses"; nothing changes yet. */
    method BeginSubmit() returns (payload: Payload)
      ensures payload.category == form.category && payload.amount == form.amount
      ensures payload.kind == form.kind && payload.day == form.date
      ensures payload.householdId == HouseholdId
    {
      payload := PayloadOf(form);
    }

    /** The second half: on success notify, reset and close; on failure leave everything. */
    method FinishSubmit(posted: bool, now: int) returns (steps: seq<Step>)
      modifies this
      ensures steps == SubmitSteps(posted)
      ensures posted ==> form == Defaults(now) && !open
      ensures !posted ==> form == old(form) && open == old(open)
    {
      steps := [];
      if posted {
        steps := steps + [CallOnAdded];
        ResetForm(now);
        steps := steps + [ResetDraft];
        open := false;
        steps := steps + [SetOpen(false)];
      }
    }
  }

  /** Reopening after a successful add starts from a fresh draft, whatever was typed before. */
  method AddThenReopen(d: Dialog, typed: string, now: int, later: int) returns (steps: seq<Step>)
    modifies d
    ensures steps == SubmitSteps(true)
    ensures d.open && d.form == Defaults(now)
  {
    d.HandleOpenChange(true, now);
    d.HandleChange(Category, typed);
    var payload := d.BeginSubmit();
    steps := d.FinishSubmit(true, now);
    d.HandleOpenChange(true, later);
  }
}
