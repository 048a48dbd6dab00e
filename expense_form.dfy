/**
 * The expense form: its draft, the seeding from `initialData`, the submit sequence, and how the
 * validation errors it is given are split between the banner above the form and the message
 * under each input.
 */
module ExpenseForm {
  import opened Wrappers
  import opened FieldErrors
  import opened ExpenseDraft
  import Strings

  /** The draft when the form is opened on `initialData` (null when adding). */
  function Seeded(initialData: Option<Expense>, now: int): (d: Draft)
    ensures initialData.Some? ==>
      var e := initialData.value;
      d.category == e.category && d.amount == e.amount && d.kind == e.kind &&
      d.date == LocalNoon(e.date) && d.householdId == HouseholdId
    ensures initialData.None? ==> d == Defaults(now)
  {
    match initialData
    case Some(e) => Draft(e.category, e.amount, e.kind, LocalNoon(e.date), HouseholdId)
    case None => Defaults(now)
  }

  /** Submitting an untouched edit sends the record's own category, amount text and type, and the day of `LocalNoon` of its date. */
  lemma UntouchedEditPayload(e: Expense, now: int)
    ensures PayloadOf(Seeded(Some(e), now)) == Payload(e.category, e.amount, e.kind, LocalNoon(e.date), HouseholdId)
  {
  }

  /** The submit button: "Update Expense" exactly when `initialData` is present. */
  function SubmitLabel(initialData: Option<Expense>): (text: string)
    ensures text == "Update Expense" <==> initialData.Some?
    ensures text == "Add Expense" <==> initialData.None?
  {
    if initialData.Some? then "Update Expense" else "Add Expense"
  }

  /** The keys the banner never lists with a key prefix. */
  const ReservedKeys: set<string> := {"general", "category", "amount", "type", "date"}

  /** The keys that have a message under their own input. */
  const FieldKeys: set<string> := {"category", "amount", "type", "date"}

  /** One line of the error banner: a bare general message, or `key: message`. */
  datatype BannerLine = GeneralLine(text: string) | KeyedLine(key: string, text: string)

  /** `errors.general?.map(msg => ...)`. */
  function GeneralLines(r: ErrorRecord): (lines: seq<BannerLine>)
    ensures Lookup(r, "general").None? ==> lines == []
    ensures Lookup(r, "general").Some? ==>
      var ms := Lookup(r, "general").value;
      |lines| == |ms| && forall j :: 0 <= j < |ms| ==> lines[j] == GeneralLine(ms[j])
  {
    match Lookup(r, "general")
    case None => []
    case Some(ms) => seq(|ms|, j requires 0 <= j < |ms| => GeneralLine(ms[j]))
  }

  /** The `key: message` lines of one entry, in message order. */
  function EntryLines(e: ErrorEntry): (lines: seq<BannerLine>)
    ensures |lines| == |e.messages|
    ensures forall j :: 0 <= j < |lines| ==> lines[j].KeyedLine? && lines[j].key == e.key && lines[j].text == e.messages[j]
  {
    seq(|e.messages|, j requires 0 <= j < |e.messages| => KeyedLine(e.key, e.messages[j]))
  }

  /** `Object.entries(errors).filter(not reserved).map(...)`: the keyed lines of the banner. */
  function KeyedLines(r: ErrorRecord): (lines: seq<BannerLine>)
    ensures forall l :: l in lines ==> l.KeyedLine? && l.key !in ReservedKeys
  {
    if r == [] then []
    else (if r[0].key in ReservedKeys then [] else EntryLines(r[0])) + KeyedLines(r[1..])
  }

  /** The banner: shown whenever `errors` is present, general messages first. */
  function Banner(errors: Option<ErrorRecord>): (b: Option<seq<BannerLine>>)
    ensures b.Some? <==> errors.Some?
  {
    match errors
    case None => None
    case Some(r) => Some(GeneralLines(r) + KeyedLines(r))
  }

  /** No reserved key (general, category, amount, type, date) is ever shown with a key prefix. */
  lemma NoReservedKeyPrefix(r: ErrorRecord, k: string, m: string)
    requires k in ReservedKeys
    ensures KeyedLine(k, m) !in Banner(Some(r)).value
  {
    assert forall l :: l in GeneralLines(r) ==> l.GeneralLine?;
  }

  /** Every bare banner line is a message of the `general` key. */
  lemma {:induction false} BareLinesAreGeneral(r: ErrorRecord, m: string)
    requires GeneralLine(m) in Banner(Some(r)).value
    ensures Lookup(r, "general").Some? && m in Lookup(r, "general").value
  {
    assert GeneralLine(m) !in KeyedLines(r);
    assert GeneralLine(m) in GeneralLines(r);
    var j :| 0 <= j < |GeneralLines(r)| && GeneralLines(r)[j] == GeneralLine(m);
  }

  /** `errors?.key && errors.key.join(", ")`: the message under one input. */
  function FieldMessage(errors: Option<ErrorRecord>, key: string): (m: Option<string>)
    ensures m.Some? <==> errors.Some? && Lookup(errors.value, key).Some?
    ensures m.Some? ==> m.value == Strings.Join(Lookup(errors.value, key).value, ", ")
  {
    match errors
    case None => None
    case Some(r) =>
      match Lookup(r, key)
      case None => None
      case Some(ms) => Some(Strings.Join(ms, ", "))
  }

  /** A keyed banner line appears exactly for a message of a key outside the reserved five. */
  lemma {:induction false} KeyedLineShown(r: ErrorRecord, k: string, m: string)
    ensures KeyedLine(k, m) in KeyedLines(r) <==>
            k !in ReservedKeys && exists i :: 0 <= i < |r| && r[i].key == k && m in r[i].messages
  {
    if r != [] {
      KeyedLineShown(r[1..], k, m);
      var head := if r[0].key in ReservedKeys then [] else EntryLines(r[0]);
      assert KeyedLines(r) == head + KeyedLines(r[1..]);
      assert KeyedLine(k, m) in head <==> r[0].key !in ReservedKeys && r[0].key == k && m in r[0].messages by {
        if KeyedLine(k, m) in head {
          var j :| 0 <= j < |head| && head[j] == KeyedLine(k, m);
        }
        if r[0].key !in ReservedKeys && r[0].key == k && m in r[0].messages {
          var j :| 0 <= j < |r[0].messages| && r[0].messages[j] == m;
          assert head[j] == KeyedLine(k, m);
        }
      }
      if exists i :: 0 <= i < |r| && r[i].key == k && m in r[i].messages {
        var i :| 0 <= i < |r| && r[i].key == k && m in r[i].messages;
        if i > 0 {
          assert r[1..][i - 1] == r[i];
        }
      }
      if exists i :: 0 <= i < |r| - 1 && r[1..][i].key == k && m in r[1..][i].messages {
        var i :| 0 <= i < |r| - 1 && r[1..][i].key == k && m in r[1..][i].messages;
        assert r[i + 1] == r[1..][i];
      }
    }
  }

  /** The number of keyed lines: every message of every non-reserved key, once. */
  function ShownCount(r: ErrorRecord): nat
  {
    if r == [] then 0
    else (if r[0].key in ReservedKeys then 0 else |r[0].messages|) + ShownCount(r[1..])
  }

  lemma {:induction false} KeyedLinesCount(r: ErrorRecord)
    ensures |KeyedLines(r)| == ShownCount(r)
  {
    if r != [] {
      KeyedLinesCount(r[1..]);
    }
  }

  /**
   * Every message of a well-formed record is displayed, and where: a `general` message as a bare
   * banner line, a message of category/amount/type/date only under its input (the whole list
   * joined with ", "), and a message of any other key as a `key: message` banner line.
   */
  lemma {:induction false} MessageDisplayed(r: ErrorRecord, i: int, m: string)
    requires WellFormed(r) && 0 <= i < |r| && m in r[i].messages
    ensures r[i].key == "general" ==> GeneralLine(m) in Banner(Some(r)).value
    ensures r[i].key in FieldKeys ==> FieldMessage(Some(r), r[i].key) == Some(Strings.Join(r[i].messages, ", "))
    ensures KeyedLine(r[i].key, m) in Banner(Some(r)).value <==> r[i].key !in ReservedKeys
  {
    LookupEntry(r, i);
    KeyedLineShown(r, r[i].key, m);
    var lines := Banner(Some(r)).value;
    assert lines == GeneralLines(r) + KeyedLines(r);
    assert forall l :: l in GeneralLines(r) ==> l.GeneralLine? by {
      forall l | l in GeneralLines(r) ensures l.GeneralLine? {
        var j :| 0 <= j < |GeneralLines(r)| && GeneralLines(r)[j] == l;
      }
    }
    if r[i].key == "general" {
      var j :| 0 <= j < |r[i].messages| && r[i].messages[j] == m;
      assert GeneralLines(r)[j] == GeneralLine(m);
    }
  }

  /** The expense form component, with its `initialData` and `errors` props. */
  class Form {
    var initialData: Option<Expense>
    var errors: Option<ErrorRecord>
    var form: Draft

    /** The first render and the effect that runs on mount. */
    constructor (initialData: Option<Expense>, errors: Option<ErrorRecord>, now: int)
      ensures this.initialData == initialData && this.errors == errors
      ensures form == Seeded(initialData, now)
    {
      this.initialData := initialData;
      this.errors := errors;
      form := Seeded(initialData, now);
    }

    /** The `[initialData]` effect, run when the parent passes a different `initialData` object. */
    method InitialDataChanged(next: Option<Expense>, now: int)
      modifies this
      ensures initialData == next && errors == old(errors)
      ensures form == Seeded(next, now)
    {
      initialData := next;
      form := Seeded(next, now);
    }

    /** A new `errors` prop from the parent; the draft is untouched. */
    method ErrorsChanged(next: Option<ErrorRecord>)
      modifies this
      ensures errors == next && initialData == old(initialData) && form == old(form)
    {
      errors := next;
    }

    method ResetForm(now: int)
      modifies this
      ensures form == Defaults(now)
      ensures initialData == old(initialData) && errors == old(errors)
    {
      form := Defaults(now);
    }

    method HandleChange(f: Field, value: string)
      modifies this
      ensures form == WithField(old(form), f, value)
      ensures initialData == old(initialData) && errors == old(errors)
    {
      form := WithField(form, f, value);
    }

    method HandleDateChange(picked: Option<Instant>, now: int)
      modifies this
      ensures form == WithDate(old(form), picked, now)
      ensures initialData == old(initialData) && errors == old(errors)
    {
      form := WithDate(form, picked, now);
    }

    /** The first half of `handleSubmit`: the payload handed to `onSaved`; nothing changes yet. */
    method BeginSubmit() returns (payload: Payload)
      ensures payload.category == form.category && payload.amount == form.amount
      ensures payload.kind == form.kind && payload.day == form.date
      ensures payload.householdId == HouseholdId
    {
      payload := PayloadOf(form);
    }

    /** The second half: the draft is reset only when `onSaved` resolved. */
    method FinishSubmit(saved: bool, now: int)
      modifies this
      ensures saved ==> form == Defaults(now)
      ensures !saved ==> form == old(form)
      ensures initialData == old(initialData) && errors == old(errors)
    {
      if saved {
        ResetForm(now);
      }
    }
  }
}
