/**
 * The expense record read from the server and the draft that the expense form and the
 * add-expense dialog keep while the user types. Both components hold the same draft shape
 * with the same defaults.
 */
module ExpenseDraft {
  import opened Wrappers

  /**
   * A JavaScript `Date`, kept symbolic: `new Date()` read at some clock tick, or
   * `new Date(isoDate + "T12:00:00")`, local noon of a calendar date.
   */
  datatype Instant = Clock(tick: int) | LocalNoon(isoDate: string)

  /**
   * An expense as the list page hands it to the form. `amount` is the text
   * `amount.toString()` gives; the timestamps and month/year are not used here.
   */
  datatype Expense = Expense(id: int, category: string, amount: string, kind: string, date: string, householdId: int)

  /** The `form` state: category, amount text, payment type, date and household id. */
  datatype Draft = Draft(category: string, amount: string, kind: string, date: Instant, householdId: int)

  /** The inputs wired to `handleChange`, by their `name` attribute. */
  datatype Field = Category | Amount | Type

  function Get(d: Draft, f: Field): string
  {
    match f
    case Category => d.category
    case Amount => d.amount
    case Type => d.kind
  }

  /** The payment type a fresh draft starts with. */
  const DefaultKind := "cash"

  /** The household every draft and payload carries. */
  const HouseholdId := 1

  /** `resetForm()` and the initial `useState`: empty texts, cash, the current time, household 1. */
  function Defaults(now: int): (d: Draft)
    ensures d.category == "" && d.amount == "" && d.kind == DefaultKind
    ensures d.date == Clock(now) && d.householdId == HouseholdId
  {
    Draft("", "", DefaultKind, Clock(now), HouseholdId)
  }

  /** `handleChange`: `{ ...form, [name]: value }`. */
  function WithField(d: Draft, f: Field, value: string): (r: Draft)
    ensures Get(r, f) == value
    ensures forall g :: g != f ==> Get(r, g) == Get(d, g)
    ensures r.date == d.date && r.householdId == d.householdId
  {
    match f
    case Category => d.(category := value)
    case Amount => d.(amount := value)
    case Type => d.(kind := value)
  }

  /** The date picker's `onChange`: `date ?? new Date()`. */
  function WithDate(d: Draft, picked: Option<Instant>, now: int): (r: Draft)
    ensures picked.Some? ==> r.date == picked.value
    ensures picked.None? ==> r.date == Clock(now)
    ensures forall g :: Get(r, g) == Get(d, g)
    ensures r.householdId == d.householdId
  {
    d.(date := if picked.Some? then picked.value else Clock(now))
  }

  /** Setting a field to the value it already has changes nothing. */
  lemma {:induction false} SetSameValue(d: Draft, f: Field)
    ensures WithField(d, f, Get(d, f)) == d
  {
    match f
    case Category =>
    case Amount =>
    case Type =>
  }

  /** Two changes of different fields commute. */
  lemma {:induction false} ChangesCommute(d: Draft, f: Field, x: string, g: Field, y: string)
    requires f != g
    ensures WithField(WithField(d, f, x), g, y) == WithField(WithField(d, g, y), f, x)
  {
    match f
    case Category =>
    case Amount =>
    case Type =>
  }

  /**
   * The object handed to the save call. `amount` stands for `parseFloat(amount)` and `day`
   * for `date.toISOString().split("T")[0]`; both conversions are kept symbolic.
   */
  datatype Payload = Payload(category: string, amount: string, kind: string, day: Instant, householdId: int)

  function PayloadOf(d: Draft): (p: Payload)
    ensures p.category == d.category && p.amount == d.amount && p.kind == d.kind
    ensures p.day == d.date
    ensures p.householdId == HouseholdId
  {
    Payload(d.category, d.amount, d.kind, d.date, HouseholdId)
  }

  /** A payload of a fresh draft is the empty cash expense of household 1 dated now. */
  lemma DefaultPayload(now: int)
    ensures PayloadOf(Defaults(now)) == Payload("", "", DefaultKind, Clock(now), HouseholdId)
  {
  }
}
