# Expense tracker client: token store and form/modal state machines

This project models the few self-contained rules of a browser client for a shared household
expense tracker, and proves properties of them:

- **Auth service** (`src/services/auth.tsx`): the bearer token lives under the key `"token"` in
  two storages, the durable one (`localStorage`) and the session one (`sessionStorage`).
  `saveAuth` writes one of them, chosen by the "remember me" flag; `getToken` reads the durable
  slot first and falls back to the session slot through JavaScript `||`, so an empty durable value
  falls through too; `logout` clears both. `login` fails with "Invalid credentials" on a non-ok
  response. The route guard admits a user exactly when `getToken` is truthy.
- **Expense modal** (`src/components/ui/ExpenseModal.tsx`): `isSaving` and `apiErrors` state,
  the close guard while a save is in flight, the save sequence split into begin / succeeded /
  failed steps, the cancel button, the effect that clears state when `open` turns false, and the
  classification of a rejected save into an error record.
- **Expense form** (`src/components/ui/ExpenseForm.tsx`): the draft (`handleChange`, `resetForm`,
  seeding from `initialData`), the submit that resets the draft only after a successful save, and
  how the error record is split between the banner (general messages, then `key: message` for
  every key other than general/category/amount/type/date) and the message under each input
  (the key's list joined with ", ").
- **Add-expense dialog** (`src/components/ui/addExpense.tsx`): the same draft plus an `open`
  flag; closing resets the draft; a successful post calls `onAdded`, resets and closes; a failed
  post changes nothing.
- **Sign-up page** (`src/components/Signup.tsx`): the register payload (four common properties
  and exactly one household property), the register error message rule, the `loading`/`error`
  sequence of a submit, and the page's own `saveAuth`, which writes the durable slot only.

Modules: `Wrappers` (Option, Result), `JsValues` (truthiness of strings, `||`), `Strings`
(`Array.prototype.join`), `FieldErrors` (a `Record<string, string[]>` as the list of its entries
in `Object.entries` order), `Auth`, `ExpenseDraft` (the draft shared by the form and the dialog,
which the two files define identically), `ExpenseForm`, `ExpenseModal`, `AddExpense`, `Signup`.

Each React component is a class whose fields are its state hooks and props; each handler is a
method. An async handler is split into a `Begin…` method (what runs before the `await`) and a
`Finish…` method (what runs after the promise settles), since the page runs on one thread. An
effect is a method that the caller invokes when React would run it (a dependency changed). The
HTTP calls, storage and callbacks to the parent are inputs and outputs of these methods: a
method returns the value it would pass to `onOpenChange` (`None` when not called), the call it
makes to `onSaved`, or the steps it takes; the outcome of a request is a parameter.

## Model

| member | source | states |
|---|---|---|
| Auth.Stored | src/services/auth.tsx:20-26 | with `remember` the durable slot becomes the token and the session slot is untouched; without it the reverse |
| Auth.TokenIn | src/services/auth.tsx:28-30 | the durable value when it is a non-empty string, otherwise whatever the session slot holds (possibly null) |
| Auth.Emptied | src/services/auth.tsx:32-35 | both slots are null afterwards and `getToken` yields null, whatever the prior state |
| Auth.LogoutIdempotent | src/services/auth.tsx:32-35 | logging out twice leaves the same storages as logging out once |
| Auth.LogoutForgetsSaves | src/services/auth.tsx:20-35 | after any save followed by a logout no token is read back |
| Auth.SessionSaveIsShadowed | src/services/auth.tsx:24-29 | a session-only save does not change `getToken` when a non-empty durable token exists |
| Auth.SessionSaveVisible | src/services/auth.tsx:24-29 | a session-only save is read back when the durable slot is null or empty |
| Auth.RememberedSaveVisible | src/services/auth.tsx:21-29 | a remembered non-empty token is read back whatever the session slot holds |
| Auth.EmptyDurableFallsThrough | src/services/auth.tsx:29 | an empty durable string falls through to the session slot |
| Auth.Admits | src/router/PrivateRouter.tsx:5-6 | the guard's test of `getToken()` holds exactly when one of the two slots holds a non-empty token |
| Auth.LogoutRevokesAccess | src/router/PrivateRouter.tsx:5-6 | after a logout the guard redirects, whatever the prior state |
| Auth.Login | src/services/auth.tsx:13-17 | for a response that arrived and parsed, fails exactly when it is not ok, with "Invalid credentials"; otherwise yields the parsed body |
| Auth.TokenStore.constructor | src/services/auth.tsx:28-30 | the storages start with the slots an earlier visit left, which `getToken` then reads |
| Auth.TokenStore.SaveAuth | src/services/auth.tsx:20-26 | the storages afterwards are `Stored` of the storages before |
| Auth.TokenStore.GetToken | src/services/auth.tsx:28-30 | returns `TokenIn` of the current storages and changes nothing |
| Auth.TokenStore.SetDurable | src/components/Signup.tsx:29-31 | `localStorage.setItem("token", token)`: the durable slot becomes the token, the session slot is untouched |
| Auth.TokenStore.Logout | src/services/auth.tsx:32-35 | the storages afterwards are `Emptied` of the storages before |
| FieldErrors.Lookup | src/components/ui/ExpenseForm.tsx:84 | a key's messages are found exactly when some entry has that key, and they are that entry's messages |
| FieldErrors.LookupEntry | src/components/ui/ExpenseForm.tsx:110 | in a record with distinct keys every entry is what looking up its key gives |
| Strings.Join | src/components/ui/ExpenseForm.tsx:111 | no messages give "", one message is shown alone, several start with the first message and the separator |
| Strings.JoinLength | src/components/ui/ExpenseForm.tsx:111 | joining n messages adds exactly n - 1 separators; joining none gives "" |
| Strings.JoinAppend | src/components/ui/ExpenseForm.tsx:111 | one more message appends the separator and that message |
| ExpenseDraft.Defaults | src/components/ui/ExpenseForm.tsx:44-52 | `resetForm` gives category "", amount "", type "cash", the current time, household 1 |
| ExpenseDraft.WithField | src/components/ui/ExpenseForm.tsx:54-58 | the named field takes the value; every other field, the date and household id are unchanged |
| ExpenseDraft.WithDate | src/components/ui/ExpenseForm.tsx:150-152 | the picked date, or the current time when none was picked; the text fields are unchanged |
| ExpenseDraft.SetSameValue | src/components/ui/addExpense.tsx:33-38 | setting a field to its current value changes nothing |
| ExpenseDraft.ChangesCommute | src/components/ui/addExpense.tsx:33-38 | changes to two different fields give the same draft in either order |
| ExpenseDraft.PayloadOf | src/components/ui/ExpenseForm.tsx:63-69 | the payload carries the draft's category, amount text, type and date, and household 1 |
| ExpenseDraft.DefaultPayload | src/components/ui/addExpense.tsx:62-68 | the payload of a fresh draft is the empty cash expense of household 1 dated now |
| ExpenseForm.Seeded | src/components/ui/ExpenseForm.tsx:30-42 | with `initialData` its category, amount text and type, its date at local noon, household 1; without it the defaults |
| ExpenseForm.UntouchedEditPayload | src/components/ui/ExpenseForm.tsx:30-69 | submitting an unedited seeded draft sends the record's own category, amount text and type, and the day of `LocalNoon` of its date |
| ExpenseForm.SubmitLabel | src/components/ui/ExpenseForm.tsx:164 | "Update Expense" exactly when `initialData` is present, "Add Expense" exactly when it is not |
| ExpenseForm.GeneralLines | src/components/ui/ExpenseForm.tsx:84-86 | one bare line per `general` message, in order; none when there is no `general` key |
| ExpenseForm.EntryLines | src/components/ui/ExpenseForm.tsx:92-96 | one `key: message` line per message of the entry, in message order, all with the entry's key |
| ExpenseForm.KeyedLines | src/components/ui/ExpenseForm.tsx:89-97 | every keyed line is prefixed with a key outside general/category/amount/type/date |
| ExpenseForm.Banner | src/components/ui/ExpenseForm.tsx:81-99 | the banner is rendered exactly when an error record is present |
| ExpenseForm.NoReservedKeyPrefix | src/components/ui/ExpenseForm.tsx:89-90 | general, category, amount, type and date never appear with a key prefix anywhere in the banner |
| ExpenseForm.BareLinesAreGeneral | src/components/ui/ExpenseForm.tsx:84-86 | every bare banner line is one of the `general` key's messages |
| ExpenseForm.FieldMessage | src/components/ui/ExpenseForm.tsx:110-112 | present exactly when the key is in the record, and then its messages joined with ", " |
| ExpenseForm.KeyedLineShown | src/components/ui/ExpenseForm.tsx:89-97 | `key: message` is in the banner if and only if the key is not reserved and the message is one of that key's |
| ExpenseForm.KeyedLinesCount | src/components/ui/ExpenseForm.tsx:89-97 | the banner has one keyed line per message of each non-reserved key |
| ExpenseForm.MessageDisplayed | src/components/ui/ExpenseForm.tsx:84-156 | every message is displayed: general ones bare in the banner, category/amount/type/date ones only under their input, others keyed in the banner |
| ExpenseForm.Form.constructor | src/components/ui/ExpenseForm.tsx:22-42 | the first render plus the mount effect leave the draft seeded from `initialData` |
| ExpenseForm.Form.InitialDataChanged | src/components/ui/ExpenseForm.tsx:30-42 | the effect re-seeds the draft from the new `initialData` |
| ExpenseForm.Form.ErrorsChanged | src/components/ui/ExpenseForm.tsx:21 | a new `errors` prop leaves the draft as it was |
| ExpenseForm.Form.ResetForm | src/components/ui/ExpenseForm.tsx:44-52 | the draft becomes the defaults; the props are unchanged |
| ExpenseForm.Form.HandleChange | src/components/ui/ExpenseForm.tsx:54-58 | the draft becomes `WithField` of the old draft |
| ExpenseForm.Form.HandleDateChange | src/components/ui/ExpenseForm.tsx:150-152 | the draft becomes `WithDate` of the old draft |
| ExpenseForm.Form.BeginSubmit | src/components/ui/ExpenseForm.tsx:60-69 | the payload handed to `onSaved` carries the draft's fields and household 1; nothing changes |
| ExpenseForm.Form.FinishSubmit | src/components/ui/ExpenseForm.tsx:71-76 | the draft is reset when `onSaved` resolved and left unchanged when it threw |
| ExpenseModal.Classify | src/components/ui/ExpenseModal.tsx:52-60 | the server's field errors verbatim; else `{general: [message]}` for a non-empty message; else `{general: ["Unknown error"]}` |
| ExpenseModal.ClassifyWellFormed | src/components/ui/ExpenseModal.tsx:52-60 | a classified failure has distinct keys whenever the server's record has |
| ExpenseModal.GeneralFailureDisplay | src/components/ui/ExpenseModal.tsx:56-60 | a failure without field errors shows one bare banner line (the message or "Unknown error") and nothing under any input |
| ExpenseModal.SavedId | src/components/ui/ExpenseModal.tsx:27-49 | the id passed to `onSaved` is present exactly when editing, and is then `initialData.id` |
| ExpenseModal.Title | src/components/ui/ExpenseModal.tsx:85 | "Edit Expense" exactly when editing, "Add Expense" exactly when adding |
| ExpenseModal.Modal.constructor | src/components/ui/ExpenseModal.tsx:28-29 | no save in flight and no errors |
| ExpenseModal.Modal.DialogOpenChange | src/components/ui/ExpenseModal.tsx:32-41 | a close during a save is dropped with errors unchanged; otherwise a close clears errors and forwards false, an open forwards true and keeps errors |
| ExpenseModal.Modal.BeginSave | src/components/ui/ExpenseModal.tsx:43-49 | errors cleared, save in flight, `onSaved` called with the payload and `SavedId` |
| ExpenseModal.Modal.FinishOk | src/components/ui/ExpenseModal.tsx:49-51 | asks the parent to close and ends with no save in flight |
| ExpenseModal.Modal.FinishErr | src/components/ui/ExpenseModal.tsx:52-63 | stores `Classify` of the failure, requests no close, ends with no save in flight |
| ExpenseModal.Modal.Cancel | src/components/ui/ExpenseModal.tsx:66-71 | does nothing during a save; otherwise clears errors and asks to close |
| ExpenseModal.Modal.OpenChanged | src/components/ui/ExpenseModal.tsx:73-79 | when `open` turns false, errors are cleared and the saving flag reset; otherwise nothing changes |
| ExpenseModal.Modal.InitialDataChanged | src/components/ui/ExpenseModal.tsx:26 | a new `initialData` prop leaves the save state as it was |
| ExpenseModal.CloseDuringSave | src/components/ui/ExpenseModal.tsx:32-51 | a close attempted during a save is ignored and the save's success then requests the close; `open` and `initialData` are unchanged |
| AddExpense.SubmitSteps | src/components/ui/addExpense.tsx:70-77 | on success `onAdded`, then reset, then close; on failure no step, so `onAdded` is not called |
| AddExpense.Dialog.constructor | src/components/ui/addExpense.tsx:23-31 | closed, with a fresh draft |
| AddExpense.Dialog.HandleChange | src/components/ui/addExpense.tsx:33-38 | the draft becomes `WithField` of the old draft; `open` unchanged |
| AddExpense.Dialog.HandleDateChange | src/components/ui/addExpense.tsx:40-42 | the draft becomes `WithDate` of the old draft; `open` unchanged |
| AddExpense.Dialog.ResetForm | src/components/ui/addExpense.tsx:44-52 | the draft becomes the defaults; `open` unchanged |
| AddExpense.Dialog.HandleOpenChange | src/components/ui/addExpense.tsx:54-57 | `open` takes the value; closing resets the draft, opening keeps it |
| AddExpense.Dialog.BeginSubmit | src/components/ui/addExpense.tsx:59-68 | the posted payload carries the draft's fields and household 1; nothing changes |
| AddExpense.Dialog.FinishSubmit | src/components/ui/addExpense.tsx:70-77 | success: the steps of `SubmitSteps`, fresh draft, closed; failure: draft and `open` unchanged |
| AddExpense.AddThenReopen | src/components/ui/addExpense.tsx:54-74 | reopening after a successful add shows a fresh draft, whatever was typed |
| Signup.BuildPayload | src/components/Signup.tsx:53-64 | name, email, password and `household_action` always; plus exactly `household_name` for create or `household_code` for join |
| Signup.OneHouseholdKey | src/components/Signup.tsx:60-64 | exactly one of the two household properties is present |
| Signup.RegisterErrorMessage | src/components/Signup.tsx:21-24 | the server's non-empty `message`, else "Registration failed"; never empty |
| Signup.RegisterRequest | src/components/Signup.tsx:11-27 | succeeds exactly on an ok response, with its token; otherwise fails with `RegisterErrorMessage` |
| Signup.SavedToken | src/components/Signup.tsx:29-31 | writes the durable slot and leaves the session slot |
| Signup.SavedTokenIsRemembered | src/components/Signup.tsx:29-31 | the page's `saveAuth` is the auth service's `saveAuth` with `remember` set |
| Signup.SignupGrantsAccess | src/components/Signup.tsx:66-68 | after signing up with a non-empty token the protected routes open |
| Signup.ButtonText | src/components/Signup.tsx:184 | "Signing up..." while loading, "Sign Up" otherwise |
| Signup.Page.constructor | src/components/Signup.tsx:34-43 | empty inputs, action create, no error, not loading |
| Signup.Page.BeginSubmit | src/components/Signup.tsx:49-64 | error cleared, loading set, the payload is `BuildPayload` of the inputs |
| Signup.Page.FinishSubmit | src/components/Signup.tsx:66-73 | success: token saved durably and navigation home; failure: the thrown message shown and no token saved; loading false in both |
| Signup.Submit | src/components/Signup.tsx:47-73 | a whole submit: the posted payload is `BuildPayload` of the inputs as typed, which stay unchanged; loading false at the end; a register success saves the token as a remembered `saveAuth`, a rejection shows `RegisterErrorMessage` and saves nothing |

## Left out

- HTTP: `fetch` in `login` and `registerRequest`, the axios client and the expense resource calls are not modelled; a response is an input (its `ok` flag and parsed body) and a rejected request is an input of its `Finish…` step.
- Browser storage is the two-slot `TokenStore`; eviction and other keys are not modelled.
- `parseFloat` of the amount, `Number.prototype.toString` of a stored amount, `toISOString().split("T")[0]` and `new Date(date + "T12:00:00")` are floating point and time-zone dependent: the amount is kept as text and dates are symbolic (`Clock(tick)` for `new Date()`, `LocalNoon(date)`).
- ExpenseForm.UntouchedEditPayload: the day sent is `toISOString()` of local noon of the record's date, a UTC day; it equals the record's own date only for UTC offsets from -11 to +12 hours, and the model keeps it as the symbolic day of `LocalNoon(date)`.
- ExpenseModal.Modal.FinishOk: `onOpenChange(false)` runs inside the `try`, so an exception it throws would be caught and classified into `apiErrors`; the model treats the parent's callback as returning normally and always requests the close with the errors unchanged.
- Signup.Page.FinishSubmit: `saveAuth` (`localStorage.setItem`, which can throw when storage is full or disabled) and `navigate("/")` run inside the `try`, so an exception from either would set `error` to its message and skip the navigation, possibly after the token was written; the model treats both as returning normally.
- The `console.error` logging in the `catch` blocks of the expense form and the add-expense dialog is I/O and is not modelled.
- `ExpenseDraft.WithField`: `handleChange` writes whatever `name` the input has; the model takes the three input names the forms render (category, amount, type).
- Effects run when React sees a dependency change by identity; the model's effect methods are invoked by the caller at those moments, so a parent that passes an equal but new `initialData` object is modelled by calling `InitialDataChanged`.
- Auth.Login: `login` also rejects when `fetch` fails (a network error) or when an ok response's body is not JSON (`res.json()` rejects); neither rejection carries "Invalid credentials". The model covers only the `ok` check and takes an ok response to yield its parsed body.
- `Signup.RegisterRequest`: an ok response whose body is not JSON rejects with the parser's own message; the model takes an ok response to carry its token.
- Navigation (`navigate("/")`, the route guard's redirect) is a returned flag or the predicate `Auth.Admits`; routing itself is not modelled.
- The `onChange` setters of the sign-up inputs are plain assignments to the page's fields and have no methods of their own.
- `AddExpense.Dialog.FinishSubmit`: an exception thrown by `onAdded` itself would be caught and skip the reset and close; the model treats `onAdded` as returning normally.
- Composition of the modal with the form is not modelled: the modal passes `onSubmit` and `loading`, but the form declares `onSaved` and ignores `loading`. `ExpenseModal.GeneralFailureDisplay` uses only the `errors` prop, which does match.
- The list page, the summary's currency formatting, the login page, the header and the other rendering components are not modelled; no file shown computes totals.
