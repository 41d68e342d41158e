# Expense tracker front end: coordinator and form, modelled in Dafny

The expense tracker's browser client is a single page with three parts. A
summary shows totals. A form creates or edits one expense record. A list
shows the records that match a category/year/month filter. The page-level
component (`App`) owns the shared state:

- a refresh counter, whose every increment makes the list and the summary
  fetch again;
- the record being edited, or none (create mode);
- the three filter selections.

This project models that coordinator and the form's decision logic, and
proves what they promise.

- `expenses.dfy`: `Wrappers.Option` (JavaScript's `null`, absent notes,
  `NaN`) and `Expenses`, which holds the record type and the category list.
  The first category, `Food`, is the form's default.
- `expense_form.dfy`, module `ExpenseFormLogic`:
  - the pure pre-flight check `Validate`, which also builds the request payload;
  - the class `ExpenseForm`, with the five text fields, the populate/reset
    effect (on mount, and again when the edit-target prop changes), the
    inputs and `Submit` (`handleSubmit`).
  `parseFloat` and the `String(...)` conversion of a record's amount are
  passed in as function-valued parameters (`parse`, `show`). `parse`
  returning `None` stands for `NaN`. The backend call is an `Outcome`
  parameter: `Success(returnedTitle)` or `Failure`.
- `app.dfy`, module `AppCoordinator`:
  - the specification: `AppState`, one `Event` per handler, `Step` for one
    handler call and `Run` for a sequence of them;
  - lemmas about traces of handler calls;
  - the class `App`, with the five state cells as fields and one method per
    handler, each proved to move its state exactly as `Step` does;
  - `App.SubmitForm`, which wires the form's `onSaveComplete` to
    `handleSaveComplete`, as `App` does when it renders the form.

The filter effect (`useEffect(..., [selectedCategory, selectedYear,
selectedMonth])`) runs on mount and after every render in which one of its
three dependencies differs from the previous render. The model states this
exactly. Each filter handler sets its selection. `FilterEffect` then runs
`triggerRefresh` if the selection triple changed. Setting a selection to its
current value changes nothing, since React does not re-run the effect when
its dependencies are unchanged. `clearFilters` makes its three state updates
in one batched render, so it is a single transition that refreshes at most
once. The first run of the
effect is `App.Mount`: the counter starts at 0 (`App.constructor`) and is 1
once the page is mounted.

Three behaviours of the code a reader might not expect:

- The code's validation checks only that the category is non-empty.
  Membership in the category set comes from the `<select>` markup alone.
- `triggerRefresh` always leaves edit mode. A filter change runs it, so a
  filter change also drops the edit target.
- A successful add does not clear the form. The form's key stays `'add'`
  (src/App.js:90) and the effect's dependencies stay null and false
  (src/components/ExpenseForm.js:38), so the typed values remain.
  `App.SubmitForm` states that the form's fields are unchanged, and
  `ExpenseForm.ReceiveTarget` keeps them when a null prop is passed again.

## Model

| member | source | states |
|---|---|---|
| `AppCoordinator.Step` | src/App.js:23-66 | every handler raises the counter by 0 or 1; a raise always leaves edit mode; the selections change only together with a raise, and only through the filter handlers; each filter setter sets its own selection, clearing gives three empty selections, and a filter call that leaves the selections as they were changes nothing; edit click sets the target and nothing else, cancel clears it and nothing else, refresh and save-complete are exactly triggerRefresh |
| `AppCoordinator.RunKeyBounds` | src/App.js:15-26 | over any sequence of handler calls the counter never decreases, and grows by at most one per call |
| `AppCoordinator.MountedKeyPositive` | src/App.js:64-66 | after the mount effect and any later handler calls the counter is at least 1 |
| `AppCoordinator.SelectionChangeForcesRefresh` | src/App.js:41-66 | over any sequence of handler calls, if the filter selections end up different, the counter has been raised, so the list was fetched again |
| `AppCoordinator.SelectionOnlyByFilterEvents` | src/App.js:23-55 | a sequence of calls without a filter handler leaves all three selections as they were |
| `AppCoordinator.EditTargetOrigin` | src/App.js:23-39 | a record is being edited after a sequence of calls only if it was already the target or an edit click in that sequence chose it |
| `AppCoordinator.App.constructor` | src/App.js:15-21 | the initial state: counter 0, no edit target, all selections empty |
| `AppCoordinator.App.Mount` | src/App.js:64-66 | the effect's run on mount is triggerRefresh: counter +1, no edit target, selections unchanged |
| `AppCoordinator.App.TriggerRefresh` | src/App.js:23-26 | counter goes up by exactly 1, the edit target becomes none whatever it was, selections unchanged; equals `Step(_, Refresh)` |
| `AppCoordinator.App.HandleEditClick` | src/App.js:28-31 | the edit target becomes the given record; counter and selections unchanged |
| `AppCoordinator.App.HandleCancelEdit` | src/App.js:33-35 | the edit target becomes none; counter and selections unchanged |
| `AppCoordinator.App.HandleSaveComplete` | src/App.js:37-39 | exactly the effect of triggerRefresh |
| `AppCoordinator.App.FilterEffect` | src/App.js:64-66 | runs triggerRefresh if and only if the selections differ from the previous render's; otherwise changes nothing |
| `AppCoordinator.App.HandleCategoryChange` | src/App.js:42-44 | sets the category selection only; a different value raises the counter by 1 and leaves edit mode, the same value changes nothing else |
| `AppCoordinator.App.HandleYearChange` | src/App.js:45-47 | sets the year selection only; a different value raises the counter by 1 and leaves edit mode, the same value changes nothing else |
| `AppCoordinator.App.HandleMonthChange` | src/App.js:48-50 | sets the month selection only; a different value raises the counter by 1 and leaves edit mode, the same value changes nothing else |
| `AppCoordinator.App.ClearFilters` | src/App.js:51-55 | all three selections become empty in one transition; the counter rises by one if any was non-empty, and nothing changes if all already were |
| `AppCoordinator.App.CurrentFilters` | src/App.js:58-61 | the filter map has a key for a dimension if and only if that selection is non-empty, its value is that selection, there are no other keys, and the map is empty when nothing is selected |
| `AppCoordinator.App.SubmitForm` | src/App.js:89-94 | with App's target and handleSaveComplete given to the form, a request is issued exactly when the form is accepted, carrying the validated payload, as an update of App's edit target's id in edit mode and an add otherwise; the notice names the failed check, the returned title or the failure; the submission refreshes and leaves edit mode exactly when the form is accepted and the request succeeds; otherwise App's state is unchanged; the form's fields are unchanged in every case |
| `ExpenseFormLogic.Validate` | src/components/ExpenseForm.js:45-55 | a missing required field rejects first; only then a NaN or non-positive amount rejects; otherwise the payload carries the form's text fields unchanged and the parsed amount, and satisfies the record's invariants (required text present, amount > 0) |
| `ExpenseFormLogic.EditRoundTrip` | src/components/ExpenseForm.js:24-55 | opening a valid record for editing and submitting it untouched yields the record's own values, provided the amount survives parsing its text form and the empty text parses to NaN (which rules out an empty amount text) |
| `ExpenseFormLogic.BlankFormRejected` | src/components/ExpenseForm.js:31-48 | a reset form is rejected for a missing field |
| `ExpenseFormLogic.ExpenseForm.constructor` | src/components/ExpenseForm.js:10-38 | after mounting, the fields are those the populate/reset effect gives for the edit target |
| `ExpenseFormLogic.ExpenseForm.Populate` | src/components/ExpenseForm.js:23-38 | in edit mode, title, date and category are the record's, amount is its text form, and notes are the record's notes or empty when absent; otherwise all fields are empty except category, which is `Food` |
| `ExpenseFormLogic.ExpenseForm.ReceiveTarget` | src/components/ExpenseForm.js:23-38 | a re-render that keeps the form's key (same mode, same record id) runs the populate/reset effect again only for a different prop object: the fields then become those given for the new target, whatever was typed; for the same object, and always in create mode, the typed fields are kept |
| `ExpenseFormLogic.ExpenseForm.IsEditMode` | src/components/ExpenseForm.js:20 | holds exactly when the edit-target prop is not null |
| `ExpenseFormLogic.NotesText` | src/components/ExpenseForm.js:29 | the record's notes when present, the empty text when absent |
| `ExpenseFormLogic.ExpenseForm.Input` | src/components/ExpenseForm.js:89-107 | an input changes its own field and no other |
| `ExpenseFormLogic.ExpenseForm.Submit` | src/components/ExpenseForm.js:41-77 | a rejected form issues no request, and its notice names the failed check; an accepted one issues exactly one request with the validated payload: an update of the edit target's id in edit mode, an add otherwise; onSaveComplete runs exactly when the request succeeded and a callback was given; the notice names the returned title or reports failure; no form field changes in any case |

## Left out

- HTTP client and backend calls (`src/services/api.js`): a request is a value of type `Request`, and its result is the `Outcome` parameter.
- The list and the summary views (`src/components/ExpenseList.js`, `src/components/SummaryDisplay.js`): fetching, loading/error/content rendering, the confirmation-gated delete. Their link to the coordinator is what is modelled: the list's `onDataChange` is the `Refresh` event, `onEditClick` is `EditClick`.
- `src/components/Spinner.js`, and all markup.
- The browser's own form validation, which can block the submit event before handleSubmit runs: `required` on title, amount, date and category, and `min="0.01" step="0.01"` on amount (src/components/ExpenseForm.js:89-101). `ExpenseForm.Submit` therefore accepts amounts such as "1.234" or "0.005" that the page never submits.
- Toast texts, `console.error`, the formatting of backend error details, and `window.scrollTo` in handleEditClick. The notice kind is modelled as `Notice`, but not its words.
- `parseFloat` and `String` are parameters, not IEEE-754 code. An amount of `Infinity` (which `parseFloat` accepts as positive) is not representable with `real`.
- The refresh counter is an unbounded `nat`. JavaScript numbers lose integer precision only past 2^53 increments.
- Asynchrony: `Submit` receives the backend's answer as a parameter. Overlapping submissions, overlapping list fetches and stale responses are not modelled.
- Remounting through `key` props as React machinery. App keys the form by the edit target's id, or by `'add'` in create mode (src/App.js:90), so the form is remounted only when the id or the mode changes; that is `ExpenseForm.constructor`, which runs the populate/reset effect once. A re-render that keeps the key is `ExpenseForm.ReceiveTarget`. An example is clicking Edit again on a record after the list refetched it (src/components/ExpenseList.js:32): the new object has the same id. The effect runs again only when the prop is a different object. Object identity is a parameter of the method, since a Dafny datatype value has none.
- The Cancel Edit button is rendered only in edit mode. The model allows `CancelEdit` in create mode too, where it changes nothing.
- The list effect's dependency on the identity of the `filters` object, which is new on every render.
- Category membership: the code checks only that the category is non-empty.
