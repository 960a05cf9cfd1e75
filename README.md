# Taxes table: a verified model of the `App` component

The application is a single page (src/App.jsx). It fetches tax records `{id, name, tax, country}` and
countries `{id, name}`, shows the records in a table, and lets the user edit a record's name and
country in a modal. The edit is saved with a PUT request. This project models the component's state
and its transitions in Dafny:

- `records.dfy`, module `TaxRecords`: the record, country and form values, and the two pure steps of
  the Save handler. `Payload` is the request body: the edited row with the form's name and country
  spread over it. `ReplaceById` is the `data.map` that swaps every row carrying the edited id for the
  server's record. The lemmas cover the no-match case, the single-match case, idempotence and the
  no-op edit.
- `table.dfy`, module `TaxTable`: the fixed column list and the text each cell shows. The tax cell is
  the number's text followed by `%`.
- `app.dfy`, module `TaxApp`: class `App`, whose fields are the eight state slots (`data`,
  `countries`, `loading`, `error`, `editingRow`, `modalOpen`, `form`, `saving`). Each handler is a
  method. The asynchronous handlers are split at their `await`. `LoadCompleted` takes the outcome of
  the joint fetch. `BeginSave` returns a `PendingSave`, which holds what the handler's closure keeps
  across the request: the edited row, the payload and the table. `CompleteSave` takes that value and
  the request's outcome. `Valid()` is the invariant every handler keeps: the modal is open exactly
  when a row is being edited, nothing is loaded before the load ends, and a failed load leaves the
  fixed message and empty lists. Four client methods replay whole edit sessions.

What the code does, and the model follows:
- Cancel is not disabled while saving, so `CloseModal` may run at any time. If Cancel is pressed and
  another row is opened, a late successful save still merges by the first row's id. It then closes
  the modal the second row opened (`CancelDuringSave`).
- Closing the modal does not reset the form.
- The merge replaces every row with the edited id. When no row has it, the table is unchanged.
- A failed save changes nothing but the saving flag. The user is only alerted.

The code and its design description differ on one point, and the model follows the code. The
description says the modal cannot be closed while a save is in flight. The code disables only the
Save button (src/App.jsx:192-200), not Cancel (src/App.jsx:185-190).

Preconditions record what the component's structure guarantees its callers. The edit button exists
only once the table is rendered: not loading and no error (src/App.jsx:122-123). The Save button
exists only while the modal is open (src/App.jsx:158) and is disabled while saving
(src/App.jsx:197). The load runs once, at mount (src/App.jsx:27-45).

## Model

| member | source | states |
|---|---|---|
| TaxRecords.Payload | src/App.jsx:102-106 | the payload keeps the row's id and tax; its name and country are the form's; it equals the row exactly when the form holds the row's own name and country |
| TaxRecords.ReplaceById | src/App.jsx:110-112 | the merged table has the same length and order; row i is the server's record when its id is the edited id and is unchanged otherwise |
| TaxRecords.ReplaceByIdNoMatch | src/App.jsx:110-113 | when no row has the edited id, a successful save leaves the table unchanged |
| TaxRecords.ReplaceByIdSingleHit | src/App.jsx:110-112 | with unique ids, the merge is the single update of the matching row |
| TaxRecords.ReplaceByIdKeepsIds | src/App.jsx:110-112 | a record returned under the edited id leaves every row's id in place |
| TaxRecords.ReplaceByIdIdempotent | src/App.jsx:110-112 | merging the same server record twice equals merging it once |
| TaxRecords.NoOpSaveKeepsTable | src/App.jsx:88-113 | opening a row, saving the unchanged form and getting the payload back leaves a table with unique ids unchanged |
| TaxTable.PercentText | src/App.jsx:60 | the tax cell text is the number's text followed by one '%' |
| TaxTable.CellOf | src/App.jsx:47-80 | id, name and country cells show the field verbatim; the tax cell ends in '%' after the number's text; only the actions column holds an edit button, bound to the whole row |
| TaxTable.TaxCellExample | src/App.jsx:58-61 | a tax that shows as "7.5" is rendered as "7.5%" |
| TaxApp.App.View | src/App.jsx:122-125 | the table is shown exactly when the load has ended without an error |
| TaxApp.App.constructor | src/App.jsx:17-25 | the initial state: empty lists, loading, no error, no edited row, modal closed, empty form, not saving |
| TaxApp.App.LoadCompleted | src/App.jsx:27-45 | loading ends; on success the view is the two responses and there is no error; on failure the error is "Failed to load data" and both lists stay empty; nothing else changes |
| TaxApp.App.OpenEditModal | src/App.jsx:88-92 | the edited row is the given row, the form holds its name and country, the modal is open; data, countries and the saving flag are untouched |
| TaxApp.App.CloseModal | src/App.jsx:94-97 | the modal is closed and no row is edited; the form, data and saving flag are untouched |
| TaxApp.App.EditName | src/App.jsx:164-168 | only the form's name changes |
| TaxApp.App.EditCountry | src/App.jsx:171-175 | only the form's country changes |
| TaxApp.App.BeginSave | src/App.jsx:99-106 | the saving flag is raised and nothing else changes; the payload is the edited row with the form's name and country |
| TaxApp.App.CompleteSave | src/App.jsx:107-119 | on success the table is the merge of the server's record by the edited id and the modal closes; on failure only the saving flag changes; the saving flag ends false either way |
| TaxApp.EditAndSave | src/App.jsx:88-119 | editing the first of two rows and saving replaces that row and leaves the other one as it was |
| TaxApp.EditAndFail | src/App.jsx:99-119 | a failed save keeps the table, the open modal and the user's form |
| TaxApp.CancelDuringSave | src/App.jsx:94-119 | after Cancel during a save and opening another row, the late success merges by the first row's id and closes the modal |
| TaxApp.LoadFailure | src/App.jsx:27-45 | a failed load shows "Failed to load data" with an empty table |

## Left out

- Rendering: the JSX markup, the CSS classes and the modal layout (src/App.jsx:122-206) are not modelled. Only which page is shown (`View`) and what each cell shows (`CellOf`) are.
- The table library (`useReactTable`, `getCoreRowModel`, `flexRender`, `createColumnHelper`) is third-party code. The columns are a constant list, and the row model is not modelled.
- The network: the two GET requests, `Promise.all` and the PUT request are not modelled. Their outcomes are the inputs of `LoadCompleted` and `CompleteSave`. Either GET failing is one `LoadFailed`. Any PUT failure is one `SaveFailed`. The endpoint URLs are not modelled.
- The `alert` on a failed save is a browser side effect. The model records only that the state does not change.
- Number formatting: the tax is a `real`, and JavaScript's number-to-text conversion is the parameter `showTax` of `CellOf`.
- React scheduling: re-render timing, state-update batching, `useMemo` and the effect lifecycle are not modelled. Each handler's assignments take effect in order. One stale closure is kept explicit: `PendingSave` holds the row and the table from the moment the save began. The form setters' closure over `form` is not modelled. Each edit applies to the current form.
