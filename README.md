# editopia-samples: the record store, the page state and the table/form rules in Dafny

This project models the logic of a browser CRUD screen over one "samples" collection.

- **Record store** (`database_service.dfy`, `DatabaseService`). `SampleStore` is a class. Its field `slot` stands for the `"samples"` storage key, which holds nothing (`Empty`), a blob that does not parse (`Corrupt`), or a collection (`Stored`).
  - `GetSamples` seeds records 1, 2, 3 into an empty slot.
  - `AddSample` appends its input under id `max(id || 0) + 1`, or 1 when the collection is empty.
  - `UpdateSample` replaces the first record with the id and forces the id. It rejects with `NotFound` when no record has the id.
  - `DeleteSample` filters the id out.
  - Whether storage accepts a `setItem` call is a parameter. A mutation has two: `seedOk` for the seed write its read may make, and `writeOk` for its own write. They succeed or fail independently.
  - A failed read or seed write makes the read return `[]`. A failed write in a mutation rejects with `WriteFailed` and leaves whatever the read wrote.
  - `WellFormed` is the invariant that every method preserves: every record has an id of at least 1, and ids strictly increase along the collection.
- **Page state** (`index_page.dfy`, `IndexPage.Index`). The class has the five state fields of the page, a reference to the store and a ghost log of events. The log records each change of the `loading` flag and each store call, in order. Each handler is one sequential step. After every successful refresh the page's list equals what the store holds (`InSync`).
- **Table** (`data_table.dfy`, `DataTable`). `Render` chooses between the empty state and the rows. Header labels, cells and the status badge colour are functions. `DataTableState` holds the pending delete (`deleteId`). Its handlers return the `onDelete` call they make, if any.
- **Form** (`sample_form.dfy`, `SampleForm`) covers:
  - the editable columns;
  - `isEditing` and the wording it selects;
  - each field's label, placeholder, widget and displayed value;
  - the values the form resets to.
- **Shared** (`records.dfy`, `column_labels.dfy`). These hold the record and value types, JavaScript truthiness, and the `_` to space label rule.

Behaviour of the code worth knowing:

- An update replaces the whole record with `{...data, id}`. It does not merge with the old fields: `SeededStoreExamples` shows that updating record 1 with only a name drops its description.
- A failed read does not raise. `getSamples` catches every error, including a blob that does not parse, and returns `[]`.
- `getColumns` cannot fail. Nothing inside its `try` throws.
- `updateSample` reads first. On an empty slot that read writes the seed, so a `NotFound` update can still leave the seed stored.
- An `addSample` or `deleteSample` over a corrupt blob reads `[]`. When the write succeeds it replaces the corrupt blob.
- The table shows every schema column, `id` included. No column is hidden, and no search or filter exists in the code.

## Model

| member | source | states |
|---|---|---|
| `Records.Get` | src/components/DataTable.tsx:85 | `row[column]` reads the id for "id" and a present field as its own value; a missing property is `undefined` |
| `Records.HasTruthyIdExactly` | src/components/SampleForm.tsx:26 | `isEditing = !!sample?.id`, the same test as `editingSample?.id` in the page's submit: it holds exactly for a present sample with a present, non-zero id; id 0 counts as no id |
| `DatabaseService.GetColumns` | src/services/databaseService.ts:12-21 | the schema is exactly `["id","name","description"]`, in that order, without status or created_at |
| `DatabaseService.ReadResult` | src/services/databaseService.ts:29-54 | what `getSamples` returns; a well-formed store reads as a well-formed collection (the seed included) |
| `DatabaseService.SlotAfterRead` | src/services/databaseService.ts:35-54 | a read writes only an empty slot, with the seed, and leaves any other slot (a stored collection or an unparseable blob) as it is; the stored collection afterwards is what the read returned; without writes nothing changes |
| `DatabaseService.GetSamplesSeedsOnlyEmpty` | src/services/databaseService.ts:35-54 | a stored collection, even an empty one, is returned unchanged and never reseeded; an unparseable blob reads as `[]` and stays, whether or not writes would be accepted; an empty slot is seeded with the three records of ids 1, 2, 3 |
| `DatabaseService.IdOrZero` | src/services/databaseService.ts:66 | `s.id` or 0: a truthy id reads as itself, a falsy or missing one as 0 |
| `DatabaseService.MaxIdOrZero` | src/services/databaseService.ts:66 | `Math.max` of `id` (or 0): no record exceeds it and some record attains it |
| `DatabaseService.NextId` | src/services/databaseService.ts:65-67 | the new id is 1 on an empty collection, otherwise one above the largest `id` (or 0); it is above every existing id and so equals none |
| `DatabaseService.NextIdAfterLast` | src/services/databaseService.ts:65-67 | on a well-formed collection the new id is the last record's id plus one |
| `DatabaseService.WithId` | src/services/databaseService.ts:69 | the created record has the input's fields and the assigned id |
| `DatabaseService.AddKeepsWellFormed` | src/services/databaseService.ts:65-70 | appending the created record keeps ids positive, unique and increasing |
| `DatabaseService.AddAll` | src/services/databaseService.ts:57-74 | a run of creates grows the collection by one record per create and leaves the existing prefix as it was |
| `DatabaseService.AddAllKeepsWellFormed` | src/services/databaseService.ts:65-72 | any run of creates assigns unique ids, strictly increasing in assignment order |
| `DatabaseService.AddAllKeepsFields` | src/services/databaseService.ts:69-70 | the i-th created record carries the i-th input's fields, in input order |
| `DatabaseService.FindIndex` | src/services/databaseService.ts:88-92 | `findIndex` gives -1 exactly when no record has the id, otherwise the first record that has it |
| `DatabaseService.UpdateKeepsWellFormed` | src/services/databaseService.ts:94-95 | replacing the found record by the data with the id forced keeps the collection well formed |
| `DatabaseService.Without` | src/services/databaseService.ts:113 | the filter keeps exactly the records whose id differs and never grows the collection |
| `DatabaseService.WithoutAbsent` | src/services/databaseService.ts:112-115 | deleting an id that no record has leaves the collection unchanged |
| `DatabaseService.WithoutIdempotent` | src/services/databaseService.ts:112-115 | deleting twice has the same effect as deleting once |
| `DatabaseService.WithoutConcat` | src/services/databaseService.ts:113 | the filter distributes over concatenation, so survivors keep their relative order |
| `DatabaseService.WithoutKeepsWellFormed` | src/services/databaseService.ts:112-115 | deleting keeps ids positive, unique and increasing |
| `DatabaseService.WithoutRemovesOne` | src/services/databaseService.ts:113 | in a well-formed collection, deleting a present id removes exactly one record |
| `DatabaseService.SeededStoreExamples` | src/services/databaseService.ts:42-115 | on the seed: a create gets id 4; deleting id 2 leaves records 1 and 3; updating id 1 with only a name gives a record with id 1, that name and no description |
| `DatabaseService.SampleStore.constructor` | src/services/databaseService.ts:35 | the store starts with the given storage contents |
| `DatabaseService.SampleStore.Write` | src/services/databaseService.ts:72 | `setItem` replaces the whole blob when storage accepts the write, and otherwise fails and leaves it |
| `DatabaseService.SampleStore.GetSamples` | src/services/databaseService.ts:29-55 | returns `ReadResult` and leaves `SlotAfterRead`; never fails; keeps the store well formed |
| `DatabaseService.SampleStore.AddSample` | src/services/databaseService.ts:57-80 | the read (whose seed write succeeds or fails on its own) gives the collection; when the append is written, returns the input with the next id and stores that collection with it appended; when it is refused, rejects and storage is only what the read left; keeps the store well formed |
| `DatabaseService.SampleStore.UpdateSample` | src/services/databaseService.ts:82-105 | an absent id rejects with NotFound; otherwise, when the write is accepted, replaces the first matching record with the data and the id forced, everything else unchanged; a refused write rejects; on either rejection storage is only what the read left (the seed, for an empty slot whose seed write succeeded) |
| `DatabaseService.SampleStore.DeleteSample` | src/services/databaseService.ts:107-122 | when the write is accepted, stores the read collection without the id (no error when absent); a refused write rejects and storage is only what the read left |
| `DatabaseService.SeedAndWriteAreIndependent` | src/services/databaseService.ts:48-97 | on an empty store, an update of record 1 whose own write is refused rejects but leaves the seed stored, and a create whose seed write is refused resolves with id 1 |
| `ColumnLabels.Label` | src/components/DataTable.tsx:61 | every `_` becomes a space, the length is kept, no other character changes, and no `_` remains |
| `ColumnLabels.LabelWithoutUnderscore` | src/components/SampleForm.tsx:55 | a column name without `_` is its own label |
| `DataTable.StatusColor` | src/components/DataTable.tsx:72-80 | "Active" gives green, "Inactive" gives red, anything else gives yellow |
| `DataTable.CellFor` | src/components/DataTable.tsx:70-87 | a cell shows `row[column]`; it is a badge exactly for the "status" column, coloured by `StatusColor` of its value |
| `DataTable.Render` | src/components/DataTable.tsx:42-88 | empty data gives the empty state; otherwise one header per column (its label) and one row per record in order, each with one cell per column in column order |
| `DataTable.SchemaTableHasNoBadges` | src/components/DataTable.tsx:56-88 | under the store's schema the headers read id, name, description and no cell is a badge |
| `DataTable.DataTableState.constructor` | src/components/DataTable.tsx:25 | no delete is pending at first |
| `DataTable.DataTableState.DialogOpen` | src/components/DataTable.tsx:112 | `open={deleteId !== null}`: the dialog is open exactly while a delete is pending |
| `DataTable.DataTableState.ConfirmDelete` | src/components/DataTable.tsx:27-29 | records the pending id, opens the dialog and calls nothing |
| `DataTable.DataTableState.HandleDelete` | src/components/DataTable.tsx:31-36 | with a pending id, calls `onDelete` once with it; with none, calls nothing; either way no delete is pending afterwards |
| `DataTable.DataTableState.CancelDelete` | src/components/DataTable.tsx:38-40 | clears the pending id and closes the dialog without calling `onDelete` |
| `DataTable.ConfirmThenDeleteOrCancel` | src/components/DataTable.tsx:27-40 | confirm then Delete asks to delete exactly that row's id; confirm then cancel then Delete asks for nothing |
| `SampleForm.EditableColumns` | src/components/SampleForm.tsx:48 | the fields are exactly the columns other than "id" |
| `SampleForm.EditableColumnsConcat` | src/components/SampleForm.tsx:48 | the filter keeps the columns in schema order |
| `SampleForm.EditableColumnsWithoutId` | src/components/SampleForm.tsx:48 | a schema without "id" passes through unchanged |
| `SampleForm.EditableColumnsOfSchema` | src/components/SampleForm.tsx:48 | the store's schema gives the fields name and description, in that order |
| `SampleForm.Title` | src/components/SampleForm.tsx:82 | "Edit Record" exactly in edit mode, "Add New Record" exactly otherwise |
| `SampleForm.SubmitCaption` | src/components/SampleForm.tsx:105 | "Update" exactly in edit mode, "Create" exactly otherwise |
| `SampleForm.StoredRecordsAreEdited` | src/components/SampleForm.tsx:26 | every record of a well-formed store opens the form in edit mode, titled "Edit Record" with an "Update" button |
| `SampleForm.WidgetFor` | src/components/SampleForm.tsx:57-68 | a textarea exactly for "description", a one-line input otherwise |
| `SampleForm.DisplayValue` | src/components/SampleForm.tsx:61 | a falsy value shows as `''`, and only a falsy value does; a truthy value shows as itself; the shown value is never undefined or null |
| `SampleForm.ResetValues` | src/components/SampleForm.tsx:32-39 | the form resets to the sample when one is given; otherwise to `{}`, where every property is `undefined` and so the form is not in edit mode |
| `SampleForm.FieldFor` | src/components/SampleForm.tsx:53-72 | a field's label is the column's label, its placeholder is "Enter " and that label, its widget is chosen by column and its value shown through the `''` default |
| `SampleForm.FormFields` | src/components/SampleForm.tsx:47-76 | one field per editable column, in schema order, over the reset values |
| `SampleForm.NewFormIsBlank` | src/components/SampleForm.tsx:38 | after a reset to `{}` no field is the id and every field shows `''` |
| `SampleForm.EditFormShowsSample` | src/components/SampleForm.tsx:35 | after a reset to a sample each field shows that sample's value for its column |
| `IndexPage.ShownAfterRead` | src/pages/Index.tsx:22-27 | after any read the stored collection and the list `fetchData` shows agree, whether or not the seed write was accepted |
| `IndexPage.SubmitCall` | src/pages/Index.tsx:66-72 | the submit updates the edited id exactly when `editingSample.id` is truthy, which is the form's edit mode, and creates otherwise; the form data is passed on unchanged |
| `IndexPage.Index.constructor` | src/pages/Index.tsx:10-14 | initially loading, form hidden, nothing being edited, no samples, no columns |
| `IndexPage.Index.FetchData` | src/pages/Index.tsx:17-34 | logs loading on, columns then samples, loading off; ends with the schema, the read collection in sync with the store, and loading false |
| `IndexPage.Index.HandleAddNew` | src/pages/Index.tsx:41-44 | clears the edited sample and shows the form; no store call |
| `IndexPage.Index.HandleEdit` | src/pages/Index.tsx:47-50 | sets the edited sample and shows the form; no store call |
| `IndexPage.Index.HandleFormCancel` | src/pages/Index.tsx:82-84 | only hides the form: no store call, and the other fields are unchanged |
| `IndexPage.Index.HandleDelete` | src/pages/Index.tsx:53-61 | deletes in the store and refreshes only on success, leaving the list in sync; when the delete's write is refused the page is unchanged and the store holds only what the delete's read left |
| `IndexPage.Index.HandleFormSubmit` | src/pages/Index.tsx:64-79 | makes the update-or-create call; on success stores the result, refreshes and hides the form; on failure leaves the form visible and the page unchanged, without a refresh, and the store holds only what the call's read left |
| `IndexPage.FirstVisitCreate` | src/pages/Index.tsx:71 | creating on the seeded store succeeds and appends record 4 |
| `IndexPage.FirstVisitEdit` | src/pages/Index.tsx:68 | editing record 1 succeeds and replaces it in place |
| `IndexPage.FirstVisitDelete` | src/pages/Index.tsx:55 | deleting record 2 keeps the other three in order |
| `IndexPage.FirstVisit` | src/pages/Index.tsx:17-84 | mount, create, edit and a confirmed table delete leave records 1 (renamed), 3 and 4 shown |

## Left out

- Storage I/O and JSON are not modelled. The `localStorage` API and `JSON.stringify`/`JSON.parse` become the `slot` field. Some blobs are not covered:
  - a blob that parses to something other than an array of records;
  - a stored empty string, which the code would treat as absent.
- Timing and side channels are not modelled: the `setTimeout` delays, the `toast` notifications and the `console.error` logging. They do not affect any state.
- Asynchrony is not modelled. Each handler runs to completion as one step, including the un-awaited `fetchData()` after a delete or a submit. Concurrent or repeated submissions and interleaved renders are outside the model, and the code does not define them either.
- `IndexPage.Index.FetchData`: `loading` being true while the reads run is recorded in the event log. It is not an intermediate state of the fields.
- The catch branches of `getColumns` and `fetchData` are left out. Nothing in their `try` blocks can throw.
- Presentation is left out: JSX layout, CSS classes, icons, the dialog widget and the `onOpenChange` wiring. After a Delete press that wiring only repeats `cancelDelete` on an already cleared state.
- react-hook-form is left out. `useForm`, `form.reset`, `form.control` and the user's typing between reset and submit are not modelled. The submitted data is a parameter of `HandleFormSubmit`.
- `src/components/TableHeader.tsx` is left out. It is markup with a single callback.
- Search and filtering are not modelled. No source file implements them.
- Values are limited to undefined, null, booleans, integers and strings. Floating-point numbers, NaN, nested objects and the argument-count limit of `Math.max(...)` are not modelled.
