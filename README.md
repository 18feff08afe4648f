# Shipping-contract records: a Dafny model

This project models the record-management core of a small React front end for
shipping contracts (约号). The main pieces are:

- **The contract table** (`AppointmentTable`):
  - It keeps the full collection `allAppointments` and the view `appointments` derived from it.
  - It filters the collection with a per-field criteria record (`handleFilter`), and also runs a quick search.
  - It tracks row selection and the bulk actions on the selection: activate, deactivate and delete, each behind a confirmation.
  - It saves added and edited records, paginates the view, and renders each cell as text.
- **The criteria panel** (`FilterPanel`): the criteria record and the handlers that edit, submit and reset it.
- **The column settings dialog** (`Columns`): a working copy of the column list that is sorted, toggled, moved and saved.
- **The inquiry editor** (`AppointmentEditor`, `ContainerInfo`):
  - the form's field rules and the client-name search;
  - the container groups and their `q*type+q*type` text, including parsing and serialising that text.
- **The contract edit dialog** (`EditModal`, with `TableCells` for the table's cell text):
  - the field rules and the clear buttons;
  - the multi-select shipping-line list, stored as comma-joined text;
  - the carrier lookup.

## Modelling approach

State the source keeps in React hooks becomes fields of a `class`:

- `AppointmentTable.Table`
- `FilterPanel.Panel`
- `Columns.ColumnSettings`
- `AppointmentEditor.Editor`
- `EditModal.Dialog`

Each handler is a `method` whose `ensures` states the whole new state. The
state is stated against pure functions on values, and the properties the
components promise are lemmas about those functions.

The two effects of the table are explicit methods that a caller runs after each change:

- `Rederive` re-applies the current filter when the full collection changes.
- `Paginate` recounts the pages and slices the current page.

`Table.Settled()` states what holds once both have run: the view is `Derive(all, currentFilters)` and the page is settled.

Records, criteria and texts are modelled as follows:

- **Records** are the datatype `Appointments.Appointment`. The JavaScript `null` of `isNAC`, `applicableProducts` and `cabinProtection` is `Option.None`.
- **Criteria** are two maps from a `Field` enumeration to text: values and operators.
  - A missing key reads as `""`, just as `undefined` is falsy in the source.
  - The filter reads keys that the `FilterCriteria` interface does not declare: `line`, `priceNature`, `isNAC`, `isActivated`, `validFrom`, `validTo` and `validDateOp`, with their operators. The model includes them as optional keys.
  - `FilterEngine.PanelCriteriaReadTwoFields` shows a consequence: criteria coming from the panel can constrain only the contract number and the shipping company.
- **Dates** are `YYYY-MM-DD` texts.
  - A non-empty text that is not a well-formed date becomes an Invalid Date, which compares false with everything, as in JavaScript.
  - A well-formed text is a `Dates.Day`, compared by year, month and day.
- **String operations**:
  - `toLowerCase` lower-cases ASCII letters.
  - `includes` is substring occurrence.
  - `split` and `join` take one-character separators.
  - `parseInt` reads base-10 text: it skips leading whitespace, reads an optional sign and then the leading digits. A text with no digits is NaN, modelled as `None`.
- **The editor's form** is a map from field names to text, because its handler writes arbitrary keys (`[name]: value`).
- **The dialog's form** is the `Appointment` record, and its handler writes named fields.

## Model

| member | source | states |
|---|---|---|
| `Appointments.Ids` | src/components/AppointmentTable.tsx:369 | the id set of a list holds exactly the ids of its records |
| `FilterPanel.InitialCriteria` | src/components/FilterPanel.tsx:60-93 | every value of the sixteen panel fields is empty, and every operator is `等于`; the criteria hold no other key |
| `FilterPanel.WithValue` | src/components/FilterPanel.tsx:97-103 | only the named value changes; all other values and all operators are kept |
| `FilterPanel.WithOp` | src/components/FilterPanel.tsx:105-111 | only the named operator changes; all other operators and all values are kept |
| `FilterPanel.Panel.constructor` | src/components/FilterPanel.tsx:60-93 | the panel starts with the initial criteria |
| `FilterPanel.Panel.Change` | src/components/FilterPanel.tsx:97-103 | the stored criteria become the old ones with one value replaced, and hold only panel keys |
| `FilterPanel.Panel.OperatorChange` | src/components/FilterPanel.tsx:105-111 | the stored criteria become the old ones with one operator replaced, and hold only panel keys |
| `FilterPanel.Panel.Submit` | src/components/FilterPanel.tsx:113-116 | the criteria sent to the table are the stored ones, unchanged |
| `FilterPanel.Panel.Reset` | src/components/FilterPanel.tsx:118-155 | the stored and the emitted criteria are both the initial criteria |
| `FilterEngine.ToBound` | src/components/AppointmentTable.tsx:296-299 | empty text is no bound; well-formed text is the day it names; any other text is an Invalid Date |
| `FilterEngine.FilterRecords` | src/components/AppointmentTable.tsx:176-323 | a record is in the result exactly when it is in the collection and passes every field the filter reads |
| `FilterEngine.Derive` | src/components/AppointmentTable.tsx:147-153 | with no applied filter the view is the whole collection; otherwise it holds exactly the records that pass the filter |
| `FilterEngine.Search` | src/components/AppointmentTable.tsx:155-174 | a blank term restores the derived view; any other term keeps exactly the records whose id, line or carrier contains it |
| `FilterEngine.MatchesIsEveryField` | src/components/AppointmentTable.tsx:179-320 | a record passes exactly when every field the filter reads lets it through (an AND over the fields) |
| `FilterEngine.FilterKeepsOrder` | src/components/AppointmentTable.tsx:179 | the filtered list is an order-preserving subsequence of the collection |
| `FilterEngine.EmptyCriteriaKeepAll` | src/components/AppointmentTable.tsx:182-294 | criteria whose values are all empty or absent keep the whole collection, in order |
| `FilterEngine.InitialCriteriaKeepAll` | src/components/FilterPanel.tsx:118-155 | the criteria the panel starts with and resets to keep the whole collection |
| `FilterEngine.PanelCriteriaReadTwoFields` | src/components/FilterPanel.tsx:15-48 | for criteria holding only the panel's keys, a record passes exactly when its id and its carrier pass |
| `FilterEngine.TextOperatorsNegate` | src/components/AppointmentTable.tsx:186-199 | for a non-empty filter value, `不等于` passes exactly what `等于` rejects, and `不包含` exactly what `包含` rejects |
| `FilterEngine.TextIgnoresCase` | src/components/AppointmentTable.tsx:183-184 | lower-casing the record text or the filter value does not change whether a text field passes |
| `FilterEngine.FieldCongruent` | src/components/AppointmentTable.tsx:179-320 | a field's verdict depends only on the criteria keys that field reads |
| `FilterEngine.ClearedField` | src/components/AppointmentTable.tsx:182 | an emptied field lets every record through and leaves every other field's verdict unchanged |
| `FilterEngine.MatchesSplit` | src/components/AppointmentTable.tsx:179-320 | passing the criteria is the same as passing them with one field emptied and also passing that field |
| `FilterEngine.ClearedOperatorIrrelevant` | src/components/AppointmentTable.tsx:182-186 | once a field's value is empty, its operator no longer matters |
| `FilterEngine.OperatorNegates` | src/components/AppointmentTable.tsx:186-291 | for a constrained field, the negated operator lets through exactly the records that the plain operator stops, for text, `isNAC` and `isActivated` |
| `FilterEngine.NegatedOperatorPartitions` | src/components/AppointmentTable.tsx:186-291 | the records kept under an operator plus those kept under its negation are, as a multiset, exactly those kept with that field emptied |
| `FilterEngine.UnknownOperatorIgnored` | src/components/AppointmentTable.tsx:186-199 | an operator the `switch` does not know excludes nothing on its field |
| `FilterEngine.FilterIdempotentOnRecords` | src/components/AppointmentTable.tsx:179 | filtering the filtered list again changes nothing |
| `FilterEngine.NacEqualsKeeps` | src/components/AppointmentTable.tsx:266-277 | under `等于`, `'true'` keeps `isNAC` true, `'false'` keeps false, and any other text keeps null |
| `FilterEngine.ActivatedEqualsKeeps` | src/components/AppointmentTable.tsx:280-291 | under `等于`, `'true'` keeps the activated records and any other text keeps the deactivated ones |
| `FilterEngine.RangeIsOverlap` | src/components/AppointmentTable.tsx:303-306 | with both filter bounds and a well-formed record period, `范围` keeps a record exactly when the two periods share a day |
| `FilterEngine.RangeFromOnly` | src/components/AppointmentTable.tsx:307-310 | with only a start bound, a record is kept exactly when it ends on or after that bound |
| `FilterEngine.RangeToOnly` | src/components/AppointmentTable.tsx:311-314 | with only an end bound, a record is kept exactly when it starts on or before that bound |
| `FilterEngine.RangeNeedsBothRecordBounds` | src/components/AppointmentTable.tsx:305 | with both filter bounds, a record missing either of its own bounds is dropped |
| `FilterEngine.OtherDateOperatorIgnored` | src/components/AppointmentTable.tsx:302 | any date operator other than `范围` constrains nothing |
| `FilterEngine.SearchIgnoresTermCase` | src/components/AppointmentTable.tsx:167-171 | a search gives the same result for the term and for its lower-case form |
| `FilterEngine.SearchKeepsOrder` | src/components/AppointmentTable.tsx:167-171 | a non-blank search keeps an order-preserving subsequence of the full collection |
| `FilterEngine.ExampleContainsIgnoresCase` | src/components/AppointmentTable.tsx:193-197 | `包含 'wt'` keeps the contract `WT2383333` and `不包含 'wt'` drops it |
| `AppointmentTable.Selected` | src/components/AppointmentTable.tsx:391 | a row is in the result exactly when it is a selected view row |
| `AppointmentTable.SelectionStatus` | src/components/AppointmentTable.tsx:390-409 | the count is the number of selected rows; an empty selection gives `{0, false, false}`; each flag holds exactly when something is selected and all selected rows are (de)activated |
| `AppointmentTable.MixedSelectionAllowsNeither` | src/components/AppointmentTable.tsx:398-402 | a selection holding an activated row and a deactivated row has both flags false |
| `AppointmentTable.ActivationGates` | src/components/AppointmentTable.tsx:412-465 | activation proceeds exactly when something is selected and all of it is deactivated; deactivation is the mirror; the two never both proceed |
| `AppointmentTable.ActivateView` | src/components/AppointmentTable.tsx:474-479 | the selected view rows get the new `isActivated` value; every other row is unchanged |
| `AppointmentTable.ActivateAll` | src/components/AppointmentTable.tsx:483-488 | the records whose id is selected get the new `isActivated` value; every other record is unchanged |
| `AppointmentTable.DeleteAll` | src/components/AppointmentTable.tsx:376 | exactly the records whose id is selected are removed: the survivors and the removed records together are the old collection, as a multiset |
| `AppointmentTable.SelectIds` | src/components/AppointmentTable.tsx:564-566 | the records with a given id get the new selection flag; all others are unchanged |
| `AppointmentTable.MatchesIgnoresSelection` | src/components/AppointmentTable.tsx:179-320 | the filter never reads the selection flag |
| `AppointmentTable.MatchesIgnoresActivation` | src/components/AppointmentTable.tsx:280-291 | without an `isActivated` criterion, the filter never reads the activation flag |
| `AppointmentTable.SelectedIdIsSelectedRow` | src/components/AppointmentTable.tsx:469-471 | when ids identify records, a view row whose id is among the selected ids is itself selected |
| `AppointmentTable.ActivatePatchAgreesWithRederive` | src/components/AppointmentTable.tsx:468-531 | when ids are unique and the filter does not constrain `isActivated`, the view patch equals the view that re-deriving the patched collection gives |
| `AppointmentTable.ActivatedOnlyKeepsActivated` | src/components/AppointmentTable.tsx:280-291 | the criteria `isActivated 等于 'true'` keep exactly the activated records |
| `AppointmentTable.ActivatedOnlyOnSingleton` | src/components/AppointmentTable.tsx:147-153 | re-deriving a one-record collection under `isActivated 等于 'true'` keeps the record exactly when it is activated |
| `AppointmentTable.ActivatePatchDiffersUnderActivationFilter` | src/components/AppointmentTable.tsx:501-522 | under an `isActivated` filter, the deactivate patch shows the deactivated row while re-derivation drops it, so the side condition above is needed |
| `AppointmentTable.DeletePatchAgreesWithRederive` | src/components/AppointmentTable.tsx:366-387 | when ids are unique, dropping the selected view rows gives the view that re-deriving the pruned collection gives |
| `AppointmentTable.SelectionPatchCommutesWithFilter` | src/components/AppointmentTable.tsx:540-570 | changing selection flags in the collection and then re-deriving gives the same view as changing them in the derived view |
| `AppointmentTable.AddThenRederive` | src/components/AppointmentTable.tsx:572-584 | after an add, the re-derived view is the old view with the new record appended exactly when the filter keeps it |
| `AppointmentTable.EditAll` | src/components/AppointmentTable.tsx:601-603 | only the records with the edited record's id are replaced |
| `AppointmentTable.EditView` | src/components/AppointmentTable.tsx:595-597 | every selected view row is replaced by the edited record |
| `AppointmentTable.EditOfUnknownIdChangesNothing` | src/components/AppointmentTable.tsx:601-603 | an edit whose id matches no record leaves the collection unchanged |
| `AppointmentTable.EditPatchOverwritesEverySelectedRow` | src/components/AppointmentTable.tsx:590-604 | with two rows selected, the view shows the edited record twice, while the collection replaces only the same-id record |
| `AppointmentTable.Table.constructor` | src/components/AppointmentTable.tsx:52-118 | the table starts on page 1 with 10 rows a page and the eleven default columns; the view is the whole collection, and the state is settled |
| `AppointmentTable.Table.Rederive` | src/components/AppointmentTable.tsx:147-153 | the view becomes the collection filtered by the current criteria, or the whole collection; nothing else changes, and validity is kept |
| `AppointmentTable.Table.Paginate` | src/components/AppointmentTable.tsx:646-658 | afterwards the page count, the settled page and the page slice all match the view; a page past the last page of a non-empty view goes back to 1; the collection, the criteria, the page size and the editor are kept |
| `AppointmentTable.Table.Refresh` | src/components/AppointmentTable.tsx:147-153 | after any change to the collection, running both effects leaves the state settled and valid; a page past the end of a non-empty view goes back to 1; the collection, the criteria, the page size, the go-to text, the columns and the editor are kept |
| `AppointmentTable.Table.ApplyFilter` | src/components/AppointmentTable.tsx:176-178 | the criteria are remembered and the view is the collection filtered by them; every other field keeps its value |
| `AppointmentTable.Table.Search` | src/components/AppointmentTable.tsx:155-174 | the view becomes the quick-search result; every other field keeps its value |
| `AppointmentTable.Table.ToggleSelection` | src/components/AppointmentTable.tsx:540-570 | the view row at `(page-1)*size+index` flips its flag, and so do the same-id records of the collection; an index off the view changes nothing; every other field keeps its value |
| `AppointmentTable.Table.ToggleSelectAll` | src/components/AppointmentTable.tsx:613-638 | the rows of the current page get the checkbox's flag, in the view and in the collection; every other field keeps its value |
| `AppointmentTable.Table.Add` | src/components/AppointmentTable.tsx:325-329 | the editor opens in add mode with no record; every other field keeps its value, and a settled state stays settled |
| `AppointmentTable.Table.Edit` | src/components/AppointmentTable.tsx:331-346 | the editor opens on the single selected row; two or more selected rows, or none, are refused without a change; every other field keeps its value |
| `AppointmentTable.Table.SaveAppointment` | src/components/AppointmentTable.tsx:572-611 | an add appends the record unselected, and re-filters the old collection when a filter is in force; an edit applies the two edit patches; every other field keeps its value |
| `AppointmentTable.Table.DeleteClick` | src/components/AppointmentTable.tsx:348-364 | a confirmation is asked for exactly when something is selected; every other field keeps its value |
| `AppointmentTable.Table.ActivateClick` | src/components/AppointmentTable.tsx:412-437 | a confirmation is asked for exactly when the activation gate passes; otherwise nothing changes; every other field keeps its value |
| `AppointmentTable.Table.DeactivateClick` | src/components/AppointmentTable.tsx:440-465 | a confirmation is asked for exactly when the deactivation gate passes; otherwise nothing changes; every other field keeps its value |
| `AppointmentTable.Table.Cancel` | src/components/AppointmentTable.tsx:893-898 | cancelling drops the pending action; every other field keeps its value |
| `AppointmentTable.Table.Delete` | src/components/AppointmentTable.tsx:366-387 | it reports how many rows are selected and removes them from the view, and their ids from the collection, closing the confirmation; with none selected nothing changes; every other field, paging included, keeps its value |
| `AppointmentTable.Table.SetActivation` | src/components/AppointmentTable.tsx:468-531 | the two activation patches are applied and the confirmation closes; every other field keeps its value |
| `AppointmentTable.Table.RemoveSelected` | src/components/AppointmentTable.tsx:366-387 | the selected rows leave the view, their ids leave the collection and the confirmation closes; every other field keeps its value |
| `AppointmentTable.Table.ConfirmAndSettle` | src/components/AppointmentTable.tsx:352-358 | confirming and then running both effects leaves the state settled: a delete removes the selected ids from the collection, an activation or deactivation patches them; the criteria, page size, go-to text, columns and editor are kept |
| `AppointmentTable.Table.Confirm` | src/components/AppointmentTable.tsx:352-358 | confirming runs the handler that the click stored: delete (the confirmation stays open when nothing was selected), activate or deactivate; paging and validity are kept, so the effects can follow |
| `AppointmentTable.Table.PageChange` | src/components/AppointmentTable.tsx:661-666 | a page outside `1 .. totalPages` is ignored; every other field keeps its value |
| `AppointmentTable.Table.PageSizeChange` | src/components/AppointmentTable.tsx:668-673 | the page size becomes the parsed value and the page goes back to 1; validity is kept; every other field keeps its value |
| `AppointmentTable.Table.GoToPageChange` | src/components/AppointmentTable.tsx:675-677 | the typed text is stored; every other field keeps its value |
| `AppointmentTable.Table.GoToPageSubmit` | src/components/AppointmentTable.tsx:679-685 | the page jumps only when the text parses to a page in range; the text is always cleared; every other field keeps its value |
| `AppointmentTable.Table.PageButtons` | src/components/AppointmentTable.tsx:688-703 | the `min(5, totalPages)` consecutive page numbers starting at `max(1, min(page-2, totalPages-4))`, all within range, including the current page when it is in range; the state is not changed |
| `AppointmentTable.Table.ColumnConfigChange` | src/components/AppointmentTable.tsx:133-137 | the saved columns replace the table's columns; every other field keeps its value |
| `AppointmentTable.SettledViewIsSubsequence` | src/components/AppointmentTable.tsx:147-153 | the derived view is always an order-preserving subsequence of the collection |
| `AppointmentTable.EmptyViewKeepsPage` | src/components/AppointmentTable.tsx:654-657 | when the view empties, the page is not reset, although only one page is counted |
| `AppointmentTable.SettledPageInRange` | src/components/AppointmentTable.tsx:647-657 | on a non-empty view the settled page lies within `1 .. totalPages` |
| `Pagination.CeilDiv` | src/components/AppointmentTable.tsx:647 | the least number of pages of that size that hold `n` rows |
| `Pagination.TotalPages` | src/components/AppointmentTable.tsx:647-648 | never fewer than one page; the pages hold all rows and none is empty except for an empty view |
| `Pagination.PageItems` | src/components/AppointmentTable.tsx:650-652 | the slice `view[(p-1)*s .. min(p*s, n))`, or empty past the end; never more than `s` rows |
| `Pagination.SettledPage` | src/components/AppointmentTable.tsx:654-657 | a page past the last page of a non-empty view is reset to 1; otherwise the page is kept; on a non-empty view a positive page always ends up within `1 .. pages` |
| `Pagination.PagesCoverView` | src/components/AppointmentTable.tsx:646-658 | pages `1 .. totalPages` laid end to end give back the view |
| `Pagination.PageNumbers` | src/components/AppointmentTable.tsx:688-703 | `min(5, totalPages)` consecutive pages in `1 .. totalPages` starting at `max(1, min(page-2, totalPages-4))`, so centred on the page when there is room and pushed in at either end, holding the current page when it is in range |
| `Columns.Insert` | src/components/ColumnSettings.tsx:29 | inserting adds exactly one column |
| `Columns.SortByOrder` | src/components/ColumnSettings.tsx:29 | the result is sorted by `order` and is a permutation of the input |
| `Columns.SortIsStable` | src/components/ColumnSettings.tsx:29 | columns with the same `order` keep their relative order |
| `Columns.SortSorted` | src/components/ColumnSettings.tsx:29 | sorting an already sorted list changes nothing |
| `Columns.VisibleColumns` | src/components/AppointmentTable.tsx:140-144 | the columns shown are exactly the visible ones, sorted by `order`: the same multiset as the visible input columns, and columns of equal `order` keep their input order |
| `Columns.SortedVisible` | src/components/AppointmentTable.tsx:140-144 | filtering the sorted columns gives a sorted list with the visible columns' multiset and per-`order` sequence |
| `Columns.VisibleMultiset` | src/components/AppointmentTable.tsx:140-144 | sorting before filtering keeps the multiset of the visible columns |
| `Columns.VisibleOrderClass` | src/components/AppointmentTable.tsx:140-144 | for each `order`, the visible columns with that `order` come out in input order |
| `Columns.ToggleVisible` | src/components/ColumnSettings.tsx:33-39 | only the columns with that key flip `visible` |
| `Columns.ToggleTwice` | src/components/ColumnSettings.tsx:33-39 | toggling the same key twice restores the list |
| `Columns.SelectAll` | src/components/ColumnSettings.tsx:66-70 | every `visible` becomes the flag; key, title and order are kept |
| `Columns.SelectAllShowsEverything` | src/components/ColumnSettings.tsx:66-70 | after selecting all, every column is shown in order; after clearing all, none is shown |
| `Columns.Renumber` | src/components/ColumnSettings.tsx:57-60 | every column's `order` becomes its index |
| `Columns.MoveAtBoundary` | src/components/ColumnSettings.tsx:43-48 | moving up at the top or down at the bottom is a no-op |
| `Columns.MoveSwapsAndRenumbers` | src/components/ColumnSettings.tsx:50-62 | the column and its neighbour trade places, every `order` equals its index, and the columns are the same ones (a permutation up to renumbering) |
| `Columns.MoveDownThenUp` | src/components/ColumnSettings.tsx:42-63 | moving a column down and back up restores the list, renumbered |
| `Columns.ColumnSettings.constructor` | src/components/ColumnSettings.tsx:28-30 | the working copy is the columns sorted by `order` |
| `Columns.ColumnSettings.ToggleColumnVisibility` | src/components/ColumnSettings.tsx:33-39 | the working copy becomes the toggled list |
| `Columns.ColumnSettings.ToggleSelectAll` | src/components/ColumnSettings.tsx:66-70 | the working copy becomes the select-all list |
| `Columns.ColumnSettings.MoveColumn` | src/components/ColumnSettings.tsx:42-63 | the in-place swap followed by the renumbering loop yields `Moved` |
| `Columns.ColumnSettings.Save` | src/components/ColumnSettings.tsx:73-76 | the working copy is handed back unchanged |
| `TableCells.CompanyName` | src/components/AppointmentTable.tsx:30-41 | a known carrier code gets its Chinese name; any other code is shown as itself |
| `TableCells.FormatShippingCompany` | src/components/AppointmentTable.tsx:44-46 | the code can be read back from the label `code \| name` whenever it holds no bar, so two such codes never share a label |
| `TableCells.CellText` | src/components/AppointmentTable.tsx:904-947 | an unknown key shows nothing; the NAC number shows only when `isNAC` is true; the yes/no cells show only `是`, `否` or nothing |
| `TableCells.ValidPeriodText` | src/components/AppointmentTable.tsx:932-941 | the text is empty exactly when both bounds are; it starts with the start bound and ends with the end bound |
| `TableCells.ValidPeriodReadsBack` | src/components/AppointmentTable.tsx:932-934 | a period of two well-formed days shows both, and each can be parsed back from the cell |
| `TableCells.CabinProtectionShowsAmount` | src/components/AppointmentTable.tsx:925-930 | the cell differs from the bare value exactly when it is `有` with both an amount and a unit |
| `ContainerInfo.QuantityText` | src/components/AppointmentEditor.tsx:284 | a quantity's text is non-empty and holds neither separator |
| `ContainerInfo.GroupTexts` | src/components/AppointmentEditor.tsx:283-285 | one `q*type` text per group, in order |
| `ContainerInfo.Serialise` | src/components/AppointmentEditor.tsx:283-285 | no groups give empty text; for a non-empty list of `+`-free types, cutting the text at `+` gives one `q*type` text per group, in order |
| `ContainerInfo.ParsePart` | src/components/AppointmentEditor.tsx:303-311 | every part gives a numeric quantity (NaN becomes 1) and a non-empty type (missing or empty becomes `20GP`) |
| `ContainerInfo.Parse` | src/components/AppointmentEditor.tsx:294-317 | empty text gives `[{20GP, 1}]`; otherwise one group per `+`-separated part, in order |
| `ContainerInfo.ParseGroupText` | src/components/AppointmentEditor.tsx:284-311 | a well-formed group's text parses back to the group |
| `ContainerInfo.GroupTextHasNoPlus` | src/components/AppointmentEditor.tsx:284 | a group text holds no `+` when its type holds none |
| `ContainerInfo.ParseSerialise` | src/components/AppointmentEditor.tsx:282-312 | parsing the serialised groups gives the groups back, for non-empty lists of numeric groups with non-empty, separator-free types |
| `ContainerInfo.NaNReadsBackAsOne` | src/components/AppointmentEditor.tsx:306-311 | a NaN quantity is written `NaN` and read back as 1 |
| `ContainerInfo.EmptyPartIsDefault` | src/components/AppointmentEditor.tsx:303-311 | an empty part parses to `{20GP, 1}` |
| `Strings.OrElse` | src/components/AppointmentEditor.tsx:141-144 | `v \|\| fallback` on text: a non-empty text wins, an empty one gives the fallback |
| `AppointmentEditor.NewForm` | src/components/AppointmentEditor.tsx:159-182 | the form of a new inquiry: route `直达`, no transit port, a temporary client with no name, ready time `二周内` as a range, no container text |
| `AppointmentEditor.MountForm` | src/components/AppointmentEditor.tsx:106-134 | the mount-time form: route `直达`, ready time as a date, no client type |
| `AppointmentEditor.LoadedForm` | src/components/AppointmentEditor.tsx:139-145 | the ready-time type, the ready time and the client type get their defaults when empty; every other field is kept |
| `AppointmentEditor.LoadingCompleteFormKeepsIt` | src/components/AppointmentEditor.tsx:139-145 | loading an inquiry that already has those fields changes none of them |
| `AppointmentEditor.Changed` | src/components/AppointmentEditor.tsx:199-215 | the named field takes the value, and choosing `直达` also clears the transit port; nothing else changes |
| `AppointmentEditor.TransitPortSurvivesOnlyTransit` | src/components/AppointmentEditor.tsx:202-208 | a route change keeps the transit port exactly when the new route is not `直达` |
| `AppointmentEditor.ClientTypeChanged` | src/components/AppointmentEditor.tsx:418-424 | the client name is kept only when the new type is `临时客户`; nothing else changes |
| `AppointmentEditor.ClientSearch` | src/components/AppointmentEditor.tsx:68-80 | a blank term lists every formal client; otherwise exactly the clients that contain it ignoring case, in order |
| `AppointmentEditor.ClientSearchIgnoresCase` | src/components/AppointmentEditor.tsx:75-77 | the client list is the same for a term and its lower-case form |
| `AppointmentEditor.Submit` | src/components/AppointmentEditor.tsx:225-236 | an empty id is refused; anything else is saved unchanged |
| `AppointmentEditor.Without` | src/components/AppointmentEditor.tsx:273 | exactly the element at that index is removed; an index off the list removes nothing |
| `AppointmentEditor.AddLeavesTextStale` | src/components/AppointmentEditor.tsx:264-268 | adding a group does not rewrite the container text, which then no longer describes the groups |
| `AppointmentEditor.Editor.constructor` | src/components/AppointmentEditor.tsx:37-65 | the editor starts with the mount form and one default group, and all three quote options checked |
| `AppointmentEditor.Editor.Load` | src/components/AppointmentEditor.tsx:136-197 | an opened inquiry gets its defaults, its client search text and its parsed groups; a new inquiry gets a fresh form and one group; with neither, nothing changes |
| `AppointmentEditor.Editor.Open` | src/components/AppointmentEditor.tsx:137-158 | the form becomes the loaded inquiry with its defaults, the groups are parsed from a non-empty container text, and a formal client's name fills the search text; the quotes, dropdown and hits are kept, and validity is kept |
| `AppointmentEditor.Editor.Change` | src/components/AppointmentEditor.tsx:199-215 | the form follows `Changed`; every other field keeps its value |
| `AppointmentEditor.Editor.ClearInput` | src/components/AppointmentEditor.tsx:218-223 | only the named field becomes empty; every other field keeps its value |
| `AppointmentEditor.Editor.ChangeClientType` | src/components/AppointmentEditor.tsx:418-424 | the form follows `ClientTypeChanged`; every other field keeps its value |
| `AppointmentEditor.Editor.ChooseReadyTimeType` | src/components/AppointmentEditor.tsx:485-495 | the range radio also sets the time to `二周内`; the date radio sets only the type; every other field keeps its value |
| `AppointmentEditor.Editor.SetQuoteOptions` | src/components/AppointmentEditor.tsx:335-353 | the pre-port and post-port options take the new values; the main-line option stays checked; every other field keeps its value |
| `AppointmentEditor.Editor.SearchClient` | src/components/AppointmentEditor.tsx:68-80 | the search text is stored and the list becomes the client search result; every other field keeps its value |
| `AppointmentEditor.Editor.FocusClientSearch` | src/components/AppointmentEditor.tsx:450 | focusing the input opens the dropdown; every other field keeps its value |
| `AppointmentEditor.Editor.SelectClient` | src/components/AppointmentEditor.tsx:83-90 | the client fills the form and the search text, and the dropdown closes; every other field keeps its value |
| `AppointmentEditor.Editor.UpdateContainerInfo` | src/components/AppointmentEditor.tsx:282-291 | the container text becomes the serialised groups; every other field keeps its value |
| `AppointmentEditor.Editor.ChangeContainerType` | src/components/AppointmentEditor.tsx:244-251 | only that group's type changes, and the text is rewritten to match; every other field keeps its value |
| `AppointmentEditor.Editor.ChangeContainerQuantity` | src/components/AppointmentEditor.tsx:254-261 | only that group's quantity changes (it may be NaN), and the text is rewritten to match; every other field keeps its value |
| `AppointmentEditor.Editor.AddContainerGroup` | src/components/AppointmentEditor.tsx:264-268 | a default group is appended only below five groups, so the count never exceeds five; every other field keeps its value |
| `AppointmentEditor.Editor.RemoveContainerGroup` | src/components/AppointmentEditor.tsx:271-279 | the group at the index is removed only while more than one is left, so at least one always remains; every other field keeps its value |
| `AppointmentEditor.Editor.SubmitForm` | src/components/AppointmentEditor.tsx:225-236 | the result is the one `Submit` states |
| `EditModal.WithText` | src/components/EditModal.tsx:254-259 | `{...form, [name]: value}` on a text field: only that field changes; an unknown name changes nothing |
| `EditModal.FieldChanged` | src/components/EditModal.tsx:210-260 | each named rule: `是`→activated; `''`→null NAC; product `'' → null`, keeping the custom product only for `其他`; digits-only `mqc` and amount; cabin protection resets amount and unit unless `有` |
| `EditModal.ChangeKeepsDigitFields` | src/components/EditModal.tsx:229-253 | no input can bring a non-digit into `mqc` or the cabin-protection amount |
| `EditModal.DigitOnlyInput` | src/components/EditModal.tsx:229-236 | `mqc` takes the typed text exactly when it is digits (or equal to the old text); non-digits leave the form as it was |
| `EditModal.ChoosingShownOptionKeepsForm` | src/components/EditModal.tsx:212-221 | re-choosing the option the table shows for `isActivated` or `isNAC` changes nothing |
| `EditModal.NacOptions` | src/components/EditModal.tsx:217-221 | `isNAC` is null exactly for `''` and true exactly for `是` |
| `EditModal.CabinProtectionChange` | src/components/EditModal.tsx:237-245 | the amount is kept or emptied; any choice but `有` resets amount and unit; the unit is never empty; null exactly for `''` |
| `EditModal.ClearedNac` | src/components/EditModal.tsx:297-303 | both NAC cells become empty and only `nac` among the texts changes |
| `EditModal.ClearedProduct` | src/components/EditModal.tsx:306-312 | the product cell becomes empty and only `customProduct` among the texts changes |
| `EditModal.ClearedCabinProtection` | src/components/EditModal.tsx:315-322 | the cabin cell becomes empty, the same as choosing `''` in the select |
| `EditModal.ClearingKeepsDigitFields` | src/components/EditModal.tsx:263-268 | the clear buttons keep the number-only fields numeric |
| `EditModal.ToggleLine` | src/components/EditModal.tsx:346-348 | only the line with that id flips its flag |
| `EditModal.ToggleLineTwice` | src/components/EditModal.tsx:344-361 | clicking a line twice restores the list |
| `EditModal.SelectedNames` | src/components/EditModal.tsx:352-353 | exactly the names of the selected lines |
| `EditModal.Unselected` | src/components/EditModal.tsx:273-276 | every line becomes unselected and is otherwise unchanged |
| `EditModal.LineText` | src/components/EditModal.tsx:352-353 | empty when no line is selected; with comma-free names, cutting it at `,` gives back the selected names |
| `EditModal.LineDisplay` | src/components/EditModal.tsx:354 | empty when no line is selected, the name itself for one line, and otherwise the `line` text with each `,` widened to `, ` |
| `EditModal.SelectedNamesCommaFree` | src/components/EditModal.tsx:352-353 | comma-free line names give comma-free selected names |
| `EditModal.LoadSelection` | src/components/EditModal.tsx:106-112 | a line is marked exactly when its name is one of the `,`-separated parts |
| `EditModal.LoadSelectionOfLineText` | src/components/EditModal.tsx:106-112 | with distinct, plain names, the selection written into `line` is the one that loading reads back |
| `EditModal.ReopenRestoresLines` | src/components/EditModal.tsx:106-116 | reopening a saved record restores both the line selection and its display text |
| `EditModal.LineSearch` | src/components/EditModal.tsx:181-193 | with the dropdown open, exactly the lines whose Chinese or English name contains the term, in order; when closed, every line |
| `EditModal.EmptyLineSearchKeepsAll` | src/components/EditModal.tsx:181-193 | an empty search term keeps every line |
| `EditModal.CompanySearch` | src/components/EditModal.tsx:196-208 | with the dropdown open, exactly the carriers whose code or name contains the term, in order; when closed, every carrier |
| `EditModal.FindCompany` | src/components/EditModal.tsx:120-123 | the first carrier whose code or name is the text, or none when no carrier matches |
| `EditModal.FindCompanyStep` | src/components/EditModal.tsx:120-123 | a first match in the tail is the first match of the whole list when the head does not match |
| `EditModal.CompanyDisplay` | src/components/EditModal.tsx:119-129 | a text no carrier has as code or name is shown as itself; otherwise the display is `code \| name` of a carrier the text names |
| `EditModal.CompanyDisplayOfPickedCode` | src/components/EditModal.tsx:119-129 | reopening a record whose carrier was picked from the list shows `code \| name` |
| `EditModal.TableDoesNotNameDialogCodes` | src/components/EditModal.tsx:74-85 | the dialog's codes MSK, HPL, EVG and YML are unknown to the table's name map, so the table shows them without a name |
| `EditModal.NoLineLeftSelected` | src/components/EditModal.tsx:271-284 | after clearing, no line is selected and both texts are empty |
| `EditModal.NewFormNeedsOnlyId` | src/components/EditModal.tsx:395-404 | the form of a new contract passes the browser's checks exactly when it has an id |
| `EditModal.SubmittedFormIsComplete` | src/components/EditModal.tsx:771-776 | a form that passes the checks with two well-formed dates ends on or after its start, has an id, and has a NAC number when NAC is set |
| `EditModal.Dialog.constructor` | src/components/EditModal.tsx:44-98 | the initial form, the seven lines unselected, the ten carriers, and empty texts |
| `EditModal.Dialog.Load` | src/components/EditModal.tsx:101-156 | an opened record is copied, its lines are marked and shown from `line`, and its carrier is shown as the list names it; a new record resets the form and the lines; an edit with no record changes nothing; the fields not loaded keep their values |
| `EditModal.Dialog.RefilterLines` | src/components/EditModal.tsx:181-193 | the shown lines become the line search result; every other field keeps its value |
| `EditModal.Dialog.RefilterCompanies` | src/components/EditModal.tsx:196-208 | the shown carriers become the carrier search result; every other field keeps its value |
| `EditModal.Dialog.Change` | src/components/EditModal.tsx:210-260 | the form follows `FieldChanged`; every other field keeps its value |
| `EditModal.Dialog.ClearInput` | src/components/EditModal.tsx:263-268 | only the named text field becomes empty; every other field keeps its value |
| `EditModal.Dialog.ClearLines` | src/components/EditModal.tsx:271-284 | no line stays selected, the line text, display and search are emptied, and line text and selection agree; every other field keeps its value |
| `EditModal.Dialog.ClearCompany` | src/components/EditModal.tsx:287-294 | the carrier, its display and its search are emptied; every other field keeps its value |
| `EditModal.Dialog.ClearNac` | src/components/EditModal.tsx:297-303 | the form follows `ClearedNac`; every other field keeps its value |
| `EditModal.Dialog.ClearProduct` | src/components/EditModal.tsx:306-312 | the form follows `ClearedProduct`; every other field keeps its value |
| `EditModal.Dialog.ClearCabinProtection` | src/components/EditModal.tsx:315-322 | the form follows `ClearedCabinProtection`; every other field keeps its value |
| `EditModal.Dialog.LineInputChange` | src/components/EditModal.tsx:324-328 | the typed text only searches, and opens the dropdown; every other field keeps its value |
| `EditModal.Dialog.LineInputFocus` | src/components/EditModal.tsx:330-333 | focusing opens the dropdown and keeps the search text; every other field keeps its value |
| `EditModal.Dialog.CompanyInputChange` | src/components/EditModal.tsx:335-338 | the typed text only searches, and opens the dropdown; every other field keeps its value |
| `EditModal.Dialog.CompanyInputFocus` | src/components/EditModal.tsx:340-342 | focusing opens the dropdown; every other field keeps its value |
| `EditModal.Dialog.LineClick` | src/components/EditModal.tsx:344-364 | one line flips, and `line` and the display become its selection joined by `,` and `, `; the dropdown stays as it was; every other field keeps its value |
| `EditModal.Dialog.CompanyClick` | src/components/EditModal.tsx:366-378 | the carrier code fills the form, the display becomes `code \| name`, and the dropdown closes; every other field keeps its value |
| `EditModal.Dialog.Submit` | src/components/EditModal.tsx:380-384 | the form is handed over unchanged exactly when the browser's checks pass (`Submittable`: id, price nature, and, where shown, NAC number, custom product, cabin amount and unit, and an end date not before the start); otherwise nothing is saved |
| `Strings.Lower` | src/components/AppointmentTable.tsx:183-184 | ASCII letters are lower-cased position by position; the length is kept |
| `Strings.LowerIdempotent` | src/components/AppointmentTable.tsx:183-184 | lower-casing twice is lower-casing once |
| `Strings.Split` | src/components/AppointmentEditor.tsx:301 | never an empty list, and no piece holds the separator |
| `Strings.SplitJoin` | src/components/EditModal.tsx:107 | splitting a join gives back the parts, when no part holds the separator |
| `Strings.JoinSplit` | src/components/AppointmentEditor.tsx:301 | joining a split gives back the text |
| `Strings.JoinAppend` | src/components/AppointmentEditor.tsx:283-285 | joining one more part appends the separator and the part |
| `Strings.ParseIntToString` | src/components/AppointmentEditor.tsx:306 | `parseInt` of the decimal text of an integer gives the integer back |
| `Dates.BeforeIsStrictTotalOrder` | src/components/AppointmentTable.tsx:306 | `<` on days is irreflexive, transitive and total |
| `Dates.ParseFormat` | src/components/AppointmentTable.tsx:296-299 | a formatted day parses back to itself |
| `Dates.FormatParse` | src/components/AppointmentTable.tsx:296-299 | a text that parses as a day is the formatted text of that day |

## Left out

- JSX rendering, CSS classes, toasts, `alert`, and the open/closed flags of the confirm dialog. A pending confirmation is the `pending` field; nothing changes until `Confirm` runs.
- Saving and loading column configurations in `localStorage` with JSON, and `console.log`/`logDebug`. These are I/O.
- React scheduling. The two effects are methods a caller runs after each change. The handlers' stale closures are not modelled:
  - `onConfirm` holds the handler that was current at click time; `Confirm` runs the handler on the current state instead.
  - The add path of `handleSaveAppointment` calls `handleFilter` on the collection as it was before the append; that step is modelled. The following re-derive effect then sees the new collection.
- `Math.random` ids and `toLocaleString` creation times of the editor are parameters.
- `toggleSelection` writes `isSelected` into a record that the old view also holds (line 553). The model updates a copy and does not model the aliasing. The same holds for the in-place group edits of the editor (lines 246 and 256).
- Unicode case mapping and `trim` beyond ASCII whitespace; `parseInt` in other radixes and its handling of prefixes such as `0x`.
- JavaScript `Date` parsing of anything but `YYYY-MM-DD`, including day rollover such as `2024-02-30`. Such texts are Invalid Dates here.
- Property lookups that hit `Object.prototype` keys in the carrier-name map.
- The document `mousedown` listeners that close the dropdowns (EditModal.tsx:159-178, AppointmentEditor.tsx:93-105).
- Sidebar.tsx, App.tsx, ConfirmModal.tsx beyond its two buttons, and ModalInstructions.tsx. These are navigation chrome and static text.
- The eleven seed contracts of the table. The constructor takes the initial collection as a parameter.
- `EditModal.WithText`: a field name the record does not declare adds a new property in JavaScript. The model leaves the record unchanged for such a name, because no input of the dialog carries one.
- `AppointmentTable.Table.PageSizeChange`: requires the value to parse as one of the page sizes, because the select offers only 10, 20, 50 and 100.
- `ContainerInfo.Parse`: a parsed text may yield more than five groups. The cap of five applies only to adding a group.
- `EditModal.Dialog.Submit`: the browser's constraint validation is modelled as `Submittable`, covering the `required` fields that are rendered and the `min` of the end date. What the browser shows to the user when a check fails is not modelled.
