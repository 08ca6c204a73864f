# diamond-frontend client core, modelled in Dafny

This project models the state handling of the diamond-frontend browser client. That client is the React front end of a diamond-lot ledger.

It covers the client's own logic: what each screen keeps in state, how every handler changes that state, and which request each handler sends. The server, the network, React Query's caching and the rendering are not modelled.

The modules follow the components:

| module | component | form |
|---|---|---|
| `Wrappers` | (support) | `Option` datatype |
| `Lists` | the id-list idioms of the filter panel | pure functions and lemmas |
| `MasterData` | parties as read from the server | datatype and a lookup function |
| `FilterContext` | `src/Context/filterContext.jsx` | the `FilterStore` class, with eight fields and a reset |
| `FilterPanel` | `src/Components/Filter.jsx` | transition functions, consistency lemmas, and methods that change a `FilterStore` |
| `Pagination` | `src/Components/Common/Pagination.jsx` and the inline pagers | pure functions and lemmas over runs of clicks |
| `LedgerGrid` | `src/Pages/DiamondTable.jsx` | sort record, row numbering, the `Grid` class (sort, inline editor, page) |
| `AddLotForm` | `src/Pages/FormPage.jsx` | item-list functions and the `LotForm` class |
| `JsText` | `String.prototype.trim` | pure functions and lemmas |
| `RefDataPage` | the seven reference-data pages | one `Page` class with two variants |
| `RateEditor` | `src/Pages/RatePage.jsx` | form functions and the `RateEditorPage` class |
| `Attendance` | `src/Components/AttendancePage.jsx` | calendar functions, two loop methods, and the `Grid` class |

Requests are not sent anywhere. A handler that would call the server returns the request it would send, as an `Option` (`None` when a guard stops it). `markAllPresent` returns the sequence of requests. The server's replies (success, settle) are separate event methods (`MutationSucceeded`, `UpdateSettled`, `CreateSucceeded`, and so on). This makes "sends nothing", "sends exactly this" and "sends once" statements about return values.

The reference-data pages come in two variants with different code, modelled as `RefDataPage.Variant`:
- `CloseOnSuccess`: employees, colors and statuses. Only a server success clears and closes the modal. An update in flight disables that row's toggle, through a single `updatingId` slot.
- `CloseOnSubmit`: clarities, shapes, parties and payment statuses. The modal is cleared and closed as soon as the request is sent. There is no toggle guard.

Where the code and the app's documented behaviour disagree, the model follows the code:
- `new Date(year, month, todayDate)` in `markAllPresent` can roll over into the next month. `Attendance.Rollover` models that, and `Attendance.MarkAllPresentLeavesShortMonth` shows a case.
- In `handleSort`, the guard `sortData.field === "default"` reads a property the record never has. Asking for `default` therefore always restores the initial record (`LedgerGrid.SortResult`).
- Typing in a reference page's search box does not reset the page; only the status filter does.

## Model

| member | source | states |
|---|---|---|
| `Lists.Without` | src/Components/Filter.jsx:103 | removal keeps exactly the values different from `x`, and never lengthens the list |
| `Lists.KeepIn` | src/Components/Filter.jsx:42 | filtering keeps exactly the values that are also among the options, and never lengthens the list |
| `Lists.IndexOf` | src/Components/Filter.jsx:39 | the result is -1 exactly when `x` is absent; otherwise it is the position of `x` with no earlier occurrence |
| `Lists.IndexOfIsFirst` | src/Components/Filter.jsx:39 | `indexOf(v) === i` holds exactly when `v` does not occur before position `i` |
| `Lists.WithoutRemovesExactlyOne` | src/Components/Filter.jsx:128 | in a duplicate-free list, removing the value at `i` removes that one position and keeps the rest in order |
| `Lists.WithoutAbsent` | src/Components/Filter.jsx:128 | removing an absent value leaves the list unchanged |
| `Lists.WithoutAppend` | src/Components/Filter.jsx:128 | removal distributes over concatenation |
| `Lists.WithoutNoDups` | src/Components/Filter.jsx:128 | removal preserves duplicate-freedom |
| `Lists.Toggle` | src/Components/Filter.jsx:127-131 | the toggled value is in the result exactly when it was not in the list; every other value keeps its membership |
| `Lists.ToggleSpec` | src/Components/Filter.jsx:127-131 | a checkbox toggle preserves duplicate-freedom, flips membership of the toggled value, leaves every other value's membership alone, and appends when the value was absent |
| `Lists.ToggleTwice` | src/Components/Filter.jsx:127-131 | checking then unchecking a value restores the list |
| `Lists.KeepInAppend` | src/Components/Filter.jsx:42 | filtering distributes over concatenation, so the kept values stay in their original order |
| `Lists.KeepInNoDups` | src/Components/Filter.jsx:42 | the pruning filter preserves duplicate-freedom |
| `Lists.KeepInAllAllowed` | src/Components/Filter.jsx:42 | filtering a list already within the options changes nothing |
| `Lists.KeepInIdempotent` | src/Components/Filter.jsx:42 | pruning twice is pruning once |
| `Lists.FirstOccurrences` | src/Components/Filter.jsx:39 | the de-duplicated list has exactly the members of the input |
| `Lists.FirstOccurrencesMembership` | src/Components/Filter.jsx:39 | the de-duplicated prefix contains exactly the values of that prefix |
| `Lists.OrderedAppend` | src/Components/Filter.jsx:39 | keeping a value at its first occurrence extends the first-occurrence order |
| `Lists.FirstOccurrencesOrdered` | src/Components/Filter.jsx:39 | the kept values appear in increasing order of their first positions |
| `Lists.FirstOccurrencesNoDups` | src/Components/Filter.jsx:39 | the de-duplicated list has no duplicates |
| `MasterData.FindParty` | src/Pages/FormPage.jsx:97-100 | `None` exactly when no party has the id; otherwise the first party with that id |
| `FilterContext.FilterStore.constructor` | src/Context/filterContext.jsx:6-13 | the store starts at 20 records, with empty selections and empty text fields |
| `FilterContext.FilterStore.ClearFilters` | src/Context/filterContext.jsx:15-24 | from any state, every field returns to its initial value |
| `FilterContext.FilterStore.SetRecord` | src/Components/Filter.jsx:68 | only the record count changes |
| `FilterContext.FilterStore.SetSearch` | src/Components/Filter.jsx:78 | only the search text changes |
| `FilterContext.FilterStore.SetStartDate` | src/Components/Filter.jsx:320 | only the start date changes |
| `FilterContext.FilterStore.SetEndDate` | src/Components/Filter.jsx:330 | only the end date changes |
| `FilterPanel.SelectedParties` | src/Components/Filter.jsx:36-37 | exactly the parties whose id is selected |
| `FilterPanel.AllKapans` | src/Components/Filter.jsx:38 | a kapan number is listed exactly when some given party owns it |
| `FilterPanel.KapanList` | src/Components/Filter.jsx:35-39 | a kapan is offered exactly when some selected party owns it |
| `FilterPanel.KapanListSpec` | src/Components/Filter.jsx:35-39 | the kapan options have no duplicates and keep the order in which the kapans first appear among the selected parties |
| `FilterPanel.ClearedFiltersConsistent` | src/Context/filterContext.jsx:15-24 | after a reset, the selections are consistent |
| `FilterPanel.Pruned` | src/Components/Filter.jsx:41-43 | only the kapan selection changes, and it keeps exactly the selected kapans still offered for the selected parties |
| `FilterPanel.PartyToggled` | src/Components/Filter.jsx:126-131 | that party's selection flips, every other party keeps its selection, and the kapans kept are exactly the old ones offered for the new parties |
| `FilterPanel.PartyRemoved` | src/Components/Filter.jsx:101-104 | that party is unselected, every other party keeps its selection, and the kapans kept are exactly the old ones offered for the new parties |
| `FilterPanel.PrunedConsistent` | src/Components/Filter.jsx:41-43 | with duplicate-free lists, pruning makes the kapan selection a subset of the options, keeps every still-offered kapan in its old order (`Lists.KeepInAppend`), and leaves the parties alone |
| `FilterPanel.PrunedIdle` | src/Components/Filter.jsx:41-43 | pruning an already consistent selection removes nothing |
| `FilterPanel.PartyToggledConsistent` | src/Components/Filter.jsx:126-131 | a party checkbox followed by pruning preserves consistency, and flips that party's selection |
| `FilterPanel.PartyRemovedConsistent` | src/Components/Filter.jsx:101-104 | a party chip followed by pruning preserves consistency, and unselects that party |
| `FilterPanel.KapanChangeConsistent` | src/Components/Filter.jsx:180-185 | toggling an offered kapan, or removing a kapan chip, preserves consistency |
| `FilterPanel.StatusChangeConsistent` | src/Components/Filter.jsx:238-243 | toggling or removing a status or payment status preserves consistency |
| `FilterPanel.PruneKapans` | src/Components/Filter.jsx:41-43 | the store becomes its pruned state; nothing else changes |
| `FilterPanel.ToggleParty` | src/Components/Filter.jsx:126-131 | the store moves to the party-toggled-then-pruned state |
| `FilterPanel.RemovePartyChip` | src/Components/Filter.jsx:101-104 | the store moves to the party-removed-then-pruned state |
| `FilterPanel.ToggleKapan` | src/Components/Filter.jsx:180-185 | only the kapan selection changes, by a toggle |
| `FilterPanel.RemoveKapanChip` | src/Components/Filter.jsx:156-159 | only the kapan selection changes, by removing that kapan |
| `FilterPanel.ToggleStatus` | src/Components/Filter.jsx:238-243 | only the status selection changes, by a toggle |
| `FilterPanel.RemoveStatusChip` | src/Components/Filter.jsx:214-216 | only the status selection changes, by removing that status |
| `FilterPanel.TogglePaymentStatus` | src/Components/Filter.jsx:294-299 | only the payment-status selection changes, by a toggle |
| `FilterPanel.RemovePaymentStatusChip` | src/Components/Filter.jsx:270-272 | only the payment-status selection changes, by removing that status |
| `FilterPanel.OptionsAfterDeselect` | src/Components/Filter.jsx:35-39 | parties A (K1, K2) and B (K2, K3), with only B selected, offer [K2, K3] |
| `FilterPanel.DeselectPrunesKapan` | src/Components/Filter.jsx:41-43 | with K1 selected, deselecting A leaves options [K2, K3] and prunes K1 from the selection |
| `Pagination.Prev` | src/Components/Common/Pagination.jsx:13 | above page 1 the page drops by one; otherwise it stays, and it never falls below 1 |
| `Pagination.Next` | src/Components/Common/Pagination.jsx:18 | below a known total the page rises by one, never past the total; otherwise (including an unknown total) it stays |
| `Pagination.Step` | src/Components/Common/Pagination.jsx:13-18 | one click keeps an in-range page in range, and moves it by at most one |
| `Pagination.Run` | src/Components/Common/Pagination.jsx:13-18 | a run of n clicks ends at most n pages from where it started |
| `Pagination.RunInRange` | src/Components/Common/Pagination.jsx:13-18 | any sequence of clicks keeps the page in range |
| `Pagination.RunSinglePage` | src/Components/Common/Pagination.jsx:13-18 | with at most one page, or no total yet, page 1 never moves |
| `Pagination.RunWithoutTotal` | src/Components/Common/Pagination.jsx:18 | with no total yet, no sequence of clicks raises the page |
| `LedgerGrid.Assigned` | src/Pages/DiamondTable.jsx:210-216 | the new record has the same keys, `value` on `field`, and `default` on every other key |
| `LedgerGrid.InitialSortWellFormed` | src/Pages/DiamondTable.jsx:30-35 | initially all four columns are present and only the unique id is sorted |
| `LedgerGrid.AssignedActive` | src/Pages/DiamondTable.jsx:210-216 | after a real direction is chosen, the chosen column is the only sorted one |
| `LedgerGrid.SortResult` | src/Pages/DiamondTable.jsx:197-218 | `default` restores the initial record; any other direction keeps the keys, puts the direction on the requested column and `default` on every other |
| `LedgerGrid.SortResultWellFormed` | src/Pages/DiamondTable.jsx:197-218 | every sort request keeps exactly one column sorted; a real direction lands on the requested column |
| `LedgerGrid.SortResultIdempotent` | src/Pages/DiamondTable.jsx:197-218 | repeating a sort request changes nothing further |
| `LedgerGrid.IconClick` | src/Pages/DiamondTable.jsx:273-279 | an icon never requests `default`, always changes the direction, and starts an unsorted column ascending |
| `LedgerGrid.IconClickTwice` | src/Pages/DiamondTable.jsx:273-279 | two clicks on a sorted column's icon restore its direction |
| `LedgerGrid.RowNumber` | src/Pages/DiamondTable.jsx:371 | on page p, row i of a page of `record` rows gets a number in (p-1)*record+1 .. p*record |
| `LedgerGrid.RowNumberContiguous` | src/Pages/DiamondTable.jsx:371 | rows on a page are numbered consecutively, and a page continues where the previous one ended |
| `LedgerGrid.RowNumberInjective` | src/Pages/DiamondTable.jsx:371 | two rows on any pages never share a number unless they are the same row |
| `LedgerGrid.GridPrev` | src/Pages/DiamondTable.jsx:642-644 | the grid's clamped, guarded back arrow moves exactly like the shared pager's |
| `LedgerGrid.GridNext` | src/Pages/DiamondTable.jsx:649-651 | the grid's clamped, double-guarded forward arrow moves exactly like the shared pager's |
| `LedgerGrid.BuildSort` | src/Pages/DiamondTable.jsx:210-216 | the key loop produces the same keys, `value` on `field`, and `default` elsewhere |
| `LedgerGrid.Grid.constructor` | src/Pages/DiamondTable.jsx:26-35 | the grid starts on page 1 with the initial sort and no open editor |
| `LedgerGrid.Grid.HandleSort` | src/Pages/DiamondTable.jsx:197-218 | the sort record becomes the requested one and stays well formed; the editor and the page are untouched |
| `LedgerGrid.Grid.ClickSortIcon` | src/Pages/DiamondTable.jsx:273-337 | after an icon click, that column is the only sorted one and its direction is the icon's request |
| `LedgerGrid.Grid.DoubleClick` | src/Pages/DiamondTable.jsx:133-145 | the editor opens on that lot and field; a non-empty date value is shown as its calendar day |
| `LedgerGrid.Grid.EditValue` | src/Pages/DiamondTable.jsx:381-382 | only the edited value changes |
| `LedgerGrid.Grid.PressKey` | src/Pages/DiamondTable.jsx:155-170 | Enter on an open editor emits that cell's update and closes the editor; any other key emits nothing and changes nothing |
| `LedgerGrid.Grid.ClickOutside` | src/Pages/DiamondTable.jsx:178-185 | a click outside the mounted editor discards the edit; otherwise nothing changes |
| `LedgerGrid.Grid.PrevPage` | src/Pages/DiamondTable.jsx:642-644 | the page follows the grid's previous arrow and stays at least 1 |
| `LedgerGrid.Grid.NextPage` | src/Pages/DiamondTable.jsx:649-651 | the page follows the grid's next arrow |
| `LedgerGrid.EnterTwiceEmitsOnce` | src/Pages/DiamondTable.jsx:155-170 | pressing Enter twice on one edit sends one update |
| `AddLotForm.EmptyItem` | src/Pages/FormPage.jsx:8-14 | a fresh line has today's date and every other field empty |
| `AddLotForm.WithField` | src/Pages/FormPage.jsx:71 | the chosen field takes the new value, and every other field is unchanged |
| `AddLotForm.DropFrom` | src/Pages/FormPage.jsx:66 | the filter drops exactly the line at `index` when that index is in range, and changes nothing otherwise |
| `AddLotForm.DropIndex` | src/Pages/FormPage.jsx:63-67 | removing an in-range line yields the lines before and after it, one fewer; an out-of-range index changes nothing |
| `AddLotForm.UpdateAt` | src/Pages/FormPage.jsx:69-74 | same length; every other line is unchanged; the edited line has the new value in that field and keeps its other fields |
| `AddLotForm.DropAppended` | src/Pages/FormPage.jsx:60-67 | removing the line just added restores the list |
| `AddLotForm.UpdateAtUndo` | src/Pages/FormPage.jsx:69-74 | writing back a field's old value undoes an edit |
| `AddLotForm.Complete` | src/Pages/FormPage.jsx:79 | a line is complete exactly when each of its fields is filled in |
| `AddLotForm.Every` | src/Pages/FormPage.jsx:79 | true exactly when every line is complete |
| `AddLotForm.ValidateItems` | src/Pages/FormPage.jsx:76-79 | valid exactly when there is at least one line and every line has all five fields filled in |
| `AddLotForm.FreshLineIncomplete` | src/Pages/FormPage.jsx:8-14 | a list that ends with a fresh line never validates |
| `AddLotForm.KapanOptions` | src/Pages/FormPage.jsx:97-102 | no options when no party has the id; otherwise the first such party's kapan numbers |
| `AddLotForm.LotForm.constructor` | src/Pages/FormPage.jsx:20-28 | the form starts with no party, no kapan and one fresh line, with the dropdown and the table closed |
| `AddLotForm.LotForm.SelectParty` | src/Pages/FormPage.jsx:130 | only the party changes |
| `AddLotForm.LotForm.TypeKapan` | src/Pages/FormPage.jsx:160 | only the kapan number changes |
| `AddLotForm.LotForm.AddItem` | src/Pages/FormPage.jsx:60-61 | one fresh line is appended; everything else is unchanged |
| `AddLotForm.LotForm.RemoveItem` | src/Pages/FormPage.jsx:63-67 | the lines become the list without that index; everything else is unchanged |
| `AddLotForm.LotForm.ClickRemove` | src/Pages/FormPage.jsx:289-290 | the last remaining line cannot be removed; otherwise exactly that line goes, and the list is never empty |
| `AddLotForm.LotForm.ChangeItem` | src/Pages/FormPage.jsx:69-74 | the lines become the list with one field of one line replaced |
| `AddLotForm.LotForm.ClickKapanBox` | src/Pages/FormPage.jsx:154 | the dropdown toggles only while no kapan is entered and the party has kapans |
| `AddLotForm.LotForm.FocusKapanInput` | src/Pages/FormPage.jsx:162 | focusing opens the dropdown when there are options, and never closes it |
| `AddLotForm.LotForm.PickKapan` | src/Pages/FormPage.jsx:187-190 | picking fills the kapan number and closes the dropdown |
| `AddLotForm.LotForm.KapanOutsideClick` | src/Pages/FormPage.jsx:104-110 | a click outside the mounted box closes an open dropdown; nothing else changes |
| `AddLotForm.LotForm.HandleSubmit` | src/Pages/FormPage.jsx:81-88 | a request is sent exactly when the party, the kapan and every line are filled in, and it is the whole form |
| `AddLotForm.LotForm.CreateSucceeded` | src/Pages/FormPage.jsx:44-46 | a successful create shows the result table and keeps the form |
| `AddLotForm.LotForm.HandleBack` | src/Pages/FormPage.jsx:90-94 | Back hides the table and resets the form to one fresh line |
| `AddLotForm.FreshFormSubmitsNothing` | src/Pages/FormPage.jsx:81-88 | submitting a fresh form sends nothing |
| `JsText.IsJsWhitespace` | src/Pages/EmployeePage.jsx:95 | apart from the space, no character `trim` strips is printable ASCII |
| `JsText.Blank` | src/Pages/EmployeePage.jsx:95 | a string is blank exactly when every character in it is one that `trim` strips |
| `JsText.TrimStart` | src/Pages/EmployeePage.jsx:95 | the result is a suffix that does not start with whitespace, and everything cut was whitespace |
| `JsText.TrimEnd` | src/Pages/EmployeePage.jsx:95 | the result is a prefix that does not end with whitespace, and everything cut was whitespace |
| `JsText.Trim` | src/Pages/EmployeePage.jsx:95 | the result is a slice of the input, and only whitespace was cut on either side |
| `JsText.TrimTight` | src/Pages/EmployeePage.jsx:95 | the trimmed text neither starts nor ends with whitespace |
| `JsText.TrimEmptyIffBlank` | src/Pages/EmployeePage.jsx:95 | `!name.trim()` holds exactly when the name is all whitespace |
| `JsText.TrimIdempotent` | src/Pages/EmployeePage.jsx:95 | trimming twice is trimming once |
| `RefDataPage.VariantOf` | src/Pages/EmployeePage.jsx:46-53 | employees, colors and statuses close on success; the other four close on submit |
| `RefDataPage.Truthy` | src/Pages/EmployeePage.jsx:97 | the edit id is falsy exactly when it is null or the empty string |
| `RefDataPage.SubmitRequest` | src/Pages/EmployeePage.jsx:93-102 | a blank name sends nothing; otherwise a truthy edit id sends a rename of that id, and anything else creates an active record |
| `RefDataPage.RowNumber` | src/Pages/EmployeePage.jsx:188 | the reference pages number rows as the ledger grid does with five rows a page, so page p shows (p-1)*5+1 .. p*5 |
| `RefDataPage.ToggleRequest` | src/Pages/ClarityPage.jsx:73-78 | a toggle updates the row's own id with its active flag inverted |
| `RefDataPage.Page.constructor` | src/Pages/EmployeePage.jsx:11-25 | a page starts on page 1, with an empty form, modal closed, no update in flight, no delete target, status All and no search |
| `RefDataPage.Page.CloseModal` | src/Pages/EmployeePage.jsx:87-91 | the modal closes and the form is cleared; nothing else changes |
| `RefDataPage.Page.OpenAdd` | src/Pages/ClarityPage.jsx:86-90 | the modal opens in add mode; the guarded variant keeps a leftover name, the other clears it |
| `RefDataPage.Page.StartEdit` | src/Pages/EmployeePage.jsx:248-252 | the modal opens on that row's id and name |
| `RefDataPage.Page.SetName` | src/Pages/EmployeePage.jsx:306 | only the name changes |
| `RefDataPage.Page.Submit` | src/Pages/EmployeePage.jsx:93-102 | sends the submit request; a blank name changes nothing; the guarded variant keeps the modal open and marks a rename in flight, the other clears and closes at once |
| `RefDataPage.Page.ToggleDisabled` | src/Pages/EmployeePage.jsx:195 | a toggle can be disabled only on the pages that guard toggles (employees, colors, statuses) |
| `RefDataPage.Page.Toggle` | src/Pages/EmployeePage.jsx:195-204 | on the guarded variant a row with an update in flight sends nothing; otherwise the toggle request is sent, and the guarded variant records that row as in flight |
| `RefDataPage.Page.CancelModal` | src/Pages/EmployeePage.jsx:313 | the modal closes; only the guarded variant clears the form |
| `RefDataPage.Page.MutationSucceeded` | src/Pages/EmployeePage.jsx:63-67 | a server success closes and clears the guarded variant's modal, and changes nothing on the other |
| `RefDataPage.Page.UpdateSettled` | src/Pages/EmployeePage.jsx:68-70 | a settled update empties the in-flight slot |
| `RefDataPage.Page.SetStatus` | src/Pages/EmployeePage.jsx:139-142 | choosing a status filter returns to page 1 |
| `RefDataPage.Page.SetSearch` | src/Pages/EmployeePage.jsx:133 | only the search text changes; the page is kept |
| `RefDataPage.Page.AskDelete` | src/Pages/EmployeePage.jsx:260-264 | the confirmation opens for that row |
| `RefDataPage.Page.CancelDelete` | src/Pages/EmployeePage.jsx:361-363 | the confirmation closes without sending |
| `RefDataPage.Page.ConfirmDelete` | src/Pages/EmployeePage.jsx:370-373 | an open confirmation deletes exactly its id and closes; a closed one sends nothing |
| `RefDataPage.Page.PrevPage` | src/Pages/EmployeePage.jsx:280 | the page follows the pager's previous button |
| `RefDataPage.Page.NextPage` | src/Pages/EmployeePage.jsx:280 | the page follows the pager's next button |
| `RefDataPage.SecondClickBlocked` | src/Pages/EmployeePage.jsx:195-204 | on a guarded page, a second click on a row in flight sends nothing |
| `RefDataPage.SingleSlot` | src/Pages/EmployeePage.jsx:58-71 | the slot holds one row: after toggling A and then B, A can be toggled again while its first update may still be in flight |
| `RefDataPage.RenameRoundTrip` | src/Pages/EmployeePage.jsx:58-71 | a rename sends the new name for that id; the modal stays open until success, then closes with the form and the slot cleared |
| `RateEditor.WithTierField` | src/Pages/RatePage.jsx:295-331 | the chosen tier field takes the value, and the others are unchanged |
| `RateEditor.WithRateField` | src/Pages/RatePage.jsx:360-372 | the chosen field of the rate/date form takes the value, and the other is kept |
| `RateEditor.TierComplete` | src/Pages/RatePage.jsx:96 | a tier form is complete exactly when each of its four fields is filled in |
| `RateEditor.EmptyTierIncomplete` | src/Pages/RatePage.jsx:96-107 | a cleared tier form, even with one field typed, never passes the guard |
| `RateEditor.DatePrefix` | src/Pages/RatePage.jsx:132 | the result is the longest prefix without "T"; anything after it starts with "T" |
| `RateEditor.DatePrefixOfTimestamp` | src/Pages/RatePage.jsx:132 | a day followed by "T" and a time yields the day, and a bare day is kept |
| `RateEditor.DatePrefixIdempotent` | src/Pages/RatePage.jsx:132 | taking the prefix twice is taking it once |
| `RateEditor.RateEditorPage.constructor` | src/Pages/RatePage.jsx:10-34 | no party, every modal closed, every form empty, nothing selected |
| `RateEditor.RateEditorPage.SelectParty` | src/Pages/RatePage.jsx:166 | only the party changes |
| `RateEditor.RateEditorPage.OpenCreateModal` | src/Pages/RatePage.jsx:176-183 | the Create button exists only with a party selected; the new-tier modal opens |
| `RateEditor.RateEditorPage.CancelCreateModal` | src/Pages/RatePage.jsx:337 | the new-tier modal closes |
| `RateEditor.RateEditorPage.SetTierField` | src/Pages/RatePage.jsx:295-331 | one field of the new-tier form changes |
| `RateEditor.RateEditorPage.HandleSubmit` | src/Pages/RatePage.jsx:93-108 | an incomplete form sends nothing and is kept; a complete one sends the tier with the selected party, which is never empty, and clears the form |
| `RateEditor.RateEditorPage.CreateSucceeded` | src/Pages/RatePage.jsx:53-61 | a created tier closes the modal |
| `RateEditor.RateEditorPage.OpenAddForm` | src/Pages/RatePage.jsx:110-114 | remembers the tier, clears the add form, and opens it |
| `RateEditor.RateEditorPage.SetAddField` | src/Pages/RatePage.jsx:360-372 | one field of the add form changes |
| `RateEditor.RateEditorPage.HandleAddSubmit` | src/Pages/RatePage.jsx:116-124 | sends a new item for the remembered tier exactly when the rate and the date are filled in |
| `RateEditor.RateEditorPage.AddSucceeded` | src/Pages/RatePage.jsx:63-71 | an added item closes the add modal |
| `RateEditor.RateEditorPage.CancelAddModal` | src/Pages/RatePage.jsx:378 | the add modal closes |
| `RateEditor.RateEditorPage.HandleEdit` | src/Pages/RatePage.jsx:126-136 | remembers the tier and the item, loads the rate and the day part of the date, and opens the edit form |
| `RateEditor.RateEditorPage.SetEditField` | src/Pages/RatePage.jsx:401-412 | one field of the edit form changes |
| `RateEditor.RateEditorPage.HandleEditSubmit` | src/Pages/RatePage.jsx:138-153 | sends the remembered item's new rate and date to the remembered tier exactly when both are filled in |
| `RateEditor.RateEditorPage.EditSucceeded` | src/Pages/RatePage.jsx:73-81 | an edited item closes the edit modal |
| `RateEditor.RateEditorPage.CancelEditModal` | src/Pages/RatePage.jsx:418 | the edit modal closes |
| `RateEditor.RateEditorPage.AskDelete` | src/Pages/RatePage.jsx:234-238 | the confirmation opens for that tier and item |
| `RateEditor.RateEditorPage.CancelDelete` | src/Pages/RatePage.jsx:438 | the confirmation closes without sending |
| `RateEditor.RateEditorPage.ConfirmDelete` | src/Pages/RatePage.jsx:445-448 | an open confirmation deletes exactly its item from its tier and closes; a closed one sends nothing |
| `RateEditor.DoubleSubmitSendsOnce` | src/Pages/RatePage.jsx:93-108 | submitting a complete tier twice sends it once |
| `RateEditor.EditSendsDay` | src/Pages/RatePage.jsx:126-153 | editing an item dated with a timestamp and submitting it sends the day, not the timestamp |
| `Attendance.DaysInMonth` | src/Components/AttendancePage.jsx:7 | 28 to 31 days: 28 or 29 only in February (by the leap rule), 30 only in April, June, September and November |
| `Attendance.YearLength` | src/Components/AttendancePage.jsx:7 | the months add up to 365 days, or 366 in a leap year |
| `Attendance.Years` | src/Components/AttendancePage.jsx:18-22 | eleven consecutive years from year-5, which include the year |
| `Attendance.StatusMap` | src/Components/AttendancePage.jsx:92-96 | the day table has an entry exactly for each marked day |
| `Attendance.StatusMapSpec` | src/Components/AttendancePage.jsx:92-96 | each entry of the day table is the status of that day's last mark |
| `Attendance.MapAttendance` | src/Components/AttendancePage.jsx:92-96 | the loop builds exactly the day table |
| `Attendance.StatusLetter` | src/Components/AttendancePage.jsx:201-205 | P, A and H exactly for Present, Absent and Halfday; "-" for anything else |
| `Attendance.AfterIsStrictOrder` | src/Components/AttendancePage.jsx:168-169 | "later than" is irreflexive, asymmetric, transitive and total on distinct days |
| `Attendance.IsFuture` | src/Components/AttendancePage.jsx:168-169 | a cell is in the future exactly when it is neither today nor earlier than today |
| `Attendance.Rollover` | src/Components/AttendancePage.jsx:120 | a real calendar day: the same day when it fits the month, otherwise carried into the next month or year |
| `Attendance.MarkAllPresent` | src/Components/AttendancePage.jsx:116-125 | one Present mark per listed employee, in order, all for the same rolled-over date |
| `Attendance.MarkAllPresentLeavesShortMonth` | src/Components/AttendancePage.jsx:120 | on the 31st, viewing February 2026, the marks fall on 3 March 2026 |
| `Attendance.Grid.constructor` | src/Components/AttendancePage.jsx:66 | the grid starts on the given month with no selected cell |
| `Attendance.Grid.SetMonth` | src/Components/AttendancePage.jsx:32 | only the month changes |
| `Attendance.Grid.SetYear` | src/Components/AttendancePage.jsx:39 | only the year changes |
| `Attendance.Grid.SelectCell` | src/Components/AttendancePage.jsx:174 | a future day ignores the click; any other day becomes the active cell with no status chosen |
| `Attendance.Grid.IsActive` | src/Components/AttendancePage.jsx:106-109 | a cell is highlighted only when a cell is selected, and for that employee |
| `Attendance.Grid.PickerShown` | src/Components/AttendancePage.jsx:177-179 | the picker is mounted only in an active cell that is today or earlier |
| `Attendance.Grid.ChooseStatus` | src/Components/AttendancePage.jsx:184-188 | the choice is recorded, and a save is sent exactly when the employee, the date and the status are all present |
| `Attendance.Grid.SaveSucceeded` | src/Components/AttendancePage.jsx:70-73 | a saved mark clears the selection |
| `Attendance.Grid.ClickOutside` | src/Components/AttendancePage.jsx:78-86 | a click outside the mounted picker clears the selection |
| `Attendance.SelectThenChoose` | src/Components/AttendancePage.jsx:111-114 | a past day selected and given a status sends exactly that mark; a future day sends nothing |
| `Attendance.ActiveAfterMonthChange` | src/Components/AttendancePage.jsx:106-109 | after switching back to an earlier month, the same day's cell shows the picker, and a status chosen there saves the date picked in the later month |

## Left out

- `src/Lib/api.js` (HTTP calls, cookies, base URL): requests are returned as values and never sent.
- React Query caching, refetching and invalidation: replies are modelled only as the event methods that change client state.
- The 300 ms debounce of the search boxes: the model keeps the typed text only; the debounced copy that reaches the query is not modelled.
- Toasts, animations, loading skeletons, routing, the layout, the login page and `useAuthUser`: presentation and authentication, not state logic.
- `src/Hooks/useMasterData.js`, `src/Pages/DiamondForm.jsx`, `src/Pages/RecordPage.jsx` and `src/Pages/HomePage.jsx` are not part of this model.
- The unused `Disabled` constant of the ledger grid (`src/Pages/DiamondTable.jsx:37-39`): it is computed but never read.
- The add-lot form's `responseData` and result table: they only display the server's reply.
- `AddLotForm.EmptyItem`: today's date is a parameter, because `new Date()` is a clock read.
- `LedgerGrid.Grid.DoubleClick`: the conversion of a timestamp to its ISO calendar day (`new Date(v).toISOString().split("T")[0]`) is a caller-supplied function `isoDay`, because date parsing and time zones are outside the model.
- `Attendance`: dates are abstract calendar days (`CalDate`). `toISOString()`'s UTC shift, local time zones, the current clock and JavaScript's mapping of years 0 to 99 are not modelled; today's date is a parameter.
- `Attendance.IsFuture`: compares calendar days, so a cell for today counts as not in the future, as it does when the clock is past midnight.
- `Attendance.MapAttendance`: a mark's day of the month is supplied with the mark, instead of being parsed from its date.
- `FilterContext.FilterStore.SetRecord`: the record count is an integer, while the input stores the raw text of the field.
- `RateEditor.RateEditorPage.SelectParty`: only called while the new-tier modal is closed. For pointer input, the open dialog covers the page's party select, and its own party select is disabled. The dialog is not modal, so the page's select can still be reached with the keyboard; the model leaves that path out.
- `RateEditor`: a rate from the server is text. A numeric `0` rate, which JavaScript treats as falsy, is not distinguished.
- `LedgerGrid.SortKey`: the four sort columns are an enumeration; `handleSort` is only ever called with these four names.
- Concurrency: two in-flight requests finishing in either order is not modelled beyond the single `updatingId` slot.
- Floating-point weights and totals: the forms keep the text of the inputs, and nothing in the model does arithmetic on them.
