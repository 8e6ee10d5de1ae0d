# Equipment inventory: store, change log and page logic

A Dafny model of the core of a browser-based equipment-inventory tracker.
The application keeps two persisted collections: the list of `Equipment`
records and the change log of `HistoryEntry` records, newest first. Every
successful add, update or delete changes the record list and then puts exactly
one entry at the front of the log. An update also builds a change summary over
four tracked fields.

Modules, one per source file (plus three small helper modules):

- `EquipmentTypes` (`equipment.dfy`): the record shapes. The `type`, `status`
  and `action` fields are closed enumerations. The optional specs are `Option`.
- `Storage` (`storage.dfy`): the store as the class `EquipmentStore`. Its
  fields `equipment` and `history` are the two persisted collections. Each
  mutating method is proved equal to a pure step function on `StoreState`
  (`AddStep`, `UpdateStep`, `DeleteStep`). The lemmas about those functions
  state what the store promises: the no-op on a missing id, the
  first-match-only update, the order-keeping delete, the append-only log and
  identifier uniqueness under fresh ids.
- `Inventory` (`inventory.dfy`): the case-insensitive search filter and the
  page state as the class `InventoryPage`, with the user-guarded delete.
- `Dashboard` (`dashboard.dfy`): the status counters, the five-record slice and
  the per-type counts.
- `InventoryForm` (`inventory_form.dfy`): how the submitted record is assembled (with the type required; see "Findings"),
  and the dispatch to update or add.
- `Seqs`, `Strings`, `Auth`: `filter`/`join`, `toLowerCase`/`includes`, and the
  signed-in user.

Random identifiers (`crypto.randomUUID()`) and clock readings
(`new Date().toISOString()`) are method parameters. The browser's key-value
storage is replaced by the two fields of `EquipmentStore`. A fresh store
starts empty, as absent keys read as empty lists. In the code, stored text
that fails to parse as JSON raises an error; it does not read as empty.
Parsing is outside this model, so the model makes no claim about that case.

## Model

| member | source | states |
|---|---|---|
| `EquipmentTypes.TypesAreClosed` | src/types/equipment.ts:4 | every type is one of exactly five values, each with a distinct stored name |
| `EquipmentTypes.StatusesAreClosed` | src/types/equipment.ts:25 | every status is one of exactly three values; two statuses are equal exactly when their stored names are |
| `Storage.FindIndex` | src/utils/storage.ts:33 | returns -1 exactly when no record has the id, otherwise the first position whose record has it |
| `Storage.Find` | src/utils/storage.ts:55 | returns a record exactly when the id is present, and then the record at the first matching position |
| `Seqs.Join` | src/utils/storage.ts:92 | joining no parts gives the empty string, one part gives that part, and the result starts with the first part |
| `Storage.ChangesSummary` | src/utils/storage.ts:84-92 | the summary is never empty, and it is the fixed fallback exactly when name, location, assigned user and status all agree |
| `Storage.SummaryFollowsFieldOrder` | src/utils/storage.ts:86-92 | the summary has one fragment per differing tracked field, in the order name, location, assigned user, status, joined with ", "; this matches a reference diff over the four tracked fields |
| `Storage.SummaryIgnoresUntracked` | src/utils/storage.ts:84-92 | records that agree on the four tracked fields get the same summary, whatever their other fields hold |
| `Storage.SingleChangeSummary` | src/utils/storage.ts:87-92 | when exactly one tracked field changes, the summary is that field's `"<label>: <old> → <new>"` fragment alone |
| `Storage.AddStep` | src/utils/storage.ts:15-28 | the list is the old list with the record appended at the end; the log gains one entry at the front (create, the record's id and name, "Equipo creado: name (type)", the user, the time); the old log follows it unchanged |
| `Storage.UpdateStep` | src/utils/storage.ts:31-51 | a missing id changes nothing; otherwise only the first record with the id is replaced and the length is kept, and one update entry is put at the front with the NEW name and the summary of old against new |
| `Storage.DeleteStep` | src/utils/storage.ts:53-71 | a missing id changes nothing; otherwise no record with the id remains, every other record stays, and one delete entry is put at the front with the first match's name and "Equipo eliminado: name" |
| `Storage.DeleteKeepsOrder` | src/utils/storage.ts:58 | a delete keeps the remaining records in their relative order, and removes exactly as many records as carry the id |
| `Storage.AddKeepsIdsUnique` | src/utils/storage.ts:15-18 | adding keeps ids unique only when the caller passes an id not already stored (the store does not check) |
| `Storage.UpdateKeepsIdsUnique` | src/utils/storage.ts:31-38 | an update whose new record keeps the addressed id keeps ids unique |
| `Storage.RemoveIdKeepsIdsUnique` | src/utils/storage.ts:58 | filtering out an id keeps the other ids unique |
| `Storage.DeleteKeepsIdsUnique` | src/utils/storage.ts:53-59 | deleting keeps ids unique |
| `Storage.ApplyPrependsOneEntry` | src/utils/storage.ts:15-71 | an operation that hits (every add; an update or delete of a present id) adds exactly one log entry at the front; one that misses leaves list and log as they were |
| `Storage.RunIsAppendOnly` | src/utils/storage.ts:78-82 | after any run of operations the log has grown by exactly the number that hit, and the old log is still its suffix, unchanged and in order |
| `Storage.AddsWithFreshIdsStayUnique` | src/utils/storage.ts:15-18 | a run of adds with distinct fresh ids appends exactly those records in order, and every id appears once |
| `Storage.ScenarioAdd` | src/utils/storage.ts:15-28 | adding "PC-01" (desktop) as "admin" to an empty store lists it and logs "Equipo creado: PC-01 (desktop)" by "admin" |
| `Storage.ScenarioUpdate` | src/utils/storage.ts:31-49 | then moving it to maintenance keeps one record and logs "Estado: active → maintenance" |
| `Storage.ScenarioDelete` | src/utils/storage.ts:53-69 | then deleting it empties the list and leaves three entries, the delete first and the two earlier ones behind it |
| `Storage.EquipmentStore.constructor` | src/utils/storage.ts:6-9 | a store whose keys are absent reads as an empty list and an empty log |
| `Storage.EquipmentStore.GetEquipment` | src/utils/storage.ts:6-9 | returns the stored list |
| `Storage.EquipmentStore.SaveEquipment` | src/utils/storage.ts:11-13 | the list becomes the given one; the log is untouched |
| `Storage.EquipmentStore.GetHistory` | src/utils/storage.ts:73-76 | returns the stored log |
| `Storage.EquipmentStore.AddHistoryEntry` | src/utils/storage.ts:78-82 | the new log is the entry followed by the old log; the list is untouched |
| `Storage.EquipmentStore.AddEquipment` | src/utils/storage.ts:15-29 | the new state is `AddStep` of the old |
| `Storage.EquipmentStore.UpdateEquipment` | src/utils/storage.ts:31-51 | the new state is `UpdateStep` of the old |
| `Storage.EquipmentStore.DeleteEquipment` | src/utils/storage.ts:53-71 | the new state is `DeleteStep` of the old |
| `Strings.Lower` | src/pages/Inventory.tsx:44-47 | lower-casing keeps the length and maps each character independently; no upper-case letter remains |
| `Strings.LowerIdempotent` | src/pages/Inventory.tsx:44-47 | lower-casing twice is lower-casing once |
| `Strings.Includes` | src/pages/Inventory.tsx:44-47 | true exactly when the needle occurs at some position of the haystack |
| `Strings.EmptyIsIncluded` | src/pages/Inventory.tsx:43-48 | the empty string is included in every string |
| `Seqs.Filter` | src/pages/Inventory.tsx:43-48 | keeps exactly the elements satisfying the predicate, and is never longer than its input |
| `Seqs.FilterIsSubsequence` | src/pages/Inventory.tsx:43-48 | a filter result is a subsequence of its input, in the input's order |
| `Seqs.FilterKeepsAll` | src/pages/Inventory.tsx:43-48 | when every element satisfies the predicate, the filter returns its input |
| `Seqs.FilterSplitsLength` | src/utils/storage.ts:58 | a predicate and its complement split the input's length between them |
| `Seqs.FilterAppend` | src/pages/Dashboard.tsx:28-30 | filtering a concatenation is concatenating the filtered parts |
| `Seqs.FilterAgreeing` | src/pages/Inventory.tsx:43-48 | predicates that agree on every element give the same filter result |
| `Seqs.FilterMultiplicity` | src/pages/Inventory.tsx:43-48 | a filter keeps every occurrence of an element that satisfies the predicate and none of one that does not |
| `Seqs.Map` | src/pages/Dashboard.tsx:162 | the result has the input's length and holds the function's value at each position |
| `Seqs.FilterCountsKey` | src/pages/Dashboard.tsx:27-29 | filtering on "the key equals k" keeps as many elements as k occurs among the keys |
| `Inventory.SearchFilter` | src/pages/Inventory.tsx:43-48 | a record is kept exactly when the lower-cased term occurs in its lower-cased name, brand, serial number or assigned user; every kept record occurs as often as in the list and every other record not at all; the result is a subsequence of the list |
| `Inventory.EmptyTermKeepsAll` | src/pages/Inventory.tsx:43-48 | an empty search term keeps every record |
| `Inventory.SearchIgnoresCase` | src/pages/Inventory.tsx:44-47 | terms with the same lower-case form select the same records |
| `Inventory.SearchIsIdempotent` | src/pages/Inventory.tsx:43-48 | searching the result again with the same term changes nothing |
| `Inventory.InventoryPage.constructor` | src/pages/Inventory.tsx:32-34 | the page starts with no records, an empty view and an empty term |
| `Inventory.InventoryPage.ApplySearch` | src/pages/Inventory.tsx:42-50 | the view becomes the search result for the current records and term |
| `Inventory.InventoryPage.SetSearchTerm` | src/pages/Inventory.tsx:42-50 | a new term is stored and the view is re-filtered |
| `Inventory.InventoryPage.LoadEquipment` | src/pages/Inventory.tsx:52-56 | the page holds the store's list and, once the effect has run, shows its search result |
| `Inventory.InventoryPage.HandleDelete` | src/pages/Inventory.tsx:58-67 | without a user neither page nor store changes; with one, the store takes `DeleteStep` as that user and the page reloads |
| `Dashboard.StatusCountsAddUp` | src/pages/Dashboard.tsx:27-30 | the active, maintenance and inactive counts add up to the number of records |
| `Dashboard.StatusCountIsOccurrences` | src/pages/Dashboard.tsx:27-29 | a status counter equals the number of times that status occurs among the records' statuses |
| `Dashboard.TypeCountIsOccurrences` | src/pages/Dashboard.tsx:162-163 | a type counter equals the number of times that type occurs among the records' types |
| `Dashboard.ComputeStats` | src/pages/Dashboard.tsx:25-31 | total is the number of records and recent changes the log length; the active, maintenance and inactive counters are each the number of records with that status; the three sum to the total |
| `Dashboard.AddRaisesOneCounter` | src/pages/Dashboard.tsx:27-31 | after an add, total and change count rise by one, and only the added record's status counter rises |
| `Dashboard.RecentEquipment` | src/pages/Dashboard.tsx:120 | the list shown is the first min(5, n) records in store order |
| `Dashboard.TypeCounts` | src/pages/Dashboard.tsx:162-163 | five counts; the k-th is the number of records whose type is the k-th of desktop, laptop, server, printer, other; together they equal the total |
| `Dashboard.TypeCountsAddUp` | src/pages/Dashboard.tsx:162-163 | the five type counts add up to the number of records |
| `InventoryForm.InterpolatedType` | src/utils/storage.ts:25 | a template literal prints a set type as its stored name and an unset one as "undefined", and prints "undefined" for nothing else |
| `InventoryForm.UncheckedSubmitAdd` | src/pages/InventoryForm.tsx:57-76 | as written, an add passes the form's type slot to the store unchecked and the log interpolates it; with a type set this is exactly the creation text of the checked handler |
| `InventoryForm.UntypedAddAsWritten` | src/pages/InventoryForm.tsx:136-152 | as written, adding "PC-01" without choosing a type logs "Equipo creado: PC-01 (undefined)" and the record is counted under none of the five types |
| `InventoryForm.AssembleRecord` | src/pages/InventoryForm.tsx:60-66 | no record exactly when no type is chosen (the type is marked required); otherwise the record carries the form's values, the route id and the loaded creation time on edit, or a fresh id and now on add; peripherals default to empty; the update time is always now |
| `InventoryForm.AcceptedAddIsCountedByType` | src/pages/InventoryForm.tsx:60-76 | an accepted add logs the chosen type's name, never "undefined", and raises that type's dashboard counter by one |
| `InventoryForm.EditReplacesLoadedRecord` | src/pages/InventoryForm.tsx:60-69 | an accepted edit replaces the loaded record in place, keeping its id and creation time; every other record is untouched and ids stay unique |
| `InventoryForm.AddAppendsFreshRecord` | src/pages/InventoryForm.tsx:60-75 | an accepted add appends the record with its fresh id and creation time now; ids stay unique when that id is new |
| `InventoryForm.OnSubmit` | src/pages/InventoryForm.tsx:57-80 | without a user, or without a type, the store is unchanged; otherwise exactly one store call happens: an update addressed by the record's own id in edit mode, an add otherwise |

## Left out

- Browser storage and JSON (`localStorage`, `JSON.parse`, `JSON.stringify`): the two keys are the two fields of `EquipmentStore`. Unparseable stored text is not modelled; the code lets the parse error escape.
- `crypto.randomUUID()` and `new Date().toISOString()`: they are parameters, so the model does not promise that generated ids are distinct. Uniqueness lemmas take that as a hypothesis.
- `Strings.Lower`: models `toLowerCase` for ASCII and Latin-1 upper-case letters only. Other Unicode case mappings, including those that change length, are not modelled.
- `InventoryForm.AssembleRecord`: edit mode is a non-empty route id. The page's `isEdit` state starts false and is set by an effect after mount; a submit before that effect runs is not modelled. A form in edit mode whose record was not found carries no `createdAt`. The model treats `createdAt` as whatever string the form holds.
- `InventoryForm.AssembleRecord`: the peripherals text area yields one string, and the code stores a non-empty one as that string, not as a list. The model's form holds a list or nothing, so only the `|| []` default is modelled.
- `InventoryForm.AssembleRecord`: of the form's validation rules only the missing one on the type is modelled; the required rules of the other fields are not, and their values are taken as the form holds them.
- The form data holds the fields a user edits, plus the loaded `createdAt`. Other properties spread from the form data are overwritten or ignored.
- Dashboard percentages and `toFixed`: floating point.
- Rendering, toasts, navigation, icons, route wiring (src/App.tsx), the sidebar, the history page, the login page and the authentication context. `Auth.User` stands for the signed-in user, of which only the username is used.
- Population of the form fields through `setValue`: library plumbing.
- Concurrent tabs writing the same storage: the application is single-threaded and the model has one store.

## Findings

| source | as written | input that shows it | evidently intended | confidence | as-written member | corrected member |
|---|---|---|---|---|---|---|
| src/pages/InventoryForm.tsx:136-152 | the type select is labelled required but has no validation rule and no default, and `onSubmit` does not check it | add a record named "PC-01" without touching the type select | the type is required: a form without one is not stored | medium, not executed | `InventoryForm.UntypedAddAsWritten` (the log reads "Equipo creado: PC-01 (undefined)" and no per-type counter counts the record) | `InventoryForm.AssembleRecord` (no record without a type), with `InventoryForm.OnSubmit` and `InventoryForm.AcceptedAddIsCountedByType` |
