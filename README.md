# Quench plant-watering core, modelled in Dafny

Quench tracks houseplants. Each plant has a name, a watering interval in days,
the time it was last watered and a display position (`order`). The app shows
every plant as healthy, due soon or overdue, with a countdown. The user can
add, edit, water, delete and drag plants into a new order. There are two list
managers. One keeps the list on the device. The other keeps it on a REST
server, through a small client that maps plants to the server's snake_case
records.

This project models that core and proves properties about it:

| module | file | models |
|---|---|---|
| `Wrappers` | wrappers.dfy | `Option` and `Result` |
| `Text` | text.dfy | the JavaScript string operations the core relies on: `trim`, `String(n)` / `toString()` for integers, and `parseInt(s, 10)` as a prefix parser |
| `PlantModel` | plant_model.dfy | the plant record and the partial records passed between layers |
| `PlantStatus` | plant_status.dfy | `formatTimeRemaining` and `getPlantStatus` |
| `PlantList` | plant_list.dfy | the list algebra: append, edit, water, delete, splice-and-renumber, and sort by order |
| `LocalPlants` | local_plants.dfy | the on-device list manager as a class |
| `PlantsApi` | plants_api.dfy | `toClientPlant`, `toServerPlant`, and the ok-or-fail rule of each server call |
| `RemotePlants` | remote_plants.dfy | the server-backed list manager as pure transitions, plus a class proved to perform them |
| `AddPlantDialog` | add_plant_dialog.dfy | the add/edit form: validation, reset and the error-clearing handlers |
| `WebDragAndDrop` | web_drag_and_drop.dfy | the web drag state machine and the reorder a drop issues |
| `WebSortableList` | web_sortable_list.dfy | the id-based sortable list: active id, id-to-index lookup, the reorder a drag end issues |

Some parts of the app are passed in as parameters rather than modelled:
- Time is an integer count of milliseconds, and the current instant `now` is a parameter.
- Date parsing and ISO date formatting are function parameters.
- The server is given by what it answers. `RemotePlants.Adapter` gives each call's `Result`, and `PlantsApi.Response` gives an `ok` flag and the decoded data.

Both list managers add a plant as the code does: its order is the list's length. The corrected order of the second "## Findings" row (`PlantList.NextOrder`, `PlantList.AddPlantEntry`) is proved beside it but not used by the managers. Both managers use the corrected reorder of the first "## Findings" row, in which a `from` that names no plant moves nothing.

Two behaviours of the code that a reader might not expect are modelled as written:
- Deleting a plant does not renumber the remaining orders, so gaps can appear.
- A failed load of the server list keeps the list shown before. It does not empty it.

## Model

| member | source | states |
|---|---|---|
| PlantStatus.FormatTimeRemaining | assets/src/utils/plantStatus.ts:6-23 | the text is "Less than 1 hour" exactly when the duration is under one hour |
| PlantStatus.FormatWholeHours | assets/src/utils/plantStatus.ts:7-23 | the text for whole hours is "Less than 1 hour" exactly when there are none |
| PlantStatus.GetPlantStatus | assets/src/utils/plantStatus.ts:25-52 | overdue exactly when the time to the next watering is negative; due soon exactly when it is in [0, 1 day]; healthy exactly when it is over a day; the label matches the kind; the countdown formats the absolute remaining time, so it never receives a negative duration |
| PlantStatus.StatusLabelDeterminesKind | assets/src/utils/plantStatus.ts:32-50 | "Overdue", "Due Soon" and "Healthy" correspond one-to-one with the three kinds |
| PlantStatus.StatusMonotoneInTime | assets/src/utils/plantStatus.ts:27-45 | as `now` grows a plant only moves from healthy towards overdue, never back |
| PlantStatus.DaysOfHours | assets/src/utils/plantStatus.ts:7-8 | counting whole hours and then whole days of them equals counting whole days of milliseconds |
| PlantStatus.FormatDays | assets/src/utils/plantStatus.ts:11-15 | from one day up the text is "D day(s), H hour(s)" with D = ms div 86400000 and H = (ms div 3600000) mod 24 in [0, 23] |
| PlantStatus.FormatHours | assets/src/utils/plantStatus.ts:17-20 | between one hour and one day the text is "H hour(s)" with H in [1, 23] |
| PlantStatus.FormatUnderAnHour | assets/src/utils/plantStatus.ts:22 | under an hour the text is "Less than 1 hour" |
| PlantStatus.Pluralisation | assets/src/utils/plantStatus.ts:12-18 | each unit word is singular exactly when its own count is 1 |
| PlantStatus.FormatExamples | assets/src/utils/plantStatus.ts:6-23 | 0 ms, 1 h, 25 h and 48 h read "Less than 1 hour", "1 hour", "1 day, 1 hour", "2 days, 0 hours" |
| PlantStatus.ReadFormattedCountdown | assets/src/utils/plantStatus.ts:6-23 | the countdown text can be read back to the duration's whole hours |
| PlantStatus.ReadWholeHours | assets/src/utils/plantStatus.ts:6-23 | the text for any number of whole hours reads back as that number |
| PlantStatus.FormatDeterminesHours | assets/src/utils/plantStatus.ts:6-23 | two durations get the same text exactly when they have the same number of whole hours |
| Text.Trim | assets/src/components/AddPlantDialog.tsx:40 | `trim` never lengthens its input, and a non-empty result starts and ends with a non-whitespace character |
| Text.TrimEmptyIff | assets/src/components/AddPlantDialog.tsx:40 | a name trims to empty exactly when it is all whitespace; a non-empty trimmed name has no whitespace at either end |
| Text.TrimStartDropsWhitespace | assets/src/components/AddPlantDialog.tsx:40 | the start of `trim` leaves a suffix that does not start with whitespace and drops only whitespace |
| Text.TrimEndDropsWhitespace | assets/src/components/AddPlantDialog.tsx:40 | the end of `trim` leaves a prefix that does not end with whitespace and drops only whitespace |
| Text.ParseInt | assets/src/components/AddPlantDialog.tsx:47 | `parseInt` yields a number only if, after the whitespace, the text starts with a digit or a sign; it always yields a non-negative number when it starts with a digit |
| Text.IntToDecimal | assets/src/hooks/useWebDragAndDrop.ts:35 | `String(n)` is never empty and starts with '-' exactly for a negative number |
| Text.ParseIntStopsAtNonDigit | assets/src/components/AddPlantDialog.tsx:47 | `parseInt` of a run of digits followed by anything that is not a digit is the value of the digits |
| Text.ParseIntOfDecimal | assets/src/components/AddPlantDialog.tsx:28-47 | `parseInt` reads back every integer that `toString` printed |
| PlantList.NextOrder | src/hooks/usePlants.ts:33 | corrected order (Findings): at least the list length, and above every order of an Ascending list |
| PlantList.NextOrderIsLength | src/hooks/usePlants.ts:33 | when the orders are 0..n-1 the corrected order is the list length, as the app computes it |
| PlantList.AddAsWritten | src/hooks/usePlants.ts:27-38 | the app's add: exactly one plant is appended, with the given name and interval, watered now, id `String(now)` and order equal to the old length; the plants before it are unchanged |
| PlantList.AddAsWrittenKeepsIndices | src/hooks/usePlants.ts:27-38 | on a list numbered 0..n-1 the app's add keeps the orders 0..n, so the list stays Ascending |
| PlantList.AddAsWrittenAgrees | src/hooks/usePlants.ts:27-38 | on a list numbered 0..n-1 the app's add and the corrected add give the same list |
| PlantList.AddPlantEntry | src/hooks/usePlants.ts:27-38 | corrected add (Findings): the new plant's order is `NextOrder`; otherwise as the app's add, it appends exactly one plant with the given name and interval, watered now, id `String(now)`; the plants before it are unchanged |
| PlantList.AddKeepsAscending | src/hooks/usePlants.ts:27-38 | corrected add only: adding to an Ascending list keeps it Ascending (the app's add does not, see `AddAsWrittenReloadsOutOfOrder`) |
| PlantList.AddThenRemove | src/hooks/usePlants.ts:27-59 | after the app's add, deleting the new plant by its fresh id gives back the list before the add |
| PlantList.Merge | src/hooks/usePlants.ts:46-47 | `{ ...plant, ...updates }`: a name or interval present in the edit replaces the plant's; id, watering time and order are kept |
| PlantList.UpdateById | src/hooks/usePlants.ts:40-52 | only plants with the id change, and only in the edited name and interval; the length is kept |
| PlantList.WaterById | src/hooks/usePlants.ts:61-67 | only plants with the id change, and only their last-watered time, which becomes now |
| PlantList.ReplaceById | assets/src/hooks/usePlants.ts:62-66 | plants with the id become the server's record; every other plant is unchanged |
| PlantList.UnknownIdUnchanged | src/hooks/usePlants.ts:40-67 | editing, watering or replacing an id not in the list leaves it unchanged |
| PlantList.EditsKeepInvariants | src/hooks/usePlants.ts:40-67 | editing and watering keep ids and orders, so they keep the list in order and its ids unique |
| PlantList.UpdateIdempotent | src/hooks/usePlants.ts:40-52 | applying an edit twice equals applying it once |
| PlantList.RemoveById | src/hooks/usePlants.ts:54-59 | the filter never lengthens the list, and no remaining plant has the deleted id |
| PlantList.RemoveMembership | src/hooks/usePlants.ts:54-59 | a plant remains exactly when it was in the list and has another id |
| PlantList.RemoveDistributes | src/hooks/usePlants.ts:54-59 | deleting works piecewise over concatenation, so the remaining plants keep their relative order |
| PlantList.RemoveAbsent | src/hooks/usePlants.ts:54-59 | deleting an absent id changes nothing |
| PlantList.RemoveUnique | src/hooks/usePlants.ts:54-59 | with unique ids, deleting the id of the plant at k removes exactly position k |
| PlantList.RemoveIdempotent | src/hooks/usePlants.ts:54-59 | deleting twice equals deleting once |
| PlantList.RemoveKeepsAscending | src/hooks/usePlants.ts:54-59 | deleting keeps a list in order |
| PlantList.RemoveKeepsUniqueIds | src/hooks/usePlants.ts:54-59 | deleting keeps ids unique |
| PlantList.SpliceIndex | src/hooks/usePlants.ts:72-73 | the splice start is clamped into [0, length] and is unchanged when already inside |
| PlantList.Move | src/hooks/usePlants.ts:71-73 | the plant taken from k sits at the splice index of `to` in the shortened list; the length is kept |
| PlantList.MoveKeepsOthersInOrder | src/hooks/usePlants.ts:71-73 | removing the moved plant again gives the list without it, with everything else in its old order |
| PlantList.MovePermutes | src/hooks/usePlants.ts:71-73 | a move is a permutation |
| PlantList.Renumber | src/hooks/usePlants.ts:74 | every plant keeps its fields and gets its index as its order |
| PlantList.Reorder | src/hooks/usePlants.ts:69-76 | the corrected reorder of the first "## Findings" row: the orders are exactly 0..n-1 and the length is kept; it equals the code's reorder whenever `from` names a plant (`PlantList.ReorderAsWrittenAgrees`) |
| PlantList.ReorderPermutes | src/hooks/usePlants.ts:69-76 | apart from orders, a reorder is a permutation, and the plant at `from` ends at index `to` |
| PlantList.ReorderKeepsUniqueIds | src/hooks/usePlants.ts:69-76 | a reorder keeps ids unique |
| PlantList.ReorderSameIndex | src/hooks/usePlants.ts:71-74 | `from == to` only renumbers, and changes nothing when the orders are already 0..n-1 |
| PlantList.MoveExample | src/hooks/usePlants.ts:71-73 | [A, B, C, D] with A moved from 0 to 2 is [B, C, A, D] |
| PlantList.ReorderExample | src/hooks/usePlants.ts:69-76 | the same move, then renumbered 0..3 |
| PlantList.ReorderAsWritten | src/hooks/usePlants.ts:69-76 | the code's reorder: the list grows by one exactly when `from` names no plant, and every element's order is its index |
| PlantList.ReorderAsWrittenAgrees | src/hooks/usePlants.ts:71-74 | when `from` names a plant, the code as written and the corrected reorder give the same list |
| PlantList.ReorderAsWrittenInsertsPhantom | src/hooks/usePlants.ts:71-74 | when `from` names no plant, the code as written inserts a record holding only an order |
| PlantList.InsertByOrder | src/hooks/usePlants.ts:15 | inserting adds exactly the one plant to the multiset |
| PlantList.InsertKeepsAscending | src/hooks/usePlants.ts:15 | inserting into a list sorted by order keeps it sorted |
| PlantList.SortByOrder | src/hooks/usePlants.ts:13-18 | the loaded list is sorted by order and is a permutation of the stored one |
| PlantList.SortOfAscending | src/hooks/usePlants.ts:13-18 | sorting a list already in order leaves it unchanged, so a reload shows the same list |
| PlantList.AddAsWrittenReloadsOutOfOrder | src/hooks/usePlants.ts:27-38 | with the order taken as the list length, a plant added after deletes is sorted before an older plant on reload |
| LocalPlants.LocalPlantStore.constructor | src/hooks/usePlants.ts:10-11 | the store starts empty and loading |
| LocalPlants.LocalPlantStore.LoadStored | src/hooks/usePlants.ts:13-18 | the stored list is sorted by order and loading ends |
| LocalPlants.LocalPlantStore.AddPlant | src/hooks/usePlants.ts:27-38 | the list becomes `AddAsWritten` of the old list: the draft appended at `now` with the old length as its order |
| LocalPlants.LocalPlantStore.UpdatePlant | src/hooks/usePlants.ts:40-52 | the list becomes the edit applied to the id |
| LocalPlants.LocalPlantStore.DeletePlant | src/hooks/usePlants.ts:54-59 | the list loses the id whatever happened to the reminders |
| LocalPlants.LocalPlantStore.WaterPlant | src/hooks/usePlants.ts:61-67 | the plant with the id is watered at `now` |
| LocalPlants.LocalPlantStore.ReorderPlants | src/hooks/usePlants.ts:69-76 | the copied list is spliced out at `from`, in at `to`, then renumbered: it equals the reorder of the old list |
| PlantsApi.ToClientPlant | assets/src/services/api.ts:25-33 | id, name and order are copied; the interval is renamed; a null or empty watering time becomes `now`, any other is parsed |
| PlantsApi.WireFields | assets/src/services/api.ts:35-52 | a key is in the body exactly when its field is defined, and only the four known keys can occur |
| PlantsApi.ToServerPlant | assets/src/services/api.ts:35-52 | the body built one field at a time equals the key-by-key body |
| PlantsApi.WireKeysFollowPatch | assets/src/services/api.ts:38-49 | name and order keep their keys; the interval and watering time are renamed to snake_case; the time is formatted; the id is never sent |
| PlantsApi.EmptyPatchSendsNothing | assets/src/services/api.ts:35-52 | an empty partial plant yields an empty body |
| PlantsApi.OrderPatchSendsOnlyOrder | assets/src/services/api.ts:73-77 | a reorder's update sends only `order` |
| PlantsApi.EditPatchSendsOnlyEdit | assets/src/services/api.ts:73-77 | an edit's update sends only the edited name and interval |
| PlantsApi.FullRoundTrip | assets/src/services/api.ts:25-52 | for a server that stores exactly the fields it is sent (`Stored`), a plant sent with all its fields and read back is unchanged, given a date format that parses back |
| PlantsApi.CreateRoundTrip | assets/src/services/api.ts:62-71 | for a server that stores exactly the fields it is sent (`Stored`), a created plant reads back with the requested name, interval and order, watered now |
| PlantsApi.Checked | assets/src/services/api.ts:57-95 | a call fails with its own message exactly when the response is not ok, and otherwise yields its data |
| PlantsApi.ListResult | assets/src/services/api.ts:55-60 | `list` fails exactly when not ok, otherwise converts every record in order |
| PlantsApi.CreateResult | assets/src/services/api.ts:62-71 | `create` fails with 'Failed to create plant' exactly when the response is not ok, otherwise returns the one record converted |
| PlantsApi.UpdateResult | assets/src/services/api.ts:73-82 | `update` fails with 'Failed to update plant' exactly when the response is not ok, otherwise returns the one record converted |
| PlantsApi.WaterResult | assets/src/services/api.ts:91-98 | `water` fails with 'Failed to water plant' exactly when the response is not ok, otherwise returns the one record converted |
| PlantsApi.PlantResult | assets/src/services/api.ts:62-98 | `create`, `update` and `water` fail exactly when not ok, otherwise convert the one record |
| PlantsApi.DeleteResult | assets/src/services/api.ts:84-89 | `delete` fails exactly when not ok |
| RemotePlants.Load | assets/src/hooks/usePlants.ts:14-25 | a successful load shows the listed plants sorted by order with no error; a failed one keeps the list and sets "Failed to load plants"; loading ends either way |
| RemotePlants.CreateRequest | assets/src/hooks/usePlants.ts:41-44 | the create request carries the draft's name and interval and the list's length as its order |
| RemotePlants.Add | assets/src/hooks/usePlants.ts:37-52 | success appends the server's record and clears the error; failure keeps the list and sets "Failed to add plant" |
| RemotePlants.Replace | assets/src/hooks/usePlants.ts:54-73 | success puts the server's record in place of the id and clears the error; failure keeps the list and sets the call's message (update and water) |
| RemotePlants.Delete | assets/src/hooks/usePlants.ts:75-87 | success removes the id and clears the error; failure keeps the list and sets "Failed to delete plant" |
| RemotePlants.DeleteOnlyAfterServer | assets/src/hooks/usePlants.ts:75-87 | a listed plant is gone after a delete exactly when the server deleted it |
| RemotePlants.CreateRequestMatchesLocalAdd | assets/src/hooks/usePlants.ts:41-44 | the server-backed add requests the same name, interval and order as the on-device add appends |
| RemotePlants.AddedPlantStaysLast | assets/src/hooks/usePlants.ts:37-52 | on a list numbered 0..n-1, if the server keeps the requested order, the orders stay 0..n and the added plant stays after the others on the next load |
| RemotePlants.AddedPlantCanSortFirst | assets/src/hooks/usePlants.ts:37-52 | after deletes the requested length can fall below an existing order: with one plant of order 3 left, a reload sorts the new plant before it |
| RemotePlants.ReorderOutcome | assets/src/hooks/usePlants.ts:104-125 | after a reorder the list shown is the reordered list or the server's list sorted by order; the error is unchanged, cleared or "Failed to load plants" |
| RemotePlants.ReorderPersisted | assets/src/hooks/usePlants.ts:104-120 | when every order update succeeds, the reordered list, numbered 0..n-1, stands and the error is untouched |
| RemotePlants.ReorderNotPersisted | assets/src/hooks/usePlants.ts:115-124 | when an order update fails, the list is loaded again; if that load fails, the reordered list stays with the load error |
| RemotePlants.RemotePlantStore.constructor | assets/src/hooks/usePlants.ts:10-12 | the store starts empty, loading, with no error |
| RemotePlants.RemotePlantStore.LoadPlants | assets/src/hooks/usePlants.ts:14-25 | clears the error, then performs `Load` with the server's answer |
| RemotePlants.RemotePlantStore.AddPlant | assets/src/hooks/usePlants.ts:37-52 | clears the error, sends the create request, then performs `Add` with the answer |
| RemotePlants.RemotePlantStore.UpdatePlant | assets/src/hooks/usePlants.ts:54-73 | clears the error, sends the edit, then performs `Replace` with the answer |
| RemotePlants.RemotePlantStore.DeletePlant | assets/src/hooks/usePlants.ts:75-87 | clears the error, asks the server to delete, then performs `Delete` with the answer |
| RemotePlants.RemotePlantStore.WaterPlant | assets/src/hooks/usePlants.ts:89-102 | clears the error, asks the server to water, then performs `Replace` with the answer |
| RemotePlants.RemotePlantStore.ReorderPlants | assets/src/hooks/usePlants.ts:104-125 | shows the reordered list, sends every plant's order in a loop, and reloads exactly when one failed |
| AddPlantDialog.IntervalError | assets/src/components/AddPlantDialog.tsx:46-56 | no interval error exactly when the text parses to a value in [1, 365]; "cannot exceed" exactly when it parses above 365; otherwise "at least 1 day" |
| AddPlantDialog.Validate | assets/src/components/AddPlantDialog.tsx:37-64 | the name error is set exactly for an all-whitespace name; a draft is saved exactly when neither check fails, with the trimmed non-empty name and the parsed interval in [1, 365] |
| AddPlantDialog.EditRoundTrip | assets/src/components/AddPlantDialog.tsx:25-64 | a form pre-filled from a valid plant saves its trimmed name and its interval unchanged |
| AddPlantDialog.BothErrorsAtOnce | assets/src/components/AddPlantDialog.tsx:37-58 | one save can set both error messages |
| AddPlantDialog.TrailingTextIgnored | assets/src/components/AddPlantDialog.tsx:47-48 | an interval field holding the digits of n in [1, 365] followed by anything that is not a digit ("7 days", "7.5") saves n, as `parseInt` reads it |
| AddPlantDialog.PlantForm.constructor | assets/src/components/AddPlantDialog.tsx:20-23 | the form starts with an empty name, interval "7" and no errors |
| AddPlantDialog.PlantForm.Reset | assets/src/components/AddPlantDialog.tsx:25-35 | an edited plant pre-fills name and interval text; otherwise "" and "7"; both errors cleared |
| AddPlantDialog.PlantForm.HandleSave | assets/src/components/AddPlantDialog.tsx:37-64 | both messages and the returned draft are those of `Validate` on the current fields |
| AddPlantDialog.PlantForm.HandleNameChange | assets/src/components/AddPlantDialog.tsx:66-69 | sets the name and clears only the name error |
| AddPlantDialog.PlantForm.HandleIntervalChange | assets/src/components/AddPlantDialog.tsx:71-74 | sets the interval text and clears only the interval error |
| WebDragAndDrop.DropRequest | assets/src/hooks/useWebDragAndDrop.ts:67-73 | a reorder is issued exactly when the payload parses and differs from the drop index, from that number to the drop index |
| WebDragAndDrop.DropOfOwnDrag | assets/src/hooks/useWebDragAndDrop.ts:33-73 | a drop of the payload a drag start wrote reorders exactly when the drop index differs |
| WebDragAndDrop.DropMovesDraggedPlant | assets/src/hooks/useWebDragAndDrop.ts:67-73 | the dragged plant ends up at the drop index |
| WebDragAndDrop.DragAndDrop.constructor | assets/src/hooks/useWebDragAndDrop.ts:27-31 | the state starts idle |
| WebDragAndDrop.DragAndDrop.HandleDragStart | assets/src/hooks/useWebDragAndDrop.ts:33-41 | dragging from the index, no drop target, the payload is the index in decimal |
| WebDragAndDrop.DragAndDrop.HandleDragEnd | assets/src/hooks/useWebDragAndDrop.ts:43-49 | back to idle |
| WebDragAndDrop.DragAndDrop.HandleDragOver | assets/src/hooks/useWebDragAndDrop.ts:51-58 | only the drop index changes, to the index |
| WebDragAndDrop.DragAndDrop.HandleDragLeave | assets/src/hooks/useWebDragAndDrop.ts:60-65 | only the drop index changes, to none |
| WebDragAndDrop.DragAndDrop.HandleDrop | assets/src/hooks/useWebDragAndDrop.ts:67-80 | returns the drop's reorder request and always ends idle |
| WebSortableList.FindIndex | assets/src/components/WebSortablePlantList.tsx:105-106 | the first index holding the id, or -1 exactly when the id is absent |
| WebSortableList.Find | assets/src/components/WebSortablePlantList.tsx:111 | the first plant with the id, present exactly when the id is listed |
| WebSortableList.ActivePlant | assets/src/components/WebSortablePlantList.tsx:111 | none without an active id; otherwise the first plant with that id, if any |
| WebSortableList.DragEndRequest | assets/src/components/WebSortablePlantList.tsx:100-108 | a reorder exactly when there is a target other than the dragged card, from and to being their first indices |
| WebSortableList.DragEndMovesActiveToOver | assets/src/components/WebSortablePlantList.tsx:100-108 | the dragged plant ends up at the target's index |
| WebSortableList.MissingActiveMovesLastPlant | assets/src/components/WebSortablePlantList.tsx:105-107 | a dragged id missing from the list reads as -1, and the splice then moves the last plant |
| WebSortableList.SortableList.constructor | assets/src/components/WebSortablePlantList.tsx:77 | no active id at first |
| WebSortableList.SortableList.HandleDragStart | assets/src/components/WebSortablePlantList.tsx:96-98 | records the dragged id as active |
| WebSortableList.SortableList.HandleDragEnd | assets/src/components/WebSortablePlantList.tsx:100-109 | always clears the active id and returns the drag end's reorder request |

## Left out

- PlantsApi.CreateRoundTrip: holds for a server that stores exactly the fields it is sent (`PlantsApi.Stored`); the server's own code is not part of this model, so a server that alters fields is not covered. `PlantsApi.FullRoundTrip` rests on the same assumption.
- HTTP transport, URLs, JSON encoding and `getApiUrl` are not modelled. Each call is modelled by its response (`PlantsApi.Response`) or its outcome (`RemotePlants.Adapter`).
- Date parsing (`new Date(s).getTime()`) and ISO formatting (`toISOString`) are function parameters. An unparsable date, which gives NaN, is not modelled.
- `Date.now()` is a parameter. The on-device add reads the clock twice, once for the id and once for the watering time. The model uses one instant for both.
- The reorder persists through `Promise.all`. Its requests are modelled as issued one after another, and the batch fails when any request fails. Timing and interleaving are not modelled.
- The remote reorder's reload runs without being awaited. The model runs it to completion inside the reorder.
- Local storage persistence (src/utils/storage.ts) and the effects that save the list and reschedule reminders after every change are not part of this model. They are writes to platform stores.
- Reminder scheduling and cancelling (src/utils/notifications.ts, assets/src/hooks/useNotifications.ts) are platform calls and are not modelled. Their failures are swallowed, so they cannot affect the list.
- Numbers are modelled as integers. Fractional intervals or times are not modelled. For a whole, non-negative number of milliseconds, the floors `formatTimeRemaining` applies to its floating-point quotients give the integer quotients the model uses.
- Text.ParseInt: reads decimal digits only. It does not model JavaScript's handling of numbers beyond 2^53.
- PlantList.SortByOrder: stability is shown only through its insertion order and through `SortOfAscending`. A general stability theorem for lists with equal orders is not stated.
- Console logging, all rendering, styling, dialog titles and card labels are not modelled.
- Reminder scheduling treats a time equal to `now` as already past. Status uses a strict `< 0`. That difference is not modelled, because scheduling is left out.
- AddedPlantStaysLast: proved only for lists numbered 0..n-1 and a server that keeps the requested order. After deletes the requested order (the length) can fall below an existing one, and `RemotePlants.AddedPlantCanSortFirst` shows that a reload then sorts the new plant first.
- AddKeepsAscending: holds of the corrected add only. The app's add keeps the list Ascending only while the orders are 0..n-1 (`PlantList.AddAsWrittenKeepsIndices`). After deletes it can break it (`PlantList.AddAsWrittenReloadsOutOfOrder`).
- LocalPlants.LocalPlantStore.ReorderPlants: a `from` past the end of the list moves nothing. The code instead inserts an order-only record, shown by `PlantList.ReorderAsWritten` under "## Findings".
- RemotePlants.RemotePlantStore.ReorderPlants: a `from` past the end of the list moves nothing before the orders are sent. The code instead inserts an order-only record and sends its order under an undefined id (assets/src/hooks/usePlants.ts:105-111). See "## Findings".
- PlantsApi.ListResult: uses one `now` for every listed record. The code reads `Date.now()` separately for each record that has no watering time, so those records can differ by the milliseconds between the reads.

## Findings

| source | as written | input that shows it | evidently intended | confidence | as-written member | corrected member |
|---|---|---|---|---|---|---|
| src/hooks/usePlants.ts:71-74 | `splice(from, 1)` on an index past the end removes nothing, `undefined` is inserted at `to`, and `{ ...undefined, order }` becomes a record with no id, name or interval (the server-backed list does the same at assets/src/hooks/usePlants.ts:105-111) | a one-plant list and `{ from: 1, to: 0 }` gives `[{order: 0}, {...plant, order: 1}]` | a `from` that names no plant moves nothing | medium, not executed | PlantList.ReorderAsWritten, PlantList.ReorderAsWrittenInsertsPhantom | PlantList.Reorder |
| src/hooks/usePlants.ts:33 | a new plant's order is the list length (also at assets/src/hooks/usePlants.ts:43), but deletes do not renumber, so the length can be below an existing order | [A0, B1, C2, D3], delete A, B and C, then add E: E gets order 1 and D keeps 3, so a reload sorts E before D | a new plant is ordered after every existing plant | high, not executed | PlantList.AddAsWritten, PlantList.AddAsWrittenReloadsOutOfOrder, RemotePlants.AddedPlantCanSortFirst | PlantList.AddPlantEntry, PlantList.NextOrder |
