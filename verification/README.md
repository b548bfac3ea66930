# TaskFlow state layer in Dafny

TaskFlow is a single-page project-management application. All of its behaviour lives
in the browser. This project models the core of that behaviour:

- **The two stores.** The app store holds projects, tasks, team members, notifications
  and the colour theme. The auth store holds the signed-in user and the demo
  credential table. Each store action replaces one or two collections with a `filter`,
  a `map`, a prepend or an append.
- **The id generator.** A process-wide counter is joined with a clock reading and a
  random suffix.
- **The demo seeding.** On first sign-in the store is seeded with demo data.
- **Indian-style number grouping.** Numbers are written with lakh and crore groups,
  for example `12,34,56,789`. The currency formatter picks its crore, lakh or plain
  branch by threshold.
- **The kanban board.** Six fixed status lanes partition a project's tasks. A
  drag-and-drop rule decides when a task moves.
- **The task detail dialog.** It holds a subtask checklist with progress counts, and a
  comment box that ignores blank input.

Modules:

- `Types`: the entities as datatypes.
- `Decimal`: `Number.prototype.toString` for integers below 2^53.
- `Ids`: `generateUniqueId` and its counter.
- `StoreOps`: the new collections each action computes.
- `AppState`: the app store class.
- `AuthState`: the auth store class.
- `MockData`: `initializeMockData`.
- `Currency`: `formatIndianNumber` and `formatIndianCurrency`.
- `Kanban`: the board.
- `TaskDetail`: the dialog.

The store classes keep each collection as a `seq` field, and each action reassigns that
field. Each action's `ensures` ties the new field to a function of the old one. The
lemmas beside those functions prove what the application relies on: order is kept,
only the matching id changes, the id counter only grows, the lanes partition the
tasks, and commas round-trip.

## Model

| member | source | states |
|---|---|---|
| Types.StatusName | Project_Task_Management_System_Final/src/app/components/kanban-board.tsx:19-26 | every status has a non-empty string name, and that name identifies its kanban lane |
| Decimal.NatToDecimal | Project_Task_Management_System_Final/src/utils/currency.ts:12 | `toString` of a natural number is a non-empty digit string with no leading zero |
| Decimal.IntToDecimal | Project_Task_Management_System_Final/src/utils/currency.ts:12 | `toString` of a negative integer is a minus sign followed by the digits of its magnitude |
| Decimal.DecimalRoundTrip | Project_Task_Management_System_Final/src/utils/currency.ts:12 | reading the printed digits back gives the number |
| Decimal.NatToDecimalInjective | Project_Task_Management_System_Final/src/store/index.ts:7 | different clock or counter values print differently |
| Ids.UniqueIdInjective | Project_Task_Management_System_Final/src/store/index.ts:7 | an id `<now>-<counter>-<suffix>` determines its clock reading, its counter and its suffix |
| Ids.NoDashInDecimal | Project_Task_Management_System_Final/src/store/index.ts:7 | the printed clock and counter contain no dash, so the dashes in an id separate its parts |
| Ids.SplitAtFirstDash | Project_Task_Management_System_Final/src/store/index.ts:7 | two dash-separated strings with dash-free heads are equal only if their heads and tails are |
| Ids.IdGenerator.constructor | Project_Task_Management_System_Final/src/store/index.ts:6 | the counter starts at 0 and no id has been issued |
| Ids.IdGenerator.Next | Project_Task_Management_System_Final/src/store/index.ts:7 | the counter goes up by one, and the id built from it was never issued before |
| StoreOps.FilterAppend | Project_Task_Management_System_Final/src/store/index.ts:335-340 | filtering a concatenation is the concatenation of the filtered parts, so order is kept |
| StoreOps.FilterMultiset | Project_Task_Management_System_Final/src/store/index.ts:335-340 | a filter keeps every copy of the elements it accepts and drops every copy of the others |
| StoreOps.FilterMembers | Project_Task_Management_System_Final/src/store/index.ts:335-340 | an element is in the filtered list iff it was in the list and passes the test |
| StoreOps.ProjectsWithout | Project_Task_Management_System_Final/src/store/index.ts:337 | exactly the projects with a different id remain, each as often as before |
| StoreOps.TasksOutside | Project_Task_Management_System_Final/src/store/index.ts:338 | exactly the tasks of other projects remain, each as often as before |
| StoreOps.DeleteProjectKeepsOrder | Project_Task_Management_System_Final/src/store/index.ts:335-340 | the projects and tasks that survive a delete stay in their original order |
| StoreOps.DeleteProjectKeepsReferences | Project_Task_Management_System_Final/src/store/index.ts:335-340 | if every task belonged to a project before the cascade delete, every remaining task belongs to a remaining project |
| StoreOps.TasksWithout | Project_Task_Management_System_Final/src/store/index.ts:361-365 | exactly the tasks with a different id remain, each as often as before |
| StoreOps.MembersWithout | Project_Task_Management_System_Final/src/store/index.ts:394-398 | exactly the members with a different id remain, each as often as before |
| StoreOps.PatchProject | Project_Task_Management_System_Final/src/store/index.ts:330 | `{ ...project, ...updates }`: each field the patch sets takes the patch's value, each field it leaves out keeps the project's, and `updatedAt` is the new time |
| StoreOps.PatchProjectLaws | Project_Task_Management_System_Final/src/store/index.ts:330 | an empty patch changes only `updatedAt`, and the same patch applied twice equals it applied once |
| StoreOps.PatchTask | Project_Task_Management_System_Final/src/store/index.ts:356 | `{ ...task, ...updates }`: each field the patch sets takes the patch's value, each field it leaves out keeps the task's, and `updatedAt` is the new time |
| StoreOps.PatchTaskLaws | Project_Task_Management_System_Final/src/store/index.ts:356 | an empty patch changes only `updatedAt`, and the same patch applied twice equals it applied once |
| StoreOps.PatchMember | Project_Task_Management_System_Final/src/store/index.ts:389 | `{ ...member, ...updates }`: each field the patch sets takes the patch's value and each field it leaves out keeps the member's |
| StoreOps.PatchMemberLaws | Project_Task_Management_System_Final/src/store/index.ts:389 | an empty patch leaves a member as it was, and the same patch applied twice equals it applied once |
| StoreOps.WithProjectUpdated | Project_Task_Management_System_Final/src/store/index.ts:327-333 | the length is kept; only projects with the id are patched, and every other project is unchanged |
| StoreOps.WithTaskUpdated | Project_Task_Management_System_Final/src/store/index.ts:353-359 | the task count is kept; only tasks with the id are patched, and every other task is unchanged |
| StoreOps.WithTaskMoved | Project_Task_Management_System_Final/src/store/index.ts:367-373 | the matching task takes the new status from any status and a new `updatedAt`; all its other fields and all other tasks are unchanged |
| StoreOps.MoveIsStatusUpdate | Project_Task_Management_System_Final/src/store/index.ts:367-373 | moving a task is the same as updating it with a status-only patch |
| StoreOps.MoveKeepsReferences | Project_Task_Management_System_Final/src/store/index.ts:367-373 | moving a task keeps every task attached to an existing project |
| StoreOps.WithMemberUpdated | Project_Task_Management_System_Final/src/store/index.ts:386-392 | the length is kept; only members with the id are patched |
| StoreOps.WithNotificationRead | Project_Task_Management_System_Final/src/store/index.ts:412-418 | the length is kept; only notifications with the id become read, with nothing else changed |
| StoreOps.AllRead | Project_Task_Management_System_Final/src/store/index.ts:420-424 | every notification becomes read and nothing else about it changes; length and order are kept |
| StoreOps.AllReadIdempotent | Project_Task_Management_System_Final/src/store/index.ts:420-424 | marking everything read twice is the same as once |
| StoreOps.MarkEachAt | Project_Task_Management_System_Final/src/store/index.ts:412-418 | marking a list of ids one by one marks exactly the notifications whose id is in the list |
| StoreOps.AllReadIsMarkEach | Project_Task_Management_System_Final/src/store/index.ts:412-424 | mark-all-read equals marking each notification's own id in turn |
| StoreOps.NewProject | Project_Task_Management_System_Final/src/store/index.ts:317-325 | every field of the draft comes back out of the new project unchanged; the id is the issued one and both timestamps are the time |
| StoreOps.NewTask | Project_Task_Management_System_Final/src/store/index.ts:343-351 | every field of the draft comes back out of the new task unchanged; the id is `<projectId>-<now>` and both timestamps are the time |
| StoreOps.TaskIdFor | Project_Task_Management_System_Final/src/store/index.ts:346 | the task id starts with the project id and a dash, followed only by digits |
| StoreOps.TaskIdForInjective | Project_Task_Management_System_Final/src/store/index.ts:346 | within one project, different clock readings give different task ids |
| StoreOps.NewMember | Project_Task_Management_System_Final/src/store/index.ts:376-384 | the draft's email, name, avatar and role come back out unchanged; the member is `pending`, joined now, under the issued id |
| StoreOps.NewNotification | Project_Task_Management_System_Final/src/store/index.ts:401-406 | every field of the draft comes back out of the new notification unchanged; the id is the issued one and it is stamped now |
| StoreOps.BuiltFromParts | Project_Task_Management_System_Final/src/store/index.ts:317-406 | a new record is determined by its draft, id and time: building from the parts of such a record gives the record back |
| StoreOps.Toggled | Project_Task_Management_System_Final/src/store/index.ts:427-429 | toggling always changes the theme |
| AppState.AppStore.constructor | Project_Task_Management_System_Final/src/store/index.ts:309-314 | all collections start empty and the theme starts dark |
| AppState.AppStore.AddProject | Project_Task_Management_System_Final/src/store/index.ts:317-325 | appends one project whose id was never issued before; the counter goes up by one |
| AppState.AppStore.UpdateProject | Project_Task_Management_System_Final/src/store/index.ts:327-333 | the projects become `WithProjectUpdated` of the old ones |
| AppState.AppStore.DeleteProject | Project_Task_Management_System_Final/src/store/index.ts:335-340 | removes the project and every task of it; the remaining tasks still reference existing projects |
| AppState.AppStore.AddTask | Project_Task_Management_System_Final/src/store/index.ts:343-351 | appends exactly the new task after the old tasks |
| AppState.AppStore.UpdateTask | Project_Task_Management_System_Final/src/store/index.ts:353-359 | the tasks become `WithTaskUpdated` of the old ones |
| AppState.AppStore.DeleteTask | Project_Task_Management_System_Final/src/store/index.ts:361-365 | the tasks become those with another id |
| AppState.AppStore.MoveTask | Project_Task_Management_System_Final/src/store/index.ts:367-373 | the tasks become `WithTaskMoved` of the old ones, and task-to-project references survive |
| AppState.AppStore.AddTeamMember | Project_Task_Management_System_Final/src/store/index.ts:376-384 | appends one `pending` member with a fresh id; the existing members are untouched |
| AppState.AppStore.UpdateTeamMember | Project_Task_Management_System_Final/src/store/index.ts:386-392 | the members become `WithMemberUpdated` of the old ones |
| AppState.AppStore.RemoveTeamMember | Project_Task_Management_System_Final/src/store/index.ts:394-398 | the members become those with another id |
| AppState.AppStore.AddNotification | Project_Task_Management_System_Final/src/store/index.ts:401-410 | the new notification is at index 0 with a fresh id; the old list follows it in order; the length grows by one |
| AppState.AppStore.MarkNotificationRead | Project_Task_Management_System_Final/src/store/index.ts:412-418 | the notifications become `WithNotificationRead` of the old ones |
| AppState.AppStore.MarkAllNotificationsRead | Project_Task_Management_System_Final/src/store/index.ts:420-424 | the notifications become `AllRead` of the old ones |
| AppState.AppStore.ToggleTheme | Project_Task_Management_System_Final/src/store/index.ts:427-429 | the theme flips between light and dark |
| AuthState.MockUsers | Project_Task_Management_System_Final/src/store/index.ts:52-86 | exactly the three demo e-mails are keys, and each account's user carries its own e-mail and the table's load time |
| AuthState.Authenticate | Project_Task_Management_System_Final/src/store/index.ts:97-98 | a user is found iff the email is a key of the table and the password equals the stored one; the found user is the stored user |
| AuthState.DemoAccounts | Project_Task_Management_System_Final/src/store/index.ts:52-86 | exactly the three demo email and password pairs sign in, and the admin pair yields an admin |
| AuthState.PatchUser | Project_Task_Management_System_Final/src/store/index.ts:127 | `{ ...user, ...updates }`: each field the patch sets takes the patch's value and each field it leaves out keeps the user's |
| AuthState.PatchUserLaws | Project_Task_Management_System_Final/src/store/index.ts:127 | an empty patch leaves the user as it was, and the same patch applied twice equals it applied once |
| AuthState.AuthStore.constructor | Project_Task_Management_System_Final/src/store/index.ts:52-92 | the store starts signed out, over the demo credential table |
| AuthState.AuthStore.Login | Project_Task_Management_System_Final/src/store/index.ts:94-103 | returns true and signs in the stored user iff the credentials match; otherwise returns false and the state is unchanged |
| AuthState.AuthStore.Signup | Project_Task_Management_System_Final/src/store/index.ts:105-119 | always succeeds and signs in a new user with a fresh id, the avatar seeded by the name, and role `member` by default |
| AuthState.AuthStore.Logout | Project_Task_Management_System_Final/src/store/index.ts:121-123 | there is no user and the store is not authenticated |
| AuthState.AuthStore.UpdateUser | Project_Task_Management_System_Final/src/store/index.ts:125-129 | the user is patched when signed in; with no user there is still none |
| MockData.MockProjects | Project_Task_Management_System_Final/src/store/index.ts:138-199 | four projects, each created by the user and having the user as a member |
| MockData.MockTasks | Project_Task_Management_System_Final/src/store/index.ts:201-304 | five tasks, each carrying the given project id |
| MockData.SeedTasks | Project_Task_Management_System_Final/src/store/index.ts:449-452 | the tasks gathered for the projects number five per project |
| MockData.SeedTasksShape | Project_Task_Management_System_Final/src/store/index.ts:449-452 | the seeded tasks are five per project, and the k-th block of five is the k-th project's tasks |
| MockData.SeedReferencesProjects | Project_Task_Management_System_Final/src/store/index.ts:443-452 | every seeded task belongs to a seeded project |
| MockData.GatherTasks | Project_Task_Management_System_Final/src/store/index.ts:447-452 | the `forEach`/`push` loop gathers the tasks of every project, project by project |
| MockData.Seed | Project_Task_Management_System_Final/src/store/index.ts:504-508 | sets the projects, the gathered tasks and the five initial team members |
| MockData.Notify | Project_Task_Management_System_Final/src/store/index.ts:511-525 | adds the assignment notice and then the deadline notice, so the deadline notice comes first; the counter goes up by two, and neither id was issued before nor are they equal |
| MockData.InitializeMockData | Project_Task_Management_System_Final/src/store/index.ts:438-527 | does nothing when projects exist; otherwise seeds four projects, five tasks each, the team and two notifications under two ids never issued before, and keeps the theme |
| Currency.JsSubstring | Project_Task_Management_System_Final/src/utils/currency.ts:13-14 | `String.prototype.substring` with its clamping of out-of-range and negative positions |
| Currency.RemoveCommasSpec | Project_Task_Management_System_Final/src/utils/currency.ts:17 | deleting commas leaves none, and returns a comma-free text as it was |
| Currency.RemoveCommasAppend | Project_Task_Management_System_Final/src/utils/currency.ts:17 | removing commas distributes over concatenation |
| Currency.DigitRunBounds | Project_Task_Management_System_Final/src/utils/currency.ts:17 | the digit run at a position is all digits and is followed by a non-digit or the end |
| Currency.LookaheadIsEvenRun | Project_Task_Management_System_Final/src/utils/currency.ts:17 | the lookahead `(?=(\d{2})+(?!\d))` holds at a position iff the digit run starting there has an even length of at least two |
| Currency.InsertPairCommas | Project_Task_Management_System_Final/src/utils/currency.ts:17 | the regex replacement adds only commas: with commas removed, its output equals its input with commas removed |
| Currency.CommasRemoved | Project_Task_Management_System_Final/src/utils/currency.ts:17 | the regex replacement only inserts commas: removing them gives back the text |
| Currency.FormatIndianText | Project_Task_Management_System_Final/src/utils/currency.ts:12-20 | a text of at most three characters is returned unchanged; a longer one ends with "," and its last three characters |
| Currency.FormatIndianNumber | Project_Task_Management_System_Final/src/utils/currency.ts:11-21 | as written: 0 to 999 print as `toString`; from 1000 on, the output ends with a comma and the last three digits |
| Currency.FormatRoundTrip | Project_Task_Management_System_Final/src/utils/currency.ts:12-20 | deleting every comma from the output gives back the comma-free input |
| Currency.FormatIndianNumberRoundTrip | Project_Task_Management_System_Final/src/utils/currency.ts:11-21 | deleting every comma gives back `num.toString()`, and for non-negative numbers its value is `num` |
| Currency.IndianGroupsShape | Project_Task_Management_System_Final/src/utils/currency.ts:17 | the reference grouping concatenates back to the digits; past three digits it has a final group of three, a leading group of one or two, and pairs in between |
| Currency.PairsConcat | Project_Task_Management_System_Final/src/utils/currency.ts:17 | the pairs of an even-length text concatenate back to it, each has two characters, and each is all digits when the text is |
| Currency.PairGroupsShape | Project_Task_Management_System_Final/src/utils/currency.ts:17 | the leading group and the pairs concatenate back to the digits |
| Currency.DigitsCommaAt | Project_Task_Management_System_Final/src/utils/currency.ts:17 | inside a digit string, the regex inserts a comma at an inner position iff an even number of digits follows it |
| Currency.TailCommas | Project_Task_Management_System_Final/src/utils/currency.ts:17 | from a pair boundary on, the replacement writes a comma before every pair |
| Currency.InsertIsJoin | Project_Task_Management_System_Final/src/utils/currency.ts:17 | the regex replacement on a digit string is its one- or two-digit leading group and its pairs, joined by commas |
| Currency.FormatIsIndianGroups | Project_Task_Management_System_Final/src/utils/currency.ts:11-21 | for a digit string the formatter's output equals the reference grouping joined by commas |
| Currency.JoinedGroups | Project_Task_Management_System_Final/src/utils/currency.ts:17 | joined digit groups start and end with a digit and have commas only between digits |
| Currency.NaturalCommas | Project_Task_Management_System_Final/src/utils/currency.ts:11-21 | for a non-negative number every comma in the output sits between two digits |
| Currency.SignThenComma | Project_Task_Management_System_Final/src/utils/currency.ts:14-17 | as written, -123 is formatted "-,123", with a comma that does not sit between digits |
| Currency.FormatIndianNumberSigned | Project_Task_Management_System_Final/src/utils/currency.ts:11-21 | the corrected formatter puts commas only between digits and round-trips to `num.toString()` for every integer |
| Currency.SignedAgreesOutsideThreeDigitNegatives | Project_Task_Management_System_Final/src/utils/currency.ts:11-21 | the corrected and the as-written formatter agree exactly except on -999 to -100 |
| Currency.FormatSplit | Project_Task_Management_System_Final/src/utils/currency.ts:13-17 | past three characters the output is the grouped front, a comma, and the last three characters |
| Currency.MinusPrefix | Project_Task_Management_System_Final/src/utils/currency.ts:17 | a leading minus sign does not move where the regex inserts commas |
| Currency.FormatIndianCurrency | Project_Task_Management_System_Final/src/utils/currency.ts:24-32 | crores iff amount ≥ 10000000; lakhs iff 100000 ≤ amount < 10000000; otherwise "₹" followed by `formatIndianNumber(amount)` as written, which round-trips to the amount and has commas only between digits exactly when the amount is outside -999 to -100 |
| Currency.ThreeDigitNegativeComma | Project_Task_Management_System_Final/src/utils/currency.ts:13-17 | as written, every amount from -999 to -100 gets a comma right after the minus sign |
| Currency.FormatIndianCurrencySigned | Project_Task_Management_System_Final/src/utils/currency.ts:24-32 | corrected: the same branch as the written formatter, commas only between digits in the plain text, and a different result exactly for -999 to -100 |
| Kanban.ColumnsAreLanes | Project_Task_Management_System_Final/src/app/components/kanban-board.tsx:19-26 | six columns, no two with the same status, each with a non-empty label |
| Kanban.ColumnIndex | Project_Task_Management_System_Final/src/app/components/kanban-board.tsx:19-26 | every status has exactly one column |
| Kanban.ParseColumn | Project_Task_Management_System_Final/src/app/components/kanban-board.tsx:59-60 | a found column's status name is the dropped-on id |
| Kanban.StatusNameInjective | Project_Task_Management_System_Final/src/app/components/kanban-board.tsx:19-26 | different statuses have different column ids |
| Kanban.ParseColumnExact | Project_Task_Management_System_Final/src/app/components/kanban-board.tsx:59-60 | the column lookup finds status s iff the id is s's name |
| Kanban.ProjectTasks | Project_Task_Management_System_Final/src/app/components/kanban-board.tsx:40 | exactly the tasks of the project |
| Kanban.TasksByStatus | Project_Task_Management_System_Final/src/app/components/kanban-board.tsx:68-70 | exactly the project's tasks with that status, each as often as in the store |
| Kanban.TasksByStatusOrder | Project_Task_Management_System_Final/src/app/components/kanban-board.tsx:68-70 | a lane keeps store order |
| Kanban.OneLanePerTask | Project_Task_Management_System_Final/src/app/components/kanban-board.tsx:19-26 | a project task is in a lane iff the lane is its status |
| Kanban.LaneMultiplicity | Project_Task_Management_System_Final/src/app/components/kanban-board.tsx:68-70 | a lane holds a task as often as the project does if the task has the lane's status, and never otherwise |
| Kanban.LanesPartition | Project_Task_Management_System_Final/src/app/components/kanban-board.tsx:19-26 | the six lanes together hold exactly the project's tasks, counting copies |
| Kanban.LaneSizesSum | Project_Task_Management_System_Final/src/app/components/kanban-board.tsx:87-104 | the six column badges add up to the number of project tasks |
| Kanban.CompletedSubtasks | Project_Task_Management_System_Final/src/app/components/kanban-board.tsx:72-75 | 0 with no subtasks and never more than the number of subtasks |
| Kanban.CompletedSubtasksExtremes | Project_Task_Management_System_Final/src/app/components/kanban-board.tsx:72-75 | the count equals the total iff every subtask is done, and is 0 iff none is |
| Kanban.FindTask | Project_Task_Management_System_Final/src/app/components/kanban-board.tsx:51 | a found task is in the list with that id; nothing is found iff no task has that id |
| Kanban.FindTaskFirst | Project_Task_Management_System_Final/src/app/components/kanban-board.tsx:51 | the found task is the first with that id |
| Kanban.DropTarget | Project_Task_Management_System_Final/src/app/components/kanban-board.tsx:58-60 | a target is found only when `over` is present, differs from the dragged id, and is the name of the found column |
| Kanban.DropTargetExact | Project_Task_Management_System_Final/src/app/components/kanban-board.tsx:55-63 | a move to s fires iff `over` is the column s and differs from the dragged id |
| Kanban.DropWithoutLane | Project_Task_Management_System_Final/src/app/components/kanban-board.tsx:55-63 | with no `over`, a drop on itself, or a drop on a non-column, nothing moves |
| Kanban.MovedTaskLane | Project_Task_Management_System_Final/src/app/components/kanban-board.tsx:55-70 | after a move the task shows in the new lane and in no other |
| Kanban.KanbanBoard.constructor | Project_Task_Management_System_Final/src/app/components/kanban-board.tsx:35-37 | the board starts with no dragged task |
| Kanban.KanbanBoard.HandleDragStart | Project_Task_Management_System_Final/src/app/components/kanban-board.tsx:50-53 | the dragged task is the project task with the dragged id, or none |
| Kanban.KanbanBoard.HandleDragEnd | Project_Task_Management_System_Final/src/app/components/kanban-board.tsx:55-66 | moves the task only when the drop target is a column other than the dragged id, otherwise leaves the tasks unchanged; the dragged task is cleared on every path |
| TaskDetail.ToggleSubtask | Project_Task_Management_System_Final/src/app/components/task-modal.tsx:46-48 | the length, ids and titles are kept, and `completed` flips exactly on the subtasks with that id |
| TaskDetail.ToggleTwice | Project_Task_Management_System_Final/src/app/components/task-modal.tsx:45-48 | toggling the same subtask twice restores the checklist |
| TaskDetail.ToggleCount | Project_Task_Management_System_Final/src/app/components/task-modal.tsx:41-48 | toggling a subtask with a unique id moves the completed count by exactly one |
| TaskDetail.CompletedCount | Project_Task_Management_System_Final/src/app/components/task-modal.tsx:41-42 | the completed count never exceeds the total |
| TaskDetail.CountsAgree | Project_Task_Management_System_Final/src/app/components/task-modal.tsx:41 | the dialog's completed count equals the board card's |
| TaskDetail.Trim | Project_Task_Management_System_Final/src/app/components/task-modal.tsx:60 | `trim()` is no longer than its input and neither starts nor ends with white space |
| TaskDetail.TrimEmptyIffBlank | Project_Task_Management_System_Final/src/app/components/task-modal.tsx:60 | `trim()` leaves nothing iff every character is white space |
| TaskDetail.NewComment | Project_Task_Management_System_Final/src/app/components/task-modal.tsx:62-68 | the comment keeps the typed text as written, is by user "1", has no mentions, and is stamped now |
| TaskDetail.Current | Project_Task_Management_System_Final/src/app/components/task-modal.tsx:37 | the task the store now holds under the dialog's id, when there is one, and otherwise the dialog's copy |
| TaskDetail.FindUnique | Project_Task_Management_System_Final/src/app/components/kanban-board.tsx:51 | with ids unique, the lookup returns the task holding the id |
| TaskDetail.StaleSecondCommentDropsFirst | Project_Task_Management_System_Final/src/app/components/task-modal.tsx:70-72 | as written, a second comment from the same dialog replaces the first |
| TaskDetail.StaleToggleDoesNotUndo | Project_Task_Management_System_Final/src/app/components/task-modal.tsx:45-50 | as written, a second toggle of an existing subtask from the same dialog does not undo the first |
| TaskDetail.LiveCommentsAccumulate | Project_Task_Management_System_Final/src/app/components/task-modal.tsx:70-72 | corrected, two posts keep both comments after the existing ones, in order |
| TaskDetail.LiveToggleTwiceRestores | Project_Task_Management_System_Final/src/app/components/task-modal.tsx:45-50 | corrected, a second toggle of the same subtask restores the checklist |
| TaskDetail.TaskModal.constructor | Project_Task_Management_System_Final/src/app/components/task-modal.tsx:37-38 | the dialog holds the task it was opened with and an empty comment box |
| TaskDetail.TaskModal.SetNewComment | Project_Task_Management_System_Final/src/app/components/task-modal.tsx:198 | the comment box holds the typed text |
| TaskDetail.TaskModal.HandleSubtaskToggle | Project_Task_Management_System_Final/src/app/components/task-modal.tsx:45-50 | stores the dialog's checklist with the subtask flipped under the task's id |
| TaskDetail.TaskModal.HandleDelete | Project_Task_Management_System_Final/src/app/components/task-modal.tsx:52-57 | on confirmation removes the task and closes; otherwise changes nothing |
| TaskDetail.TaskModal.HandleAddComment | Project_Task_Management_System_Final/src/app/components/task-modal.tsx:59-75 | a blank comment changes nothing; otherwise the new comment is stored after the dialog's comments and the box is cleared |
| TaskDetail.TaskModal.HandleSubtaskToggleLive | Project_Task_Management_System_Final/src/app/components/task-modal.tsx:45-50 | corrected: flips the subtask in the store's current checklist |
| TaskDetail.TaskModal.HandleAddCommentLive | Project_Task_Management_System_Final/src/app/components/task-modal.tsx:59-75 | corrected: appends to the store's current comments; a blank comment changes nothing |

## Left out

- Persistence. The `persist` middleware saves state to local storage; it is browser I/O.
- The simulated 800 ms delays and the `async` plumbing of `login` and `signup`.
- Toasts, rendering, animation, the column colours, and the dnd-kit sensors and collision detection.
- The `confirm` prompt of `handleDelete`. Its answer is a parameter.
- `Date.now()`, `new Date().toISOString()` and `Math.random()`. They become parameters.
- AppState.AppStore.MoveTask: the clock reading `now` is a free parameter, so the model does not promise that `updatedAt` only moves later. The same holds for every action that stamps a time. `Date.now()` gives no such guarantee either, since the system clock can be set back. Each action reads the clock once, where the source reads it up to three times.
- Timestamps are modelled as a single millisecond count. The ISO strings are not modelled.
- `activities`. No action changes it.
- `formatCurrency`. It wraps `Intl.NumberFormat`.
- The `toFixed(2)` division in the crore and lakh branches of `formatIndianCurrency` is floating point. The model only says which branch is taken and keeps the amount.
- The progress percentage of the dialog is floating-point division.
- The due-date arithmetic is left out.
- The selected-task state of the board and the dialog's activity tab.
- Patches: `Partial<T>` patches are datatypes of optional fields. A patch can set a field but cannot reset an optional field to `undefined`.
- Ids: `generateUniqueId` is modelled with its clock reading, counter and random suffix as the string `<now>-<counter>-<suffix>`. Only the counter is needed to prove that ids are new.
- Currency.FormatIndianNumber: models `num.toString()` for integers only, and only as exact digits. Fractions are not modelled. From 2^53 up JavaScript prints the shortest digits that read back to the same double (2^60 prints as 1152921504606847000), and from 1e21 up it uses exponent notation; the model prints every digit exactly.
- Decimal.NatToDecimal: exact decimal digits, which agree with `Number.prototype.toString` only below 2^53; the clock readings and counters the ids use stay far below it.
- TaskDetail.TaskModal.HandleAddComment: the white space `trim()` removes is listed by code point. The Unicode category Zs is not tracked beyond the characters listed.

## Findings

| source | as written | input that shows it | evidently intended | confidence | as-written member | corrected member |
|---|---|---|---|---|---|---|
| Project_Task_Management_System_Final/src/utils/currency.ts:13-17 | for a negative number the minus sign is counted in the text that is split, so `otherNumbers` can be just "-" and a comma is written after it | `formatIndianNumber(-123)` gives "-,123" | "-123": commas only between digits, with the sign outside the grouping | not executed; certain from the code, though negative amounts may be rare | Currency.SignThenComma | Currency.FormatIndianNumberSigned |
| Project_Task_Management_System_Final/src/app/components/task-modal.tsx:45-75 | both handlers build the new list from the `task` prop. That prop is the board's `selectedTask` snapshot (kanban-board.tsx:124, 148) and is not refreshed after `updateTask` | open a task, post comment "a", then post "b": the stored comments are the old ones plus "b" only | each edit starts from the task as the store now holds it, so both comments are kept | not executed; the prop is not refreshed while the dialog stays open | TaskDetail.StaleSecondCommentDropsFirst | TaskDetail.LiveCommentsAccumulate |
