# Kanban task engine, modelled in Dafny

The model covers the task state engine of a small React Kanban board. The engine has three parts:

- **The board.** Four ordered columns keyed `todo`, `in-progress`, `review` and `done`.
  - They are derived from the displayed task list by a partition effect.
  - Their concatenation is published back to the store by a second effect.
  - They are changed by drag-and-drop, by "add task" and by "clear done".
- **The task card.** It has an edit mode and a draft record that the edit inputs change. A save writes the draft into every column.
- **The task store.** It holds the provider state: the canonical list `tasks` and the displayed list `filteredTasks`. It also covers the local-storage snapshot, the startup load, the updates by list and by id, and the search.

Modules and files:

| file | module | what it holds |
|---|---|---|
| `tasks.dfy` | `Tasks` | The task record. The five values its `type` field takes. JavaScript numbers as the day fields hold them (`Int` or `NaN`). `Array.prototype.filter` with its lemmas. |
| `text.dfy` | `Text` | The string primitives the engine uses: whitespace for `trim`, ASCII `toLowerCase`, `includes`, `parseInt(s, 10)`. |
| `task_context.dfy` | `TaskContext` | `useTaskContext`, replace-by-id, the search predicate, and the `TaskStore` class (`tasks`, `filteredTasks`, `storage`). |
| `task_board.dfy` | `TaskBoard` | Columns, `Partition`, `Flatten`, the drag transition `Move` and its lemmas, and the `Board` class. |
| `task_item.dfy` | `TaskItem` | The draft update, the save (a specification function and the loop that computes it), and the `TaskCard` class. |

Each React effect is a method of its own, and the host runs it after the state it watches has changed:

- `Board.Repartition`: the partition effect.
- `Board.Publish`: the publish effect.
- `TaskStore.Persist`: the persistence effect.
- `TaskCard.SyncDraft`: the draft-sync effect.

Values the engine takes from outside are parameters:

- **`now`** stands for `Date.now()`.
- **`seed`** is the outcome of fetching the seed document: `None` when the fetch or its parse fails.
- **`render`** is an uninterpreted function for `new Date(d).toLocaleDateString('en-GB')`.
- **`stored`** is the local-storage entry present when the provider mounts.

The model keeps two quirks of the code as they are written:

- **Stage-name mismatch.** A task's `type` is the datatype `Stage`. It has a fifth value, `InProgressHyphen`, for the string `"in-progress"`.
  - The drag handler writes the destination's droppable id into `type`, so a task dropped on the in-progress column gets `"in-progress"`.
  - The partition keeps `"in_progress"` in that column, so such a task is lost at the next re-partition (`DropOnInProgressIsLost`).
  - A drop on any other column survives a later re-partition of the published list (`DropSettles`).
  - The published list reaches the board's input, `filteredTasks`, only through the store. After a reload, local storage restores it into both lists. A non-blank search filters `tasks`, the published list, into `filteredTasks`. The partition effect itself is keyed on `initialTasks.toString()`, which renders every record as `[object Object]`. So the effect re-runs only when the number of tasks changes. The lemmas state what a re-partition gives whenever it happens.
- **Shared column list.** The drag handler's two `splice` calls work on the column arrays themselves. The destination column is bound before the removal. In a move within one column, though, it is the same array as the source column, so the insertion sees the shortened list and the index counts positions in it. `Move` reads the destination column after the removal, which gives that same list.

Two further facts about the code that the model keeps:

- The startup load takes the stored snapshot whenever the `tasks` entry is present, even when it holds an empty list.
- A move within one column still rewrites the task's `type` to the droppable id, so it becomes `"in-progress"` in the in-progress column.

## Model

| member | source | states |
|---|---|---|
| Tasks.Filter | src/layouts/TaskBoard/index.tsx:59-62 | `Array.prototype.filter`: the result is no longer than the input and holds exactly the input's elements that pass the predicate |
| Tasks.FilterCount | src/contexts/TaskContext/index.tsx:89-96 | the filter keeps every occurrence of an element that passes and none of one that fails |
| Text.Includes | src/contexts/TaskContext/index.tsx:95 | `includes` holds exactly when the needle occurs at some position of the haystack |
| Text.IsBlank | src/contexts/TaskContext/index.tsx:79 | `!query.trim()` holds exactly when stripping the leading whitespace leaves nothing |
| Text.ToLower | src/contexts/TaskContext/index.tsx:85 | lower-casing keeps the length, leaves no upper-case ASCII letter, and keeps every character that is not one |
| Text.ParseInt | src/components/TaskItem/index.tsx:76 | a string of digits reads as its decimal value; a blank string, or one whose first character after the whitespace is neither a sign nor a digit, reads as NaN |
| Text.ParseIntRoundTrip | src/components/TaskItem/index.tsx:76 | `parseInt(s, 10)` reads the decimal rendering of every integer, with its minus sign, back to that integer |
| TaskContext.UseTaskContext | src/contexts/TaskContext/index.tsx:24-29 | the hook returns the provider value exactly when one is present, and otherwise fails with the provider error message |
| TaskContext.ReplaceById | src/contexts/TaskContext/index.tsx:69 | the length is kept; every task with the updated id is replaced by the updated task; every other position is unchanged |
| TaskContext.ReplaceAbsentId | src/contexts/TaskContext/index.tsx:69 | an id that no task carries leaves the list unchanged |
| TaskContext.ReplaceByIdIdempotent | src/contexts/TaskContext/index.tsx:72 | replacing twice with the same task is the same as replacing once |
| TaskContext.IsDateQuery | src/contexts/TaskContext/index.tsx:87 | a date query has ten characters, with dots at positions 2 and 5 and digits everywhere else, so lower-casing leaves it unchanged |
| TaskContext.IsDateQueryPieces | src/contexts/TaskContext/index.tsx:87 | the date test holds exactly when the query is two digits, a dot, two digits, a dot and four digits, with nothing else |
| TaskContext.Matches | src/contexts/TaskContext/index.tsx:89-96 | for a query that is not a date, a task matches exactly when the lower-cased query occurs at some position of its lower-cased text, so the empty query matches every task |
| TaskContext.Search | src/contexts/TaskContext/index.tsx:85-97 | the search returns an order-preserving sub-list of `tasks` holding exactly the tasks that match: a date match for a date query, otherwise a lower-cased substring match |
| TaskContext.SearchIgnoresCase | src/contexts/TaskContext/index.tsx:85-95 | lower-casing the query first does not change the search result |
| TaskContext.DateQueryMatchesNothing | src/contexts/TaskContext/index.tsx:87-93 | if the date renderer never writes a dot, every date query returns the empty list |
| TaskContext.TaskStore.constructor | src/contexts/TaskContext/index.tsx:34-35 | both lists start empty, and storage holds what an earlier session left |
| TaskContext.TaskStore.LoadTasks | src/contexts/TaskContext/index.tsx:37-55 | a stored snapshot becomes both lists and the seed is not fetched; otherwise a fetched seed becomes both lists, and a failed fetch changes nothing |
| TaskContext.TaskStore.Persist | src/contexts/TaskContext/index.tsx:58-61 | a non-empty `tasks` overwrites storage, after which storage holds exactly `tasks`; an empty list leaves storage as it was |
| TaskContext.TaskStore.UpdateTask | src/contexts/TaskContext/index.tsx:63-65 | `tasks` becomes exactly the given list; `filteredTasks` and storage are untouched |
| TaskContext.TaskStore.UpdateSingleTask | src/contexts/TaskContext/index.tsx:67-74 | both lists become their replace-by-id with the updated task; storage is untouched |
| TaskContext.TaskStore.SearchTasks | src/contexts/TaskContext/index.tsx:77-100 | a blank query stores the fetched seed, or changes nothing if the fetch fails; any other query stores the search over `tasks`, never over `filteredTasks`; `tasks` is untouched |
| TaskBoard.DroppedStage | src/layouts/TaskBoard/index.tsx:80 | the stage a drop writes is spelled exactly as the destination column's droppable id |
| TaskBoard.StageKey | src/layouts/TaskBoard/index.tsx:59-62 | each partition key differs from the dropped stage for the in-progress column only, and no key is the hyphenated stage |
| TaskBoard.Flatten | src/layouts/TaskBoard/index.tsx:53 | the published list has as many tasks as the four columns together |
| TaskBoard.FlattenMultiset | src/layouts/TaskBoard/index.tsx:53 | the published list holds every task of every column, each as often as the columns hold it |
| TaskBoard.FlattenMembership | src/layouts/TaskBoard/index.tsx:53 | a task is in the published list exactly when some column holds it |
| TaskBoard.Partition | src/layouts/TaskBoard/index.tsx:57-64 | each column is the order-preserving sub-list of the input whose `type` is that column's key |
| TaskBoard.StageIsComparesSpelling | src/layouts/TaskBoard/index.tsx:59-62 | a task passes a column's partition callback exactly when its stored `type` string equals the column's key string |
| TaskBoard.PartitionMembership | src/layouts/TaskBoard/index.tsx:59-62 | a task is in a column exactly when it is in the input and carries that column's key |
| TaskBoard.PartitionKeepsDeclared | src/layouts/TaskBoard/index.tsx:53-62 | re-partitioning keeps exactly the tasks with one of the four declared types, each as often as it occurs |
| TaskBoard.PartitionIsPermutation | src/layouts/TaskBoard/index.tsx:53-62 | when every task has a declared type, the column lengths sum to the input length and the published list is a permutation of the input |
| TaskBoard.PartitionDropsHyphenated | src/layouts/TaskBoard/index.tsx:60 | a task typed `"in-progress"` is in no column, so re-partitioning a list that holds it shrinks the board |
| TaskBoard.PartitionIsWellStaged | src/layouts/TaskBoard/index.tsx:59-62 | every task the partition puts in a column carries that column's key |
| TaskBoard.RoundTripColumn | src/layouts/TaskBoard/index.tsx:53-62 | if every column holds only tasks with its own key, filtering the published list by a column's key gives back that column |
| TaskBoard.PartitionFlattenRoundTrip | src/layouts/TaskBoard/index.tsx:46-64 | if every column holds only tasks with its own key, partitioning the published list gives back the same columns |
| TaskBoard.RepartitionIsStable | src/layouts/TaskBoard/index.tsx:46-64 | partitioning the list that a partitioned board publishes gives the same board, as after a reload restores the published list |
| TaskBoard.RemoveAt | src/layouts/TaskBoard/index.tsx:78 | `splice(i, 1)` cuts out exactly the element at `i`, and the rest closes up in order |
| TaskBoard.InsertAt | src/layouts/TaskBoard/index.tsx:82 | `splice(i, 0, x)` puts `x` at `i`, or at the end when `i` is past the end, and keeps everything else in order |
| TaskBoard.Retyped | src/layouts/TaskBoard/index.tsx:78-80 | the moved task is the source slot's task with its `type` set to the destination's droppable id |
| TaskBoard.IsNoOpDrop | src/layouts/TaskBoard/index.tsx:68-72 | the handler returns early exactly when there is no destination or the destination is the source slot itself |
| TaskBoard.Move | src/layouts/TaskBoard/index.tsx:74-83 | a move keeps the number of tasks on the board and leaves every column other than the source and destination unchanged; the Move lemmas below state where the dragged task goes |
| TaskBoard.MoveRetypesOneTask | src/layouts/TaskBoard/index.tsx:78-82 | a move takes the dragged task off the board and puts back its retyped copy, and nothing else changes in the board's multiset |
| TaskBoard.MoveLandsAtDestination | src/layouts/TaskBoard/index.tsx:78-82 | the destination column becomes the column as it stands after the removal with the retyped task spliced in: the task sits at the drop index, or at the end when the index is past it, the tasks before it keep their places and the later ones shift right in order |
| TaskBoard.MoveClosesSourceGap | src/layouts/TaskBoard/index.tsx:78 | between two columns, the source column becomes the old column without the dragged slot |
| TaskBoard.MoveWithinColumnReorders | src/layouts/TaskBoard/index.tsx:74-83 | within the todo, review or done column, a move of a task that carries the column's key only reorders the board |
| TaskBoard.MoveMembership | src/layouts/TaskBoard/index.tsx:78-82 | after a move, every task of a column was in that column before, except the retyped task in the destination |
| TaskBoard.MoveKeepsWellStaged | src/layouts/TaskBoard/index.tsx:80-82 | a drop on the todo, review or done column keeps every column holding only tasks with its own key |
| TaskBoard.DropSettles | src/layouts/TaskBoard/index.tsx:46-83 | after a drop on the todo, review or done column, a later re-partition of the published list gives back exactly the moved board |
| TaskBoard.DropOnInProgressIsLost | src/layouts/TaskBoard/index.tsx:60-80 | after a drop on the in-progress column, a later re-partition of the published list loses the dropped task and the board shrinks |
| TaskBoard.NewTask | src/layouts/TaskBoard/index.tsx:87-93 | the new task has id and start day `now`, end day 0, text "New Task", and the todo type |
| TaskBoard.ClearDoneDropsTail | src/layouts/TaskBoard/index.tsx:101-106 | after clearing, the published list is the old published list without its done tail |
| TaskBoard.Board.constructor | src/layouts/TaskBoard/index.tsx:39-44 | the board mounts with four empty columns |
| TaskBoard.Board.Repartition | src/layouts/TaskBoard/index.tsx:57-64 | the columns become the partition of the displayed list |
| TaskBoard.Board.Publish | src/layouts/TaskBoard/index.tsx:46-55 | when some column holds a task, the store's `tasks` becomes exactly todo ++ in-progress ++ review ++ done; an empty board publishes nothing; the store's other state is untouched |
| TaskBoard.Board.DragEnd | src/layouts/TaskBoard/index.tsx:66-84 | no destination, or the same slot, returns early with the columns unchanged; an empty source slot throws with the columns unchanged; otherwise the columns become the move |
| TaskBoard.Board.AddTask | src/layouts/TaskBoard/index.tsx:86-99 | exactly one new task is appended to the todo column; the other columns are unchanged |
| TaskBoard.Board.ClearDoneTasks | src/layouts/TaskBoard/index.tsx:101-106 | the done column becomes empty; the other columns are unchanged |
| TaskItem.Changed | src/components/TaskItem/index.tsx:75-81 | only the named draft field changes: text is stored as typed, a day is stored as `parseInt` reads it |
| TaskItem.Edited | src/components/TaskItem/index.tsx:57-64 | a task with the edited id takes the draft's text and days and keeps its id and type; any other task is unchanged |
| TaskItem.Saved | src/components/TaskItem/index.tsx:54-65 | a column keeps its length, and each position holds its old task with the edit applied |
| TaskItem.SavedKeepsPlaces | src/components/TaskItem/index.tsx:54-68 | no task changes position or column: ids and types are unchanged slot by slot |
| TaskItem.SavedIdempotent | src/components/TaskItem/index.tsx:54-65 | saving the same draft twice is the same as saving once |
| TaskItem.SavedWithoutMatch | src/components/TaskItem/index.tsx:58 | a column without the edited id is unchanged |
| TaskItem.SaveAll | src/components/TaskItem/index.tsx:54-66 | every column is saved, and the board keeps its number of tasks |
| TaskItem.SaveAllCommutesWithFlatten | src/components/TaskItem/index.tsx:54-66 | saving column by column and then publishing gives the published list with the save applied |
| TaskItem.SavedIsReplaceById | src/components/TaskItem/index.tsx:57-64 | when the edited task and the draft share an id and a type, the save agrees with the store's replace-by-id |
| TaskItem.SaveInColumn | src/components/TaskItem/index.tsx:55-65 | the `map` over one column computes the column's save |
| TaskItem.TaskCard.constructor | src/components/TaskItem/index.tsx:28-31 | the draft starts as a copy of the task, and the card is not in edit mode |
| TaskItem.TaskCard.EditTask | src/components/TaskItem/index.tsx:40-42 | edit mode is set to the card's task id |
| TaskItem.TaskCard.CancelChange | src/components/TaskItem/index.tsx:44-46 | edit mode ends and the draft is kept |
| TaskItem.TaskCard.TaskChange | src/components/TaskItem/index.tsx:75-81 | the draft becomes its update with the input for one field; edit mode is unchanged |
| TaskItem.TaskCard.SyncDraft | src/components/TaskItem/index.tsx:33-37 | the effect never reaches `updateSingleTask`, so both store lists are unchanged |
| TaskItem.TaskCard.SaveTask | src/components/TaskItem/index.tsx:49-72 | the board's columns become the save of every column for this card's id, and edit mode ends |

## Left out

- Rendering, icons, styles and the drag-and-drop library. Only the `DropResult` fields the drag handler reads are modelled. The edit button appears only on todo cards (src/components/TaskItem/index.tsx:142-146); that is rendering and is not modelled.
- React scheduling. The host decides when each effect method runs, including the `initialTasks.toString()` dependency of the partition effect, which re-runs it only when the number of tasks changes. The debounce around the search is timer-based and `@utils/debounce.ts` is not part of this model. `setTasks`, which the provider exposes without wrapping it, is not modelled.
- Fetching the seed document. The result of the fetch is the `seed` parameter; network errors and the logging of a failed load are outside the model.
- Local storage and JSON. Storage is an optional list of task values.
- TaskContext.TaskStore.Persist: the model stores the list as it is, NaN days included. In the code, `JSON.stringify` writes a NaN day (one left by `parseInt` on an edit) as `null`. After a reload, `LoadTasks` then gives a `null` day, which renders as the epoch date rather than an invalid date. The model keeps NaN through `Persist` and `LoadTasks`.
- TaskBoard.NewTask: `Date.now()` is the single `now` parameter, so the new task's id equals its start day. The code reads the clock twice, once for the id and once for the start day, and the two readings can differ by a millisecond. Ids are not claimed to be unique: two adds with the same `now` give equal ids.
- `toLocaleDateString('en-GB')` is the uninterpreted `render` parameter. That it never writes a dot is a hypothesis of `DateQueryMatchesNothing`, not a fact of the model.
- Text:
  - `toLowerCase` is modelled on ASCII letters only; other characters are kept as they are.
  - `parseInt` reads ASCII digits only.
  - Day fields are integers or NaN; floating point is not modelled.
- Task records are values. In the code the same record objects are shared between the column lists and the store's lists, so assigning `type` in a drag, or the text and days in a save, also changes the record the store holds. The model captures each list's new contents but not this change through a shared object. The same holds for the column arrays the drag handler's `splice` calls mutate in the previous `columns` state.
- `handleTaskChange` can be called with any field name of the record; only the three fields the edit form wires up are modelled.
- Column lists are sequences that methods reassign, not arrays updated in place. The column record is rebuilt with the same contents.
