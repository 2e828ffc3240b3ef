# TODO-List task model in Dafny

This project models the in-memory part of a single-page to-do list written as
two React components. `TodoList` (`src/components/todoList.jsx`) owns the
tasks, the draft of the next task, the display filters and the last
validation error, and handles the user's intents: add, bulk-add, toggle,
delete, edit, show/hide completed, search and urgency filter. `TodoItem`
(`src/components/todoItem.jsx`) is one row. It keeps a hover flag, an editing
flag and local drafts of title and description. It sends toggle, delete and
edit intents up to the list.

Modules, one concept each:

- `Text`: the JavaScript string operations the components use. This covers
  `toLowerCase`, `trim`, `includes` and the decimal text of an integer in a
  template literal.
- `Seqs`: `Array.prototype.filter` and its laws. These are what it keeps,
  that it keeps order (subsequence), counts, splitting by complementary
  conditions, concatenation and idempotence.
- `Todos`: the task record. Also the list transformations of the handlers:
  toggle, delete and edit keyed by id, and the generated bulk batch.
- `TodoView`: the list that `render` displays, as a pure function of the
  state.
- `TodoListComponent`: the component state as a value (`ListState`). It holds
  the add and bulk-add transitions as functions, and the class `TodoList`,
  whose handler methods update its fields and are proved equal to those
  transitions.
- `TodoItemComponent`: the urgency label and colour lookups and the rendered
  row (`Render`). Also the class `TodoItem`, whose handlers update the row's
  fields. The intents a row sends are recorded in its `sent` field.

Things that depend on the environment are parameters:
- The clock reading `Date.now()` is `now` in an add and `clock[i]` for bulk
  task `i`. The source reads the clock once per generated task.
- The formatted date `toLocaleString()` is `stamp`, or `stamps[i]`.
- The random urgency index is `picks[i] < 3`.

## Behaviour as the code has it

In a few places the code does something a reader might not expect; the model
follows the code:
- Toggle, delete and edit act on every task whose id matches (`map` and
  `filter`). Ids are not guaranteed unique. A bulk batch reads the clock per
  task, so its ids are `clock[i] + i`. These strictly increase only while the
  clock does not go back (`Todos.BulkIdsIncrease`). A bulk add whose clock
  reads `base` throughout takes the ids `base` to `base + 999`, so an add at
  any time within the following second duplicates one of them
  (`TodoListComponent.AddAfterBulkCollides`); two bulk adds less than a
  second apart overlap the same way. When ids are unique,
  delete removes exactly one task (`Todos.DeleteUniqueRemovesOne`).
- Edit does no validation, so an edit can store an empty title. Only add
  rejects a blank title.
- Entering edit mode on a row does not take the drafts from the item again.
  They are seeded once, when the row is created. In view mode the row shows
  its local description draft, not the item's description.
- Choosing an urgency filter always sets it, lower-cased. No handler clears
  it. It is unset only at start. An empty-string filter is falsy in
  JavaScript and lets every task through; `TodoView.UrgencyMatch` models that
  too.

## Model

| member | source | states |
|---|---|---|
| Text.LowerChar | src/components/todoList.jsx:125-126 | Each upper-case Basic Latin, Latin-1 and basic Cyrillic letter maps to its own lower-case letter (code point plus 0x20, or plus 0x50 for U+0400-U+040F); nothing else changes; the result is never one of those upper-case letters |
| Text.ToLower | src/components/todoList.jsx:125-126 | `toLowerCase` keeps the length and lower-cases each character |
| Text.ToLowerIdempotent | src/components/todoList.jsx:125-126 | Lower-casing twice equals lower-casing once |
| Text.TrimStart | src/components/todoList.jsx:24 | The result is the suffix of the input that follows its leading whitespace, and starts with a non-whitespace character when non-empty |
| Text.TrimEnd | src/components/todoList.jsx:24 | The result is the prefix of the input before its trailing whitespace, and ends with a non-whitespace character when non-empty |
| Text.Trim | src/components/todoList.jsx:24 | `trim` returns a slice of the input with only whitespace around it, starts and ends with non-whitespace, and is empty exactly when the input is all whitespace |
| Text.TrimIdempotent | src/components/todoList.jsx:31 | Trimming a trimmed title changes nothing |
| Text.Contains | src/components/todoList.jsx:125-126 | `includes`: never holds for a needle longer than the text; holds whenever the text starts with the needle |
| Text.ContainsAt | src/components/todoList.jsx:125-126 | `includes` holds exactly when the needle occurs at some offset, in both directions |
| Text.ContainsEmpty | src/components/todoList.jsx:125-126 | The empty search text occurs in every string |
| Text.Decimal | src/components/todoList.jsx:55-56 | The decimal text of a number is non-empty, all digits, and has no leading zero unless the number is 0 |
| Text.DecimalRoundTrip | src/components/todoList.jsx:55-56 | Reading the decimal text back gives the number |
| Text.DecimalInjective | src/components/todoList.jsx:55-56 | Different numbers have different decimal texts |
| Seqs.Filter | src/components/todoList.jsx:124-133 | `filter` keeps exactly the elements that pass, and never lengthens |
| Seqs.FilterIsSubsequence | src/components/todoList.jsx:78 | What `filter` keeps stays in the original relative order |
| Seqs.SubsequenceTransitive | src/components/todoList.jsx:132-133 | A subsequence of a subsequence is a subsequence |
| Seqs.FilterCount | src/components/todoList.jsx:78 | Each kept element keeps all its copies; each dropped element has none |
| Seqs.FilterPartition | src/components/todoList.jsx:132-133 | Filtering by a condition and by its negation together hold exactly the input's elements |
| Seqs.FilterAppend | src/components/todoList.jsx:134-135 | Filtering a concatenation is concatenating the filtered parts |
| Seqs.FilterAllPass | src/components/todoList.jsx:78 | Filtering by a condition every element meets changes nothing |
| Seqs.FilterIdempotent | src/components/todoList.jsx:78 | Filtering twice by one condition is filtering once |
| Seqs.FilterNonePass | src/components/todoList.jsx:132-133 | Filtering by a condition no element meets leaves nothing |
| Todos.ToggleById | src/components/todoList.jsx:68-74 | Length and order kept; each task with the id has only `completed` flipped; every other task is unchanged |
| Todos.ToggleTwice | src/components/todoList.jsx:68-74 | Toggling the same id twice restores the list |
| Todos.ToggleAbsent | src/components/todoList.jsx:68-74 | Toggling an absent id is a no-op |
| Todos.ToggleKeepsUniqueIds | src/components/todoList.jsx:68-74 | Toggling keeps ids unique when they were |
| Todos.DeleteById | src/components/todoList.jsx:76-80 | No task with the id remains; every task with another id remains; the rest keep their relative order |
| Todos.DeleteKeepsCounts | src/components/todoList.jsx:76-80 | Every copy of a task with the id is removed; every copy of any other task is kept |
| Todos.DeleteIdempotent | src/components/todoList.jsx:76-80 | A second delete of the same id is a no-op |
| Todos.DeleteAbsent | src/components/todoList.jsx:76-80 | Deleting an absent id is a no-op |
| Todos.DeleteUniqueRemovesOne | src/components/todoList.jsx:76-80 | With unique ids, deleting a present id removes exactly one task |
| Todos.EditById | src/components/todoList.jsx:88-96 | Length and order kept; tasks with the id get the new title and description and keep id, completion, urgency and timestamp; others unchanged |
| Todos.EditKeepsOtherFields | src/components/todoList.jsx:90-93 | At every position, id, completion, urgency and timestamp are unchanged by an edit |
| Todos.EditAbsent | src/components/todoList.jsx:88-96 | Editing an absent id is a no-op |
| Todos.EditIdempotent | src/components/todoList.jsx:88-96 | Repeating the same edit changes nothing more |
| Todos.ToggleEditCommute | src/components/todoList.jsx:68-96 | Toggle and edit commute |
| Todos.BulkTodos | src/components/todoList.jsx:47-61 | One task per index: id is the clock reading plus the index, title and description numbered from 1, open, urgency one of the three levels, its own timestamp |
| Todos.BulkIdsIncrease | src/components/todoList.jsx:54 | With a clock that never goes back, batch ids strictly increase and are pairwise distinct |
| Todos.BulkSameTick | src/components/todoList.jsx:54 | With every reading in one millisecond `base`, task `i` has id `base + i` |
| Todos.BulkTitlesDistinct | src/components/todoList.jsx:55 | Different batch positions have different titles |
| TodoView.Filtered | src/components/todoList.jsx:124-130 | The tasks that match the search and the urgency filter, exactly, as a subsequence of the list |
| TodoView.Displayed | src/components/todoList.jsx:124-136 | Every displayed task is listed and matches; with completed tasks hidden, every displayed task is open |
| TodoView.DisplayedMembers | src/components/todoList.jsx:124-136 | A task is displayed exactly when it is in the list, matches the search (title or description, ignoring case) and the urgency filter, and is open or completed tasks are shown |
| TodoView.DisplayedOpenFirst | src/components/todoList.jsx:132-136 | Every displayed open task precedes every displayed completed task |
| TodoView.DisplayedGroupsInOrder | src/components/todoList.jsx:132-136 | The displayed open tasks, and the displayed completed tasks, each keep the list's order |
| TodoView.DisplayedIsPermutation | src/components/todoList.jsx:132-135 | With completed tasks shown, the display is a reordering of the matching tasks |
| TodoView.SearchIgnoresCase | src/components/todoList.jsx:125-126 | Lower-casing the search text does not change the display |
| TodoView.EmptySearchKeepsAll | src/components/todoList.jsx:124-130 | An empty search with no urgency filter lets every task through |
| TodoView.BuyMatches | src/components/todoList.jsx:125 | "buy" matches the titles "Buy milk" and "Buy bread" |
| TodoView.OpenAfterDone | src/components/todoList.jsx:124-136 | A completed task listed before an open one is displayed after it, or hidden; a task failing the urgency filter is not shown |
| TodoView.BuyExample | src/components/todoList.jsx:124-136 | Worked case: "buy" shows the open task before the completed one; hiding completed shows only the open one; the medium filter shows only the medium one |
| TodoListComponent.Add | src/components/todoList.jsx:21-45 | A blank title leaves tasks and drafts unchanged and sets a non-empty error; otherwise one task (trimmed non-empty title, draft description, open, draft urgency) is appended, old tasks stay as prefix, drafts and error reset, urgency back to medium |
| TodoListComponent.AddBulk | src/components/todoList.jsx:47-66 | The tasks become the old ones followed by the generated batch, and nothing else changes: exactly 1000 new tasks, open, with known urgencies, numbered titles and ids clock plus index |
| TodoListComponent.ApplyIntent | src/components/todoList.jsx:220-222 | A toggle or edit intent keeps the number of tasks; a delete intent keeps exactly the tasks with another id |
| TodoListComponent.AddAfterBulkCollides | src/components/todoList.jsx:29-54 | After a bulk add read at `base`, an add at `base + k` with `k < 1000` makes the ids non-unique |
| TodoListComponent.AddKeepsUrgenciesKnown | src/components/todoList.jsx:29-39 | Add keeps every task's urgency and the draft urgency among the three levels |
| TodoListComponent.AddBulkKeepsUrgenciesKnown | src/components/todoList.jsx:48-58 | Bulk add keeps every task's urgency among the three levels |
| TodoListComponent.KnownUrgenciesHaveLabels | src/components/todoItem.jsx:28-52 | While every urgency is a known level, no displayed task gets the fallback label or the black colour |
| TodoListComponent.TodoList.DisplayedTodos | src/components/todoList.jsx:124-136 | The list the component displays; in a valid state none of its tasks gets the fallback urgency label |
| TodoListComponent.TodoList.constructor | src/components/todoList.jsx:6-19 | Starts with no tasks, empty drafts, completed shown, empty search, no urgency filter, medium draft urgency, no error |
| TodoListComponent.TodoList.HandleAdd | src/components/todoList.jsx:21-45 | The new state is `Add` of the old one |
| TodoListComponent.TodoList.HandleCreateBulkTodos | src/components/todoList.jsx:47-66 | The new state is `AddBulk` of the old one |
| TodoListComponent.TodoList.HandleToggle | src/components/todoList.jsx:68-74 | Only the tasks change, to the toggled list |
| TodoListComponent.TodoList.HandleDelete | src/components/todoList.jsx:76-80 | Only the tasks change, to the list without the id |
| TodoListComponent.TodoList.HandleFilter | src/components/todoList.jsx:82-86 | Only `showCompleted` changes, to its negation, so two calls restore it |
| TodoListComponent.TodoList.HandleEdit | src/components/todoList.jsx:88-96 | Only the tasks change, to the edited list |
| TodoListComponent.TodoList.HandleSearch | src/components/todoList.jsx:98-100 | Only the search text changes, stored as given |
| TodoListComponent.TodoList.HandleUrgencyChange | src/components/todoList.jsx:102-104 | Only the urgency filter changes, to the lower-cased value; it is set afterwards |
| TodoListComponent.TodoList.HandleRowIntent | src/components/todoList.jsx:216-223 | A row's toggle, delete or edit intent reaches the matching handler |
| TodoListComponent.TodoList.HandleTitleChange | src/components/todoList.jsx:147 | Only the draft title changes |
| TodoListComponent.TodoList.HandleDescriptionChange | src/components/todoList.jsx:154 | Only the draft description changes |
| TodoListComponent.TodoList.HandleCurrentUrgencyChange | src/components/todoList.jsx:157-164 | Only the draft urgency changes, to one of the three options |
| TodoItemComponent.UrgencyText | src/components/todoItem.jsx:28-39 | urgent, medium and not urgent get their labels; the unknown label is given exactly to every other value |
| TodoItemComponent.UrgencyColor | src/components/todoItem.jsx:41-52 | urgent red, medium orange, not urgent green; black is given exactly to every other value |
| TodoItemComponent.UrgencyLookupsInjective | src/components/todoItem.jsx:28-52 | Different levels get different labels and different colours |
| TodoItemComponent.Render | src/components/todoItem.jsx:54-108 | Edit fields show exactly when editing; view mode shows the item's title, the label and colour the urgency lookups give for the item's urgency (fallback exactly for unknown urgencies) and the local description draft; no label while editing; checkbox and timestamp from the item; actions exactly when hovered and not editing |
| TodoItemComponent.TodoItem.constructor | src/components/todoItem.jsx:6-14 | A row starts not hovered, not editing, drafts equal to the item's title and description, nothing sent |
| TodoItemComponent.TodoItem.ReceiveItem | src/components/todoList.jsx:216-223 | A re-render with a changed item keeps the row's local state |
| TodoItemComponent.TodoItem.HandleEdit | src/components/todoItem.jsx:16-18 | Callable only while the edit control is shown; only `isEditing` changes, to true; drafts are not re-seeded; actions hidden |
| TodoItemComponent.TodoItem.HandleSave | src/components/todoItem.jsx:20-26 | Callable only in edit mode, where Save is shown; exactly one edit intent with the item's id and the current drafts is sent, then editing ends |
| TodoItemComponent.TodoItem.HandleTitleInput | src/components/todoItem.jsx:73-78 | Callable only in edit mode, where the field is shown; only the title draft changes |
| TodoItemComponent.TodoItem.HandleDescriptionInput | src/components/todoItem.jsx:73-82 | Callable only in edit mode, where the field is shown; only the description draft changes |
| TodoItemComponent.TodoItem.HandleMouseEnter | src/components/todoItem.jsx:64 | Only the hover flag changes, to true; editing is untouched |
| TodoItemComponent.TodoItem.HandleMouseLeave | src/components/todoItem.jsx:65 | Only the hover flag changes, to false; actions hidden |
| TodoItemComponent.TodoItem.HandleCheckbox | src/components/todoItem.jsx:67-71 | Exactly one toggle intent for the item's id is sent |
| TodoItemComponent.TodoItem.HandleDeleteClick | src/components/todoItem.jsx:97-104 | Callable only while the delete control is shown; exactly one delete intent for the item's id is sent |

## Left out

- Markup, styles, images and button captions are presentation. Of a row, the model keeps what it shows in each mode and when its controls appear (`Render`).
- React's `setState` batching and scheduling are left out. Each handler is one atomic state change.
- `handleKeyPress` (Enter moves focus to the description field) is focus handling with no state change.
- Text.LowerChar: does not model full Unicode `toLowerCase`, only Basic Latin, Latin-1 and basic Cyrillic upper-case letters, because the full case tables are outside this model; other characters are left unchanged.
- The urgency filter buttons appear only while the list is non-empty. That is presentation; `HandleUrgencyChange` can be called in any state.
- Task ids are JavaScript numbers and are modelled as unbounded integers. Clock readings plus indices stay well inside the exactly representable range.
