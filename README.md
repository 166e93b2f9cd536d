# Task board logic, modelled in Dafny

This project models the logic inside a small task-board web app (React and TypeScript). There, a task has todos, and each todo moves through `Pending`, `Todo`, `In Progress` and `Complete`. The model covers seven parts of the app:

- **Task progress** (`TaskProgress`): the completion percentage, and the status suggested by a task's todos.
- **Optimistic edits** (`TasksContext`): the edits the tasks provider applies to its cached task list. These are update, delete and find of tasks, plus update, delete and move of todos. The list may be absent.
- **Fetch transform and query keys** (`TasksQuery`): how the fetched task and todo records become `Task` values, the hierarchical query-key factories, and the request bodies the two create hooks send.
- **Select menu** (`SelectMenu`): the searchable drop-down. This covers the options it lists and how `isOpen`, `searchQuery` and `focusedIndex` react to the keyboard, to clicks and to typing.
- **Toasts** (`ToastContext`): the toast list, with adding, default durations, removal by id and the four typed shortcuts.
- **Add-todo form** (`AddTodoForm`) and **add-task modal** (`AddTaskModal`): their submit validation, their resets, the cancel button, and the modal's Escape key.

Two shared modules support these. `Common` holds `Option` and order-preserving `Filter`, `MapSeq` and `Find` over sequences, with lemmas. `JsString` holds JavaScript's `trim` (its full whitespace set), `toLowerCase` restricted to ASCII, and `includes`.

UI state has two layers. A pure state datatype carries transition functions and the lemmas about them. A class holds the same fields. Each method that changes them (`modifies this`) ensures that the new state is the old state with that change: the named transition function for the handlers with logic, and a single field update for the plain `onChange` setters and the form's expand button. `AddTaskModal.Modal.KeyDown` changes nothing and has no `modifies` clause. The task cache follows the same pattern. `TaskListCache` holds the optional task list, and each method replaces it with a pure edit of the old list.

Inputs that come from outside are parameters:

- the toast id;
- which key was pressed, and whether the key event's target is a text input (`<input type="text">`, which in the menu is the search input);
- whether an `onCancel` callback was given.

Callbacks (`onChange`, `onAdd`, `onClose`, `onCancel`) become outputs. Each output says whether the callback was called and with what.

## Model

| member | source | states |
|---|---|---|
| Common.Filter | src/contexts/tasks-context.tsx:98 | `Array.prototype.filter`: what it keeps is exactly the elements of the input that satisfy the predicate, and it is never longer than the input |
| Common.FilterConcat | src/contexts/tasks-context.tsx:98 | filtering distributes over concatenation, so the survivors keep their relative order |
| Common.FilterMultiplicity | src/contexts/toast-context.tsx:30 | each kept element occurs as often as in the input; each dropped one occurs zero times |
| Common.FilterIdentity | src/contexts/toast-context.tsx:30 | a filter returns its input unchanged if and only if every element satisfies the predicate |
| Common.FilterFullLength | src/utils/task-progress.ts:10 | the filtered count equals the length if and only if every element satisfies the predicate |
| Common.FilterExtensional | src/components/menus/select-menu.tsx:46-48 | two predicates that agree on every element give the same filter result |
| Common.FilterIdempotent | src/components/menus/select-menu.tsx:46-48 | filtering twice by the same predicate is filtering once |
| Common.FilterEmpty | src/contexts/tasks-context.tsx:141 | a filter returns nothing if and only if no element satisfies the predicate |
| Common.MapSeq | src/hooks/use-tasks-query.ts:59 | `Array.prototype.map`: same length, and each element is the function applied to the element at the same index |
| Common.MapSeqConcat | src/hooks/use-tasks-query.ts:9-16 | mapping distributes over concatenation |
| Common.FindIndex | src/contexts/tasks-context.tsx:104 | no index if and only if no element matches; otherwise the first matching index |
| Common.Find | src/components/menus/select-menu.tsx:42 | `Array.prototype.find`: nothing if and only if no element matches; otherwise the first matching element of the list |
| JsString.LeadingSpace | src/components/todos/add-todo-form.tsx:17 | the length of the whitespace prefix: every character before it is whitespace, and the character at it (if any) is not |
| JsString.TrailingStart | src/components/todos/add-todo-form.tsx:17 | where the whitespace suffix starts: every character from it on is whitespace, and the character before it (if any) is not |
| JsString.Trim | src/components/todos/add-todo-form.tsx:17 | `String.prototype.trim`: never longer than the input, no whitespace at either end, and empty if and only if the input is all whitespace |
| JsString.TrimPadded | src/components/modals/add-task-modal.tsx:38 | trimming whitespace padding on both sides of trimmed text gives back that text |
| JsString.TrimOfTrimmed | src/components/modals/add-task-modal.tsx:37-38 | trimming text with no whitespace at either end changes nothing |
| JsString.TrimIdempotent | src/components/modals/add-task-modal.tsx:37-38 | trimming twice is trimming once |
| JsString.IsWhitespace | src/components/todos/add-todo-form.tsx:17 | the characters `trim` strips: space, tab, line feed and carriage return are among them; the control characters below tab and between carriage return and space, and every character from `!` up to U+009F (all printable ASCII but space, DEL and the C1 controls), are not |
| JsString.LowerChar | src/components/menus/select-menu.tsx:47 | each ASCII capital maps to its own lower-case letter (code point plus 32); every other character is unchanged |
| JsString.ToLower | src/components/menus/select-menu.tsx:47 | same length, lower-cased character by character |
| JsString.Includes | src/components/menus/select-menu.tsx:47 | `String.prototype.includes`: true if and only if the query occurs at some position of the string |
| JsString.IncludesEmpty | src/components/menus/select-menu.tsx:45-49 | the empty query occurs in every string |
| TaskProgress.CompletedCount | src/utils/task-progress.ts:10 | the number of `Complete` todos, stated as the count of `Complete` in the multiset of the todos' statuses: at most the number of todos; equal to it if and only if all are complete; zero if and only if none is |
| TaskProgress.CountComplete | src/utils/task-progress.ts:10 | the length of the `Complete` filter equals the number of `Complete` entries among the todos' statuses |
| TaskProgress.InProgressCount | src/utils/task-progress.ts:28 | zero if and only if no todo is `In Progress` |
| TaskProgress.RoundedPercent | src/utils/task-progress.ts:16 | `Math.round(completed / total * 100)`: between 0 and 100, within half a percent of the exact ratio, 0 with no completed todo, 100 when all are completed |
| TaskProgress.RoundingBounds | src/utils/task-progress.ts:16 | a value in the rounding band lies in 0..100 and hits the two endpoints |
| TaskProgress.CalculateTaskProgress | src/utils/task-progress.ts:3-18 | `total` is the number of todos, with a missing list counting as empty; `completed` is at most `total`; no todos gives (0, 0, 0); the percentage lies in 0..100, rounds the ratio, and is 100 when every todo is complete and 0 when none is |
| TaskProgress.SuggestedTaskStatus | src/utils/task-progress.ts:20-43 | with no todos, the stored status; otherwise `Done` if and only if every todo is `Complete`; failing that, `Doing` if and only if some todo is `In Progress` or `Complete`; otherwise `Todo` |
| TaskProgress.StatusMembership | src/utils/task-progress.ts:27-28 | a status occurs among the todos' statuses if and only if some todo has it |
| TaskProgress.SuggestionDependsOnlyOnStatuses | src/utils/task-progress.ts:27-42 | with todos present, two tasks whose todo statuses form the same multiset get the same suggestion, whatever their stored status or todo order |
| TaskProgress.SuggestionIsStable | src/utils/task-progress.ts:20-43 | storing the suggestion as the status and asking again gives the same suggestion |
| TaskProgress.CompletingLastTodoSuggestsDone | src/utils/task-progress.ts:32-34 | moving the only unfinished todo to `Complete` makes the suggestion `Done` |
| TaskProgress.DeletingLastTodoRestoresStoredStatus | src/utils/task-progress.ts:23-25 | deleting every todo of a task makes the suggestion fall back to the stored status |
| TaskProgress.HalfDoneExample | src/utils/task-progress.ts:16 | a task whose four todos have exactly two `Complete` statuses is 50 percent done |
| TaskProgress.FullPercentWithUnfinishedTodo | src/utils/task-progress.ts:16 | 199 complete todos out of 200 already round to 100 percent |
| TasksContext.MergeTask | src/contexts/tasks-context.tsx:89 | `{ ...task, ...updates }`: each key present in the update wins and each absent key keeps the task's value; an empty update changes nothing |
| TasksContext.MergeTodo | src/contexts/tasks-context.tsx:124 | `{ ...todo, ...updates }`: the same per key for todos |
| TasksContext.UpdateTasks | src/contexts/tasks-context.tsx:87-90 | same length and positions; a task with the id is merged with the update; every other task is unchanged |
| TasksContext.DeleteTasks | src/contexts/tasks-context.tsx:96-99 | the result holds exactly the tasks whose id differs |
| TasksContext.FindTask | src/contexts/tasks-context.tsx:103-105 | nothing if and only if no task has the id; otherwise the first task that has it |
| TasksContext.UpdateTodoInTask | src/contexts/tasks-context.tsx:119-127 | only `todos` changes, with a missing list read as empty: same count, the todo with the id merged, every other todo unchanged |
| TasksContext.DeleteTodoInTask | src/contexts/tasks-context.tsx:139-143 | only `todos` changes: exactly the todos whose id differs remain, each as often as before, and every todo with the id is gone |
| TasksContext.UpdateTodos | src/contexts/tasks-context.tsx:115-131 | every task other than `taskId` is unchanged and the list keeps its length; the named task gets the todo edit |
| TasksContext.DeleteTodos | src/contexts/tasks-context.tsx:133-147 | every task other than `taskId` is unchanged and the list keeps its length; the named task loses the todo |
| TasksContext.Edit | src/contexts/tasks-context.tsx:87-88 | an absent cache stays absent; a present one gets the edit |
| TasksContext.MoveTodos | src/contexts/tasks-context.tsx:149-151 | `moveTodo` keeps the list's length; every task other than `taskId` is unchanged; the named task changes only in `todos`, which keeps its count |
| TasksContext.MoveTodoChangesOnlyStatus | src/contexts/tasks-context.tsx:149-151 | `moveTodo` sets the status of the todo with the id in the named task; every other todo, every other field of that task and every other task is unchanged |
| TasksContext.UpdateWithNoChanges | src/contexts/tasks-context.tsx:89 | an update with no keys leaves the list as it was |
| TasksContext.UpdateTasksIdempotent | src/contexts/tasks-context.tsx:89 | applying the same task update twice equals applying it once |
| TasksContext.UpdateOfAbsentId | src/contexts/tasks-context.tsx:89 | an update for an id no task has changes nothing |
| TasksContext.DeleteTasksSpec | src/contexts/tasks-context.tsx:98 | deletion removes every copy of a matching task, keeps every other task as often as before and in order, and leaves the list unchanged if and only if no task has the id |
| TasksContext.DeleteTodoKeepsOrder | src/contexts/tasks-context.tsx:141 | the remaining todos of the named task keep their order |
| TasksContext.TaskListCache.constructor | src/contexts/tasks-context.tsx:56 | the cache holds the given initial list, or none |
| TasksContext.TaskListCache.Tasks | src/contexts/tasks-context.tsx:56 | the provider's `tasks`: the cached list, or `[]` when there is none |
| TasksContext.TaskListCache.GetTask | src/contexts/tasks-context.tsx:103-105 | `getTask` over the cached list, with an absent list read as empty: a found task is the first cached task with that id; nothing is found if and only if no cached task has it |
| TasksContext.TaskListCache.UpdateTask | src/contexts/tasks-context.tsx:85-92 | the cache becomes the task update of the old cache, and stays absent if it was absent |
| TasksContext.TaskListCache.DeleteTask | src/contexts/tasks-context.tsx:94-101 | the cache becomes the task deletion of the old cache |
| TasksContext.TaskListCache.UpdateTodo | src/contexts/tasks-context.tsx:115-131 | the cache becomes the todo update of the old cache |
| TasksContext.TaskListCache.DeleteTodo | src/contexts/tasks-context.tsx:133-147 | the cache becomes the todo deletion of the old cache |
| TasksContext.TaskListCache.MoveTodo | src/contexts/tasks-context.tsx:149-151 | the cache becomes the todo update with only a `status` key |
| TasksContext.TodosOf | src/utils/task-progress.ts:8 | a missing todo list reads as empty; a present one is itself |
| TasksQuery.OrEmpty | src/hooks/use-tasks-query.ts:23-24 | a missing assignee or due date becomes the empty string; a present one is kept |
| TasksQuery.BelongsTo | src/hooks/use-tasks-query.ts:8 | a todo record belongs to a task exactly when it has a `taskId` equal to the task's id |
| TasksQuery.TransformTodo | src/hooks/use-tasks-query.ts:9-16 | id, task id, title, description and status are copied |
| TasksQuery.TransformTask | src/hooks/use-tasks-query.ts:6-29 | the task fields are copied and a missing assignee or due date becomes `''`; the todos are present and each has `taskId` equal to the task's id; the todos are exactly the matching records, converted, in their order and with their multiplicity (`AttachedTodos`, the filter then the map); every matching record appears converted; every attached todo comes from a matching record |
| TasksQuery.TransformKeepsTodoOrder | src/hooks/use-tasks-query.ts:7-16 | the attached todos keep the order of the todo records |
| TasksQuery.FetchTasks | src/hooks/use-tasks-query.ts:59 | one task per fetched record, in the same order, each transformed against the whole todo list |
| TasksQuery.FetchPlacesTodosByTaskId | src/hooks/use-tasks-query.ts:8 | a todo that names no fetched task is attached to none; otherwise it is attached to each task it names |
| TasksQuery.KeyHierarchy | src/hooks/use-tasks-query.ts:32-44 | `lists()` is `['tasks','list']` and prefixes every `list(f)`; `detail(id)` is `['tasks','detail',id]`; every task key starts with `all`; `todoKeys.list(id)` is `todoKeys.lists()` plus `id`; the list and detail families and the task and todo families are disjoint; distinct ids and filters give distinct keys |
| TasksQuery.TaskKeysLists | src/hooks/use-tasks-query.ts:34 | `taskKeys.lists()` is `['tasks', 'list']`, an extension of `taskKeys.all` |
| TasksQuery.TaskKeysList | src/hooks/use-tasks-query.ts:35 | `taskKeys.list(f)` has three parts: `taskKeys.lists()` then the `{ filters }` object |
| TasksQuery.TaskKeysDetails | src/hooks/use-tasks-query.ts:36 | `taskKeys.details()` is `['tasks', 'detail']`, an extension of `taskKeys.all` |
| TasksQuery.TaskKeysDetail | src/hooks/use-tasks-query.ts:37 | `taskKeys.detail(id)` has three parts: `taskKeys.details()` then `id` |
| TasksQuery.TodoKeysLists | src/hooks/use-tasks-query.ts:42 | `todoKeys.lists()` is `['todos', 'list']`, an extension of `todoKeys.all` |
| TasksQuery.TodoKeysList | src/hooks/use-tasks-query.ts:43 | `todoKeys.list(taskId)` has three parts: `todoKeys.lists()` then `taskId` |
| TasksQuery.CreateTaskBody | src/hooks/use-tasks-query.ts:78-85 | the six fields pass through unchanged |
| TasksQuery.CreateTodoBody | src/hooks/use-tasks-query.ts:104-109 | a created todo is always sent with status `Pending`; the other fields are copied |
| SelectMenu.LabelMatches | src/components/menus/select-menu.tsx:47 | an option matches exactly when the lower-cased query occurs at some position of the lower-cased label; the empty query matches every option |
| SelectMenu.FilteredOptions | src/components/menus/select-menu.tsx:45-49 | not searchable or empty query: all options; otherwise exactly the options whose lower-cased label includes the lower-cased query |
| SelectMenu.FilteredKeepsOrder | src/components/menus/select-menu.tsx:46-48 | the listed options keep the order of `options` |
| SelectMenu.SearchIgnoresCase | src/components/menus/select-menu.tsx:47 | queries that lower-case alike list the same options |
| SelectMenu.SelectedOption | src/components/menus/select-menu.tsx:42 | a found option is the first option that carries the current value; nothing is found if and only if no option has that value |
| SelectMenu.NextFocusDown | src/components/menus/select-menu.tsx:124-127 | from the last option or beyond (0 over an empty list included) the focus goes to 0; from -1 or any option before the last, to the next one; over a non-empty list it stays in range |
| SelectMenu.NextFocusUp | src/components/menus/select-menu.tsx:131-134 | from -1 or 0 the focus goes to the last option; otherwise to the previous one; over a non-empty list it stays in range |
| SelectMenu.ArrowKeysAreInverse | src/components/menus/select-menu.tsx:122-135 | on a focused option, ArrowUp undoes ArrowDown and ArrowDown undoes ArrowUp |
| SelectMenu.PressDownAdds | src/components/menus/select-menu.tsx:124-127 | `a` presses followed by `b` presses are `a + b` presses |
| SelectMenu.PressDownAdvances | src/components/menus/select-menu.tsx:124-127 | below the last option, `k` presses of ArrowDown move the focus down by `k` |
| SelectMenu.PressDownCycles | src/components/menus/select-menu.tsx:124-127 | over `n` listed options, `n` presses of ArrowDown return to the focused option |
| SelectMenu.OnKeyDown | src/components/menus/select-menu.tsx:100-156 | keys do nothing while closed. In a text input, ArrowDown focuses 0, ArrowUp focuses the last option and other keys are ignored. Any key other than the four named ones changes nothing anywhere. Otherwise the arrows wrap, Escape closes and resets, and Enter calls `onChange` if and only if the focus is in range on an enabled option, then closes and resets; a refused Enter changes nothing |
| SelectMenu.OnSelect | src/components/menus/select-menu.tsx:164-170 | a disabled option changes nothing; an enabled one emits its value and closes the menu with the query and focus reset |
| SelectMenu.OnSearchChange | src/components/menus/select-menu.tsx:172-175 | the query becomes the text and the focus resets to -1 |
| SelectMenu.OnClearSearch | src/components/menus/select-menu.tsx:177-180 | the query is emptied; open state and focus are kept |
| SelectMenu.SetOpen | src/components/menus/select-menu.tsx:66-71 | closing always ends in the closed state with an empty query and focus -1; opening keeps query and focus |
| SelectMenu.OnToggle | src/components/menus/select-menu.tsx:187 | a disabled menu does not change; otherwise the open state flips, with the close reset |
| SelectMenu.TransitionsPreserveValid | src/components/menus/select-menu.tsx:66-180 | every transition keeps a closed menu reset and the focus at -1, on a listed option, or at 0; a disabled closed menu never opens |
| SelectMenu.Menu.constructor | src/components/menus/select-menu.tsx:35-37 | the menu starts closed, with an empty query and focus -1 |
| SelectMenu.Menu.KeyDown | src/components/menus/select-menu.tsx:100-156 | the listener changes the state and emits as the key transition says, keeping the invariant |
| SelectMenu.Menu.Select | src/components/menus/select-menu.tsx:164-170 | the click changes the state and emits as the select transition says |
| SelectMenu.Menu.SearchChange | src/components/menus/select-menu.tsx:172-175 | typing changes the state as the search transition says |
| SelectMenu.Menu.ClearSearch | src/components/menus/select-menu.tsx:177-180 | the clear button changes the state as the clear transition says |
| SelectMenu.Menu.Toggle | src/components/menus/select-menu.tsx:187 | the toggle button changes the state as the toggle transition says |
| SelectMenu.Menu.Close | src/components/menus/select-menu.tsx:83-96 | a click outside closes and resets the menu |
| ToastContext.NewToast | src/contexts/toast-context.tsx:36-40 | the toast carries the given id and the input's fields; its duration is 5000 when none was given, and the given one otherwise (0 included) |
| ToastContext.SchedulesRemoval | src/contexts/toast-context.tsx:45 | `duration && duration > 0`: the removal timer is set exactly when the duration is positive |
| ToastContext.AddToast | src/contexts/toast-context.tsx:42 | exactly one toast is appended at the end, and the earlier toasts are unchanged and in order |
| ToastContext.RemoveToasts | src/contexts/toast-context.tsx:30 | exactly the toasts with a different id remain |
| ToastContext.RemoveToastsSpec | src/contexts/toast-context.tsx:29-31 | every toast with the id goes; every other toast stays as often as before and in order; an absent id changes nothing |
| ToastContext.ShowThenRemove | src/contexts/toast-context.tsx:42-48 | with a fresh id, the timer's removal restores the list as it was before `showToast` |
| ToastContext.TypedToastsExpire | src/contexts/toast-context.tsx:54-80 | each shortcut adds a toast of its own type, with duration 5000 and a removal timer |
| ToastContext.TypedInput | src/contexts/toast-context.tsx:54-80 | each shortcut passes its own type, the title and the message, and no duration |
| ToastContext.ToastList.constructor | src/contexts/toast-context.tsx:27 | the provider starts with no toasts |
| ToastContext.ToastList.ShowToast | src/contexts/toast-context.tsx:33-52 | the list gains the new toast at the end, and a removal is scheduled exactly when the duration is positive |
| ToastContext.ToastList.RemoveToast | src/contexts/toast-context.tsx:29-31 | the list loses the toasts with that id |
| ToastContext.ToastList.Success | src/contexts/toast-context.tsx:54-59 | appends a `success` toast with no duration given, so removal is scheduled |
| ToastContext.ToastList.Error | src/contexts/toast-context.tsx:61-66 | appends an `error` toast, and removal is scheduled |
| ToastContext.ToastList.Warning | src/contexts/toast-context.tsx:68-73 | appends a `warning` toast, and removal is scheduled |
| ToastContext.ToastList.Info | src/contexts/toast-context.tsx:75-80 | appends an `info` toast, and removal is scheduled |
| AddTodoForm.OptionalTrimmed | src/components/todos/add-todo-form.tsx:18 | the optional description: absent if and only if the text is blank; otherwise the trimmed, non-empty text |
| AddTodoForm.OnSubmit | src/components/todos/add-todo-form.tsx:15-23 | `onAdd` is called if and only if the title is not blank; a refused submit changes nothing; an accepted one passes the trimmed, non-empty title and the optional trimmed description, then clears and collapses the form |
| AddTodoForm.SubmitStripsPadding | src/components/todos/add-todo-form.tsx:17-18 | whatever whitespace surrounds the typed title and description, `onAdd` receives exactly the text inside it, with an empty description passed as absent |
| AddTodoForm.OnCancel | src/components/todos/add-todo-form.tsx:65-70 | cancel clears both fields and collapses the form; `onCancel` is called exactly when it was given |
| AddTodoForm.Form.constructor | src/components/todos/add-todo-form.tsx:11-13 | the form starts empty and collapsed |
| AddTodoForm.Form.Expand | src/components/todos/add-todo-form.tsx:28 | the "Add Todo" button expands the form and keeps the fields |
| AddTodoForm.Form.SetTitle | src/components/todos/add-todo-form.tsx:43 | typing replaces the title only |
| AddTodoForm.Form.SetDescription | src/components/todos/add-todo-form.tsx:53 | typing replaces the description only |
| AddTodoForm.Form.Submit | src/components/todos/add-todo-form.tsx:15-23 | the state and the `onAdd` arguments are those of the submit transition |
| AddTodoForm.Form.Cancel | src/components/todos/add-todo-form.tsx:65-70 | the state and the `onCancel` call are those of the cancel transition |
| AddTaskModal.OnOpenChange | src/components/modals/add-task-modal.tsx:13-23 | the open state follows the prop; the title is cleared when the modal becomes open, and kept otherwise |
| AddTaskModal.OnSubmit | src/components/modals/add-task-modal.tsx:35-42 | `onAdd` is called if and only if the title is not blank. A refused submit changes nothing and does not call `onClose`. An accepted one passes the trimmed, non-empty title, clears the field and calls `onClose` |
| AddTaskModal.SubmitStripsPadding | src/components/modals/add-task-modal.tsx:37-38 | whatever whitespace surrounds the typed title, `onAdd` receives exactly the text inside it |
| AddTaskModal.EscapeCallsClose | src/components/modals/add-task-modal.tsx:25-33 | `onClose` is called if and only if the key is Escape and the modal is open |
| AddTaskModal.Modal.constructor | src/components/modals/add-task-modal.tsx:11 | the modal starts with an empty title |
| AddTaskModal.Modal.SetIsOpen | src/components/modals/add-task-modal.tsx:13-23 | a new `isOpen` prop, with the resetting effect, gives the open-change transition |
| AddTaskModal.Modal.SetTitle | src/components/modals/add-task-modal.tsx:87 | typing replaces the title only |
| AddTaskModal.Modal.Submit | src/components/modals/add-task-modal.tsx:35-42 | the state, the `onAdd` argument and the `onClose` call are those of the submit transition |
| AddTaskModal.Modal.KeyDown | src/components/modals/add-task-modal.tsx:25-33 | a key press calls `onClose` exactly as the Escape rule says, and changes nothing |

## Left out

- HTTP and JSON: `src/utils/api.ts` is not part of this model. The fetched records are inputs to `TasksQuery.FetchTasks`, and the create hooks are modelled only by the bodies they send.
- react-query: `useQuery`, `useMutation`, `invalidateQueries`, refetching, `staleTime` and the two-second delay are a foreign library with asynchronous timing. The cache is an optional task list edited in place, and invalidation is not modelled.
- `addTask` and `addTodo` only forward their arguments to the create mutations. Forwarding has no logic of its own; the bodies are `TasksQuery.CreateTaskBody` and `TasksQuery.CreateTodoBody`.
- Server sync and rollback of the optimistic edits: the source has none, only TODO comments, so none is modelled.
- `createdAt` and all `new Date(...)` parsing: dates are not modelled.
- An update object that sets a key to an explicit `undefined` is not modelled. A patch key is either present with a value, or absent.
- Toast ids come from `Date.now()` and `Math.random()`, so the id is a parameter. The removal timer is modelled as a flag saying whether it was scheduled; its firing is a later call to `RemoveToast`.
- ToastContext.NewToast: a `NaN` duration is not modelled; durations are integers.
- TaskProgress.RoundedPercent: the floating-point `Math.round((completed / total) * 100)` is modelled as exact round-half-up, `(200c + t) / (2t)`. Floating-point error at exact halves is not captured.
- JsString.ToLower: lower-cases ASCII letters only. It does not model Unicode case mapping, so the select-menu search is modelled for ASCII labels and queries.
- DOM focus, blur, the focus timers and the document listeners are browser behaviour. Attaching a listener is modelled as "the handler runs only while the menu is open", and the key event's target as a flag.
- The select menu's props (`options`, `searchable`, `disabled`, `value`) are fixed for a `SelectMenu.Menu` instance; a parent re-rendering with new props is not modelled.
- The add-task modal's backdrop, close button and Cancel button only call `onClose`. They have no logic of their own and are not modelled.
- Markup, styling, skeletons, buttons, navigation, layout, pages, the theme toggle, the todo card and the confirm modal are not part of this model.
- The component tests expect behaviour the components do not implement: blur-time validation, an `aria-invalid` flag, a "title is required" message, disabled inputs while loading, and an object payload from the add-task modal. The model follows the components' code.
- A task's status could be re-derived from its todos after every todo edit. The code modelled here computes the suggestion (`TaskProgress.SuggestedTaskStatus`) but never writes it back, and the model follows the code. `TaskProgress.SuggestionIsStable` states what such a write-back would give.
