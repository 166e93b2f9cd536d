/** The task and todo types and the optimistic edits `TasksProvider` applies to
    the cached task list (`src/contexts/tasks-context.tsx`). */
module TasksContext {
  import opened Common

  datatype TaskStatus = Todo | Doing | Done
  datatype TaskPriority = Low | Medium | High
  datatype TodoStatus = Pending | Todo | InProgress | Complete

  /** A todo item; `taskId` and `description` are optional keys. */
  datatype TodoItem = TodoItem(
    id: string,
    taskId: Option<string>,
    title: string,
    description: Option<string>,
    status: TodoStatus)

  /** A task. `todos` is `None` for a task object that
      arrived without the key, which every reader treats as `[]`. */
  datatype Task = Task(
    id: string,
    title: string,
    description: string,
    status: TaskStatus,
    assignee: string,
    dueDate: string,
    priority: TaskPriority,
    todos: Option<seq<TodoItem>>)

  /** `task.todos || []`. */
  function TodosOf(task: Task): (r: seq<TodoItem>)
    ensures task.todos.None? ==> r == []
    ensures task.todos.Some? ==> r == task.todos.value
  {
    match task.todos
    case Some(ts) => ts
    case None => []
  }

  /** `Partial<Task>`: `Some` for each key present in the update object. */
  datatype TaskPatch = TaskPatch(
    id: Option<string>,
    title: Option<string>,
    description: Option<string>,
    status: Option<TaskStatus>,
    assignee: Option<string>,
    dueDate: Option<string>,
    priority: Option<TaskPriority>,
    todos: Option<seq<TodoItem>>)

  /** `Partial<TodoItem>`. */
  datatype TodoPatch = TodoPatch(
    id: Option<string>,
    taskId: Option<string>,
    title: Option<string>,
    description: Option<string>,
    status: Option<TodoStatus>)

  const NoTaskChanges := TaskPatch(None, None, None, None, None, None, None, None)
  const NoTodoChanges := TodoPatch(None, None, None, None, None)

  /** The object literal `{ status: newStatus }` that `moveTodo` passes on. */
  function StatusPatch(s: TodoStatus): TodoPatch {
    NoTodoChanges.(status := Some(s))
  }

  function Pick<T>(update: Option<T>, current: T): T {
    match update
    case Some(v) => v
    case None => current
  }

  /** `{ ...task, ...updates }`: every key present in the update wins. */
  function MergeTask(t: Task, u: TaskPatch): (r: Task)
    ensures u.id.Some? ==> r.id == u.id.value
    ensures u.id.None? ==> r.id == t.id
    ensures u.title.Some? ==> r.title == u.title.value
    ensures u.title.None? ==> r.title == t.title
    ensures u.description.Some? ==> r.description == u.description.value
    ensures u.description.None? ==> r.description == t.description
    ensures u.status.Some? ==> r.status == u.status.value
    ensures u.status.None? ==> r.status == t.status
    ensures u.assignee.Some? ==> r.assignee == u.assignee.value
    ensures u.assignee.None? ==> r.assignee == t.assignee
    ensures u.dueDate.Some? ==> r.dueDate == u.dueDate.value
    ensures u.dueDate.None? ==> r.dueDate == t.dueDate
    ensures u.priority.Some? ==> r.priority == u.priority.value
    ensures u.priority.None? ==> r.priority == t.priority
    ensures u.todos.Some? ==> r.todos == u.todos
    ensures u.todos.None? ==> r.todos == t.todos
    ensures u == NoTaskChanges ==> r == t
  {
    Task(
      Pick(u.id, t.id), Pick(u.title, t.title), Pick(u.description, t.description),
      Pick(u.status, t.status), Pick(u.assignee, t.assignee), Pick(u.dueDate, t.dueDate),
      Pick(u.priority, t.priority),
      match u.todos case Some(ts) => Some(ts) case None => t.todos)
  }

  /** `{ ...todo, ...updates }`. */
  function MergeTodo(t: TodoItem, u: TodoPatch): (r: TodoItem)
    ensures u.id.Some? ==> r.id == u.id.value
    ensures u.id.None? ==> r.id == t.id
    ensures u.taskId.Some? ==> r.taskId == u.taskId
    ensures u.taskId.None? ==> r.taskId == t.taskId
    ensures u.title.Some? ==> r.title == u.title.value
    ensures u.title.None? ==> r.title == t.title
    ensures u.description.Some? ==> r.description == u.description
    ensures u.description.None? ==> r.description == t.description
    ensures u.status.Some? ==> r.status == u.status.value
    ensures u.status.None? ==> r.status == t.status
    ensures u == NoTodoChanges ==> r == t
  {
    TodoItem(
      Pick(u.id, t.id),
      match u.taskId case Some(x) => Some(x) case None => t.taskId,
      Pick(u.title, t.title),
      match u.description case Some(x) => Some(x) case None => t.description,
      Pick(u.status, t.status))
  }

  /** The list edit inside `updateTask`: merge into the tasks whose id matches. */
  function UpdateTasks(ts: seq<Task>, id: string, u: TaskPatch): (r: seq<Task>)
    ensures |r| == |ts|
    ensures forall i :: 0 <= i < |ts| && ts[i].id != id ==> r[i] == ts[i]
    ensures forall i :: 0 <= i < |ts| && ts[i].id == id ==> r[i] == MergeTask(ts[i], u)
  {
    MapSeq((t: Task) => if t.id == id then MergeTask(t, u) else t, ts)
  }

  /** The list edit inside `deleteTask`: keep the tasks whose id differs. */
  function DeleteTasks(ts: seq<Task>, id: string): (r: seq<Task>)
    ensures forall t :: t in r <==> t in ts && t.id != id
  {
    Filter((t: Task) => t.id != id, ts)
  }

  /** `getTask`: `tasks.find((task) => task.id === id)`. */
  function FindTask(ts: seq<Task>, id: string): (r: Option<Task>)
    ensures r.None? <==> forall t :: t in ts ==> t.id != id
    ensures r.Some? ==> exists i :: 0 <= i < |ts| && ts[i] == r.value && r.value.id == id &&
                          forall j :: 0 <= j < i ==> ts[j].id != id
  {
    Find((t: Task) => t.id == id, ts)
  }

  /** Inside `updateTodo`: merge into the todos of one task whose id matches. */
  function UpdateTodoInTask(task: Task, todoId: string, u: TodoPatch): (r: Task)
    ensures r == task.(todos := r.todos) && r.todos.Some?
    ensures |TodosOf(r)| == |TodosOf(task)|
    ensures forall k :: 0 <= k < |TodosOf(task)| && TodosOf(task)[k].id != todoId ==>
              TodosOf(r)[k] == TodosOf(task)[k]
    ensures forall k :: 0 <= k < |TodosOf(task)| && TodosOf(task)[k].id == todoId ==>
              TodosOf(r)[k] == MergeTodo(TodosOf(task)[k], u)
  {
    task.(todos := Some(MapSeq((d: TodoItem) => if d.id == todoId then MergeTodo(d, u) else d, TodosOf(task))))
  }

  /** Inside `deleteTodo`: drop the todos of one task whose id matches. */
  function DeleteTodoInTask(task: Task, todoId: string): (r: Task)
    ensures r == task.(todos := r.todos) && r.todos.Some?
    ensures forall d :: d in TodosOf(r) <==> d in TodosOf(task) && d.id != todoId
    ensures forall d :: multiset(TodosOf(r))[d] == if d.id == todoId then 0 else multiset(TodosOf(task))[d]
  {
    var p := (d: TodoItem) => d.id != todoId;
    var kept := Filter(p, TodosOf(task));
    assert forall d :: multiset(kept)[d] == if d.id == todoId then 0 else multiset(TodosOf(task))[d] by {
      forall d ensures multiset(kept)[d] == if d.id == todoId then 0 else multiset(TodosOf(task))[d] {
        FilterMultiplicity(p, TodosOf(task), d);
      }
    }
    task.(todos := Some(kept))
  }

  /** The list edit inside `updateTodo`: only the task with `taskId` changes. */
  function UpdateTodos(ts: seq<Task>, taskId: string, todoId: string, u: TodoPatch): (r: seq<Task>)
    ensures |r| == |ts|
    ensures forall i :: 0 <= i < |ts| && ts[i].id != taskId ==> r[i] == ts[i]
    ensures forall i :: 0 <= i < |ts| && ts[i].id == taskId ==> r[i] == UpdateTodoInTask(ts[i], todoId, u)
  {
    MapSeq((t: Task) => if t.id == taskId then UpdateTodoInTask(t, todoId, u) else t, ts)
  }

  /** The list edit inside `deleteTodo`: only the task with `taskId` changes. */
  function DeleteTodos(ts: seq<Task>, taskId: string, todoId: string): (r: seq<Task>)
    ensures |r| == |ts|
    ensures forall i :: 0 <= i < |ts| && ts[i].id != taskId ==> r[i] == ts[i]
    ensures forall i :: 0 <= i < |ts| && ts[i].id == taskId ==> r[i] == DeleteTodoInTask(ts[i], todoId)
  {
    MapSeq((t: Task) => if t.id == taskId then DeleteTodoInTask(t, todoId) else t, ts)
  }

  /** `setQueryData`'s guard `if (!old) return old`: an absent cache stays absent. */
  function Edit(cache: Option<seq<Task>>, f: seq<Task> -> seq<Task>): (r: Option<seq<Task>>)
    ensures cache.None? <==> r.None?
    ensures cache.Some? ==> r == Some(f(cache.value))
  {
    match cache
    case None => None
    case Some(ts) => Some(f(ts))
  }

  /** `moveTodo(taskId, todoId, s)`: the todo edit with only a status key. Only
      the named task changes, and in it only the `todos` key. */
  function MoveTodos(ts: seq<Task>, taskId: string, todoId: string, s: TodoStatus): (r: seq<Task>)
    ensures |r| == |ts|
    ensures forall i :: 0 <= i < |ts| && ts[i].id != taskId ==> r[i] == ts[i]
    ensures forall i :: 0 <= i < |ts| && ts[i].id == taskId ==>
              r[i] == ts[i].(todos := r[i].todos) && |TodosOf(r[i])| == |TodosOf(ts[i])|
  {
    UpdateTodos(ts, taskId, todoId, StatusPatch(s))
  }

  /** Moving a todo sets its status and changes nothing else about it, nor about
      any other todo, nor about any task apart from its todo list. */
  lemma MoveTodoChangesOnlyStatus(ts: seq<Task>, taskId: string, todoId: string, s: TodoStatus, i: nat, k: nat)
    requires i < |ts| && k < |TodosOf(ts[i])|
    ensures var r := MoveTodos(ts, taskId, todoId, s);
            var before := TodosOf(ts[i])[k];
            |r| == |ts| && |TodosOf(r[i])| == |TodosOf(ts[i])| &&
            (ts[i].id == taskId ==> r[i] == ts[i].(todos := r[i].todos)) &&
            (ts[i].id != taskId ==> r[i] == ts[i]) &&
            TodosOf(r[i])[k] ==
              (if ts[i].id == taskId && before.id == todoId then before.(status := s) else before)
  {
    var r := MoveTodos(ts, taskId, todoId, s);
    if ts[i].id == taskId {
      assert r[i] == UpdateTodoInTask(ts[i], todoId, StatusPatch(s));
    }
  }

  /** An update with no keys leaves the cached list as it was. */
  lemma UpdateWithNoChanges(ts: seq<Task>, id: string)
    ensures UpdateTasks(ts, id, NoTaskChanges) == ts
  {
    var r := UpdateTasks(ts, id, NoTaskChanges);
    assert forall i :: 0 <= i < |ts| ==> r[i] == ts[i];
  }

  /** Applying the same task update twice is the same as applying it once. */
  lemma UpdateTasksIdempotent(ts: seq<Task>, id: string, u: TaskPatch)
    ensures UpdateTasks(UpdateTasks(ts, id, u), id, u) == UpdateTasks(ts, id, u)
  {
    var once := UpdateTasks(ts, id, u);
    var twice := UpdateTasks(once, id, u);
    forall i | 0 <= i < |ts| ensures twice[i] == once[i] {
      if ts[i].id == id && once[i].id == id {
        assert MergeTask(MergeTask(ts[i], u), u) == MergeTask(ts[i], u);
      }
    }
  }

  /** An update aimed at an id no task has leaves the list as it was. */
  lemma UpdateOfAbsentId(ts: seq<Task>, id: string, u: TaskPatch)
    requires forall t :: t in ts ==> t.id != id
    ensures UpdateTasks(ts, id, u) == ts
  {
    var r := UpdateTasks(ts, id, u);
    assert forall i :: 0 <= i < |ts| ==> r[i] == ts[i];
  }

  /** `deleteTask` removes every copy of a matching task, counts every other task
      as often as before, keeps the survivors' order, and deletes nothing when no id matches. */
  lemma DeleteTasksSpec(ts: seq<Task>, more: seq<Task>, id: string, t: Task)
    ensures multiset(DeleteTasks(ts, id))[t] == if t.id == id then 0 else multiset(ts)[t]
    ensures DeleteTasks(ts + more, id) == DeleteTasks(ts, id) + DeleteTasks(more, id)
    ensures (forall x :: x in ts ==> x.id != id) <==> DeleteTasks(ts, id) == ts
  {
    var p := (x: Task) => x.id != id;
    FilterMultiplicity(p, ts, t);
    FilterConcat(p, ts, more);
    FilterIdentity(p, ts);
  }

  /** `deleteTodo` keeps the remaining todos of the named task in their original order. */
  lemma DeleteTodoKeepsOrder(task: Task, todoId: string, a: seq<TodoItem>, b: seq<TodoItem>)
    requires TodosOf(task) == a + b
    ensures TodosOf(DeleteTodoInTask(task, todoId)) ==
              TodosOf(DeleteTodoInTask(task.(todos := Some(a)), todoId)) +
              TodosOf(DeleteTodoInTask(task.(todos := Some(b)), todoId))
  {
    FilterConcat((d: TodoItem) => d.id != todoId, a, b);
  }

  /** The task list the provider holds. `data` is the list stored under
      `taskKeys.lists()`; `None` before the first fetch. */
  class TaskListCache {
    var data: Option<seq<Task>>

    constructor (initial: Option<seq<Task>>)
      ensures data == initial
    {
      data := initial;
    }

    /** `const { data: tasks = [] } = useTasksQuery()`. */
    function Tasks(): (r: seq<Task>)
      reads this
      ensures data.None? ==> r == []
      ensures data.Some? ==> r == data.value
    {
      match data
      case Some(ts) => ts
      case None => []
    }

    /** `getTask(id)`: the first cached task with that id. */
    function GetTask(id: string): (r: Option<Task>)
      reads this
      ensures r.None? <==> forall t :: t in Tasks() ==> t.id != id
      ensures r.Some? ==> exists i :: 0 <= i < |Tasks()| && Tasks()[i] == r.value && r.value.id == id &&
                            forall j :: 0 <= j < i ==> Tasks()[j].id != id
    {
      FindTask(Tasks(), id)
    }

    method UpdateTask(id: string, u: TaskPatch)
      modifies this
      ensures data == Edit(old(data), (ts: seq<Task>) => UpdateTasks(ts, id, u))
    {
      data := Edit(data, (ts: seq<Task>) => UpdateTasks(ts, id, u));
    }

    method DeleteTask(id: string)
      modifies this
      ensures data == Edit(old(data), (ts: seq<Task>) => DeleteTasks(ts, id))
    {
      data := Edit(data, (ts: seq<Task>) => DeleteTasks(ts, id));
    }

    method UpdateTodo(taskId: string, todoId: string, u: TodoPatch)
      modifies this
      ensures data == Edit(old(data), (ts: seq<Task>) => UpdateTodos(ts, taskId, todoId, u))
    {
      data := Edit(data, (ts: seq<Task>) => UpdateTodos(ts, taskId, todoId, u));
    }

    method DeleteTodo(taskId: string, todoId: string)
      modifies this
      ensures data == Edit(old(data), (ts: seq<Task>) => DeleteTodos(ts, taskId, todoId))
    {
      data := Edit(data, (ts: seq<Task>) => DeleteTodos(ts, taskId, todoId));
    }

    /** `moveTodo` delegates to `updateTodo` with `{ status: newStatus }`. */
    method MoveTodo(taskId: string, todoId: string, s: TodoStatus)
      modifies this
      ensures data == Edit(old(data), (ts: seq<Task>) => MoveTodos(ts, taskId, todoId, s))
    {
      UpdateTodo(taskId, todoId, StatusPatch(s));
    }
  }
}
