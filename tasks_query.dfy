/** The data side of `src/hooks/use-tasks-query.ts`: turning the backend's task
    and todo records into `Task` values, the query-key factories, and the
    request bodies the create hooks send. */
module TasksQuery {
  import opened Common
  import opened TasksContext

  /** A todo record as `GET /todos` returns it. */
  datatype RawTodo = RawTodo(
    id: string,
    taskId: Option<string>,
    title: string,
    description: Option<string>,
    status: TodoStatus)

  /** A task record as `GET /tasks` returns it; `assignee` and `dueDate` may be missing. */
  datatype RawTask = RawTask(
    id: string,
    title: string,
    description: string,
    status: TaskStatus,
    assignee: Option<string>,
    dueDate: Option<string>,
    priority: TaskPriority)

  /** `value || ''`: a missing (or empty) string becomes `''`. */
  function OrEmpty(s: Option<string>): (r: string)
    ensures s.None? ==> r == ""
    ensures s.Some? ==> r == s.value
  {
    match s
    case Some(v) => v
    case None => ""
  }

  /** The filter in `transformTask`: `todo.taskId === task.id`. */
  function BelongsTo(d: RawTodo, task: RawTask): (b: bool)
    ensures b <==> d.taskId.Some? && d.taskId.value == task.id
  {
    d.taskId == Some(task.id)
  }

  /** The per-todo object built in `transformTask`. */
  function TransformTodo(d: RawTodo): (r: TodoItem)
    ensures r.id == d.id && r.taskId == d.taskId && r.title == d.title
    ensures r.description == d.description && r.status == d.status
  {
    TodoItem(d.id, d.taskId, d.title, d.description, d.status)
  }

  /** The `todos` array `transformTask` builds: the matching records, converted, in order. */
  function AttachedTodos(task: RawTask, todos: seq<RawTodo>): seq<TodoItem> {
    MapSeq(TransformTodo, Filter((d: RawTodo) => BelongsTo(d, task), todos))
  }

  /** `transformTask(task, todos)`. */
  function TransformTask(task: RawTask, todos: seq<RawTodo>): (r: Task)
    ensures r.id == task.id && r.title == task.title && r.description == task.description
    ensures r.status == task.status && r.priority == task.priority
    ensures r.assignee == OrEmpty(task.assignee) && r.dueDate == OrEmpty(task.dueDate)
    ensures r.todos.Some? && TodosOf(r) == AttachedTodos(task, todos)
    ensures forall d :: d in TodosOf(r) ==> d.taskId == Some(task.id)
    ensures forall d :: d in todos && BelongsTo(d, task) ==> TransformTodo(d) in TodosOf(r)
    ensures forall x :: x in TodosOf(r) ==> exists d :: d in todos && BelongsTo(d, task) && x == TransformTodo(d)
  {
    var mine := Filter((d: RawTodo) => BelongsTo(d, task), todos);
    var ts := MapSeq(TransformTodo, mine);
    assert forall d :: d in mine ==> TransformTodo(d) in ts by {
      forall d | d in mine ensures TransformTodo(d) in ts {
        var k :| 0 <= k < |mine| && mine[k] == d;
        assert ts[k] == TransformTodo(d);
      }
    }
    assert forall x :: x in ts ==> exists d :: d in mine && x == TransformTodo(d) by {
      forall x | x in ts ensures exists d :: d in mine && x == TransformTodo(d) {
        var k :| 0 <= k < |ts| && ts[k] == x;
        assert mine[k] in mine;
      }
    }
    assert ts == AttachedTodos(task, todos);
    Task(task.id, task.title, task.description, task.status,
         OrEmpty(task.assignee), OrEmpty(task.dueDate), task.priority, Some(ts))
  }

  /** The attached todos keep the order of the todo list they came from. */
  lemma TransformKeepsTodoOrder(task: RawTask, a: seq<RawTodo>, b: seq<RawTodo>)
    ensures TodosOf(TransformTask(task, a + b)) ==
              TodosOf(TransformTask(task, a)) + TodosOf(TransformTask(task, b))
  {
    var p := (d: RawTodo) => BelongsTo(d, task);
    FilterConcat(p, a, b);
    MapSeqConcat(TransformTodo, Filter(p, a), Filter(p, b));
    assert TodosOf(TransformTask(task, a + b)) == AttachedTodos(task, a + b);
    assert TodosOf(TransformTask(task, a)) == AttachedTodos(task, a);
    assert TodosOf(TransformTask(task, b)) == AttachedTodos(task, b);
  }

  /** The `queryFn` of `useTasksQuery`: `tasksData.map((task) => transformTask(task, todosData))`. */
  function FetchTasks(tasks: seq<RawTask>, todos: seq<RawTodo>): (r: seq<Task>)
    ensures |r| == |tasks|
    ensures forall i :: 0 <= i < |tasks| ==> r[i] == TransformTask(tasks[i], todos)
  {
    MapSeq((t: RawTask) => TransformTask(t, todos), tasks)
  }

  /** A todo whose `taskId` names no fetched task is attached to no task at all;
      every other todo is attached to each task it names. */
  lemma FetchPlacesTodosByTaskId(tasks: seq<RawTask>, todos: seq<RawTodo>, d: RawTodo)
    requires d in todos
    ensures (forall t :: t in tasks ==> !BelongsTo(d, t)) ==>
              forall i :: 0 <= i < |tasks| ==> TransformTodo(d) !in TodosOf(FetchTasks(tasks, todos)[i])
    ensures forall i :: 0 <= i < |tasks| && BelongsTo(d, tasks[i]) ==>
              TransformTodo(d) in TodosOf(FetchTasks(tasks, todos)[i])
  {
    var r := FetchTasks(tasks, todos);
    if forall t :: t in tasks ==> !BelongsTo(d, t) {
      forall i | 0 <= i < |tasks| ensures TransformTodo(d) !in TodosOf(r[i]) {
        assert tasks[i] in tasks;
      }
    }
  }

  /** One element of a query key: a string, or the `{ filters }` object of `taskKeys.list`. */
  datatype KeyPart = Name(name: string) | Filters(filters: string)
  type QueryKey = seq<KeyPart>

  /** `taskKeys.all`. */
  const TaskKeysAll: QueryKey := [Name("tasks")]

  /** `taskKeys.lists()`. */
  function TaskKeysLists(): (k: QueryKey)
    ensures k == [Name("tasks"), Name("list")] && TaskKeysAll <= k
  {
    TaskKeysAll + [Name("list")]
  }

  /** `taskKeys.list(filters)`. */
  function TaskKeysList(filters: string): (k: QueryKey)
    ensures |k| == 3 && TaskKeysLists() <= k && k[2] == Filters(filters)
  {
    TaskKeysLists() + [Filters(filters)]
  }

  /** `taskKeys.details()`. */
  function TaskKeysDetails(): (k: QueryKey)
    ensures k == [Name("tasks"), Name("detail")] && TaskKeysAll <= k
  {
    TaskKeysAll + [Name("detail")]
  }

  /** `taskKeys.detail(id)`. */
  function TaskKeysDetail(id: string): (k: QueryKey)
    ensures |k| == 3 && TaskKeysDetails() <= k && k[2] == Name(id)
  {
    TaskKeysDetails() + [Name(id)]
  }

  /** `todoKeys.all`. */
  const TodoKeysAll: QueryKey := [Name("todos")]

  /** `todoKeys.lists()`. */
  function TodoKeysLists(): (k: QueryKey)
    ensures k == [Name("todos"), Name("list")] && TodoKeysAll <= k
  {
    TodoKeysAll + [Name("list")]
  }

  /** `todoKeys.list(taskId)`. */
  function TodoKeysList(taskId: string): (k: QueryKey)
    ensures |k| == 3 && TodoKeysLists() <= k && k[2] == Name(taskId)
  {
    TodoKeysLists() + [Name(taskId)]
  }

  /** The key hierarchy. `taskKeys.lists()` is `['tasks', 'list']` and prefixes
      every `taskKeys.list(f)`; `taskKeys.detail(id)` is `['tasks', 'detail', id]`;
      every task key starts with `taskKeys.all`; `todoKeys.list(taskId)` is
      `todoKeys.lists()` extended by exactly `taskId`. The list and detail
      families are disjoint, so a key prefix that selects the lists never
      selects a detail entry; task and todo keys never share a prefix; distinct
      task ids or filters give distinct keys. */
  lemma KeyHierarchy(f: string, g: string, id: string, other: string, taskId: string)
    ensures TaskKeysLists() == [Name("tasks"), Name("list")] && TaskKeysLists() <= TaskKeysList(f)
    ensures TaskKeysDetail(id) == [Name("tasks"), Name("detail"), Name(id)]
    ensures TaskKeysAll <= TaskKeysLists() && TaskKeysAll <= TaskKeysDetails()
    ensures TaskKeysAll <= TaskKeysList(f) && TaskKeysAll <= TaskKeysDetail(id)
    ensures TodoKeysList(taskId) == TodoKeysLists() + [Name(taskId)]
    ensures TodoKeysAll <= TodoKeysLists() <= TodoKeysList(taskId)
    ensures !(TaskKeysLists() <= TaskKeysDetail(id)) && !(TaskKeysDetails() <= TaskKeysList(f))
    ensures !(TaskKeysAll <= TodoKeysList(taskId)) && !(TodoKeysAll <= TaskKeysList(f))
    ensures !(TodoKeysAll <= TaskKeysDetail(id))
    ensures TaskKeysDetail(id) == TaskKeysDetail(other) ==> id == other
    ensures TaskKeysList(f) == TaskKeysList(g) ==> f == g
  {
    assert "tasks"[1] != "todos"[1];
    assert TaskKeysList(f)[0] == TaskKeysDetail(id)[0] == Name("tasks") != Name("todos");
    assert TodoKeysList(taskId)[0] == Name("todos");
    assert TaskKeysDetail(id)[1] == Name("detail") != Name("list");
    assert TaskKeysList(f)[1] == Name("list") != Name("detail");
    assert TaskKeysDetail(id)[2] == Name(id);
    assert TaskKeysList(f)[2] == Filters(f);
  }

  /** The body `useCreateTask` sends: the form's six fields, copied. */
  datatype NewTask = NewTask(
    title: string, description: string, status: TaskStatus,
    assignee: string, dueDate: string, priority: TaskPriority)

  /** What `useCreateTodo` is called with. */
  datatype NewTodo = NewTodo(taskId: string, title: string, description: Option<string>)

  /** The body `useCreateTodo` sends to `todosApi.create`. */
  datatype TodoBody = TodoBody(taskId: string, title: string, description: Option<string>, status: TodoStatus)

  /** `useCreateTask`'s `mutationFn`: the fields pass through unchanged. */
  function CreateTaskBody(t: NewTask): (r: NewTask)
    ensures r.title == t.title && r.description == t.description && r.status == t.status
    ensures r.assignee == t.assignee && r.dueDate == t.dueDate && r.priority == t.priority
  {
    NewTask(t.title, t.description, t.status, t.assignee, t.dueDate, t.priority)
  }

  /** `useCreateTodo`'s `mutationFn`: a new todo always starts `Pending`. */
  function CreateTodoBody(t: NewTodo): (r: TodoBody)
    ensures r.status == Pending
    ensures r.taskId == t.taskId && r.title == t.title && r.description == t.description
  {
    TodoBody(t.taskId, t.title, t.description, Pending)
  }
}
