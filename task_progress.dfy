/** Progress and the suggested status of a task, derived from its todos
    (`src/utils/task-progress.ts`). */
module TaskProgress {
  import opened Common
  import opened TasksContext

  datatype Progress = Progress(percentage: int, completed: nat, total: nat)

  predicate IsComplete(d: TodoItem) { d.status == Complete }
  predicate IsInProgress(d: TodoItem) { d.status == InProgress }
  function StatusOf(d: TodoItem): TodoStatus { d.status }

  /** The number of todos the `Complete` filter keeps is the number of
      `Complete` entries among the todos' statuses. */
  lemma {:induction false} CountComplete(todos: seq<TodoItem>)
    ensures |Filter(IsComplete, todos)| == multiset(MapSeq(StatusOf, todos))[Complete]
  {
    if todos != [] {
      CountComplete(todos[1..]);
      assert MapSeq(StatusOf, todos) == [todos[0].status] + MapSeq(StatusOf, todos[1..]);
    }
  }

  /** `todos.filter((todo) => todo.status === 'Complete').length`. */
  function CompletedCount(todos: seq<TodoItem>): (n: nat)
    ensures n == multiset(MapSeq(StatusOf, todos))[Complete]
    ensures n <= |todos|
    ensures n == |todos| <==> forall d :: d in todos ==> d.status == Complete
    ensures n == 0 <==> forall d :: d in todos ==> d.status != Complete
  {
    FilterFullLength(IsComplete, todos);
    CountComplete(todos);
    var f := Filter(IsComplete, todos);
    assert |f| > 0 ==> f[0] in f;
    |f|
  }

  /** `todos.filter((todo) => todo.status === 'In Progress').length`. */
  function InProgressCount(todos: seq<TodoItem>): (n: nat)
    ensures n == 0 <==> forall d :: d in todos ==> d.status != InProgress
  {
    var f := Filter(IsInProgress, todos);
    assert |f| > 0 ==> f[0] in f;
    |f|
  }

  /** `Math.round(100 * completed / total)` for `total > 0`, in exact integer
      arithmetic: the nearest integer, halves rounded up. */
  function RoundedPercent(completed: nat, total: nat): (p: int)
    requires 0 < total && completed <= total
    ensures 0 <= p <= 100
    ensures 200 * completed - total < 2 * total * p <= 200 * completed + total
    ensures completed == 0 ==> p == 0
    ensures completed == total ==> p == 100
  {
    var p := (200 * completed + total) / (2 * total);
    assert 2 * total * p <= 200 * completed + total < 2 * total * (p + 1);
    RoundingBounds(completed, total, p);
    p
  }

  lemma RoundingBounds(c: nat, t: nat, p: int)
    requires 0 < t && c <= t
    requires 2 * t * p <= 200 * c + t < 2 * t * (p + 1)
    ensures 0 <= p <= 100
    ensures c == 0 ==> p == 0
    ensures c == t ==> p == 100
  {
    if p < 0 {
      MulMonotone(2 * t, p + 1, 0);
    }
    if p > 100 {
      MulMonotone(2 * t, 101, p);
    }
    if c == 0 && p > 0 {
      MulMonotone(2 * t, 1, p);
    }
    if c == t && p < 100 {
      MulMonotone(2 * t, p + 1, 100);
    }
  }

  lemma MulMonotone(a: nat, x: int, y: int)
    requires x <= y
    ensures a * x <= a * y
  {
    assert a * y - a * x == a * (y - x);
  }

  /** `calculateTaskProgress(task)`. */
  function CalculateTaskProgress(task: Task): (r: Progress)
    ensures r.total == |TodosOf(task)|
    ensures r.completed <= r.total
    ensures r.total > 0 ==> r.completed == CompletedCount(TodosOf(task))
    ensures r.total == 0 ==> r == Progress(0, 0, 0)
    ensures 0 <= r.percentage <= 100
    ensures r.total > 0 ==>
              200 * r.completed - r.total < 2 * r.total * r.percentage <= 200 * r.completed + r.total
    ensures r.total > 0 && (forall d :: d in TodosOf(task) ==> d.status == Complete) ==>
              r.percentage == 100 && r.completed == r.total
    ensures (forall d :: d in TodosOf(task) ==> d.status != Complete) ==>
              r.percentage == 0 && r.completed == 0
  {
    var todos := TodosOf(task);
    var total := |todos|;
    var completed := CompletedCount(todos);
    if total == 0 then Progress(0, 0, 0)
    else Progress(RoundedPercent(completed, total), completed, total)
  }

  /** `getSuggestedTaskStatus(task)`. */
  function SuggestedTaskStatus(task: Task): (r: TaskStatus)
    ensures TodosOf(task) == [] ==> r == task.status
    ensures TodosOf(task) != [] ==>
              (r == Done <==> forall d :: d in TodosOf(task) ==> d.status == Complete)
    ensures TodosOf(task) != [] && r != Done ==>
              (r == Doing <==> exists d :: d in TodosOf(task) && d.status in {InProgress, Complete})
    ensures TodosOf(task) != [] && r != Done && r != Doing ==> r == TaskStatus.Todo
  {
    var todos := TodosOf(task);
    if |todos| == 0 then task.status
    else
      var completed := CompletedCount(todos);
      var inProgress := InProgressCount(todos);
      var total := |todos|;
      if completed == total && total > 0 then Done
      else if inProgress > 0 || completed > 0 then Doing
      else TaskStatus.Todo
  }

  /** The statuses of a task's todos, in order. */
  function Statuses(task: Task): seq<TodoStatus> {
    MapSeq(StatusOf, TodosOf(task))
  }

  lemma StatusMembership(task: Task, s: TodoStatus)
    ensures s in multiset(Statuses(task)) <==> exists d :: d in TodosOf(task) && d.status == s
  {
    var todos := TodosOf(task);
    var sts := Statuses(task);
    if s in sts {
      var k :| 0 <= k < |sts| && sts[k] == s;
      assert todos[k] in todos;
    }
    if exists d :: d in todos && d.status == s {
      var d :| d in todos && d.status == s;
      var k :| 0 <= k < |todos| && todos[k] == d;
      assert sts[k] == s;
    }
  }

  /** Once a task has todos, the suggestion depends only on the multiset of the
      todos' statuses: not on the stored status, the todos' order, or anything else. */
  lemma SuggestionDependsOnlyOnStatuses(a: Task, b: Task)
    requires TodosOf(a) != [] && TodosOf(b) != []
    requires multiset(Statuses(a)) == multiset(Statuses(b))
    ensures SuggestedTaskStatus(a) == SuggestedTaskStatus(b)
  {
    StatusMembership(a, Pending);
    StatusMembership(b, Pending);
    StatusMembership(a, TodoStatus.Todo);
    StatusMembership(b, TodoStatus.Todo);
    StatusMembership(a, InProgress);
    StatusMembership(b, InProgress);
    StatusMembership(a, Complete);
    StatusMembership(b, Complete);
  }

  /** Storing the suggestion as the task's status and asking again gives the
      same suggestion: the reconciliation reaches a fixed point in one step. */
  lemma SuggestionIsStable(task: Task)
    ensures var t := task.(status := SuggestedTaskStatus(task));
            SuggestedTaskStatus(t) == SuggestedTaskStatus(task)
  {
  }

  /** Marking the last unfinished todo `Complete` makes the suggestion `Done`. */
  lemma CompletingLastTodoSuggestsDone(ts: seq<Task>, i: nat, todoId: string)
    requires i < |ts|
    requires exists d :: d in TodosOf(ts[i]) && d.id == todoId
    requires forall d :: d in TodosOf(ts[i]) && d.id != todoId ==> d.status == Complete
    ensures SuggestedTaskStatus(MoveTodos(ts, ts[i].id, todoId, Complete)[i]) == Done
  {
    var before := TodosOf(ts[i]);
    var after := TodosOf(MoveTodos(ts, ts[i].id, todoId, Complete)[i]);
    forall d | d in after ensures d.status == Complete {
      var k :| 0 <= k < |after| && after[k] == d;
      MoveTodoChangesOnlyStatus(ts, ts[i].id, todoId, Complete, i, k);
      assert before[k] in before;
    }
    var d :| d in before && d.id == todoId;
    var k :| 0 <= k < |before| && before[k] == d;
    MoveTodoChangesOnlyStatus(ts, ts[i].id, todoId, Complete, i, k);
    assert after[k] in after;
  }

  /** Deleting a task's only todo hands the status back to the stored value:
      reaching zero todos forces no status of its own. */
  lemma DeletingLastTodoRestoresStoredStatus(task: Task, todoId: string)
    requires forall d :: d in TodosOf(task) ==> d.id == todoId
    ensures SuggestedTaskStatus(DeleteTodoInTask(task, todoId)) == task.status
  {
    FilterEmpty((d: TodoItem) => d.id != todoId, TodosOf(task));
  }

  /** A task with four todos, two of them complete, is half done. */
  lemma HalfDoneExample(task: Task)
    requires |Statuses(task)| == 4 && multiset(Statuses(task))[Complete] == 2
    ensures CalculateTaskProgress(task).percentage == 50
  {
  }

  /** The rounding can report 100 before every todo is `Complete`: with 200 todos
      of which 199 are complete, 99.5 rounds up to 100. */
  lemma FullPercentWithUnfinishedTodo()
    ensures RoundedPercent(199, 200) == 100
  {
  }
}
