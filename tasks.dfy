/**
 * The to-do list of js/comp_work.js: a newest-first list of tasks kept in
 * localStorage under "tasks". `addTask`, `removeTask` and
 * `toggleTaskCompletion` each read the list, change it, write it back and
 * call `loadTasks`, which rebuilds the list items from storage.
 *
 * The stored JSON text is represented by its decoded value: `None` when the
 * key is absent (or holds the empty string, which `|| '[]'` also replaces),
 * `Some(tasks)` otherwise.
 */
module Tasks {
  import opened JsValues

  datatype Task = Task(text: string, completed: bool, timestamp: int)

  /** What `createTaskElement(task, index)` builds: the checkbox state, the
      text of the span, the span's class, and the index that both the
      checkbox's change handler and the remove button's click handler pass
      on. */
  datatype TaskItem = TaskItem(checked: bool, text: string, textClass: string, boundIndex: nat)

  const CompletedClass := "task-text completed"
  /** The template literal leaves a trailing space when the task is open. */
  const OpenClass := "task-text "

  function RenderItem(task: Task, index: nat): TaskItem {
    TaskItem(task.completed, task.text,
             if task.completed then CompletedClass else OpenClass, index)
  }

  /** The items `loadTasks` appends, one per task, in stored order. */
  function Rendered(tasks: seq<Task>): (items: seq<TaskItem>)
    ensures |items| == |tasks|
    ensures forall i :: 0 <= i < |tasks| ==>
      items[i].boundIndex == i && items[i].text == tasks[i].text &&
      items[i].checked == tasks[i].completed &&
      (items[i].textClass == CompletedClass <==> tasks[i].completed)
  {
    seq(|tasks|, i requires 0 <= i < |tasks| => RenderItem(tasks[i], i))
  }

  // ---------------------------------------------------------------------
  // The three list operations, on values

  /** `tasks.unshift(task)`. */
  function Unshift(tasks: seq<Task>, task: Task): (r: seq<Task>)
    ensures |r| == |tasks| + 1 && r[0] == task
    ensures forall i :: 0 <= i < |tasks| ==> r[i + 1] == tasks[i]
  {
    [task] + tasks
  }

  /** The position `splice(start, ...)` starts at: a negative start counts
      from the end and is clamped at 0, a start past the end is clamped at
      the length. */
  function SpliceStart(len: nat, start: int): nat {
    if start < 0 then (if len + start < 0 then 0 else len + start)
    else if start > len then len
    else start
  }

  /** `tasks.splice(index, 1)`: the task at the splice position goes, when
      there is one. */
  function RemoveAt(tasks: seq<Task>, index: int): (r: seq<Task>)
    ensures 0 <= index < |tasks| ==>
      |r| == |tasks| - 1 &&
      (forall i :: 0 <= i < index ==> r[i] == tasks[i]) &&
      (forall i :: index <= i < |r| ==> r[i] == tasks[i + 1])
    ensures index >= |tasks| ==> r == tasks
    ensures -|tasks| <= index < 0 ==> r == tasks[..|tasks| + index] + tasks[|tasks| + index + 1..]
    ensures index < -|tasks| && tasks != [] ==> r == tasks[1..]
  {
    var s := SpliceStart(|tasks|, index);
    if s < |tasks| then tasks[..s] + tasks[s + 1..] else tasks
  }

  /** `tasks[index].completed = !tasks[index].completed`. */
  function Toggle(tasks: seq<Task>, index: int): (r: seq<Task>)
    requires 0 <= index < |tasks|
    ensures |r| == |tasks|
    ensures r[index].completed == !tasks[index].completed
    ensures r[index].text == tasks[index].text && r[index].timestamp == tasks[index].timestamp
    ensures forall i :: 0 <= i < |tasks| && i != index ==> r[i] == tasks[i]
  {
    tasks[index := tasks[index].(completed := !tasks[index].completed)]
  }

  // ---------------------------------------------------------------------
  // Properties of the operations

  /** Removing a task in range takes exactly that one task out of the list. */
  lemma RemoveTakesOne(tasks: seq<Task>, index: int)
    requires 0 <= index < |tasks|
    ensures multiset(RemoveAt(tasks, index)) + multiset{tasks[index]} == multiset(tasks)
  {
    assert tasks == tasks[..index] + [tasks[index]] + tasks[index + 1..];
  }

  /** Removing the first task right after adding one restores the list. */
  lemma RemoveFirstUndoesAdd(tasks: seq<Task>, task: Task)
    ensures RemoveAt(Unshift(tasks, task), 0) == tasks
  {
    assert Unshift(tasks, task)[1..] == tasks;
  }

  /** Toggling the same task twice gives back the list. */
  lemma ToggleTwice(tasks: seq<Task>, index: int)
    requires 0 <= index < |tasks|
    ensures Toggle(Toggle(tasks, index), index) == tasks
  {
  }

  /** add, then toggle(0), then remove(0): the added task is gone and every
      other task is where it was. */
  lemma {:induction false} AddToggleRemove(tasks: seq<Task>, task: Task)
    ensures RemoveAt(Toggle(Unshift(tasks, task), 0), 0) == tasks
  {
    var toggled := Toggle(Unshift(tasks, task), 0);
    assert toggled[1..] == tasks;
  }

  /** The remove button of rendered item i removes task i and nothing else. */
  lemma {:induction false} RemoveButtonRemovesItsTask(tasks: seq<Task>, i: nat)
    requires i < |tasks|
    ensures var r := RemoveAt(tasks, Rendered(tasks)[i].boundIndex);
      |r| == |tasks| - 1 && multiset(r) + multiset{tasks[i]} == multiset(tasks)
  {
    RemoveTakesOne(tasks, i);
  }

  /** The checkbox of rendered item i flips task i and nothing else, and the
      list rendered afterwards shows item i with the other class. */
  lemma {:induction false} CheckboxTogglesItsTask(tasks: seq<Task>, i: nat)
    requires i < |tasks|
    ensures var r := Toggle(tasks, Rendered(tasks)[i].boundIndex);
      (Rendered(r)[i].textClass == CompletedClass <==> !tasks[i].completed) &&
      forall j :: 0 <= j < |tasks| && j != i ==> Rendered(r)[j] == Rendered(tasks)[j]
  {
    var r := Toggle(tasks, i);
    forall j | 0 <= j < |tasks| && j != i
      ensures Rendered(r)[j] == Rendered(tasks)[j]
    {
      assert r[j] == tasks[j];
    }
  }

  // ---------------------------------------------------------------------
  // The widget

  class TaskWidget {
    /** localStorage "tasks", decoded. */
    var storedTasks: Option<seq<Task>>
    /** The value of `#task-input`. */
    var input: string
    /** The children of `#task-list`. */
    var items: seq<TaskItem>
    const hasInput: bool
    const hasList: bool

    constructor (storedTasks: Option<seq<Task>>, input: string, hasInput: bool, hasList: bool)
      ensures this.storedTasks == storedTasks && this.input == input
      ensures this.hasInput == hasInput && this.hasList == hasList && items == []
    {
      this.storedTasks := storedTasks;
      this.input := input;
      this.hasInput := hasInput;
      this.hasList := hasList;
      items := [];
    }

    /** `JSON.parse(localStorage.getItem('tasks') || '[]')`. */
    function Tasks(): seq<Task>
      reads this
    {
      storedTasks.GetOr([])
    }

    /** `loadTasks()`: nothing when the list element is missing; otherwise
        the list is emptied and one item per stored task is appended. */
    method LoadTasks()
      modifies this
      ensures storedTasks == old(storedTasks) && input == old(input)
      ensures hasList ==> items == Rendered(Tasks())
      ensures !hasList ==> items == old(items)
    {
      if !hasList {
        return;
      }
      var tasks := Tasks();
      items := [];
      var index := 0;
      while index < |tasks|
        invariant 0 <= index <= |tasks|
        invariant storedTasks == old(storedTasks) && input == old(input)
        invariant |items| == index
        invariant forall j :: 0 <= j < index ==> items[j] == RenderItem(tasks[j], j)
      {
        items := items + [RenderItem(tasks[index], index)];
        index := index + 1;
      }
    }

    /** `addTask()` at time `now`: a blank trimmed input changes nothing;
        otherwise the trimmed text goes first in the stored list, the input
        is cleared and the list re-rendered. */
    method AddTask(now: int)
      modifies this
      ensures !hasInput || AllSpace(old(input)) ==>
        storedTasks == old(storedTasks) && input == old(input) && items == old(items)
      ensures hasInput && !AllSpace(old(input)) ==>
        storedTasks == Some(Unshift(old(Tasks()), Task(Trim(old(input)), false, now))) &&
        input == "" &&
        items == (if hasList then Rendered(Tasks()) else old(items))
    {
      if !hasInput {
        return;
      }
      var taskText := Trim(input);
      TrimBlank(input);
      if taskText == "" {
        return;
      }
      var tasks := Tasks();
      tasks := Unshift(tasks, Task(taskText, false, now));
      storedTasks := Some(tasks);
      input := "";
      LoadTasks();
    }

    /** `removeTask(index)`: the spliced list is always written back, even
        when nothing was removed. */
    method RemoveTask(index: int)
      modifies this
      ensures storedTasks == Some(RemoveAt(old(Tasks()), index))
      ensures input == old(input)
      ensures items == (if hasList then Rendered(Tasks()) else old(items))
    {
      var tasks := Tasks();
      tasks := RemoveAt(tasks, index);
      storedTasks := Some(tasks);
      LoadTasks();
    }

    /** `toggleTaskCompletion(index)`: an index with no task makes line 115
        throw a TypeError before anything is written. */
    method ToggleTaskCompletion(index: int)
      modifies this
      ensures !(0 <= index < |old(Tasks())|) ==>
        storedTasks == old(storedTasks) && items == old(items)
      ensures 0 <= index < |old(Tasks())| ==>
        storedTasks == Some(Toggle(old(Tasks()), index)) &&
        items == (if hasList then Rendered(Tasks()) else old(items))
      ensures input == old(input)
    {
      var tasks := Tasks();
      if !(0 <= index < |tasks|) {
        return;
      }
      tasks := Toggle(tasks, index);
      storedTasks := Some(tasks);
      LoadTasks();
    }
  }
}
