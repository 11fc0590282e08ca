/**
 * The checklist of script.js, `initTasks` with its inner `createTaskElement`
 * and `saveTasks`. Unlike the list of js/comp_work.js it keeps no
 * timestamps: the page's `.task` rows are read back as `{text, completed}`
 * and written under the same key "tasks" whenever a wired checkbox
 * changes. A stored list that is missing or empty leaves the page's own
 * default rows in place.
 */
module SavedTasks {
  import opened JsValues

  datatype SavedTask = SavedTask(text: string, completed: bool)

  /** One `.task` row: the checkbox id (which the label's `for` names), the
      label text and the checkbox state. */
  datatype TaskRow = TaskRow(id: string, labelText: string, checked: bool)

  /** `'task-' + Date.now()`. */
  function RowId(now: int): string {
    "task-" + IntToString(now)
  }

  /** Different clock readings give different ids: the number after
      "task-" reads back as the reading. */
  lemma RowIdInjective(a: int, b: int)
    ensures RowId(a) == RowId(b) <==> a == b
  {
    if RowId(a) == RowId(b) {
      assert RowId(a)[5..] == IntToString(a);
      assert RowId(b)[5..] == IntToString(b);
      ParseIntToString(a);
      ParseIntToString(b);
    }
  }

  /** Text the HTML parser hands back unchanged inside a `<label>`: no tag
      or character reference can start, no carriage return is normalised
      away and no NUL character is dropped. */
  predicate PlainText(s: string) {
    forall i :: 0 <= i < |s| ==> s[i] != '<' && s[i] != '&' && s[i] != '\r' && s[i] != '\0'
  }

  /** `labels[i]` is the `textContent` the browser's HTML parser gives the
      label built from `saved[i].text`; that parse is an input of the model,
      known only to keep plain text as it is. */
  predicate LabelsParsedFrom(saved: seq<SavedTask>, labels: seq<string>) {
    |labels| == |saved| &&
    forall i :: 0 <= i < |saved| && PlainText(saved[i].text) ==> labels[i] == saved[i].text
  }

  /** The rows `initTasks` appends for the stored tasks: row i is created at
      clock reading `clocks[i]` and its label shows `labels[i]`. */
  function RowsFor(saved: seq<SavedTask>, clocks: seq<int>, labels: seq<string>): (rows: seq<TaskRow>)
    requires |clocks| == |saved| && LabelsParsedFrom(saved, labels)
    ensures |rows| == |saved|
    ensures forall i :: 0 <= i < |saved| ==>
      rows[i].id == RowId(clocks[i]) && rows[i].checked == saved[i].completed &&
      rows[i].labelText == labels[i] &&
      (PlainText(saved[i].text) ==> rows[i].labelText == saved[i].text)
  {
    seq(|saved|, i requires 0 <= i < |saved| => TaskRow(RowId(clocks[i]), labels[i], saved[i].completed))
  }

  /** The list `saveTasks` builds from the rows, in document order. */
  function Collected(rows: seq<TaskRow>): (tasks: seq<SavedTask>)
    ensures |tasks| == |rows|
    ensures forall i :: 0 <= i < |rows| ==>
      tasks[i].text == rows[i].labelText && tasks[i].completed == rows[i].checked
  {
    seq(|rows|, i requires 0 <= i < |rows| => SavedTask(rows[i].labelText, rows[i].checked))
  }

  /** Saving the rows built from a stored list writes that list back
      exactly when every label reads back as its saved text; in particular
      it does when every text is plain. */
  lemma {:induction false} SaveAfterRestore(saved: seq<SavedTask>, clocks: seq<int>, labels: seq<string>)
    requires |clocks| == |saved| && LabelsParsedFrom(saved, labels)
    ensures Collected(RowsFor(saved, clocks, labels)) == saved <==>
      forall i :: 0 <= i < |saved| ==> labels[i] == saved[i].text
    ensures (forall i :: 0 <= i < |saved| ==> PlainText(saved[i].text)) ==>
      Collected(RowsFor(saved, clocks, labels)) == saved
  {
    var back := Collected(RowsFor(saved, clocks, labels));
    if forall i :: 0 <= i < |saved| ==> labels[i] == saved[i].text {
      forall i | 0 <= i < |saved|
        ensures back[i] == saved[i]
      {
        assert back[i].text == saved[i].text && back[i].completed == saved[i].completed;
      }
    }
    if back == saved {
      forall i | 0 <= i < |saved|
        ensures labels[i] == saved[i].text
      {
        assert back[i].text == labels[i];
      }
    }
  }

  /** Two restored rows share an id, and a label's `for` can then name the
      other row's checkbox, exactly when they were created at the same clock
      reading (within one millisecond). */
  lemma RestoredRowIds(saved: seq<SavedTask>, clocks: seq<int>, labels: seq<string>, i: nat, j: nat)
    requires |clocks| == |saved| && LabelsParsedFrom(saved, labels)
    requires i < |saved| && j < |saved|
    ensures RowsFor(saved, clocks, labels)[i].id == RowsFor(saved, clocks, labels)[j].id <==>
      clocks[i] == clocks[j]
  {
    RowIdInjective(clocks[i], clocks[j]);
  }

  class TaskPanel {
    /** localStorage "tasks", decoded; None when absent. */
    var stored: Option<seq<SavedTask>>
    /** The `.task` rows on the page, in document order. */
    var rows: seq<TaskRow>
    /** Whether the rows' checkboxes call `saveTasks` on change. */
    var wired: bool
    const hasList: bool

    constructor (stored: Option<seq<SavedTask>>, defaults: seq<TaskRow>, hasList: bool)
      ensures this.stored == stored && rows == defaults && this.hasList == hasList && !wired
    {
      this.stored := stored;
      rows := defaults;
      this.hasList := hasList;
      wired := false;
    }

    /** `JSON.parse(localStorage.getItem('tasks')) || []`. */
    function Saved(): seq<SavedTask>
      reads this
    {
      stored.GetOr([])
    }

    /** `initTasks()`, where the i-th stored task's row is created at clock
        reading `clocks[i]` and its label parses to `labels[i]`: a non-empty
        stored list replaces the rows when the list element exists (and is
        dropped when it does not); otherwise the default rows are wired. */
    method InitTasks(clocks: seq<int>, labels: seq<string>)
      requires |clocks| == |Saved()| && LabelsParsedFrom(Saved(), labels)
      modifies this
      ensures stored == old(stored)
      ensures |Saved()| > 0 && hasList ==> rows == RowsFor(Saved(), clocks, labels) && wired
      ensures |Saved()| > 0 && !hasList ==> rows == old(rows) && wired == old(wired)
      ensures |Saved()| == 0 ==> rows == old(rows) && wired
    {
      var savedTasks := Saved();
      if |savedTasks| > 0 {
        if hasList {
          rows := [];
          wired := true;
        }
        var i := 0;
        while i < |savedTasks|
          invariant 0 <= i <= |savedTasks|
          invariant stored == old(stored)
          invariant hasList ==> wired && |rows| == i
          invariant hasList ==>
            forall j :: 0 <= j < i ==> rows[j] == TaskRow(RowId(clocks[j]), labels[j], savedTasks[j].completed)
          invariant !hasList ==> rows == old(rows) && wired == old(wired)
        {
          var taskItem := TaskRow(RowId(clocks[i]), labels[i], savedTasks[i].completed);
          if hasList {
            rows := rows + [taskItem];
          }
          i := i + 1;
        }
      } else {
        wired := true;
      }
    }

    /** `saveTasks()`: one entry per row, in row order. */
    method SaveTasks()
      modifies this
      ensures stored == Some(Collected(rows))
      ensures rows == old(rows) && wired == old(wired)
    {
      var tasks: seq<SavedTask> := [];
      var i := 0;
      while i < |rows|
        invariant 0 <= i <= |rows|
        invariant |tasks| == i
        invariant forall j :: 0 <= j < i ==> tasks[j] == SavedTask(rows[j].labelText, rows[j].checked)
      {
        tasks := tasks + [SavedTask(rows[i].labelText, rows[i].checked)];
        i := i + 1;
      }
      assert tasks == Collected(rows);
      stored := Some(tasks);
    }

    /** The user sets row i's checkbox to `checked`; a wired checkbox saves
        every row. */
    method OnCheckboxChange(i: nat, checked: bool)
      requires i < |rows|
      modifies this
      ensures rows == old(rows)[i := old(rows)[i].(checked := checked)]
      ensures wired ==> stored == Some(Collected(rows))
      ensures !wired ==> stored == old(stored)
      ensures wired == old(wired)
    {
      rows := rows[i := rows[i].(checked := checked)];
      if wired {
        SaveTasks();
      }
    }
  }
}
