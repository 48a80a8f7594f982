/**
 * The task manager (task/task_manager.py): tasks with a title, a
 * description, a priority, a done status and a due date, numbered by
 * position when added.
 */
module Tasks {
  import opened Wrappers
  import opened Text
  import Json
  import Csv
  import RecordStore

  /**
   * The `done` attribute: a bool when the task is created, but the CSV text
   * of the Status column ("True", "False", ...) when it is imported.
   */
  datatype Status = Flag(done: bool) | Label(text: string)

  /** `Tasks(task_id, task_title, description, priority, done, due_date)`; the due date is `due_date or now()`. */
  datatype Task = Task(id: int, title: string, description: string, priority: string, done: Status, dueDate: Stamp)

  function TaskId(t: Task): int { t.id }

  /** The three labels `create_task` accepts ("High", "Medium", "Low"). */
  const PriorityLabels: seq<string> := ["Высокий", "Средний", "Низкий"]

  /**
   * The answer `create_task` keeps: it re-prompts until an answer is one of
   * the labels, so it keeps the first such answer.
   */
  function FirstValidPriority(answers: seq<string>): (r: Option<nat>)
    ensures r.None? <==> forall j :: 0 <= j < |answers| ==> answers[j] !in PriorityLabels
    ensures r.Some? ==> r.value < |answers| && answers[r.value] in PriorityLabels
    ensures r.Some? ==> forall j :: 0 <= j < r.value ==> answers[j] !in PriorityLabels
    decreases |answers|
  {
    if answers == [] then None
    else if answers[0] in PriorityLabels then Some(0)
    else
      match FirstValidPriority(answers[1..])
      case None => None
      case Some(i) => Some(i + 1)
  }

  lemma FirstValidPriorityAt(answers: seq<string>, i: nat)
    requires i < |answers| && answers[i] in PriorityLabels
    requires forall j :: 0 <= j < i ==> answers[j] !in PriorityLabels
    ensures FirstValidPriority(answers) == Some(i)
  {
  }

  // ---------------------------------------------------------------- backing file

  function StatusToJson(st: Status): Json.Value {
    match st
    case Flag(b) => Json.Bool(b)
    case Label(s) => Json.Str(s)
  }

  /**
   * One object as `save_tasks` writes it. Its keys `title` and `done_task`
   * are not the constructor's `task_title` and `done`.
   */
  function TaskToJson(t: Task): Json.Object {
    map["task_id" := Json.Num(t.id), "title" := Json.Str(t.title), "description" := Json.Str(t.description),
        "priority" := Json.Str(t.priority), "done_task" := StatusToJson(t.done), "due_date" := Json.Str(t.dueDate)]
  }

  function DumpTasks(ts: seq<Task>): seq<Json.Object> {
    Json.EncodeAll(ts, TaskToJson)
  }

  function StatusFromJson(v: Json.Value): Option<Status> {
    match v
    case Bool(b) => Some(Flag(b))
    case Str(s) => Some(Label(s))
    case _ => None
  }

  /** `Tasks(**obj)`: all but due_date are required; due_date defaults to now. */
  function TaskFromJson(obj: Json.Object, now: Stamp): Option<Task> {
    if !Json.Binds(obj, {"task_id", "task_title", "description", "priority", "done", "due_date"},
                        {"task_id", "task_title", "description", "priority", "done"}) then None
    else
      match (Json.NumberAt(obj, "task_id"), Json.TextAt(obj, "task_title"), Json.TextAt(obj, "description"),
             Json.TextAt(obj, "priority"), StatusFromJson(obj["done"]), Json.StampAt(obj, "due_date", now))
      case (Some(id), Some(title), Some(description), Some(priority), Some(done), Some(due)) =>
        Some(Task(id, title, description, priority, done, due))
      case _ => None
  }

  function TaskDecoder(now: Stamp): Json.Object -> Option<Task> {
    obj => TaskFromJson(obj, now)
  }

  /**
   * `load_tasks`: no file is no tasks; otherwise the file loads iff every
   * object binds, giving one task per object, in order.
   */
  function LoadTasks(disk: Option<seq<Json.Object>>, now: Stamp): (r: Option<seq<Task>>)
    ensures disk.None? ==> r == Some([])
    ensures disk.Some? ==> (r.Some? <==> forall i :: 0 <= i < |disk.value| ==> TaskDecoder(now)(disk.value[i]).Some?)
    ensures disk.Some? && r.Some? ==> |r.value| == |disk.value|
    ensures disk.Some? && r.Some? ==> forall i :: 0 <= i < |disk.value| ==> TaskDecoder(now)(disk.value[i]) == Some(r.value[i])
  {
    Json.Load(disk, TaskDecoder(now))
  }

  /**
   * What `save_tasks` writes cannot be loaded back unless it is empty: the key
   * `title` is not a parameter of the constructor.
   */
  lemma SavedTasksDoNotLoad(ts: seq<Task>, now: Stamp)
    ensures LoadTasks(Some(DumpTasks(ts)), now).Some? <==> ts == []
  {
    if ts != [] {
      var obj := DumpTasks(ts)[0];
      assert obj == TaskToJson(ts[0]);
      assert "title" in obj;
      assert TaskDecoder(now)(obj).None?;
    }
  }

  // ---------------------------------------------------------------- CSV

  /** How csv.writer writes the status: `str(True)`, `str(False)`, or the text itself. */
  function StatusText(st: Status): string {
    match st
    case Flag(b) => if b then "True" else "False"
    case Label(s) => s
  }

  const TaskHeader: Csv.Row := ["ID", "Title", "Description", "Priority", "Status", "Due Date"]

  /** The row `export_to_csv` writes for a task. */
  function TaskRow(t: Task): Csv.Row {
    [IntText(t.id), t.title, t.description, t.priority, StatusText(t.done), t.dueDate]
  }

  function TaskTable(ts: seq<Task>): seq<Csv.Row> {
    Csv.Write(TaskHeader, ts, TaskRow)
  }

  /** The arguments `import_from_csv` passes to `add_task`. */
  datatype TaskInput = TaskInput(title: string, description: string, priority: string, done: Status)

  /**
   * `add_task(row['Title'], row['Description'], row['Priority'], row['Status'])`:
   * the Status text becomes `done` as it is; the ID and Due Date columns are not read.
   */
  function TaskArgs(header: Csv.Row, row: Csv.Row): Option<TaskInput> {
    match (Csv.Lookup(header, row, "Title"), Csv.Lookup(header, row, "Description"),
           Csv.Lookup(header, row, "Priority"), Csv.Lookup(header, row, "Status"))
    case (Value(title), Value(description), Value(priority), Value(status)) =>
      Some(TaskInput(title, description, priority, Label(status)))
    case _ => None
  }

  function TaskParser(header: Csv.Row): Csv.Row -> Option<TaskInput> {
    row => TaskArgs(header, row)
  }

  /** The task `add_task` makes: the given id, the arguments, and the current time as due date. */
  function TaskBuilder(now: Stamp): (int, TaskInput) -> Task {
    (id, a: TaskInput) => Task(id, a.title, a.description, a.priority, a.done, now)
  }

  /** `import_from_csv` from the list `ts`: one `add_task` per data row, until a row fails. */
  function ImportTasks(ts: seq<Task>, table: seq<Csv.Row>, now: Stamp): (seq<Task>, bool) {
    RecordStore.AddEach(ts, Csv.DataRows(table), TaskParser(Csv.Header(table)), TaskBuilder(now))
  }

  /**
   * Imported tasks are numbered on from the list they join, whatever the ID
   * column says; the tasks already there are untouched.
   */
  lemma ImportNumbersOn(ts: seq<Task>, table: seq<Csv.Row>, now: Stamp)
    requires RecordStore.NumberedFromOne(ts, TaskId)
    ensures RecordStore.NumberedFromOne(ImportTasks(ts, table, now).0, TaskId)
    ensures |ImportTasks(ts, table, now).0| >= |ts| && ImportTasks(ts, table, now).0[..|ts|] == ts
  {
    RecordStore.AddEachAdds(ts, Csv.DataRows(table), TaskParser(Csv.Header(table)), TaskBuilder(now));
    RecordStore.AddEachNumbersOn(ts, Csv.DataRows(table), TaskParser(Csv.Header(table)), TaskBuilder(now), TaskId);
  }

  /** Reading an exported row back gives `add_task` the task's title, description, priority and status text. */
  lemma TaskArgsOfRow(t: Task)
    ensures TaskArgs(TaskHeader, TaskRow(t)) == Some(TaskInput(t.title, t.description, t.priority, Label(StatusText(t.done))))
  {
    var h, row := TaskHeader, TaskRow(t);
    assert "Priority"[0] != "Due Date"[0];
    Csv.LookupAt(h, row, "Title", 1);
    Csv.LookupAt(h, row, "Description", 2);
    Csv.LookupAt(h, row, "Priority", 3);
    Csv.LookupAt(h, row, "Status", 4);
  }

  /**
   * Exporting and importing into an empty manager keeps every title,
   * description and priority in order and renumbers the tasks 1..N; the
   * status comes back as its CSV text and the due date as the import time.
   */
  lemma ImportOfExport(ts: seq<Task>, now: Stamp)
    ensures ImportTasks([], TaskTable(ts), now).1
    ensures |ImportTasks([], TaskTable(ts), now).0| == |ts|
    ensures forall k :: 0 <= k < |ts| ==>
      ImportTasks([], TaskTable(ts), now).0[k]
        == Task(k + 1, ts[k].title, ts[k].description, ts[k].priority, Label(StatusText(ts[k].done)), now)
  {
    Csv.ReadWritten(TaskHeader, ts, TaskRow);
    var rows := Csv.DataRows(TaskTable(ts));
    forall k | 0 <= k < |rows|
      ensures TaskParser(TaskHeader)(rows[k])
        == Some(TaskInput(ts[k].title, ts[k].description, ts[k].priority, Label(StatusText(ts[k].done))))
    {
      assert rows[k] == TaskRow(ts[k]);
      TaskArgsOfRow(ts[k]);
    }
    RecordStore.AddEachAdds([], rows, TaskParser(TaskHeader), TaskBuilder(now));
  }

  // ---------------------------------------------------------------- the manager

  class TaskManager {
    /** `self.tasks` */
    var tasks: seq<Task>
    /** The backing file's contents; None while the file does not exist. */
    var disk: Option<seq<Json.Object>>
    /** How many times the backing file has been rewritten. */
    var writes: nat

    constructor (disk: Option<seq<Json.Object>>, tasks: seq<Task>)
      ensures this.disk == disk && this.tasks == tasks && writes == 0
    {
      this.disk := disk;
      this.tasks := tasks;
      writes := 0;
    }

    /** `save_tasks`: rewrites the whole file from the list. */
    method SaveTasks()
      modifies this
      ensures tasks == old(tasks)
      ensures disk == Some(DumpTasks(tasks)) && writes == old(writes) + 1
    {
      disk := Some(DumpTasks(tasks));
      writes := writes + 1;
    }

    /** `add_task`: appends one task numbered len + 1, due now, then saves. */
    method AddTask(title: string, description: string, priority: string, done: Status, now: Stamp)
      modifies this
      ensures tasks == old(tasks) + [Task(|old(tasks)| + 1, title, description, priority, done, now)]
      ensures disk == Some(DumpTasks(tasks)) && writes == old(writes) + 1
    {
      tasks := tasks + [Task(|tasks| + 1, title, description, priority, done, now)];
      SaveTasks();
    }

    /**
     * `create_task`: the priority answers are read one after another until
     * one is a valid label; that task is added, not done. The due date answer
     * is read and dropped: `add_task` always sets the due date to now. When
     * the answers run out first, `input` raises and nothing is added.
     */
    method CreateTask(title: string, description: string, priorityAnswers: seq<string>, dueDateAnswer: string, now: Stamp)
      returns (ok: bool)
      modifies this
      ensures ok == FirstValidPriority(priorityAnswers).Some?
      ensures !ok ==> tasks == old(tasks) && disk == old(disk) && writes == old(writes)
      ensures ok ==>
        tasks == old(tasks) + [Task(|old(tasks)| + 1, title, description,
                                    priorityAnswers[FirstValidPriority(priorityAnswers).value], Flag(false), now)]
        && disk == Some(DumpTasks(tasks)) && writes == old(writes) + 1
    {
      if |priorityAnswers| == 0 {
        return false;
      }
      var i := 0;
      var priority := priorityAnswers[0];
      while priority !in PriorityLabels
        invariant 0 <= i < |priorityAnswers| && priority == priorityAnswers[i]
        invariant forall j :: 0 <= j < i ==> priorityAnswers[j] !in PriorityLabels
        decreases |priorityAnswers| - i
      {
        if i + 1 == |priorityAnswers| {
          return false;
        }
        i := i + 1;
        priority := priorityAnswers[i];
      }
      FirstValidPriorityAt(priorityAnswers, i);
      AddTask(title, description, priority, Flag(false), now);
      return true;
    }

    /** `view_task_details`: the first task with the id, or None ("not found"). */
    method ViewTaskDetails(id: int) returns (r: Option<Task>)
      ensures match RecordStore.FirstIndex(tasks, TaskId, id)
        case None => r.None?
        case Some(i) => r == Some(tasks[i])
    {
      var i := 0;
      while i < |tasks|
        invariant 0 <= i <= |tasks|
        invariant forall j :: 0 <= j < i ==> tasks[j].id != id
      {
        if tasks[i].id == id {
          RecordStore.FirstIndexAt(tasks, TaskId, id, i);
          return Some(tasks[i]);
        }
        i := i + 1;
      }
      return None;
    }

    /**
     * `edit_task`: on the first task with the id, replaces the title, the
     * description and the priority that are given, then saves; the id, the
     * status and the due date stay. An unknown id changes nothing and saves
     * nothing.
     */
    method EditTask(id: int, newTitle: Option<string>, newDescription: Option<string>, newPriority: Option<string>)
      modifies this
      ensures match RecordStore.FirstIndex(old(tasks), TaskId, id)
        case None =>
          tasks == old(tasks) && disk == old(disk) && writes == old(writes)
        case Some(i) =>
          var t := old(tasks)[i];
          tasks == old(tasks)[i := Task(id, newTitle.GetOr(t.title), newDescription.GetOr(t.description),
                                        newPriority.GetOr(t.priority), t.done, t.dueDate)]
          && disk == Some(DumpTasks(tasks)) && writes == old(writes) + 1
    {
      var i := 0;
      while i < |tasks|
        invariant 0 <= i <= |tasks|
        invariant tasks == old(tasks) && disk == old(disk) && writes == old(writes)
        invariant forall j :: 0 <= j < i ==> tasks[j].id != id
      {
        if tasks[i].id == id {
          RecordStore.FirstIndexAt(tasks, TaskId, id, i);
          var task := tasks[i];
          if newTitle.Some? {
            task := task.(title := newTitle.value);
          }
          if newDescription.Some? {
            task := task.(description := newDescription.value);
          }
          if newPriority.Some? {
            task := task.(priority := newPriority.value);
          }
          tasks := tasks[i := task];
          SaveTasks();
          return;
        }
        i := i + 1;
      }
    }

    /**
     * `delete_task`: removes the first task with the id, keeping the others
     * in order, and saves; an unknown id changes nothing and saves nothing.
     * `found` is what the source reports to the user.
     */
    method DeleteTask(id: int) returns (found: bool)
      modifies this
      ensures match RecordStore.FirstIndex(old(tasks), TaskId, id)
        case None =>
          !found && tasks == old(tasks) && disk == old(disk) && writes == old(writes)
        case Some(i) =>
          found && tasks == old(tasks)[..i] + old(tasks)[i + 1..]
          && disk == Some(DumpTasks(tasks)) && writes == old(writes) + 1
    {
      found := false;
      var i := 0;
      while i < |tasks|
        invariant 0 <= i <= |tasks|
        invariant tasks == old(tasks) && !found
        invariant forall j :: 0 <= j < i ==> tasks[j].id != id
      {
        if tasks[i].id == id {
          RecordStore.FirstIndexAt(tasks, TaskId, id, i);
          tasks := tasks[..i] + tasks[i + 1..];
          found := true;
          break;
        }
        i := i + 1;
      }
      if found {
        SaveTasks();
      }
    }

    /** `export_to_csv`: the header, then one row per task in list order. */
    method ExportToCsv() returns (table: seq<Csv.Row>)
      ensures table == TaskTable(tasks)
    {
      table := [TaskHeader];
      var i := 0;
      while i < |tasks|
        invariant 0 <= i <= |tasks|
        invariant table == Csv.Write(TaskHeader, tasks[..i], TaskRow)
      {
        assert tasks[..i + 1][..i] == tasks[..i];
        table := table + [TaskRow(tasks[i])];
        i := i + 1;
      }
      assert tasks[..i] == tasks;
    }

    /**
     * `import_from_csv`: one `add_task` per data row, each saving; a row
     * without Title, Description, Priority or Status stops the import (the
     * source raises), keeping what was added before it.
     */
    method ImportFromCsv(table: seq<Csv.Row>, now: Stamp) returns (ok: bool)
      modifies this
      ensures (tasks, ok) == ImportTasks(old(tasks), table, now)
      ensures writes == old(writes) + (|tasks| - |old(tasks)|)
      ensures |tasks| == |old(tasks)| ==> disk == old(disk)
      ensures |tasks| > |old(tasks)| ==> disk == Some(DumpTasks(tasks))
    {
      var parse := TaskParser(Csv.Header(table));
      var pending := Csv.DataRows(table);
      while pending != []
        invariant RecordStore.AddEach(tasks, pending, parse, TaskBuilder(now)) == ImportTasks(old(tasks), table, now)
        invariant |tasks| - |old(tasks)| == writes - old(writes) >= 0
        invariant |tasks| == |old(tasks)| ==> disk == old(disk)
        invariant |tasks| > |old(tasks)| ==> disk == Some(DumpTasks(tasks))
        decreases |pending|
      {
        RecordStore.AddEachStep(tasks, pending, parse, TaskBuilder(now));
        var args := parse(pending[0]);
        if args.None? {
          return false;
        }
        var a := args.value;
        AddTask(a.title, a.description, a.priority, a.done, now);
        pending := pending[1..];
      }
      return true;
    }
  }

  /** `TaskManager()`: loads the backing file; a file that does not load raises, and no manager exists. */
  method OpenTaskManager(disk: Option<seq<Json.Object>>, now: Stamp) returns (m: Option<TaskManager>)
    ensures LoadTasks(disk, now).None? ==> m.None?
    ensures LoadTasks(disk, now).Some? ==>
      m.Some? && fresh(m.value) && m.value.tasks == LoadTasks(disk, now).value
      && m.value.disk == disk && m.value.writes == 0
  {
    var loaded := LoadTasks(disk, now);
    if loaded.None? {
      return None;
    }
    var manager := new TaskManager(disk, loaded.value);
    return Some(manager);
  }

  /** A task added by `add_task` to a list numbered 1..N is numbered N + 1. */
  lemma AddTaskNumbersOn(ts: seq<Task>, title: string, description: string, priority: string, done: Status, now: Stamp)
    requires RecordStore.NumberedFromOne(ts, TaskId)
    ensures RecordStore.NumberedFromOne(ts + [Task(|ts| + 1, title, description, priority, done, now)], TaskId)
  {
    RecordStore.AddKeepsNumbering(ts, TaskId, Task(|ts| + 1, title, description, priority, done, now));
  }

  /**
   * Two `add_task` calls on a manager with no file number the tasks 1 and 2;
   * `delete_task(1)` then finds the first and leaves exactly the second,
   * unchanged, and the file holds that one task.
   */
  method AddTwoDeleteFirst(first: Task, second: Task, now: Stamp) returns (found: bool, remaining: seq<Task>, saved: Option<seq<Json.Object>>)
    ensures found
    ensures remaining == [Task(2, second.title, second.description, second.priority, second.done, now)]
    ensures saved == Some(DumpTasks(remaining))
  {
    var m := new TaskManager(None, []);
    m.AddTask(first.title, first.description, first.priority, first.done, now);
    m.AddTask(second.title, second.description, second.priority, second.done, now);
    RecordStore.FirstIndexAt(m.tasks, TaskId, 1, 0);
    found := m.DeleteTask(1);
    remaining := m.tasks;
    saved := m.disk;
  }
}
