/** Editing of the draft task list before a goal is created
    (`useTaskManagement`): the list, plus an editing cursor made of the id of
    the task being edited and the text in the edit box. Each handler is a pure
    transition on that state; tasks are matched by id with `===`. */
module TaskManagement {
  import opened Wrappers
  import opened GoalModel
  import JsText

  /** The text of a freshly added task. */
  const NewTaskText := "新任务"

  datatype DraftState = DraftState(tasks: seq<DraftTask>, editingId: Option<int>, editingText: string)

  /** The ids of the tasks in a list. */
  function Ids(tasks: seq<DraftTask>): set<int> {
    set t | t in tasks :: t.id
  }

  // ---------------------------------------------------------------------------
  // toggleTask

  /** `toggleTask(taskId)`: flips `completed` on exactly the tasks with that
      id; length, order, every other field and the cursor stay. */
  function Toggle(s: DraftState, taskId: int): (r: DraftState)
    ensures r.editingId == s.editingId && r.editingText == s.editingText
    ensures |r.tasks| == |s.tasks|
    ensures forall i :: 0 <= i < |s.tasks| ==>
      && r.tasks[i].completed == (s.tasks[i].completed != (s.tasks[i].id == taskId))
      && r.tasks[i].(completed := s.tasks[i].completed) == s.tasks[i]
  {
    s.(tasks := ToggleAll(s.tasks, taskId))
  }

  function ToggleAll(tasks: seq<DraftTask>, taskId: int): (r: seq<DraftTask>)
    ensures |r| == |tasks|
    ensures forall i :: 0 <= i < |tasks| ==>
      r[i] == if tasks[i].id == taskId then tasks[i].(completed := !tasks[i].completed) else tasks[i]
  {
    if tasks == [] then []
    else
      var t := tasks[0];
      [if t.id == taskId then t.(completed := !t.completed) else t] + ToggleAll(tasks[1..], taskId)
  }

  /** Toggling the same id twice gives back the original state. */
  lemma ToggleTwice(s: DraftState, taskId: int)
    ensures Toggle(Toggle(s, taskId), taskId) == s
  {
    var r := Toggle(Toggle(s, taskId), taskId);
    assert |r.tasks| == |s.tasks|;
    forall i | 0 <= i < |s.tasks|
      ensures r.tasks[i] == s.tasks[i]
    {
    }
  }

  /** Toggling an id no task has changes nothing. */
  lemma ToggleUnknownId(s: DraftState, taskId: int)
    requires taskId !in Ids(s.tasks)
    ensures Toggle(s, taskId) == s
  {
    var r := Toggle(s, taskId);
    forall i | 0 <= i < |s.tasks|
      ensures r.tasks[i] == s.tasks[i]
    {
      assert s.tasks[i] in s.tasks;
    }
  }

  // ---------------------------------------------------------------------------
  // startEditTask / saveEditTask / cancelEdit

  /** `startEditTask(task)`: points the cursor at the task and loads its text. */
  function StartEdit(s: DraftState, task: DraftTask): (r: DraftState)
    ensures r.tasks == s.tasks
    ensures r.editingId == Some(task.id) && r.editingText == task.text
  {
    DraftState(s.tasks, Some(task.id), task.text)
  }

  /** `saveEditTask()`: with a blank edit text nothing changes; otherwise the
      tasks with the edited id take the edit text (other fields stay) and the
      cursor is cleared. With no edited id no task matches. */
  function SaveEdit(s: DraftState): (r: DraftState)
    ensures JsText.IsBlank(s.editingText) ==> r == s
    ensures !JsText.IsBlank(s.editingText) ==>
      && r.editingId == None && r.editingText == ""
      && |r.tasks| == |s.tasks|
      && forall i :: 0 <= i < |s.tasks| ==>
           && r.tasks[i].(text := s.tasks[i].text) == s.tasks[i]
           && r.tasks[i].text == (if Some(s.tasks[i].id) == s.editingId then s.editingText else s.tasks[i].text)
  {
    if JsText.IsBlank(s.editingText) then s
    else DraftState(SetText(s.tasks, s.editingId, s.editingText), None, "")
  }

  function SetText(tasks: seq<DraftTask>, id: Option<int>, text: string): (r: seq<DraftTask>)
    ensures |r| == |tasks|
    ensures forall i :: 0 <= i < |tasks| ==>
      r[i] == if Some(tasks[i].id) == id then tasks[i].(text := text) else tasks[i]
  {
    if tasks == [] then []
    else
      var t := tasks[0];
      [if Some(t.id) == id then t.(text := text) else t] + SetText(tasks[1..], id, text)
  }

  /** `cancelEdit()`: clears the cursor and leaves the tasks alone. */
  function CancelEdit(s: DraftState): (r: DraftState)
    ensures r.tasks == s.tasks && r.editingId == None && r.editingText == ""
  {
    DraftState(s.tasks, None, "")
  }

  /** Starting an edit and saving it unchanged (non-blank) leaves the task list
      as it was: the task only takes back its own text. */
  lemma SaveUnchangedEditKeepsTasks(s: DraftState, task: DraftTask)
    requires task in s.tasks
    requires forall t :: t in s.tasks && t.id == task.id ==> t.text == task.text
    requires !JsText.IsBlank(task.text)
    ensures SaveEdit(StartEdit(s, task)).tasks == s.tasks
  {
    var e := StartEdit(s, task);
    assert SaveEdit(e).tasks == SetText(s.tasks, Some(task.id), task.text);
    var r := SetText(s.tasks, Some(task.id), task.text);
    forall i | 0 <= i < |s.tasks|
      ensures r[i] == s.tasks[i]
    {
      assert s.tasks[i] in s.tasks;
    }
  }

  // ---------------------------------------------------------------------------
  // deleteTask

  /** `tasks.filter(task => task.id !== taskId)`. */
  function Remove(tasks: seq<DraftTask>, taskId: int): (r: seq<DraftTask>)
    ensures |r| <= |tasks|
    ensures forall t :: t in r <==> t in tasks && t.id != taskId
  {
    if tasks == [] then []
    else if tasks[0].id == taskId then Remove(tasks[1..], taskId)
    else [tasks[0]] + Remove(tasks[1..], taskId)
  }

  /** `deleteTask(taskId)`: removes every task with that id and keeps the rest,
      in their original order. */
  function Delete(s: DraftState, taskId: int): (r: DraftState)
    ensures r.editingId == s.editingId && r.editingText == s.editingText
    ensures taskId !in Ids(r.tasks)
    ensures forall t :: t in s.tasks && t.id != taskId ==> t in r.tasks
    ensures forall t :: t in r.tasks ==> t in s.tasks
  {
    s.(tasks := Remove(s.tasks, taskId))
  }

  /** Deleting distributes over concatenation, so the kept tasks keep their
      relative order. */
  lemma {:induction false} RemoveAppend(a: seq<DraftTask>, b: seq<DraftTask>, taskId: int)
    ensures Remove(a + b, taskId) == Remove(a, taskId) + Remove(b, taskId)
  {
    if a != [] {
      assert (a + b)[1..] == a[1..] + b;
      RemoveAppend(a[1..], b, taskId);
    } else {
      assert a + b == b;
    }
  }

  /** Deleting an id no task has changes nothing. */
  lemma {:induction false} RemoveUnknownId(tasks: seq<DraftTask>, taskId: int)
    requires taskId !in Ids(tasks)
    ensures Remove(tasks, taskId) == tasks
  {
    if tasks != [] {
      assert tasks[0] in tasks;
      assert Ids(tasks[1..]) <= Ids(tasks) by {
        forall x | x in Ids(tasks[1..]) ensures x in Ids(tasks) {
          var t :| t in tasks[1..] && t.id == x;
          assert t in tasks;
        }
      }
      RemoveUnknownId(tasks[1..], taskId);
      assert [tasks[0]] + tasks[1..] == tasks;
    }
  }

  /** Deleting removes exactly as many tasks as carry the id. */
  lemma {:induction false} RemoveCount(tasks: seq<DraftTask>, taskId: int)
    ensures |Remove(tasks, taskId)| + CountId(tasks, taskId) == |tasks|
  {
    if tasks != [] {
      RemoveCount(tasks[1..], taskId);
    }
  }

  function CountId(tasks: seq<DraftTask>, taskId: int): nat {
    if tasks == [] then 0 else (if tasks[0].id == taskId then 1 else 0) + CountId(tasks[1..], taskId)
  }

  // ---------------------------------------------------------------------------
  // addNewTask / addNewTaskToStage

  /** `addNewTask()` at time `now`: appends one unstaged task and puts the
      cursor on it. */
  function AddNewTask(s: DraftState, now: int): (r: DraftState)
    ensures |r.tasks| == |s.tasks| + 1 && r.tasks[..|s.tasks|] == s.tasks
    ensures r.tasks[|s.tasks|] == DraftTask(now, NewTaskText, false, 0, RegularStage, "")
    ensures r.editingId == Some(r.tasks[|s.tasks|].id) && r.editingText == NewTaskText
  {
    DraftState(s.tasks + [DraftTask(now, NewTaskText, false, 0, RegularStage, "")], Some(now), NewTaskText)
  }

  /** The name `addNewTaskToStage` gives a stage: the fixed name of stages 1-3,
      otherwise `阶段 ${stage}`. */
  function StageLabel(stage: int): (name: string)
    ensures 1 <= stage <= 3 ==> Some(name) == KnownStageName(stage)
    ensures !(1 <= stage <= 3) ==> name == "阶段 " + JsText.IntToString(stage)
  {
    match KnownStageName(stage)
    case Some(n) => n
    case None => "阶段 " + JsText.IntToString(stage)
  }

  /** `addNewTaskToStage(stage, dayRange)` at time `now`: appends one task of
      that stage and day range and puts the cursor on it. */
  function AddNewTaskToStage(s: DraftState, now: int, stage: int, dayRange: string): (r: DraftState)
    ensures |r.tasks| == |s.tasks| + 1 && r.tasks[..|s.tasks|] == s.tasks
    ensures r.tasks[|s.tasks|] == DraftTask(now, NewTaskText, false, stage, StageLabel(stage), dayRange)
    ensures r.editingId == Some(now) && r.editingText == NewTaskText
  {
    var t := DraftTask(now, NewTaskText, false, stage, StageLabel(stage), dayRange);
    DraftState(s.tasks + [t], Some(now), NewTaskText)
  }

  /** The add button of the unstaged layout calls `addNewTaskToStage(0, "")`,
      which differs from `addNewTask()` only in the stage name: `阶段 0`
      instead of `常规任务`. */
  lemma StageZeroAddDiffersOnlyInName(s: DraftState, now: int)
    ensures var a := AddNewTaskToStage(s, now, 0, "");
            var b := AddNewTask(s, now);
      && a.tasks[|s.tasks|].stageName == "阶段 0"
      && b.tasks[|s.tasks|].stageName == RegularStage
      && a.(tasks := a.tasks[|s.tasks| := b.tasks[|s.tasks|]]) == b
  {
    var a := AddNewTaskToStage(s, now, 0, "");
    var b := AddNewTask(s, now);
    assert JsText.IntToString(0) == "0";
    assert a.tasks[|s.tasks| := b.tasks[|s.tasks|]] == b.tasks;
  }
}
