/** How the draft task list is laid out (`TaskList`): grouped under stages 1,
    2 and 3 when some task has a positive stage, otherwise as one flat list;
    and the arguments each add button passes to `addNewTaskToStage`. */
module TaskList {
  import opened Wrappers
  import opened GoalModel
  import JsText
  import TaskManagement

  /** The arguments of an add button: `onAddNewToStage(stage, dayRange)`. */
  datatype AddRequest = AddRequest(stage: int, dayRange: string)

  /** One stage section: its stage, heading, optional day-range line, tasks
      and add button. */
  datatype StageGroup = StageGroup(stage: int, title: string, subtitle: Option<string>,
                                   tasks: seq<DraftTask>, add: AddRequest)

  /** The rendered layout: stage sections, or the flat list with its add
      button. */
  datatype Layout = Staged(groups: seq<StageGroup>) | Flat(tasks: seq<DraftTask>, add: AddRequest)

  /** `tasks.some(t => t.stage > 0)`. */
  predicate HasStages(tasks: seq<DraftTask>) {
    exists t :: t in tasks && t.stage > 0
  }

  /** `tasks.filter(t => t.stage === stage)`. */
  function FilterStage(tasks: seq<DraftTask>, stage: int): (r: seq<DraftTask>)
    ensures |r| <= |tasks|
    ensures forall t :: t in r <==> t in tasks && t.stage == stage
  {
    if tasks == [] then []
    else if tasks[0].stage == stage then [tasks[0]] + FilterStage(tasks[1..], stage)
    else FilterStage(tasks[1..], stage)
  }

  /** Filtering distributes over concatenation, so a stage section keeps the
      tasks in their list order. */
  lemma {:induction false} FilterStageAppend(a: seq<DraftTask>, b: seq<DraftTask>, stage: int)
    ensures FilterStage(a + b, stage) == FilterStage(a, stage) + FilterStage(b, stage)
  {
    if a == [] {
      assert a + b == b;
    } else {
      assert (a + b)[1..] == a[1..] + b;
      FilterStageAppend(a[1..], b, stage);
    }
  }

  /** The section of `stage`, built from the tasks of that stage. */
  function GroupOf(tasks: seq<DraftTask>, stage: int): (g: StageGroup)
    requires FilterStage(tasks, stage) != []
    ensures g.stage == stage && g.tasks == FilterStage(tasks, stage)
    ensures var first := g.tasks[0];
      && g.title == (if first.stageName != "" then first.stageName else "阶段 " + JsText.IntToString(stage))
      && (g.subtitle.Some? <==> first.dayRange != "")
      && (g.subtitle.Some? ==> g.subtitle.value == first.dayRange)
      && g.add == AddRequest(stage, if first.dayRange != "" then first.dayRange else "阶段" + JsText.IntToString(stage))
  {
    var members := FilterStage(tasks, stage);
    var first := members[0];
    var numeral := JsText.IntToString(stage);
    StageGroup(stage,
               if first.stageName != "" then first.stageName else "阶段 " + numeral,
               if first.dayRange != "" then Some(first.dayRange) else None,
               members,
               AddRequest(stage, if first.dayRange != "" then first.dayRange else "阶段" + numeral))
  }

  /** `[1, 2, 3].filter(stage => tasks.some(t => t.stage === stage))`. */
  function StagesWithTasks(tasks: seq<DraftTask>): (st: seq<int>)
    ensures forall i :: 0 <= i < |st| ==> 1 <= st[i] <= 3 && FilterStage(tasks, st[i]) != []
    ensures forall i, j :: 0 <= i < j < |st| ==> st[i] < st[j]
    ensures forall t :: t in tasks && 1 <= t.stage <= 3 ==> t.stage in st
  {
    var one := if FilterStage(tasks, 1) != [] then [1] else [];
    var two := if FilterStage(tasks, 2) != [] then [2] else [];
    var three := if FilterStage(tasks, 3) != [] then [3] else [];
    forall t | t in tasks && 1 <= t.stage <= 3
      ensures t.stage in one + two + three
    {
      assert t in FilterStage(tasks, t.stage);
    }
    one + two + three
  }

  /** The stage sections, one per stage that has tasks, in ascending stage
      order. */
  function Groups(tasks: seq<DraftTask>): (gs: seq<StageGroup>)
    ensures |gs| <= 3
    ensures forall i :: 0 <= i < |gs| ==>
      && 1 <= gs[i].stage <= 3
      && FilterStage(tasks, gs[i].stage) != []
      && gs[i] == GroupOf(tasks, gs[i].stage)
    ensures forall i, j :: 0 <= i < j < |gs| ==> gs[i].stage < gs[j].stage
    ensures forall t :: t in tasks && 1 <= t.stage <= 3 ==> exists i :: 0 <= i < |gs| && gs[i].stage == t.stage
  {
    var st := StagesWithTasks(tasks);
    var gs := seq(|st|, i requires 0 <= i < |st| => GroupOf(tasks, st[i]));
    forall t | t in tasks && 1 <= t.stage <= 3
      ensures exists i :: 0 <= i < |gs| && gs[i].stage == t.stage
    {
      var i :| 0 <= i < |st| && st[i] == t.stage;
      assert gs[i].stage == t.stage;
    }
    gs
  }

  /** The layout of the draft list. */
  function LayoutOf(tasks: seq<DraftTask>): (l: Layout)
    ensures l.Staged? <==> HasStages(tasks)
    ensures l.Staged? ==> l.groups == Groups(tasks)
    ensures l.Flat? ==> l.tasks == tasks && l.add == AddRequest(0, "")
  {
    if HasStages(tasks) then Staged(Groups(tasks)) else Flat(tasks, AddRequest(0, ""))
  }

  /** A task shows up in a stage section exactly when its stage is 1, 2 or 3;
      tasks of any other stage (stage 0 included) are not shown in the staged
      layout. */
  lemma ShownIffKnownStage(tasks: seq<DraftTask>, t: DraftTask)
    requires t in tasks
    ensures (exists i :: 0 <= i < |Groups(tasks)| && t in Groups(tasks)[i].tasks) <==> 1 <= t.stage <= 3
  {
    var gs := Groups(tasks);
    if 1 <= t.stage <= 3 {
      var i :| 0 <= i < |gs| && gs[i].stage == t.stage;
      assert t in gs[i].tasks;
    }
  }

  /** Sections are disjoint: no task is shown under two stages. */
  lemma SectionsDisjoint(tasks: seq<DraftTask>, i: int, j: int, t: DraftTask)
    requires 0 <= i < j < |Groups(tasks)|
    requires t in Groups(tasks)[i].tasks
    ensures t !in Groups(tasks)[j].tasks
  {
  }

  /** The flat add button appends a stage-0 task, so the list stays flat. */
  lemma FlatAddStaysFlat(s: TaskManagement.DraftState, now: int)
    requires LayoutOf(s.tasks).Flat?
    ensures var add := LayoutOf(s.tasks).add;
      LayoutOf(TaskManagement.AddNewTaskToStage(s, now, add.stage, add.dayRange).tasks).Flat?
  {
    var r := TaskManagement.AddNewTaskToStage(s, now, 0, "");
    assert r.tasks == s.tasks + [r.tasks[|s.tasks|]];
  }

  /** A section's add button appends the new task at the end of that same
      section, under an unchanged heading. */
  lemma StageAddJoinsItsSection(s: TaskManagement.DraftState, now: int, i: int)
    requires 0 <= i < |Groups(s.tasks)|
    ensures var g := Groups(s.tasks)[i];
            var r := TaskManagement.AddNewTaskToStage(s, now, g.add.stage, g.add.dayRange);
      && FilterStage(r.tasks, g.stage) == g.tasks + [r.tasks[|s.tasks|]]
      && GroupOf(r.tasks, g.stage).title == g.title
  {
    var g := Groups(s.tasks)[i];
    var r := TaskManagement.AddNewTaskToStage(s, now, g.add.stage, g.add.dayRange);
    assert r.tasks == s.tasks + [r.tasks[|s.tasks|]];
    FilterStageAppend(s.tasks, [r.tasks[|s.tasks|]], g.stage);
  }
}
