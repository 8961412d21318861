/** The records the goal-creation flow passes around: draft tasks (what the
    create-goal page edits), the loose entries the plan normaliser accepts, the
    normalised day plans, and the stored goal. Dates are day ordinals; their
    `yyyy-MM-dd` text is produced by a formatter passed in by the caller. */
module GoalModel {
  import opened Wrappers

  /** A task of the draft list shown before a goal is created: produced by the
      fallback template, by the generation service, or added by the user. */
  datatype DraftTask = DraftTask(
    id: int,
    text: string,
    completed: bool,
    stage: int,
    stageName: string,
    dayRange: string)

  const FoundationStage := "基础阶段"
  const PracticeStage := "实践阶段"
  const AdvancedStage := "进阶阶段"
  /** The stage name of an unstaged task. */
  const RegularStage := "常规任务"

  /** The fixed name of stages 1, 2 and 3; no name for any other stage. */
  function KnownStageName(stage: int): (r: Option<string>)
    ensures r.Some? <==> 1 <= stage <= 3
    ensures stage == 1 ==> r == Some(FoundationStage)
    ensures stage == 2 ==> r == Some(PracticeStage)
    ensures stage == 3 ==> r == Some(AdvancedStage)
  {
    if stage == 1 then Some(FoundationStage)
    else if stage == 2 then Some(PracticeStage)
    else if stage == 3 then Some(AdvancedStage)
    else None
  }

  /** The id of a task inside a day plan: copied from the source task (numeric)
      or synthesised as `${date}-${index}`. */
  datatype TaskKey = NumKey(n: int) | TextKey(s: string)

  /** One element of the list handed to the plan normaliser. Every field may be
      missing (`None` is `null` or `undefined`); `tasks` is present exactly when
      the source value is an array. */
  datatype RawEntry = RawEntry(
    id: Option<TaskKey>,
    title: Option<string>,
    text: Option<string>,
    minutes: Option<int>,
    completed: Option<bool>,
    date: Option<string>,
    tasks: Option<seq<RawEntry>>)

  /** A draft task as the normaliser sees it: it has an id, a text and a
      completion flag, and none of `title`, `minutes`, `date`, `tasks`. */
  function AsRawEntry(t: DraftTask): RawEntry {
    RawEntry(Some(NumKey(t.id)), None, Some(t.text), None, Some(t.completed), None, None)
  }

  /** A task of one day of a stored goal. */
  datatype DayTask = DayTask(id: TaskKey, title: string, minutes: int, completed: bool)

  /** The tasks of one calendar day. */
  datatype DayPlan = DayPlan(date: string, tasks: seq<DayTask>)

  /** What the create-goal page remembers after generating a plan. */
  datatype GoalInfo = GoalInfo(
    description: string,
    period: int,
    startDay: int,
    startDate: string,
    endDate: string)

  /** A stored goal record. */
  datatype Goal = Goal(
    id: string,
    title: string,
    description: string,
    period: int,
    startDate: string,
    endDate: string,
    dailyTasks: seq<DayPlan>,
    tasks: seq<DraftTask>,
    createdAt: int)
}
