/** The pure parts of the create-goal hook: `handleGenerate` (period parsing,
    date range, the choice between the generation service and the fallback
    template) and `handleCreateGoal` (guard, goal record, prepend to the stored
    collection). The clock, the id generator and the storage are parameters. */
module GoalCreation {
  import opened Wrappers
  import opened GoalModel
  import JsText
  import PlanTemplate
  import PlanNormalizer

  /** The period used when the period text is not a non-zero integer. */
  const DefaultPeriod := 30

  /** The warning shown when generation failed with an empty message. */
  const GenerationFailedWarning := "LLM 生成失败，已使用默认模板"

  /** `parseInt(goalPeriod) || 30`: NaN and 0 fall back to 30. */
  function ParsePeriod(text: string): (p: int)
    ensures p != 0
    ensures JsText.ParseInt(text).None? ==> p == DefaultPeriod
    ensures JsText.ParseInt(text).Some? ==>
      p == (if JsText.ParseInt(text).value == 0 then DefaultPeriod else JsText.ParseInt(text).value)
  {
    match JsText.ParseInt(text)
    case None => DefaultPeriod
    case Some(n) => if n == 0 then DefaultPeriod else n
  }

  /** A period handed over as `days.toString()` (as the period picker does)
      is read back unchanged whenever it is not zero. */
  lemma PeriodTextRoundTrip(days: int)
    requires days != 0
    ensures ParsePeriod(JsText.IntToString(days)) == days
  {
    JsText.ParseIntOfIntToString(days);
  }

  /** Whether the generation service is enabled, and if so what the call
      returned or threw for this goal, period and date range. */
  datatype Generation =
    | GenerationDisabled
    | GenerationEnabled(outcome: Result<seq<DraftTask>, JsText.JsError>)

  /** What `handleGenerate` leaves behind: the remembered goal info, the draft
      task list it returns, and the warning it shows (`llmError`). */
  datatype Generated = Generated(info: GoalInfo, tasks: seq<DraftTask>, warning: Option<string>)

  /** The goal info `handleGenerate` remembers for a period of `period`
      days: the range of that many days from `today`. */
  function InfoFor(goalInput: string, period: int, today: int, fmt: int -> string): (info: GoalInfo)
    ensures info.description == goalInput && info.period == period
    ensures info.startDay == today && info.startDate == fmt(today)
    ensures info.endDate == fmt(today + period - 1)
  {
    GoalInfo(goalInput, period, today, fmt(today), fmt(today + period - 1))
  }

  /** `handleGenerate` for the goal text and period text, on day `today`. */
  function HandleGenerate(goalInput: string, goalPeriod: string, today: int, fmt: int -> string,
                          generation: Generation): (r: Option<Generated>)
    ensures r.None? <==> JsText.IsBlank(goalInput)
    ensures r.Some? ==> r.value.info == InfoFor(goalInput, ParsePeriod(goalPeriod), today, fmt)
    ensures r.Some? && generation.GenerationEnabled? && generation.outcome.Success? ==>
      r.value.tasks == generation.outcome.value && r.value.warning.None?
    ensures r.Some? && (generation.GenerationDisabled? || generation.outcome.Failure?) ==>
      r.value.tasks == PlanTemplate.GenerateTasksByPeriod(goalInput, r.value.info.period)
    ensures r.Some? && generation.GenerationEnabled? && generation.outcome.Failure? ==>
      var message := generation.outcome.error.message;
      r.value.warning == Some(if message != "" then message else GenerationFailedWarning)
    ensures r.Some? && generation.GenerationDisabled? ==> r.value.warning.None?
  {
    if JsText.IsBlank(goalInput) then None
    else
      var period := ParsePeriod(goalPeriod);
      var info := InfoFor(goalInput, period, today, fmt);
      match generation
      case GenerationDisabled =>
        Some(Generated(info, PlanTemplate.GenerateTasksByPeriod(goalInput, period), None))
      case GenerationEnabled(Success(tasks)) =>
        Some(Generated(info, tasks, None))
      case GenerationEnabled(Failure(e)) =>
        var warning := if e.message != "" then e.message else GenerationFailedWarning;
        Some(Generated(info, PlanTemplate.GenerateTasksByPeriod(goalInput, period), Some(warning)))
  }

  /** The goal record assembled from the remembered info and the draft tasks. */
  ghost predicate AssembledFrom(g: Goal, info: GoalInfo, tasks: seq<DraftTask>, id: string, createdAt: int) {
    && g.id == id
    && g.title == info.description
    && g.description == info.description
    && g.period == info.period
    && g.startDate == info.startDate
    && g.endDate == info.endDate
    && g.tasks == tasks
    && g.createdAt == createdAt
  }

  /** `handleCreateGoal({ tasks })` against the stored collection `goals`:
      nothing happens without goal info or tasks; otherwise the new goal,
      whose day plans are the normalised draft tasks, goes in front. */
  method HandleCreateGoal(goalInfo: Option<GoalInfo>, tasks: seq<DraftTask>, goals: seq<Goal>,
                          id: string, createdAt: int, fmt: int -> string)
    returns (goals': seq<Goal>, created: bool)
    ensures created <==> goalInfo.Some? && |tasks| > 0
    ensures !created ==> goals' == goals
    ensures created ==>
      && |goals'| == |goals| + 1
      && goals'[1..] == goals
      && AssembledFrom(goals'[0], goalInfo.value, tasks, id, createdAt)
      && PlanNormalizer.IsFlatSchedule(goals'[0].dailyTasks, DraftEntries(tasks),
                                       goalInfo.value.startDay, goalInfo.value.period, fmt)
  {
    if goalInfo.None? || |tasks| == 0 {
      return goals, false;
    }
    var info := goalInfo.value;
    var raw := DraftEntries(tasks);
    var daily := PlanNormalizer.ToDailyTasks(raw, info.startDay, info.period, fmt);
    var goal := Goal(id, info.description, info.description, info.period, info.startDate, info.endDate,
                     daily, tasks, createdAt);
    goals' := [goal] + goals;
    created := true;
  }

  /** The draft tasks as the normaliser sees them. Draft tasks carry no date,
      so the normaliser always takes its round-robin path for them. */
  function DraftEntries(tasks: seq<DraftTask>): (raw: seq<RawEntry>)
    ensures |raw| == |tasks|
    ensures forall i :: 0 <= i < |raw| ==> raw[i] == AsRawEntry(tasks[i]) && !PlanNormalizer.IsDayIndexed(raw[i])
  {
    seq(|tasks|, i requires 0 <= i < |tasks| => AsRawEntry(tasks[i]))
  }

  /** In a goal created from draft tasks, slot `k` of day `i` is draft task
      `(3i + k) mod m`: its id, its text as the title, 30 minutes, not done. */
  lemma CreatedDayTaskFromDraft(daily: seq<DayPlan>, tasks: seq<DraftTask>, startDay: int, period: int,
                                fmt: int -> string, i: nat, k: nat)
    requires |tasks| > 0
    requires PlanNormalizer.IsFlatSchedule(daily, DraftEntries(tasks), startDay, period, fmt)
    requires i < |daily| && k < PlanNormalizer.TasksPerDay
    ensures var src := tasks[PlanNormalizer.PickIndex(i, k, |tasks|)];
      daily[i].tasks[k] == DayTask(NumKey(src.id), src.text, PlanNormalizer.DefaultMinutes, false)
  {
    var raw := DraftEntries(tasks);
    assert raw[PlanNormalizer.PickIndex(i, k, |raw|)] == AsRawEntry(tasks[PlanNormalizer.PickIndex(i, k, |tasks|)]);
  }

  /** A goal created from a positive period has one day plan per day, dated
      from the start day on, and its last day is the end date. */
  lemma CreatedGoalCoversPeriod(g: Goal, info: GoalInfo, tasks: seq<DraftTask>, id: string, createdAt: int,
                                fmt: int -> string)
    requires |tasks| > 0 && info.period > 0
    requires info.startDate == fmt(info.startDay) && info.endDate == fmt(info.startDay + info.period - 1)
    requires AssembledFrom(g, info, tasks, id, createdAt)
    requires PlanNormalizer.IsFlatSchedule(g.dailyTasks, DraftEntries(tasks), info.startDay, info.period, fmt)
    ensures |g.dailyTasks| == g.period
    ensures g.dailyTasks[0].date == g.startDate
    ensures g.dailyTasks[|g.dailyTasks| - 1].date == g.endDate
  {
  }
}
