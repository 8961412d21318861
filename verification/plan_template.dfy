/** The local fallback plan (`generateTasksByPeriod`): a goal and a period of
    at least nine days give three stages of three tasks over consecutive day
    ranges; a shorter (or non-positive) period gives five routine tasks. */
module PlanTemplate {
  import opened GoalModel
  import JsText

  /** The minimum period that is split into stages. */
  const StagedMinimum := 9

  /** `Math.ceil(period / 3)` for a non-negative period. */
  function CeilThird(period: nat): (s: nat)
    ensures period <= 3 * s < period + 3
  {
    (period + 2) / 3
  }

  /** An inclusive range of day numbers, counted from 1. */
  datatype DayRange = DayRange(first: int, last: int)

  /** The day ranges of the three stages: the first two stages both last
      `ceil(period / 3)` days and the third takes the rest. */
  function StageRanges(period: int): (r: seq<DayRange>)
    requires period >= StagedMinimum
    ensures |r| == 3
    ensures r[0].first == 1 && r[2].last == period
    ensures r[1].first == r[0].last + 1 && r[2].first == r[1].last + 1
    ensures forall j :: 0 <= j < 3 ==> r[j].first <= r[j].last
    ensures r[0].last == CeilThird(period) && r[1].last == 2 * CeilThird(period)
    ensures r[0].last - r[0].first == r[1].last - r[1].first >= r[2].last - r[2].first
  {
    var stage1Days := CeilThird(period);
    var stage2Days := CeilThird(period);
    [DayRange(1, stage1Days),
     DayRange(stage1Days + 1, stage1Days + stage2Days),
     DayRange(stage1Days + stage2Days + 1, period)]
  }

  /** Every day of the period falls in exactly one stage. */
  lemma EveryDayInOneStage(period: int, day: int)
    requires period >= StagedMinimum
    requires 1 <= day <= period
    ensures var r := StageRanges(period);
      exists j :: 0 <= j < 3 && r[j].first <= day <= r[j].last
    ensures var r := StageRanges(period);
      forall j, k :: 0 <= j < k < 3 && r[j].first <= day <= r[j].last ==> !(r[k].first <= day <= r[k].last)
  {
    var r := StageRanges(period);
    if day <= r[0].last {
      assert r[0].first <= day <= r[0].last;
    } else if day <= r[1].last {
      assert r[1].first <= day <= r[1].last;
    } else {
      assert r[2].first <= day <= r[2].last;
    }
  }

  /** The `第a-b天` label of a day range. */
  function RangeLabel(range: DayRange): string {
    "第" + JsText.IntToString(range.first) + "-" + JsText.IntToString(range.last) + "天"
  }

  /** A staged template task: its text is its day range label, a full-width
      colon and the activity. */
  function StageTask(id: int, stage: int, range: DayRange, activity: string): (t: DraftTask)
    requires 1 <= stage <= 3
    ensures t.text == t.dayRange + "：" + activity
    ensures JsText.StartsWith(t.text, t.dayRange + "：")
  {
    var rangeText := RangeLabel(range);
    assert (rangeText + "：" + activity)[..|rangeText + "："|] == rangeText + "：";
    DraftTask(id, rangeText + "：" + activity, false, stage, KnownStageName(stage).value, rangeText)
  }

  /** The activity of staged task `i` (counted from 0); the first one names
      the goal. */
  function StageActivity(goal: string, i: nat): string
    requires i < 9
  {
    [ "了解" + goal + "的基础概念和理论",
      "完成基础理论学习，每天阅读30分钟",
      "整理学习笔记，建立知识框架",
      "开始实践练习，完成小项目",
      "每天完成代码练习，巩固基础知识",
      "复习前面学习的内容，查漏补缺",
      "完成综合项目，整合所学知识",
      "深入理解高级概念，提升技能水平",
      "总结学习成果，准备下一步计划" ][i]
  }

  /** The five routine tasks of a short period, in order. */
  const RoutineTexts: seq<string> := [
    "阅读相关技术文档 30 分钟",
    "完成第一个小项目练习",
    "复习昨天学习的内容",
    "整理学习笔记",
    "完成每日代码练习"
  ]

  /** The staged plan of a period of at least nine days: three tasks for
      each stage, over that stage's day range. */
  function StagedTasks(goal: string, period: int): (tasks: seq<DraftTask>)
    requires period >= StagedMinimum
    ensures |tasks| == 9
    ensures forall i :: 0 <= i < 9 ==>
      && tasks[i].id == i + 1
      && !tasks[i].completed
      && tasks[i].stage == i / 3 + 1
      && Wrappers.Some(tasks[i].stageName) == KnownStageName(i / 3 + 1)
      && tasks[i].dayRange == RangeLabel(StageRanges(period)[i / 3])
      && tasks[i].text == tasks[i].dayRange + "：" + StageActivity(goal, i)
      && JsText.StartsWith(tasks[i].text, tasks[i].dayRange + "：")
  {
    var r := StageRanges(period);
    seq(9, i requires 0 <= i < 9 => StageTask(i + 1, i / 3 + 1, r[i / 3], StageActivity(goal, i)))
  }

  /** The first staged task names the goal. */
  lemma FirstStagedTaskNamesGoal(goal: string, t: DraftTask)
    requires t.text == t.dayRange + "：" + StageActivity(goal, 0)
    ensures JsText.Contains(t.text, goal)
  {
    var prefix := t.dayRange + "：" + "了解";
    assert t.text == prefix + goal + "的基础概念和理论";
    assert JsText.OccursAt(goal, goal, 0);
    JsText.ContainsInSuffix(prefix, goal, goal);
    JsText.ContainsInPrefix(prefix + goal, "的基础概念和理论", goal);
  }

  /** `generateTasksByPeriod(goalDescription, period)`. */
  function GenerateTasksByPeriod(goal: string, period: int): (tasks: seq<DraftTask>)
    ensures period >= StagedMinimum ==>
      && |tasks| == 9
      && (forall i :: 0 <= i < 9 ==>
            && tasks[i].id == i + 1
            && !tasks[i].completed
            && tasks[i].stage == i / 3 + 1
            && Wrappers.Some(tasks[i].stageName) == KnownStageName(i / 3 + 1)
            && tasks[i].dayRange == RangeLabel(StageRanges(period)[i / 3])
            && tasks[i].text == tasks[i].dayRange + "：" + StageActivity(goal, i)
            && JsText.StartsWith(tasks[i].text, tasks[i].dayRange + "："))
      && JsText.Contains(tasks[0].text, goal)
    ensures period < StagedMinimum ==>
      && |tasks| == |RoutineTexts|
      && forall i :: 0 <= i < |tasks| ==>
           tasks[i] == DraftTask(i + 1, RoutineTexts[i], false, 0, RegularStage,
                                 RangeLabel(DayRange(1, period)))
  {
    if period >= StagedMinimum then
      var tasks := StagedTasks(goal, period);
      FirstStagedTaskNamesGoal(goal, tasks[0]);
      tasks
    else
      seq(5, i requires 0 <= i < 5 => DraftTask(i + 1, RoutineTexts[i], false, 0, RegularStage,
                                                RangeLabel(DayRange(1, period))))
  }

  /** A worked case: a 30-day goal is split into days 1-10, 11-20 and 21-30. */
  lemma ThirtyDaySplit()
    ensures StageRanges(30) == [DayRange(1, 10), DayRange(11, 20), DayRange(21, 30)]
  {
  }
}
