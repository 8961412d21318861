/** The plan normaliser (`toDailyTasks`): turns the task list of a new goal
    into one plan per calendar day. The shape is sniffed from the first element
    only: a day-indexed list passes through with field defaults; any other list
    is spread round-robin, three tasks per day, over `period` days. */
module PlanNormalizer {
  import opened Wrappers
  import opened GoalModel
  import JsText

  const TasksPerDay := 3
  const DefaultMinutes := 30
  const DefaultTitle := "Task"

  /** `raw[0]?.date && Array.isArray(raw[0]?.tasks)`: the element carries a
      non-empty date and a task array. */
  predicate IsDayIndexed(e: RawEntry) {
    e.date.Some? && e.date.value != "" && e.tasks.Some?
  }

  /** What the normaliser needs of its input: a non-empty list (the only caller
      checks this) whose elements, when the first one is day-indexed, all carry
      a date and a task array (each is dereferenced). */
  predicate Normalisable(raw: seq<RawEntry>) {
    && |raw| > 0
    && (IsDayIndexed(raw[0]) ==>
          forall j :: 0 <= j < |raw| ==> raw[j].date.Some? && raw[j].tasks.Some?)
  }

  /** `t.title ?? t.text ?? "Task"`. */
  function TitleOf(t: RawEntry): string {
    t.title.GetOr(t.text.GetOr(DefaultTitle))
  }

  /** The id synthesised for the task at `index` of day `date`: `${date}-${index}`. */
  function DateIndexKey(date: string, index: nat): TaskKey {
    TextKey(date + "-" + JsText.NatToString(index))
  }

  /** A day task built from `src`, falling back to `fallbackId` for its id. */
  function BuildTask(src: RawEntry, fallbackId: TaskKey, completed: bool): DayTask {
    DayTask(src.id.GetOr(fallbackId), TitleOf(src), src.minutes.GetOr(DefaultMinutes), completed)
  }

  /** `t` carries the id, title and minutes of `src`, each defaulted with `??`. */
  ghost predicate FieldsFrom(t: DayTask, src: RawEntry, fallbackId: TaskKey) {
    && (src.id.Some? ==> t.id == src.id.value)
    && (src.id.None? ==> t.id == fallbackId)
    && (src.title.Some? ==> t.title == src.title.value)
    && (src.title.None? && src.text.Some? ==> t.title == src.text.value)
    && (src.title.None? && src.text.None? ==> t.title == DefaultTitle)
    && (src.minutes.Some? ==> t.minutes == src.minutes.value)
    && (src.minutes.None? ==> t.minutes == DefaultMinutes)
  }

  /** Day `p` is the pass-through of day-indexed entry `d`: same date, same
      number and order of tasks, `completed` kept as the truthiness of the
      source flag, and a default id of `${date}-${index}`. */
  ghost predicate PassedThrough(p: DayPlan, d: RawEntry)
    requires d.date.Some? && d.tasks.Some?
  {
    && p.date == d.date.value
    && |p.tasks| == |d.tasks.value|
    && forall x :: 0 <= x < |p.tasks| ==>
         && FieldsFrom(p.tasks[x], d.tasks.value[x], DateIndexKey(d.date.value, x))
         && p.tasks[x].completed == (d.tasks.value[x].completed == Some(true))
  }

  /** The index of the source task that fills slot `k` of day `i`. */
  function PickIndex(i: nat, k: nat, m: nat): nat
    requires m > 0
  {
    (i * TasksPerDay + k) % m
  }

  /** `daily` is the round-robin schedule of `raw`: one day for each of the
      `period` days from `startDay` (none when `period <= 0`), dated by `fmt`,
      each with three tasks, slot `k` of day `i` built from source task
      `(3i + k) mod |raw|` and never completed. */
  ghost predicate IsFlatSchedule(daily: seq<DayPlan>, raw: seq<RawEntry>, startDay: int, period: int,
                                 fmt: int -> string)
    requires |raw| > 0
  {
    && |daily| == (if period > 0 then period else 0)
    && forall i :: 0 <= i < |daily| ==>
         && daily[i].date == fmt(startDay + i)
         && |daily[i].tasks| == TasksPerDay
         && forall k :: 0 <= k < TasksPerDay ==>
              && FieldsFrom(daily[i].tasks[k], raw[PickIndex(i, k, |raw|)], DateIndexKey(daily[i].date, k))
              && !daily[i].tasks[k].completed
  }

  /** `toDailyTasks(rawTasks, startDate, period)`; `fmt` renders a day ordinal
      as its `yyyy-MM-dd` text. */
  method ToDailyTasks(raw: seq<RawEntry>, startDay: int, period: int, fmt: int -> string)
    returns (daily: seq<DayPlan>)
    requires Normalisable(raw)
    ensures IsDayIndexed(raw[0]) ==>
      && |daily| == |raw|
      && forall j :: 0 <= j < |raw| ==> PassedThrough(daily[j], raw[j])
    ensures !IsDayIndexed(raw[0]) ==> IsFlatSchedule(daily, raw, startDay, period, fmt)
  {
    if IsDayIndexed(raw[0]) {
      daily := [];
      var j := 0;
      while j < |raw|
        invariant 0 <= j <= |raw|
        invariant |daily| == j
        invariant forall j' :: 0 <= j' < j ==> PassedThrough(daily[j'], raw[j'])
      {
        var d := raw[j];
        var date := d.date.value;
        var source := d.tasks.value;
        var tasks := [];
        var x := 0;
        while x < |source|
          invariant 0 <= x <= |source|
          invariant |tasks| == x
          invariant forall x' :: 0 <= x' < x ==>
            && FieldsFrom(tasks[x'], source[x'], DateIndexKey(date, x'))
            && tasks[x'].completed == (source[x'].completed == Some(true))
        {
          var t := source[x];
          tasks := tasks + [BuildTask(t, DateIndexKey(date, x), t.completed == Some(true))];
          x := x + 1;
        }
        daily := daily + [DayPlan(date, tasks)];
        j := j + 1;
      }
      return;
    }

    daily := [];
    var i := 0;
    while i < period
      invariant 0 <= i && (period > 0 ==> i <= period) && (period <= 0 ==> i == 0)
      invariant |daily| == i
      invariant forall i' :: 0 <= i' < i ==>
        && daily[i'].date == fmt(startDay + i')
        && |daily[i'].tasks| == TasksPerDay
        && forall k :: 0 <= k < TasksPerDay ==>
             && FieldsFrom(daily[i'].tasks[k], raw[PickIndex(i', k, |raw|)], DateIndexKey(daily[i'].date, k))
             && !daily[i'].tasks[k].completed
    {
      var date := fmt(startDay + i);
      var dayTasks := [];
      var k := 0;
      while k < TasksPerDay
        invariant 0 <= k <= TasksPerDay
        invariant |dayTasks| == k
        invariant forall k' :: 0 <= k' < k ==>
          && FieldsFrom(dayTasks[k'], raw[PickIndex(i, k', |raw|)], DateIndexKey(date, k'))
          && !dayTasks[k'].completed
      {
        var pick := raw[(i * TasksPerDay + k) % |raw|];
        dayTasks := dayTasks + [BuildTask(pick, DateIndexKey(date, k), false)];
        k := k + 1;
      }
      daily := daily + [DayPlan(date, dayTasks)];
      i := i + 1;
    }
  }

  /** `fmt` never renders two different days as the same text. */
  ghost predicate InjectiveFormat(fmt: int -> string) {
    forall a, b :: fmt(a) == fmt(b) ==> a == b
  }

  /** With a faithful date formatter, the round-robin schedule has no two days
      with the same date. */
  lemma FlatScheduleDatesDistinct(daily: seq<DayPlan>, raw: seq<RawEntry>, startDay: int, period: int,
                                  fmt: int -> string)
    requires |raw| > 0
    requires IsFlatSchedule(daily, raw, startDay, period, fmt)
    requires InjectiveFormat(fmt)
    ensures forall i, j :: 0 <= i < j < |daily| ==> daily[i].date != daily[j].date
  {
    forall i, j | 0 <= i < j < |daily|
      ensures daily[i].date != daily[j].date
    {
      assert daily[i].date == fmt(startDay + i) && daily[j].date == fmt(startDay + j);
    }
  }

  /** With at least three source tasks, the three slots of one day come from
      three different source tasks. */
  lemma PicksOfADayDistinct(i: nat, m: nat)
    requires m >= TasksPerDay
    ensures forall k, k' :: 0 <= k < k' < TasksPerDay ==> PickIndex(i, k, m) != PickIndex(i, k', m)
  {
    var b := i * TasksPerDay;
    forall k, k' | 0 <= k < k' < TasksPerDay
      ensures PickIndex(i, k, m) != PickIndex(i, k', m)
    {
      ModDistinct(b + k, b + k', m);
    }
  }

  lemma ModDistinct(a: nat, b: nat, m: nat)
    requires m > 0 && a < b < a + m
    ensures a % m != b % m
  {
    var q := b / m - a / m;
    assert b - a == q * m + (b % m - a % m) by {
      assert a == (a / m) * m + a % m;
      assert b == (b / m) * m + b % m;
      assert q * m == (b / m) * m - (a / m) * m;
    }
    MulSign(q, m);
  }

  lemma MulSign(q: int, m: int)
    requires m > 0
    ensures q == 0 ==> q * m == 0
    ensures q >= 1 ==> q * m >= m
    ensures q <= -1 ==> q * m <= -m
  {
  }

  /** With fewer than three source tasks, slot `k + m` repeats slot `k` of the
      same day, id included when the source task has one. */
  lemma ShortListRepeatsWithinDay(daily: seq<DayPlan>, raw: seq<RawEntry>, startDay: int, period: int,
                                  fmt: int -> string, i: nat, k: nat)
    requires 0 < |raw| < TasksPerDay
    requires IsFlatSchedule(daily, raw, startDay, period, fmt)
    requires i < |daily| && k + |raw| < TasksPerDay
    requires raw[PickIndex(i, k, |raw|)].id.Some?
    ensures daily[i].tasks[k].id == daily[i].tasks[k + |raw|].id
    ensures daily[i].tasks[k].title == daily[i].tasks[k + |raw|].title
  {
    var m := |raw|;
    assert PickIndex(i, k + m, m) == PickIndex(i, k, m) by {
      assert i * TasksPerDay + k + m == (i * TasksPerDay + k) + m;
    }
  }

  /** A worked case: three days from a two-task list take source
      tasks 0,1,0 / 1,0,1 / 0,1,0. */
  lemma TwoTaskThreeDayExample(daily: seq<DayPlan>, a: RawEntry, b: RawEntry, startDay: int,
                               fmt: int -> string)
    requires IsFlatSchedule(daily, [a, b], startDay, 3, fmt)
    ensures |daily| == 3
    ensures forall i :: 0 <= i < 3 ==> daily[i].date == fmt(startDay + i)
    ensures daily[0].tasks[0].title == TitleOf(a) && daily[0].tasks[1].title == TitleOf(b)
         && daily[0].tasks[2].title == TitleOf(a)
    ensures daily[1].tasks[0].title == TitleOf(b) && daily[1].tasks[1].title == TitleOf(a)
         && daily[1].tasks[2].title == TitleOf(b)
    ensures daily[2].tasks[0].title == TitleOf(a) && daily[2].tasks[1].title == TitleOf(b)
         && daily[2].tasks[2].title == TitleOf(a)
  {
    var raw := [a, b];
    assert PickIndex(0, 0, 2) == 0 && PickIndex(0, 1, 2) == 1 && PickIndex(0, 2, 2) == 0;
    assert PickIndex(1, 0, 2) == 1 && PickIndex(1, 1, 2) == 0 && PickIndex(1, 2, 2) == 1;
    assert PickIndex(2, 0, 2) == 0 && PickIndex(2, 1, 2) == 1 && PickIndex(2, 2, 2) == 0;
  }
}
