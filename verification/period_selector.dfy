/** The period picker (`PeriodSelector`): a dialog in which the user picks a
    start day and then an end day, clamped so that the start is never before
    today and the end never before the start; confirming hands the length of
    the range to the goal form as text. Quick buttons outside the dialog pick
    a common length starting today. Days are ordinals; `today` is fixed when
    the picker is created. */
module PeriodSelector {
  import opened Wrappers
  import JsText
  import GoalCreation

  /** The lengths offered by the quick buttons. */
  const CommonPeriods: seq<int> := [7, 14, 21, 30, 60, 90]

  /** `step`: choosing the start day, or the end day. */
  datatype Phase = PickStart | PickEnd

  /** The picker's state: `today`, whether the dialog is open, the step, and
      the selected range (`from`, `to`), either end of which may be unset. */
  datatype Picker = Picker(today: int, open: bool, phase: Phase, from: Option<int>, to: Option<int>)

  /** A state after a handler, and the length it handed to `onChange`, if any. */
  datatype Outcome = Outcome(picker: Picker, emitted: Option<int>)

  function Max(a: int, b: int): int {
    if a < b then b else a
  }

  /** The state when the picker is created for the form value `value`: closed,
      choosing the start, with the range from today covering
      `parseInt(value) || 30` days. */
  function Initial(today: int, value: string): (p: Picker)
    ensures !p.open && p.phase == PickStart
    ensures p.from == Some(today) && p.to == Some(today + GoalCreation.ParsePeriod(value) - 1)
  {
    Picker(today, false, PickStart, Some(today), Some(today + GoalCreation.ParsePeriod(value) - 1))
  }

  /** `disabledDates(date)`: days before today, and in the end step also days
      before the chosen start. */
  function Disabled(p: Picker, date: int): (b: bool)
    ensures date < p.today ==> b
    ensures b && date >= p.today ==> p.phase == PickEnd && p.from.Some? && date < p.from.value
  {
    match p.phase
    case PickStart => date < p.today
    case PickEnd => date < p.today || (p.from.Some? && date < p.from.value)
  }

  /** `handleStartDateSelect(date)`: no date does nothing; otherwise the start
      becomes the date (today if it is earlier), the end is cleared and the
      end step begins. */
  function SelectStart(p: Picker, date: Option<int>): (r: Picker)
    ensures date.None? ==> r == p
    ensures date.Some? ==>
      && r.from == Some(Max(date.value, p.today)) && r.to.None? && r.phase == PickEnd
      && r.today == p.today && r.open == p.open
  {
    match date
    case None => p
    case Some(d) => p.(phase := PickEnd, from := Some(Max(d, p.today)), to := None)
  }

  /** `handleEndDateSelect(date)`: does nothing without a date or without a
      start; otherwise the end becomes the date (the start if it is earlier),
      and nothing else changes. */
  function SelectEnd(p: Picker, date: Option<int>): (r: Picker)
    ensures date.None? || p.from.None? ==> r == p
    ensures date.Some? && p.from.Some? ==> r == p.(to := Some(Max(date.value, p.from.value)))
  {
    if date.None? || p.from.None? then p
    else p.(to := Some(Max(date.value, p.from.value)))
  }

  /** What the range calendar reports on a click: its `from` and `to`. */
  datatype CalendarRange = CalendarRange(from: Option<int>, to: Option<int>)

  /** The range calendar's `onSelect`: a reported end is taken as the end
      day; a reported start alone that differs from the chosen start restarts
      the selection from it. */
  function SelectRange(p: Picker, range: Option<CalendarRange>): (r: Picker)
    ensures range.None? ==> r == p
    ensures range.Some? && range.value.to.Some? ==> r == SelectEnd(p, range.value.to)
    ensures range.Some? && range.value.to.None? && range.value.from.Some? && range.value.from != p.from ==>
      r == SelectStart(p, range.value.from)
    ensures range.Some? && range.value.to.None? && (range.value.from.None? || range.value.from == p.from) ==>
      r == p
  {
    match range
    case None => p
    case Some(CalendarRange(from, to)) =>
      if to.Some? then SelectEnd(p, to)
      else if from.Some? && from != p.from then SelectStart(p, from)
      else p
  }

  /** The length of a range in days, both ends included. */
  function RangeDays(from: int, to: int): int {
    to - from + 1
  }

  /** `handleConfirmSelection()`: with both ends set, hands over the range's
      length, closes the dialog and goes back to the start step; otherwise
      does nothing. */
  function Confirm(p: Picker): (o: Outcome)
    ensures p.from.None? || p.to.None? ==> o == Outcome(p, None)
    ensures p.from.Some? && p.to.Some? ==>
      && o.emitted == Some(RangeDays(p.from.value, p.to.value))
      && o.picker == p.(open := false, phase := PickStart)
  {
    if p.from.Some? && p.to.Some? then
      Outcome(p.(open := false, phase := PickStart), Some(RangeDays(p.from.value, p.to.value)))
    else Outcome(p, None)
  }

  /** `handleOpenDialog()`: opens the dialog at the start step. */
  function OpenDialog(p: Picker): (r: Picker)
    ensures r == p.(open := true, phase := PickStart)
  {
    p.(open := true, phase := PickStart)
  }

  /** The dialog's `onOpenChange(open)`: closing also resets the step. */
  function SetOpen(p: Picker, open: bool): (r: Picker)
    ensures r.open == open && r.from == p.from && r.to == p.to && r.today == p.today
    ensures !open ==> r.phase == PickStart
    ensures open ==> r.phase == p.phase
  {
    if open then p.(open := true) else p.(open := false, phase := PickStart)
  }

  /** `handleQuickSelect(days)`: the range from today covering `days` days;
      hands over `days` and closes the dialog, leaving the step alone. */
  function QuickSelect(p: Picker, days: int): (o: Outcome)
    ensures o.emitted == Some(days)
    ensures o.picker == p.(open := false, from := Some(p.today), to := Some(p.today + days - 1))
  {
    Outcome(p.(open := false, from := Some(p.today), to := Some(p.today + days - 1)), Some(days))
  }

  /** The "re-pick start" button: back to the start step, keeping the start
      and clearing the end. */
  function RepickStart(p: Picker): (r: Picker)
    ensures r == p.(phase := PickStart, to := None)
  {
    p.(phase := PickStart, to := None)
  }

  /** `currentDays`: the length of the selected range when both ends are set,
      else `parseInt(value) || 30`. */
  function CurrentDays(p: Picker, value: string): (d: int)
    ensures p.from.Some? && p.to.Some? ==> d == p.to.value - p.from.value + 1
    ensures p.from.None? || p.to.None? ==> d == GoalCreation.ParsePeriod(value) && d != 0
    ensures Valid(p) && p.phase == PickEnd && p.to.Some? ==> d >= 1
  {
    if p.from.Some? && p.to.Some? then RangeDays(p.from.value, p.to.value)
    else GoalCreation.ParsePeriod(value)
  }

  /** The picker as created shows the form's period as its current length. */
  lemma InitialShowsFormPeriod(today: int, value: string)
    ensures CurrentDays(Initial(today, value), value) == GoalCreation.ParsePeriod(value)
  {
  }

  /** After a quick pick of `days`, that is the length shown, and it is what
      the form receives. */
  lemma QuickSelectShowsDays(p: Picker, days: int, value: string)
    ensures CurrentDays(QuickSelect(p, days).picker, value) == days
    ensures QuickSelect(p, days).emitted == Some(days)
  {
  }

  // ---------------------------------------------------------------------------
  // Reachable states

  /** What every reachable state satisfies: a start is set and is not before
      today, a closed dialog is at the start step, and in the end step the
      end, when set, is not before the start. */
  function Valid(p: Picker): (b: bool)
    ensures b ==> p.from.Some? && !Disabled(p, p.from.value)
    ensures b && p.phase == PickEnd && p.to.Some? ==> !Disabled(p, p.to.value)
  {
    && p.from.Some?
    && p.from.value >= p.today
    && (!p.open ==> p.phase == PickStart)
    && (p.phase == PickEnd && p.to.Some? ==> p.to.value >= p.from.value)
  }

  /** The picker as created is in a valid state. */
  lemma InitialValid(today: int, value: string)
    ensures Valid(Initial(today, value))
  {
  }

  /** In a valid state at the end step, the disabled days are exactly those
      before the chosen start. */
  lemma DisabledAtEndStep(p: Picker, date: int)
    requires Valid(p) && p.phase == PickEnd
    ensures Disabled(p, date) <==> date < p.from.value
  {
  }

  /** A day the calendar lets the user click is taken as is: the clamps only
      act on disabled days. */
  lemma EnabledDaysAreNotClamped(p: Picker, date: int)
    requires Valid(p) && !Disabled(p, date)
    ensures p.phase == PickStart ==> SelectStart(p, Some(date)).from == Some(date)
    ensures p.phase == PickEnd ==> SelectEnd(p, Some(date)).to == Some(date)
  {
  }

  /** The user's actions on the picker. */
  datatype Event =
    | OpenEvent
    | CloseEvent
    | StartDayClicked(date: Option<int>)
    | RangeClicked(range: Option<CalendarRange>)
    | RepickClicked
    | ConfirmClicked
    | QuickClicked(days: int)

  /** Whether the page offers the action in state `p`: the calendar and the
      dialog buttons exist only in the open dialog (the confirm button only
      once an end is chosen), and the dialog's backdrop covers the quick
      buttons and the open button while it is open. */
  function Available(p: Picker, e: Event): (b: bool)
    ensures b && p.open ==> !e.OpenEvent? && !e.QuickClicked?
    ensures b && !p.open ==> e.OpenEvent? || e.QuickClicked?
    ensures b && e.ConfirmClicked? ==> p.to.Some?
    ensures b && e.QuickClicked? ==> e.days >= 7
  {
    match e
    case OpenEvent => !p.open
    case QuickClicked(days) => !p.open && days in CommonPeriods
    case CloseEvent => p.open
    case StartDayClicked(_) => p.open && p.phase == PickStart
    case RangeClicked(_) => p.open && p.phase == PickEnd
    case RepickClicked => p.open && p.phase == PickEnd
    case ConfirmClicked => p.open && p.phase == PickEnd && p.to.Some?
  }

  /** The handler an action runs. Only confirming and the quick buttons hand
      a length to the form, and both close the dialog; `today` never
      changes. */
  function Apply(p: Picker, e: Event): (o: Outcome)
    ensures o.picker.today == p.today
    ensures o.emitted.Some? ==> (e.ConfirmClicked? || e.QuickClicked?) && !o.picker.open
    ensures e.QuickClicked? ==> o.emitted == Some(e.days)
  {
    match e
    case OpenEvent => Outcome(OpenDialog(p), None)
    case CloseEvent => Outcome(SetOpen(p, false), None)
    case StartDayClicked(date) => Outcome(SelectStart(p, date), None)
    case RangeClicked(range) => Outcome(SelectRange(p, range), None)
    case RepickClicked => Outcome(RepickStart(p), None)
    case ConfirmClicked => Confirm(p)
    case QuickClicked(days) => QuickSelect(p, days)
  }

  /** Every available action keeps the state valid, and whatever it hands to
      the form is a length of at least one day. */
  lemma ApplyKeepsValid(p: Picker, e: Event)
    requires Valid(p) && Available(p, e)
    ensures Valid(Apply(p, e).picker)
    ensures Apply(p, e).emitted.Some? ==> Apply(p, e).emitted.value >= 1
  {
  }

  /** The state after a sequence of actions, and the lengths handed to the
      form along the way, in order. */
  function Run(p: Picker, events: seq<Event>): (o: Outcome)
    ensures events == [] ==> o == Outcome(p, None)
    ensures o.picker.today == p.today
    ensures o.emitted.Some? ==>
      exists i :: 0 <= i < |events| && (events[i].ConfirmClicked? || events[i].QuickClicked?)
    decreases |events|
  {
    if events == [] then Outcome(p, None)
    else
      var o := Apply(p, events[0]);
      var rest := Run(o.picker, events[1..]);
      assert forall i :: 0 <= i < |events[1..]| ==> events[1..][i] == events[i + 1];
      Outcome(rest.picker, if rest.emitted.Some? then rest.emitted else o.emitted)
  }

  /** Every action of the sequence is available when it happens. */
  predicate AllAvailable(p: Picker, events: seq<Event>)
    decreases |events|
  {
    events == [] || (Available(p, events[0]) && AllAvailable(Apply(p, events[0]).picker, events[1..]))
  }

  /** Any sequence of available actions from a valid state ends in a valid
      state, and the last length it hands to the form is at least one day. */
  lemma {:induction false} RunKeepsValid(p: Picker, events: seq<Event>)
    requires Valid(p) && AllAvailable(p, events)
    ensures Valid(Run(p, events).picker)
    ensures Run(p, events).emitted.Some? ==> Run(p, events).emitted.value >= 1
    decreases |events|
  {
    if events != [] {
      ApplyKeepsValid(p, events[0]);
      RunKeepsValid(Apply(p, events[0]).picker, events[1..]);
    }
  }

  /** A length the picker hands over reaches `handleGenerate` unchanged: the
      form receives `days.toString()` and parses it back. */
  lemma EmittedPeriodReachesGoal(days: int)
    requires days >= 1
    ensures GoalCreation.ParsePeriod(JsText.IntToString(days)) == days
  {
    GoalCreation.PeriodTextRoundTrip(days);
  }
}
