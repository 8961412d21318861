# goal-tasks: the task-plan pipeline in Dafny

This project models the logic of the goal tracker **goal-tasks**, which is written in
JavaScript/React. The pure logic sits inside React hooks and components, and the
model covers it:

- **the fallback plan template** (`generateTasksByPeriod`). It gives three
  stages of three tasks over day ranges split by `ceil(period / 3)`, or five
  routine tasks for a short period;
- **the plan normaliser** (`toDailyTasks`). It picks the input shape from the
  first element only. A day-indexed list passes through with `??` defaults.
  Any other list is spread round-robin, three tasks per day, with slot `k` of
  day `i` taken from source task `(3i + k) mod m`;
- **goal creation**: the period parse (`parseInt(text) || 30`), the date range,
  the choice between the generation service and the template, and the new
  goal record put in front of the stored collection;
- **draft task editing** (`useTaskManagement`): toggle, edit, save, cancel,
  delete and the two add handlers. Each is a pure transition on a list plus an
  editing cursor;
- **the generation-service client** (`llmService.js`):
  - the non-2xx message;
  - validation and normalisation of the answer, with `||` modelled as a
    falsy test;
  - the catch block;
  - the retry loop with exponential backoff, over an abstract sequence of
    attempt outcomes;
  - the `data: ` lines of one streamed chunk;
- **the error helpers** (`errorHandler.js`): the ordered keyword classifier
  and the retryable-keyword test;
- **the period picker** (`PeriodSelector`): a two-step start/end state machine
  over day ordinals, with clamping. It comes with an invariant that every
  action the page offers preserves;
- **the stage grouping of the draft list** (`TaskList`), including the
  arguments of each add button;
- **the home page's percentage, colour band and status label**;
- **the login and registration form checks**, and the password-strength
  meter.

JavaScript's string primitives have their own module, `JsText`. It covers:

- `trim` with the ECMAScript whitespace set;
- `includes` and `startsWith`;
- `split` on a single character;
- `parseInt`, including the `0x` prefix;
- `String(n)`;
- `.length` in UTF-16 code units;
- `Error.prototype.toString`.

Dates are integer day ordinals, and the `yyyy-MM-dd` formatter is a
parameter `fmt`. The clock readings, the id generator, `navigator.onLine`,
`JSON.parse` and the outcome of each `fetch` are also parameters.

The files are:

- `wrappers.dfy`: `Option`, `Result`;
- `js_text.dfy`: JavaScript string primitives;
- `goal_model.dfy`: task, day-plan and goal records;
- `plan_template.dfy`;
- `plan_normalizer.dfy`;
- `goal_creation.dfy`;
- `task_management.dfy`;
- `llm_service.dfy`;
- `error_handler.dfy`;
- `period_selector.dfy`;
- `task_list.dfy`;
- `home_page.dfy`;
- `login_page.dfy`;
- `register_page.dfy`.

## Model

| member | source | states |
|---|---|---|
| PlanTemplate.CeilThird | src/hooks/useGoalCreation.js:17-18 | the stage length is the least `s` with `3s >= period` |
| PlanTemplate.StageRanges | src/hooks/useGoalCreation.js:17-83 | the three stage ranges for period >= 9 are contiguous: they start at day 1, end at `period` and are each non-empty. The first two each last `ceil(period / 3)` days, ending on days `ceil(period / 3)` and `2 * ceil(period / 3)`, and the third is no longer |
| PlanTemplate.EveryDayInOneStage | src/hooks/useGoalCreation.js:17-83 | every day 1..period lies in exactly one stage range |
| PlanTemplate.ThirtyDaySplit | src/hooks/useGoalCreation.js:17-19 | a 30-day period splits into days 1-10, 11-20 and 21-30 |
| PlanTemplate.StageTask | src/hooks/useGoalCreation.js:22-29 | a staged task's text is its `第a-b天` day-range label, a full-width colon and the activity, so it starts with the label |
| PlanTemplate.StagedTasks | src/hooks/useGoalCreation.js:15-100 | nine tasks with ids 1..9, none completed, stages 1,1,1,2,2,2,3,3,3 with their fixed names. Task `i`'s text is its stage's range label, a full-width colon and the `i`-th of the nine fixed activities, the first of which names the goal |
| PlanTemplate.FirstStagedTaskNamesGoal | src/hooks/useGoalCreation.js:24 | the first staged task's text contains the goal text |
| PlanTemplate.GenerateTasksByPeriod | src/hooks/useGoalCreation.js:11-123 | for period >= 9: the nine staged tasks, each with its range label and its fixed activity as text, the first naming the goal. Below 9, including zero and negative periods: exactly the five routine tasks in order, with ids 1..5, stage 0, `常规任务` and range `第1-${period}天` |
| PlanNormalizer.ToDailyTasks | src/hooks/useGoalCreation.js:126-168 | a day-indexed first element means every day passes through. Each day keeps its date, task count and order, `??` defaults, `completed` as the source's truthiness, and the `${date}-${idx}` id fallback. Otherwise the result is the round-robin schedule: `max(period, 0)` days dated `fmt(start + i)`, each with three never-completed tasks, where slot `k` of day `i` is built from source `(3i + k) mod m` |
| PlanNormalizer.FlatScheduleDatesDistinct | src/hooks/useGoalCreation.js:150-151 | with an injective date formatter, no two days of the round-robin schedule share a date |
| PlanNormalizer.PicksOfADayDistinct | src/hooks/useGoalCreation.js:155 | with at least three source tasks, the three slots of a day come from three different source tasks |
| PlanNormalizer.ShortListRepeatsWithinDay | src/hooks/useGoalCreation.js:155-158 | with fewer than three source tasks, slot `k + m` repeats slot `k`'s id and title within the same day |
| PlanNormalizer.TwoTaskThreeDayExample | src/hooks/useGoalCreation.js:146-165 | three days from two tasks take source tasks 0,1,0 / 1,0,1 / 0,1,0 |
| GoalCreation.ParsePeriod | src/hooks/useGoalCreation.js:194 | the period is the parsed integer, and 30 when parsing fails or gives 0. It is never 0 |
| GoalCreation.PeriodTextRoundTrip | src/hooks/useGoalCreation.js:194 | a non-zero period written with `toString()` parses back to itself |
| GoalCreation.InfoFor | src/hooks/useGoalCreation.js:194-207 | the remembered info carries the goal text and the period. Its range starts today and ends `period - 1` days later |
| GoalCreation.HandleGenerate | src/hooks/useGoalCreation.js:187-268 | blank input gives nothing. Otherwise the info is as `InfoFor` states for the parsed period. A successful service call yields its tasks with no warning. A disabled service yields exactly the template for the parsed period, with no warning. A failed call yields the template plus the error message as a warning, or the fixed warning when that message is empty |
| GoalCreation.HandleCreateGoal | src/hooks/useGoalCreation.js:278-299 | with no info or no tasks the collection is unchanged. Otherwise it grows by one goal in front, the old goals are untouched, title and description are the goal text, and the day plans are the round-robin schedule of the draft tasks |
| GoalCreation.DraftEntries | src/hooks/useGoalCreation.js:290 | draft tasks never look day-indexed to the normaliser |
| GoalCreation.CreatedDayTaskFromDraft | src/hooks/useGoalCreation.js:155-161 | in a created goal, slot `k` of day `i` has the id and text of draft task `(3i + k) mod m`, 30 minutes, and is not done |
| GoalCreation.CreatedGoalCoversPeriod | src/hooks/useGoalCreation.js:197-199 | a created goal has one day per period day, and its first and last days carry the start and end dates |
| GoalModel.KnownStageName | src/hooks/useTaskManagement.js:52-56 | only stages 1, 2 and 3 have a fixed name: 基础阶段, 实践阶段 and 进阶阶段 in that order |
| TaskManagement.Toggle | src/hooks/useTaskManagement.js:8-12 | `completed` flips on exactly the tasks with the id. Length, order, every other field and the cursor stay |
| TaskManagement.ToggleAll | src/hooks/useTaskManagement.js:9-11 | each task is flipped when its id matches and kept otherwise |
| TaskManagement.ToggleTwice | src/hooks/useTaskManagement.js:8-12 | toggling the same id twice restores the state |
| TaskManagement.ToggleUnknownId | src/hooks/useTaskManagement.js:8-12 | toggling an id no task has changes nothing |
| TaskManagement.StartEdit | src/hooks/useTaskManagement.js:14-17 | the cursor points at the task and holds its text, and the list stays |
| TaskManagement.SaveEdit | src/hooks/useTaskManagement.js:19-26 | a blank edit text changes nothing. Otherwise exactly the tasks with the edited id take the text, with their other fields kept, and the cursor is cleared |
| TaskManagement.SetText | src/hooks/useTaskManagement.js:21-23 | each task takes the text when its id matches and is kept otherwise |
| TaskManagement.CancelEdit | src/hooks/useTaskManagement.js:28-31 | the cursor is cleared and the list stays |
| TaskManagement.SaveUnchangedEditKeepsTasks | src/hooks/useTaskManagement.js:14-26 | starting an edit and saving it unchanged leaves the list as it was |
| TaskManagement.Remove | src/hooks/useTaskManagement.js:34 | a task is kept iff it is in the list and its id differs |
| TaskManagement.Delete | src/hooks/useTaskManagement.js:33-35 | no task with the id remains, every other task is kept, and nothing new appears. The cursor stays |
| TaskManagement.RemoveAppend | src/hooks/useTaskManagement.js:34 | deleting distributes over concatenation, so the kept tasks keep their order |
| TaskManagement.RemoveUnknownId | src/hooks/useTaskManagement.js:34 | deleting an id no task has changes nothing |
| TaskManagement.RemoveCount | src/hooks/useTaskManagement.js:34 | deleting removes exactly as many tasks as carry the id |
| TaskManagement.AddNewTask | src/hooks/useTaskManagement.js:37-49 | exactly one task is appended: `新任务`, not done, stage 0, `常规任务`, empty range. The cursor points at it |
| TaskManagement.StageLabel | src/hooks/useTaskManagement.js:52-56 | stages 1-3 get their fixed names, and any other stage gets `阶段 ${stage}` |
| TaskManagement.AddNewTaskToStage | src/hooks/useTaskManagement.js:51-69 | exactly one task of the given stage, name and range is appended, and the cursor points at it |
| TaskManagement.StageZeroAddDiffersOnlyInName | src/hooks/useTaskManagement.js:37-69 | `addNewTaskToStage(0, "")` differs from `addNewTask()` only in the stage name, `阶段 0` instead of `常规任务` |
| LlmService.HttpErrorMessage | src/services/llmService.js:61-71 | the body's `message`, else its `error`, else `API 错误: status statusText`, also when the body does not parse. It is never empty |
| LlmService.NormaliseTasks | src/services/llmService.js:81-88 | same length and order, text copied, not completed, and task `i`'s id is the clock reading taken while mapping it plus `i`. Stage, stage name and range fall back to 0, `常规任务` and `""` |
| LlmService.NormalisedIdsIncreasing | src/services/llmService.js:82 | while the clock does not go backwards during the mapping, the ids of one answer strictly increase, so they are distinct |
| LlmService.OrFallbackOnEmptyStageName | src/services/llmService.js:85-87 | an empty stage name falls back to `常规任务`, because `||` treats the empty string as missing |
| LlmService.ReadTasks | src/services/llmService.js:73-88 | it succeeds iff `tasks` is an array, giving its normalisation. Otherwise it fails with the format error |
| LlmService.MapFetchErrorAsWritten | src/services/llmService.js:89-98 | the catch block as written: `AbortError` becomes the timeout error. A `NetworkError`, or any error while offline, becomes the network error. Anything else is rethrown unchanged |
| LlmService.TimeoutErrorEscapesAsWritten | src/services/llmService.js:58 | a `TimeoutError` from the timeout signal passes the catch block unchanged and never gets the timeout message |
| LlmService.MapFetchError | src/services/llmService.js:89-98 | the corrected catch block: `AbortError` or `TimeoutError` becomes the timeout error, and the rest is as written |
| LlmService.TimeoutRecognised | src/services/llmService.js:91-93 | a `TimeoutError` gets the timeout message, and on every other error the corrected block agrees with the written one |
| LlmService.RawFailure | src/services/llmService.js:45-79 | the error the `try` body throws: the fetch's own error, the non-2xx message, the error of parsing a 2xx body, or the format error. None iff a 2xx body parses and has a `tasks` array |
| LlmService.GenerateOnce | src/services/llmService.js:44-99 | success iff a 2xx response whose body parses and has a `tasks` array, giving its normalisation. Otherwise the raw error passes the catch block: while online the non-2xx message, the format error, and any thrown or body-parse error that is not a cancellation or `NetworkError` surface unchanged. A `NetworkError`, or any non-cancellation error while offline, gives the network error, and a cancelled request the timeout error |
| LlmService.GenerateWithRetry | src/services/llmService.js:153-175 | at most `maxRetries` attempts, all before the last failing. It succeeds iff some attempt within the limit succeeds, with the first success. Otherwise it throws the last attempt's error, or `undefined` when nothing was tried. It waits `2^i * 1000` ms after each failed attempt but the last |
| LlmService.DefaultBackoff | src/services/llmService.js:158-170 | the default three failing attempts wait 1000 ms and then 2000 ms |
| LlmService.DataPrefixNotBlank | src/services/llmService.js:132-135 | the blank-line filter never removes a line starting with `data: ` |
| LlmService.DataPayloads | src/services/llmService.js:134-143 | at most one event per line, and none from lines of which none is a data line |
| LlmService.ChunkPayloads | src/services/llmService.js:131-143 | at most one event per line of the chunk, none when no line is a data line, and a chunk without a line break is one line |
| LlmService.PayloadsAppend | src/services/llmService.js:134-143 | the events of two runs of lines are those of the first followed by those of the second, so line order is kept |
| LlmService.PayloadsOfOneLine | src/services/llmService.js:135-141 | a `data: ` line whose payload after six characters parses yields exactly that value. Any other line yields nothing |
| LlmService.PayloadsComeFromDataLines | src/services/llmService.js:132-138 | every event is the parsed payload of some data line |
| ErrorHandler.Classify | src/utils/errorHandler.js:12-29 | the first keyword group that matches wins: network, then timeout, then API, then format, each as an iff |
| ErrorHandler.GetErrorMessage | src/utils/errorHandler.js:8-33 | no error gives `发生未知错误`. Each classified error gets its group's message. Otherwise the result is the error's own message, or `操作失败，请稍后重试` when that is empty, so it is never empty |
| ErrorHandler.AnyKeyword | src/utils/errorHandler.js:53-55 | true iff some keyword occurs in the message or in the `toString()` text |
| ErrorHandler.IsRetryableError | src/utils/errorHandler.js:38-56 | no error is not retryable. An error is retryable iff one of the nine keywords occurs in its message or its `toString()` |
| ErrorHandler.RetryableIffToStringMatches | src/utils/errorHandler.js:53-55 | since `toString()` contains the message, an error is retryable iff a keyword occurs in its `toString()` |
| ErrorHandler.ClassifiedFailuresAreRetryable | src/utils/errorHandler.js:12-51 | every error classified as network, timeout or API is retryable |
| ErrorHandler.ServiceFormatErrorClassified | src/utils/errorHandler.js:27-29 | the service's format error is classified as a format failure |
| ErrorHandler.ServiceFormatErrorNotRetryable | src/utils/errorHandler.js:41-55 | the service's format error is not retryable |
| ErrorHandler.ServiceErrorsClassified | src/utils/errorHandler.js:12-19 | the service's timeout and network errors get the timeout and network messages |
| ErrorHandler.HttpFallbackIsRetryable | src/utils/errorHandler.js:41-55 | a non-2xx response without a server message becomes a retryable `API 错误` error |
| PeriodSelector.Initial | src/components/create-goal/PeriodSelector.jsx:15-22 | closed, at the start step, with the range from today over the parsed form value's days, or 30 when that is 0 or not a number |
| PeriodSelector.SelectStart | src/components/create-goal/PeriodSelector.jsx:48-60 | no date does nothing. Otherwise the start becomes `max(date, today)`, the end is cleared and the end step begins |
| PeriodSelector.SelectEnd | src/components/create-goal/PeriodSelector.jsx:63-76 | no date, or no start, does nothing. Otherwise only the end changes, to `max(date, start)` |
| PeriodSelector.SelectRange | src/components/create-goal/PeriodSelector.jsx:199-214 | a reported end selects the end. A reported start alone that differs from the chosen start restarts from it. Anything else does nothing |
| PeriodSelector.Confirm | src/components/create-goal/PeriodSelector.jsx:79-86 | with both ends set it hands over `to - from + 1`, closes and returns to the start step. Otherwise it does nothing |
| PeriodSelector.OpenDialog | src/components/create-goal/PeriodSelector.jsx:89-92 | it opens the dialog at the start step, and the range stays |
| PeriodSelector.SetOpen | src/components/create-goal/PeriodSelector.jsx:151-156 | closing resets the step, opening keeps it, and the range stays |
| PeriodSelector.QuickSelect | src/components/create-goal/PeriodSelector.jsx:94-101 | the range from today over `days` days. It hands over `days` and closes |
| PeriodSelector.RepickStart | src/components/create-goal/PeriodSelector.jsx:227-231 | back to the start step, keeping the start and clearing the end |
| PeriodSelector.Disabled | src/components/create-goal/PeriodSelector.jsx:27-45 | every day before today is disabled, and a later day is disabled only at the end step, before the chosen start |
| PeriodSelector.CurrentDays | src/components/create-goal/PeriodSelector.jsx:103-105 | with both ends set, the range's length `to - from + 1`, which is at least 1 in a valid state at the end step. Otherwise the parsed form value, or 30, and never 0 |
| PeriodSelector.InitialShowsFormPeriod | src/components/create-goal/PeriodSelector.jsx:103-105 | the fresh picker shows the form's period as its length |
| PeriodSelector.QuickSelectShowsDays | src/components/create-goal/PeriodSelector.jsx:94-105 | after a quick pick the shown length and the handed-over length are both `days` |
| PeriodSelector.InitialValid | src/components/create-goal/PeriodSelector.jsx:15-22 | the fresh picker satisfies the invariant |
| PeriodSelector.DisabledAtEndStep | src/components/create-goal/PeriodSelector.jsx:27-45 | in a valid state at the end step, a day is disabled iff it is before the chosen start |
| PeriodSelector.EnabledDaysAreNotClamped | src/components/create-goal/PeriodSelector.jsx:48-76 | a day the calendar lets the user click is taken as is |
| PeriodSelector.Valid | src/components/create-goal/PeriodSelector.jsx:27-101 | in a state satisfying the invariant, the chosen start is a day the calendar offers, and so is the chosen end at the end step |
| PeriodSelector.Available | src/components/create-goal/PeriodSelector.jsx:114-245 | while the dialog is open, neither the quick buttons nor the open button can be used. While it is closed, only they can. Confirming needs a chosen end, and a quick pick is one of the offered lengths, at least 7 days |
| PeriodSelector.Apply | src/components/create-goal/PeriodSelector.jsx:48-101 | only confirming and the quick buttons hand a length to the form, and both close the dialog. A quick pick hands over its own length, and `today` never changes |
| PeriodSelector.ApplyKeepsValid | src/components/create-goal/PeriodSelector.jsx:48-101 | every action the page offers keeps the invariant (the start is set and not before today, a closed dialog is at the start step, and at the end step the end is not before the start), and any length it hands over is at least 1 |
| PeriodSelector.Run | src/components/create-goal/PeriodSelector.jsx:48-101 | no actions change nothing and hand nothing over. `today` never changes, and a length is handed over only if some action was a confirm or a quick pick |
| PeriodSelector.RunKeepsValid | src/components/create-goal/PeriodSelector.jsx:79-86 | any sequence of offered actions keeps the invariant, and the last length handed over is at least 1 |
| PeriodSelector.EmittedPeriodReachesGoal | src/components/create-goal/PeriodSelector.jsx:82 | a handed-over length reaches the goal form's period parse unchanged |
| TaskList.FilterStage | src/components/create-goal/TaskList.jsx:73 | a task is kept iff it has that stage |
| TaskList.FilterStageAppend | src/components/create-goal/TaskList.jsx:73 | filtering distributes over concatenation, so a section keeps list order |
| TaskList.GroupOf | src/components/create-goal/TaskList.jsx:73-93 | the section holds that stage's tasks. Its title is the first task's stage name, or `阶段 ${stage}` when that is empty. Its subtitle is the first task's range when non-empty. Its add button passes the stage and that range, or `阶段${stage}` |
| TaskList.StagesWithTasks | src/components/create-goal/TaskList.jsx:69 | only stages 1-3 that have tasks, in ascending order, and all of them |
| TaskList.Groups | src/components/create-goal/TaskList.jsx:69-74 | one section per stage 1-3 that has tasks, in ascending order |
| TaskList.LayoutOf | src/components/create-goal/TaskList.jsx:66 | staged iff some task has a positive stage. The flat layout shows the list as is and adds with `(0, "")` |
| TaskList.ShownIffKnownStage | src/components/create-goal/TaskList.jsx:69-73 | a task appears in some section iff its stage is 1, 2 or 3 |
| TaskList.SectionsDisjoint | src/components/create-goal/TaskList.jsx:69-73 | no task appears under two sections |
| TaskList.FlatAddStaysFlat | src/components/create-goal/TaskList.jsx:146 | the flat add button keeps the layout flat |
| TaskList.StageAddJoinsItsSection | src/components/create-goal/TaskList.jsx:93 | a section's add button appends the new task to the end of that same section, under the same title |
| HomePage.RoundHalfUp | src/pages/HomePage.jsx:12 | the rounded value is within half of `n/d`, with halves going up |
| HomePage.Clamp | src/pages/HomePage.jsx:13 | the result lies in 0..100, and values already in range are unchanged |
| HomePage.Percent | src/pages/HomePage.jsx:10-14 | 0 for a zero total. Otherwise the clamped round-half-up of `100 * done / total`, always within 0..100 |
| HomePage.RoundIsFloorOfHalfUp | src/pages/HomePage.jsx:12 | the rounding is the floor of the ratio plus one half |
| HomePage.PercentEnds | src/pages/HomePage.jsx:10-14 | done = total gives 100, and done = 0 gives 0 |
| HomePage.PercentMonotone | src/pages/HomePage.jsx:12-13 | more days done never lowers the percentage |
| HomePage.BandOf | src/pages/HomePage.jsx:17-22 | the bands are >= 100, 80-99, 60-79 and < 60, each as an iff |
| HomePage.BarClass | src/pages/HomePage.jsx:17-22 | the bar colour is the colour of the band the percentage falls in |
| HomePage.StatusText | src/pages/HomePage.jsx:82-87 | the status label is the label of the band the percentage falls in, so it names the same band as the bar colour |
| HomePage.BandNamesDistinct | src/pages/HomePage.jsx:17-22 | different bands have different colours and different labels |
| LoginPage.HasAtIffAtChar | src/pages/LoginPage.jsx:29 | `includes("@")` holds iff some character is `@` |
| LoginPage.LoginError | src/pages/LoginPage.jsx:23-39 | the first failing check is reported: empty field, then no `@`, then a password under 6. Login goes on iff there is an `@` and the password has at least 6 units |
| RegisterPage.RegisterError | src/pages/RegisterPage.jsx:35-63 | the first failing check is reported: empty field, short name, no `@`, short password, mismatch. Sign-up goes on iff name >= 2, `@` present, password >= 6 and the confirmation matches |
| RegisterPage.RegisteredCredentialsLogIn | src/pages/RegisterPage.jsx:35-63 | credentials the registration form accepts pass the login checks too |
| RegisterPage.PasswordStrength | src/pages/RegisterPage.jsx:105-110 | level 0 iff empty, 1 for 1-5 units, 2 for 6-9 and 3 for 10 or more, with the labels `""`, 弱, 中, 强 |
| RegisterPage.StrengthMonotone | src/pages/RegisterPage.jsx:105-110 | a longer password never rates lower |
| RegisterPage.AcceptedPasswordAtLeastMedium | src/pages/RegisterPage.jsx:53-57 | a password the form accepts rates at least medium |
| JsText.Trim | src/hooks/useGoalCreation.js:188 | `trim()` is empty iff every character is ECMAScript whitespace |
| JsText.ParseInt | src/hooks/useGoalCreation.js:194 | `parseInt` gives a number only when the text has a digit, so a text without digits gives `NaN` |
| JsText.ParseIntOfIntToString | src/components/create-goal/PeriodSelector.jsx:82 | `parseInt(String(n))` reads back `n` |
| JsText.Split | src/services/llmService.js:132 | the pieces are separator-free and joining them back gives the chunk |
| JsText.Utf16Length | src/pages/LoginPage.jsx:35 | `.length` counts UTF-16 units: between the character count and twice it, and zero only for the empty string |
| JsText.ErrorToString | src/utils/errorHandler.js:54 | `toString()` is the name, `: ` and the message, dropping an empty part. It always contains the message |

## Left out

- Persistence and navigation: `localStorage`, `crypto.randomUUID`, `Date.now` and the redirect after creating a goal. The stored collection is a sequence, and the id and time are parameters.
- Per-day progress, day toggling and rolling statistics of saved goals: the source has no code for them. The today and calendar pages are placeholders, and the goal list uses fixed counts.
- `useGoalCreation.llm.example.js`: it duplicates the modelled hook and does not import what it uses.
- The simulated progress bars, their timers and floating-point easing. The same goes for the progress labels and widths of the generating and progress components, and the state setters `handleGenerate` calls before and after its work (clearing the info and errors, resetting progress).
- `resetGoal`, `setTasksData` and the hook's combined `error` value: state plumbing with no logic of its own.
- `fetch`, `AbortSignal.timeout`, `TextDecoder`, `navigator.onLine` and the real sleeps. Each call is an abstract outcome, and the online flag is a parameter.
- The prompt template of the generation service: it is text sent over the network.
- `JSON.parse` is an opaque partial function `parse`. Buffering of a line split across two chunks is not modelled, because the source does not buffer either.
- The streaming call's own non-2xx error (`API 错误: ${status}`) and its rethrowing catch.
- `useLLMGeneration`: the generation hook `handleGenerate` calls is a parameter, its outcome a `Result`.
- Date formatting (date-fns), time zones and `differenceInDays`: days are integer ordinals, and formatting is a parameter.
- HomePage.Percent: exact rational arithmetic rounded half up, not IEEE doubles, so results can differ at exact halves hidden by floating-point error.
- JsText.ParseInt: arbitrary precision, so numerals beyond 2^53 do not lose digits as JavaScript numbers do.
- JsText.Utf16Length: each Dafny `char` is taken to be one Unicode code point; strings with lone surrogates are not modelled.
- LlmService.RawLlmTask: `text` is always a string. A missing or non-string `text`, or a non-numeric `stage`, is not modelled.
- LlmService.ResponseBody: a body that parses as JSON `null` is not modelled; there `data.tasks` throws a `TypeError`. `message` and `error` are strings when present, so non-string truthy values of them are not modelled either.
- PlanNormalizer.ToDailyTasks: a `completed` field is `Some(true)`, `Some(false)` or absent. Other truthy values are not modelled, and null elements of the input are not modelled.
- `stage3Days` is computed by the template but never used, so it has no counterpart.
- PeriodSelector.Run: when several actions hand over a length, only the last one is kept, as the form's value is overwritten each time.
- PeriodSelector.Available: the actions a user can take are those the rendered page offers. The calendar and dialog buttons exist only inside the open dialog, and the dialog's backdrop covers the quick buttons. Clicks on hidden elements, and keyboard activation of controls behind the open dialog, are not modelled.
- `logError`, rendering, routing, animations, the logo, and the simulated login and register delays.
- LlmService.GenerateOnce: it uses the corrected catch block (see Findings), so a cancelled request always gets the timeout message.

## Findings

| source | as written | input that shows it | evidently intended | confidence | as-written member | corrected member |
|---|---|---|---|---|---|---|
| src/services/llmService.js:58-93 | The request is cancelled by `AbortSignal.timeout(30000)`, but the catch block only maps `error.name === 'AbortError'` to the timeout message | A fetch rejected by the timeout signal with a `TimeoutError` (message `signal timed out`) while online is rethrown unchanged. The user never sees `请求超时，请稍后重试` (lemma `LlmService.TimeoutErrorEscapesAsWritten`) | a timed-out request gets the timeout message, as `LlmService.TimeoutRecognised` proves of the corrected block | medium (depends on the platform rejecting with `TimeoutError`, as current browsers do); not executed | LlmService.MapFetchErrorAsWritten | LlmService.MapFetchError |
