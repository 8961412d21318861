/** The client of the remote task-generation service (`llmService.js`), with
    the network taken out: one call is an abstract fetch outcome (a thrown
    error, or a status with a body that did or did not parse as JSON), the
    retry loop runs over an abstract sequence of attempt outcomes, and the
    streaming variant is reduced to the `data: ` lines of one chunk. */
module LlmService {
  import opened Wrappers
  import opened GoalModel
  import JsText

  const TimeoutMessage := "请求超时，请稍后重试"
  const NetworkMessage := "网络连接失败，请检查网络设置"
  const FormatErrorMessage := "返回数据格式错误：缺少 tasks 数组"

  /** One task of the service's answer. Its `stage`, `stageName` and `dayRange`
      may be missing. */
  datatype RawLlmTask = RawLlmTask(text: string, stage: Option<int>, stageName: Option<string>,
                                   dayRange: Option<string>)

  /** The `tasks` field of a parsed body: missing or falsy, present but not an
      array, or an array. */
  datatype TasksField = TasksAbsent | TasksNotArray | TasksArray(items: seq<RawLlmTask>)

  /** A parsed JSON body: the error fields the client reads from a failed
      response, and the `tasks` field it reads from a successful one. */
  datatype ResponseBody = ResponseBody(message: Option<string>, error: Option<string>, tasks: TasksField)

  /** What one `fetch` did: it threw, or the server answered with a status, a
      status text and a body whose `response.json()` succeeded or threw. */
  datatype FetchOutcome =
    | Threw(thrown: JsText.JsError)
    | Responded(status: int, statusText: string, body: Result<ResponseBody, JsText.JsError>)

  /** `response.ok`: a 2xx status. */
  predicate IsOk(status: int) {
    200 <= status <= 299
  }

  /** A missing or empty string is falsy. */
  predicate FalsyText(s: Option<string>) {
    s.None? || s.value == ""
  }

  // ---------------------------------------------------------------------------
  // Non-2xx responses

  /** The message of a non-2xx response: the body's `message`, else its
      `error`, else `API 错误: ${status} ${statusText}` (also when the body does
      not parse). */
  function HttpErrorMessage(status: int, statusText: string, body: Result<ResponseBody, JsText.JsError>): (m: string)
    ensures body.Success? && !FalsyText(body.value.message) ==> m == body.value.message.value
    ensures body.Success? && FalsyText(body.value.message) && !FalsyText(body.value.error) ==>
      m == body.value.error.value
    ensures body.Failure? || (FalsyText(body.value.message) && FalsyText(body.value.error)) ==>
      m == "API 错误: " + JsText.IntToString(status) + " " + statusText
    ensures m != ""
  {
    var fallback := "API 错误: " + JsText.IntToString(status) + " " + statusText;
    match body
    case Failure(_) => fallback
    case Success(b) =>
      if !FalsyText(b.message) then b.message.value
      else if !FalsyText(b.error) then b.error.value
      else fallback
  }

  // ---------------------------------------------------------------------------
  // Successful responses

  /** The text `s || fallback`. */
  function TextOr(s: Option<string>, fallback: string): string {
    if FalsyText(s) then fallback else s.value
  }

  /** `data.tasks.map((task, index) => ...)`, where `Date.now()` is read
      once per task: `clock(i)` is its value when task `i` is mapped. */
  function NormaliseTasks(items: seq<RawLlmTask>, clock: nat -> int): (r: seq<DraftTask>)
    ensures |r| == |items|
    ensures forall i :: 0 <= i < |r| ==>
      && r[i].id == clock(i) + i
      && r[i].text == items[i].text
      && !r[i].completed
      && r[i].stage == items[i].stage.GetOr(0)
      && (FalsyText(items[i].stageName) ==> r[i].stageName == RegularStage)
      && (!FalsyText(items[i].stageName) ==> r[i].stageName == items[i].stageName.value)
      && r[i].dayRange == items[i].dayRange.GetOr("")
  {
    seq(|items|, i requires 0 <= i < |items| =>
      DraftTask(clock(i) + i, items[i].text, false, items[i].stage.GetOr(0),
                TextOr(items[i].stageName, RegularStage), TextOr(items[i].dayRange, "")))
  }

  /** While the clock does not go backwards during the mapping, the ids of
      the normalised tasks increase with the position, so no two tasks of one
      answer share an id. */
  lemma NormalisedIdsIncreasing(items: seq<RawLlmTask>, clock: nat -> int)
    requires forall i, j :: 0 <= i <= j < |items| ==> clock(i) <= clock(j)
    ensures var r := NormaliseTasks(items, clock);
      forall i, j :: 0 <= i < j < |r| ==> r[i].id < r[j].id
  {
  }

  /** A numeric `stage || 0` and `dayRange || ''` agree with a `??` fallback,
      but `stageName || '常规任务'` does not: an empty stage name becomes
      `常规任务`. */
  lemma OrFallbackOnEmptyStageName(text: string, clock: nat -> int)
    ensures NormaliseTasks([RawLlmTask(text, Some(0), Some(""), Some(""))], clock)
         == [DraftTask(clock(0), text, false, 0, RegularStage, "")]
  {
  }

  /** The outcome of reading the `tasks` of a parsed 2xx body: the normalised
      tasks, or the format error when `tasks` is missing or not an array. */
  function ReadTasks(body: ResponseBody, clock: nat -> int): (r: Result<seq<DraftTask>, JsText.JsError>)
    ensures r.Success? <==> body.tasks.TasksArray?
    ensures r.Success? ==> r.value == NormaliseTasks(body.tasks.items, clock)
    ensures r.Failure? ==> r.error == JsText.NewError(FormatErrorMessage)
  {
    match body.tasks
    case TasksArray(items) => Success(NormaliseTasks(items, clock))
    case _ => Failure(JsText.NewError(FormatErrorMessage))
  }

  // ---------------------------------------------------------------------------
  // The catch block

  /** The catch block as written: an `AbortError` becomes the timeout error, a
      `NetworkError` or any error while offline becomes the network error,
      anything else is rethrown. */
  function MapFetchErrorAsWritten(e: JsText.JsError, online: bool): (r: JsText.JsError)
    ensures e.name == "AbortError" ==> r == JsText.NewError(TimeoutMessage)
    ensures e.name != "AbortError" && (e.name == "NetworkError" || !online) ==>
      r == JsText.NewError(NetworkMessage)
    ensures e.name != "AbortError" && e.name != "NetworkError" && online ==> r == e
  {
    if e.name == "AbortError" then JsText.NewError(TimeoutMessage)
    else if e.name == "NetworkError" || !online then JsText.NewError(NetworkMessage)
    else e
  }

  /** The request is cancelled by `AbortSignal.timeout(30000)`, which rejects
      the fetch with a `TimeoutError` (not an `AbortError`); the catch block as
      written lets that error through unchanged, so a timed-out request never
      gets the timeout message. */
  lemma TimeoutErrorEscapesAsWritten()
    ensures var e := JsText.JsError("TimeoutError", "signal timed out");
      && MapFetchErrorAsWritten(e, true) == e
      && MapFetchErrorAsWritten(e, true).message != TimeoutMessage
  {
  }

  /** An error a cancelled request rejects with. */
  predicate IsCancellation(e: JsText.JsError) {
    e.name == "AbortError" || e.name == "TimeoutError"
  }

  /** The catch block with the timeout recognised under both names the
      platform uses for a cancelled request. */
  function MapFetchError(e: JsText.JsError, online: bool): (r: JsText.JsError)
    ensures e.name == "AbortError" || e.name == "TimeoutError" ==> r == JsText.NewError(TimeoutMessage)
    ensures e.name != "AbortError" && e.name != "TimeoutError" && (e.name == "NetworkError" || !online) ==>
      r == JsText.NewError(NetworkMessage)
    ensures e.name !in {"AbortError", "TimeoutError", "NetworkError"} && online ==> r == e
  {
    if e.name == "AbortError" || e.name == "TimeoutError" then JsText.NewError(TimeoutMessage)
    else if e.name == "NetworkError" || !online then JsText.NewError(NetworkMessage)
    else e
  }

  /** The corrected catch block gives every cancelled request, online or not,
      the timeout message, and agrees with the written one on every other
      error. */
  lemma TimeoutRecognised(e: JsText.JsError, online: bool)
    ensures e.name == "TimeoutError" ==> MapFetchError(e, online).message == TimeoutMessage
    ensures e.name != "TimeoutError" ==> MapFetchError(e, online) == MapFetchErrorAsWritten(e, online)
  {
  }

  // ---------------------------------------------------------------------------
  // generateTasksWithLLM

  /** The error the body of the `try` throws, before the catch block: the
      fetch's own error, the non-2xx error, the error of `response.json()` on
      a 2xx response, or the format error; none when the tasks can be read. */
  function RawFailure(outcome: FetchOutcome): (r: Option<JsText.JsError>)
    ensures r.None? <==>
      outcome.Responded? && IsOk(outcome.status) && outcome.body.Success? && outcome.body.value.tasks.TasksArray?
    ensures outcome.Threw? ==> r == Some(outcome.thrown)
    ensures outcome.Responded? && !IsOk(outcome.status) ==>
      r == Some(JsText.NewError(HttpErrorMessage(outcome.status, outcome.statusText, outcome.body)))
    ensures outcome.Responded? && IsOk(outcome.status) && outcome.body.Failure? ==>
      r == Some(outcome.body.error)
    ensures outcome.Responded? && IsOk(outcome.status) && outcome.body.Success? && !outcome.body.value.tasks.TasksArray? ==>
      r == Some(JsText.NewError(FormatErrorMessage))
  {
    match outcome
    case Threw(e) => Some(e)
    case Responded(status, statusText, body) =>
      if !IsOk(status) then Some(JsText.NewError(HttpErrorMessage(status, statusText, body)))
      else if body.Failure? then Some(body.error)
      else if !body.value.tasks.TasksArray? then Some(JsText.NewError(FormatErrorMessage))
      else None
  }

  /** `generateTasksWithLLM(...)` for one fetch outcome, with `online` the
      value of `navigator.onLine` when an error is caught and `clock` the
      successive readings of `Date.now()`. */
  function GenerateOnce(outcome: FetchOutcome, online: bool, clock: nat -> int): (r: Result<seq<DraftTask>, JsText.JsError>)
    ensures r.Success? <==>
      outcome.Responded? && IsOk(outcome.status) && outcome.body.Success? && outcome.body.value.tasks.TasksArray?
    ensures r.Success? ==> r.value == NormaliseTasks(outcome.body.value.tasks.items, clock)
    ensures r.Failure? ==> RawFailure(outcome).Some? && r.error == MapFetchError(RawFailure(outcome).value, online)
    ensures r.Failure? && online && outcome.Responded? && !IsOk(outcome.status) ==>
      r.error == JsText.NewError(HttpErrorMessage(outcome.status, outcome.statusText, outcome.body))
    ensures r.Failure? && online && outcome.Responded? && IsOk(outcome.status) && outcome.body.Success? ==>
      r.error == JsText.NewError(FormatErrorMessage)
    ensures online && outcome.Responded? && IsOk(outcome.status) && outcome.body.Failure?
            && outcome.body.error.name !in {"AbortError", "TimeoutError", "NetworkError"} ==>
      r == Failure(outcome.body.error)
    ensures online && outcome.Threw? && outcome.thrown.name !in {"AbortError", "TimeoutError", "NetworkError"} ==>
      r == Failure(outcome.thrown)
    ensures outcome.Threw? && outcome.thrown.name == "NetworkError" ==> r == Failure(JsText.NewError(NetworkMessage))
    ensures r.Failure? && !online && !(outcome.Threw? && IsCancellation(outcome.thrown))
            && !(outcome.Responded? && outcome.body.Failure? && IsCancellation(outcome.body.error)) ==>
      r.error == JsText.NewError(NetworkMessage)
    ensures outcome.Threw? && IsCancellation(outcome.thrown) ==> r == Failure(JsText.NewError(TimeoutMessage))
  {
    match RawFailure(outcome)
    case None => Success(NormaliseTasks(outcome.body.value.tasks.items, clock))
    case Some(e) => Failure(MapFetchError(e, online))
  }

  // ---------------------------------------------------------------------------
  // generateTasksWithRetry

  function Pow2(n: nat): (p: nat)
    ensures p >= 1
  {
    if n == 0 then 1 else 2 * Pow2(n - 1)
  }

  /** How the retry loop ended: with the first successful result, or by
      throwing the last attempt's error (`undefined` when nothing was tried). */
  datatype RetryResult<T> = Succeeded(value: T) | Exhausted(lastError: Option<JsText.JsError>)

  /** `delays` are the exponential backoff waits 1000, 2000, 4000, ... ms. */
  ghost predicate Backoff(delays: seq<int>) {
    forall j :: 0 <= j < |delays| ==> delays[j] == Pow2(j) * 1000
  }

  /** `generateTasksWithRetry(..., maxRetries)`, where attempt `i` (counted
      from 0) has outcome `attempt(i)`. Also returns how many attempts were
      made and the waits between them, in milliseconds. */
  method GenerateWithRetry<T>(attempt: nat -> Result<T, JsText.JsError>, maxRetries: int)
    returns (r: RetryResult<T>, attempts: nat, delays: seq<int>)
    ensures maxRetries <= 0 ==> r == Exhausted(None) && attempts == 0 && delays == []
    ensures attempts <= (if maxRetries > 0 then maxRetries else 0)
    ensures forall j :: 0 <= j < attempts - 1 ==> attempt(j).Failure?
    ensures r.Succeeded? ==> attempts >= 1 && attempt(attempts - 1) == Success(r.value)
    ensures r.Succeeded? <==> exists j :: 0 <= j < maxRetries && attempt(j).Success?
    ensures r.Exhausted? && maxRetries > 0 ==>
      attempts == maxRetries && r.lastError == Some(attempt(maxRetries - 1).error)
    ensures |delays| == (if attempts > 0 then attempts - 1 else 0) && Backoff(delays)
  {
    var lastError: Option<JsText.JsError> := None;
    attempts := 0;
    delays := [];
    var i := 0;
    while i < maxRetries
      invariant 0 <= i && (maxRetries > 0 ==> i <= maxRetries) && (maxRetries <= 0 ==> i == 0)
      invariant attempts == i
      invariant forall j :: 0 <= j < i ==> attempt(j).Failure?
      invariant i == 0 ==> lastError.None?
      invariant i > 0 ==> lastError == Some(attempt(i - 1).error)
      invariant |delays| == (if i > 0 && i == maxRetries then i - 1 else i)
      invariant Backoff(delays)
    {
      var outcome := attempt(i);
      attempts := attempts + 1;
      match outcome
      case Success(v) =>
        r := Succeeded(v);
        return;
      case Failure(e) =>
        lastError := Some(e);
        if i < maxRetries - 1 {
          delays := delays + [Pow2(i) * 1000];
        }
      i := i + 1;
    }
    r := Exhausted(lastError);
  }

  /** With the default of three attempts all failing, the waits are 1000 ms
      and 2000 ms. */
  lemma DefaultBackoff(delays: seq<int>)
    requires |delays| == 2 && Backoff(delays)
    ensures delays == [1000, 2000]
  {
    assert Pow2(1) == 2;
  }

  // ---------------------------------------------------------------------------
  // generateTasksStream: the events of one chunk

  const DataPrefix := "data: "

  /** A line the stream reader considers: not blank, starting with `data: `. */
  predicate IsDataLine(line: string) {
    !JsText.IsBlank(line) && JsText.StartsWith(line, DataPrefix)
  }

  /** The `data: ` prefix is not whitespace, so the blank-line filter never
      removes a data line. */
  lemma DataPrefixNotBlank(line: string)
    requires JsText.StartsWith(line, DataPrefix)
    ensures IsDataLine(line)
  {
    assert line[0] == 'd' && !JsText.IsWhitespace(line[0]);
  }

  /** The events of a sequence of lines: for each data line in order, its
      payload after the 6-character prefix, parsed by `parse`, skipped when it
      does not parse. */
  function DataPayloads<V>(lines: seq<string>, parse: string -> Option<V>): (r: seq<V>)
    ensures |r| <= |lines|
    ensures (forall i :: 0 <= i < |lines| ==> !IsDataLine(lines[i])) ==> r == []
  {
    if lines == [] then []
    else LinePayload(lines[0], parse) + DataPayloads(lines[1..], parse)
  }

  /** The event of one line: its parsed payload if it is a data line whose
      payload parses, else none. */
  function LinePayload<V>(line: string, parse: string -> Option<V>): (r: seq<V>)
    ensures |r| <= 1
  {
    if IsDataLine(line) && parse(line[|DataPrefix|..]).Some? then [parse(line[|DataPrefix|..]).value] else []
  }

  /** The events yielded for one decoded chunk: its lines split on `\n`. A
      chunk without a line break is a single line. */
  function ChunkPayloads<V>(chunk: string, parse: string -> Option<V>): (r: seq<V>)
    ensures |r| <= |JsText.Split(chunk, '\n')|
    ensures (forall line :: line in JsText.Split(chunk, '\n') ==> !IsDataLine(line)) ==> r == []
    ensures '\n' !in chunk ==> r == LinePayload(chunk, parse)
  {
    if '\n' !in chunk then
      JsText.SplitWithoutSeparator(chunk, '\n');
      assert DataPayloads([chunk], parse) == LinePayload(chunk, parse) + DataPayloads([], parse) by {
        assert [chunk][1..] == [];
      }
      DataPayloads(JsText.Split(chunk, '\n'), parse)
    else
      DataPayloads(JsText.Split(chunk, '\n'), parse)
  }

  /** The events of two runs of lines are the events of the first followed by
      those of the second: the reader keeps the order of the lines. */
  lemma {:induction false} PayloadsAppend<V>(a: seq<string>, b: seq<string>, parse: string -> Option<V>)
    ensures DataPayloads(a + b, parse) == DataPayloads(a, parse) + DataPayloads(b, parse)
  {
    if a == [] {
      assert a + b == b;
    } else {
      assert (a + b)[0] == a[0] && (a + b)[1..] == a[1..] + b;
      PayloadsAppend(a[1..], b, parse);
    }
  }

  /** One line yields its parsed payload exactly when it is a data line whose
      payload parses, and nothing otherwise. */
  lemma PayloadsOfOneLine<V>(line: string, parse: string -> Option<V>)
    ensures JsText.StartsWith(line, DataPrefix) && parse(line[6..]).Some? ==>
      DataPayloads([line], parse) == [parse(line[6..]).value]
    ensures !JsText.StartsWith(line, DataPrefix) || parse(line[6..]).None? ==>
      DataPayloads([line], parse) == []
  {
    if JsText.StartsWith(line, DataPrefix) {
      DataPrefixNotBlank(line);
    }
  }

  /** Every event comes from some data line of the input. */
  lemma {:induction false} PayloadsComeFromDataLines<V>(lines: seq<string>, parse: string -> Option<V>, v: V)
    requires v in DataPayloads(lines, parse)
    ensures exists i :: 0 <= i < |lines| && IsDataLine(lines[i]) && parse(lines[i][6..]) == Some(v)
  {
    var head := LinePayload(lines[0], parse);
    var rest := DataPayloads(lines[1..], parse);
    assert DataPayloads(lines, parse) == head + rest;
    if v in head {
      assert IsDataLine(lines[0]) && parse(lines[0][6..]) == Some(v);
    } else {
      assert v in rest;
      PayloadsComeFromDataLines(lines[1..], parse, v);
      DataLineOfTail(lines, parse, v);
    }
  }

  /** A data line of the tail of `lines` is a data line of `lines`. */
  lemma DataLineOfTail<V>(lines: seq<string>, parse: string -> Option<V>, v: V)
    requires |lines| > 0
    requires exists i :: 0 <= i < |lines[1..]| && IsDataLine(lines[1..][i]) && parse(lines[1..][i][6..]) == Some(v)
    ensures exists i :: 0 <= i < |lines| && IsDataLine(lines[i]) && parse(lines[i][6..]) == Some(v)
  {
    var i :| 0 <= i < |lines[1..]| && IsDataLine(lines[1..][i]) && parse(lines[1..][i][6..]) == Some(v);
    assert lines[i + 1] == lines[1..][i];
  }
}
