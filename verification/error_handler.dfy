/** The user-facing error helpers (`errorHandler.js`): an ordered keyword
    classifier that turns an error into a message, and the keyword test that
    decides whether an error is worth retrying. An absent error (`null` or
    `undefined`) is `None`. */
module ErrorHandler {
  import opened Wrappers
  import opened JsText
  import LlmService

  const UnknownErrorMessage := "发生未知错误"
  const NetworkFailureMessage := "网络连接失败，请检查网络设置后重试"
  const TimeoutFailureMessage := "请求超时，请稍后重试"
  const ApiFailureMessage := "服务暂时不可用，请稍后重试"
  const FormatFailureMessage := "数据格式错误，请重试"
  const DefaultFailureMessage := "操作失败，请稍后重试"

  /** The keyword groups of `getErrorMessage`, in the order they are tried. */
  datatype Category = NetworkFailure | TimeoutFailure | ApiFailure | FormatFailure | Unclassified

  predicate HasNetworkKeyword(m: string) { Contains(m, "网络") || Contains(m, "Network") }
  predicate HasTimeoutKeyword(m: string) { Contains(m, "超时") || Contains(m, "timeout") }
  predicate HasApiKeyword(m: string) { Contains(m, "API") || Contains(m, "status") }
  predicate HasFormatKeyword(m: string) { Contains(m, "格式") }

  /** The first keyword group that matches the message. */
  function Classify(m: string): (c: Category)
    ensures c == NetworkFailure <==> HasNetworkKeyword(m)
    ensures c == TimeoutFailure <==> !HasNetworkKeyword(m) && HasTimeoutKeyword(m)
    ensures c == ApiFailure <==> !HasNetworkKeyword(m) && !HasTimeoutKeyword(m) && HasApiKeyword(m)
    ensures c == FormatFailure <==>
      !HasNetworkKeyword(m) && !HasTimeoutKeyword(m) && !HasApiKeyword(m) && HasFormatKeyword(m)
  {
    if HasNetworkKeyword(m) then NetworkFailure
    else if HasTimeoutKeyword(m) then TimeoutFailure
    else if HasApiKeyword(m) then ApiFailure
    else if HasFormatKeyword(m) then FormatFailure
    else Unclassified
  }

  /** `getErrorMessage(error)`. */
  function GetErrorMessage(e: Option<JsError>): (m: string)
    ensures m != ""
    ensures e.None? ==> m == UnknownErrorMessage
    ensures e.Some? && HasNetworkKeyword(e.value.message) ==> m == NetworkFailureMessage
    ensures e.Some? && Classify(e.value.message) == TimeoutFailure ==> m == TimeoutFailureMessage
    ensures e.Some? && Classify(e.value.message) == ApiFailure ==> m == ApiFailureMessage
    ensures e.Some? && Classify(e.value.message) == FormatFailure ==> m == FormatFailureMessage
    ensures e.Some? && Classify(e.value.message) == Unclassified ==>
      m == (if e.value.message != "" then e.value.message else DefaultFailureMessage)
  {
    match e
    case None => UnknownErrorMessage
    case Some(err) =>
      match Classify(err.message)
      case NetworkFailure => NetworkFailureMessage
      case TimeoutFailure => TimeoutFailureMessage
      case ApiFailure => ApiFailureMessage
      case FormatFailure => FormatFailureMessage
      case Unclassified => if err.message != "" then err.message else DefaultFailureMessage
  }

  /** The keywords that mark an error as worth retrying. */
  const RetryableKeywords: seq<string> := ["网络", "Network", "超时", "timeout", "API", "status", "500", "502", "503"]

  /** Whether some keyword of `keys` occurs in `m` or in `t`. */
  function AnyKeyword(keys: seq<string>, m: string, t: string): (b: bool)
    ensures b <==> exists k :: k in keys && (Contains(m, k) || Contains(t, k))
  {
    if keys == [] then false
    else Contains(m, keys[0]) || Contains(t, keys[0]) || AnyKeyword(keys[1..], m, t)
  }

  /** `isRetryableError(error)`: some retryable keyword occurs in the message
      or in `error.toString()`. */
  function IsRetryableError(e: Option<JsError>): (b: bool)
    ensures e.None? ==> !b
    ensures e.Some? ==>
      (b <==> exists k :: k in RetryableKeywords &&
                 (Contains(e.value.message, k) || Contains(ErrorToString(e.value), k)))
  {
    match e
    case None => false
    case Some(err) => AnyKeyword(RetryableKeywords, err.message, ErrorToString(err))
  }

  /** Since `toString()` contains the message, the message test adds nothing:
      an error is retryable exactly when a keyword occurs in its `toString()`. */
  lemma RetryableIffToStringMatches(e: JsError)
    ensures IsRetryableError(Some(e)) <==> exists k :: k in RetryableKeywords && Contains(ErrorToString(e), k)
  {
    if IsRetryableError(Some(e)) {
      var k :| k in RetryableKeywords && (Contains(e.message, k) || Contains(ErrorToString(e), k));
      if Contains(e.message, k) {
        ContainsTransitive(ErrorToString(e), e.message, k);
      }
    }
  }

  /** Every error classified as a network, timeout or API failure is
      retryable: those keywords are among the retryable ones. */
  lemma ClassifiedFailuresAreRetryable(e: JsError)
    requires Classify(e.message) in {NetworkFailure, TimeoutFailure, ApiFailure}
    ensures IsRetryableError(Some(e))
  {
    var m := e.message;
    var k := if Contains(m, "网络") then "网络"
             else if Contains(m, "Network") then "Network"
             else if Contains(m, "超时") then "超时"
             else if Contains(m, "timeout") then "timeout"
             else if Contains(m, "API") then "API"
             else "status";
    assert k in RetryableKeywords && Contains(m, k);
  }

  /** The text lacks `网`, `N`, `超`, `i`, `A`, `u` and `5`: one character of
      each retryable keyword. */
  predicate LacksKeywordChars(s: string) {
    '网' !in s && 'N' !in s && '超' !in s && 'i' !in s && 'A' !in s && 'u' !in s && '5' !in s
  }

  /** A character other than those seven. */
  predicate NotKeywordChar(c: char) {
    c != '网' && c != 'N' && c != '超' && c != 'i' && c != 'A' && c != 'u' && c != '5'
  }

  /** A text all of whose characters are other than those seven lacks them. */
  lemma NoKeywordCharLacks(s: string)
    requires forall i :: 0 <= i < |s| ==> NotKeywordChar(s[i])
    ensures LacksKeywordChars(s)
  {
    forall c | c in s
      ensures NotKeywordChar(c)
    {
      var i :| 0 <= i < |s| && s[i] == c;
    }
  }

  /** A text lacking those characters carries none of the retryable keywords. */
  lemma NoRetryableKeyword(s: string)
    requires LacksKeywordChars(s)
    ensures forall k :: k in RetryableKeywords ==> !Contains(s, k)
  {
    NotContainsMissingChar(s, "网络", 0);
    NotContainsMissingChar(s, "Network", 0);
    NotContainsMissingChar(s, "超时", 0);
    NotContainsMissingChar(s, "timeout", 1);
    NotContainsMissingChar(s, "API", 0);
    NotContainsMissingChar(s, "status", 4);
    NotContainsMissingChar(s, "500", 0);
    NotContainsMissingChar(s, "502", 0);
    NotContainsMissingChar(s, "503", 0);
  }

  /** `new Error(m).toString()` adds only `Error: `, which has none of those
      characters. */
  lemma LacksKeywordCharsToString(m: string)
    requires LacksKeywordChars(m)
    ensures LacksKeywordChars(ErrorToString(NewError(m)))
  {
    var t := ErrorToString(NewError(m));
    assert t == "Error" || t == "Error: " + m;
  }

  /** A text lacking those characters matches none of the keyword groups
      tried before the format group. */
  lemma LacksKeywordCharsUnclassified(s: string)
    requires LacksKeywordChars(s)
    ensures !HasNetworkKeyword(s) && !HasTimeoutKeyword(s) && !HasApiKeyword(s)
  {
    NotContainsMissingChar(s, "网络", 0);
    NotContainsMissingChar(s, "Network", 0);
    NotContainsMissingChar(s, "超时", 0);
    NotContainsMissingChar(s, "timeout", 1);
    NotContainsMissingChar(s, "API", 0);
    NotContainsMissingChar(s, "status", 4);
  }

  /** The service's format error message has none of those characters. */
  lemma FormatErrorLacksKeywordChars()
    ensures LacksKeywordChars(LlmService.FormatErrorMessage)
  {
    var m := LlmService.FormatErrorMessage;
    forall i | 0 <= i < |m|
      ensures NotKeywordChar(m[i])
    {
    }
    NoKeywordCharLacks(m);
  }

  /** The service's format error is classified as a format failure. */
  lemma ServiceFormatErrorClassified()
    ensures Classify(LlmService.FormatErrorMessage) == FormatFailure
  {
    var m := LlmService.FormatErrorMessage;
    FormatErrorLacksKeywordChars();
    LacksKeywordCharsUnclassified(m);
    assert OccursAt(m, "格式", 4);
  }

  /** The service's format error is not retryable: neither its message nor
      its `toString()` carries a retryable keyword. */
  lemma ServiceFormatErrorNotRetryable()
    ensures !IsRetryableError(Some(NewError(LlmService.FormatErrorMessage)))
  {
    var m := LlmService.FormatErrorMessage;
    FormatErrorLacksKeywordChars();
    NoRetryableKeyword(m);
    LacksKeywordCharsToString(m);
    NoRetryableKeyword(ErrorToString(NewError(m)));
  }

  /** The timeout and network errors of the service client are classified as
      such, and get the corresponding messages. */
  lemma ServiceErrorsClassified()
    ensures GetErrorMessage(Some(NewError(LlmService.TimeoutMessage))) == TimeoutFailureMessage
    ensures GetErrorMessage(Some(NewError(LlmService.NetworkMessage))) == NetworkFailureMessage
  {
    var t := LlmService.TimeoutMessage;
    assert OccursAt(t, "超时", 2);
    NotContainsMissingChar(t, "网络", 0);
    NotContainsMissingChar(t, "Network", 0);
    assert OccursAt(LlmService.NetworkMessage, "网络", 0);
  }

  /** A non-2xx response that the server left without a message or error
      becomes `API 错误: ...`, which is a retryable error. */
  lemma HttpFallbackIsRetryable(status: int, statusText: string, body: Result<LlmService.ResponseBody, JsError>)
    requires body.Failure? || (LlmService.FalsyText(body.value.message) && LlmService.FalsyText(body.value.error))
    ensures IsRetryableError(Some(NewError(LlmService.HttpErrorMessage(status, statusText, body))))
  {
    var m := LlmService.HttpErrorMessage(status, statusText, body);
    assert OccursAt(m, "API", 0);
    assert "API" in RetryableKeywords;
  }
}
