/**
 * The deterministic part of the bot: the token check, the answer of the
 * homework-status API reduced to an abstract outcome, response validation,
 * status formatting and the Telegram send reduced to an abstract outcome.
 */
module Homework {
  import opened Wrappers
  import opened JsonValue
  import opened Exceptions

  // ---------------------------------------------------------------- verdicts

  const Approved := "Работа проверена: ревьюеру всё понравилось. Ура!"
  const Reviewing := "Работа взята на проверку ревьюером."
  const Rejected := "Работа проверена: у ревьюера есть замечания."

  /** The keys of the verdict table. */
  const VerdictStatuses: set<string> := {"approved", "reviewing", "rejected"}

  /** `HOMEWORK_VERDICTS.get(status)`: the fixed three-entry table. */
  function Verdict(status: string): (r: Option<string>)
    ensures r.Some? <==> status in VerdictStatuses
    ensures r.Some? ==> r.value in {Approved, Reviewing, Rejected}
    ensures status == "approved" ==> r == Some(Approved)
    ensures status == "reviewing" ==> r == Some(Reviewing)
    ensures status == "rejected" ==> r == Some(Rejected)
  {
    if status == "approved" then Some(Approved)
    else if status == "reviewing" then Some(Reviewing)
    else if status == "rejected" then Some(Rejected)
    else None
  }

  /** No verdict text ends with another one: a message determines its verdict. */
  lemma VerdictSuffixFree(v: string, w: string)
    requires v in {Approved, Reviewing, Rejected} && w in {Approved, Reviewing, Rejected}
    requires |w| <= |v| && v[|v| - |w|..] == w
    ensures v == w
  {
  }

  /** Different statuses have different verdicts. */
  lemma VerdictInjective(s: string, t: string)
    requires Verdict(s).Some? && Verdict(s) == Verdict(t)
    ensures s == t
  {
  }

  // ------------------------------------------------------------------ tokens

  /** The three values read from the environment; `None` when a variable is unset. */
  datatype Env = Env(practicumToken: Option<string>, telegramToken: Option<string>, telegramChatId: Option<string>)

  /** Truthiness of `os.getenv(...)`: unset and the empty string are both false. */
  predicate IsSet(v: Option<string>) {
    v.Some? && v.value != ""
  }

  /** `all(values)`. */
  function All(values: seq<Option<string>>): (r: bool)
    ensures r <==> forall k :: 0 <= k < |values| ==> IsSet(values[k])
  {
    if values == [] then true
    else
      assert forall k :: 1 <= k < |values| ==> values[k] == values[1..][k - 1];
      IsSet(values[0]) && All(values[1..])
  }

  /** `check_tokens()`: true exactly when every one of the three values is present and non-empty. */
  function CheckTokens(env: Env): (r: bool)
    ensures r <==> IsSet(env.practicumToken) && IsSet(env.telegramToken) && IsSet(env.telegramChatId)
  {
    var values := [env.practicumToken, env.telegramToken, env.telegramChatId];
    assert values[0] == env.practicumToken && values[1] == env.telegramToken && values[2] == env.telegramChatId;
    All(values)
  }

  // --------------------------------------------------------------------- API

  const Endpoint := "https://practicum.yandex.ru/api/user_api/homework_statuses/"

  /** `current_timestamp or int(time.time())`: a falsy timestamp is replaced by the clock. */
  function RequestDate(currentTimestamp: Json, clock: int): (r: Json)
    ensures Truthy(currentTimestamp) ==> r == currentTimestamp
    ensures !Truthy(currentTimestamp) ==> r == JInt(clock)
  {
    if Truthy(currentTimestamp) then currentTimestamp else JInt(clock)
  }

  /** The `{url}, {headers}, {params}` part of the error messages. */
  function RequestText(token: string, fromDate: Json): string {
    Endpoint + ", "
    + Str(JObject([("Authorization", JString("OAuth " + token))])) + ", "
    + Str(JObject([("from_date", fromDate)]))
  }

  /** The error raised for an answer whose status code is not 200. */
  function BadStatusError(token: string, fromDate: Json, code: int): ErrKind {
    WrongResponseCode("API не возвращает 200. Код ответа " + IntToString(code) + ". Запрос: "
                      + RequestText(token, fromDate) + ".", None)
  }

  /** The error raised when the request itself fails, wrapping the request exception. */
  function RequestFaultError(token: string, fromDate: Json, cause: string): ErrKind {
    WrongResponseCode("Произошла ошибка при запросе к API. API не возвращает 200. Запрос: "
                      + RequestText(token, fromDate) + ".", Some(cause))
  }

  /**
   * What `requests.get` and `response.json()` did: an answer with its status
   * code and decoded body, or a request exception (a transport fault, or a
   * body that is not JSON), given by its `repr()`.
   */
  datatype FetchOutcome = Response(statusCode: int, body: Json) | RequestFault(cause: string)

  /**
   * `get_api_answer` once the request date is known: the decoded body of a
   * 200 answer, unvalidated; every other outcome is a `WrongResponseCode`,
   * which the loop does not keep quiet about.
   */
  function GetApiAnswer(token: string, fromDate: Json, fetch: FetchOutcome): (r: Result<Json, ErrKind>)
    ensures r.Success? <==> fetch.Response? && fetch.statusCode == 200
    ensures r.Success? ==> r.value == fetch.body
    ensures r.Failure? ==> r.error.WrongResponseCode? && HandlerFor(r.error) == NotifyingHandler
    ensures fetch.Response? && fetch.statusCode != 200 ==> r == Failure(BadStatusError(token, fromDate, fetch.statusCode))
    ensures fetch.RequestFault? ==> r == Failure(RequestFaultError(token, fromDate, fetch.cause))
  {
    match fetch
    case Response(code, body) =>
      if code != 200 then Failure(BadStatusError(token, fromDate, code)) else Success(body)
    case RequestFault(cause) =>
      Failure(RequestFaultError(token, fromDate, cause))
  }

  // -------------------------------------------------------------- validation

  const NotDictMessage := "Ответ API не является dict."
  const MissingKeyMessage := "Отсутствует один из ключей, homeworks или current_date, в ответе API."
  const NotListMessage := "homeworks не является list."

  /** An object holding both keys the API promises. */
  predicate HasBothKeys(response: Json) {
    response.JObject? && HasKey(response.fields, "homeworks") && HasKey(response.fields, "current_date")
  }

  /**
   * `check_response`: the homework list of a well-formed answer, unchanged and
   * possibly empty. The checks run in order, so a dict missing a key is an
   * empty response and never a type error, and the quiet error arises exactly
   * for such a dict.
   */
  function CheckResponse(response: Json): (r: Result<seq<Json>, ErrKind>)
    ensures !response.JObject? ==> r == Failure(TypeError(NotDictMessage))
    ensures response.JObject? && !HasBothKeys(response) ==> r == Failure(EmptyResponseFromAPI(MissingKeyMessage))
    ensures HasBothKeys(response) && !Get(response.fields, "homeworks").value.JList? ==> r == Failure(TypeError(NotListMessage))
    ensures r.Success? <==> HasBothKeys(response) && Get(response.fields, "homeworks").value.JList?
    ensures r.Success? ==> Get(response.fields, "homeworks") == Some(JList(r.value))
    ensures r.Failure? ==> (HandlerFor(r.error) == QuietHandler <==> response.JObject? && !HasBothKeys(response))
  {
    if !response.JObject? then Failure(TypeError(NotDictMessage))
    else if !HasKey(response.fields, "homeworks") || !HasKey(response.fields, "current_date") then
      Failure(EmptyResponseFromAPI(MissingKeyMessage))
    else
      match Get(response.fields, "homeworks").value
      case JList(homeworks) => Success(homeworks)
      case _ => Failure(TypeError(NotListMessage))
  }

  // -------------------------------------------------------------- formatting

  const NoNameMessage := "Нет ключа homework_name в ответе API."
  const ChangedPrefix := "Изменился статус проверки работы \""

  /** The message for a homework named `name` with verdict text `verdict`. */
  function StatusMessage(name: Json, verdict: string): string {
    ChangedPrefix + Str(name) + "\". " + verdict
  }

  /** The `AttributeError` of calling `.get` on a value that is not a dict. */
  function NoGetError(v: Json): ErrKind {
    AttributeError("'" + TypeName(v) + "' object has no attribute 'get'")
  }

  /** `needle in haystack` for two strings. */
  predicate Contains(haystack: string, needle: string) {
    needle <= haystack || (haystack != "" && Contains(haystack[1..], needle))
  }

  const UnhashableList := "unhashable type: 'list'"
  const UnhashableDict := "unhashable type: 'dict'"

  /**
   * `status not in HOMEWORK_VERDICTS`, then the lookup: a list or dict cannot
   * be hashed, and anything but a known status string is unknown.
   */
  function VerdictOf(status: Json): (r: Result<string, ErrKind>)
    ensures r.Success? <==> status.JString? && status.s in VerdictStatuses
    ensures r.Success? ==> Verdict(status.s) == Some(r.value)
    ensures !status.JList? && !status.JObject? && r.Failure? ==>
              r.error == ValueError("Неизвестный статус работы - " + Str(status) + ".")
    ensures status.JList? ==> r == Failure(TypeError(UnhashableList))
    ensures status.JObject? ==> r == Failure(TypeError(UnhashableDict))
  {
    match status
    case JList(_) => Failure(TypeError(UnhashableList))
    case JObject(_) => Failure(TypeError(UnhashableDict))
    case JString(s) =>
      if s in VerdictStatuses then Success(Verdict(s).value)
      else Failure(ValueError("Неизвестный статус работы - " + Str(status) + "."))
    case _ => Failure(ValueError("Неизвестный статус работы - " + Str(status) + "."))
  }

  /**
   * `parse_status(homework)`. On a dict: no `homework_name` is a `KeyError`
   * whatever the status, an absent or unknown status is a `ValueError`, and a
   * known one gives the status message with its verdict. The same code run on
   * a list or a string fails on the `in` test or on `.get`, and on any other
   * value on the `in` test.
   */
  function ParseStatus(homework: Json): (r: Result<string, ErrKind>)
    ensures homework.JObject? && !HasKey(homework.fields, "homework_name") ==> r == Failure(KeyError(NoNameMessage))
    ensures r.Success? <==>
              homework.JObject? && HasKey(homework.fields, "homework_name")
              && Get(homework.fields, "status").Some? && Get(homework.fields, "status").value.JString?
              && Get(homework.fields, "status").value.s in VerdictStatuses
    ensures r.Success? ==>
              r.value == StatusMessage(Get(homework.fields, "homework_name").value,
                                       Verdict(Get(homework.fields, "status").value.s).value)
    ensures homework.JObject? && HasKey(homework.fields, "homework_name") && !HasKey(homework.fields, "status") ==>
              r == Failure(ValueError("Неизвестный статус работы - None."))
    ensures homework.JObject? && HasKey(homework.fields, "homework_name") && Get(homework.fields, "status").Some? ==>
              var status := Get(homework.fields, "status").value;
              !status.JList? && !status.JObject? && !(status.JString? && status.s in VerdictStatuses) ==>
                r == Failure(ValueError("Неизвестный статус работы - " + Str(status) + "."))
    ensures !homework.JObject? ==> r.Failure? && HandlerFor(r.error) == NotifyingHandler
    ensures r.Failure? ==> HandlerFor(r.error) == NotifyingHandler
  {
    match homework
    case JObject(fields) =>
      if !HasKey(fields, "homework_name") then Failure(KeyError(NoNameMessage))
      else
        var name := Get(fields, "homework_name").value;
        var status := Get(fields, "status").GetOr(JNull);
        assert "Неизвестный статус работы - " + Str(JNull) + "." == "Неизвестный статус работы - None.";
        (match VerdictOf(status)
         case Success(verdict) => Success(StatusMessage(name, verdict))
         case Failure(e) => Failure(e))
    case JList(items) =>
      if JString("homework_name") !in items then Failure(KeyError(NoNameMessage))
      else Failure(NoGetError(homework))
    case JString(s) =>
      if !Contains(s, "homework_name") then Failure(KeyError(NoNameMessage))
      else Failure(NoGetError(homework))
    case _ =>
      Failure(TypeError("argument of type '" + TypeName(homework) + "' is not iterable"))
  }

  /**
   * A status message reads back into its parts: the fixed opening, the name
   * as `str()` renders it followed by the closing quote, and the verdict.
   */
  lemma StatusMessageParts(name: Json, verdict: string)
    ensures var m := StatusMessage(name, verdict);
            |m| == |ChangedPrefix| + |Str(name)| + 3 + |verdict|
            && m[..|ChangedPrefix|] == ChangedPrefix
            && m[|ChangedPrefix|..|m| - |verdict|] == Str(name) + "\". "
            && m[|m| - |verdict|..] == verdict
  {
    var m := StatusMessage(name, verdict);
    assert m == ChangedPrefix + (Str(name) + "\". ") + verdict;
  }

  /** Two equal status messages name the same verdict and render the same name. */
  lemma StatusMessageInjective(n1: Json, v1: string, n2: Json, v2: string)
    requires v1 in {Approved, Reviewing, Rejected} && v2 in {Approved, Reviewing, Rejected}
    requires StatusMessage(n1, v1) == StatusMessage(n2, v2)
    ensures v1 == v2 && Str(n1) == Str(n2)
  {
    var m := StatusMessage(n1, v1);
    var head1, head2 := ChangedPrefix + Str(n1) + "\". ", ChangedPrefix + Str(n2) + "\". ";
    assert m == head1 + v1 && m == head2 + v2;
    if |v2| <= |v1| {
      assert m[|m| - |v2|..] == v2;
      assert v1[|v1| - |v2|..] == m[|m| - |v2|..];
      VerdictSuffixFree(v1, v2);
    } else {
      assert m[|m| - |v1|..] == v1;
      assert v2[|v2| - |v1|..] == m[|m| - |v1|..];
      VerdictSuffixFree(v2, v1);
    }
    assert head1 == m[..|m| - |v1|] == head2;
    assert Str(n1) == head1[|ChangedPrefix|..|head1| - 3];
    assert Str(n2) == head2[|ChangedPrefix|..|head2| - 3];
  }

  /**
   * A change of status is always visible: two homeworks that parse to the same
   * message have the same status and render the same name.
   */
  lemma ParseStatusInjective(h1: Json, h2: Json)
    requires ParseStatus(h1).Success? && ParseStatus(h1) == ParseStatus(h2)
    ensures Get(h1.fields, "status") == Get(h2.fields, "status")
    ensures Str(Get(h1.fields, "homework_name").value) == Str(Get(h2.fields, "homework_name").value)
  {
    var s1, s2 := Get(h1.fields, "status").value.s, Get(h2.fields, "status").value.s;
    StatusMessageInjective(Get(h1.fields, "homework_name").value, Verdict(s1).value,
                           Get(h2.fields, "homework_name").value, Verdict(s2).value);
    VerdictInjective(s1, s2);
  }

  // ------------------------------------------------------------------- send

  /** What `bot.send_message` did: returned, or raised a Telegram error with the given text. */
  datatype SendOutcome = Delivered | SendFailed(detail: string)

  /**
   * `send_message`: returns normally on delivery, and otherwise raises the
   * bot's own `TelegramError`, which the loop keeps quiet about.
   */
  function SendMessage(outcome: SendOutcome): (r: Option<ErrKind>)
    ensures r.Some? <==> outcome.SendFailed?
    ensures r.Some? ==> r.value.TelegramError? && HandlerFor(r.value) == QuietHandler
  {
    match outcome
    case Delivered => None
    case SendFailed(detail) => Some(TelegramError("Ошибка отправки статуса в telegram: " + detail + "."))
  }
}
