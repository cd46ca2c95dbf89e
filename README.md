# homework_bot: a verified model of the polling core

The bot polls the homework-status API of Yandex Practicum. It forwards the
status of the student's latest submission to a Telegram chat. This project
models the deterministic part of `homework.py` and `exceptions.py` in Dafny
and proves what that part promises. The parts modelled are:

- the token gate `check_tokens`;
- the answer of `get_api_answer`, with the HTTP call reduced to an abstract
  outcome;
- the validation in `check_response`;
- the formatting in `parse_status` and its three-entry verdict table;
- `send_message`, with the Telegram call reduced to an abstract outcome;
- the startup of `main`;
- the body of its `while True` loop, as one cycle over `current_timestamp`
  and `prev_msg`;
- the exception hierarchy that decides which `except` clause of the loop
  fires.

Files, one module each (the `Wrappers` helper module sits in
`json_value.dfy`):

- `json_value.dfy`: `Wrappers` (Option, Result), and `JsonValue`, the decoded
  JSON value with the Python protocol the code depends on: truthiness,
  `str()`/`repr()`, `key in d` and `d.get`.
- `exceptions.dfy`: `Exceptions`, the class hierarchy (`Base`, `IsSubclass`),
  the raised errors `ErrKind`, `str(error)` as `Text`, and the two-tier
  dispatch `HandlerFor`.
- `homework.py` is modelled by two files:
  - `homework.dfy`: `Homework`, the verdict table and the four validation and
    formatting functions, plus the abstract request and send outcomes.
  - `polling.dfy`: `Polling`, the startup, the cycle as a function (`Cycle`)
    and as a class with the loop's two fields (`Poller.Step`), runs of cycles,
    and the dedup and error-handling properties.

Where the code and its docstrings disagree, or the code does something a
reader might not expect, the model follows the code:

- `main` calls `response.get('current_date', ...)` before `check_response`.
  So an answer that is not a dict fails with `AttributeError`
  (`'list' object has no attribute 'get'`), not with `check_response`'s
  `TypeError`. Both reach the generic handler. Only the notice text differs.
- The `check_response` docstring says a non-list `homeworks` raises
  `KeyError`. The code raises `TypeError`.
- `current_timestamp` takes the answer's `current_date` as it is. Nothing
  makes it increase or even be an integer. So it is a `Json` in the model,
  and a falsy value is replaced by the clock on the next request.
- `parse_status` is applied to whatever the list holds. On a list or a
  string, the `'homework_name' in homework` test is element or substring
  membership, and `.get` then fails. On other scalars, the `in` test raises
  `TypeError`. A list or dict status is unhashable in `not in
  HOMEWORK_VERDICTS`.
- `prev_msg` starts empty even though the greeting was delivered.

## Model

Functions that only compute are stated by the lemmas about them: `Evaluate` by `EvaluateCases`, `NextTimestamp` by `NextTimestampCases`, `LatestMessage` by `LatestMessageCases`, `Body` by `BodyFollowsEvaluation`, `FailureMessage` by `FailureMessageParts`, `Run` by `RunDeliversAtMostOncePerCycle` and `RunDeliveriesDiffer`, `Text` by `TextGivesArguments`, `Truthy` by `TruthyIsNotFalsy`, `StrRepr`, `Str` and `Repr` by `StrReprRoundTrip`, `StrOfIntRoundTrip` and `StrAndRepr`, and `StatusMessage` by `StatusMessageParts` and `StatusMessageInjective`.

| member | source | states |
|---|---|---|
| `Homework.Verdict` | homework.py:34-38 | the table has exactly the keys approved, reviewing, rejected; approved maps to the approved text, reviewing to the in-review text, rejected to the text with remarks |
| `Homework.VerdictInjective` | homework.py:34-38 | distinct statuses have distinct verdict texts |
| `Homework.VerdictSuffixFree` | homework.py:34-38 | no verdict text ends with a different one, so a message's ending fixes its verdict |
| `Homework.All` | homework.py:53 | `all(values)` is true exactly when every value is set and non-empty |
| `Homework.CheckTokens` | homework.py:41-53 | true iff all three of PRACTICUM_TOKEN, TELEGRAM_TOKEN, TELEGRAM_CHAT_ID are set and non-empty; an empty string counts as missing |
| `Homework.RequestDate` | homework.py:73 | a truthy timestamp is sent as is; a falsy one (0, None, an empty value) is replaced by the clock |
| `Homework.GetApiAnswer` | homework.py:87-102 | a 200 answer yields its body unvalidated; a non-200 code and a request fault each yield a `WrongResponseCode` with their own message text, which the loop does not keep quiet about |
| `JsonValue.TruthyIsNotFalsy` | homework.py:73 | a value is truthy exactly when it is not None, False, a zero, or an empty string, list or dict |
| `JsonValue.StrReprRoundTrip` | homework.py:155-156 | `repr(s)` reads back as `s`, and is double-quoted exactly when `s` holds a single quote and no double quote |
| `JsonValue.StrOfIntRoundTrip` | homework.py:90-93 | the decimal text `str()` writes for an integer, such as the status code, reads back as that integer |
| `JsonValue.StrAndRepr` | homework.py:163-168 | `str()` of a string is the string and its `repr()` reads back as it; on other values the two agree; None and the booleans print as `None`, `True`, `False` |
| `JsonValue.Get` | homework.py:130 | the lookup finds a value exactly when the key is present, and the value is one stored under that key |
| `Homework.CheckResponse` | homework.py:123-135 | not a dict gives TypeError; a dict missing homeworks or current_date gives EmptyResponseFromAPI, never TypeError; a non-list homeworks gives TypeError; otherwise the list is returned unchanged, possibly empty; the quiet error arises exactly for a dict missing a key |
| `Homework.VerdictOf` | homework.py:160-163 | a known status string yields its verdict; a list status is TypeError "unhashable type: 'list'" and a dict status TypeError "unhashable type: 'dict'"; any other value is a ValueError naming it |
| `Homework.ParseStatus` | homework.py:155-168 | a dict without homework_name gives KeyError whatever its status; success iff the status is a known string, with exactly the message 'Изменился статус проверки работы "<name>". ' + verdict; an absent or unknown status gives ValueError; a non-dict fails; every failure goes to the generic, notifying tier |
| `Homework.StatusMessageParts` | homework.py:165-168 | the message splits back into the fixed opening, the name as `str()` renders it with the closing quote, and the verdict |
| `Homework.StatusMessageInjective` | homework.py:165-168 | equal status messages have equal verdicts and equally rendered names |
| `Homework.ParseStatusInjective` | homework.py:155-168 | two records that parse to the same message have the same status, so a status change always changes the message |
| `Homework.SendMessage` | homework.py:186-193 | returns normally on delivery, and otherwise raises the bot's TelegramError, which is in the quiet tier |
| `Exceptions.Base` | exceptions.py:14-27 | the declared base classes form a hierarchy without cycles rooted at Exception |
| `Exceptions.NotForSendFamily` | exceptions.py:14-27 | an error is a NotForSend exactly when it is NotForSend, EmptyResponseFromAPI or TelegramError; WrongResponseCode is not |
| `Exceptions.TextGivesArguments` | homework.py:251-254 | `str(error)` in the notice is a one-argument error's text, a KeyError's key as a `repr()` that reads back as the key, and for WrongResponseCode with a cause the pair's `repr()`, whose first element reads back as the message |
| `Exceptions.HandlerFor` | homework.py:250-253 | the clauses tried in order catch every error; the quiet clause takes exactly the not-for-send family, all else goes to the notifying clause |
| `Polling.Startup` | homework.py:217-232 | a missing token exits with the fixed message before anything else; a failed greeting ends main; otherwise the loop starts with the clock as timestamp and an empty prev_msg |
| `Polling.StartupEntersLoop` | homework.py:217-232 | with all tokens set and the greeting delivered, `main` enters the loop with the clock as timestamp and an empty prev_msg, the state `Poller` is constructed in |
| `Polling.EvaluateCases` | homework.py:236-244 | the request's error propagates; a 200 answer that is not a dict fails on `.get` with AttributeError, not check_response's TypeError; a dict missing a key gives EmptyResponseFromAPI, a non-list homeworks TypeError, else the latest message; the only quiet failure is the dict missing a key |
| `Polling.NextTimestampCases` | homework.py:236-239 | the timestamp stays when get_api_answer raises or the answer is not a dict; otherwise it becomes the value stored under current_date, or the clock when that key is absent |
| `Polling.LatestMessageCases` | homework.py:240-244 | a truthy homework list gives the first record's parse_status, an empty one 'Нет новых статусов' |
| `Polling.FailureMessageParts` | homework.py:254 | the notice is 'Сбой в работе программы: ' followed by `str(error)`, and two notices are equal exactly when the errors print alike |
| `Polling.MessageKindsDistinct` | homework.py:241-254 | a failure notice, a status message and 'Нет новых статусов' are never equal to one another |
| `Polling.BodyFollowsEvaluation` | homework.py:235-249 | an error in the `try` block sends nothing and keeps prev_msg; a message equal to prev_msg is not sent; a new one is sent, a failed send is what is raised, and it becomes prev_msg only if the send returned |
| `Polling.CycleAsWritten` | homework.py:235-260 | when the loop ends after a cycle, the error is a TelegramError from a failed send that the cycle attempted |
| `Polling.AsWrittenDiffersOnlyOnFailedNotice` | homework.py:253-258 | the code as written ends the loop exactly when the generic handler's notice is new and its send fails; in every other case it agrees with the corrected cycle |
| `Polling.FailedNoticeEndsLoopAsWritten` | homework.py:253-258 | a 503 answer followed by a failed send of the failure notice ends the process as written, and the corrected cycle goes on |
| `Polling.Settle` | homework.py:237-249 | whatever the `try` block reaches, the timestamp has advanced; an error is raised with nothing sent; a message is sent exactly when it differs from prev_msg, a failed send raises, and prev_msg becomes the message only if the send returned; only a raise before any send goes to the generic clause |
| `Polling.Handle` | homework.py:250-258 | corrected clauses: no error or a not-for-send error changes nothing; any other error sends 'Сбой в работе программы: <error>' exactly when that is new, and prev_msg becomes it only if the send returned; the loop always goes on |
| `Polling.HandleAsWritten` | homework.py:250-258 | the clauses as written end the loop only with a TelegramError from a failed send of the notice |
| `Polling.HandlersDiffer` | homework.py:253-258 | the clauses as written end the loop exactly when the notice is new and its send fails, and otherwise agree with the corrected ones |
| `Polling.Resume` | homework.py:235-258 | whatever message or error the `try` block reaches, the cycle goes on, advances the timestamp, sends only a text other than prev_msg, sets prev_msg only to a delivered text, and keeps prev_msg after a not-for-send error |
| `Polling.Cycle` | homework.py:235-260 | the loop always goes on; the request date is the timestamp or the clock; the timestamp advances to current_date (or the clock) before validation and stays if the fetch failed; a send is attempted only for a text other than prev_msg, and prev_msg changes only to a text whose send returned; a not-for-send error keeps prev_msg |
| `Polling.CycleFollowsEvaluation` | homework.py:241-258 | a validated message is sent iff it differs from prev_msg, and a failed send is the caught error; a not-for-send error sends nothing; any other error is caught and sends its failure notice iff that is new |
| `Polling.Poller.constructor` | homework.py:224-232 | the loop's state starts as the clock and an empty prev_msg |
| `Polling.Poller.TryBlock` | homework.py:235-249 | the statement-by-statement `try` block changes current_timestamp and prev_msg and reports the request date, the attempted send and the raised error exactly as `Body` does |
| `Polling.Poller.Except` | homework.py:250-258 | the statement-by-statement corrected `except` clauses change prev_msg and report the attempted send exactly as `Handle` does |
| `Polling.Poller.Step` | homework.py:235-258 | the loop body changes current_timestamp and prev_msg, and reports the request date, the attempted send and the caught error, exactly as the corrected cycle does |
| `Polling.Poller.Poll` | homework.py:234-260 | looping Step over a finite run of inputs reaches the state and delivers the texts of `Run` |
| `Polling.RunDeliveriesDiffer` | homework.py:245-258 | over any run, no two consecutive delivered texts are equal, the first differs from the initial prev_msg, and prev_msg is always the last text delivered |
| `Polling.RunDeliversAtMostOncePerCycle` | homework.py:234-258 | a run delivers at most one text per cycle, and while every send fails nothing is delivered and prev_msg never changes |
| `Polling.RepeatedCycleSendsAtMostOnce` | homework.py:241-249 | two identical consecutive cycles attempt at most one send, provided the first cycle's send (if any) went through |
| `Polling.StatusChangeIsNotified` | homework.py:241-247 | when prev_msg is the message for an earlier record and the first homework now has another known status, the cycle sends its message |
| `Polling.TimestampAdvancesBeforeValidation` | homework.py:237-240 | a 200 dict answer lacking homeworks still moves the timestamp to its current_date, then fails quietly with no send |
| `Polling.NoNewStatusesScenario` | homework.py:243-249 | an empty homework list gives 'Нет новых статусов', sent only if prev_msg differs, and the timestamp becomes current_date |
| `Polling.ApprovedScenario` | homework.py:241-247 | an approved hw1 gives exactly the message with name hw1 and the approved verdict |
| `Polling.BadStatusScenario` | homework.py:89-94 | a 503 answer keeps the timestamp, is caught by the generic handler as WrongResponseCode, sends its notice iff new, and the loop goes on |

## Left out

- The HTTP request (`requests.get`, `response.json()`) is left out as foreign network I/O. It is replaced by `FetchOutcome`: a status code with a decoded body, or a request exception given by its `repr()`. A body that is not JSON raises a request exception, so it is that second case.
- `telegram.Bot` and `bot.send_message` are left out as a foreign API. They are replaced by `SendOutcome`: delivered, or a Telegram error with its text. The model does not cover exceptions of any other kind from the bot, which the generic clause would catch.
- Logging calls and the logging setup are left out because they do not change the loop's state. This includes the ill-formed `logging.exception(message, error)` call.
- `load_dotenv`, `os.getenv` and `sys.exit` are process effects. The environment is a parameter (`Env`), and the exit is the `Exited` outcome.
- `time.time()` is a clock read. Each cycle's two reads are parameters.
- `time.sleep(RETRY_PERIOD)` in `finally` has no effect on the state and is left out.
- The `while True` loop never ends. The model has one cycle and finite runs of cycles (`Run`, `Poller.Poll`), not the infinite loop.
- `Polling.Poller.Step`: models the generic handler as corrected (see Findings). A failed delivery of the failure notice is logged and does not stop the loop. The code as written is `Polling.CycleAsWritten`.
- `Polling.Poller.Except` and `Polling.Handle`: model the corrected generic handler for the same reason. The clauses as written are `Polling.HandleAsWritten`.
- `JsonValue.StrRepr`: escapes backslashes, the quote character and ASCII control characters as Python does. It shows every other character as is, so it does not model the `\x`, `\u` and `\U` escapes Python uses for non-printable non-ASCII characters.
- A JSON float is carried by the text `str()` gives for it, since Python's shortest-repr float printing is not modelled.
- An object is an ordered list of members, looked up by first match. Python's decoder never yields duplicate keys, so duplicate keys are not modelled.
- `BaseException` subclasses that are not `Exception`, such as `KeyboardInterrupt`, escape both clauses. They come from outside the program and are not modelled.

## Findings

| source | as written | input that shows it | evidently intended | confidence | as-written member | corrected member |
|---|---|---|---|---|---|---|
| homework.py:253-258 | `send_message` is called inside `except Exception`. A `TelegramError` it raises is not caught by the sibling `except NotForSend`, so it leaves the `while True` loop and ends `main`. | The API answers 503 and `prev_msg` differs from the failure notice. The bot's send of the notice then raises a Telegram error. | A failed delivery of a failure notice is logged like any other not-for-send error, and the loop goes on. | medium, not executed | `Polling.FailedNoticeEndsLoopAsWritten` | `Polling.Cycle` |
