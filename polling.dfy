/**
 * The bot's main routine: the startup gate, and the body of its `while True`
 * loop as one cycle over the two values the loop keeps, `current_timestamp`
 * and `prev_msg`. The clock, the HTTP answer and the Telegram send are inputs
 * of a cycle.
 */
module Polling {
  import opened Wrappers
  import opened JsonValue
  import opened Exceptions
  import opened Homework

  const StartMessage := "Бот начал работу."
  const MissingTokenMessage := "Отсутствует токен. Бот остановлен!"
  const NoNewStatuses := "Нет новых статусов"
  const FailurePrefix := "Сбой в работе программы: "

  /** The loop's state: `current_timestamp` and `prev_msg`. */
  datatype PollState = PollState(timestamp: Json, prevMsg: string)

  /** How `main` leaves its startup: exit on a missing token, a failed greeting, or the loop's first state. */
  datatype StartOutcome = Exited(message: string) | StartCrashed(error: ErrKind) | Started(state: PollState)

  /**
   * Everything `main` does before the loop: the token gate, the greeting sent
   * outside any `try`, and the initial state, whose `prev_msg` is empty even
   * though the greeting was delivered.
   */
  function Startup(env: Env, clock: int, greeting: SendOutcome): (r: StartOutcome)
    ensures r.Exited? <==> !CheckTokens(env)
    ensures r.Exited? ==> r.message == MissingTokenMessage
    ensures r.StartCrashed? <==> CheckTokens(env) && greeting.SendFailed?
    ensures r.StartCrashed? ==> r.error.TelegramError?
    ensures r.Started? ==> r.state == PollState(JInt(clock), "")
  {
    if !CheckTokens(env) then Exited(MissingTokenMessage)
    else if greeting.SendFailed? then StartCrashed(SendMessage(greeting).value)
    else Started(PollState(JInt(clock), ""))
  }

  /** With every token set and the greeting delivered, `main` enters the loop with the clock and an empty `prev_msg`. */
  lemma StartupEntersLoop(env: Env, clock: int)
    requires CheckTokens(env)
    ensures Startup(env, clock, Delivered) == Started(PollState(JInt(clock), ""))
  {
  }

  /**
   * What one cycle is given in place of I/O: the outcome of the request, the
   * outcome of the send the cycle attempts (there is at most one), and the two
   * clock readings, the one `get_api_answer` takes for a falsy timestamp and
   * the default of `response.get('current_date', ...)`.
   */
  datatype CycleInput = CycleInput(fetch: FetchOutcome, send: SendOutcome, clockAtRequest: int, clockAfterFetch: int)

  /** The message for a validated homework list: the first homework's status, or that nothing is new. */
  function LatestMessage(homeworks: seq<Json>): Result<string, ErrKind> {
    if |homeworks| > 0 then ParseStatus(homeworks[0]) else Success(NoNewStatuses)
  }

  /**
   * What the `try` block reaches before it sends anything: the message, or the
   * first error raised. `response.get` runs before `check_response`, so an
   * answer that is not a dict fails on `.get`.
   */
  function Evaluate(token: string, fromDate: Json, fetch: FetchOutcome): Result<string, ErrKind> {
    match GetApiAnswer(token, fromDate, fetch)
    case Failure(e) => Failure(e)
    case Success(response) =>
      if !response.JObject? then Failure(NoGetError(response))
      else
        match CheckResponse(response)
        case Failure(e) => Failure(e)
        case Success(homeworks) => LatestMessage(homeworks)
  }

  /**
   * `current_timestamp` after the assignment that follows the request: the
   * answer's `current_date`, or the clock when the dict lacks it; unchanged
   * when the request failed or the answer is not a dict.
   */
  function NextTimestamp(current: Json, input: CycleInput): Json {
    if input.fetch.Response? && input.fetch.statusCode == 200 && input.fetch.body.JObject? then
      Get(input.fetch.body.fields, "current_date").GetOr(JInt(input.clockAfterFetch))
    else current
  }

  /** The notice the generic handler sends for an error. */
  function FailureMessage(e: ErrKind): string {
    FailurePrefix + Text(e)
  }

  /** `if homeworks:` on the validated list: the first record is parsed exactly when the list is truthy. */
  lemma LatestMessageCases(homeworks: seq<Json>)
    ensures Truthy(JList(homeworks)) ==> LatestMessage(homeworks) == ParseStatus(homeworks[0])
    ensures !Truthy(JList(homeworks)) ==> LatestMessage(homeworks) == Success(NoNewStatuses)
  {
  }

  /**
   * The steps of the `try` block up to its message, in program order: the
   * request's error, then `.get` on an answer that is not a dict, then
   * `check_response` on the dict, then the latest homework. The one quiet
   * failure among them is a dict that lacks a key.
   */
  lemma EvaluateCases(token: string, fromDate: Json, fetch: FetchOutcome)
    ensures GetApiAnswer(token, fromDate, fetch).Failure? ==>
              Evaluate(token, fromDate, fetch) == Failure(GetApiAnswer(token, fromDate, fetch).error)
    ensures fetch.Response? && fetch.statusCode == 200 && !fetch.body.JObject? ==>
              Evaluate(token, fromDate, fetch) == Failure(NoGetError(fetch.body))
    ensures fetch.Response? && fetch.statusCode == 200 && fetch.body.JObject? && !HasBothKeys(fetch.body) ==>
              Evaluate(token, fromDate, fetch) == Failure(EmptyResponseFromAPI(MissingKeyMessage))
    ensures fetch.Response? && fetch.statusCode == 200 && HasBothKeys(fetch.body) ==>
              var homeworks := Get(fetch.body.fields, "homeworks").value;
              && (!homeworks.JList? ==> Evaluate(token, fromDate, fetch) == Failure(TypeError(NotListMessage)))
              && (homeworks.JList? ==> Evaluate(token, fromDate, fetch) == LatestMessage(homeworks.items))
    ensures Evaluate(token, fromDate, fetch).Failure? ==>
              (HandlerFor(Evaluate(token, fromDate, fetch).error) == QuietHandler <==>
                 fetch.Response? && fetch.statusCode == 200 && fetch.body.JObject? && !HasBothKeys(fetch.body))
  {
  }

  /**
   * `current_timestamp` keeps its value when `get_api_answer` raises or its
   * answer is not a dict; otherwise it becomes the value stored under
   * `current_date`, or the clock when there is none.
   */
  lemma NextTimestampCases(token: string, fromDate: Json, current: Json, input: CycleInput)
    ensures GetApiAnswer(token, fromDate, input.fetch).Failure? ==> NextTimestamp(current, input) == current
    ensures GetApiAnswer(token, fromDate, input.fetch).Success? && !input.fetch.body.JObject? ==>
              NextTimestamp(current, input) == current
    ensures GetApiAnswer(token, fromDate, input.fetch).Success? && input.fetch.body.JObject? ==>
              var fields := input.fetch.body.fields;
              && (HasKey(fields, "current_date") ==> ("current_date", NextTimestamp(current, input)) in fields)
              && (!HasKey(fields, "current_date") ==> NextTimestamp(current, input) == JInt(input.clockAfterFetch))
  {
  }

  /** A failure notice reads back as the prefix followed by `str(error)`, so two notices are equal exactly when the errors print alike. */
  lemma FailureMessageParts(e: ErrKind, other: ErrKind)
    ensures FailureMessage(e)[..|FailurePrefix|] == FailurePrefix
    ensures FailureMessage(e)[|FailurePrefix|..] == Text(e)
    ensures FailureMessage(e) == FailureMessage(other) <==> Text(e) == Text(other)
  {
    assert FailureMessage(e)[|FailurePrefix|..] == Text(e);
    assert FailureMessage(other)[|FailurePrefix|..] == Text(other);
  }

  /**
   * The three kinds of message never coincide, since each starts with its own
   * word, so `prev_msg` never mistakes one kind for another.
   */
  lemma MessageKindsDistinct(e: ErrKind, name: Json, verdict: string)
    ensures FailureMessage(e) != StatusMessage(name, verdict)
    ensures FailureMessage(e) != NoNewStatuses
    ensures StatusMessage(name, verdict) != NoNewStatuses
  {
    assert FailureMessage(e)[0] == FailurePrefix[0];
    assert StatusMessage(name, verdict)[0] == ChangedPrefix[0];
  }

  /** The state after the `try` block, what it tried to send, and what it raised. */
  datatype BodyResult = BodyResult(state: PollState, fromDate: Json, attempt: Option<string>, raised: Option<ErrKind>)

  /** The `try` block: request, timestamp, validation, and a send only of a new message. */
  function Body(token: string, s: PollState, input: CycleInput): BodyResult {
    var fromDate := RequestDate(s.timestamp, input.clockAtRequest);
    Settle(s, input, fromDate, Evaluate(token, fromDate, input.fetch))
  }

  /**
   * The rest of the `try` block once its message or error `v` is known: the
   * timestamp has advanced, an error is raised with nothing sent, and a
   * message is sent exactly when it differs from `prev_msg`, which then
   * becomes it only if the send returned.
   */
  function Settle(s: PollState, input: CycleInput, fromDate: Json, v: Result<string, ErrKind>): (b: BodyResult)
    ensures b.fromDate == fromDate
    ensures b.state.timestamp == NextTimestamp(s.timestamp, input)
    ensures v.Failure? ==> b.raised == Some(v.error) && b.attempt == None
    ensures v.Success? ==> b.attempt == (if v.value != s.prevMsg then Some(v.value) else None)
    ensures v.Success? ==> b.raised == (if v.value != s.prevMsg then SendMessage(input.send) else None)
    ensures b.state.prevMsg == if b.attempt.Some? && input.send.Delivered? then b.attempt.value else s.prevMsg
    ensures b.raised.Some? ==> b.state.prevMsg == s.prevMsg
    ensures b.raised.Some? && HandlerFor(b.raised.value) == NotifyingHandler ==> v.Failure? && b.attempt == None
  {
    var s1 := s.(timestamp := NextTimestamp(s.timestamp, input));
    match v
    case Failure(e) => BodyResult(s1, fromDate, None, Some(e))
    case Success(message) =>
      if message == s.prevMsg then BodyResult(s1, fromDate, None, None)
      else if input.send.SendFailed? then BodyResult(s1, fromDate, Some(message), SendMessage(input.send))
      else BodyResult(s1.(prevMsg := message), fromDate, Some(message), None)
  }

  /** Whether the loop goes on after a cycle, or an error has left it and ended the process. */
  datatype Continuation = Continue | Crash(error: ErrKind)

  /**
   * One cycle: the new state, the request date used, the text of the send
   * attempted (if any), the error a handler caught (if any), and whether the
   * loop goes on.
   */
  datatype CycleResult = CycleResult(state: PollState, fromDate: Json, attempt: Option<string>,
                                     caught: Option<ErrKind>, next: Continuation)

  /**
   * The corrected `except` clauses applied to what the `try` block left: a
   * not-for-send error (or none) changes nothing; any other error sends its
   * failure notice when that differs from `prev_msg`, and `prev_msg` becomes
   * the notice only if the send returned. The loop always goes on.
   */
  function Handle(b: BodyResult, send: SendOutcome): (r: CycleResult)
    ensures r.next == Continue && r.fromDate == b.fromDate && r.caught == b.raised
    ensures r.state.timestamp == b.state.timestamp
    ensures b.raised.None? || HandlerFor(b.raised.value) == QuietHandler ==> r.attempt == b.attempt && r.state == b.state
    ensures b.raised.Some? && HandlerFor(b.raised.value) == NotifyingHandler ==>
              && r.attempt == (if FailureMessage(b.raised.value) != b.state.prevMsg
                               then Some(FailureMessage(b.raised.value)) else None)
              && r.state.prevMsg == if r.attempt.Some? && send.Delivered? then r.attempt.value else b.state.prevMsg
  {
    if b.raised.None? || HandlerFor(b.raised.value) == QuietHandler then
      CycleResult(b.state, b.fromDate, b.attempt, b.raised, Continue)
    else
      var notice := FailureMessage(b.raised.value);
      if notice == b.state.prevMsg then CycleResult(b.state, b.fromDate, None, b.raised, Continue)
      else if send.SendFailed? then CycleResult(b.state, b.fromDate, Some(notice), b.raised, Continue)
      else CycleResult(b.state.(prevMsg := notice), b.fromDate, Some(notice), b.raised, Continue)
  }

  /**
   * The `except` clauses as written: as `Handle`, except that a failed
   * delivery of the failure notice raises a `TelegramError` that the sibling
   * `except NotForSend` does not catch, so it leaves the loop.
   */
  function HandleAsWritten(b: BodyResult, send: SendOutcome): (r: CycleResult)
    ensures r.next.Crash? ==> r.next.error.TelegramError? && r.attempt.Some? && send.SendFailed?
  {
    if b.raised.None? || HandlerFor(b.raised.value) == QuietHandler then
      CycleResult(b.state, b.fromDate, b.attempt, b.raised, Continue)
    else
      var notice := FailureMessage(b.raised.value);
      if notice == b.state.prevMsg then CycleResult(b.state, b.fromDate, None, b.raised, Continue)
      else if send.SendFailed? then
        CycleResult(b.state, b.fromDate, Some(notice), b.raised, Crash(SendMessage(send).value))
      else CycleResult(b.state.(prevMsg := notice), b.fromDate, Some(notice), b.raised, Continue)
  }

  /** The two sets of clauses part only when the notice is new and its send fails. */
  lemma HandlersDiffer(b: BodyResult, send: SendOutcome)
    ensures HandleAsWritten(b, send).next.Crash? <==>
              b.raised.Some? && HandlerFor(b.raised.value) == NotifyingHandler
              && FailureMessage(b.raised.value) != b.state.prevMsg && send.SendFailed?
    ensures HandleAsWritten(b, send).next == Continue ==> HandleAsWritten(b, send) == Handle(b, send)
  {
  }

  /** The loop body as written: the `try` block, then the clauses as written. */
  function CycleAsWritten(token: string, s: PollState, input: CycleInput): (r: CycleResult)
    ensures r.next.Crash? ==> r.next.error.TelegramError? && r.attempt.Some? && input.send.SendFailed?
  {
    HandleAsWritten(Body(token, s, input), input.send)
  }

  /**
   * One cycle with the failed delivery of a failure notice logged rather than
   * re-raised. The request date substitutes the clock for a falsy timestamp;
   * the timestamp advances before validation; a send is attempted only for a
   * text other than `prev_msg`, and `prev_msg` becomes a text only once its
   * send returned; a not-for-send error sends nothing further and keeps
   * `prev_msg`; any other error sends the failure notice when it is new; and
   * every cycle ends with the loop going on.
   */
  function Cycle(token: string, s: PollState, input: CycleInput): (r: CycleResult)
    ensures r.next == Continue
    ensures r.fromDate == RequestDate(s.timestamp, input.clockAtRequest)
    ensures r.state.timestamp == NextTimestamp(s.timestamp, input)
    ensures r.attempt.Some? ==> r.attempt.value != s.prevMsg
    ensures r.state.prevMsg == if r.attempt.Some? && input.send.Delivered? then r.attempt.value else s.prevMsg
    ensures r.caught.Some? && HandlerFor(r.caught.value) == QuietHandler ==> r.state.prevMsg == s.prevMsg
  {
    var fromDate := RequestDate(s.timestamp, input.clockAtRequest);
    Resume(s, input, fromDate, Evaluate(token, fromDate, input.fetch))
  }

  /** The cycle once its `try` block has reached the message or error `v`. */
  function Resume(s: PollState, input: CycleInput, fromDate: Json, v: Result<string, ErrKind>): (r: CycleResult)
    ensures r.next == Continue && r.fromDate == fromDate
    ensures r.state.timestamp == NextTimestamp(s.timestamp, input)
    ensures r.attempt.Some? ==> r.attempt.value != s.prevMsg
    ensures r.state.prevMsg == if r.attempt.Some? && input.send.Delivered? then r.attempt.value else s.prevMsg
    ensures r.caught.Some? && HandlerFor(r.caught.value) == QuietHandler ==> r.state.prevMsg == s.prevMsg
  {
    Handle(Settle(s, input, fromDate, v), input.send)
  }

  /**
   * The `try` block evaluates first and sends after: an error sends nothing
   * and keeps `prev_msg`; a message equal to `prev_msg` is only logged; a new
   * one is sent, its failed send is what the block raises, and it becomes
   * `prev_msg` only if the send returned.
   */
  lemma BodyFollowsEvaluation(token: string, s: PollState, input: CycleInput)
    ensures var b := Body(token, s, input);
            var v := Evaluate(token, RequestDate(s.timestamp, input.clockAtRequest), input.fetch);
            && b.fromDate == RequestDate(s.timestamp, input.clockAtRequest)
            && b.state.timestamp == NextTimestamp(s.timestamp, input)
            && (v.Failure? ==> b.raised == Some(v.error) && b.attempt == None && b.state.prevMsg == s.prevMsg)
            && (v.Success? && v.value == s.prevMsg ==> b.raised == None && b.attempt == None && b.state.prevMsg == s.prevMsg)
            && (v.Success? && v.value != s.prevMsg ==>
                  b.attempt == Some(v.value) && b.raised == SendMessage(input.send)
                  && b.state.prevMsg == (if input.send.Delivered? then v.value else s.prevMsg))
  {
  }

  /**
   * How a cycle follows from what its `try` block reaches: a message is sent
   * exactly when it is new, and a delivery failure is then the caught error;
   * a quiet error sends nothing; any other error sends its failure notice
   * exactly when that notice is new.
   */
  lemma CycleFollowsEvaluation(token: string, s: PollState, input: CycleInput)
    ensures var r := Cycle(token, s, input);
            var v := Evaluate(token, RequestDate(s.timestamp, input.clockAtRequest), input.fetch);
            && (v.Success? ==> r.attempt == (if v.value != s.prevMsg then Some(v.value) else None))
            && (v.Success? ==> r.caught == (if v.value != s.prevMsg then SendMessage(input.send) else None))
            && (v.Failure? ==> r.caught == Some(v.error))
            && (v.Failure? && HandlerFor(v.error) == QuietHandler ==> r.attempt == None)
            && (v.Failure? && HandlerFor(v.error) == NotifyingHandler ==>
                  r.attempt == (if FailureMessage(v.error) != s.prevMsg then Some(FailureMessage(v.error)) else None))
  {
  }

  /**
   * The loop as written and the corrected one differ in one case only: the
   * generic handler's notice is new and its send fails, and then the process
   * ends.
   */
  lemma AsWrittenDiffersOnlyOnFailedNotice(token: string, s: PollState, input: CycleInput)
    ensures var r, v := CycleAsWritten(token, s, input), Evaluate(token, RequestDate(s.timestamp, input.clockAtRequest), input.fetch);
            r.next.Crash? <==>
              v.Failure? && HandlerFor(v.error) == NotifyingHandler
              && FailureMessage(v.error) != s.prevMsg && input.send.SendFailed?
    ensures CycleAsWritten(token, s, input).next == Continue ==> CycleAsWritten(token, s, input) == Cycle(token, s, input)
  {
    HandlersDiffer(Body(token, s, input), input.send);
  }

  /**
   * A concrete cycle on which the code as written ends the process: the API
   * answers 503, so the generic handler sends a new failure notice, and that
   * send raises a Telegram error.
   */
  lemma FailedNoticeEndsLoopAsWritten(token: string)
    ensures var input := CycleInput(Response(503, JNull), SendFailed("Timed out"), 1, 1);
            CycleAsWritten(token, PollState(JInt(1700000000), ""), input).next.Crash?
            && Cycle(token, PollState(JInt(1700000000), ""), input).next == Continue
  {
    var input := CycleInput(Response(503, JNull), SendFailed("Timed out"), 1, 1);
    var s := PollState(JInt(1700000000), "");
    var e := BadStatusError(token, JInt(1700000000), 503);
    assert Evaluate(token, RequestDate(s.timestamp, 1), input.fetch) == Failure(e);
    assert FailureMessage(e) != "" by { assert |FailureMessage(e)| >= |FailurePrefix| > 0; }
    AsWrittenDiffersOnlyOnFailedNotice(token, s, input);
  }

  // ------------------------------------------------------ sequences of cycles

  /** The texts a cycle delivered: its attempted send, when that send returned. */
  function DeliveredTexts(r: CycleResult, input: CycleInput): seq<string> {
    if r.attempt.Some? && input.send.Delivered? then [r.attempt.value] else []
  }

  /** The state after a run of cycles and every text delivered in it, in order. */
  datatype RunResult = RunResult(state: PollState, delivered: seq<string>)

  /** The loop run over a finite prefix of its inputs. */
  function Run(token: string, s: PollState, inputs: seq<CycleInput>): RunResult
    decreases |inputs|
  {
    if inputs == [] then RunResult(s, [])
    else
      var c := Cycle(token, s, inputs[0]);
      var rest := Run(token, c.state, inputs[1..]);
      RunResult(rest.state, DeliveredTexts(c, inputs[0]) + rest.delivered)
  }

  /** A run extended by one more input is that run followed by one more cycle. */
  lemma {:induction false} RunSnoc(token: string, s: PollState, inputs: seq<CycleInput>, last: CycleInput)
    ensures var before := Run(token, s, inputs);
            var c := Cycle(token, before.state, last);
            Run(token, s, inputs + [last]) == RunResult(c.state, before.delivered + DeliveredTexts(c, last))
    decreases |inputs|
  {
    if inputs == [] {
      assert [] + [last] == [last] && [last][1..] == [];
    } else {
      var c0 := Cycle(token, s, inputs[0]);
      assert (inputs + [last])[0] == inputs[0] && (inputs + [last])[1..] == inputs[1..] + [last];
      RunSnoc(token, c0.state, inputs[1..], last);
      var rest := Run(token, c0.state, inputs[1..]);
      var c := Cycle(token, rest.state, last);
      AppendAssociative(DeliveredTexts(c0, inputs[0]), rest.delivered, DeliveredTexts(c, last));
    }
  }

  /**
   * A run over the first `i` inputs that reached `before` and delivered
   * `already`, extended by the cycle on input `i`, which reaches `after` and
   * attempts `attempt`.
   */
  lemma RunExtend(token: string, start: PollState, inputs: seq<CycleInput>, i: nat,
                  before: PollState, already: seq<string>, after: PollState, fromDate: Json, attempt: Option<string>, caught: Option<ErrKind>)
    requires i < |inputs|
    requires Run(token, start, inputs[..i]) == RunResult(before, already)
    requires Cycle(token, before, inputs[i]) == CycleResult(after, fromDate, attempt, caught, Continue)
    ensures Run(token, start, inputs[..i + 1])
         == RunResult(after, already + if attempt.Some? && inputs[i].send.Delivered? then [attempt.value] else [])
  {
    TakeOneMore(inputs, i);
    RunSnoc(token, start, inputs[..i], inputs[i]);
  }

  lemma TakeOneMore(inputs: seq<CycleInput>, i: nat)
    requires i < |inputs|
    ensures inputs[..i + 1] == inputs[..i] + [inputs[i]]
  {
  }

  lemma AppendAssociative(a: seq<string>, b: seq<string>, c: seq<string>)
    ensures a + (b + c) == (a + b) + c
  {
  }

  /**
   * The notification invariant of the loop: no two consecutive deliveries
   * carry the same text, the first differs from the starting `prev_msg`, and
   * `prev_msg` is always the last text delivered.
   */
  lemma {:induction false} RunDeliveriesDiffer(token: string, s: PollState, inputs: seq<CycleInput>)
    ensures var d := Run(token, s, inputs).delivered;
            && (forall k :: 0 <= k < |d| - 1 ==> d[k] != d[k + 1])
            && (|d| > 0 ==> d[0] != s.prevMsg)
            && Run(token, s, inputs).state.prevMsg == if |d| > 0 then d[|d| - 1] else s.prevMsg
    decreases |inputs|
  {
    if inputs != [] {
      var c := Cycle(token, s, inputs[0]);
      var rest := Run(token, c.state, inputs[1..]);
      RunDeliveriesDiffer(token, c.state, inputs[1..]);
      DeliveriesCons(s.prevMsg, DeliveredTexts(c, inputs[0]), c.state.prevMsg, rest.delivered, rest.state.prevMsg);
    }
  }

  /**
   * Each cycle delivers at most one text, and while Telegram refuses every
   * send nothing is delivered and `prev_msg` stays as it was, so every
   * message is tried again on the next cycle.
   */
  lemma {:induction false} RunDeliversAtMostOncePerCycle(token: string, s: PollState, inputs: seq<CycleInput>)
    ensures |Run(token, s, inputs).delivered| <= |inputs|
    ensures (forall k :: 0 <= k < |inputs| ==> inputs[k].send.SendFailed?) ==>
              Run(token, s, inputs).delivered == [] && Run(token, s, inputs).state.prevMsg == s.prevMsg
    decreases |inputs|
  {
    if inputs != [] {
      var c := Cycle(token, s, inputs[0]);
      RunDeliversAtMostOncePerCycle(token, c.state, inputs[1..]);
      if forall k :: 0 <= k < |inputs| ==> inputs[k].send.SendFailed? {
        assert forall k :: 0 <= k < |inputs[1..]| ==> inputs[1..][k] == inputs[k + 1];
      }
    }
  }

  /**
   * The step of that induction on plain sequences: at most one delivery, of a
   * text other than `p0` that becomes `p1`, followed by deliveries that keep
   * the invariant from `p1` to `p2`, keep it from `p0` to `p2`.
   */
  lemma DeliveriesCons(p0: string, head: seq<string>, p1: string, rest: seq<string>, p2: string)
    requires head == [] ==> p1 == p0
    requires head != [] ==> head == [p1] && p1 != p0
    requires forall k :: 0 <= k < |rest| - 1 ==> rest[k] != rest[k + 1]
    requires |rest| > 0 ==> rest[0] != p1
    requires p2 == if |rest| > 0 then rest[|rest| - 1] else p1
    ensures var d := head + rest;
            && (forall k :: 0 <= k < |d| - 1 ==> d[k] != d[k + 1])
            && (|d| > 0 ==> d[0] != p0)
            && p2 == if |d| > 0 then d[|d| - 1] else p0
  {
    var d := head + rest;
    if head != [] {
      forall k | 0 <= k < |d| - 1 ensures d[k] != d[k + 1] {
        if k > 0 { assert d[k] == rest[k - 1] && d[k + 1] == rest[k]; }
      }
    }
  }

  /**
   * Two identical consecutive cycles give at most one send: once the first
   * cycle's send (if any) went through, the second finds its message already
   * in `prev_msg`.
   */
  lemma RepeatedCycleSendsAtMostOnce(token: string, s: PollState, input: CycleInput)
    requires Cycle(token, s, input).attempt.None? || input.send.Delivered?
    ensures Cycle(token, Cycle(token, s, input).state, input).attempt.None?
  {
    CycleFollowsEvaluation(token, s, input);
    CycleFollowsEvaluation(token, Cycle(token, s, input).state, input);
    var c1 := Cycle(token, s, input);
    var c2 := Cycle(token, c1.state, input);
    var v1 := Evaluate(token, c1.fromDate, input.fetch);
    var v2 := Evaluate(token, c2.fromDate, input.fetch);
    if input.fetch.Response? && input.fetch.statusCode == 200 {
      assert v1 == v2;
    } else {
      assert c1.state.timestamp == s.timestamp;
      assert c1.fromDate == c2.fromDate;
    }
    if v1.Failure? && HandlerFor(v1.error) == QuietHandler {
      assert c1.state.prevMsg == s.prevMsg;
    }
  }

  /**
   * A status change is always notified: when `prev_msg` is the message for an
   * earlier homework record and the answer's first record carries a different
   * known status, the cycle sends its message.
   */
  lemma StatusChangeIsNotified(token: string, s: PollState, input: CycleInput, earlier: Json, homeworks: seq<Json>)
    requires ParseStatus(earlier).Success? && s.prevMsg == ParseStatus(earlier).value
    requires input.fetch.Response? && input.fetch.statusCode == 200
    requires CheckResponse(input.fetch.body) == Success(homeworks) && |homeworks| > 0
    requires ParseStatus(homeworks[0]).Success?
    requires Get(homeworks[0].fields, "status") != Get(earlier.fields, "status")
    ensures Cycle(token, s, input).attempt == Some(ParseStatus(homeworks[0]).value)
  {
    CycleFollowsEvaluation(token, s, input);
    if ParseStatus(homeworks[0]) == ParseStatus(earlier) {
      ParseStatusInjective(earlier, homeworks[0]);
    }
  }

  // ------------------------------------------------------------- scenarios

  /** An answer with no homeworks: the message is that nothing is new, sent only if it is new. */
  lemma NoNewStatusesScenario(token: string, s: PollState, input: CycleInput, date: int)
    requires input.fetch == Response(200, JObject([("homeworks", JList([])), ("current_date", JInt(date))]))
    ensures var r := Cycle(token, s, input);
            && r.state.timestamp == JInt(date)
            && r.attempt == if s.prevMsg == NoNewStatuses then None else Some(NoNewStatuses)
  {
    CycleFollowsEvaluation(token, s, input);
    var fields := input.fetch.body.fields;
    assert fields[0].0 == "homeworks" && fields[1].0 == "current_date";
  }

  /** An answer whose first homework is approved: the exact message sent. */
  lemma ApprovedScenario(token: string, input: CycleInput, date: int)
    requires input.fetch == Response(200, JObject([
               ("homeworks", JList([JObject([("homework_name", JString("hw1")), ("status", JString("approved"))])])),
               ("current_date", JInt(date))]))
    ensures Cycle(token, PollState(JInt(date), ""), input).attempt == Some(ChangedPrefix + "hw1" + "\". " + Approved)
  {
    CycleFollowsEvaluation(token, PollState(JInt(date), ""), input);
    var hw := JObject([("homework_name", JString("hw1")), ("status", JString("approved"))]);
    var body := input.fetch.body;
    assert body.fields[0].0 == "homeworks" && body.fields[1].0 == "current_date";
    assert CheckResponse(body) == Success([hw]);
    assert hw.fields[0].0 == "homework_name" && hw.fields[1].0 == "status";
    var message := ChangedPrefix + "hw1" + "\". " + Approved;
    assert Str(JString("hw1")) == "hw1";
    assert ParseStatus(hw) == Success(message);
    assert Evaluate(token, RequestDate(JInt(date), input.clockAtRequest), input.fetch) == Success(message);
  }

  /**
   * The timestamp advances before validation: a 200 answer that is a dict
   * lacking `homeworks` still moves `current_timestamp` to its `current_date`,
   * and the cycle then fails quietly with an empty-response error.
   */
  lemma TimestampAdvancesBeforeValidation(token: string, s: PollState, input: CycleInput, date: Json)
    requires input.fetch == Response(200, JObject([("current_date", date)]))
    ensures var r := Cycle(token, s, input);
            && r.state == PollState(date, s.prevMsg)
            && r.caught == Some(EmptyResponseFromAPI(MissingKeyMessage))
            && r.attempt == None
  {
    CycleFollowsEvaluation(token, s, input);
    var fields := input.fetch.body.fields;
    assert fields[0].0 == "current_date";
    assert !HasKey(fields, "homeworks");
  }

  /**
   * An answer with status 503: a `WrongResponseCode` that reaches the generic
   * handler, whose notice is sent when new; the timestamp stays and the loop
   * goes on.
   */
  lemma BadStatusScenario(token: string, s: PollState, input: CycleInput)
    requires input.fetch.Response? && input.fetch.statusCode == 503
    ensures var r := Cycle(token, s, input);
            var notice := FailureMessage(BadStatusError(token, r.fromDate, 503));
            && r.state.timestamp == s.timestamp
            && r.caught == Some(BadStatusError(token, r.fromDate, 503))
            && r.attempt == (if notice != s.prevMsg then Some(notice) else None)
            && r.next == Continue
  {
    CycleFollowsEvaluation(token, s, input);
  }

  // ------------------------------------------------------------- the loop

  /** The running bot: its API token and the loop's two variables. */
  class Poller {
    const token: string
    var currentTimestamp: Json
    var prevMsg: string

    function State(): PollState
      reads this
    {
      PollState(currentTimestamp, prevMsg)
    }

    /** The state `main` enters the loop with, the one `StartupEntersLoop` shows `Startup` gives. */
    constructor (token: string, clock: int)
      ensures this.token == token && State() == PollState(JInt(clock), "")
    {
      this.token := token;
      currentTimestamp := JInt(clock);
      prevMsg := "";
    }

    /** The `try` block of the loop, statement by statement: what it sent and what it raised. */
    method TryBlock(input: CycleInput) returns (fromDate: Json, attempt: Option<string>, raised: Option<ErrKind>)
      modifies this
      ensures Body(token, old(State()), input) == BodyResult(State(), fromDate, attempt, raised)
    {
      ghost var s := State();
      attempt := None;
      raised := None;
      fromDate := RequestDate(currentTimestamp, input.clockAtRequest);
      ghost var v := Evaluate(token, fromDate, input.fetch);
      var answer := GetApiAnswer(token, fromDate, input.fetch);
      if answer.Failure? {
        raised := Some(answer.error);
        assert v == Failure(answer.error);
      } else if !answer.value.JObject? {
        raised := Some(NoGetError(answer.value));
        assert v == Failure(NoGetError(answer.value));
      } else {
        var response := answer.value;
        currentTimestamp := Get(response.fields, "current_date").GetOr(JInt(input.clockAfterFetch));
        var homeworks := CheckResponse(response);
        if homeworks.Failure? {
          raised := Some(homeworks.error);
          assert v == Failure(homeworks.error);
        } else {
          var message := if |homeworks.value| > 0 then ParseStatus(homeworks.value[0]) else Success(NoNewStatuses);
          assert v == message;
          if message.Failure? {
            raised := Some(message.error);
          } else if message.value != prevMsg {
            attempt := Some(message.value);
            var failure := SendMessage(input.send);
            if failure.Some? {
              raised := failure;
            } else {
              prevMsg := message.value;
            }
          }
        }
      }
      assert currentTimestamp == NextTimestamp(s.timestamp, input);
    }

    /** One pass of the loop body: the `try` block, then the corrected handlers. */
    method Step(input: CycleInput) returns (fromDate: Json, attempt: Option<string>, caught: Option<ErrKind>)
      modifies this
      ensures Cycle(token, old(State()), input) == CycleResult(State(), fromDate, attempt, caught, Continue)
    {
      var tried;
      fromDate, tried, caught := TryBlock(input);
      attempt := Except(fromDate, tried, caught, input.send);
    }

    /**
     * The corrected `except` clauses, given what the `try` block computed:
     * the request date, the send it attempted and the error it raised.
     */
    method Except(fromDate: Json, tried: Option<string>, raised: Option<ErrKind>, send: SendOutcome)
        returns (attempt: Option<string>)
      modifies this
      ensures Handle(BodyResult(old(State()), fromDate, tried, raised), send)
           == CycleResult(State(), fromDate, attempt, raised, Continue)
    {
      attempt := tried;
      if raised.Some? && HandlerFor(raised.value) == NotifyingHandler {
        // a notifying error was raised before any send of the `try` block
        attempt := None;
        var notice := FailureMessage(raised.value);
        if notice != prevMsg {
          attempt := Some(notice);
          var failure := SendMessage(send);
          if failure.None? {
            prevMsg := notice;
          }
        }
      }
    }

    /** The loop over a finite prefix of its inputs, returning the texts delivered. */
    method Poll(inputs: seq<CycleInput>) returns (delivered: seq<string>)
      modifies this
      ensures Run(token, old(State()), inputs) == RunResult(State(), delivered)
    {
      ghost var start := State();
      delivered := [];
      var i := 0;
      while i < |inputs|
        invariant 0 <= i <= |inputs|
        invariant Run(token, start, inputs[..i]) == RunResult(State(), delivered)
        decreases |inputs| - i
      {
        ghost var before, already := State(), delivered;
        var fromDate, attempt, caught := Step(inputs[i]);
        RunExtend(token, start, inputs, i, before, already, State(), fromDate, attempt, caught);
        delivered := delivered + if attempt.Some? && inputs[i].send.Delivered? then [attempt.value] else [];
        i := i + 1;
      }
      assert inputs[..i] == inputs;
    }
  }
}
