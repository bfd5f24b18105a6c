/** One delivery attempt of `sendWebhook`, as a function of the store, the
    rate limiter's verdict, the transport's outcome and the clock readings. */
module Dispatch {
  import opened Wrappers
  import opened Payload
  import opened Registry
  import opened Logs

  /** An HTTP response: its status and its body (`response.data`). */
  datatype Response = Response(status: int, data: Field)

  /** An error raised by the transport, with the response it carries, if any
      (`error.response`). */
  datatype HttpError = HttpError(message: string, response: Option<Response>)

  /** What `axios.post` did: returned a response, or raised an error. */
  datatype PostOutcome = Returned(response: Response) | Raised(error: HttpError)

  /** What the caller of `sendWebhook` receives when the promise rejects:
      a service error thrown before anything was sent, the transport's own
      error re-raised, or (only in `SendAsWritten`) the `ReferenceError` of
      line 74. */
  datatype Thrown =
    | ServiceError(message: string)
    | TransportError(error: HttpError)
    | ReferenceError(message: string)

  /** The settled promise of `sendWebhook`. */
  datatype SendResult = Resolved(data: Field) | Rejected(thrown: Thrown)

  /** One body handed to the transport, with the webhook's URL. */
  datatype Post = Post(url: Option<string>, body: Object)

  /** Everything one call does: its result, whether the rate limiter was
      consulted, what was posted and which log rows were written. */
  datatype Attempt = Attempt(result: SendResult, consulted: bool, posted: Option<Post>, logged: seq<LogEntry>)

  const NotFoundMessage: string := "Webhook not found"
  const InactiveMessage: string := "Webhook is not active"
  const RateLimitMessage: string := "Rate limit exceeded"
  const SuccessMessage: string := "Webhook sent successfully"

  predicate Is2xx(status: int) {
    200 <= status && status < 300
  }

  /** The attempt passed lookup, the active check and the rate limiter. */
  predicate Admits(webhooks: map<string, Webhook>, webhookId: string, admitted: bool) {
    webhookId in webhooks && webhooks[webhookId].isActive && admitted
  }

  /** The response the `finally` block sees: the returned one, or the one
      the raised error carries. */
  function ResponseOf(outcome: PostOutcome): Option<Response> {
    match outcome
    case Returned(response) => Some(response)
    case Raised(error) => error.response
  }

  /** `success` is only set after `axios.post` returned. */
  predicate Succeeds(outcome: PostOutcome) {
    outcome.Returned? && Is2xx(outcome.response.status)
  }

  /** The log row's message on failure. Line 74 reads `error?.message`, but
      `error` is bound only by the `catch` clause, so in the `finally` block
      it is an undeclared identifier. This model gives the evident intent:
      the caught error's message, and nothing when no error was raised
      (a response outside 2xx that the transport returned). */
  function FailureMessage(outcome: PostOutcome): Option<string> {
    match outcome
    case Returned(_) => None
    case Raised(error) => Some(error.message)
  }

  /** The row the `finally` block writes for an admitted attempt. */
  function AttemptLog(
    webhookId: string, message: Message, outcome: PostOutcome,
    startTime: int, endTime: int, logTime: int): LogEntry
  {
    var success := Succeeds(outcome);
    var response := ResponseOf(outcome);
    LogEntry(
      webhookId,
      success,
      if response.Some? then Some(response.value.status) else None,
      endTime - startTime,
      if success then Some(SuccessMessage) else FailureMessage(outcome),
      message,
      logTime)
  }

  /** `sendWebhook` with its defect on line 74 corrected. Lookup, the active
      check and the rate limiter run in that order and each failure stops
      the call with no post and no log row; an admitted attempt posts the
      built payload and writes exactly one row whether the post returned or
      raised, then re-raises the transport's error or resolves to the body. */
  function Send(
    webhooks: map<string, Webhook>, webhookId: string, message: Message, options: Options,
    admitted: bool, outcome: PostOutcome, startTime: int, endTime: int, logTime: int): (a: Attempt)
    // Before admission: a service error, nothing posted, nothing logged.
    ensures !Admits(webhooks, webhookId, admitted) ==> a.posted == None && a.logged == []
    ensures webhookId !in webhooks ==>
      a.result == Rejected(ServiceError(NotFoundMessage)) && !a.consulted
    ensures webhookId in webhooks && !webhooks[webhookId].isActive ==>
      a.result == Rejected(ServiceError(InactiveMessage)) && !a.consulted
    ensures webhookId in webhooks && webhooks[webhookId].isActive ==> a.consulted
    ensures webhookId in webhooks && webhooks[webhookId].isActive && !admitted ==>
      a.result == Rejected(ServiceError(RateLimitMessage))
    // The caller can tell "never attempted" from "attempted and failed".
    ensures (a.result.Rejected? && a.result.thrown.ServiceError?) <==> !Admits(webhooks, webhookId, admitted)
    // After admission: one post of the built payload and one log row.
    ensures Admits(webhooks, webhookId, admitted) ==>
      && a.posted == Some(Post(webhooks[webhookId].url, DiscordPayload(message, options)))
      && |a.logged| == 1
      && a.logged[0].webhookId == webhookId
      && a.logged[0].payload == message
      && a.logged[0].responseTime == endTime - startTime
      && a.logged[0].timestamp == logTime
      && (a.logged[0].success <==> Succeeds(outcome))
      && (a.logged[0].success ==> a.logged[0].message == Some(SuccessMessage))
      && (!a.logged[0].success && outcome.Raised? ==> a.logged[0].message == Some(outcome.error.message))
      && (outcome.Returned? && !Succeeds(outcome) ==> a.logged[0].message == None)
    ensures Admits(webhooks, webhookId, admitted) && outcome.Returned? ==>
      && a.logged[0].statusCode == Some(outcome.response.status)
      && a.result == Resolved(outcome.response.data)
    ensures Admits(webhooks, webhookId, admitted) && outcome.Raised? ==>
      && (outcome.error.response.None? ==> a.logged[0].statusCode == None)
      && (outcome.error.response.Some? ==> a.logged[0].statusCode == Some(outcome.error.response.value.status))
      && a.result == Rejected(TransportError(outcome.error))
  {
    if webhookId !in webhooks then
      Attempt(Rejected(ServiceError(NotFoundMessage)), false, None, [])
    else
      var webhook := webhooks[webhookId];
      if !webhook.isActive then
        Attempt(Rejected(ServiceError(InactiveMessage)), false, None, [])
      else if !admitted then
        Attempt(Rejected(ServiceError(RateLimitMessage)), true, None, [])
      else
        var post := Post(webhook.url, DiscordPayload(message, options));
        var entry := AttemptLog(webhookId, message, outcome, startTime, endTime, logTime);
        var result := match outcome
          case Returned(response) => Resolved(response.data)
          case Raised(error) => Rejected(TransportError(error));
        Attempt(result, true, Some(post), [entry])
  }

  /** The statistics after an attempt: the webhook's total grows by one
      exactly when the attempt was admitted, its successful count by one
      exactly when the post also returned a 2xx response, and no other
      webhook's statistics change. */
  lemma AttemptAccounting(
    logs: seq<LogEntry>, webhooks: map<string, Webhook>, webhookId: string,
    message: Message, options: Options, admitted: bool, outcome: PostOutcome,
    startTime: int, endTime: int, logTime: int, other: string)
    ensures var a := Send(webhooks, webhookId, message, options, admitted, outcome, startTime, endTime, logTime);
      var before, after := WebhookStats(logs, webhookId), WebhookStats(logs + a.logged, webhookId);
      && after.total == before.total + (if Admits(webhooks, webhookId, admitted) then 1 else 0)
      && after.successful == before.successful
           + (if Admits(webhooks, webhookId, admitted) && Succeeds(outcome) then 1 else 0)
      && (other != webhookId ==> WebhookStats(logs + a.logged, other) == WebhookStats(logs, other))
  {
    var a := Send(webhooks, webhookId, message, options, admitted, outcome, startTime, endTime, logTime);
    if a.logged == [] {
      assert logs + a.logged == logs;
    } else {
      assert a.logged == [a.logged[0]];
      StatsAfterAppend(logs, a.logged[0], webhookId);
      StatsAfterAppend(logs, a.logged[0], other);
    }
  }

  /** `sendWebhook` as written. On every path where `success` is false, the
      `finally` block evaluates `error?.message` with `error` out of scope:
      under TypeScript the file does not compile, and transpiled without type
      checking the block throws a `ReferenceError` before the row is saved, and that
      error replaces whatever the call would have thrown or returned. */
  function SendAsWritten(
    webhooks: map<string, Webhook>, webhookId: string, message: Message, options: Options,
    admitted: bool, outcome: PostOutcome, startTime: int, endTime: int, logTime: int): (a: Attempt)
    ensures !(Admits(webhooks, webhookId, admitted) && !Succeeds(outcome)) ==>
      a == Send(webhooks, webhookId, message, options, admitted, outcome, startTime, endTime, logTime)
  {
    var intended := Send(webhooks, webhookId, message, options, admitted, outcome, startTime, endTime, logTime);
    if Admits(webhooks, webhookId, admitted) && !Succeeds(outcome) then
      Attempt(Rejected(ReferenceError("error is not defined")), true, intended.posted, [])
    else
      intended
  }

  /** The defect: an admitted attempt whose post fails leaves no log row as
      written, where the corrected attempt leaves exactly one. */
  lemma AsWrittenLosesFailedAttempts(
    webhooks: map<string, Webhook>, webhookId: string, message: Message, options: Options,
    outcome: PostOutcome, startTime: int, endTime: int, logTime: int)
    requires Admits(webhooks, webhookId, true) && !Succeeds(outcome)
    ensures SendAsWritten(webhooks, webhookId, message, options, true, outcome, startTime, endTime, logTime).logged == []
    ensures SendAsWritten(webhooks, webhookId, message, options, true, outcome, startTime, endTime, logTime).result.thrown.ReferenceError?
    ensures |Send(webhooks, webhookId, message, options, true, outcome, startTime, endTime, logTime).logged| == 1
  {
  }

  /** A concrete input: a transport timeout on an active, admitted webhook. */
  lemma TimeoutShowsLostLog()
    ensures var hooks := map["w1" := Webhook("w1", "u1", None, Some("https://discord.example/hook"), true, 0, 0)];
      var timeout := Raised(HttpError("timeout of 10000ms exceeded", None));
      var m := Message(Defined(Str("hello")), Undefined);
      && SendAsWritten(hooks, "w1", m, NoOptions, true, timeout, 5, 10005, 10006).logged == []
      && Send(hooks, "w1", m, NoOptions, true, timeout, 5, 10005, 10006).logged
         == [LogEntry("w1", false, None, 10000, Some("timeout of 10000ms exceeded"), m, 10006)]
  {
  }

  /** A delivery to an inactive webhook is refused before the rate limiter and
      leaves its statistics at zero. */
  lemma InactiveScenario(startTime: int, endTime: int, logTime: int)
    ensures var hooks := map["E" := Webhook("E", "U", None, Some("https://discord.example/e"), false, 0, 0)];
      var a := Send(hooks, "E", Message(Defined(Str("hello")), Undefined), NoOptions, true,
                    Returned(Response(204, Undefined)), startTime, endTime, logTime);
      && a.result == Rejected(ServiceError(InactiveMessage))
      && !a.consulted
      && WebhookStats([] + a.logged, "E") == NoStats
  {
  }
}
