/** The webhook service object: its two stores, the calls it makes on the
    rate limiter and the bodies it hands to the transport. */
module Service {
  import opened Wrappers
  import opened Payload
  import Registry
  import opened Logs
  import opened Dispatch

  class WebhookService {
    /** The webhook collection, by document id. */
    var webhooks: map<string, Registry.Webhook>
    /** The log collection, in insertion order. */
    var logs: seq<LogEntry>
    /** The webhook ids presented to `rateLimiter.checkLimit`, in order. */
    var limiterCalls: seq<string>
    /** The bodies handed to `axios.post`, in order. */
    var outbox: seq<Post>

    constructor ()
      ensures webhooks == map[] && logs == [] && limiterCalls == [] && outbox == []
    {
      webhooks := map[];
      logs := [];
      limiterCalls := [];
      outbox := [];
    }

    /** `createWebhook`: saves the built record under the id the store
        assigned, or saves nothing and reports the validator's errors. */
    method CreateWebhook(
      id: string, userId: string, data: Registry.WebhookData, validation: Registry.Validation,
      createdAt: int, updatedAt: int) returns (r: Result<Registry.Webhook>)
      modifies this
      ensures r == Registry.CreateWebhook(id, userId, data, validation, createdAt, updatedAt)
      ensures r.Success? <==> validation.isValid
      ensures webhooks == if r.Success? then old(webhooks)[id := r.value] else old(webhooks)
      ensures logs == old(logs) && limiterCalls == old(limiterCalls) && outbox == old(outbox)
    {
      r := Registry.CreateWebhook(id, userId, data, validation, createdAt, updatedAt);
      if r.Success? {
        webhooks := webhooks[id := r.value];
      }
    }

    /** `sendWebhook`, with the limiter's verdict, the transport's outcome and
        the three clock readings (before the post, in `finally`, and the row's
        timestamp) as inputs. Its effect is exactly `Dispatch.Send`'s. */
    method SendWebhook(
      webhookId: string, message: Message, options: Options,
      admitted: bool, outcome: PostOutcome, startTime: int, endTime: int, logTime: int)
      returns (r: SendResult)
      modifies this
      ensures var a := Send(old(webhooks), webhookId, message, options, admitted, outcome, startTime, endTime, logTime);
        && r == a.result
        && webhooks == old(webhooks)
        && logs == old(logs) + a.logged
        && outbox == old(outbox) + (if a.posted.Some? then [a.posted.value] else [])
        && limiterCalls == old(limiterCalls) + (if a.consulted then [webhookId] else [])
    {
      if webhookId !in webhooks {
        return Rejected(ServiceError(NotFoundMessage));
      }
      var webhook := webhooks[webhookId];
      if !webhook.isActive {
        return Rejected(ServiceError(InactiveMessage));
      }
      limiterCalls := limiterCalls + [webhookId];
      if !admitted {
        return Rejected(ServiceError(RateLimitMessage));
      }

      var response: Option<Response> := None;
      var success := false;
      var caught: Option<HttpError> := None;
      // try
      var payload := BuildDiscordPayload(message, options);
      outbox := outbox + [Post(webhook.url, payload)];
      match outcome {
        case Returned(returned) =>
          response := Some(returned);
          success := Is2xx(returned.status);
        case Raised(error) =>
          // catch: keep the error's response, then re-raise after `finally`
          response := error.response;
          caught := Some(error);
      }
      // finally: the message on failure is the caught error's (see Dispatch.FailureMessage)
      var failureMessage := if caught.Some? then Some(caught.value.message) else None;
      logs := logs + [LogEntry(
        webhookId,
        success,
        if response.Some? then Some(response.value.status) else None,
        endTime - startTime,
        if success then Some(SuccessMessage) else failureMessage,
        message,
        logTime)];
      if caught.Some? {
        return Rejected(TransportError(caught.value));
      }
      return Resolved(response.value.data);
    }

    /** `getWebhookStats`: reads the log and changes nothing, so two calls
        with no attempt in between return the same statistics. */
    method GetWebhookStats(webhookId: string) returns (st: Stats)
      ensures st == WebhookStats(logs, webhookId)
      ensures st.successful <= st.total && st.failed == st.total - st.successful
      ensures 0.0 <= st.successRate <= 100.0
    {
      st := WebhookStats(logs, webhookId);
      StatsRateBounds(logs, webhookId);
    }
  }

  /** Register E for U, deliver {"content": "hello"} with a 204 reply, and
      E's statistics read one successful attempt out of one. */
  method DeliveredScenario()
  {
    var service := new WebhookService();
    var data := Registry.WebhookData(Some("alerts"), Some("https://discord.example/e"), Some("someone-else"), Some(false), None, None);
    var created := service.CreateWebhook("E", "U", data, Registry.Validation(true, []), 1, 1);
    assert created.Success? && created.value.userId == "U" && created.value.isActive;

    var hello := Message(Defined(Str("hello")), Undefined);
    ghost var hooks := service.webhooks;
    var sent := service.SendWebhook("E", hello, NoOptions, true, Returned(Response(204, Undefined)), 10, 42, 43);
    assert sent == Resolved(Undefined);
    assert |service.logs| == 1 && service.logs[0].success && service.logs[0].statusCode == Some(204);
    assert service.logs[0].responseTime == 32 && service.logs[0].payload == hello;
    var stats := service.GetWebhookStats("E");
    OneSuccessfulRow(service.logs, "E");
    assert stats == Stats(1, 1, 0, 100.0);
  }

  /** A registration the validator rejects saves nothing, so a delivery to
      that id fails before the rate limiter and writes no row. */
  method RejectedScenario()
  {
    var service := new WebhookService();
    var data := Registry.WebhookData(None, None, None, None, None, None);
    var rejected := service.CreateWebhook("F", "U", data, Registry.Validation(false, ["url is required"]), 2, 2);
    assert rejected == Failure("Invalid webhook data: url is required");
    var hello := Message(Defined(Str("hello")), Undefined);
    var missing := service.SendWebhook("F", hello, NoOptions, true, Returned(Response(204, Undefined)), 50, 60, 61);
    assert missing == Rejected(ServiceError("Webhook not found"));
    assert service.logs == [] && service.outbox == [] && service.limiterCalls == [];
  }
}
