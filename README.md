# Webhook delivery service — a Dafny model

This project models the core of `WebhookService`, the service class of a
Discord webhook manager. The class registers webhook endpoints, delivers a
message to one endpoint, writes one log row per delivery attempt, lists a
user's webhooks and computes a webhook's delivery statistics.

The model is split into modules that follow the parts of that class:

- `Payload` models `buildDiscordPayload`. `DiscordPayload` is the reference
  definition of the wire body. `BuildDiscordPayload` is the imperative
  builder: it writes the object literal, then deletes every `undefined` key
  in a loop over `Object.keys`.
- `Registry` models `createWebhook`'s record construction (the input is
  spread first, then `userId`, `isActive: true` and the timestamps override
  it). It also models the `", "` join of validator errors and
  `getUserWebhooks`, which filters by owner and sorts newest first.
- `Logs` holds the log row type, the filters `find({webhookId})` and
  `filter(log => log.success)`, and `getWebhookStats` with an exact `real`
  success rate.
- `Dispatch` models `sendWebhook` as a function of the webhook store, the
  rate limiter's verdict, the transport's outcome and the clock readings.
  `Send` includes the correction of line 74. `SendAsWritten` is the code as
  it stands.
- `Service` holds the class `WebhookService`. Its fields are the webhook
  store (a map), the log store (a sequence), the ids passed to the rate
  limiter, and the bodies handed to the transport. `SendWebhook` follows the
  source's try/catch/finally with the mutable locals `response` and
  `success`, and is proved to have exactly `Dispatch.Send`'s effect.

These are parameters, not behaviour: the rate limiter's verdict (`admitted`),
the transport's outcome (`PostOutcome`: a returned response, or a raised
error with an optional response), the validator's report (`Validation`), the
store-assigned document id, and every `Date`/`Date.now()` reading.

Line 74 reads `error?.message` in the `finally` block. The name `error` is
bound only by the `catch` clause, so it is not in scope there. The corrected
model logs the caught error's message, and no message when the transport
returned a response outside 2xx without raising. The source does not
guarantee a log row on a failed attempt; see "## Findings".

`success` is only set after `axios.post` returns, so a raised error that
carries a 2xx `error.response` is logged as a failure, and the model follows
the code.

## Model

| member | source | states |
|---|---|---|
| `Payload.DiscordPayload` | deepseek_typescript_20251113_01e193.ts:93-109 | No key of the body holds `undefined`. `content`, `embeds`, `username` and `avatar_url` are present exactly when their source is defined, and each equals its source. `tts` is always present: `options.tts` when truthy, `false` otherwise. |
| `Payload.BuildDiscordPayload` | deepseek_typescript_20251113_01e193.ts:93-110 | The in-place delete loop over the literal's keys yields exactly the reference body `DiscordPayload`. |
| `Payload.ContentOnlyExample` | deepseek_typescript_20251113_01e193.ts:94-107 | `build({content: "hi"}, {})` is exactly `{content: "hi", tts: false}`. |
| `Registry.JoinConcat` | deepseek_typescript_20251113_01e193.ts:19 | Joining two non-empty lists is joining each with one separator between them, so the errors keep their original order. |
| `Registry.ValidationMessage` | deepseek_typescript_20251113_01e193.ts:19 | With no errors the message is just "Invalid webhook data: "; with one error it is the prefix followed by that error. |
| `Registry.ValidationMessageConcat` | deepseek_typescript_20251113_01e193.ts:19 | The message for `a + b` is the message for `a`, then ", ", then `b` joined with ", ", so the errors appear in their original order. |
| `Registry.CreateWebhook` | deepseek_typescript_20251113_01e193.ts:16-28 | Fails iff validation fails, with the joined message. Otherwise the record keeps the input's `name` and `url`, has `isActive = true` and the caller's `userId`, and has the given `createdAt`/`updatedAt`. |
| `Registry.OverridesIgnoreInput` | deepseek_typescript_20251113_01e193.ts:22-28 | Inputs that differ only in `userId`, `isActive`, `createdAt` or `updatedAt` build the same record, because the later keys of the literal win. |
| `Registry.InsertNewestFirst` | deepseek_typescript_20251113_01e193.ts:123 | Inserting into a newest-first sequence keeps it newest first and adds exactly one copy of the element. |
| `Registry.SortNewestFirst` | deepseek_typescript_20251113_01e193.ts:123 | `sort({createdAt: -1})` returns a permutation of its input with `createdAt` non-increasing. |
| `Registry.OwnedBy` | deepseek_typescript_20251113_01e193.ts:123 | `find({userId})` keeps exactly the documents of that user, each exactly as often as stored. |
| `Registry.UserWebhooks` | deepseek_typescript_20251113_01e193.ts:122-124 | Returns exactly the user's webhooks, each exactly as often as stored (a permutation of `OwnedBy`), ordered by `createdAt` non-increasing. |
| `Logs.LogsFor` | deepseek_typescript_20251113_01e193.ts:127 | The rows returned are exactly the log rows of that webhook id, each exactly as often as it was logged. |
| `Logs.Succeeded` | deepseek_typescript_20251113_01e193.ts:129 | The rows returned are exactly the successful ones, each exactly as often as it occurs. |
| `Logs.PercentageBounds` | deepseek_typescript_20251113_01e193.ts:136 | A percentage of at most `whole` out of `whole` lies in [0, 100]. |
| `Logs.WebhookStats` | deepseek_typescript_20251113_01e193.ts:126-137 | `total` counts the webhook's rows and `successful` its successful rows. `successful <= total` and `failed = total - successful`. `successRate` is `Percentage(successful, total)`: 0 when `total = 0` and `successful / total * 100` otherwise. |
| `Logs.StatsRateBounds` | deepseek_typescript_20251113_01e193.ts:136 | The success rate always lies in [0, 100]. |
| `Logs.StatsAfterAppend` | deepseek_typescript_20251113_01e193.ts:126-137 | Appending a row grows its webhook's `total` by one, and its `successful` by one exactly when the row is a success. Every other webhook's statistics stay the same. |
| `Logs.TwoOfThree` | deepseek_typescript_20251113_01e193.ts:128-136 | Three rows with two successes give `{3, 2, 1, 200/3}`, i.e. 66.66...%. |
| `Logs.OneSuccessfulRow` | deepseek_typescript_20251113_01e193.ts:128-136 | A single successful row gives `{1, 1, 0, 100}`. |
| `Dispatch.Send` | deepseek_typescript_20251113_01e193.ts:33-80 | Unknown, inactive and refused attempts fail with "Webhook not found", "Webhook is not active" and "Rate limit exceeded". They post nothing and log nothing, and the limiter is consulted only for an active webhook. A service error is thrown iff the attempt was not admitted. An admitted attempt posts `DiscordPayload` to the webhook's URL and logs exactly one row. That row has the id, the caller's message as `payload`, `responseTime = end - start` and the log timestamp. Its `success` holds iff the post returned a 2xx status. Its status code comes from the response, or from `error.response`, or is absent. Its message is "Webhook sent successfully" on success, the error's message when the post raised, and absent when the post returned a status outside 2xx. A raised error is re-raised; otherwise the call resolves to `response.data`. |
| `Dispatch.AttemptAccounting` | deepseek_typescript_20251113_01e193.ts:44-76 | After any attempt, the webhook's `total` grows by one iff the attempt was admitted, and its `successful` by one iff it was also a 2xx return. No other webhook's statistics change. |
| `Dispatch.InactiveScenario` | deepseek_typescript_20251113_01e193.ts:39-41 | A delivery to an inactive webhook fails before the limiter, and the webhook's statistics stay at zero. |
| `Dispatch.SendAsWritten` | deepseek_typescript_20251113_01e193.ts:68-77 | As written, the call agrees with `Send` everywhere except on admitted attempts that are not a 2xx return: the same three service errors before admission, with no post and no row, and the same result and row on an admitted 2xx return. |
| `Dispatch.AsWrittenLosesFailedAttempts` | deepseek_typescript_20251113_01e193.ts:74 | As written, every admitted attempt that is not a 2xx return throws a `ReferenceError` and logs nothing. The corrected `Send` logs exactly one row for the same attempt. |
| `Dispatch.TimeoutShowsLostLog` | deepseek_typescript_20251113_01e193.ts:65-76 | A concrete timeout on an active, admitted webhook: as written, no row is logged. Corrected, the row `{success: false, no status, 10000 ms, the timeout message}` is logged. |
| `Service.WebhookService.constructor` | deepseek_typescript_20251113_01e193.ts:11-14 | A new service starts with empty stores, no limiter calls and no posts. |
| `Service.WebhookService.CreateWebhook` | deepseek_typescript_20251113_01e193.ts:16-31 | Returns `Registry.CreateWebhook`'s result and saves the record under its id iff validation passed. Nothing else changes. |
| `Service.WebhookService.SendWebhook` | deepseek_typescript_20251113_01e193.ts:33-80 | The try/catch/finally body has exactly `Dispatch.Send`'s effect: the same result, its log rows appended, its post appended to the outbox, the id appended to the limiter calls iff the limiter was consulted, and the webhook store unchanged. |
| `Service.WebhookService.GetWebhookStats` | deepseek_typescript_20251113_01e193.ts:126-138 | Returns `WebhookStats` of the current log with its bounds, and changes nothing. So two calls with no attempt in between agree. |

## Left out

- HTTP transport: the URL request, its headers, the 10-second timeout and network errors (lines 55-61). The transport's outcome is an input value.
- Mongoose persistence: `findById`, `save` and `find(...).sort` become a map, a sequence and functions over sequences. A failing `save` (for instance of the log row inside `finally`) is not modelled.
- Store lifetime: in the model the webhook and log stores are fields of the service object and a new `WebhookService` starts with both empty. In the source the constructor (lines 11-14) only creates a rate limiter and a validator; the Mongo collections are shared and persistent and outlive any one service object.
- Document ids: the id of a new webhook is a parameter standing for the one the store assigns. A duplicate id overwrites in the model.
- `getUserWebhooks` runs over a sequence of documents in store order, not over the service's map. Mongo leaves the order of equal `createdAt` values unspecified. The model fixes one order and claims only non-increasing `createdAt` and a permutation.
- `RateLimiter`: `checkLimit` is an opaque verdict. Its window, its threshold and its safety under concurrent callers are not part of this model.
- `WebhookValidator`: its rules are not part of this model; its `{isValid, errors}` report is an input.
- `scheduleWebhook` (lines 82-91): a stub that only looks the webhook up and schedules nothing.
- async/await interleaving and concurrent callers: every call runs to completion alone.
- `Date` and `Date.now()`: every clock reading is a parameter.
- Floating point: `successRate` is an exact `real`.
- JavaScript values: `null` is not represented (only `undefined` is deleted at line 104). The builder's arguments are always objects, so `message.content` on a null or undefined message (a `TypeError` inside `try`) does not arise. Message keys other than `content` and `embeds` are not modelled, and numbers are integers.
- Webhook document fields other than `userId`, `name`, `url`, `isActive`, `createdAt` and `updatedAt`: the `IWebhook` schema (`../models/Webhook`) is not part of this model.
- `Service.WebhookService.GetWebhookStats`: the idempotence of two calls is stated by the method modifying nothing, not by a separate two-call lemma.

## Findings

| source | as written | input that shows it | evidently intended | confidence | as-written member | corrected member |
|---|---|---|---|---|---|---|
| deepseek_typescript_20251113_01e193.ts:74 | `finally` reads `error?.message`, but `error` is bound only by the `catch` at line 65. Under TypeScript this does not compile. Transpiled without type checking, every attempt where `success` is false throws a `ReferenceError` before the log row is saved, and that error replaces the transport's error or the returned body. | An active, admitted webhook whose post raises "timeout of 10000ms exceeded" with no response. | The failed attempt is logged with the caught error's message, and then the transport's error is re-raised. | not executed | `Dispatch.AsWrittenLosesFailedAttempts` | `Dispatch.Send` |
