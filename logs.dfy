/** Delivery log rows and the statistics `getWebhookStats` derives from them. */
module Logs {
  import opened Wrappers
  import Payload

  /** One `WebhookLog` row. `statusCode` is absent when the transport produced
      no response, `message` when the failure carried no message, and
      `payload` is the caller's message, not the wire body. */
  datatype LogEntry = LogEntry(
    webhookId: string,
    success: bool,
    statusCode: Option<int>,
    responseTime: int,
    message: Option<string>,
    payload: Payload.Message,
    timestamp: int)

  /** `WebhookLog.find({webhookId})`: the rows of one webhook, in log order,
      each as often as it was logged. */
  function LogsFor(logs: seq<LogEntry>, webhookId: string): (r: seq<LogEntry>)
    ensures forall e :: e in r <==> e in logs && e.webhookId == webhookId
    ensures forall e :: multiset(r)[e] == if e.webhookId == webhookId then multiset(logs)[e] else 0
    ensures |r| <= |logs|
  {
    if logs == [] then []
    else
      var last := logs[|logs| - 1];
      assert logs == logs[..|logs| - 1] + [last];
      assert multiset(logs) == multiset(logs[..|logs| - 1]) + multiset{last};
      LogsFor(logs[..|logs| - 1], webhookId) + (if last.webhookId == webhookId then [last] else [])
  }

  /** `logs.filter(log => log.success)`: the successful rows, each as often
      as it occurs. */
  function Succeeded(logs: seq<LogEntry>): (r: seq<LogEntry>)
    ensures forall e :: e in r <==> e in logs && e.success
    ensures forall e :: multiset(r)[e] == if e.success then multiset(logs)[e] else 0
    ensures |r| <= |logs|
  {
    if logs == [] then []
    else
      var last := logs[|logs| - 1];
      assert logs == logs[..|logs| - 1] + [last];
      assert multiset(logs) == multiset(logs[..|logs| - 1]) + multiset{last};
      Succeeded(logs[..|logs| - 1]) + (if last.success then [last] else [])
  }

  /** The object `getWebhookStats` returns; `successRate` is an exact
      percentage rather than a floating-point number. */
  datatype Stats = Stats(total: nat, successful: nat, failed: nat, successRate: real)

  const NoStats: Stats := Stats(0, 0, 0, 0.0)

  /** `part` out of `whole` as a percentage, 0 when `whole` is 0. */
  function Percentage(part: nat, whole: nat): real {
    if whole > 0 then (part as real / whole as real) * 100.0 else 0.0
  }

  /** A percentage of at most `whole` out of `whole` lies in [0, 100]. */
  lemma PercentageBounds(part: nat, whole: nat)
    requires part <= whole
    ensures 0.0 <= Percentage(part, whole) <= 100.0
  {
    if whole > 0 {
      var fraction := part as real / whole as real;
      assert fraction * whole as real == part as real;
      assert fraction <= 1.0 by {
        if fraction > 1.0 {
          assert fraction * whole as real > whole as real;
        }
      }
    }
  }

  /** Counts of one webhook's rows: the successful ones never exceed the
      total, the failed ones are the rest, and the rate is the percentage of
      successful rows, 0 for a webhook with no rows. */
  function WebhookStats(logs: seq<LogEntry>, webhookId: string): (st: Stats)
    ensures st.total == |LogsFor(logs, webhookId)|
    ensures st.successful == |Succeeded(LogsFor(logs, webhookId))|
    ensures st.successful <= st.total
    ensures st.failed == st.total - st.successful
    ensures st.successRate == Percentage(st.successful, st.total)
  {
    var mine := LogsFor(logs, webhookId);
    var total := |mine|;
    var successful := |Succeeded(mine)|;
    Stats(total, successful, total - successful, Percentage(successful, total))
  }

  /** The success rate is a percentage: it lies in [0, 100]. */
  lemma StatsRateBounds(logs: seq<LogEntry>, webhookId: string)
    ensures 0.0 <= WebhookStats(logs, webhookId).successRate <= 100.0
  {
    var st := WebhookStats(logs, webhookId);
    PercentageBounds(st.successful, st.total);
  }

  /** Appending one row changes only the stats of that row's webhook:
      its total grows by one and its successful count by one exactly when
      the row records a success. */
  lemma {:induction false} StatsAfterAppend(logs: seq<LogEntry>, e: LogEntry, webhookId: string)
    ensures var before, after := WebhookStats(logs, webhookId), WebhookStats(logs + [e], webhookId);
      if e.webhookId == webhookId then
        after.total == before.total + 1
        && after.successful == before.successful + (if e.success then 1 else 0)
      else after == before
  {
    var grown := logs + [e];
    assert grown[..|grown| - 1] == logs;
    assert LogsFor(grown, webhookId)
        == LogsFor(logs, webhookId) + (if e.webhookId == webhookId then [e] else []);
    if e.webhookId == webhookId {
      var mine := LogsFor(logs, webhookId) + [e];
      assert mine[..|mine| - 1] == LogsFor(logs, webhookId);
      assert Succeeded(mine) == Succeeded(LogsFor(logs, webhookId)) + (if e.success then [e] else []);
    } else {
      assert LogsFor(grown, webhookId) == LogsFor(logs, webhookId);
    }
  }

  /** Three rows of which two succeeded give a rate of 66.66...%. */
  lemma TwoOfThree(logs: seq<LogEntry>, webhookId: string)
    requires |LogsFor(logs, webhookId)| == 3
    requires |Succeeded(LogsFor(logs, webhookId))| == 2
    ensures WebhookStats(logs, webhookId) == Stats(3, 2, 1, 200.0 / 3.0)
  {
  }

  /** A log holding one successful row of a webhook gives it a 100% rate. */
  lemma OneSuccessfulRow(logs: seq<LogEntry>, webhookId: string)
    requires |logs| == 1 && logs[0].webhookId == webhookId && logs[0].success
    ensures WebhookStats(logs, webhookId) == Stats(1, 1, 0, 100.0)
  {
    assert [] + [logs[0]] == logs;
    StatsAfterAppend([], logs[0], webhookId);
    var st := WebhookStats(logs, webhookId);
    assert st.total == 1 && st.successful == 1;
    assert Percentage(1, 1) == 100.0;
  }
}
