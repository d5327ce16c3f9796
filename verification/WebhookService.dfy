/** Delivery of one stored log, and the scheduler's sweep over the due ones. */
module WebhookService {
  import opened Types
  import opened Webhook

  class WebhookLog {
    const merchant: MerchantId
    var status: WebhookStatus
    var attempts: nat
    var nextRetry: Option<int>

    constructor (merchant: MerchantId)
      ensures Row() == Log(Pending, 0, None) && this.merchant == merchant
    {
      this.merchant := merchant;
      status, attempts, nextRetry := Pending, 0, None;
    }

    ghost function Row(): Log
      reads this
    {
      Log(status, attempts, nextRetry)
    }
  }

  method ScheduleRetryOrFail(log: WebhookLog, limit: nat, now: int)
    requires log.attempts >= 1
    modifies log
    ensures log.Row() == Webhook.ScheduleRetryOrFail(old(log.Row()), limit, now)
  {
    if log.attempts >= limit {
      log.status := GivenUp;
      log.nextRetry := None;
    } else {
      log.status := Retrying;
      log.nextRetry := Some(now + Backoff(log.attempts));
    }
  }

  /** Attempts one delivery; `raised` tells of an exception other than a request error. */
  method SendWebhook(log: WebhookLog, limit: nat, delivery: Delivery) returns (raised: bool)
    modifies log
    ensures log.Row() == Send(old(log.Row()), limit, delivery)
    ensures raised == delivery.outcome.Broken?
  {
    log.attempts := log.attempts + 1;
    match delivery.outcome {
      case Accepted =>
        log.status := Delivered;
        log.nextRetry := None;
      case Refused | Unreachable =>
        ScheduleRetryOrFail(log, limit, delivery.done);
      case Broken =>
        return true;
    }
    return false;
  }

  datatype RetryReply = LogNotFound | NoUrlConfigured | Raised | Attempted

  /**
   * The manual retry: another merchant's log is not found, and without URL nothing is tried. An
   * exception ends the session without a commit, so that the stored row stays as it was.
   */
  method RetryWebhook(
      logs: seq<WebhookLog>, id: nat, merchant: MerchantId, hasUrl: bool, limit: nat, delivery: Delivery)
    returns (reply: RetryReply)
    modifies logs
    ensures reply == LogNotFound <==> id >= |logs| || logs[id].merchant != merchant
    ensures reply == NoUrlConfigured <==> id < |logs| && logs[id].merchant == merchant && !hasUrl
    ensures reply.Raised? ==> delivery.outcome.Broken?
    ensures reply.Attempted? ==> !delivery.outcome.Broken?
    ensures forall i :: 0 <= i < |logs| ==>
      logs[i].Row() == if reply.Attempted? && logs[i] == logs[id] then Send(old(logs[i].Row()), limit, delivery)
                       else old(logs[i].Row())
  {
    if |logs| <= id || logs[id].merchant != merchant {
      return LogNotFound;
    }
    if !hasUrl {
      return NoUrlConfigured;
    }
    var log := logs[id];
    var status, attempts, nextRetry := log.status, log.attempts, log.nextRetry;
    var raised := SendWebhook(log, limit, delivery);
    if raised {
      log.status, log.attempts, log.nextRetry := status, attempts, nextRetry;
      return Raised;
    }
    return Attempted;
  }

  ghost predicate Distinct(logs: seq<WebhookLog>) {
    forall i, j :: 0 <= i < j < |logs| ==> logs[i] != logs[j]
  }

  /** The positions of the logs that are due, each once. */
  method DueLogs(logs: seq<WebhookLog>, at: int) returns (due: seq<nat>)
    ensures forall i: nat :: i in due <==> i < |logs| && Due(logs[i].Row(), at)
    ensures forall a, b :: 0 <= a < b < |due| ==> due[a] < due[b]
  {
    due := [];
    for i := 0 to |logs|
      invariant forall k: nat :: k in due <==> k < i && Due(logs[k].Row(), at)
      invariant forall a, b :: 0 <= a < b < |due| ==> due[a] < due[b]
    {
      if logs[i].status == Retrying && logs[i].nextRetry.Some? && logs[i].nextRetry.value <= at {
        assert forall a :: 0 <= a < |due| ==> due[a] in due;
        due := due + [i];
      }
    }
  }

  /**
   * The sweep: select the due logs once, then turn by turn fail the ones without URL and attempt
   * the others; an exception on one log does not stop the rest.
   */
  method RedriveDueWebhooks(logs: seq<WebhookLog>, limit: nat, at: int, turns: seq<Turn>)
    requires Distinct(logs) && |turns| == |logs|
    modifies logs
    ensures forall i :: 0 <= i < |logs| ==> logs[i].Row() == SweepLog(old(logs[i].Row()), limit, at, turns[i])
  {
    var due := DueLogs(logs, at);
    for j := 0 to |due|
      invariant forall i: nat :: i < |logs| ==>
        logs[i].Row() == if i in due[..j] then TakeTurn(old(logs[i].Row()), limit, turns[i]) else old(logs[i].Row())
    {
      var i := due[j];
      assert i in due && i !in due[..j];
      assert due[..j + 1] == due[..j] + [i];
      match turns[i] {
        case NoUrl =>
          logs[i].status := GivenUp;
          logs[i].nextRetry := None;
        case Attempt(delivery) =>
          var raised := SendWebhook(logs[i], limit, delivery);
      }
    }
    assert due[..|due|] == due;
  }
}
