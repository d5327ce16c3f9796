/**
 * Webhook delivery logs under initial sends, manual retries and the turns of scheduler sweeps, in
 * any order. Times are seconds. `limit` is the configured maximum number of attempts.
 */
module Webhook {
  import opened Types

  const BASE_DELAY_SECONDS := 2
  const MAX_DELAY_SECONDS := 60
  const MAX_WEBHOOK_ATTEMPTS := 5

  function Power2(n: nat): nat {
    if n == 0 then 1 else 2 * Power2(n - 1)
  }

  function Backoff(attempt: nat): nat
    requires attempt >= 1
  {
    var delay := BASE_DELAY_SECONDS * Power2(attempt - 1);
    if delay < MAX_DELAY_SECONDS then delay else MAX_DELAY_SECONDS
  }

  datatype WebhookStatus = Pending | Delivered | GivenUp | Retrying

  datatype Log = Log(status: WebhookStatus, attempts: nat, nextRetry: Option<int>)

  const NEW_LOG := Log(Pending, 0, None)

  /** A 2xx answer, another answer, a request error, or any other exception on the way. */
  datatype Outcome = Accepted | Refused | Unreachable | Broken

  datatype Delivery = Delivery(outcome: Outcome, start: int, done: int)

  function ScheduleRetryOrFail(log: Log, limit: nat, now: int): Log
    requires log.attempts >= 1
  {
    if log.attempts >= limit then log.(status := GivenUp, nextRetry := None)
    else log.(status := Retrying, nextRetry := Some(now + Backoff(log.attempts)))
  }

  /** The attempt is counted first; an exception other than a request error leaves it at that. */
  function Send(log: Log, limit: nat, d: Delivery): Log {
    var tried := log.(attempts := log.attempts + 1);
    match d.outcome
    case Accepted => tried.(status := Delivered, nextRetry := None)
    case Refused | Unreachable => ScheduleRetryOrFail(tried, limit, d.done)
    case Broken => tried
  }

  predicate Due(log: Log, at: int) {
    log.status == Retrying && log.nextRetry.Some? && log.nextRetry.value <= at
  }

  /** What a sweep finds for one due log: a merchant without URL, or a delivery attempt. */
  datatype Turn = NoUrl | Attempt(delivery: Delivery)

  function TakeTurn(log: Log, limit: nat, turn: Turn): Log {
    match turn
    case NoUrl => log.(status := GivenUp, nextRetry := None)
    case Attempt(d) => Send(log, limit, d)
  }

  /** A log that is not due is not touched. */
  function SweepLog(log: Log, limit: nat, at: int, turn: Turn): Log {
    if Due(log, at) then TakeTurn(log, limit, turn) else log
  }

  // ---------------------------------------------------------------- the world

  datatype Sender = Route | Scheduler

  /** An attempt as seen from outside. */
  datatype Try = Try(sender: Sender, delivery: Delivery)

  /** A stored log together with all attempts ever made on it. */
  datatype Tracked = Tracked(log: Log, tries: seq<Try>)

  /**
   * A sweep is its turns: each takes one log that was due at the sweep's query time `at`. Turns of
   * several sweeps, initial sends and manual retries may come in any order; only the attempts on
   * one and the same log do not overlap here.
   */
  datatype Event =
    | CreateLog
    | RouteSend(i: nat, delivery: Delivery)       // initial send or manual retry: the status is not looked at
    | SweepTurn(i: nat, at: int, turn: Turn)

  /** A route that raises does not commit: the attempt happened, the log row stays. */
  function RouteSent(t: Tracked, limit: nat, d: Delivery): Tracked {
    Tracked(if d.outcome.Broken? then t.log else Send(t.log, limit, d), t.tries + [Try(Route, d)])
  }

  /** The sweep commits even after an exception on some log. */
  function Swept(t: Tracked, limit: nat, at: int, turn: Turn): Tracked {
    if !Due(t.log, at) then t
    else
      Tracked(SweepLog(t.log, limit, at, turn),
              t.tries + (if turn.Attempt? then [Try(Scheduler, turn.delivery)] else []))
  }

  /** The attempt follows the earlier ones on its log. */
  predicate InOrder(t: Tracked, d: Delivery) {
    d.start <= d.done && (t.tries != [] ==> t.tries[|t.tries| - 1].delivery.done <= d.start)
  }

  predicate TurnPossible(t: Tracked, at: int, turn: Turn) {
    Due(t.log, at) && (turn.Attempt? ==> at <= turn.delivery.start && InOrder(t, turn.delivery))
  }

  predicate Enabled(w: seq<Tracked>, e: Event) {
    match e
    case CreateLog => true
    case RouteSend(i, d) => i < |w| && InOrder(w[i], d)
    case SweepTurn(i, at, turn) => i < |w| && TurnPossible(w[i], at, turn)
  }

  function Next(w: seq<Tracked>, limit: nat, e: Event): seq<Tracked> {
    if !Enabled(w, e) then w
    else
      match e
      case CreateLog => w + [Tracked(NEW_LOG, [])]
      case RouteSend(i, d) => w[i := RouteSent(w[i], limit, d)]
      case SweepTurn(i, at, turn) => w[i := Swept(w[i], limit, at, turn)]
  }

  function Run(w: seq<Tracked>, limit: nat, es: seq<Event>): seq<Tracked> {
    if es == [] then w else Next(Run(w, limit, es[..|es| - 1]), limit, es[|es| - 1])
  }

  lemma RunAppend(w: seq<Tracked>, limit: nat, es: seq<Event>, e: Event)
    ensures Run(w, limit, es + [e]) == Next(Run(w, limit, es), limit, e)
  {
    assert (es + [e])[..|es|] == es;
  }

  // -------------------------------------------------------------- whole sweeps

  /** What a sweep makes of the table: one turn for each log due at its query time. */
  function Sweep(w: seq<Tracked>, limit: nat, at: int, turns: seq<Turn>): seq<Tracked>
    requires |turns| == |w|
  {
    seq(|w|, i requires 0 <= i < |w| => Swept(w[i], limit, at, turns[i]))
  }

  predicate SweepPossible(w: seq<Tracked>, at: int, turns: seq<Turn>) {
    && |turns| == |w|
    && forall i :: 0 <= i < |w| && Due(w[i].log, at) ==> TurnPossible(w[i], at, turns[i])
  }

  function TurnEvents(at: int, turns: seq<Turn>): seq<Event> {
    seq(|turns|, i requires 0 <= i < |turns| => SweepTurn(i, at, turns[i]))
  }

  /** Taking the turns one after the other is the sweep. */
  lemma SweepIsItsTurns(w: seq<Tracked>, limit: nat, at: int, turns: seq<Turn>)
    requires SweepPossible(w, at, turns)
    ensures Run(w, limit, TurnEvents(at, turns)) == Sweep(w, limit, at, turns)
  {
    TurnsSoFar(w, limit, at, turns, |w|);
    assert TurnEvents(at, turns)[..|w|] == TurnEvents(at, turns);
  }

  lemma {:induction false} TurnsSoFar(w: seq<Tracked>, limit: nat, at: int, turns: seq<Turn>, n: nat)
    requires SweepPossible(w, at, turns) && n <= |w|
    ensures Run(w, limit, TurnEvents(at, turns)[..n]) == Sweep(w, limit, at, turns)[..n] + w[n..]
  {
    var es := TurnEvents(at, turns);
    if n > 0 {
      TurnsSoFar(w, limit, at, turns, n - 1);
      var before := Sweep(w, limit, at, turns)[..n - 1] + w[n - 1..];
      assert es[..n] == es[..n - 1] + [es[n - 1]];
      RunAppend(w, limit, es[..n - 1], es[n - 1]);
      assert before[n - 1] == w[n - 1];
      assert Next(before, limit, es[n - 1]) == before[n - 1 := Swept(w[n - 1], limit, at, turns[n - 1])];
    }
  }
}
