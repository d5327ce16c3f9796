/** Bounds on delivery attempts, their spacing in time, and what one sweep achieves. */
module WebhookLaws {
  import opened Types
  import opened Sums
  import opened Webhook

  // ----------------------------------------------------------------- counting

  function CompletedSweeps(): Try -> bool {
    (t: Try) => t.sender == Scheduler && !t.delivery.outcome.Broken?
  }

  function BrokenSweeps(): Try -> bool {
    (t: Try) => t.sender == Scheduler && t.delivery.outcome.Broken?
  }

  ghost predicate LogGood(t: Tracked, limit: nat) {
    var log, completed, broken := t.log, Count(t.tries, CompletedSweeps()), Count(t.tries, BrokenSweeps());
    && (log.status == Retrying <==> log.nextRetry.Some?)
    && (log.status == Retrying ==> log.attempts >= 1)
    && (log.attempts == 0 <==> log.status == Pending)
    && completed + broken <= (if log.attempts == 0 then 0 else log.attempts - 1)
    && (log.status == Retrying ==> completed + 2 <= limit && (broken == 0 ==> log.attempts < limit))
    && (completed > 0 ==> completed + 1 <= limit)
  }

  lemma RouteSentGood(t: Tracked, limit: nat, d: Delivery)
    requires LogGood(t, limit)
    ensures LogGood(RouteSent(t, limit, d), limit)
  {
    CountAppend(t.tries, Try(Route, d), CompletedSweeps());
    CountAppend(t.tries, Try(Route, d), BrokenSweeps());
  }

  lemma SweptGood(t: Tracked, limit: nat, at: int, turn: Turn)
    requires LogGood(t, limit)
    ensures LogGood(Swept(t, limit, at, turn), limit)
  {
    if turn.Attempt? {
      CountAppend(t.tries, Try(Scheduler, turn.delivery), CompletedSweeps());
      CountAppend(t.tries, Try(Scheduler, turn.delivery), BrokenSweeps());
    } else {
      assert t.tries + [] == t.tries;
    }
  }

  lemma {:induction false} RunLogsGood(limit: nat, es: seq<Event>, i: nat)
    requires i < |Run([], limit, es)|
    ensures LogGood(Run([], limit, es)[i], limit)
  {
    var w, e := Run([], limit, es[..|es| - 1]), es[|es| - 1];
    if i < |w| {
      RunLogsGood(limit, es[..|es| - 1], i);
      match e
      case CreateLog =>
      case RouteSend(_, d) => RouteSentGood(w[i], limit, d);
      case SweepTurn(_, at, turn) => SweptGood(w[i], limit, at, turn);
    }
  }

  /**
   * In every run: a log is waiting for a retry exactly when a retry time is set, and the scheduler
   * completes fewer than `limit` attempts on it. Without broken sweeps those are all its attempts.
   */
  lemma SchedulerAttemptsBounded(limit: nat, es: seq<Event>, i: nat)
    requires i < |Run([], limit, es)|
    ensures var t := Run([], limit, es)[i];
      var completed, broken := Count(t.tries, CompletedSweeps()), Count(t.tries, BrokenSweeps());
      && (t.log.status == Retrying <==> t.log.nextRetry.Some?)
      && (completed > 0 ==> completed <= limit - 1)
      && (t.log.status == Retrying ==> t.log.attempts >= 1 && (broken == 0 ==> t.log.attempts < limit))
  {
    RunLogsGood(limit, es, i);
  }

  // ---------------------------------------------------------------- continuing

  /** Not waiting and with at most one attempt left: such a log does not wait for a retry again. */
  lemma {:induction false} ExhaustedStaysExhausted(w: seq<Tracked>, limit: nat, more: seq<Event>, i: nat)
    requires i < |w| && w[i].log.attempts + 1 >= limit && w[i].log.status != Retrying
    ensures var w' := Run(w, limit, more);
      i < |w'| && w'[i].log.attempts >= w[i].log.attempts && w'[i].log.status != Retrying
  {
    if more != [] {
      ExhaustedStaysExhausted(w, limit, more[..|more| - 1], i);
    }
  }

  /**
   * While attempts on it do not overlap, a log never waits again exactly when it is not waiting now
   * and has at most one attempt left, whoever sends it by hand.
   */
  lemma NeverWaitsAgainIff(w: seq<Tracked>, limit: nat, i: nat)
    requires i < |w|
    ensures (forall more: seq<Event> :: i < |Run(w, limit, more)| && Run(w, limit, more)[i].log.status != Retrying)
       <==> w[i].log.status != Retrying && w[i].log.attempts + 1 >= limit
  {
    if w[i].log.status != Retrying && w[i].log.attempts + 1 >= limit {
      forall more: seq<Event> ensures i < |Run(w, limit, more)| && Run(w, limit, more)[i].log.status != Retrying {
        ExhaustedStaysExhausted(w, limit, more, i);
      }
    } else if w[i].log.status == Retrying {
      assert Run(w, limit, [])[i].log.status == Retrying;
    } else {
      var now := if w[i].tries == [] then 0 else w[i].tries[|w[i].tries| - 1].delivery.done;
      var retry := RouteSend(i, Delivery(Refused, now, now));
      RunAppend(w, limit, [], retry);
      assert Run(w, limit, [] + [retry])[i].log.status == Retrying;
    }
  }

  /**
   * The bound needs sweeps that end in an answer or a request error: when every sweep breaks on
   * the log, the scheduler attempts it as often as it likes.
   */
  lemma {:induction false} BrokenSweepsNeverStop(limit: nat, n: nat) returns (es: seq<Event>)
    requires limit >= 2
    ensures var w := Run([], limit, es);
      && |w| == 1
      && w[0].log == Log(Retrying, n + 1, Some(2))
      && w[0].tries != [] && w[0].tries[|w[0].tries| - 1].delivery.done <= 2
      && Count(w[0].tries, BrokenSweeps()) == n
  {
    if n == 0 {
      var refused := Delivery(Refused, 0, 0);
      es := [CreateLog, RouteSend(0, refused)];
      RunAppend([], limit, [], CreateLog);
      RunAppend([], limit, [CreateLog], RouteSend(0, refused));
      assert [] + [CreateLog] == [CreateLog] && [CreateLog] + [RouteSend(0, refused)] == es;
      CountAppend([], Try(Route, refused), BrokenSweeps());
      assert Power2(0) == 1;
    } else {
      var before := BrokenSweepsNeverStop(limit, n - 1);
      var broken := Delivery(Broken, 2, 2);
      es := before + [SweepTurn(0, 2, Attempt(broken))];
      RunAppend([], limit, before, SweepTurn(0, 2, Attempt(broken)));
      CountAppend(Run([], limit, before)[0].tries, Try(Scheduler, broken), BrokenSweeps());
    }
  }

  /** The attempts whose count was committed: all but those on which a route raised. */
  function Counted(tries: seq<Try>): seq<Try> {
    if tries == [] then []
    else
      var x := tries[|tries| - 1];
      Counted(tries[..|tries| - 1]) + (if x.sender == Route && x.delivery.outcome.Broken? then [] else [x])
  }

  /** The attempts at positions `from` to `to` all broke in a sweep. */
  ghost predicate BrokeInSweeps(tries: seq<Try>, from: int, to: int)
    requires 0 <= from && to <= |tries|
  {
    forall k :: from <= k < to ==> tries[k].sender == Scheduler && tries[k].delivery.outcome.Broken?
  }

  ghost predicate CountedGood(t: Tracked, limit: nat) {
    var tries := Counted(t.tries);
    && |tries| == t.log.attempts
    && (t.log.status == Retrying ==> limit >= 2 && tries != [] && BrokeInSweeps(tries, limit - 1, |tries|))
    && (forall k :: limit <= k < |tries| && tries[k].sender == Scheduler ==>
          limit >= 2 && BrokeInSweeps(tries, limit - 1, k))
  }

  lemma CountedAppend(tries: seq<Try>, x: Try)
    ensures Counted(tries + [x]) ==
      Counted(tries) + (if x.sender == Route && x.delivery.outcome.Broken? then [] else [x])
  {
    assert (tries + [x])[..|tries|] == tries;
  }

  lemma RouteSentCounted(t: Tracked, limit: nat, d: Delivery)
    requires CountedGood(t, limit)
    ensures CountedGood(RouteSent(t, limit, d), limit)
  {
    CountedAppend(t.tries, Try(Route, d));
  }

  lemma SweptCounted(t: Tracked, limit: nat, at: int, turn: Turn)
    requires CountedGood(t, limit)
    ensures CountedGood(Swept(t, limit, at, turn), limit)
  {
    if turn.Attempt? {
      CountedAppend(t.tries, Try(Scheduler, turn.delivery));
    } else {
      assert t.tries + [] == t.tries;
    }
  }

  lemma {:induction false} RunCountedGood(limit: nat, es: seq<Event>, i: nat)
    requires i < |Run([], limit, es)|
    ensures CountedGood(Run([], limit, es)[i], limit)
  {
    var w, e := Run([], limit, es[..|es| - 1]), es[|es| - 1];
    if i < |w| {
      RunCountedGood(limit, es[..|es| - 1], i);
      match e
      case CreateLog =>
      case RouteSend(_, d) => RouteSentCounted(w[i], limit, d);
      case SweepTurn(_, at, turn) => SweptCounted(w[i], limit, at, turn);
    }
  }

  /**
   * When retries are not abandoned, in every run and for any limit: a waiting log has used up its
   * attempts exactly when its attempt number `limit` broke in a sweep. Then every later one did too,
   * and only then does the scheduler make an attempt beyond that number.
   */
  lemma OutOfAttemptsIffLimitBroke(limit: nat, es: seq<Event>, i: nat)
    requires i < |Run([], limit, es)|
    ensures var log, tries := Run([], limit, es)[i].log, Counted(Run([], limit, es)[i].tries);
      && log.attempts == |tries|
      && (log.status == Retrying ==> limit >= 2)
      && (log.status == Retrying ==>
            (log.attempts >= limit <==> |tries| >= limit && BrokeInSweeps(tries, limit - 1, limit)))
      && (log.status == Retrying ==> BrokeInSweeps(tries, limit - 1, |tries|))
      && (forall k :: limit <= k < |tries| && tries[k].sender == Scheduler ==>
            limit >= 2 && BrokeInSweeps(tries, limit - 1, k))
  {
    RunCountedGood(limit, es, i);
  }

  // ------------------------------------------------------------------- spacing

  ghost predicate NoneBroken(tries: seq<Try>) {
    forall k :: 0 <= k < |tries| ==> !tries[k].delivery.outcome.Broken?
  }

  /** Attempt k+1, when the scheduler makes it, starts at least the k-th backoff after attempt k ended. */
  ghost predicate Spaced(tries: seq<Try>, k: nat)
    requires 1 <= k < |tries|
  {
    tries[k].sender == Scheduler ==> tries[k].delivery.start >= tries[k - 1].delivery.done + Backoff(k)
  }

  ghost predicate TimesGood(t: Tracked) {
    NoneBroken(t.tries) ==>
      && t.log.attempts == |t.tries|
      && (t.log.status == Retrying ==>
            |t.tries| >= 1 && t.log.nextRetry == Some(t.tries[|t.tries| - 1].delivery.done + Backoff(|t.tries|)))
      && (forall k :: 0 <= k < |t.tries| ==> t.tries[k].delivery.start <= t.tries[k].delivery.done)
      && (forall k: nat :: 1 <= k < |t.tries| ==> Spaced(t.tries, k))
  }

  lemma TryTimesGood(t: Tracked, x: Try, after: Log, limit: nat)
    requires TimesGood(t) && x.delivery.start <= x.delivery.done
    requires !x.delivery.outcome.Broken? ==> after == Send(t.log, limit, x.delivery)
    requires x.sender == Scheduler ==> Due(t.log, x.delivery.start)
    ensures TimesGood(Tracked(after, t.tries + [x]))
  {
    var tries := t.tries + [x];
    if NoneBroken(tries) {
      assert tries[|t.tries|] == x;
      forall k | 0 <= k < |t.tries| ensures !t.tries[k].delivery.outcome.Broken? {
        assert tries[k] == t.tries[k];
      }
      forall k: nat | 1 <= k < |tries| ensures Spaced(tries, k) {
        if k < |t.tries| {
          assert Spaced(t.tries, k);
        }
      }
    }
  }

  lemma {:induction false} RunTimesGood(limit: nat, es: seq<Event>, i: nat)
    requires i < |Run([], limit, es)|
    ensures TimesGood(Run([], limit, es)[i])
  {
    var w, e, w' := Run([], limit, es[..|es| - 1]), es[|es| - 1], Run([], limit, es);
    if i < |w| {
      RunTimesGood(limit, es[..|es| - 1], i);
      if w'[i] != w[i] {
        match e
        case RouteSend(_, d) => TryTimesGood(w[i], Try(Route, d), w'[i].log, limit);
        case SweepTurn(_, at, Attempt(d)) => TryTimesGood(w[i], Try(Scheduler, d), w'[i].log, limit);
        case SweepTurn(_, at, NoUrl) => assert w[i].tries + [] == w[i].tries;
      }
    }
  }

  /** The waiting times before attempts 2 to k+1. */
  function BackoffSum(k: nat): nat {
    if k == 0 then 0 else BackoffSum(k - 1) + Backoff(k)
  }

  /** After the first send, everything is left to the scheduler and nothing breaks. */
  ghost predicate SchedulerDriven(tries: seq<Try>) {
    NoneBroken(tries) && forall k :: 1 <= k < |tries| ==> tries[k].sender == Scheduler
  }

  /** In any run, attempt k+1 of a scheduler-driven log comes no earlier than the backoffs before it add up to. */
  lemma {:induction false} AttemptsWaitForBackoff(limit: nat, es: seq<Event>, i: nat, k: nat)
    requires i < |Run([], limit, es)|
    requires SchedulerDriven(Run([], limit, es)[i].tries) && k < |Run([], limit, es)[i].tries|
    ensures var tries := Run([], limit, es)[i].tries;
      tries[k].delivery.start >= tries[0].delivery.start + BackoffSum(k)
  {
    if k > 0 {
      AttemptsWaitForBackoff(limit, es, i, k - 1);
      RunTimesGood(limit, es, i);
      assert Spaced(Run([], limit, es)[i].tries, k);
    }
  }

  /** The delay doubles from two seconds and stops at sixty. */
  lemma {:induction false} BackoffIsCappedDoubling(attempt: nat)
    requires attempt >= 1
    ensures Backoff(attempt) == (if attempt <= 5 then Power2(attempt) else 60)
  {
    if attempt <= 6 {
      assert Power2(1) == 2 && Power2(2) == 4 && Power2(3) == 8;
      assert Power2(4) == 16 && Power2(5) == 32 && Power2(6) == 64;
    } else {
      BackoffIsCappedDoubling(attempt - 1);
      assert Power2(attempt - 1) == 2 * Power2(attempt - 2);
    }
  }

  /** With the configured five attempts the cap is never reached and the last attempt is at least 30 seconds in. */
  lemma FiveAttemptsTakeThirtySeconds(es: seq<Event>, i: nat, k: nat)
    requires i < |Run([], MAX_WEBHOOK_ATTEMPTS, es)|
    requires SchedulerDriven(Run([], MAX_WEBHOOK_ATTEMPTS, es)[i].tries)
    requires k < |Run([], MAX_WEBHOOK_ATTEMPTS, es)[i].tries|
    ensures var tries := Run([], MAX_WEBHOOK_ATTEMPTS, es)[i].tries;
      && |tries| <= MAX_WEBHOOK_ATTEMPTS
      && tries[k].delivery.start >= tries[0].delivery.start + Power2(k + 1) - 2
      && (k == 4 ==> tries[k].delivery.start >= tries[0].delivery.start + 30)
      && (1 <= k < MAX_WEBHOOK_ATTEMPTS ==> Backoff(k) < MAX_DELAY_SECONDS)
  {
    var tries := Run([], MAX_WEBHOOK_ATTEMPTS, es)[i].tries;
    SchedulerAttemptsBounded(MAX_WEBHOOK_ATTEMPTS, es, i);
    DrivenCount(tries);
    AttemptsWaitForBackoff(MAX_WEBHOOK_ATTEMPTS, es, i, k);
    BackoffSums();
  }

  lemma BackoffSums()
    ensures forall k: nat :: k <= 4 ==> BackoffSum(k) == Power2(k + 1) - 2
    ensures forall k: nat :: 1 <= k <= 4 ==> Backoff(k) < MAX_DELAY_SECONDS
    ensures Power2(5) == 32
  {
    forall k: nat | 1 <= k <= 5 ensures Backoff(k) == Power2(k) {
      BackoffIsCappedDoubling(k);
    }
    assert Power2(1) == 2 && Power2(2) == 4 && Power2(3) == 8 && Power2(4) == 16 && Power2(5) == 32;
    assert BackoffSum(0) == 0 && BackoffSum(1) == 2 && BackoffSum(2) == 6;
    assert BackoffSum(3) == 14 && BackoffSum(4) == 30;
  }

  /** All but the first attempt of a scheduler-driven log are completed sweeps. */
  lemma {:induction false} DrivenCount(tries: seq<Try>)
    requires SchedulerDriven(tries)
    ensures Count(tries, CompletedSweeps()) >= |tries| - 1
  {
    if |tries| > 1 {
      assert SchedulerDriven(tries[..|tries| - 1]);
      DrivenCount(tries[..|tries| - 1]);
    }
  }

  /** Whatever the log was before, the outcome of an attempt and the attempts used so far decide what it is next. */
  lemma OutcomeDecides(log: Log, limit: nat, d: Delivery)
    ensures var log', used, failed := Send(log, limit, d), log.attempts + 1, d.outcome in {Refused, Unreachable};
      && log'.attempts == used
      && (d.outcome.Broken? ==> log'.status == log.status && log'.nextRetry == log.nextRetry)
      && (!d.outcome.Broken? ==>
            && (log'.status == Delivered <==> d.outcome == Accepted)
            && (log'.status == GivenUp <==> failed && used >= limit)
            && (log'.status == Retrying <==> failed && used < limit)
            && log'.nextRetry == if failed && used < limit
                                 then Some(d.done + (if used <= 5 then Power2(used) else 60)) else None)
  {
    BackoffIsCappedDoubling(log.attempts + 1);
  }

  // --------------------------------------------------------------------- sweeps

  /**
   * A sweep gives every log that is due at its query time one turn and leaves every other log as it
   * was. A log is still due at that time exactly when its attempt broke.
   */
  lemma SweepEffect(w: seq<Tracked>, limit: nat, at: int, turns: seq<Turn>, i: nat)
    requires SweepPossible(w, at, turns) && i < |w|
    ensures var t, t' := w[i], Sweep(w, limit, at, turns)[i];
      && (!Due(t.log, at) ==> t' == t)
      && (Due(t.log, at) && turns[i].NoUrl? ==> t' == Tracked(Log(GivenUp, t.log.attempts, None), t.tries))
      && (Due(t.log, at) && turns[i].Attempt? ==>
            t'.tries == t.tries + [Try(Scheduler, turns[i].delivery)] && t'.log.attempts == t.log.attempts + 1)
      && (Due(t'.log, at) <==> Due(t.log, at) && turns[i].Attempt? && turns[i].delivery.outcome.Broken?)
  {
    var a := w[i].log.attempts + 1;
    BackoffIsCappedDoubling(a);
    PowerPositive(a);
    assert w[i].tries + [] == w[i].tries;
  }

  lemma {:induction false} PowerPositive(n: nat)
    ensures Power2(n) >= 1
  {
    if n > 0 {
      PowerPositive(n - 1);
    }
  }

  /** When no attempt breaks, a second sweep with the same query time changes nothing, whatever its turns. */
  lemma SecondSweepDoesNothing(w: seq<Tracked>, limit: nat, at: int, turns: seq<Turn>, again: seq<Turn>)
    requires SweepPossible(w, at, turns) && |again| == |w|
    requires forall i :: 0 <= i < |turns| && turns[i].Attempt? ==> !turns[i].delivery.outcome.Broken?
    ensures Sweep(Sweep(w, limit, at, turns), limit, at, again) == Sweep(w, limit, at, turns)
  {
    forall i: nat | i < |w| ensures !Due(Sweep(w, limit, at, turns)[i].log, at) {
      SweepEffect(w, limit, at, turns, i);
    }
  }
}
