/** What raised sends leave behind, and a run in which every retry comes as early as it can. */
module WebhookRuns {
  import opened Types
  import opened Webhook
  import opened WebhookLaws

  // ------------------------------------------------------------- raised sends

  predicate RaisedSend(e: Event) {
    e.RouteSend? && e.delivery.outcome.Broken?
  }

  /** The run without the sends that raised, and without the events that had no effect. */
  function Kept(limit: nat, es: seq<Event>): seq<Event> {
    if es == [] then []
    else
      var init, e := es[..|es| - 1], es[|es| - 1];
      Kept(limit, init) + (if Enabled(Run([], limit, init), e) && !RaisedSend(e) then [e] else [])
  }

  /** The same log row, remembering only the attempts that were counted. */
  function Counting(t: Tracked): Tracked {
    Tracked(t.log, Counted(t.tries))
  }

  /** The counted attempts of a log end no later than all of them. */
  ghost predicate CountedFirst(t: Tracked) {
    var counted := Counted(t.tries);
    counted != [] ==>
      t.tries != [] && counted[|counted| - 1].delivery.done <= t.tries[|t.tries| - 1].delivery.done
  }

  ghost predicate SameRows(w: seq<Tracked>, w': seq<Tracked>) {
    |w'| == |w| && forall i :: 0 <= i < |w| ==> w'[i] == Counting(w[i]) && CountedFirst(w[i])
  }

  lemma OneMoreTry(t: Tracked, x: Try, log: Log)
    requires CountedFirst(t) && InOrder(t, x.delivery)
    ensures InOrder(Counting(t), x.delivery) && CountedFirst(Tracked(log, t.tries + [x]))
  {
    CountedAppend(t.tries, x);
  }

  lemma SendSame(t: Tracked, limit: nat, d: Delivery)
    requires CountedFirst(t) && InOrder(t, d)
    ensures CountedFirst(RouteSent(t, limit, d)) && InOrder(Counting(t), d)
    ensures Counting(RouteSent(t, limit, d)) ==
      if d.outcome.Broken? then Counting(t) else RouteSent(Counting(t), limit, d)
  {
    OneMoreTry(t, Try(Route, d), RouteSent(t, limit, d).log);
    CountedAppend(t.tries, Try(Route, d));
  }

  lemma TurnSame(t: Tracked, limit: nat, at: int, turn: Turn)
    requires CountedFirst(t) && TurnPossible(t, at, turn)
    ensures CountedFirst(Swept(t, limit, at, turn)) && TurnPossible(Counting(t), at, turn)
    ensures Counting(Swept(t, limit, at, turn)) == Swept(Counting(t), limit, at, turn)
  {
    if turn.Attempt? {
      OneMoreTry(t, Try(Scheduler, turn.delivery), Swept(t, limit, at, turn).log);
      CountedAppend(t.tries, Try(Scheduler, turn.delivery));
    } else {
      assert t.tries + [] == t.tries && Counted(t.tries) + [] == Counted(t.tries);
    }
  }

  lemma SameRowsUpdate(w: seq<Tracked>, w': seq<Tracked>, i: nat, t: Tracked)
    requires SameRows(w, w') && i < |w| && CountedFirst(t)
    ensures SameRows(w[i := t], w'[i := Counting(t)])
  {
  }

  lemma NextSameRows(w: seq<Tracked>, w': seq<Tracked>, limit: nat, e: Event)
    requires SameRows(w, w') && Enabled(w, e)
    ensures SameRows(Next(w, limit, e), if RaisedSend(e) then w' else Next(w', limit, e))
  {
    match e
    case CreateLog =>
    case RouteSend(i, d) =>
      SendSame(w[i], limit, d);
      SameRowsUpdate(w, w', i, RouteSent(w[i], limit, d));
      assert w'[i] == Counting(w[i]) && w'[i := w'[i]] == w';
    case SweepTurn(i, at, turn) =>
      TurnSame(w[i], limit, at, turn);
      SameRowsUpdate(w, w', i, Swept(w[i], limit, at, turn));
      assert w'[i] == Counting(w[i]);
  }

  lemma KeptStep(w: seq<Tracked>, kept: seq<Event>, limit: nat, e: Event)
    requires SameRows(w, Run([], limit, kept))
    ensures SameRows(Next(w, limit, e),
      Run([], limit, kept + (if Enabled(w, e) && !RaisedSend(e) then [e] else [])))
  {
    if Enabled(w, e) {
      NextSameRows(w, Run([], limit, kept), limit, e);
    }
    if Enabled(w, e) && !RaisedSend(e) {
      RunAppend([], limit, kept, e);
    } else {
      assert kept + [] == kept;
    }
  }

  lemma {:induction false} KeptSameRows(limit: nat, es: seq<Event>)
    ensures SameRows(Run([], limit, es), Run([], limit, Kept(limit, es)))
  {
    if es != [] {
      var init := es[..|es| - 1];
      KeptSameRows(limit, init);
      KeptStep(Run([], limit, init), Kept(limit, init), limit, es[|es| - 1]);
    }
  }

  lemma {:induction false} KeptHasNoRaisedSend(limit: nat, es: seq<Event>)
    ensures forall e :: e in Kept(limit, es) ==> !RaisedSend(e)
  {
    if es != [] {
      KeptHasNoRaisedSend(limit, es[..|es| - 1]);
    }
  }

  /**
   * An initial send or manual retry that raises leaves nothing in the table: taking all of them out
   * of a run gives the same log rows, with the same counted attempts.
   */
  lemma RaisedSendsLeaveNoTrace(limit: nat, es: seq<Event>) returns (kept: seq<Event>)
    ensures forall e :: e in kept ==> !(e.RouteSend? && e.delivery.outcome.Broken?)
    ensures var w, w' := Run([], limit, es), Run([], limit, kept);
      |w'| == |w| && forall i :: 0 <= i < |w| ==> w'[i].log == w[i].log && w'[i].tries == Counted(w[i].tries)
  {
    KeptSameRows(limit, es);
    KeptHasNoRaisedSend(limit, es);
    kept := Kept(limit, es);
    forall e | e in kept ensures !(e.RouteSend? && e.delivery.outcome.Broken?) {
      assert !RaisedSend(e);
    }
    forall i | 0 <= i < |Run([], limit, es)|
      ensures Run([], limit, kept)[i].log == Run([], limit, es)[i].log
      ensures Run([], limit, kept)[i].tries == Counted(Run([], limit, es)[i].tries)
    {
      assert Run([], limit, kept)[i] == Counting(Run([], limit, es)[i]);
    }
  }

  // ------------------------------------------------------- retries in due time

  /** Refused at once, at time `at`. */
  function RefusedAt(at: int): Delivery {
    Delivery(Refused, at, at)
  }

  ghost predicate Prompt(t: Tracked, limit: nat, k: nat) {
    && |t.tries| == k
    && t.log == Log(if k < limit then Retrying else GivenUp, k, if k < limit then Some(BackoffSum(k)) else None)
    && forall j :: 0 <= j < k ==>
         t.tries[j] == Try(if j == 0 then Route else Scheduler, RefusedAt(BackoffSum(j)))
  }

  lemma {:induction false} PromptRun(limit: nat, k: nat) returns (es: seq<Event>)
    requires 1 <= k <= limit
    ensures var w := Run([], limit, es); |w| == 1 && Prompt(w[0], limit, k)
  {
    if k == 1 {
      es := [] + [CreateLog] + [RouteSend(0, RefusedAt(0))];
      RunAppend([], limit, [], CreateLog);
      RunAppend([], limit, [] + [CreateLog], RouteSend(0, RefusedAt(0)));
      assert BackoffSum(0) == 0 && BackoffSum(1) == Backoff(1);
    } else {
      var before := PromptRun(limit, k - 1);
      var at := BackoffSum(k - 1);
      BackoffSumGrows(k - 1);
      es := before + [SweepTurn(0, at, Attempt(RefusedAt(at)))];
      RunAppend([], limit, before, SweepTurn(0, at, Attempt(RefusedAt(at))));
      PromptTurn(Run([], limit, before)[0], limit, k);
    }
  }

  lemma BackoffSumGrows(k: nat)
    requires k >= 1
    ensures BackoffSum(k - 1) <= BackoffSum(k)
  {
  }

  lemma PromptTurn(t: Tracked, limit: nat, k: nat)
    requires 2 <= k <= limit && Prompt(t, limit, k - 1)
    ensures var at := BackoffSum(k - 1); var turn := Attempt(RefusedAt(at));
      TurnPossible(t, at, turn) && Prompt(Swept(t, limit, at, turn), limit, k)
  {
    BackoffSumGrows(k - 1);
  }

  /**
   * The waiting times are exact and no attempt is given away: for every limit some run, left to the
   * scheduler after the first send, makes exactly `limit` attempts, attempt k+1 after the first k backoffs.
   */
  lemma EveryAttemptIsMade(limit: nat) returns (es: seq<Event>)
    requires limit >= 1
    ensures var w := Run([], limit, es);
      && |w| == 1 && SchedulerDriven(w[0].tries) && |w[0].tries| == limit && w[0].log.status == GivenUp
      && forall k :: 0 <= k < limit ==> w[0].tries[k].delivery.start == w[0].tries[0].delivery.start + BackoffSum(k)
  {
    es := PromptRun(limit, limit);
    assert BackoffSum(0) == 0;
  }

  /** As configured: a fifth attempt is made, 30 seconds after the first, and it is the last. */
  lemma FifthAttemptAfterThirtySeconds() returns (es: seq<Event>)
    ensures var w := Run([], MAX_WEBHOOK_ATTEMPTS, es);
      && |w| == 1 && SchedulerDriven(w[0].tries) && |w[0].tries| == 5
      && w[0].tries[4].delivery.start == w[0].tries[0].delivery.start + 30
      && w[0].log == Log(GivenUp, 5, None)
  {
    es := PromptRun(MAX_WEBHOOK_ATTEMPTS, 5);
    BackoffSums();
    assert Power2(1) == 2;
  }
}
