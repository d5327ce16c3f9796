/**
 * What overlapping deliveries of one log can do: how many attempts the scheduler makes, when the log
 * is abandoned for good, and when its status and retry time stop agreeing.
 */
module WebhookOverlapLaws {
  import opened Types
  import opened Sums
  import opened Webhook
  import opened WebhookLaws
  import opened WebhookOverlap

  // -------------------------------------------------- how often the scheduler tries

  function Completed(commits: seq<Commit>): nat {
    Count(TriesOf(commits), CompletedSweeps())
  }

  /** Attempts whose session committed after another one had committed since its read. */
  function Stale(commits: seq<Commit>): nat {
    if commits == [] then 0
    else
      var n := |commits| - 1;
      Stale(commits[..n]) + (if commits[n].turn.Attempt? && commits[n].reading.version != n then 1 else 0)
  }

  lemma CommitCounts(commits: seq<Commit>, c: Commit)
    ensures Stale(commits + [c]) ==
      Stale(commits) + (if c.turn.Attempt? && c.reading.version != |commits| then 1 else 0)
    ensures Completed(commits + [c]) == Completed(commits) +
      (if c.turn.Attempt? && c.reading.sender == Scheduler && !c.turn.delivery.outcome.Broken? then 1 else 0)
    ensures Count(TriesOf(commits + [c]), BrokenSweeps()) == Count(TriesOf(commits), BrokenSweeps()) +
      (if c.turn.Attempt? && c.reading.sender == Scheduler && c.turn.delivery.outcome.Broken? then 1 else 0)
  {
    assert (commits + [c])[..|commits|] == commits;
    TriesAppend(commits, c);
    if c.turn.Attempt? {
      CountAppend(TriesOf(commits), Try(c.reading.sender, c.turn.delivery), CompletedSweeps());
      CountAppend(TriesOf(commits), Try(c.reading.sender, c.turn.delivery), BrokenSweeps());
    } else {
      assert TriesOf(commits) + [] == TriesOf(commits);
    }
  }

  function Most(limit: nat): nat {
    if limit == 0 then 0 else limit - 1
  }

  /** The attempts the scheduler can still complete before somebody is stale. */
  function Remaining(row: Log, limit: nat): nat {
    if row.status == Retrying then (if row.attempts + 1 < limit then limit - row.attempts else 1)
    else if row.attempts + 1 < limit then limit - row.attempts - 1
    else 0
  }

  ghost predicate Plausible(row: Log, limit: nat) {
    row.status == Retrying ==> row.attempts >= 1 && limit >= 2
  }

  ghost predicate BudgetGood(s: Shared, limit: nat) {
    && Plausible(s.row, limit)
    && (forall j :: 0 <= j < |s.open| ==> Plausible(s.open[j].copy, limit))
    && Completed(s.commits) + Remaining(s.row, limit) <= Most(limit) * (1 + Stale(s.commits))
  }

  function IsCompleted(r: Reading, turn: Turn): nat {
    if turn.Attempt? && r.sender == Scheduler && !turn.delivery.outcome.Broken? then 1 else 0
  }

  /** A fresh session uses up what remains; a stale one leaves at most a whole new budget. */
  lemma WriteRemaining(row: Log, r: Reading, limit: nat, turn: Turn)
    requires Plausible(row, limit) && Plausible(r.copy, limit) && (r.sender == Scheduler ==> r.copy.status == Retrying)
    requires turn.NoUrl? ==> r.sender == Scheduler
    ensures var after := WriteBack(row, r.copy, TakeTurn(r.copy, limit, turn));
      && Plausible(after, limit)
      && (turn.NoUrl? || r.copy == row ==> IsCompleted(r, turn) + Remaining(after, limit) <= Remaining(row, limit))
      && (turn.Attempt? ==> IsCompleted(r, turn) + Remaining(after, limit) <= Most(limit))
  {
  }

  lemma WriteBudget(s: Shared, limit: nat, j: nat, turn: Turn)
    requires BudgetGood(s, limit) && j < |s.open| && ReadingGood(s, s.open[j]) && CanWrite(s.open[j], turn)
    ensures var s' := DoWrite(s, limit, j, turn);
      && Plausible(s'.row, limit)
      && Completed(s'.commits) + Remaining(s'.row, limit) <= Most(limit) * (1 + Stale(s'.commits))
  {
    WriteRemaining(s.row, s.open[j], limit, turn);
    CommitCounts(s.commits, Commit(s.open[j], turn));
    OneMoreBudget(Most(limit), Stale(s.commits));
  }

  lemma OneMoreBudget(most: nat, stale: nat)
    ensures most * (1 + (stale + 1)) == most * (1 + stale) + most
  {
  }

  lemma {:induction false} StepsBudget(limit: nat, steps: seq<Step>)
    ensures BudgetGood(Steps(limit, steps), limit)
  {
    if steps != [] {
      var s, step := Steps(limit, steps[..|steps| - 1]), steps[|steps| - 1];
      var s' := Steps(limit, steps);
      StepsBudget(limit, steps[..|steps| - 1]);
      StepsReadingsGood(limit, steps[..|steps| - 1]);
      if step.Write? && step.j < |s.open| && CanWrite(s.open[step.j], step.turn) {
        WriteBudget(s, limit, step.j, step.turn);
      }
      forall j: nat | j < |s'.open| ensures Plausible(s'.open[j].copy, limit) {
        OpenAfter(s, limit, step, j);
      }
    }
  }

  /**
   * However sessions overlap, the scheduler completes at most one budget of `limit - 1` attempts,
   * and one more for every attempt that was committed from a stale copy.
   */
  lemma CompletedBoundedByStale(limit: nat, steps: seq<Step>)
    ensures var commits := Steps(limit, steps).commits;
      Completed(commits) <= Most(limit) * (1 + Stale(commits))
  {
    StepsBudget(limit, steps);
  }

  // ------------------------------------------------------------ the bound is reached

  const STALE := Reading(Route, NEW_LOG, 0, 0)

  ghost predicate AllStale(open: seq<Reading>, left: nat) {
    |open| == left && forall j :: 0 <= j < left ==> open[j] == STALE
  }

  lemma {:induction false} OpenMany(limit: nat, n: nat) returns (steps: seq<Step>)
    ensures var s := Steps(limit, steps); AllStale(s.open, n) && s == NEW_ROW.(open := s.open)
  {
    if n == 0 {
      steps := [];
    } else {
      var before := OpenMany(limit, n - 1);
      steps := before + [Read(Route, 0)];
      GoAppend(NEW_ROW, limit, before, Read(Route, 0));
    }
  }

  /** Sent at `start`, refused at `done`. */
  function Refusal(start: int, done: int): Turn {
    Attempt(Delivery(Refused, start, done))
  }

  /** Whatever the row has become, a refusal of a new row sets all its columns. */
  lemma NewRowRefused(row: Log, limit: nat, now: int)
    requires limit >= 2
    ensures WriteBack(row, NEW_LOG, TakeTurn(NEW_LOG, limit, Refusal(0, now))) == Log(Retrying, 1, Some(now + 2))
  {
    assert Backoff(1) == 2 by {
      assert Power2(0) == 1;
    }
  }

  /** A session that sent when the log was new and is answered only now starts the count anew. */
  lemma StaleWrite(s: Shared, limit: nat)
    requires limit >= 2 && s.open != [] && s.open[0] == STALE && s.clock >= 0
    ensures After(s, limit, Write(0, Refusal(0, s.clock))) == s.(
      row := Log(Retrying, 1, Some(s.clock + 2)),
      commits := s.commits + [Commit(STALE, Refusal(0, s.clock))],
      open := Without(s.open, 0))
  {
    NewRowRefused(s.row, limit, s.clock);
  }

  /** A sweep that reads the row as soon as it is due. */
  function Redrive(s: Shared): Reading
    requires s.row.nextRetry.Some?
  {
    Reading(Scheduler, s.row, |s.commits|, s.row.nextRetry.value)
  }

  ghost predicate WaitingFrom(s: Shared) {
    s.row.status == Retrying && s.row.nextRetry.Some? && s.row.nextRetry.value >= s.clock
  }

  lemma ScheduledWrite(s: Shared, limit: nat)
    requires WaitingFrom(s)
    ensures var later := s.row.nextRetry.value;
      var s' := After(After(s, limit, Read(Scheduler, later)), limit, Write(|s.open|, Refusal(later, later)));
      && s' == s.(row := Send(s.row, limit, Delivery(Refused, later, later)),
                  commits := s.commits + [Commit(Redrive(s), Refusal(later, later))], clock := later)
  {
    assert Without(s.open + [Redrive(s)], |s.open|) == s.open;
  }

  /** After `k` refused attempts of the scheduler in a row. */
  ghost predicate Redriven(s: Shared, s': Shared, limit: nat, k: nat) {
    && s'.open == s.open && s'.clock >= s.clock && |s'.commits| >= |s.commits|
    && s'.row.attempts == s.row.attempts + k
    && (s'.row.attempts < limit ==> WaitingFrom(s'))
    && (s'.row.attempts >= limit ==> s'.row.status == GivenUp)
    && Completed(s'.commits) == Completed(s.commits) + k
    && Stale(s'.commits) == Stale(s.commits)
    && Count(TriesOf(s'.commits), BrokenSweeps()) == Count(TriesOf(s.commits), BrokenSweeps())
  }

  lemma {:induction false} Redrives(limit: nat, before: seq<Step>, k: nat) returns (steps: seq<Step>)
    requires WaitingFrom(Steps(limit, before)) && Steps(limit, before).row.attempts + k <= limit
    requires Steps(limit, before).row.attempts < limit
    ensures Redriven(Steps(limit, before), Steps(limit, steps), limit, k)
  {
    if k == 0 {
      steps := before;
    } else {
      var mid := Redrives(limit, before, k - 1);
      var s := Steps(limit, mid);
      var later := s.row.nextRetry.value;
      steps := mid + [Read(Scheduler, later)] + [Write(|s.open|, Refusal(later, later))];
      GoAppend(NEW_ROW, limit, mid, Read(Scheduler, later));
      GoAppend(NEW_ROW, limit, mid + [Read(Scheduler, later)], Write(|s.open|, Refusal(later, later)));
      ScheduledWrite(s, limit);
      CommitCounts(s.commits, Commit(Redrive(s), Refusal(later, later)));
    }
  }

  /** After `m` rounds of one late session and `per` scheduler attempts; `left` late sessions are still open. */
  ghost predicate AfterRounds(s: Shared, limit: nat, per: nat, left: nat, m: nat) {
    && AllStale(s.open, left) && s.clock >= 0
    && Completed(s.commits) == per * m
    && Count(TriesOf(s.commits), BrokenSweeps()) == 0
    && (if m == 0 then s.commits == [] && s.row == NEW_LOG
        else
          && s.commits != [] && Stale(s.commits) == m - 1
          && s.row.attempts == per + 1 && s.row.status == if per + 1 < limit then Retrying else GivenUp)
  }

  lemma Round(limit: nat, before: seq<Step>, per: nat, left: nat, m: nat) returns (steps: seq<Step>)
    requires per < limit && limit >= 2 && AfterRounds(Steps(limit, before), limit, per, left + 1, m)
    ensures AfterRounds(Steps(limit, steps), limit, per, left, m + 1)
  {
    var s := Steps(limit, before);
    var late := before + [Write(0, Refusal(0, s.clock))];
    GoAppend(NEW_ROW, limit, before, Write(0, Refusal(0, s.clock)));
    StaleWrite(s, limit);
    CommitCounts(s.commits, Commit(STALE, Refusal(0, s.clock)));
    steps := Redrives(limit, late, per);
    assert per * (m + 1) == per * m + per;
  }

  lemma {:induction false} Rounds(limit: nat, per: nat, n: nat, m: nat) returns (steps: seq<Step>)
    requires per < limit && limit >= 2 && m <= n
    ensures AfterRounds(Steps(limit, steps), limit, per, n - m, m)
  {
    if m == 0 {
      steps := OpenMany(limit, n);
    } else {
      var before := Rounds(limit, per, n, m - 1);
      steps := Round(limit, before, per, n - m, m - 1);
    }
  }

  /**
   * With overlap nothing bounds the scheduler: for every n some run has n completed sweeps on one
   * log and a count of at most two, although nothing broke.
   */
  lemma StaleSessionsNeverStop(limit: nat, n: nat) returns (steps: seq<Step>)
    requires limit >= 2
    ensures var s := Steps(limit, steps);
      && s.row.attempts <= 2
      && Completed(s.commits) == n
      && Count(TriesOf(s.commits), BrokenSweeps()) == 0
  {
    steps := Rounds(limit, 1, n, n);
  }

  /** The bound is exact: for any number of stale attempts some run reaches it, without anything breaking. */
  lemma BoundIsReached(limit: nat, stale: nat) returns (steps: seq<Step>)
    requires limit >= 2
    ensures var s := Steps(limit, steps);
      && Stale(s.commits) == stale
      && Completed(s.commits) == Most(limit) * (1 + stale)
      && Count(TriesOf(s.commits), BrokenSweeps()) == 0
  {
    steps := Rounds(limit, Most(limit), stale + 1, stale + 1);
  }

  // ------------------------------------------------------------- abandoned for good

  /** A session with this copy can neither make the row wait nor set its count back far enough. */
  ghost predicate Harmless(copy: Log, limit: nat) {
    copy.attempts + 1 >= limit || (copy.attempts + 2 >= limit && copy.status == Retrying)
  }

  ghost predicate Abandoned(s: Shared, limit: nat) {
    && s.row.status != Retrying && s.row.attempts + 1 >= limit
    && forall j :: 0 <= j < |s.open| ==> Harmless(s.open[j].copy, limit)
  }

  lemma HarmlessWrite(row: Log, copy: Log, limit: nat, turn: Turn)
    requires row.status != Retrying && row.attempts + 1 >= limit && Harmless(copy, limit)
    ensures var after := WriteBack(row, copy, TakeTurn(copy, limit, turn));
      after.status != Retrying && after.attempts + 1 >= limit
  {
  }

  lemma AbandonedStep(s: Shared, limit: nat, step: Step)
    requires Abandoned(s, limit)
    ensures Abandoned(After(s, limit, step), limit)
  {
    var s' := After(s, limit, step);
    if step.Write? && step.j < |s.open| {
      HarmlessWrite(s.row, s.open[step.j].copy, limit, step.turn);
    }
    forall j: nat | j < |s'.open| ensures Harmless(s'.open[j].copy, limit) {
      OpenAfter(s, limit, step, j);
    }
  }

  lemma {:induction false} AbandonedStays(s: Shared, limit: nat, more: seq<Step>)
    requires Abandoned(s, limit)
    ensures Abandoned(Go(s, limit, more), limit)
  {
    if more != [] {
      AbandonedStays(s, limit, more[..|more| - 1]);
      AbandonedStep(Go(s, limit, more[..|more| - 1]), limit, more[|more| - 1]);
    }
  }

  /** A manual retry of a row with attempts left, when it is refused, makes the row wait. */
  lemma FreshRefusal(s: Shared, limit: nat, es: seq<Step>) returns (more: seq<Step>)
    requires Go(s, limit, es).row.status != Retrying && Go(s, limit, es).row.attempts + 1 < limit
    ensures Go(s, limit, more).row.status == Retrying
  {
    var t := Go(s, limit, es);
    var refused := Write(|t.open|, Refusal(t.clock, t.clock));
    GoAppend(s, limit, es, Read(Route, t.clock));
    GoAppend(s, limit, es + [Read(Route, t.clock)], refused);
    more := es + [Read(Route, t.clock)] + [refused];
    assert After(t, limit, Read(Route, t.clock)).open[|t.open|] == Reading(Route, t.row, |t.commits|, t.clock);
  }

  lemma LateRefusal(s: Shared, limit: nat, j: nat)
    requires j < |s.open| && !Harmless(s.open[j].copy, limit)
    ensures var row := After(s, limit, Write(j, Refusal(s.open[j].at, s.open[j].at))).row;
      row.status == Retrying || row.attempts + 1 < limit
  {
  }

  lemma WaitingRun(s: Shared, limit: nat) returns (more: seq<Step>)
    requires !Abandoned(s, limit)
    ensures Go(s, limit, more).row.status == Retrying
  {
    if s.row.status == Retrying {
      more := [];
    } else if s.row.attempts + 1 < limit {
      more := FreshRefusal(s, limit, []);
    } else {
      var j: nat :| j < |s.open| && !Harmless(s.open[j].copy, limit);
      var late := Write(j, Refusal(s.open[j].at, s.open[j].at));
      LateRefusal(s, limit, j);
      GoAppend(s, limit, [], late);
      more := [] + [late];
      if Go(s, limit, more).row.status != Retrying {
        more := FreshRefusal(s, limit, more);
      }
    }
  }

  /**
   * A log is abandoned for good exactly when it is not waiting, has at most one attempt left, and every
   * session still open read a count that is as good as used up.
   */
  lemma AbandonedForGoodIff(s: Shared, limit: nat)
    ensures (forall more: seq<Step> :: Go(s, limit, more).row.status != Retrying) <==> Abandoned(s, limit)
  {
    if Abandoned(s, limit) {
      forall more: seq<Step> ensures Go(s, limit, more).row.status != Retrying {
        AbandonedStays(s, limit, more);
      }
    } else {
      var more := WaitingRun(s, limit);
      assert Go(s, limit, more).row.status == Retrying;
    }
  }

  /** A log given up after its last attempt waits again when a session that read it new is refused late. */
  lemma GivenUpLogWaitsAgain(limit: nat) returns (steps: seq<Step>, late: Step)
    requires limit >= 2
    ensures Steps(limit, steps).row.status == GivenUp && Steps(limit, steps).row.attempts == limit
    ensures Steps(limit, steps + [late]).row.status == Retrying && Steps(limit, steps + [late]).row.attempts == 1
    ensures !Abandoned(Steps(limit, steps), limit)
  {
    steps := Rounds(limit, Most(limit), 2, 1);
    var s := Steps(limit, steps);
    late := Write(0, Refusal(0, s.clock));
    StaleWrite(s, limit);
    GoAppend(NEW_ROW, limit, steps, late);
    assert s.open[0] == STALE;
  }

  // -------------------------------------------------------- status and retry time

  ghost predicate Coherent(log: Log) {
    log.status == Retrying <==> log.nextRetry.Some?
  }

  /**
   * A session that read a waiting row reschedules it to another time, and the row no longer waits; or
   * a session that read a row not waiting ends it with a new final status, and the row has begun waiting.
   */
  ghost predicate BreaksTie(row: Log, copy: Log, limit: nat, turn: Turn) {
    var failed := turn.Attempt? && turn.delivery.outcome in {Refused, Unreachable};
    if copy.status == Retrying then
      && row.status != Retrying
      && failed && copy.attempts + 1 < limit
      && copy.nextRetry != Some(turn.delivery.done + Backoff(copy.attempts + 1))
    else
      && row.status == Retrying
      && (|| (turn.Attempt? && turn.delivery.outcome.Accepted? && copy.status != Delivered)
          || ((turn.NoUrl? || (failed && copy.attempts + 1 >= limit)) && copy.status != GivenUp))
  }

  /** Exactly which commits make status and retry time disagree. */
  lemma TieBreaksIff(row: Log, copy: Log, limit: nat, turn: Turn)
    requires Coherent(row) && Coherent(copy)
    ensures !Coherent(WriteBack(row, copy, TakeTurn(copy, limit, turn))) <==> BreaksTie(row, copy, limit, turn)
  {
  }

  ghost predicate BreakingStep(s: Shared, limit: nat, step: Step) {
    && step.Write? && step.j < |s.open| && CanWrite(s.open[step.j], step.turn)
    && BreaksTie(s.row, s.open[step.j].copy, limit, step.turn)
  }

  ghost predicate AllCoherent(s: Shared) {
    Coherent(s.row) && forall j :: 0 <= j < |s.open| ==> Coherent(s.open[j].copy)
  }

  lemma TieStep(s: Shared, limit: nat, step: Step)
    requires AllCoherent(s)
    ensures Coherent(After(s, limit, step).row) <==> !BreakingStep(s, limit, step)
    ensures AllCoherent(After(s, limit, step)) <==> !BreakingStep(s, limit, step)
  {
    var s' := After(s, limit, step);
    if step.Write? && step.j < |s.open| && CanWrite(s.open[step.j], step.turn) {
      TieBreaksIff(s.row, s.open[step.j].copy, limit, step.turn);
    }
    forall j: nat | j < |s'.open| ensures Coherent(s'.open[j].copy) {
      OpenAfter(s, limit, step, j);
    }
  }

  ghost predicate TieKept(limit: nat, steps: seq<Step>) {
    forall n :: 0 <= n <= |steps| ==> Coherent(Steps(limit, steps[..n]).row)
  }

  ghost predicate NothingBreaks(limit: nat, steps: seq<Step>) {
    forall n :: 0 <= n < |steps| ==> !BreakingStep(Steps(limit, steps[..n]), limit, steps[n])
  }

  lemma Prefixes(limit: nat, steps: seq<Step>)
    requires steps != []
    ensures var init, last := steps[..|steps| - 1], steps[|steps| - 1];
      && (TieKept(limit, steps) <==> TieKept(limit, init) && Coherent(Steps(limit, steps).row))
      && (NothingBreaks(limit, steps) <==>
            NothingBreaks(limit, init) && !BreakingStep(Steps(limit, init), limit, last))
  {
    var init := steps[..|steps| - 1];
    assert steps[..|steps|] == steps;
    forall n | 0 <= n <= |init| ensures init[..n] == steps[..n] {
    }
  }

  lemma {:induction false} TieKeptOrBroken(limit: nat, steps: seq<Step>)
    ensures TieKept(limit, steps) <==> NothingBreaks(limit, steps)
    ensures TieKept(limit, steps) ==> AllCoherent(Steps(limit, steps))
  {
    if steps == [] {
      assert steps[..0] == steps;
    } else {
      var init := steps[..|steps| - 1];
      TieKeptOrBroken(limit, init);
      Prefixes(limit, steps);
      if TieKept(limit, init) {
        TieStep(Steps(limit, init), limit, steps[|steps| - 1]);
      }
    }
  }

  /** In every run, status and retry time agree throughout exactly when no step of it is a breaking commit. */
  lemma TieKeptIff(limit: nat, steps: seq<Step>)
    ensures (forall n :: 0 <= n <= |steps| ==> Coherent(Steps(limit, steps[..n]).row)) <==>
            (forall n :: 0 <= n < |steps| ==> !BreakingStep(Steps(limit, steps[..n]), limit, steps[n]))
  {
    TieKeptOrBroken(limit, steps);
  }

  ghost predicate NoRetryTimes(s: Shared) {
    && s.row.status != Retrying && s.row.nextRetry.None?
    && forall j :: 0 <= j < |s.open| ==> s.open[j].copy.status != Retrying && s.open[j].copy.nextRetry.None?
  }

  lemma {:induction false} NothingToRetry(limit: nat, steps: seq<Step>)
    requires limit < 2
    ensures NoRetryTimes(Steps(limit, steps))
  {
    if steps != [] {
      var s, step := Steps(limit, steps[..|steps| - 1]), steps[|steps| - 1];
      NothingToRetry(limit, steps[..|steps| - 1]);
      forall j: nat | j < |Steps(limit, steps).open|
        ensures Steps(limit, steps).open[j].copy.status != Retrying
        ensures Steps(limit, steps).open[j].copy.nextRetry.None?
      {
        OpenAfter(s, limit, step, j);
      }
    }
  }

  /** Two sessions read the new log; one is refused, then the other is accepted. */
  lemma DeliveredButScheduled(limit: nat) returns (steps: seq<Step>)
    requires limit >= 2
    ensures Steps(limit, steps).row == Log(Delivered, 1, Some(2))
  {
    var before := OpenMany(limit, 2);
    var s := Steps(limit, before);
    var refused, accepted := Write(0, Refusal(0, 0)), Write(0, Attempt(Delivery(Accepted, 0, 0)));
    steps := before + [refused] + [accepted];
    GoAppend(NEW_ROW, limit, before, refused);
    GoAppend(NEW_ROW, limit, before + [refused], accepted);
    StaleWrite(s, limit);
    assert Without(s.open, 0) == [STALE];
  }

  /** Two sessions read a waiting log; one is accepted, then the other is refused. */
  lemma DeliveredThenRescheduled(limit: nat) returns (steps: seq<Step>)
    requires limit >= 3
    ensures Steps(limit, steps).row == Log(Delivered, 2, Some(6))
  {
    var before := OpenMany(limit, 1);
    var s := Steps(limit, before);
    var refused := Write(0, Refusal(0, 0));
    GoAppend(NEW_ROW, limit, before, refused);
    StaleWrite(s, limit);
    var waiting := before + [refused];
    assert Without(s.open, 0) == [];
    var read, accepted, again := Read(Route, 2), Write(0, Attempt(Delivery(Accepted, 2, 2))), Write(0, Refusal(2, 2));
    GoAppend(NEW_ROW, limit, waiting, read);
    GoAppend(NEW_ROW, limit, waiting + [read], read);
    GoAppend(NEW_ROW, limit, waiting + [read] + [read], accepted);
    GoAppend(NEW_ROW, limit, waiting + [read] + [read] + [accepted], again);
    steps := waiting + [read] + [read] + [accepted] + [again];
    var r := Reading(Route, Log(Retrying, 1, Some(2)), 1, 2);
    assert Steps(limit, waiting + [read] + [read]).open == [r, r];
    assert Without([r, r], 0) == [r];
    BackoffIsCappedDoubling(2);
    assert Power2(1) == 2 && Power2(2) == 4;
  }

  /** Some run makes them disagree exactly when a log can wait at all. */
  lemma TieCanBreakIff(limit: nat)
    ensures (exists steps: seq<Step> :: !Coherent(Steps(limit, steps).row)) <==> limit >= 2
  {
    if limit >= 2 {
      var steps := DeliveredButScheduled(limit);
      assert !Coherent(Steps(limit, steps).row);
    } else {
      forall steps: seq<Step> ensures Coherent(Steps(limit, steps).row) {
        NothingToRetry(limit, steps);
      }
    }
  }
}
