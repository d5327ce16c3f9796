/**
 * Deliveries of one log that overlap. Each works on its own copy of the row, read when it begins, and
 * its session writes back the columns it changed when it commits.
 */
module WebhookOverlap {
  import opened Sums
  import opened Webhook
  import opened WebhookLaws

  /** A session that has read the row, when `version` commits had been made, and has not committed. */
  datatype Reading = Reading(sender: Sender, copy: Log, version: nat, at: int)

  /** A committed session and what it did with its copy. */
  datatype Commit = Commit(reading: Reading, turn: Turn)

  datatype Shared = Shared(row: Log, commits: seq<Commit>, open: seq<Reading>, clock: int)

  datatype Step =
    | Read(sender: Sender, at: int)     // a sweep reads only due rows
    | Write(j: nat, turn: Turn)
    | Abandon(j: nat)                   // a route that raised, or a crash

  const NEW_ROW := Shared(NEW_LOG, [], [], 0)

  /** Only columns whose value differs from the value read are written. */
  function WriteBack(row: Log, copy: Log, after: Log): Log {
    Log(if after.status != copy.status then after.status else row.status,
        if after.attempts != copy.attempts then after.attempts else row.attempts,
        if after.nextRetry != copy.nextRetry then after.nextRetry else row.nextRetry)
  }

  predicate CanWrite(r: Reading, turn: Turn) {
    match turn
    case NoUrl => r.sender == Scheduler
    case Attempt(d) => r.at <= d.start <= d.done && (r.sender == Route ==> !d.outcome.Broken?)
  }

  function Without(open: seq<Reading>, j: nat): seq<Reading>
    requires j < |open|
  {
    open[..j] + open[j + 1..]
  }

  function DoWrite(s: Shared, limit: nat, j: nat, turn: Turn): Shared
    requires j < |s.open|
  {
    var r := s.open[j];
    Shared(
      WriteBack(s.row, r.copy, TakeTurn(r.copy, limit, turn)),
      s.commits + [Commit(r, turn)],
      Without(s.open, j),
      if turn.Attempt? && turn.delivery.done > s.clock then turn.delivery.done else s.clock)
  }

  /** A step that is not enabled changes nothing. */
  function After(s: Shared, limit: nat, step: Step): Shared {
    match step
    case Read(sender, at) =>
      if at >= s.clock && (sender == Scheduler ==> Due(s.row, at))
      then s.(open := s.open + [Reading(sender, s.row, |s.commits|, at)], clock := at) else s
    case Write(j, turn) => if j < |s.open| && CanWrite(s.open[j], turn) then DoWrite(s, limit, j, turn) else s
    case Abandon(j) => if j < |s.open| then s.(open := Without(s.open, j)) else s
  }

  function Go(s: Shared, limit: nat, more: seq<Step>): Shared {
    if more == [] then s else After(Go(s, limit, more[..|more| - 1]), limit, more[|more| - 1])
  }

  /** From a new log on. */
  function Steps(limit: nat, steps: seq<Step>): Shared {
    Go(NEW_ROW, limit, steps)
  }

  lemma GoAppend(s: Shared, limit: nat, more: seq<Step>, step: Step)
    ensures Go(s, limit, more + [step]) == After(Go(s, limit, more), limit, step)
  {
    assert (more + [step])[..|more|] == more;
  }

  /** The committed attempts, as seen from outside. */
  function TriesOf(commits: seq<Commit>): seq<Try> {
    if commits == [] then []
    else
      var c := commits[|commits| - 1];
      TriesOf(commits[..|commits| - 1]) + (if c.turn.Attempt? then [Try(c.reading.sender, c.turn.delivery)] else [])
  }

  lemma TriesAppend(commits: seq<Commit>, c: Commit)
    ensures TriesOf(commits + [c]) ==
      TriesOf(commits) + (if c.turn.Attempt? then [Try(c.reading.sender, c.turn.delivery)] else [])
  {
    assert (commits + [c])[..|commits|] == commits;
  }

  function IsRead(): Step -> bool {
    (step: Step) => step.Read?
  }

  /** Every session commits at most once: commits and open sessions never outnumber the reads. */
  lemma {:induction false} SessionsCommitOnce(limit: nat, steps: seq<Step>)
    ensures var s := Steps(limit, steps); |s.commits| + |s.open| <= Count(steps, IsRead())
  {
    if steps != [] {
      SessionsCommitOnce(limit, steps[..|steps| - 1]);
    }
  }

  // ------------------------------------------------------ sessions that do not overlap

  /** No commit came between any committed session's read and its own commit. */
  ghost predicate Fresh(commits: seq<Commit>) {
    forall k :: 0 <= k < |commits| ==> commits[k].reading.version == k
  }

  ghost predicate ReadingGood(s: Shared, r: Reading) {
    var tries := TriesOf(s.commits);
    && r.version <= |s.commits|
    && (r.sender == Scheduler ==> Due(r.copy, r.at))
    && (r.version == |s.commits| ==> r.copy == s.row && (tries != [] ==> tries[|tries| - 1].delivery.done <= r.at))
  }

  ghost predicate ReadingsGood(s: Shared) {
    && (forall j :: 0 <= j < |s.open| ==> ReadingGood(s, s.open[j]))
    && (var tries := TriesOf(s.commits); tries != [] ==> tries[|tries| - 1].delivery.done <= s.clock)
  }

  lemma ReadingStaysGood(s: Shared, limit: nat, step: Step, r: Reading)
    requires ReadingGood(s, r)
    ensures ReadingGood(After(s, limit, step), r)
  {
  }

  lemma OpenAfter(s: Shared, limit: nat, step: Step, j: nat)
    requires j < |After(s, limit, step).open|
    ensures var s' := After(s, limit, step);
      || s'.open[j] in s.open
      || (step.Read? && step.at >= s.clock && (step.sender == Scheduler ==> Due(s.row, step.at))
          && s'.open[j] == Reading(step.sender, s.row, |s.commits|, step.at)
          && s' == s.(open := s.open + [s'.open[j]], clock := step.at))
  {
  }

  lemma LastTryBeforeClock(s: Shared, limit: nat, step: Step)
    requires ReadingsGood(s)
    ensures var s' := After(s, limit, step); var tries := TriesOf(s'.commits);
      tries != [] ==> tries[|tries| - 1].delivery.done <= s'.clock
  {
    if step.Write? && step.j < |s.open| {
      TriesAppend(s.commits, Commit(s.open[step.j], step.turn));
    }
  }

  lemma AfterReadingsGood(s: Shared, limit: nat, step: Step)
    requires ReadingsGood(s)
    ensures ReadingsGood(After(s, limit, step))
  {
    var s' := After(s, limit, step);
    LastTryBeforeClock(s, limit, step);
    forall j: nat | j < |s'.open| ensures ReadingGood(s', s'.open[j]) {
      OpenAfter(s, limit, step, j);
      if s'.open[j] in s.open {
        ReadingStaysGood(s, limit, step, s'.open[j]);
      }
    }
  }

  lemma {:induction false} StepsReadingsGood(limit: nat, steps: seq<Step>)
    ensures ReadingsGood(Steps(limit, steps))
  {
    if steps != [] {
      StepsReadingsGood(limit, steps[..|steps| - 1]);
      AfterReadingsGood(Steps(limit, steps[..|steps| - 1]), limit, steps[|steps| - 1]);
    }
  }

  function WriteEvent(r: Reading, turn: Turn): Event {
    if r.sender == Route && turn.Attempt? then RouteSend(0, turn.delivery) else SweepTurn(0, r.at, turn)
  }

  /** A session that read the current row does to it what the attempt does in one step. */
  lemma FreshWrite(s: Shared, limit: nat, j: nat, turn: Turn)
    requires j < |s.open| && ReadingGood(s, s.open[j]) && CanWrite(s.open[j], turn)
    requires s.open[j].version == |s.commits|
    ensures var s' := DoWrite(s, limit, j, turn);
      Next([Tracked(s.row, TriesOf(s.commits))], limit, WriteEvent(s.open[j], turn))
      == [Tracked(s'.row, TriesOf(s'.commits))]
  {
    TriesAppend(s.commits, Commit(s.open[j], turn));
  }

  /** Sessions that each read what the one before committed are a run of attempts that do not overlap. */
  lemma {:induction false} FreshSessionsAreAttempts(limit: nat, steps: seq<Step>) returns (es: seq<Event>)
    requires Fresh(Steps(limit, steps).commits)
    ensures var s := Steps(limit, steps); Run([], limit, es) == [Tracked(s.row, TriesOf(s.commits))]
  {
    if steps == [] {
      es := [CreateLog];
      RunAppend([], limit, [], CreateLog);
      assert [] + [CreateLog] == [CreateLog];
    } else {
      var init, step := steps[..|steps| - 1], steps[|steps| - 1];
      var s, s' := Steps(limit, init), Steps(limit, steps);
      FreshBefore(s, limit, step);
      es := FreshSessionsAreAttempts(limit, init);
      if step.Write? && step.j < |s.open| && CanWrite(s.open[step.j], step.turn) {
        StepsReadingsGood(limit, init);
        assert s'.commits[|s.commits|] == Commit(s.open[step.j], step.turn);
        FreshWrite(s, limit, step.j, step.turn);
        RunAppend([], limit, es, WriteEvent(s.open[step.j], step.turn));
        es := es + [WriteEvent(s.open[step.j], step.turn)];
      }
    }
  }

  lemma FreshBefore(s: Shared, limit: nat, step: Step)
    requires Fresh(After(s, limit, step).commits)
    ensures Fresh(s.commits)
  {
    var after := After(s, limit, step).commits;
    forall k | 0 <= k < |s.commits| ensures s.commits[k].reading.version == k {
      assert after[k] == s.commits[k];
    }
  }

  /** So without overlap the scheduler's completed attempts stay below the limit. */
  lemma FreshSessionsAreBounded(limit: nat, steps: seq<Step>)
    requires Fresh(Steps(limit, steps).commits)
    ensures var completed := Count(TriesOf(Steps(limit, steps).commits), CompletedSweeps());
      completed > 0 ==> completed <= limit - 1
  {
    var es := FreshSessionsAreAttempts(limit, steps);
    SchedulerAttemptsBounded(limit, es, 0);
  }

  // -------------------------------------------------------------- lost attempts

  function Attempts(commits: seq<Commit>): nat {
    |TriesOf(commits)|
  }

  /** No attempt was committed between any attempt's read and its own commit. */
  ghost predicate AllCounted(commits: seq<Commit>) {
    forall k :: 0 <= k < |commits| && commits[k].turn.Attempt? ==> ReadAllBefore(commits, k)
  }

  ghost predicate ReadAllBefore(commits: seq<Commit>, k: nat)
    requires k < |commits|
  {
    var v := commits[k].reading.version;
    v <= k && Attempts(commits[..v]) == Attempts(commits[..k])
  }

  /** The count in a row read after `v` commits is the number of attempts unless one of them was lost. */
  ghost predicate CountGood(attempts: nat, commits: seq<Commit>) {
    attempts <= Attempts(commits) && (attempts == Attempts(commits) <==> AllCounted(commits))
  }

  ghost predicate CopyGood(commits: seq<Commit>, r: Reading) {
    r.version <= |commits| && CountGood(r.copy.attempts, commits[..r.version])
  }

  ghost predicate CountsGood(s: Shared) {
    && CountGood(s.row.attempts, s.commits)
    && forall j :: 0 <= j < |s.open| ==> CopyGood(s.commits, s.open[j])
  }

  /** A longer history has at least the attempts of a shorter one, and loses none if it has no more. */
  lemma {:induction false} MoreCommits(commits: seq<Commit>, v: nat)
    requires v <= |commits|
    ensures Attempts(commits[..v]) <= Attempts(commits)
    ensures Attempts(commits[..v]) == Attempts(commits) ==> (AllCounted(commits[..v]) <==> AllCounted(commits))
  {
    if v == |commits| {
      assert commits[..v] == commits;
    } else {
      var n := |commits| - 1;
      MoreCommits(commits[..n], v);
      assert commits[..n][..v] == commits[..v];
      assert commits == commits[..n] + [commits[n]];
      TriesAppend(commits[..n], commits[n]);
      CountedAppended(commits[..n], commits[n]);
    }
  }

  lemma CountedAppended(commits: seq<Commit>, c: Commit)
    ensures AllCounted(commits + [c]) <==>
      && AllCounted(commits)
      && var v := c.reading.version;
         (c.turn.Attempt? ==> v <= |commits| && Attempts(commits[..v]) == Attempts(commits))
  {
    var after := commits + [c];
    assert after[..|commits|] == commits;
    forall k: nat | k < |commits| ensures ReadAllBefore(after, k) <==> ReadAllBefore(commits, k) {
      PrefixOf(after, commits, k);
      if commits[k].reading.version <= k {
        PrefixOf(after, commits, commits[k].reading.version);
      }
    }
    if c.reading.version <= |commits| {
      PrefixOf(after, commits, c.reading.version);
    }
    assert after[|commits|] == c;
    if AllCounted(after) {
      forall k | 0 <= k < |commits| && commits[k].turn.Attempt? ensures ReadAllBefore(commits, k) {
        assert after[k] == commits[k];
      }
      assert c.turn.Attempt? ==> ReadAllBefore(after, |commits|);
    }
  }

  lemma PrefixOf(after: seq<Commit>, commits: seq<Commit>, k: nat)
    requires k <= |commits| <= |after| && after[..|commits|] == commits
    ensures after[..k] == commits[..k]
  {
    assert after[..k] == after[..|commits|][..k];
  }

  lemma WriteCounts(s: Shared, limit: nat, j: nat, turn: Turn)
    requires j < |s.open| && CountGood(s.row.attempts, s.commits) && CopyGood(s.commits, s.open[j])
    ensures CountGood(DoWrite(s, limit, j, turn).row.attempts, DoWrite(s, limit, j, turn).commits)
  {
    var r := s.open[j];
    TriesAppend(s.commits, Commit(r, turn));
    CountedAppended(s.commits, Commit(r, turn));
    MoreCommits(s.commits, r.version);
  }

  lemma {:induction false} StepsCountsGood(limit: nat, steps: seq<Step>)
    ensures CountsGood(Steps(limit, steps))
  {
    if steps != [] {
      var s, step := Steps(limit, steps[..|steps| - 1]), steps[|steps| - 1];
      var s' := Steps(limit, steps);
      StepsCountsGood(limit, steps[..|steps| - 1]);
      if step.Write? && step.j < |s.open| && CanWrite(s.open[step.j], step.turn) {
        WriteCounts(s, limit, step.j, step.turn);
      }
      forall j | 0 <= j < |s'.open| ensures CopyGood(s'.commits, s'.open[j]) {
        OpenBefore(s, limit, step, j);
      }
    }
  }

  lemma OpenBefore(s: Shared, limit: nat, step: Step, j: nat)
    requires CountsGood(s) && j < |After(s, limit, step).open|
    ensures CopyGood(After(s, limit, step).commits, After(s, limit, step).open[j])
  {
    var s' := After(s, limit, step);
    OpenAfter(s, limit, step, j);
    if s'.open[j] in s.open {
      var r := s'.open[j];
      assert CopyGood(s.commits, r);
      assert s'.commits[..|s.commits|] == s.commits;
      PrefixOf(s'.commits, s.commits, r.version);
    } else {
      assert s.commits[..|s.commits|] == s.commits;
    }
  }

  /**
   * However sessions overlap, the row never counts more attempts than were committed, and counts
   * them all exactly when no attempt was committed between the read and the commit of another.
   */
  lemma AttemptsCountedIff(limit: nat, steps: seq<Step>)
    ensures var s := Steps(limit, steps);
      && s.row.attempts <= Attempts(s.commits)
      && (s.row.attempts == Attempts(s.commits) <==> AllCounted(s.commits))
  {
    StepsCountsGood(limit, steps);
  }
}
