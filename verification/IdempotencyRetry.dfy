/** When a retry pays again, when it is turned away, and when the payments under a key are final. */
module IdempotencyRetry {
  import opened Types
  import opened Sums
  import opened Idempotency
  import opened IdempotencyLaws
  import opened IdempotencySerial

  // ------------------------------------------------------------- paying again

  /** The stored record has no response yet; without a record, no other insert of the key is under way. */
  ghost predicate WillPay(s: Protocol, call: Call) {
    && call.body.amount > 0
    && if call.key in s.records then RecordMatches(s, call) && s.records[call.key].response.None?
       else !Blocked(s, call.key)
  }

  /** The state after the request's lookup and insert. */
  function Checked(s: Protocol, call: Call): Protocol {
    var n := |s.attempts|;
    Next(Next(Next(s, Arrive(call)), Look(n)), Reserve(n))
  }

  ghost predicate WithNewcomer(s: Protocol, s': Protocol, call: Call) {
    var n := |s.attempts|;
    && s'.records == s.records && s'.payments == s.payments
    && |s'.attempts| == n + 1 && s'.attempts[..n] == s.attempts && s'.attempts[n].call == call
  }

  lemma BlockedByOthers(s: Protocol, s': Protocol, call: Call, key: Key)
    requires WithNewcomer(s, s', call) && !s'.attempts[|s.attempts|].phase.Admitted?
    ensures Blocked(s', key) <==> Blocked(s, key)
  {
    var n := |s.attempts|;
    if j :| 0 <= j < n && Holds(s.attempts[j], key) {
      assert Holds(s'.attempts[j], key);
    }
    if j :| 0 <= j < |s'.attempts| && Holds(s'.attempts[j], key) {
      assert s'.attempts[..n][j] == s.attempts[j];
      assert Holds(s.attempts[j], key);
    }
  }

  /** What lookup and insert make of an undisturbed request while others are in flight. */
  lemma CheckedPhase(s: Protocol, call: Call)
    ensures WithNewcomer(s, Checked(s, call), call)
    ensures var phase := Checked(s, call).attempts[|s.attempts|].phase;
      if call.key !in s.records then phase == if Blocked(s, call.key) then Missed else Admitted
      else if s.records[call.key].merchant != call.merchant then
        phase == if Blocked(s, call.key) then Missed else Finished(KeyTaken)
      else if s.records[call.key].body != call.body then phase == Finished(BodyMismatch)
      else if s.records[call.key].response.Some? then phase == Finished(Replayed(s.records[call.key].response.value))
      else phase == Admitted
  {
    var n := |s.attempts|;
    var s1 := Next(s, Arrive(call));
    var s2 := Next(s1, Look(n));
    assert s1.attempts[n] == Attempt(call, Arrived, NotAdmitted);
    assert s2 == DoLook(s1, n);
    assert WithNewcomer(s, s2, call);
    if s2.attempts[n].phase.Missed? {
      BlockedByOthers(s, s2, call, call.key);
    }
  }

  /**
   * Whatever else is in flight: a request run undisturbed pays exactly when its key has a record of
   * this merchant and body without response, or no record and no insert under way.
   */
  lemma RetryPaysIff(s: Protocol, call: Call)
    ensures PaymentsFor(Serve(s, call), call.key) == PaymentsFor(s, call.key) + (if WillPay(s, call) then 1 else 0)
  {
    var n, s3 := |s.attempts|, Checked(s, call);
    RunFive(s, Arrive(call), Look(n), Reserve(n), CommitPayment(n), CommitResponse(n));
    CheckedPhase(s, call);
    CountAppend(s.payments, Made(call, s3.attempts[n].via), IsFor(call.key));
  }

  // ------------------------------------------------------- when it never pays

  lemma PaymentsOnlyGrow(s: Protocol, e: Event, key: Key)
    ensures PaymentsFor(Next(s, e), key) >= PaymentsFor(s, key)
  {
    if e.CommitPayment? && e.i < |s.attempts| {
      CountAppend(s.payments, Made(s.attempts[e.i].call, s.attempts[e.i].via), IsFor(key));
    }
  }

  lemma {:induction false} RunPaymentsGrow(s: Protocol, more: seq<Event>, key: Key)
    ensures PaymentsFor(Run(s, more), key) >= PaymentsFor(s, key)
  {
    if more != [] {
      RunPaymentsGrow(s, more[..|more| - 1], key);
      PaymentsOnlyGrow(Run(s, more[..|more| - 1]), more[|more| - 1], key);
    }
  }

  /** The key is answered and every request let through for it has paid or ended. */
  predicate Closed(s: Protocol, key: Key) {
    key in s.records && s.records[key].response.Some? && PendingFor(s, key) == 0
  }

  /** From a state reached by `es`, a request that will pay does so, and its record is left without response. */
  lemma PayMore(s: Protocol, es: seq<Event>, call: Call) returns (more: seq<Event>)
    requires WillPay(Run(s, es), call)
    ensures PaymentsFor(Run(s, more), call.key) == PaymentsFor(Run(s, es), call.key) + 1
    ensures WillPay(Run(s, more), call)
  {
    var t := Run(s, es);
    var n := |t.attempts|;
    RunAppend(s, es, Arrive(call));
    RunAppend(s, es + [Arrive(call)], Look(n));
    RunAppend(s, es + [Arrive(call)] + [Look(n)], Reserve(n));
    RunAppend(s, es + [Arrive(call)] + [Look(n)] + [Reserve(n)], CommitPayment(n));
    more := es + [Arrive(call)] + [Look(n)] + [Reserve(n)] + [CommitPayment(n)];
    CheckedPhase(t, call);
    CommitLeavesOpen(t, call);
  }

  lemma CommitLeavesOpen(t: Protocol, call: Call)
    requires WillPay(t, call) && WithNewcomer(t, Checked(t, call), call)
    requires Checked(t, call).attempts[|t.attempts|].phase.Admitted?
    ensures var s' := Next(Checked(t, call), CommitPayment(|t.attempts|));
      PaymentsFor(s', call.key) == PaymentsFor(t, call.key) + 1 && WillPay(s', call)
  {
    var n := |t.attempts|;
    CountAppend(t.payments, Made(call, Checked(t, call).attempts[n].via), IsFor(call.key));
  }

  /** Whoever holds an uncommitted insert of the key may crash; after that nobody holds it. */
  lemma FreeKey(s: Protocol, key: Key) returns (es: seq<Event>)
    requires Reachable(s) && key !in s.records
    ensures key !in Run(s, es).records && !Blocked(Run(s, es), key)
    ensures Run(s, es).payments == s.payments
  {
    es := [];
    if j: nat :| j < |s.attempts| && Holds(s.attempts[j], key) {
      es := [Crash(j)];
      RunAppend(s, [], Crash(j));
      ReachableGood(s);
      forall k | 0 <= k < |s.attempts| && k != j ensures !Holds(s.attempts[k], key) {
        assert Apart(s.attempts[j], s.attempts[k]);
      }
    }
  }

  /** As long as a key is not closed, some continuation adds a payment; a key without payments can get two. */
  lemma UnsettledCanPay(s: Protocol, key: Key) returns (more: seq<Event>)
    requires Reachable(s) && !Closed(s, key)
    ensures PaymentsFor(Run(s, more), key) > PaymentsFor(s, key)
    ensures key !in s.records ==> PaymentsFor(Run(s, more), key) >= 2
  {
    if key !in s.records {
      var call := Call(0, key, Body(1, 0));
      var free := FreeKey(s, key);
      var once := PayMore(s, free, call);
      more := PayMore(s, once, call);
    } else if s.records[key].response.None? {
      var call := Call(s.records[key].merchant, key, s.records[key].body);
      ReachableGood(s);
      assert WillPay(Run(s, []), call);
      more := PayMore(s, [], call);
    } else {
      more := PendingPays(s, key);
    }
  }

  lemma PendingPays(s: Protocol, key: Key) returns (more: seq<Event>)
    requires Reachable(s) && key in s.records && PendingFor(s, key) != 0
    ensures PaymentsFor(Run(s, more), key) > PaymentsFor(s, key)
  {
    CountZeroIff(s.attempts, IsPending(key));
    var i: nat :| i < |s.attempts| && IsPending(key)(s.attempts[i]);
    ReachableGood(s);
    assert AttemptGood(s, s.attempts[i]);
    assert s.records[key].body.amount > 0;
    more := [CommitPayment(i)];
    RunAppend(s, [], CommitPayment(i));
    CountAppend(s.payments, Made(s.attempts[i].call, s.attempts[i].via), IsFor(key));
  }

  /** The payments under a key are final exactly when it is answered and no admitted request is left to pay. */
  lemma PaymentsFinalIff(s: Protocol, key: Key)
    requires Reachable(s)
    ensures (forall more: seq<Event> :: PaymentsFor(Run(s, more), key) == PaymentsFor(s, key)) <==> Closed(s, key)
  {
    if Closed(s, key) {
      forall more: seq<Event> ensures PaymentsFor(Run(s, more), key) == PaymentsFor(s, key) {
        NoNewPaymentsOnceAnswered(s, more, key);
        RunPaymentsGrow(s, more, key);
      }
    } else {
      var more := UnsettledCanPay(s, key);
      assert PaymentsFor(Run(s, more), key) != PaymentsFor(s, key);
    }
  }

  /** A key is safe from a duplicate for ever exactly when it is closed with one payment. */
  lemma NeverPaysTwiceIff(s: Protocol, key: Key)
    requires Reachable(s)
    ensures (forall more: seq<Event> :: PaymentsFor(Run(s, more), key) <= 1)
       <==> Closed(s, key) && PaymentsFor(s, key) == 1
  {
    PaymentsFinalIff(s, key);
    OnePaymentIffNoResumedPayment(s, key);
    if Closed(s, key) && PaymentsFor(s, key) == 1 {
      forall more: seq<Event> ensures PaymentsFor(Run(s, more), key) <= 1 {
        assert PaymentsFor(Run(s, more), key) == PaymentsFor(s, key);
      }
    } else if Closed(s, key) {
      assert PaymentsFor(Run(s, []), key) > 1;
    } else {
      var more := UnsettledCanPay(s, key);
      assert PaymentsFor(Run(s, more), key) > 1;
    }
  }

  /** A retry let through between the two commits of the first request, which then commits its response. */
  function RetryInBetween(call: Call): seq<Event> {
    [Arrive(call), Look(0), Reserve(0), CommitPayment(0), Arrive(call)] + [Look(1)] + [CommitResponse(0)]
  }

  lemma RetryInBetweenState(call: Call)
    requires call.body.amount > 0
    ensures Run(START, RetryInBetween(call)) == Protocol(
      map[call.key := Record(call.merchant, call.body, Some(0))],
      [Made(call, Reserving)],
      [Attempt(call, Finished(NewPayment(0)), Reserving), Attempt(call, Admitted, Resuming)])
  {
    var paid := [Arrive(call), Look(0), Reserve(0), CommitPayment(0), Arrive(call)];
    RunFive(START, Arrive(call), Look(0), Reserve(0), CommitPayment(0), Arrive(call));
    var s2 := Next(Next(START, Arrive(call)), Look(0));
    assert s2.attempts == [Attempt(call, Missed, NotAdmitted)];
    var s3 := Next(s2, Reserve(0));
    assert s3.attempts == [Attempt(call, Admitted, Reserving)];
    assert Run(START, paid).attempts == [Attempt(call, Paid(0), Reserving), Attempt(call, Arrived, NotAdmitted)];
    RunAppend(START, paid, Look(1));
    RunAppend(START, paid + [Look(1)], CommitResponse(0));
  }

  /** A stored response does not make a key final: an admitted retry still pays and then replaces it. */
  lemma AnsweredButNotFinal(call: Call)
    requires call.body.amount > 0
    ensures var s := Run(START, RetryInBetween(call));
      && Reachable(s) && Answered(s, call.key, 0)
      && PaymentsFor(s, call.key) == 1 && PendingFor(s, call.key) == 1
    ensures var s' := Run(START, RetryInBetween(call) + [CommitPayment(1)] + [CommitResponse(1)]);
      && Answered(s', call.key, 1) && PaymentsFor(s', call.key) == 2
      && |s'.attempts| == 2
      && s'.attempts[0].phase == Finished(NewPayment(0)) && s'.attempts[1].phase == Finished(NewPayment(1))
  {
    var s := Run(START, RetryInBetween(call));
    RetryInBetweenState(call);
    assert START == Run(START, []);
    ReachableRun(START, RetryInBetween(call));
    CountAppend([], Made(call, Reserving), IsFor(call.key));
    CountAppend([Made(call, Reserving)], Made(call, Resuming), IsFor(call.key));
    CountAppend([], s.attempts[0], IsPending(call.key));
    CountAppend([s.attempts[0]], s.attempts[1], IsPending(call.key));
    assert [] + [Made(call, Reserving)] == s.payments;
    assert [] + [s.attempts[0]] == [s.attempts[0]] && [s.attempts[0]] + [s.attempts[1]] == s.attempts;
    RunAppend(START, RetryInBetween(call), CommitPayment(1));
    RunAppend(START, RetryInBetween(call) + [CommitPayment(1)], CommitResponse(1));
  }

  // --------------------------------------------------------------- turned away

  lemma NobodyInsertsRecordedKey(s: Protocol, key: Key)
    requires Reachable(s) && key in s.records
    ensures !Blocked(s, key)
  {
    ReachableGood(s);
    forall j | 0 <= j < |s.attempts| ensures !Holds(s.attempts[j], key) {
      assert AttemptGood(s, s.attempts[j]);
    }
  }

  /** An insert is refused exactly when the key has a record by now, whoever it belongs to. */
  lemma KeyTakenIff(s: Protocol, i: nat)
    requires Reachable(s) && i < |s.attempts| && s.attempts[i].phase.Missed?
    ensures Next(s, Reserve(i)).attempts[i].phase == Finished(KeyTaken) <==> s.attempts[i].call.key in s.records
  {
    if s.attempts[i].call.key in s.records {
      NobodyInsertsRecordedKey(s, s.attempts[i].call.key);
    }
  }

  /** An undisturbed request is turned away for its key exactly when another merchant has the key. */
  lemma UndisturbedKeyTakenIff(s: Protocol, call: Call)
    requires Reachable(s)
    ensures var n := |s.attempts|;
      && |Serve(s, call).attempts| == n + 1
      && (Serve(s, call).attempts[n].phase == Finished(KeyTaken)
          <==> call.key in s.records && s.records[call.key].merchant != call.merchant)
  {
    var n := |s.attempts|;
    RunFive(s, Arrive(call), Look(n), Reserve(n), CommitPayment(n), CommitResponse(n));
    CheckedPhase(s, call);
    if call.key in s.records {
      NobodyInsertsRecordedKey(s, call.key);
    }
  }

  /** Two copies of a request, up to the insert of the first. */
  function BothLooked(call: Call): seq<Event> {
    [Arrive(call), Arrive(call), Look(0), Look(1), Reserve(0)]
  }

  lemma BothLookedState(call: Call)
    ensures Run(START, BothLooked(call)) ==
      Protocol(map[], [], [Attempt(call, Admitted, Reserving), Attempt(call, Missed, NotAdmitted)])
  {
    RunFive(START, Arrive(call), Arrive(call), Look(0), Look(1), Reserve(0));
    var s2 := Next(Next(START, Arrive(call)), Arrive(call));
    assert s2.attempts == [Attempt(call, Arrived, NotAdmitted), Attempt(call, Arrived, NotAdmitted)];
    var s4 := Next(Next(s2, Look(0)), Look(1));
    assert s4.attempts == [Attempt(call, Missed, NotAdmitted), Attempt(call, Missed, NotAdmitted)];
  }

  /** Two copies of a request that both look the key up before either has inserted it. */
  lemma RacingCopyIsTurnedAway(call: Call)
    requires call.body.amount > 0
    ensures var s := Run(START, BothLooked(call) + [CommitPayment(0)] + [Reserve(1)]);
      && s.records == map[call.key := Record(call.merchant, call.body, None)]
      && s.attempts == [Attempt(call, Paid(0), Reserving), Attempt(call, Finished(KeyTaken), NotAdmitted)]
  {
    BothLookedState(call);
    RunAppend(START, BothLooked(call), CommitPayment(0));
    RunAppend(START, BothLooked(call) + [CommitPayment(0)], Reserve(1));
  }
}
