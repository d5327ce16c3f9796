/** What the key guarantees when requests interleave and crash, and exactly where the guarantee stops. */
module IdempotencyLaws {
  import opened Types
  import opened Sums
  import opened Idempotency

  function PaymentsFor(s: Protocol, key: Key): nat {
    Count(s.payments, IsFor(key))
  }

  /** Requests let through to the route for this key. */
  function AdmittedFor(s: Protocol, key: Key): nat {
    Count(s.attempts, IsAdmitted(key))
  }

  /** Of these, the ones whose payment may still come. */
  function PendingFor(s: Protocol, key: Key): nat {
    Count(s.attempts, IsPending(key))
  }

  function ResumedPaymentsFor(s: Protocol, key: Key): nat {
    Count(s.payments, IsMade(key, Resuming))
  }

  /** Each admitted request makes at most one payment, whatever interleaves and whatever crashes. */
  lemma PaymentsBoundedByAdmissions(s: Protocol, key: Key)
    requires Reachable(s)
    ensures PaymentsFor(s, key) + PendingFor(s, key) <= AdmittedFor(s, key)
  {
    ReachableGood(s);
    assert CountsGood(s, key);
  }

  /** A request is admitted only while its key has no committed response. */
  lemma AdmittedOnlyWithoutResponse(s: Protocol, e: Event, key: Key)
    requires AdmittedFor(Next(s, e), key) != AdmittedFor(s, key)
    ensures key !in s.records || s.records[key].response.None?
  {
    if !e.Arrive? && e.i < |s.attempts| {
      CountsKeep(s, e.i, Next(s, e).attempts[e.i], key);
    }
    if e.Arrive? {
      CountAppend(s.attempts, Attempt(e.call, Arrived, NotAdmitted), IsAdmitted(key));
    }
  }

  /**
   * Exactly one payment per committed record comes from the request that reserved the key; all
   * others come from requests that resumed it. So a key has at most one payment exactly when no
   * resumed request got its payment committed.
   */
  lemma OnePaymentIffNoResumedPayment(s: Protocol, key: Key)
    requires Reachable(s)
    ensures PaymentsFor(s, key) == if key in s.records then 1 + ResumedPaymentsFor(s, key) else 0
    ensures PaymentsFor(s, key) <= 1
       <==> forall p :: 0 <= p < |s.payments| && s.payments[p].call.key == key ==> s.payments[p].via == Reserving
  {
    ReachableGood(s);
    assert CountsGood(s, key);
    CountZeroIff(s.payments, IsMade(key, Resuming));
    CountZeroIff(s.payments, IsFor(key));
    forall p | 0 <= p < |s.payments| && s.payments[p].call.key == key
      ensures s.payments[p].via == Reserving <==> !IsMade(key, Resuming)(s.payments[p])
      ensures key in s.records
    {
      assert RecordMatches(s, s.payments[p].call);
    }
    if ResumedPaymentsFor(s, key) != 0 && key !in s.records {
      assert false;
    }
    assert ResumedPaymentsFor(s, key) == 0 <==>
      forall p :: 0 <= p < |s.payments| && s.payments[p].call.key == key ==> s.payments[p].via == Reserving;
  }

  /** A key belongs for ever to one merchant and one body: all its payments and replays are theirs. */
  lemma KeyNamesOneCall(s: Protocol, key: Key)
    requires Reachable(s)
    ensures forall p, q | 0 <= p < |s.payments| && 0 <= q < |s.payments| ::
      s.payments[p].call.key == key == s.payments[q].call.key ==> s.payments[p].call == s.payments[q].call
    ensures forall i :: 0 <= i < |s.attempts| && s.attempts[i].phase.Finished? ==>
      match s.attempts[i].phase.reply
      case NewPayment(p) => p < |s.payments| && s.payments[p].call == s.attempts[i].call
      case Replayed(p) => p < |s.payments| && s.payments[p].call == s.attempts[i].call
      case _ => true
  {
    ReachableGood(s);
    forall i | 0 <= i < |s.attempts| && s.attempts[i].phase.Finished?
      ensures match s.attempts[i].phase.reply
        case NewPayment(p) => p < |s.payments| && s.payments[p].call == s.attempts[i].call
        case Replayed(p) => p < |s.payments| && s.payments[p].call == s.attempts[i].call
        case _ => true
    {
      assert AttemptGood(s, s.attempts[i]);
    }
  }

  // -------------------------------------------------------- after the response

  /** With a stored response no event admits a request, and a payment uses up a pending one. */
  lemma AnsweredStep(s: Protocol, e: Event, key: Key)
    requires key in s.records && s.records[key].response.Some?
    requires !e.Arrive? && e.i < |s.attempts| ==> AttemptGood(s, s.attempts[e.i])
    ensures var s' := Next(s, e);
      && key in s'.records && s'.records[key].response.Some?
      && PaymentsFor(s', key) + PendingFor(s', key) <= PaymentsFor(s, key) + PendingFor(s, key)
  {
    if e.Arrive? {
      CountAppend(s.attempts, Attempt(e.call, Arrived, NotAdmitted), IsPending(key));
    } else if e.i < |s.attempts| {
      CountsKeep(s, e.i, Next(s, e).attempts[e.i], key);
      if e.CommitPayment? && s.attempts[e.i].phase.Admitted? {
        CountAppend(s.payments, Made(s.attempts[e.i].call, s.attempts[e.i].via), IsFor(key));
      }
    }
  }

  lemma ReachableAnsweredStep(s: Protocol, e: Event, key: Key)
    requires Reachable(s) && key in s.records && s.records[key].response.Some?
    ensures var s' := Next(s, e);
      && key in s'.records && s'.records[key].response.Some?
      && PaymentsFor(s', key) + PendingFor(s', key) <= PaymentsFor(s, key) + PendingFor(s, key)
  {
    ReachableGood(s);
    AnsweredStep(s, e, key);
  }

  /** Once a response is committed, only requests that were already admitted can add payments for the key. */
  lemma {:induction false} NoNewPaymentsOnceAnswered(s: Protocol, more: seq<Event>, key: Key)
    requires Reachable(s) && key in s.records && s.records[key].response.Some?
    ensures var s' := Run(s, more);
      && key in s'.records && s'.records[key].response.Some?
      && PaymentsFor(s', key) + PendingFor(s', key) <= PaymentsFor(s, key) + PendingFor(s, key)
  {
    if more != [] {
      NoNewPaymentsOnceAnswered(s, more[..|more| - 1], key);
      ReachableRun(s, more[..|more| - 1]);
      ReachableAnsweredStep(Run(s, more[..|more| - 1]), more[|more| - 1], key);
    }
  }

  /** No request of this key is between its admission and its end. */
  ghost predicate Quiet(s: Protocol, key: Key) {
    forall i :: 0 <= i < |s.attempts| && s.attempts[i].call.key == key ==>
      !s.attempts[i].phase.Admitted? && !s.attempts[i].phase.Paid?
  }

  ghost predicate Answered(s: Protocol, key: Key, p: PaymentId) {
    key in s.records && s.records[key].response == Some(p)
  }

  lemma {:induction false} QuietStays(s: Protocol, more: seq<Event>, key: Key, p: PaymentId)
    requires Answered(s, key, p) && Quiet(s, key)
    ensures Answered(Run(s, more), key, p) && Quiet(Run(s, more), key)
  {
    if more != [] {
      QuietStays(s, more[..|more| - 1], key, p);
    }
  }

  /** A stored response is final exactly when no admitted request of its key is still running. */
  lemma ResponseFinalIffQuiet(s: Protocol, key: Key, p: PaymentId)
    requires Reachable(s) && Answered(s, key, p)
    ensures (forall more: seq<Event> :: Answered(Run(s, more), key, p)) <==> Quiet(s, key)
  {
    if Quiet(s, key) {
      forall more: seq<Event> ensures Answered(Run(s, more), key, p) {
        QuietStays(s, more, key, p);
      }
    } else {
      var i :| 0 <= i < |s.attempts| && s.attempts[i].call.key == key
        && (s.attempts[i].phase.Admitted? || s.attempts[i].phase.Paid?);
      var more := OverwritingRun(s, i, key, p);
      assert !Answered(Run(s, more), key, p);
    }
  }

  lemma OverwritingRun(s: Protocol, i: nat, key: Key, p: PaymentId) returns (more: seq<Event>)
    requires Reachable(s) && Answered(s, key, p)
    requires i < |s.attempts| && s.attempts[i].call.key == key
    requires s.attempts[i].phase.Admitted? || s.attempts[i].phase.Paid?
    ensures !Answered(Run(s, more), key, p)
  {
    ReachableGood(s);
    assert AttemptGood(s, s.attempts[i]);
    var pay, answer := CommitPayment(i), CommitResponse(i);
    if s.attempts[i].phase.Paid? {
      more := [answer];
      assert more[..0] == [];
    } else {
      assert RecordMatches(s, s.attempts[i].call);
      more := [pay, answer];
      assert more[..1] == [pay] && [pay][..0] == [];
      assert Run(s, [pay]) == Next(s, pay);
    }
  }

  // ------------------------------------------------------- whose payment it is

  ghost predicate OwnerGood(s: Protocol, p: PaymentId, i: nat)
    requires p < |s.payments|
  {
    && i < |s.attempts|
    && s.attempts[i].call == s.payments[p].call && s.attempts[i].via == s.payments[p].via
    && s.attempts[i].phase in {Paid(p), Finished(NewPayment(p)), Finished(Crashed)}
  }

  /** A request that owes or gave a payment as its answer is the one the payment belongs to. */
  ghost predicate ClaimGood(a: Attempt, i: nat, owners: seq<nat>) {
    match a.phase
    case Paid(p) => p < |owners| && owners[p] == i
    case Finished(NewPayment(p)) => p < |owners| && owners[p] == i
    case _ => true
  }

  ghost predicate Owners(s: Protocol, owners: seq<nat>) {
    && |owners| == |s.payments|
    && (forall p :: 0 <= p < |owners| ==> OwnerGood(s, p, owners[p]))
    && (forall p, q :: 0 <= p < q < |owners| ==> owners[p] != owners[q])
    && (forall i :: 0 <= i < |s.attempts| ==> ClaimGood(s.attempts[i], i, owners))
  }

  function OwnersAfter(s: Protocol, owners: seq<nat>, e: Event): seq<nat> {
    if |Next(s, e).payments| > |s.payments| && !e.Arrive? then owners + [e.i] else owners
  }

  lemma OwnerStays(s: Protocol, e: Event, p: PaymentId, i: nat)
    requires p < |s.payments| && OwnerGood(s, p, i)
    ensures p < |Next(s, e).payments| && OwnerGood(Next(s, e), p, i)
  {
  }

  lemma ClaimStays(s: Protocol, owners: seq<nat>, e: Event, i: nat)
    requires |owners| == |s.payments| && i < |Next(s, e).attempts|
    requires i < |s.attempts| ==> ClaimGood(s.attempts[i], i, owners)
    ensures ClaimGood(Next(s, e).attempts[i], i, OwnersAfter(s, owners, e))
  {
  }

  lemma NextOwners(s: Protocol, owners: seq<nat>, e: Event)
    requires Owners(s, owners)
    ensures Owners(Next(s, e), OwnersAfter(s, owners, e))
  {
    var s', owners' := Next(s, e), OwnersAfter(s, owners, e);
    forall p: PaymentId | p < |owners'| ensures OwnerGood(s', p, owners'[p]) {
      if p < |owners| {
        OwnerStays(s, e, p, owners[p]);
      }
    }
    forall p, q | 0 <= p < q < |owners'| ensures owners'[p] != owners'[q] {
      if q == |owners| {
        assert OwnerGood(s, p, owners[p]);
      }
    }
    forall i: nat | i < |s'.attempts| ensures ClaimGood(s'.attempts[i], i, owners') {
      ClaimStays(s, owners, e, i);
    }
  }

  lemma {:induction false} RunOwners(es: seq<Event>) returns (owners: seq<nat>)
    ensures Owners(Run(START, es), owners)
  {
    if es == [] {
      owners := [];
    } else {
      var before := RunOwners(es[..|es| - 1]);
      NextOwners(Run(START, es[..|es| - 1]), before, es[|es| - 1]);
      owners := OwnersAfter(Run(START, es[..|es| - 1]), before, es[|es| - 1]);
    }
  }

  /**
   * However requests interleave and crash, each payment belongs to exactly one of them, which made the
   * call the payment is for and either still owes its response, or was answered with it, or crashed.
   */
  lemma EveryPaymentIsAnswered(s: Protocol) returns (owners: seq<nat>)
    requires Reachable(s)
    ensures |owners| == |s.payments|
    ensures forall p, q :: 0 <= p < q < |owners| ==> owners[p] != owners[q]
    ensures forall p :: 0 <= p < |owners| ==>
      && owners[p] < |s.attempts|
      && s.attempts[owners[p]].call == s.payments[p].call
      && s.attempts[owners[p]].phase in {Paid(p), Finished(NewPayment(p)), Finished(Crashed)}
    ensures forall i :: 0 <= i < |s.attempts| ==>
      match s.attempts[i].phase case Finished(NewPayment(p)) => p < |owners| && owners[p] == i case _ => true
  {
    var es: seq<Event> :| s == Run(START, es);
    owners := RunOwners(es);
    forall p | 0 <= p < |owners|
      ensures owners[p] < |s.attempts|
      ensures s.attempts[owners[p]].call == s.payments[p].call
      ensures s.attempts[owners[p]].phase in {Paid(p), Finished(NewPayment(p)), Finished(Crashed)}
    {
      assert OwnerGood(s, p, owners[p]);
    }
    forall i: nat | i < |s.attempts|
      ensures match s.attempts[i].phase case Finished(NewPayment(p)) => p < |owners| && owners[p] == i case _ => true
    {
      assert ClaimGood(s.attempts[i], i, owners);
    }
  }

  ghost predicate Given(s: Protocol, p: PaymentId) {
    exists i :: 0 <= i < |s.attempts| && s.attempts[i].phase == Finished(NewPayment(p))
  }

  lemma GivenStays(s: Protocol, e: Event, p: PaymentId)
    requires Given(s, p)
    ensures Given(Next(s, e), p)
  {
    var i :| 0 <= i < |s.attempts| && s.attempts[i].phase == Finished(NewPayment(p));
    assert Next(s, e).attempts[i].phase == Finished(NewPayment(p));
  }

  lemma NewResponseIsGiven(s: Protocol, e: Event, key: Key, p: PaymentId)
    requires Answered(Next(s, e), key, p) && !Answered(s, key, p)
    ensures Given(Next(s, e), p)
  {
    assert !e.Arrive? && e.i < |s.attempts|;
    assert Next(s, e).attempts[e.i].phase == Finished(NewPayment(p));
  }

  lemma {:induction false} RunResponsesGiven(es: seq<Event>, key: Key, p: PaymentId)
    requires Answered(Run(START, es), key, p)
    ensures Given(Run(START, es), p)
  {
    if es != [] {
      var s, e := Run(START, es[..|es| - 1]), es[|es| - 1];
      if Answered(s, key, p) {
        RunResponsesGiven(es[..|es| - 1], key, p);
        GivenStays(s, e, p);
      } else {
        NewResponseIsGiven(s, e, key, p);
      }
    }
  }

  /** What is stored and replayed was the answer to some request: a crash never stores a response. */
  lemma StoredResponseWasGiven(s: Protocol, key: Key, p: PaymentId)
    requires Reachable(s) && Answered(s, key, p)
    ensures exists i :: 0 <= i < |s.attempts| && s.attempts[i].phase == Finished(NewPayment(p))
  {
    var es: seq<Event> :| s == Run(START, es);
    RunResponsesGiven(es, key, p);
  }
}
