/**
 * Idempotent payment creation as a machine of small steps. Every request looks its key up, may
 * reserve it, commits the payment and then commits the response; the steps of any number of
 * requests interleave, and each request may crash before any of its steps.
 */
module Idempotency {
  import opened Types
  import opened Sums

  type Key = nat

  /** The amount asked for and everything else in the body, which also stand for the body's collision-free hash. */
  datatype Body = Body(amount: int, rest: nat)

  datatype Call = Call(merchant: MerchantId, key: Key, body: Body)

  /** A committed row. The key is unique over all merchants; the response is the created payment. */
  datatype Record = Record(merchant: MerchantId, body: Body, response: Option<PaymentId>)

  /** Whether a request was let through to the route, and on which branch. */
  datatype Admission = NotAdmitted | Reserving | Resuming

  datatype Reply =
    | NewPayment(payment: PaymentId)
    | Replayed(payment: PaymentId)
    | BodyMismatch      // the key was used with another body
    | KeyTaken          // the unique key refused the insert
    | RefusedBody       // admitted, but the amount is not positive
    | Crashed

  datatype Phase =
    | Arrived               // nothing done yet
    | Missed                // the lookup found no record
    | Admitted              // holds its own uncommitted record, or an existing one without response
    | Paid(paid: PaymentId) // the payment is committed, the response is not
    | Finished(reply: Reply)

  datatype Attempt = Attempt(call: Call, phase: Phase, via: Admission)

  /** A committed payment, remembered with the request that made it. */
  datatype Made = Made(call: Call, via: Admission)

  datatype Protocol = Protocol(records: map<Key, Record>, payments: seq<Made>, attempts: seq<Attempt>)

  const START := Protocol(map[], [], [])

  datatype Event =
    | Arrive(call: Call)
    | Look(i: nat)
    | Reserve(i: nat)
    | CommitPayment(i: nat)
    | CommitResponse(i: nat)
    | Crash(i: nat)

  function Become(s: Protocol, i: nat, phase: Phase, via: Admission): Protocol
    requires i < |s.attempts|
  {
    s.(attempts := s.attempts[i := s.attempts[i].(phase := phase, via := via)])
  }

  predicate Holds(a: Attempt, key: Key) {
    a.phase.Admitted? && a.via.Reserving? && a.call.key == key
  }

  /** Another transaction has inserted the key and not yet committed: the unique index makes inserters wait. */
  predicate Blocked(s: Protocol, key: Key) {
    exists j :: 0 <= j < |s.attempts| && Holds(s.attempts[j], key)
  }

  /** Lookup by merchant and key, then: reject another body, replay a response, or resume. */
  function DoLook(s: Protocol, i: nat): Protocol
    requires i < |s.attempts|
  {
    var a := s.attempts[i];
    var c := a.call;
    if c.key in s.records && s.records[c.key].merchant == c.merchant then
      var record := s.records[c.key];
      if record.body != c.body then Become(s, i, Finished(BodyMismatch), a.via)
      else if record.response.Some? then Become(s, i, Finished(Replayed(record.response.value)), a.via)
      else Become(s, i, Admitted, Resuming)
    else Become(s, i, Missed, a.via)
  }

  function DoReserve(s: Protocol, i: nat): Protocol
    requires i < |s.attempts|
  {
    var a := s.attempts[i];
    if Blocked(s, a.call.key) then s
    else if a.call.key in s.records then Become(s, i, Finished(KeyTaken), a.via)
    else Become(s, i, Admitted, Reserving)
  }

  /**
   * The route: a body without a positive amount is refused and the reservation rolled back. Otherwise
   * the first commit: the payment, together with the record when this request inserted it.
   */
  function DoCommitPayment(s: Protocol, i: nat): Protocol
    requires i < |s.attempts|
  {
    var a := s.attempts[i];
    var c := a.call;
    if c.body.amount <= 0 then Become(s, i, Finished(RefusedBody), a.via)
    else
      var records := if a.via.Reserving? then s.records[c.key := Record(c.merchant, c.body, None)] else s.records;
      Become(s, i, Paid(|s.payments|), a.via).(records := records, payments := s.payments + [Made(c, a.via)])
  }

  /** The second commit: whoever saves last has its response stored. */
  function DoCommitResponse(s: Protocol, i: nat): Protocol
    requires i < |s.attempts| && s.attempts[i].phase.Paid?
  {
    var a := s.attempts[i];
    var key, p := a.call.key, a.phase.paid;
    if key in s.records then
      Become(s, i, Finished(NewPayment(p)), a.via).(records := s.records[key := s.records[key].(response := Some(p))])
    else s
  }

  /** An event that is not enabled changes nothing. */
  function Next(s: Protocol, e: Event): Protocol {
    match e
    case Arrive(call) => s.(attempts := s.attempts + [Attempt(call, Arrived, NotAdmitted)])
    case Look(i) => if i < |s.attempts| && s.attempts[i].phase.Arrived? then DoLook(s, i) else s
    case Reserve(i) => if i < |s.attempts| && s.attempts[i].phase.Missed? then DoReserve(s, i) else s
    case CommitPayment(i) => if i < |s.attempts| && s.attempts[i].phase.Admitted? then DoCommitPayment(s, i) else s
    case CommitResponse(i) => if i < |s.attempts| && s.attempts[i].phase.Paid? then DoCommitResponse(s, i) else s
    case Crash(i) =>
      if i < |s.attempts| && !s.attempts[i].phase.Finished?
      then Become(s, i, Finished(Crashed), s.attempts[i].via) else s
  }

  function Run(s: Protocol, es: seq<Event>): Protocol {
    if es == [] then s else Next(Run(s, es[..|es| - 1]), es[|es| - 1])
  }

  lemma RunAppend(s: Protocol, es: seq<Event>, e: Event)
    ensures Run(s, es + [e]) == Next(Run(s, es), e)
    ensures Run(s, [e]) == Next(s, e)
  {
    assert (es + [e])[..|es|] == es;
    assert [e][..0] == [];
  }

  // --------------------------------------------------------------- invariant

  /** What holds of each attempt. */
  ghost predicate AttemptGood(s: Protocol, a: Attempt) {
    var c := a.call;
    match a.phase
    case Arrived | Missed => a.via.NotAdmitted?
    case Admitted =>
      && !a.via.NotAdmitted?
      && (a.via.Reserving? ==> c.key !in s.records)
      && (a.via.Resuming? ==> RecordMatches(s, c))
    case Paid(p) =>
      && !a.via.NotAdmitted?
      && RecordMatches(s, c)
      && p < |s.payments| && s.payments[p] == Made(c, a.via)
      && s.records[c.key].response != Some(p)
    case Finished(NewPayment(p)) => !a.via.NotAdmitted? && p < |s.payments| && s.payments[p] == Made(c, a.via)
    case Finished(Replayed(p)) => a.via.NotAdmitted? && p < |s.payments| && s.payments[p].call == c
    case Finished(_) => true
  }

  ghost predicate RecordMatches(s: Protocol, c: Call) {
    c.key in s.records && s.records[c.key].merchant == c.merchant && s.records[c.key].body == c.body
  }

  /** Two requests never hold the same uncommitted key, nor owe the response of the same payment. */
  ghost predicate Apart(a: Attempt, b: Attempt) {
    && !(a.phase.Admitted? && a.via.Reserving? && Holds(b, a.call.key))
    && !(a.phase.Paid? && b.phase == a.phase)
  }

  ghost predicate AttemptsGood(s: Protocol) {
    && (forall i :: 0 <= i < |s.attempts| ==> AttemptGood(s, s.attempts[i]))
    && (forall i, j :: 0 <= i < |s.attempts| && 0 <= j < |s.attempts| && i != j ==> Apart(s.attempts[i], s.attempts[j]))
  }

  ghost predicate RecordsGood(s: Protocol) {
    && (forall p :: 0 <= p < |s.payments| ==> RecordMatches(s, s.payments[p].call) && !s.payments[p].via.NotAdmitted?)
    && (forall k | k in s.records :: s.records[k].body.amount > 0)
    && (forall k | k in s.records && s.records[k].response.Some? ::
          var p := s.records[k].response.value;
          p < |s.payments| && s.payments[p].call == Call(s.records[k].merchant, k, s.records[k].body))
  }

  function IsMade(key: Key, via: Admission): Made -> bool {
    (m: Made) => m.call.key == key && m.via == via
  }

  function IsFor(key: Key): Made -> bool {
    (m: Made) => m.call.key == key
  }

  function IsPending(key: Key): Attempt -> bool {
    (a: Attempt) => a.call.key == key && a.phase.Admitted?
  }

  function IsAdmitted(key: Key): Attempt -> bool {
    (a: Attempt) => a.call.key == key && !a.via.NotAdmitted?
  }

  ghost predicate CountsGood(s: Protocol, key: Key) {
    && Count(s.payments, IsMade(key, Reserving)) == (if key in s.records then 1 else 0)
    && Count(s.payments, IsFor(key))
       == Count(s.payments, IsMade(key, Reserving)) + Count(s.payments, IsMade(key, Resuming))
    && Count(s.payments, IsFor(key)) + Count(s.attempts, IsPending(key)) <= Count(s.attempts, IsAdmitted(key))
  }

  ghost predicate Good(s: Protocol) {
    && AttemptsGood(s)
    && RecordsGood(s)
    && forall k: Key :: CountsGood(s, k)
  }

  lemma CountsKeep(s: Protocol, i: nat, a: Attempt, key: Key)
    requires i < |s.attempts| && a.call == s.attempts[i].call
    ensures var after := s.attempts[i := a];
      && Count(after, IsPending(key)) + (if IsPending(key)(s.attempts[i]) then 1 else 0)
         == Count(s.attempts, IsPending(key)) + (if IsPending(key)(a) then 1 else 0)
      && Count(after, IsAdmitted(key)) + (if IsAdmitted(key)(s.attempts[i]) then 1 else 0)
         == Count(s.attempts, IsAdmitted(key)) + (if IsAdmitted(key)(a) then 1 else 0)
  {
    CountUpdate(s.attempts, i, a, IsPending(key));
    CountUpdate(s.attempts, i, a, IsAdmitted(key));
  }

  lemma BecomeCounts(s: Protocol, i: nat, phase: Phase, via: Admission, key: Key)
    requires i < |s.attempts| && AttemptGood(s, s.attempts[i]) && CountsGood(s, key)
    requires phase.Admitted? ==> s.attempts[i].via.NotAdmitted? && !via.NotAdmitted?
    requires !s.attempts[i].via.NotAdmitted? ==> via == s.attempts[i].via
    ensures CountsGood(Become(s, i, phase, via), key)
  {
    CountsKeep(s, i, s.attempts[i].(phase := phase, via := via), key);
  }

  lemma CommitCounts(s: Protocol, i: nat, key: Key)
    requires i < |s.attempts| && AttemptGood(s, s.attempts[i]) && CountsGood(s, key)
    requires s.attempts[i].phase.Admitted? && s.attempts[i].call.body.amount > 0
    ensures CountsGood(DoCommitPayment(s, i), key)
  {
    var a := s.attempts[i];
    CountsKeep(s, i, a.(phase := Paid(|s.payments|)), key);
    CountAppend(s.payments, Made(a.call, a.via), IsMade(key, Reserving));
    CountAppend(s.payments, Made(a.call, a.via), IsMade(key, Resuming));
    CountAppend(s.payments, Made(a.call, a.via), IsFor(key));
  }

  lemma NextCounts(s: Protocol, e: Event, key: Key)
    requires !e.Arrive? && e.i < |s.attempts| ==> AttemptGood(s, s.attempts[e.i])
    requires CountsGood(s, key)
    ensures CountsGood(Next(s, e), key)
  {
    match e
    case Arrive(call) =>
      CountAppend(s.attempts, Attempt(call, Arrived, NotAdmitted), IsPending(key));
      CountAppend(s.attempts, Attempt(call, Arrived, NotAdmitted), IsAdmitted(key));
    case CommitPayment(i) =>
      if i < |s.attempts| && s.attempts[i].phase.Admitted? {
        if s.attempts[i].call.body.amount <= 0 {
          BecomeCounts(s, i, Finished(RefusedBody), s.attempts[i].via, key);
        } else {
          CommitCounts(s, i, key);
        }
      }
    case CommitResponse(i) =>
      if i < |s.attempts| && s.attempts[i].phase.Paid? {
        BecomeCounts(s, i, Finished(NewPayment(s.attempts[i].phase.paid)), s.attempts[i].via, key);
      }
    case Crash(i) =>
      if i < |s.attempts| {
        BecomeCounts(s, i, Finished(Crashed), s.attempts[i].via, key);
      }
    case Look(i) =>
      if i < |s.attempts| && s.attempts[i].phase.Arrived? {
        var a := DoLook(s, i).attempts[i];
        BecomeCounts(s, i, a.phase, a.via, key);
      }
    case Reserve(i) =>
      if i < |s.attempts| && s.attempts[i].phase.Missed? && !Blocked(s, s.attempts[i].call.key) {
        var a := DoReserve(s, i).attempts[i];
        BecomeCounts(s, i, a.phase, a.via, key);
      }
  }

  /** The attempts an event does not name stay good: they hold other keys and owe other responses. */
  lemma OthersStayGood(s: Protocol, e: Event, b: Attempt)
    requires AttemptGood(s, b)
    requires !e.Arrive? && e.i < |s.attempts| ==> AttemptGood(s, s.attempts[e.i]) && Apart(b, s.attempts[e.i])
    ensures AttemptGood(Next(s, e), b)
  {
  }

  lemma NamedStaysGood(s: Protocol, e: Event)
    requires RecordsGood(s) && !e.Arrive? && e.i < |s.attempts| && AttemptGood(s, s.attempts[e.i])
    ensures AttemptGood(Next(s, e), Next(s, e).attempts[e.i])
  {
  }

  lemma StaysApart(s: Protocol, e: Event, b: Attempt)
    requires b in s.attempts && !e.Arrive? && e.i < |s.attempts|
    requires AttemptGood(s, b) && Apart(b, s.attempts[e.i])
    ensures Apart(b, Next(s, e).attempts[e.i]) && Apart(Next(s, e).attempts[e.i], b)
  {
  }

  lemma NextAttemptGood(s: Protocol, e: Event, j: nat)
    requires AttemptsGood(s) && RecordsGood(s) && j < |Next(s, e).attempts|
    ensures AttemptGood(Next(s, e), Next(s, e).attempts[j])
  {
    if j < |s.attempts| {
      assert AttemptGood(s, s.attempts[j]);
      if !e.Arrive? && e.i == j {
        NamedStaysGood(s, e);
      } else {
        assert !e.Arrive? && e.i < |s.attempts| ==> Apart(s.attempts[j], s.attempts[e.i]);
        OthersStayGood(s, e, s.attempts[j]);
      }
    }
  }

  lemma NextApart(s: Protocol, e: Event, i: nat, j: nat)
    requires AttemptsGood(s) && i < |Next(s, e).attempts| && j < |Next(s, e).attempts| && i != j
    ensures Apart(Next(s, e).attempts[i], Next(s, e).attempts[j])
  {
    if i < |s.attempts| && j < |s.attempts| {
      assert Apart(s.attempts[i], s.attempts[j]) && Apart(s.attempts[j], s.attempts[i]);
      if !e.Arrive? && e.i == i {
        StaysApart(s, e, s.attempts[j]);
      } else if !e.Arrive? && e.i == j {
        StaysApart(s, e, s.attempts[i]);
      }
    }
  }

  lemma NextAttempts(s: Protocol, e: Event)
    requires AttemptsGood(s) && RecordsGood(s)
    ensures AttemptsGood(Next(s, e))
  {
    forall j: nat | j < |Next(s, e).attempts| ensures AttemptGood(Next(s, e), Next(s, e).attempts[j]) {
      NextAttemptGood(s, e, j);
    }
    forall i: nat, j: nat | i < |Next(s, e).attempts| && j < |Next(s, e).attempts| && i != j
      ensures Apart(Next(s, e).attempts[i], Next(s, e).attempts[j])
    {
      NextApart(s, e, i, j);
    }
  }

  lemma CommitPaymentRecords(s: Protocol, i: nat)
    requires i < |s.attempts| && s.attempts[i].phase.Admitted? && AttemptGood(s, s.attempts[i])
    requires RecordsGood(s)
    ensures RecordsGood(DoCommitPayment(s, i))
  {
  }

  lemma CommitResponseRecords(s: Protocol, i: nat)
    requires i < |s.attempts| && s.attempts[i].phase.Paid? && AttemptGood(s, s.attempts[i])
    requires RecordsGood(s)
    ensures RecordsGood(DoCommitResponse(s, i))
  {
  }

  lemma NextRecords(s: Protocol, e: Event)
    requires !e.Arrive? && e.i < |s.attempts| ==> AttemptGood(s, s.attempts[e.i])
    requires RecordsGood(s)
    ensures RecordsGood(Next(s, e))
  {
    if Next(s, e).records != s.records || Next(s, e).payments != s.payments {
      if e.CommitPayment? {
        CommitPaymentRecords(s, e.i);
      } else {
        CommitResponseRecords(s, e.i);
      }
    }
  }

  lemma {:induction false} RunGood(es: seq<Event>)
    ensures Good(Run(START, es))
  {
    if es != [] {
      var s, e := Run(START, es[..|es| - 1]), es[|es| - 1];
      RunGood(es[..|es| - 1]);
      NextAttempts(s, e);
      NextRecords(s, e);
      forall k: Key ensures CountsGood(Next(s, e), k) {
        assert CountsGood(s, k);
        NextCounts(s, e, k);
      }
    }
  }

  ghost predicate Reachable(s: Protocol) {
    exists es: seq<Event> :: s == Run(START, es)
  }

  lemma ReachableGood(s: Protocol)
    requires Reachable(s)
    ensures Good(s)
  {
    var es: seq<Event> :| s == Run(START, es);
    RunGood(es);
  }

  lemma ReachableNext(s: Protocol, e: Event)
    requires Reachable(s)
    ensures Reachable(Next(s, e))
  {
    var es: seq<Event> :| s == Run(START, es);
    RunAppend(START, es, e);
  }

  lemma {:induction false} ReachableRun(s: Protocol, more: seq<Event>)
    requires Reachable(s)
    ensures Reachable(Run(s, more))
  {
    if more != [] {
      ReachableRun(s, more[..|more| - 1]);
      ReachableNext(Run(s, more[..|more| - 1]), more[|more| - 1]);
    }
  }
}
