/** Requests served one after the other: the machine then is a plain map from keys to first requests. */
module IdempotencySerial {
  import opened Types
  import opened Idempotency

  /** One request run through all its steps with nothing in between. */
  function Serve(s: Protocol, call: Call): Protocol {
    var n := |s.attempts|;
    Run(s, [Arrive(call), Look(n), Reserve(n), CommitPayment(n), CommitResponse(n)])
  }

  function ServeAll(calls: seq<Call>): Protocol {
    if calls == [] then START else Serve(ServeAll(calls[..|calls| - 1]), calls[|calls| - 1])
  }

  lemma ServeReachable(s: Protocol, call: Call)
    requires Reachable(s)
    ensures Reachable(Serve(s, call))
  {
    var n := |s.attempts|;
    ReachableRun(s, [Arrive(call), Look(n), Reserve(n), CommitPayment(n), CommitResponse(n)]);
  }

  /** Serving one after the other is one of the interleavings, so every law of the machine holds of it. */
  lemma {:induction false} SerialIsReachable(calls: seq<Call>)
    ensures Reachable(ServeAll(calls))
  {
    if calls == [] {
      assert START == Run(START, []);
    } else {
      SerialIsReachable(calls[..|calls| - 1]);
      ServeReachable(ServeAll(calls[..|calls| - 1]), calls[|calls| - 1]);
    }
  }

  ghost predicate Idle(s: Protocol) {
    forall i :: 0 <= i < |s.attempts| ==> s.attempts[i].phase.Finished?
  }

  /** What one undisturbed request does to the committed records and the number of payments. */
  datatype Served = Served(records: map<Key, Record>, payments: nat, reply: Reply)

  /** What the check before the route answers, read off the record the key has. */
  function Verdict(records: map<Key, Record>, c: Call): Option<Reply> {
    if c.key !in records then None
    else
      var record := records[c.key];
      if record.merchant != c.merchant then Some(KeyTaken)
      else if record.body != c.body then Some(BodyMismatch)
      else if record.response.Some? then Some(Replayed(record.response.value))
      else None
  }

  function Route(records: map<Key, Record>, payments: nat, c: Call): Served {
    var verdict := Verdict(records, c);
    if verdict.Some? then Served(records, payments, verdict.value)
    else if c.body.amount <= 0 then Served(records, payments, RefusedBody)
    else Served(records[c.key := Record(c.merchant, c.body, Some(payments))], payments + 1, NewPayment(payments))
  }

  lemma RunFive(s: Protocol, a: Event, b: Event, c: Event, d: Event, e: Event)
    ensures Run(s, [a, b, c, d, e]) == Next(Next(Next(Next(Next(s, a), b), c), d), e)
  {
    assert [a] + [b] == [a, b] && [a, b] + [c] == [a, b, c];
    assert [a, b, c] + [d] == [a, b, c, d] && [a, b, c, d] + [e] == [a, b, c, d, e];
    RunAppend(s, [a], b);
    RunAppend(s, [], a);
    RunAppend(s, [a, b], c);
    RunAppend(s, [a, b, c], d);
    RunAppend(s, [a, b, c, d], e);
  }

  /** With no request in flight, the five steps in a row. */
  function Steps(s: Protocol, call: Call): Protocol {
    var n := |s.attempts|;
    Next(Next(Next(Next(Next(s, Arrive(call)), Look(n)), Reserve(n)), CommitPayment(n)), CommitResponse(n))
  }

  lemma FreshKeySteps(s: Protocol, call: Call)
    requires Idle(s) && call.key !in s.records
    ensures var n, p := |s.attempts|, |s.payments|;
      Steps(s, call) ==
        if call.body.amount <= 0 then
          s.(attempts := s.attempts + [Attempt(call, Finished(RefusedBody), Reserving)])
        else Protocol(
          s.records[call.key := Record(call.merchant, call.body, Some(p))],
          s.payments + [Made(call, Reserving)],
          s.attempts + [Attempt(call, Finished(NewPayment(p)), Reserving)])
  {
    var n := |s.attempts|;
    var s2 := Next(Next(s, Arrive(call)), Look(n));
    assert s2 == s.(attempts := s.attempts + [Attempt(call, Missed, NotAdmitted)]);
    assert !Blocked(s2, call.key);
    var s3 := Next(s2, Reserve(n));
    assert s3 == s.(attempts := s.attempts + [Attempt(call, Admitted, Reserving)]);
  }

  lemma OtherMerchantSteps(s: Protocol, call: Call)
    requires Idle(s) && call.key in s.records && s.records[call.key].merchant != call.merchant
    ensures Steps(s, call) == s.(attempts := s.attempts + [Attempt(call, Finished(KeyTaken), NotAdmitted)])
  {
    var n := |s.attempts|;
    var s2 := Next(Next(s, Arrive(call)), Look(n));
    assert s2 == s.(attempts := s.attempts + [Attempt(call, Missed, NotAdmitted)]);
    assert !Blocked(s2, call.key);
  }

  lemma OwnKeySteps(s: Protocol, call: Call)
    requires Idle(s) && call.key in s.records && s.records[call.key].merchant == call.merchant
    ensures var n, p, record := |s.attempts|, |s.payments|, s.records[call.key];
      Steps(s, call) ==
        if record.body != call.body then
          s.(attempts := s.attempts + [Attempt(call, Finished(BodyMismatch), NotAdmitted)])
        else if record.response.Some? then
          s.(attempts := s.attempts + [Attempt(call, Finished(Replayed(record.response.value)), NotAdmitted)])
        else if call.body.amount <= 0 then
          s.(attempts := s.attempts + [Attempt(call, Finished(RefusedBody), Resuming)])
        else Protocol(
          s.records[call.key := record.(response := Some(p))],
          s.payments + [Made(call, Resuming)],
          s.attempts + [Attempt(call, Finished(NewPayment(p)), Resuming)])
  {
    var n, record := |s.attempts|, s.records[call.key];
    var s2 := Next(Next(s, Arrive(call)), Look(n));
    var a := if record.body != call.body then Attempt(call, Finished(BodyMismatch), NotAdmitted)
      else if record.response.Some? then Attempt(call, Finished(Replayed(record.response.value)), NotAdmitted)
      else Attempt(call, Admitted, Resuming);
    assert s2 == s.(attempts := s.attempts + [a]);
  }

  /** The small steps of an undisturbed request add up to the route. */
  lemma ServeIsRoute(s: Protocol, call: Call)
    requires Idle(s)
    ensures var s', n := Serve(s, call), |s.attempts|;
      && Idle(s') && |s'.attempts| == n + 1 && s'.attempts[..n] == s.attempts
      && Served(s'.records, |s'.payments|, s'.attempts[n].phase.reply) == Route(s.records, |s.payments|, call)
  {
    var n := |s.attempts|;
    RunFive(s, Arrive(call), Look(n), Reserve(n), CommitPayment(n), CommitResponse(n));
    assert Serve(s, call) == Steps(s, call);
    if call.key !in s.records {
      FreshKeySteps(s, call);
    } else if s.records[call.key].merchant != call.merchant {
      OtherMerchantSteps(s, call);
    } else {
      OwnKeySteps(s, call);
    }
  }

  // ----------------------------------------------------------------- a duplicate

  /** A request that crashes between its two commits. */
  function HalfServed(call: Call): Protocol {
    Run(START, [Arrive(call), Look(0), Reserve(0), CommitPayment(0), Crash(0)])
  }

  lemma HalfServedState(call: Call)
    requires call.body.amount > 0
    ensures HalfServed(call) == Protocol(
      map[call.key := Record(call.merchant, call.body, None)],
      [Made(call, Reserving)],
      [Attempt(call, Finished(Crashed), Reserving)])
  {
    RunFive(START, Arrive(call), Look(0), Reserve(0), CommitPayment(0), Crash(0));
    var s1 := Next(START, Arrive(call));
    assert s1.attempts == [Attempt(call, Arrived, NotAdmitted)];
    var s2 := Next(s1, Look(0));
    assert s2.attempts == [Attempt(call, Missed, NotAdmitted)];
    var s3 := Next(s2, Reserve(0));
    assert s3.attempts == [Attempt(call, Admitted, Reserving)];
    var s4 := Next(s3, CommitPayment(0));
    assert s4.attempts == [Attempt(call, Paid(0), Reserving)];
  }

  /** The client's retry after such a crash is not a replay: it creates a second payment. */
  lemma CrashThenRetryPaysTwice(call: Call)
    requires call.body.amount > 0
    ensures var s := Serve(HalfServed(call), call);
      && Reachable(s)
      && |s.payments| == |s.attempts| == 2
      && s.attempts[1].phase == Finished(NewPayment(1))
  {
    HalfServedState(call);
    ServeIsRoute(HalfServed(call), call);
    assert START == Run(START, []);
    ReachableRun(START, [Arrive(call), Look(0), Reserve(0), CommitPayment(0), Crash(0)]);
    ServeReachable(HalfServed(call), call);
  }

  // ------------------------------------------------------- the map it refines

  datatype Entry = Entry(merchant: MerchantId, body: Body, payment: PaymentId)

  /** The promise to merchants: a key stands for its first valid request, and each key pays once. */
  datatype Promise = Promise(table: map<Key, Entry>, replies: seq<Reply>)

  function Answer(table: map<Key, Entry>, c: Call): Reply {
    if c.key !in table then (if c.body.amount <= 0 then RefusedBody else NewPayment(|table|))
    else if table[c.key].merchant != c.merchant then KeyTaken
    else if table[c.key].body != c.body then BodyMismatch
    else Replayed(table[c.key].payment)
  }

  function Promised(calls: seq<Call>): Promise {
    if calls == [] then Promise(map[], [])
    else
      var before, c := Promised(calls[..|calls| - 1]), calls[|calls| - 1];
      Promise(
        if c.key in before.table || c.body.amount <= 0 then before.table
        else before.table[c.key := Entry(c.merchant, c.body, |before.table|)],
        before.replies + [Answer(before.table, c)])
  }

  ghost predicate Matches(s: Protocol, p: Promise) {
    && Idle(s)
    && |s.attempts| == |p.replies|
    && (forall i :: 0 <= i < |p.replies| ==> s.attempts[i].phase == Finished(p.replies[i]))
    && |s.payments| == |p.table|
    && s.records.Keys == p.table.Keys
    && forall k :: k in p.table ==>
         s.records[k] == Record(p.table[k].merchant, p.table[k].body, Some(p.table[k].payment))
  }

  /**
   * Served one at a time, any requests get exactly the promised replies, and there are as many
   * payments as keys.
   */
  lemma {:induction false} SerialKeepsThePromise(calls: seq<Call>)
    ensures Matches(ServeAll(calls), Promised(calls))
  {
    if calls != [] {
      var init, c := calls[..|calls| - 1], calls[|calls| - 1];
      SerialKeepsThePromise(init);
      var s, p := ServeAll(init), Promised(init);
      var s', p' := ServeAll(calls), Promised(calls);
      ServeIsRoute(s, c);
      forall i | 0 <= i < |p'.replies| ensures s'.attempts[i].phase == Finished(p'.replies[i]) {
        if i < |p.replies| {
          assert s'.attempts[..|s.attempts|][i] == s.attempts[i];
        }
      }
      if c.key !in p.table && c.body.amount > 0 {
        assert p'.table.Keys == p.table.Keys + {c.key};
      }
    }
  }

  // ------------------------------------------------- what the promise means

  lemma {:induction false} RepliesPrefix(calls: seq<Call>, n: nat)
    requires n <= |calls|
    ensures |Promised(calls).replies| == |calls|
    ensures Promised(calls).replies[..n] == Promised(calls[..n]).replies
  {
    if n == |calls| {
      assert calls[..n] == calls;
      if n > 0 {
        RepliesPrefix(calls[..n - 1], n - 1);
      }
    } else {
      var init := calls[..|calls| - 1];
      RepliesPrefix(init, n);
      assert init[..n] == calls[..n];
    }
  }

  lemma {:induction false} EntriesStay(calls: seq<Call>, n: nat, key: Key)
    requires n <= |calls| && key in Promised(calls[..n]).table
    ensures key in Promised(calls).table && Promised(calls).table[key] == Promised(calls[..n]).table[key]
  {
    if n == |calls| {
      assert calls[..n] == calls;
    } else {
      var init := calls[..|calls| - 1];
      assert init[..n] == calls[..n];
      EntriesStay(init, n, key);
    }
  }

  /** A request that would take the key if nobody had it. */
  predicate Claims(c: Call, key: Key) {
    c.key == key && c.body.amount > 0
  }

  lemma {:induction false} KeysWereUsed(calls: seq<Call>, key: Key)
    ensures key in Promised(calls).table <==> exists i :: 0 <= i < |calls| && Claims(calls[i], key)
  {
    if calls != [] {
      var init, last := calls[..|calls| - 1], calls[|calls| - 1];
      KeysWereUsed(init, key);
      if i :| 0 <= i < |init| && Claims(init[i], key) {
        assert Claims(calls[i], key);
      }
      if key in Promised(calls).table && key !in Promised(init).table {
        assert Claims(calls[|calls| - 1], key);
      }
    }
  }

  lemma ReplyAt(calls: seq<Call>, n: nat)
    requires n < |calls|
    ensures |Promised(calls).replies| == |calls|
    ensures Promised(calls).replies[n] == Answer(Promised(calls[..n]).table, calls[n])
  {
    RepliesPrefix(calls, n + 1);
    RepliesPrefix(calls[..n], n);
    assert calls[..n + 1][..n] == calls[..n];
    assert Promised(calls).replies[n] == Promised(calls).replies[..n + 1][n];
  }

  lemma EntryAt(calls: seq<Call>, first: nat, n: nat)
    requires first < n <= |calls| && calls[first].body.amount > 0
    requires forall i :: 0 <= i < first ==> !Claims(calls[i], calls[first].key)
    ensures calls[first].key !in Promised(calls[..first]).table
    ensures calls[first].key in Promised(calls[..n]).table
    ensures Promised(calls[..n]).table[calls[first].key]
         == Entry(calls[first].merchant, calls[first].body, |Promised(calls[..first]).table|)
  {
    KeysWereUsed(calls[..first], calls[first].key);
    assert calls[..first + 1][..first] == calls[..first];
    assert calls[..n][..first + 1] == calls[..first + 1];
    EntriesStay(calls[..n], first + 1, calls[first].key);
  }

  /**
   * Over any sequence of requests: the first use of a key with a positive amount creates a payment;
   * before it every use is refused for its amount; after it a repetition replays that payment,
   * another body is a mismatch and another merchant is refused.
   */
  lemma RepliesFollowFirstUse(calls: seq<Call>, first: nat, other: nat)
    requires first < |calls| && other < |calls| && other != first && calls[other].key == calls[first].key
    requires calls[first].body.amount > 0
    requires forall i :: 0 <= i < first ==> !Claims(calls[i], calls[first].key)
    ensures var attempts, c, d := ServeAll(calls).attempts, calls[first], calls[other];
      && |attempts| == |calls|
      && exists p: PaymentId ::
           && attempts[first].phase == Finished(NewPayment(p))
           && attempts[other].phase ==
                Finished(if other < first then RefusedBody
                         else if d.merchant != c.merchant then KeyTaken
                         else if d.body != c.body then BodyMismatch
                         else Replayed(p))
  {
    SerialKeepsThePromise(calls);
    ReplyAt(calls, first);
    ReplyAt(calls, other);
    EntryAt(calls, first, first + 1);
    if other < first {
      KeysWereUsed(calls[..other], calls[first].key);
      assert !Claims(calls[other], calls[first].key);
    } else {
      EntryAt(calls, first, other);
    }
    var p := |Promised(calls[..first]).table|;
    assert ServeAll(calls).attempts[first].phase == Finished(NewPayment(p));
  }
}
