/** The stored idempotency records, the check before the route, and the route that creates payments. */
module IdempotencyService {
  import opened Types
  import opened Gateway
  import opened Database
  import PaymentService
  import I = Idempotency
  import IdempotencySerial

  class IdempotencyKey {
    const merchant: MerchantId
    const bodyHash: I.Body
    var response: Option<PaymentId>

    constructor (merchant: MerchantId, bodyHash: I.Body)
      ensures Row() == I.Record(merchant, bodyHash, None)
    {
      this.merchant, this.bodyHash, response := merchant, bodyHash, None;
    }

    ghost function Row(): I.Record
      reads this
    {
      I.Record(merchant, bodyHash, response)
    }
  }

  /** The table of records, indexed by its unique key. */
  class IdempotencyTable {
    var records: map<I.Key, IdempotencyKey>

    constructor ()
      ensures Valid() && Rows() == map[]
    {
      records := map[];
    }

    ghost predicate Valid()
      reads this
    {
      forall j, k :: j in records && k in records && j != k ==> records[j] != records[k]
    }

    ghost function Rows(): map<I.Key, I.Record>
      reads this, records.Values
    {
      map k | k in records :: records[k].Row()
    }

    /** Filters by merchant and key. */
    method GetRecord(merchant: MerchantId, key: I.Key) returns (record: IdempotencyKey?)
      ensures record == (if key in records && records[key].merchant == merchant then records[key] else null)
    {
      if key in records && records[key].merchant == merchant {
        return records[key];
      }
      return null;
    }

    /** Inserts a record without response; the unique key may refuse it. */
    method CreateRecord(merchant: MerchantId, key: I.Key, body: I.Body) returns (record: IdempotencyKey?)
      requires Valid()
      modifies `records
      ensures Valid()
      ensures if key in old(records) then record == null && records == old(records)
        else record != null && fresh(record) && records == old(records)[key := record]
             && record.Row() == I.Record(merchant, body, None)
    {
      if key in records {
        return null;
      }
      record := new IdempotencyKey(merchant, body);
      records := records[key := record];
    }
  }

  /** The request goes on to the route with a record, or is answered at once. */
  datatype Check = Proceed(record: IdempotencyKey) | Reject(reply: I.Reply)

  method CheckIdempotency(table: IdempotencyTable, call: I.Call) returns (check: Check)
    requires table.Valid()
    modifies table`records
    ensures table.Valid()
    ensures match IdempotencySerial.Verdict(old(table.Rows()), call)
      case Some(reply) => check == Reject(reply) && table.Rows() == old(table.Rows())
      case None =>
        && check.Proceed? && call.key in table.records && check.record == table.records[call.key]
        && (check.record in old(table.records.Values) || fresh(check.record))
        && table.Rows() == old(table.Rows())[call.key := I.Record(call.merchant, call.body, None)]
  {
    var existing := table.GetRecord(call.merchant, call.key);
    if existing != null {
      if call.body != existing.bodyHash {
        return Reject(I.BodyMismatch);
      }
      if existing.response.Some? {
        return Reject(I.Replayed(existing.response.value));
      }
      return Proceed(existing);
    }
    var record := table.CreateRecord(call.merchant, call.key, call.body);
    if record == null {
      return Reject(I.KeyTaken);
    }
    return Proceed(record);
  }

  method SaveResponse(table: IdempotencyTable, ghost key: I.Key, record: IdempotencyKey, payment: PaymentId)
    requires table.Valid() && key in table.records && table.records[key] == record
    modifies record`response
    ensures table.Rows() == old(table.Rows())[key := old(record.Row()).(response := Some(payment))]
  {
    record.response := Some(payment);
  }

  /** A session that ends without a commit: the reserved record, if any, is gone. */
  method Rollback(table: IdempotencyTable, committed: map<I.Key, IdempotencyKey>)
    modifies table`records
    ensures table.records == committed
  {
    table.records := committed;
  }

  /** The two commits of an admitted request whose record takes the place of what `before` has for the key. */
  method PayAndAnswer(
      db: Session, table: IdempotencyTable, call: I.Call, record: IdempotencyKey, ghost before: map<I.Key, I.Record>)
    returns (id: PaymentId)
    requires db.Valid() && table.Valid() && call.key in table.records && table.records[call.key] == record
    requires table.Rows() == before[call.key := I.Record(call.merchant, call.body, None)]
    modifies db`payments, record`response
    ensures db.Valid() && id == |old(db.payments)| && |db.payments| == id + 1
    ensures db.Snapshot() == AfterCreate(old(db.Snapshot()), call.merchant, call.body.amount)
    ensures table.Rows() == before[call.key := I.Record(call.merchant, call.body, Some(id))]
  {
    var payment := PaymentService.CreatePayment(db, call.merchant, call.body.amount);
    assert payment == db.payments[|old(db.payments)|];
    assert table.Rows() == old(table.Rows());
    assert table.Rows()[call.key] == record.Row();
    id := payment.id;
    SaveResponse(table, call.key, record, id);
  }

  /**
   * The create route without interference: records, number of payments and reply are those of the
   * specified route. The payment is for the amount in the body, and a request without a payment
   * leaves the tables as they were.
   */
  method CreatePayment(db: Session, table: IdempotencyTable, call: I.Call) returns (reply: I.Reply)
    requires db.Valid() && table.Valid()
    modifies db`payments, table`records, table.records.Values
    ensures db.Valid() && table.Valid()
    ensures IdempotencySerial.Served(table.Rows(), |db.payments|, reply)
         == IdempotencySerial.Route(old(table.Rows()), |old(db.payments)|, call)
    ensures db.Snapshot() == if reply.NewPayment? then Next(old(db.Snapshot()), Create(call.merchant, call.body.amount))
                             else old(db.Snapshot())
  {
    var committed := table.records;
    ghost var before := table.Rows();
    var check := CheckIdempotency(table, call);
    if check.Reject? {
      return check.reply;
    }
    if call.body.amount <= 0 {
      Rollback(table, committed);
      assert table.Rows() == before;
      return I.RefusedBody;
    }
    var id := PayAndAnswer(db, table, call, check.record, before);
    return I.NewPayment(id);
  }
}
