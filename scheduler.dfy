/**
 * The recurrence scheduler: after a recurring product is paid, one row is
 * queued for the next payment, inside the caller's ledger transaction.
 */
module RecurrentSchedule {
  import opened Wrappers
  import opened Failures
  import opened JsValues
  import opened Enums
  import opened Ledger
  import opened Documents

  const SecondsPerDay: int := 86400

  /**
   * The whole number of days `moment().add(period, 'days')` adds: a fractional
   * count is rounded half away from zero, and NaN adds nothing.
   */
  function WholeDays(period: Option<real>): (d: int)
    ensures period.Some? ==> -0.5 <= period.value - d as real <= 0.5
    ensures period.None? ==> d == 0
  {
    match period
    case None => 0
    case Some(p) => if p >= 0.0 then (p + 0.5).Floor else -((-p + 0.5).Floor)
  }

  /** The due date, in whole seconds: now plus the period in days, at second precision. */
  function DueDate(nowMs: nat, period: Option<real>): (s: int)
    ensures s * 1000 <= nowMs + WholeDays(period) * SecondsPerDay * 1000 < s * 1000 + 1000
  {
    nowMs / 1000 + WholeDays(period) * SecondsPerDay
  }

  /** `Number(product.recurrent?.period)`. */
  function Period(product: Document): Option<real>
  {
    ToNumber(OptionalMember(Field(product, "recurrent"), "period"))
  }

  /** `isFirstPeriod` as the code computes it: false exactly for a payment in status "new". */
  predicate IsFirstPeriod(payload: Fields)
  {
    Get(payload, "o.PaymentStatus") != Some(JStr(NewStatusText))
  }

  /** The `metadata` column: `JSON.stringify({ trxId: payload.trx_id })`, read back from jsonb. */
  function TrxMetadata(payload: Fields): (m: Fields)
    ensures Get(m, "trxId") == Get(payload, "trx_id")
    ensures forall k :: k in m ==> k == "trxId"
  {
    match Get(payload, "trx_id")
    case None => map[]
    case Some(v) => map["trxId" := v]
  }

  /** The queued row for the order just paid. */
  function QueueRow(order: Document, product: Document, payload: Fields, nowMs: nat): RecurrentPayment
  {
    RecurrentPayment(DueDate(nowMs, Period(product)), IsFirstPeriod(payload), ToText(Some(order.id)), Gazprom, TrxMetadata(payload))
  }

  /** The queued row carries the gateway transaction to rebill, the due date, the period flag and the order. */
  lemma QueueRowContents(order: Document, product: Document, payload: Fields, nowMs: nat)
    ensures var row := QueueRow(order, product, payload, nowMs);
      && Get(row.metadata, "trxId") == Get(payload, "trx_id")
      && row.dateToExecute * 1000 <= nowMs + WholeDays(Period(product)) * SecondsPerDay * 1000 < row.dateToExecute * 1000 + 1000
      && (!row.isFirstPeriod <==> Get(payload, "o.PaymentStatus") == Some(JStr(NewStatusText)))
      && row.paymentSystem == Gazprom
      && (order.id.JOid? ==> row.orderIdMongo == order.id.oid)
  {
  }

  /**
   * `setSchedule` with the parent order passed along: exactly one row is
   * inserted into the queue through the caller's transaction.
   */
  function SetSchedule(db: Db, order: Document, product: Document, payload: Fields, nowMs: nat, fault: Option<Statement>): (r: Result<Db, Error>)
    ensures r.Err? <==> fault == Some(InsertRecurrentPayment)
    ensures r.Ok? ==> r.value == db.(recurrentPayments := Insert(db.recurrentPayments, QueueRow(order, product, payload, nowMs)).0)
  {
    var queue :- TryInsert(db.recurrentPayments, QueueRow(order, product, payload, nowMs), InsertRecurrentPayment, fault);
    Ok(db.(recurrentPayments := queue.0))
  }

  // ---------------------------------------------------------------------------
  // The scheduler as the source calls and writes it

  /** The columns of the RecurrentPaymentsQueue table. */
  const QueueColumns: set<string> := {"id", "dateToExecute", "isFirstPeriod", "orderIdMongo", "paymentSystem", "metadata", "createdAt"}

  /** The columns the scheduler's INSERT names. */
  const InsertedColumns: seq<string> := ["dateToExecute", "isFirstPeriod", "productIdMongo", "paymentSystem", "metadata", "createdAt"]

  /** An INSERT naming `columns`: the first one the table lacks is an error. */
  function CheckColumns(columns: seq<string>): (r: Result<(), Error>)
    ensures r.Ok? <==> forall i :: 0 <= i < |columns| ==> columns[i] in QueueColumns
    ensures r.Err? ==> r.error.UndefinedColumn? && r.error.column !in QueueColumns
  {
    if |columns| == 0 then Ok(())
    else if columns[0] !in QueueColumns then Err(UndefinedColumn(columns[0]))
    else CheckColumns(columns[1..])
  }

  /**
   * `setSchedule` as declared, on the product and the payload: its INSERT
   * stores the product's id in a column `productIdMongo`.
   */
  function ScheduleAsWritten(db: Db, product: Document, payload: Fields, nowMs: nat): Result<Db, Error>
  {
    var _ :- CheckColumns(InsertedColumns);
    var row := RecurrentPayment(DueDate(nowMs, Period(product)), IsFirstPeriod(payload), ToText(Some(product.id)), Gazprom, TrxMetadata(payload));
    Ok(db.(recurrentPayments := Insert(db.recurrentPayments, row).0))
  }

  /** The table has no `productIdMongo` column, so the scheduler's INSERT always fails. */
  lemma ScheduleAsWrittenAlwaysFails(db: Db, product: Document, payload: Fields, nowMs: nat)
    ensures ScheduleAsWritten(db, product, payload, nowMs) == Err(UndefinedColumn("productIdMongo"))
  {
    assert InsertedColumns[0] in QueueColumns && InsertedColumns[1] in QueueColumns;
    assert InsertedColumns[2] !in QueueColumns;
    assert CheckColumns(InsertedColumns[2..]) == Err(UndefinedColumn("productIdMongo"));
    assert CheckColumns(InsertedColumns[1..]) == CheckColumns(InsertedColumns[1..][1..]);
  }

  /**
   * `new GazpromRecurrentPayment(order, product, payload, manager).setSchedule()`:
   * the constructor takes three parameters, so the payload lands in the
   * transactional-manager slot and its `query` property, which is never a
   * function, is called.
   */
  function ScheduleAsCalled(db: Db, order: Document, product: Document, payload: Fields): Result<Db, Error>
  {
    var manager := Some(JObj(payload));
    var query :- Member(manager, "query");
    // A stored JSON value is never callable: calling `query` raises a TypeError.
    Err(TypeError)
  }

  /** Called as it is, the scheduler fails on every recurring payment. */
  lemma ScheduleAsCalledAlwaysFails(db: Db, order: Document, product: Document, payload: Fields)
    ensures ScheduleAsCalled(db, order, product, payload) == Err(TypeError)
  {
  }
}
