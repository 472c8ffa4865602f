/**
 * The older recurrent-payments executor, the one the independent-script
 * runner starts: it reads one batch of queue rows up front, with no due-date
 * filter, and for each row either deletes it (parent order or product gone,
 * product no longer payable recurrently) or inserts a new order of a fixed
 * amount. It never calls the gateway and never deletes a row it served.
 */
module LegacyRecurrentExecutor {
  import opened Wrappers
  import opened Failures
  import opened JsValues
  import opened Enums
  import opened Ledger
  import opened Documents
  import opened StoreState
  import opened RecurrentHelper

  /** The amount every order of this executor carries, pending a real price. */
  const LegacyOrderAmount: real := 100.0

  /**
   * `.limit(recordsPerTime)`: the batch, read once before the loop. The query
   * builder emits no LIMIT for a limit of 0, so 0 reads the whole queue.
   */
  function Snapshot(queue: Table<RecurrentPayment>, recordsPerTime: nat): (r: seq<Row<RecurrentPayment>>)
    ensures recordsPerTime == 0 ==> r == queue.rows
    ensures 0 < recordsPerTime ==> |r| == if recordsPerTime < |queue.rows| then recordsPerTime else |queue.rows|
    ensures r == queue.rows[..|r|]
  {
    if recordsPerTime == 0 then queue.rows
    else queue.rows[..if recordsPerTime < |queue.rows| then recordsPerTime else |queue.rows|]
  }

  /** The fields this executor's order sets over the parent's. */
  function LegacyOverrides(paymentKey: string, trxId: Option<Json>, paymentType: Option<Json>, commission: Option<Json>, nowMs: nat): (m: Fields)
    ensures m.Keys == OverriddenKeys
  {
    map[
      "status" := JStr(OrderStatusText(Created)),
      "payment" := JObj(map[
        "id" := JStr(paymentKey),
        "trx_id" := Stored(trxId),
        "amount" := JNum(LegacyOrderAmount),
        "type" := Stored(paymentType),
        "commission" := Stored(commission)]),
      "recurrent" := JObj(map["rebill" := Stored(trxId)]),
      "createdAt" := JDate(nowMs)]
  }

  /** The new order: the parent, overridden, with the same fields stripped as the newer helper strips. */
  function LegacyOrderRecord(order: Document, trxId: Option<Json>, paymentKey: string, nowMs: nat): (r: Result<Fields, Error>)
    ensures r.Err? <==> Field(order, "payment") in {None, Some(JNull)}
    ensures r.Err? ==> r.error == TypeError
    ensures r.Ok? ==> "_id" !in r.value
  {
    var paymentType :- Member(Field(order, "payment"), "type");
    // `payment` was just read without error, so reading `commission` cannot fail either.
    var commission := OptionalMember(Field(order, "payment"), "commission");
    Ok((AsValue(order).fields + LegacyOverrides(paymentKey, trxId, paymentType, commission, nowMs)) - StrippedKeys)
  }

  /**
   * The order this executor creates has status Created, amount 100 and a
   * recurrence marker holding only the transaction to rebill; the parent's
   * questions, timestamps, receipt and id are stripped and every other parent
   * field is kept.
   */
  lemma LegacyOrderCopiesParent(order: Document, trxId: Option<Json>, paymentKey: string, nowMs: nat)
    requires LegacyOrderRecord(order, trxId, paymentKey, nowMs).Ok?
    ensures var r := LegacyOrderRecord(order, trxId, paymentKey, nowMs).value;
      && (forall k :: k in StrippedKeys ==> k !in r)
      && (forall k :: k in r ==> k in order.fields || k in OverriddenKeys)
      && (forall k :: k in order.fields && k !in StrippedKeys && k !in OverriddenKeys ==> k in r && r[k] == order.fields[k])
      && r["status"] == JStr(OrderStatusText(Created))
      && r["recurrent"] == JObj(map["rebill" := Stored(trxId)])
      && r["payment"].JObj? && "amount" in r["payment"].fields && r["payment"].fields["amount"] == JNum(100.0)
      && r["payment"].fields["id"] == JStr(paymentKey)
  {
    var ov := LegacyOverrides(paymentKey, trxId,
      OptionalMember(Field(order, "payment"), "type"),
      OptionalMember(Field(order, "payment"), "commission"), nowMs);
    var r := LegacyOrderRecord(order, trxId, paymentKey, nowMs).value;
    assert r == (AsValue(order).fields + ov) - StrippedKeys;
    forall k | k in order.fields && k !in StrippedKeys && k !in OverriddenKeys
      ensures k in r && r[k] == order.fields[k]
    {
      assert k != "_id";
      assert k !in ov;
    }
  }

  /**
   * One row of the batch. A missing parent order deletes the row, and since
   * the loop does not move on, reading the product of the null order then
   * raises a TypeError. The result says whether an order was created.
   */
  function LegacyStep(w: World, rec: Row<RecurrentPayment>, it: Iteration, system: Option<PaymentSystem>): (o: Outcome<bool>)
    ensures o.result == Ok(true) ==>
      && o.world.db == w.db && o.world.log == w.log
      && o.world.mongo == w.mongo.(orders := o.world.mongo.orders)
      && |o.world.mongo.orders| == |w.mongo.orders| + 1
      && o.world.mongo.orders[..|w.mongo.orders|] == w.mongo.orders
    ensures o.result == Ok(false) ==> o.world == DeleteRecord(w, rec.id)
    ensures o.result.Err? ==> o.world == w || (o.world == DeleteRecord(w, rec.id) && o.result.error == TypeError)
  {
    var trxId := Get(rec.data.metadata, "trxId");
    match ObjectIdFrom(Some(JStr(rec.data.orderIdMongo)), it.freshOid)
    case Err(e) => Raise(w, e)
    case Ok(oid) =>
      var order := FindOne(w.mongo.orders, ById(oid));
      if order.None? then Raise(DeleteRecord(w, rec.id), TypeError)
      else
        match ObjectIdFrom(Field(order.value, "product"), it.freshOid)
        case Err(e) => Raise(w, e)
        case Ok(pid) =>
          var product := FindOne(w.mongo.products, ById(pid));
          if !Eligible(product, system) then Outcome(DeleteRecord(w, rec.id), Ok(false))
          else
            match LegacyOrderRecord(order.value, trxId, it.paymentKey, it.nowMs)
            case Err(e) => Raise(w, e)
            case Ok(fields) =>
              Outcome(w.(mongo := w.mongo.(orders := InsertOne(w.mongo.orders, fields, it.newOid))), Ok(true))
  }

  /** A row whose product is still payable gets an order and stays in the queue. */
  lemma EligibleRowIsKept(w: World, rec: Row<RecurrentPayment>, it: Iteration, system: Option<PaymentSystem>, i: nat)
    requires LegacyStep(w, rec, it, system).result == Ok(true)
    requires i < |w.db.recurrentPayments.rows|
    ensures w.db.recurrentPayments.rows[i] in LegacyStep(w, rec, it, system).world.db.recurrentPayments.rows
  {
  }

  /** The rows of the batch from `index` on, in order; an exception ends the run. */
  function LegacyRun(w: World, batch: seq<Row<RecurrentPayment>>, index: nat, its: nat -> Iteration, system: Option<PaymentSystem>): (o: Outcome<()>)
    ensures o.world.db == w.db.(recurrentPayments := o.world.db.recurrentPayments)
    decreases |batch| - index
  {
    if index >= |batch| then Outcome(w, Ok(()))
    else
      var s :- LegacyStep(w, batch[index], its(index), system);
      LegacyRun(s.0, batch, index + 1, its, system)
  }

  /** `execute`. */
  function LegacyExecute(w: World, recordsPerTime: nat, its: nat -> Iteration, system: Option<PaymentSystem>): (o: Outcome<()>)
    ensures o.world.db == w.db.(recurrentPayments := o.world.db.recurrentPayments)
    ensures forall r :: r in o.world.db.recurrentPayments.rows ==> r in w.db.recurrentPayments.rows
    ensures ValidTable(w.db.recurrentPayments) && recordsPerTime > 0 ==>
      forall i :: recordsPerTime <= i < |w.db.recurrentPayments.rows| ==> w.db.recurrentPayments.rows[i] in o.world.db.recurrentPayments.rows
  {
    var batch := Snapshot(w.db.recurrentPayments, recordsPerTime);
    LegacyRunDeletesOnlyBatchRows(w, batch, 0, its, system);
    LegacyRun(w, batch, 0, its, system)
  }

  /**
   * The run deletes only rows of its batch: every other row is still queued
   * afterwards, and no row is added.
   */
  lemma {:induction false} LegacyRunDeletesOnlyBatchRows(w: World, batch: seq<Row<RecurrentPayment>>, index: nat, its: nat -> Iteration, system: Option<PaymentSystem>)
    ensures var after := LegacyRun(w, batch, index, its, system).world.db.recurrentPayments;
      && (forall r :: r in after.rows ==> r in w.db.recurrentPayments.rows)
      && (forall r :: r in w.db.recurrentPayments.rows && (forall j :: index <= j < |batch| ==> batch[j].id != r.id) ==> r in after.rows)
    decreases |batch| - index
  {
    if index < |batch| {
      var o := LegacyStep(w, batch[index], its(index), system);
      LegacyRunDeletesOnlyBatchRows(o.world, batch, index + 1, its, system);
    }
  }

  class LegacyRecurrentPaymentsExecutor {
    constructor ()
    {
    }

    /** `execute`. */
    method Execute(st: Stores, recordsPerTime: nat, its: nat -> Iteration, system: Option<PaymentSystem>) returns (r: Result<(), Error>)
      modifies st
      ensures LegacyExecute(old(st.State()), recordsPerTime, its, system) == Outcome(st.State(), r)
    {
      var batch := Snapshot(st.db.recurrentPayments, recordsPerTime);
      ghost var w0 := st.State();
      for index := 0 to |batch|
        invariant LegacyRun(w0, batch, 0, its, system) == LegacyRun(st.State(), batch, index, its, system)
      {
        var served := ServeRow(st, batch[index], its(index), system);
        if served.Err? {
          return Err(served.error);
        }
      }
      r := Ok(());
    }

    /** The body of the loop for one row of the batch; the result says whether an order was created. */
    method ServeRow(st: Stores, rec: Row<RecurrentPayment>, it: Iteration, system: Option<PaymentSystem>) returns (r: Result<bool, Error>)
      modifies st
      ensures LegacyStep(old(st.State()), rec, it, system) == Outcome(st.State(), r)
    {
      var trxId := Get(rec.data.metadata, "trxId");
      var oid := ObjectIdFrom(Some(JStr(rec.data.orderIdMongo)), it.freshOid);
      if oid.Err? {
        return Err(oid.error);
      }
      var order := FindOne(st.mongo.orders, ById(oid.value));
      if order.None? {
        DeleteRecurrentPaymentsQueueRecord(st, rec.id);
        // The loop goes on to read `product` of the missing order.
        return Err(TypeError);
      }
      var pid := ObjectIdFrom(Field(order.value, "product"), it.freshOid);
      if pid.Err? {
        return Err(pid.error);
      }
      var product := FindOne(st.mongo.products, ById(pid.value));
      if !Eligible(product, system) {
        DeleteRecurrentPaymentsQueueRecord(st, rec.id);
        return Ok(false);
      }
      var fields := LegacyOrderRecord(order.value, trxId, it.paymentKey, it.nowMs);
      if fields.Err? {
        return Err(fields.error);
      }
      st.mongo := st.mongo.(orders := InsertOne(st.mongo.orders, fields.value, it.newOid));
      r := Ok(true);
    }

    /** `deleteRecurrentPaymentsQueueRecord`. */
    method DeleteRecurrentPaymentsQueueRecord(st: Stores, id: nat)
      modifies st
      ensures st.State() == DeleteRecord(old(st.State()), id)
    {
      st.db := st.db.(recurrentPayments := Delete(st.db.recurrentPayments, id));
    }
  }
}
