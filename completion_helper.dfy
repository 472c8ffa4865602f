/**
 * The helpers of the completion webhook: commission arithmetic, the amount
 * and certificate checks, the order-payment check, the ledger transaction of
 * a rejected order, and the document-store writes.
 */
module CompletionHelper {
  import opened Wrappers
  import opened Failures
  import opened JsValues
  import opened Enums
  import opened Ledger
  import opened Documents
  import opened Audit
  import opened StoreState

  // ---------------------------------------------------------------------------
  // Commission arithmetic

  const DefaultPercents: real := 8.0

  /** `getUserCommissionPercents`: the owner's `percents.GAZPROM` when it is a number, else 8. */
  function CommissionPercents(owner: Document): (r: real)
    ensures var p := Field(owner, "percents");
      if p.Some? && p.value.JObj? && "GAZPROM" in p.value.fields && p.value.fields["GAZPROM"].JNum?
      then r == p.value.fields["GAZPROM"].n
      else r == DefaultPercents
  {
    match OptionalMember(Field(owner, "percents"), "GAZPROM")
    case Some(JNum(n)) => n
    case _ => DefaultPercents
  }

  /** A whole number of kopecks. */
  predicate IsCent(x: real)
  {
    (100.0 * x).Floor as real == 100.0 * x
  }

  /** `MathUtil.ceil10(x, -2)`: the least whole number of kopecks not below `x`. */
  function CeilCent(x: real): (r: real)
    ensures IsCent(r)
    ensures x <= r < x + 0.01
  {
    var k := (-100.0 * x).Floor;
    assert (100.0 * (-k as real / 100.0)).Floor == -k;
    -k as real / 100.0
  }

  /** No whole number of kopecks at or above `x` lies below `CeilCent(x)`. */
  lemma CeilCentLeast(x: real, c: real)
    requires IsCent(c) && x <= c
    ensures CeilCent(x) <= c
  {
    var m := (100.0 * c).Floor;
    assert -100.0 * x >= -m as real;
    assert (-100.0 * x).Floor >= -m;
  }

  /**
   * `subtractCommissionFromAmount(sum, percent, isCommission, extra)`: with the
   * commission included in `sum` the share sum·p/(1+p) is deducted, otherwise
   * sum·p; then `extra` is deducted and the result rounded up to kopecks.
   * `None` stands for the non-finite result of a division by zero.
   */
  function SubtractCommission(sum: real, percent: real, included: bool, extra: real): (r: Option<real>)
    ensures r.None? <==> included && 1.0 + percent == 0.0
  {
    if included then
      if 1.0 + percent == 0.0 then None
      else Some(CeilCent(sum - sum * percent / (1.0 + percent) - extra))
    else Some(CeilCent(sum - sum * percent - extra))
  }

  /**
   * With the commission included, the amount kept is the net amount whose
   * own commission brings it back to `sum`; otherwise it is `sum` less its
   * commission.
   */
  lemma CommissionShare(sum: real, percent: real, included: bool, extra: real)
    requires !(included && 1.0 + percent == 0.0)
    ensures included ==>
      var net := sum / (1.0 + percent);
      && net + net * percent == sum
      && SubtractCommission(sum, percent, included, extra) == Some(CeilCent(net - extra))
    ensures !included ==> SubtractCommission(sum, percent, included, extra) == Some(CeilCent(sum * (1.0 - percent) - extra))
  {
    if included {
      IncludedShare(sum, percent);
    } else {
      assert sum - sum * percent == sum * (1.0 - percent);
    }
  }

  /** The share deducted from a sum that includes its commission leaves the net amount. */
  lemma IncludedShare(sum: real, percent: real)
    requires 1.0 + percent != 0.0
    ensures var net := sum / (1.0 + percent);
      net + net * percent == sum && sum - sum * percent / (1.0 + percent) == net
  {
    var q := 1.0 + percent;
    var net := sum / q;
    assert net * q == sum;
    assert net + net * percent == net * q;
    DivideProduct(sum * percent, net * percent, q);
  }

  lemma DivideProduct(x: real, y: real, q: real)
    requires q != 0.0 && x == y * q
    ensures x / q == y
  {
  }

  /** For a non-negative whole-kopeck sum, a non-negative rate and extra, nothing is ever added. */
  lemma CommissionNeverExceedsSum(sum: real, percent: real, included: bool, extra: real)
    requires IsCent(sum) && sum >= 0.0 && percent >= 0.0 && extra >= 0.0
    ensures SubtractCommission(sum, percent, included, extra).Some?
    ensures SubtractCommission(sum, percent, included, extra).value <= sum
  {
    var v := if included then sum - sum * percent / (1.0 + percent) - extra else sum - sum * percent - extra;
    if included {
      assert sum * percent / (1.0 + percent) >= 0.0;
    } else {
      assert sum * percent >= 0.0;
    }
    CeilCentLeast(v, sum);
  }

  // ---------------------------------------------------------------------------
  // Checks that log before they fail

  /** `parsePayloadAmount`: the parsed amount, or a logged failure when it is NaN. */
  function ParsePayloadAmount(w: World, requestId: nat, amount: Option<Json>): (o: Outcome<real>)
    ensures o.result.Ok? <==> ParseFloatValue(amount).Some?
    ensures o.result.Ok? ==> o.world == w && ParseFloatValue(amount) == Some(o.result.value)
    ensures o.result.Err? ==>
      && o.result.error == InternalServerError(AmountIsNotANumber)
      && o.world == Logged(w, LogEntry(IncomingRequestAmountIsIncorrect, Payload([("incomingRequestId", IdValue(requestId))])))
  {
    match ParseFloatValue(amount)
    case Some(n) => Outcome(w, Ok(n))
    case None =>
      var e := LogEntry(IncomingRequestAmountIsIncorrect, Payload([("incomingRequestId", IdValue(requestId))]));
      Outcome(Logged(w, e), Err(InternalServerError(AmountIsNotANumber)))
  }

  /** Every amount the gateway writes as an integer number of kopecks is read back unchanged. */
  lemma ParsePayloadAmountOfInteger(w: World, requestId: nat, kopecks: int)
    ensures ParsePayloadAmount(w, requestId, Some(JStr(IntText(kopecks)))) == Outcome(w, Ok(kopecks as real))
  {
    ParseFloatIntText(kopecks);
  }

  /** `validateCertificateContent`: the content must be a non-empty string. */
  function ValidateCertificate(w: World, payload: Fields, certificate: Option<string>): (o: Outcome<string>)
    ensures o.result.Ok? <==> certificate.Some? && |certificate.value| >= 1
    ensures o.result.Ok? ==> o.world == w && o.result.value == certificate.value
    ensures o.result.Err? ==>
      && o.result.error == BadRequest(WrongRequestData)
      && o.world == Logged(w, LogEntry(CertificateContentIsUnrecognizable, Payload([("incomingRequestPayload", Some(JObj(payload)))])))
  {
    if certificate.Some? && |certificate.value| >= 1 then Outcome(w, Ok(certificate.value))
    else
      var e := LogEntry(CertificateContentIsUnrecognizable, Payload([("incomingRequestPayload", Some(JObj(payload)))]));
      Outcome(Logged(w, e), Err(BadRequest(WrongRequestData)))
  }

  /**
   * `checkOrderPaymentCorrectness`: the log entry it writes when the order's
   * `payment` is not an object with at least two keys. Its caller does not
   * await it, so the error it raises afterwards never reaches the caller.
   */
  function OrderPaymentComplaint(requestId: nat, order: Document, product: Document): (r: Option<LogEntry>)
    ensures r.Some? <==> !IsObject(Field(order, "payment")) || KeyCount(Field(order, "payment")) < 2
    ensures r.Some? ==> r.value.kind == MongoOrderHasNoPaymentObject
  {
    var payment := Field(order, "payment");
    if !IsObject(payment) || KeyCount(payment) < 2 then
      Some(LogEntry(MongoOrderHasNoPaymentObject, Payload([
        ("incomingRequestId", IdValue(requestId)),
        ("order.id", Some(JStr(ToText(Some(order.id))))),
        ("productOwner.id", Field(product, "user"))])))
    else None
  }

  // ---------------------------------------------------------------------------
  // Store writes

  /**
   * `completeRejectedOrderInPostgres`: one SERIALIZABLE transaction inserting
   * the payment transaction and the order and marking the request Processed.
   * `fault` names the statement the database rejects in this run, if any.
   */
  function RejectTransaction(db: Db, transaction: PaymentTransaction, order: LedgerOrder, requestId: nat, fault: Option<Statement>): (r: Result<Db, Error>)
    ensures r.Err? <==> fault in {Some(InsertPaymentTransaction), Some(InsertOrder), Some(UpdateIncomingRequest)}
    ensures r.Err? ==> r.error == DatabaseError(fault.value)
    ensures r.Ok? ==>
      && r.value.paymentTransactions == Insert(db.paymentTransactions, transaction).0
      && r.value.orders == Insert(db.orders, order).0
      && r.value.incomingRequests == SetRequestStatus(db, requestId, Processed).incomingRequests
      && r.value.balances == db.balances
      && r.value.balanceUpdates == db.balanceUpdates
      && r.value.recurrentPayments == db.recurrentPayments
  {
    var pts :- TryInsert(db.paymentTransactions, transaction, InsertPaymentTransaction, fault);
    var orders :- TryInsert(db.orders, order, InsertOrder, fault);
    if fault == Some(UpdateIncomingRequest) then Err(DatabaseError(UpdateIncomingRequest))
    else Ok(SetRequestStatus(db.(paymentTransactions := pts.0, orders := orders.0), requestId, Processed))
  }

  /** The rejection transaction keeps every table's ids fresh and ordered. */
  lemma RejectTransactionValid(db: Db, transaction: PaymentTransaction, order: LedgerOrder, requestId: nat, fault: Option<Statement>)
    requires ValidDb(db)
    ensures RejectTransaction(db, transaction, order, requestId, fault).Ok? ==> ValidDb(RejectTransaction(db, transaction, order, requestId, fault).value)
  {
    SetRequestStatusEffect(db, requestId, Processed);
  }

  /** `rejectOrderInMongo`: `$set: { status: Rejected }` on the order with that `_id`. */
  function RejectOrderInMongo(m: Mongo, orderId: Json): Result<Mongo, Error>
  {
    var orders :- UpdateOne(m.orders, ById(orderId), [(["status"], JStr(OrderStatusText(Rejected)))]);
    Ok(m.(orders := orders))
  }

  /** Rejection never fails, and changes nothing but the `status` of the first order with that id. */
  lemma RejectOrderOnlyStatus(m: Mongo, orderId: Json)
    ensures RejectOrderInMongo(m, orderId).Ok?
    ensures var m' := RejectOrderInMongo(m, orderId).value;
      && m' == m.(orders := m'.orders)
      && |m'.orders| == |m.orders|
      && (FirstMatch(m.orders, ById(orderId)).None? ==> m' == m)
      && (FirstMatch(m.orders, ById(orderId)).Some? ==>
           var i := FirstMatch(m.orders, ById(orderId)).value;
           && (forall j :: 0 <= j < |m.orders| && j != i ==> m'.orders[j] == m.orders[j])
           && m'.orders[i].id == m.orders[i].id
           && Field(m'.orders[i], "status") == Some(JStr(OrderStatusText(Rejected)))
           && (forall k :: k != "status" ==> Field(m'.orders[i], k) == Field(m.orders[i], k)))
  {
    var sets: seq<(Path, Json)> := [(["status"], JStr(OrderStatusText(Rejected)))];
    match FirstMatch(m.orders, ById(orderId))
    case None =>
    case Some(i) =>
      var d := m.orders[i];
      assert SetAll(d, sets) == SetField(d, ["status"], JStr(OrderStatusText(Rejected)));
      assert SetAll(d, sets).Ok?;
  }

  /** `confirmOrderInMongo`: `$set` of exactly the supplied fields on the order with that `_id`. */
  function ConfirmOrderInMongo(m: Mongo, orderId: Json, sets: seq<(Path, Json)>): (r: Result<Mongo, Error>)
    requires forall i :: 0 <= i < |sets| ==> |sets[i].0| > 0
    ensures r.Ok? ==> r.value == m.(orders := r.value.orders) && |r.value.orders| == |m.orders|
    ensures r.Ok? && FirstMatch(m.orders, ById(orderId)).Some? ==>
      var i := FirstMatch(m.orders, ById(orderId)).value;
      && (forall j :: 0 <= j < |m.orders| && j != i ==> r.value.orders[j] == m.orders[j])
      && SetAll(m.orders[i], sets) == Ok(r.value.orders[i])
    ensures r.Err? <==> FirstMatch(m.orders, ById(orderId)).Some? && SetAll(m.orders[FirstMatch(m.orders, ById(orderId)).value], sets).Err?
    ensures r.Err? ==> r.error == MongoWriteError
    ensures FirstMatch(m.orders, ById(orderId)).None? ==> r == Ok(m)
  {
    var orders :- UpdateOne(m.orders, ById(orderId), sets);
    Ok(m.(orders := orders))
  }

  /** The document-store transaction record of a payment. */
  function TransactionDocument(owner: Document, order: Document, amount: real, pan: Option<string>): Fields
  {
    map[
      "type" := JStr(ReceivingText),
      "user" := owner.id,
      "product" := Stored(Field(order, "product")),
      "amount" := JNum(amount),
      "order" := order.id,
      "pan" := JStr(if pan.Some? then pan.value else "")]
  }

  /** `insertPaymentTransationInMongo`: appends the record to `transactions`. */
  function InsertTransactionInMongo(m: Mongo, record: Fields, generatedId: string): (r: Mongo)
    ensures r == m.(transactions := r.transactions)
    ensures r.transactions == InsertOne(m.transactions, record, generatedId)
  {
    m.(transactions := InsertOne(m.transactions, record, generatedId))
  }
}
