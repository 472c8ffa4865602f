/**
 * The Gazprom completion webhook ("register payment"): after the certificate
 * and the signature are checked and the order, product and product owner are
 * found, the payment is either recorded as rejected or settled — the ledger
 * transaction first, then the document-store order and transaction.
 */
module GazpromCompletion {
  import opened Wrappers
  import opened Failures
  import opened JsValues
  import opened Enums
  import opened Ledger
  import opened Documents
  import opened Audit
  import opened StoreState
  import opened CompletionHelper
  import opened DataSource
  import opened Signature
  import opened TransactionExecutor
  import opened WebhookResult

  /** What a completion run depends on besides the stores. */
  datatype CompletionEnv = CompletionEnv(
    certificates: map<string, string>,
    verify: (string, string, string) -> bool,
    run: LedgerRun,
    transactionOid: string)

  /** `GazpromExecutionResult`: what the merchant notification is built from. */
  datatype ExecutionResult = ExecutionResult(
    orderProcessed: bool,
    order: Document,
    owner: Document,
    finalAmount: real,
    untouchedAmount: real)

  /** What the checks establish before the payment is rejected or settled. */
  datatype Checked = Checked(
    order: Document,
    product: Document,
    owner: Document,
    pan: Option<string>,
    inputAmount: real,
    untouchedAmount: real,
    commissionSubtracted: real)

  /** lodash `isEmpty`: primitives, dates and ids have no enumerable content. */
  predicate IsEmpty(v: Option<Json>)
  {
    match v
    case Some(JStr(s)) => |s| == 0
    case Some(JArr(items)) => |items| == 0
    case Some(JObj(m)) => |m| == 0
    case _ => true
  }

  /** The masked card number, kept only when it is a non-empty string. */
  function CardPan(payload: Fields): (pan: Option<string>)
    ensures pan.Some? ==> |pan.value| > 0 && Get(payload, "p.maskedPan") == Some(JStr(pan.value))
    ensures pan.None? ==> forall s :: Get(payload, "p.maskedPan") == Some(JStr(s)) ==> |s| == 0
  {
    var v := Get(payload, "p.maskedPan");
    if !IsEmpty(v) && v.value.JStr? then Some(v.value.s) else None
  }

  /** `getCertificateByName(payload.merch_id)`: certificates are keyed by the merchant id's text. */
  function CertificateFor(certificates: map<string, string>, payload: Fields): (c: Option<string>)
    ensures c.Some? <==> ToText(Get(payload, "merch_id")) in certificates
    ensures c.Some? ==> c.value == certificates[ToText(Get(payload, "merch_id"))]
  {
    var key := ToText(Get(payload, "merch_id"));
    if key in certificates then Some(certificates[key]) else None
  }

  /** The amount after commission, in whole roubles; undefined when the rate makes it non-finite. */
  function CommissionSubtracted(untouched: real, percents: real, order: Document): (r: Option<real>)
    ensures r.Some? <==> SubtractCommission(untouched, percents / 100.0, Truthy(Field(order, "commission")), 0.0).Some?
    ensures r.Some? ==> r.value.Floor as real == r.value
    ensures r.Some? ==>
      var x := SubtractCommission(untouched, percents / 100.0, Truthy(Field(order, "commission")), 0.0).value;
      r.value <= x < r.value + 1.0
  {
    match SubtractCommission(untouched, percents / 100.0, Truthy(Field(order, "commission")), 0.0)
    case None => None
    case Some(x) => Some(x.Floor as real)
  }

  /** `String(payload.result_code) === '2'`: the gateway reports the payment as rejected. */
  function IsRejection(payload: Fields): (rejected: bool)
    ensures Get(payload, "result_code") in {Some(JStr("2")), Some(JNum(2.0))} ==> rejected
    ensures Get(payload, "result_code").Some? && Get(payload, "result_code").value.JNum? ==>
      (rejected <==> Get(payload, "result_code").value.n == 2.0)
    ensures Get(payload, "result_code").Some? && Get(payload, "result_code").value.JStr? ==>
      (rejected <==> Get(payload, "result_code").value.s == "2")
    ensures Get(payload, "result_code") in {None, Some(JNull)} ==> !rejected
  {
    ToText(Get(payload, "result_code")) == "2"
  }



  /** The order, its product and the product's owner. */
  datatype Parties = Parties(order: Document, product: Document, owner: Document)

  /**
   * The three lookups: the order whose `payment.id` is the payload's
   * `o.CustomerKey`, the product that `order.product` names, and the user
   * that `product.user` names.
   */
  function FindParties(w: World, requestId: nat, payload: Fields): (o: Outcome<Parties>)
    ensures o.result.Ok? ==> o.world == w
    ensures o.result.Ok? ==>
      var p := o.result.value;
      && FindOne(w.mongo.orders, ByPaymentId(Get(payload, "o.CustomerKey"))) == Some(p.order)
      && FindOne(w.mongo.products, ByIdValue(Field(p.order, "product"))) == Some(p.product)
      && FindOne(w.mongo.users, ByIdValue(Field(p.product, "user"))) == Some(p.owner)
    ensures o.result.Err? ==> o.world.db == w.db && o.world.mongo == w.mongo
  {
    var s3 :- FindOrderByPaymentId(w, requestId, Get(payload, "o.CustomerKey"));
    var s4 :- FindProductById(s3.0, requestId, Field(s3.1, "product"));
    var s5 :- FindProductOwnerById(s4.0, requestId, Field(s4.1, "user"));
    Outcome(s5.0, Ok(Parties(s3.1, s4.1, s5.1)))
  }

  /**
   * The amounts follow from the payload: `amount` is parsed as kopecks, the
   * untouched amount is its rouble value, and the commission-subtracted amount
   * is computed from it with the owner's rate and the order's commission flag.
   */
  predicate PricedFrom(payload: Fields, c: Checked)
  {
    && ParseFloatValue(Get(payload, "amount")) == Some(c.inputAmount)
    && c.untouchedAmount == c.inputAmount / 100.0
    && CommissionSubtracted(c.untouchedAmount, CommissionPercents(c.owner), c.order) == Some(c.commissionSubtracted)
  }

  /** The unawaited payment-object check, which can only add a log entry. */
  function Complained(w: World, requestId: nat, p: Parties): (r: World)
    ensures r.db == w.db && r.mongo == w.mongo
    ensures OrderPaymentComplaint(requestId, p.order, p.product).None? ==> r == w
  {
    match OrderPaymentComplaint(requestId, p.order, p.product)
    case None => w
    case Some(e) => Logged(w, e)
  }

  /**
   * The amount checks: the payload's amount in kopecks, its rouble value and
   * the commission-subtracted amount; then the unawaited payment-object
   * check, which can only add a log entry.
   */
  function Price(w: World, requestId: nat, payload: Fields, p: Parties): (o: Outcome<Checked>)
    ensures o.world.db == w.db && o.world.mongo == w.mongo
    ensures o.result.Ok? ==>
      var c := o.result.value;
      c.order == p.order && c.product == p.product && c.owner == p.owner && c.pan == CardPan(payload)
    ensures o.result.Ok? ==> PricedFrom(payload, o.result.value)
  {
    match ParsePayloadAmount(w, requestId, Get(payload, "amount"))
    case Outcome(w1, Err(e)) => Outcome(w1, Err(e))
    case Outcome(w1, Ok(kopecks)) =>
      Commission(w1, requestId, payload, p, kopecks)
  }

  /** The rouble value of `kopecks` and the amount after commission, then the payment-object check. */
  function Commission(w: World, requestId: nat, payload: Fields, p: Parties, kopecks: real): (o: Outcome<Checked>)
    ensures o.world.db == w.db && o.world.mongo == w.mongo
    ensures o.result.Ok? ==>
      var c := o.result.value;
      && c.order == p.order && c.product == p.product && c.owner == p.owner && c.pan == CardPan(payload)
      && c.inputAmount == kopecks && c.untouchedAmount == kopecks / 100.0
      && CommissionSubtracted(c.untouchedAmount, CommissionPercents(c.owner), c.order) == Some(c.commissionSubtracted)
  {
    var untouched := kopecks / 100.0;
    match CommissionSubtracted(untouched, CommissionPercents(p.owner), p.order)
    case None => Raise(w, InternalServerError(NonFiniteAmount))
    case Some(subtracted) =>
      Outcome(Complained(w, requestId, p), Ok(Checked(p.order, p.product, p.owner, CardPan(payload), kopecks, untouched, subtracted)))
  }

  /**
   * The checks, in the order they run: certificate, signature, order, product,
   * product owner, amount, commission, payment object.
   */
  function Prelude(w: World, request: Row<IncomingRequest>, env: CompletionEnv): (o: Outcome<Checked>)
    ensures o.result.Ok? ==> o.world.db == w.db && o.world.mongo == w.mongo
    ensures o.result.Ok? ==> o.result.value.pan == CardPan(request.data.payload)
    ensures o.result.Ok? ==> o.result.value.order in w.mongo.orders && o.result.value.product in w.mongo.products && o.result.value.owner in w.mongo.users
    ensures o.result.Ok? ==>
      var c := o.result.value;
      && FindOne(w.mongo.orders, ByPaymentId(Get(request.data.payload, "o.CustomerKey"))) == Some(c.order)
      && FindOne(w.mongo.products, ByIdValue(Field(c.order, "product"))) == Some(c.product)
      && FindOne(w.mongo.users, ByIdValue(Field(c.product, "user"))) == Some(c.owner)
    ensures o.result.Ok? ==> PricedFrom(request.data.payload, o.result.value)
    ensures o.result.Err? ==> o.world.mongo == w.mongo
    ensures o.result.Err? && o.result.error != BadRequest(SignatureIncorrect) ==> o.world.db == w.db
  {
    var payload := request.data.payload;
    var s1 :- ValidateCertificate(w, payload, CertificateFor(env.certificates, payload));
    var s2 :- VerifySignature(s1.0, request, s1.1, env.verify);
    var s3 :- FindParties(s2.0, request.id, payload);
    Price(s3.0, request.id, payload, s3.1)
  }

  /**
   * For a payload amount that is a whole, non-negative number of kopecks and
   * a non-negative commission rate, the amount after commission never exceeds
   * the amount paid.
   */
  lemma PricedWithinPayment(payload: Fields, c: Checked)
    requires PricedFrom(payload, c)
    requires IsInteger(ParseFloatValue(Get(payload, "amount"))) && ParseFloatValue(Get(payload, "amount")).value >= 0.0
    requires CommissionPercents(c.owner) >= 0.0
    ensures c.commissionSubtracted <= c.untouchedAmount
  {
    AmountWithinPayment(c.inputAmount, c.untouchedAmount, CommissionPercents(c.owner), c.order, c.commissionSubtracted);
  }

  lemma AmountWithinPayment(kopecks: real, untouched: real, percents: real, order: Document, subtracted: real)
    requires kopecks.Floor as real == kopecks && kopecks >= 0.0 && untouched == kopecks / 100.0
    requires percents >= 0.0
    requires CommissionSubtracted(untouched, percents, order) == Some(subtracted)
    ensures subtracted <= untouched
  {
    assert IsCent(untouched);
    CommissionNeverExceedsSum(untouched, percents / 100.0, Truthy(Field(order, "commission")), 0.0);
  }

  /** The same bound for the amounts the checks of a completion run establish. */
  lemma SettledAmountWithinPayment(w: World, request: Row<IncomingRequest>, env: CompletionEnv)
    requires Prelude(w, request, env).result.Ok?
    requires IsInteger(ParseFloatValue(Get(request.data.payload, "amount")))
    requires ParseFloatValue(Get(request.data.payload, "amount")).value >= 0.0
    requires CommissionPercents(Prelude(w, request, env).result.value.owner) >= 0.0
    ensures var c := Prelude(w, request, env).result.value;
      c.commissionSubtracted <= c.untouchedAmount
  {
    PricedWithinPayment(request.data.payload, Prelude(w, request, env).result.value);
  }

  /** The ledger payment transaction; `pan` only when a card number is known. */
  function TransactionRecord(owner: Document, order: Document, amount: real, pan: Option<string>): PaymentTransaction
  {
    PaymentTransaction(ToText(Some(owner.id)), ToText(Field(order, "product")), amount, ToText(Some(order.id)), Receiving, pan)
  }

  /** The ledger order; reading `order.payment.id` throws when `payment` is null or undefined. */
  function LedgerOrderRecord(order: Document, status: OrderStatus, at: Option<int>): (r: Result<LedgerOrder, Error>)
    ensures r.Err? <==> Field(order, "payment") == None || Field(order, "payment") == Some(JNull)
    ensures r.Err? ==> r.error == TypeError
    ensures r.Ok? ==>
      && r.value.paymentId == OptionalMember(Field(order, "payment"), "id")
      && r.value.paymentAmount == OptionalMember(Field(order, "payment"), "amount")
      && r.value.status == status && r.value.paidAt == at && r.value.updatedAt == at
  {
    var paymentId :- Member(Field(order, "payment"), "id");
    // `payment` is neither null nor undefined here, so `payment.amount` reads like `payment?.amount`
    Ok(LedgerOrder(ToText(Some(order.id)), ToText(Field(order, "product")), paymentId, Gazprom,
      OptionalMember(Field(order, "payment"), "amount"), status, at, at))
  }

  /** The rejected branch: ledger records, then the order's status and a transaction in the document store. */
  function Reject(w: World, c: Checked, request: Row<IncomingRequest>, env: CompletionEnv): (o: Outcome<ExecutionResult>)
    ensures o.result.Err? ==> o.world == w && (o.result.error == TypeError || o.result.error.DatabaseError?)
    ensures o.result.Ok? ==> o.world.db.incomingRequests == SetRequestStatus(w.db, request.id, Processed).incomingRequests
    ensures o.result.Ok? ==> o.result.value.orderProcessed
  {
    RejectOrderOnlyStatus(w.mongo, c.order.id);
    var transaction := TransactionRecord(c.owner, c.order, c.commissionSubtracted, c.pan);
    match LedgerOrderRecord(c.order, Rejected, None)
    case Err(e) => Raise(w, e)
    case Ok(orderRecord) =>
      match RejectTransaction(w.db, transaction, orderRecord, request.id, env.run.fault)
      case Err(e) => Raise(w, e)
      case Ok(db) =>
        match RejectOrderInMongo(w.mongo, c.order.id)
        case Err(e) => Raise(w.(db := db), e)
        case Ok(mongo) =>
          var mongo' := InsertTransactionInMongo(mongo, TransactionDocument(c.owner, c.order, c.commissionSubtracted, c.pan), env.transactionOid);
          Outcome(w.(db := db, mongo := mongo'), Ok(ExecutionResult(true, c.order, c.owner, 0.0, 0.0)))
  }

  /** `Number.parseFloat(order.royalty)`. */
  function Royalty(order: Document): Option<real>
  {
    ParseFloatValue(Field(order, "royalty"))
  }

  /** The amount credited to the owner: the royalty is subtracted only when it is an integer. */
  function FinalAmount(c: Checked): (r: real)
    ensures IsInteger(Royalty(c.order)) ==> r == c.commissionSubtracted - Royalty(c.order).value
    ensures !IsInteger(Royalty(c.order)) ==> r == c.commissionSubtracted
  {
    c.commissionSubtracted - (if IsInteger(Royalty(c.order)) then Royalty(c.order).value else 0.0)
  }

  /** `product.recurrent?.status === true`. */
  predicate IsPaidRecurrently(product: Document)
  {
    OptionalMember(Field(product, "recurrent"), "status") == Some(JBool(true))
  }

  /** The fields the settled order gets in the document store. */
  function ConfirmSets(untouched: real, nowMs: int): (sets: seq<(Path, Json)>)
    ensures forall i :: 0 <= i < |sets| ==> |sets[i].0| > 0
    ensures forall i, j :: 0 <= i < j < |sets| ==> sets[i].0[0] != sets[j].0[0]
  {
    [(["payment", "amount"], JNum(untouched)), (["status"], JStr(OrderStatusText(Confirmed))), (["paidAt"], JDate(nowMs))]
  }

  /** A settled order: status Confirmed, the amount before commission, and the payment time. */
  predicate ConfirmedOrder(d: Document, untouched: real, nowMs: int)
  {
    && Lookup(d, ["status"]) == Some(JStr(OrderStatusText(Confirmed)))
    && Lookup(d, ["payment", "amount"]) == Some(JNum(untouched))
    && Lookup(d, ["paidAt"]) == Some(JDate(nowMs))
  }

  /**
   * The confirmation update, where it succeeds, leaves the order confirmed
   * with the amount before commission and the payment time, under the same id
   * and with every field other than `status`, `payment` and `paidAt` as it was.
   */
  lemma ConfirmSetsConfirm(d: Document, untouched: real, nowMs: int)
    ensures var r := SetAll(d, ConfirmSets(untouched, nowMs));
      r.Ok? ==>
        && r.value.id == d.id
        && ConfirmedOrder(r.value, untouched, nowMs)
        && forall k :: k !in {"status", "payment", "paidAt"} ==> Field(r.value, k) == Field(d, k)
  {
    var sets := ConfirmSets(untouched, nowMs);
    var r := SetAll(d, sets);
    if r.Ok? {
      assert sets[0].0 == ["payment", "amount"] && sets[1].0 == ["status"] && sets[2].0 == ["paidAt"];
      forall k | k !in {"status", "payment", "paidAt"}
        ensures Field(r.value, k) == Field(d, k)
      {
        assert forall i :: 0 <= i < |sets| ==> sets[i].0[0] != k;
      }
    }
  }

  /** Confirming in the document store leaves the order found by its id confirmed. */
  lemma ConfirmOrderConfirms(m: Mongo, id: Json, untouched: real, nowMs: int)
    ensures var r := ConfirmOrderInMongo(m, id, ConfirmSets(untouched, nowMs));
      r.Ok? && FirstMatch(m.orders, ById(id)).Some? ==>
        var i := FirstMatch(m.orders, ById(id)).value;
        r.value.orders[i].id == m.orders[i].id && ConfirmedOrder(r.value.orders[i], untouched, nowMs)
  {
    var i := FirstMatch(m.orders, ById(id));
    if i.Some? {
      ConfirmSetsConfirm(m.orders[i.value], untouched, nowMs);
    }
  }

  /** The settled branch: the owner's balance, the ledger transaction, then the document store. */
  function Confirm(w: World, c: Checked, request: Row<IncomingRequest>, env: CompletionEnv): (o: Outcome<ExecutionResult>)
    ensures o.result.Err? ==> o.world.mongo == w.mongo
    ensures o.result.Err? && o.result.error != MongoWriteError ==> o.world.db == w.db
    ensures o.result.Ok? ==> o.world.db.incomingRequests == SetRequestStatus(w.db, request.id, Processed).incomingRequests
    ensures o.result.Ok? ==> o.result.value.orderProcessed
    ensures o.result.Ok? ==>
      o.world.mongo.transactions == InsertOne(w.mongo.transactions, TransactionDocument(c.owner, c.order, FinalAmount(c), c.pan), env.transactionOid)
    ensures o.result.Ok? ==> |o.world.mongo.orders| == |w.mongo.orders|
    ensures o.result.Ok? && FirstMatch(w.mongo.orders, ById(c.order.id)).Some? ==>
      var i := FirstMatch(w.mongo.orders, ById(c.order.id)).value;
      && o.world.mongo.orders[i].id == w.mongo.orders[i].id
      && ConfirmedOrder(o.world.mongo.orders[i], c.untouchedAmount, env.run.nowMs)
      && (forall j :: 0 <= j < |w.mongo.orders| && j != i ==> o.world.mongo.orders[j] == w.mongo.orders[j])
  {
    var finalAmount := FinalAmount(c);
    var s8 :- FindUserBalance(w, request.id, Field(c.product, "user"), RubText);
    var w8 := s8.0;
    var transaction := TransactionRecord(c.owner, c.order, finalAmount, c.pan);
    match LedgerOrderRecord(c.order, Confirmed, Some(env.run.nowMs))
    case Err(e) => Raise(w8, e)
    case Ok(orderRecord) =>
      var params := TransactionParams(c.order, c.product, c.owner, s8.1, orderRecord, transaction, request, IsPaidRecurrently(c.product));
      match ExecuteSpec(w8.db, params, env.run)
      case Err(e) => Raise(w8, e)
      case Ok(db) =>
        ExecuteEffects(w8.db, params, env.run);
        match ConfirmOrderInMongo(w8.mongo, c.order.id, ConfirmSets(c.untouchedAmount, env.run.nowMs))
        case Err(e) => Raise(w8.(db := db), e)
        case Ok(mongo) =>
          ConfirmOrderConfirms(w8.mongo, c.order.id, c.untouchedAmount, env.run.nowMs);
          var mongo' := InsertTransactionInMongo(mongo, TransactionDocument(c.owner, c.order, finalAmount, c.pan), env.transactionOid);
          Outcome(w8.(db := db, mongo := mongo'), Ok(ExecutionResult(true, c.order, c.owner, finalAmount, c.untouchedAmount)))
  }

  /** `execute`: the checks, then the rejected or the settled branch. */
  function CompletionOutcome(w: World, request: Row<IncomingRequest>, env: CompletionEnv): (o: Outcome<ExecutionResult>)
    ensures o.result.Ok? ==> o.result.value.orderProcessed
  {
    var s :- Prelude(w, request, env);
    if IsRejection(request.data.payload) then Reject(s.0, s.1, request, env) else Confirm(s.0, s.1, request, env)
  }

  /** `getFinalResult`: the gateway is always told the payment was registered. */
  function CompletionAnswer(): (r: FinalResult)
    ensures r.contentType == Xml && ResponseTags(r) == ["result"]
  {
    FinalResult([Node("register-payment-response", [ResultElement(1, "accept payment")])], Xml)
  }

  // ---------------------------------------------------------------------------
  // Properties of a completion run

  /** An unusable certificate stops the run with its log entry and nothing else. */
  lemma CertificateCheckedFirst(w: World, request: Row<IncomingRequest>, env: CompletionEnv)
    requires var c := CertificateFor(env.certificates, request.data.payload); c.None? || |c.value| == 0
    ensures CompletionOutcome(w, request, env) == Outcome(
      Logged(w, LogEntry(CertificateContentIsUnrecognizable, Payload([("incomingRequestPayload", Some(JObj(request.data.payload)))]))),
      Err(BadRequest(WrongRequestData)))
  {
  }

  /** A wrong signature fails the request before any document is read or written. */
  lemma SignatureCheckedBeforeLookups(w: World, request: Row<IncomingRequest>, env: CompletionEnv)
    requires var c := CertificateFor(env.certificates, request.data.payload);
      c.Some? && |c.value| > 0 && !IsSignatureCorrect(request.data, c.value, env.verify)
    ensures var o := CompletionOutcome(w, request, env);
      && o.world == ClaimSignatureIncorrectness(w, request.id).world
      && o.world.mongo == w.mongo
      && o.result == Err(BadRequest(SignatureIncorrect))
  {
  }

  /** Every failed run leaves the document store as it was. */
  lemma FailureKeepsDocuments(w: World, request: Row<IncomingRequest>, env: CompletionEnv)
    requires CompletionOutcome(w, request, env).result.Err?
    ensures CompletionOutcome(w, request, env).world.mongo == w.mongo
  {
  }

  /**
   * A failed run leaves the ledger as it was, except after a wrong signature
   * (the request is marked Failed) and after a failed document-store update
   * (the ledger transaction has already committed).
   */
  lemma FailureKeepsLedger(w: World, request: Row<IncomingRequest>, env: CompletionEnv)
    requires var o := CompletionOutcome(w, request, env);
      o.result.Err? && o.result.error != BadRequest(SignatureIncorrect) && o.result.error != MongoWriteError
    ensures CompletionOutcome(w, request, env).world.db == w.db
  {
  }

  /** A successful run leaves the request Processed in the ledger, in either branch. */
  lemma SuccessMarksRequestProcessed(w: World, request: Row<IncomingRequest>, env: CompletionEnv)
    requires ValidTable(w.db.incomingRequests) && request.id in Ids(w.db.incomingRequests.rows)
    requires CompletionOutcome(w, request, env).result.Ok?
    ensures var requests := CompletionOutcome(w, request, env).world.db.incomingRequests;
      FindById(requests, request.id).Some? && FindById(requests, request.id).value.data.status == Processed
  {
    SetRequestStatusEffect(w.db, request.id, Processed);
  }

  /**
   * A rejected payment is recorded with the commission-subtracted amount, yet
   * reported with zero amounts; no balance, balance update or queued payment
   * is written.
   */
  lemma RejectionEffects(w: World, request: Row<IncomingRequest>, env: CompletionEnv)
    requires CompletionOutcome(w, request, env).result.Ok? && IsRejection(request.data.payload)
    ensures Prelude(w, request, env).result.Ok?
    ensures var c := Prelude(w, request, env).result.value;
      var o := CompletionOutcome(w, request, env);
      && o.result.value == ExecutionResult(true, c.order, c.owner, 0.0, 0.0)
      && o.world.db.balances == w.db.balances
      && o.world.db.balanceUpdates == w.db.balanceUpdates
      && o.world.db.recurrentPayments == w.db.recurrentPayments
      && o.world.db.paymentTransactions.rows == w.db.paymentTransactions.rows
           + [Row(w.db.paymentTransactions.nextId, TransactionRecord(c.owner, c.order, c.commissionSubtracted, c.pan))]
      && |o.world.db.orders.rows| == |w.db.orders.rows| + 1
      && o.world.db.orders.rows[|w.db.orders.rows|].data.status == Rejected
      && o.world.mongo.transactions == InsertOne(w.mongo.transactions,
           TransactionDocument(c.owner, c.order, c.commissionSubtracted, c.pan), env.transactionOid)
  {
    var pre := Prelude(w, request, env);
    RejectOrderOnlyStatus(pre.world.mongo, pre.result.value.order.id);
  }

  /**
   * A settled payment credits the same final amount everywhere: the ledger
   * transaction, the single balance increment, the document-store
   * transaction and the reported result.
   */
  lemma SettlementEffects(w: World, request: Row<IncomingRequest>, env: CompletionEnv)
    requires CompletionOutcome(w, request, env).result.Ok? && !IsRejection(request.data.payload)
    ensures Prelude(w, request, env).result.Ok?
    ensures var c := Prelude(w, request, env).result.value;
      var o := CompletionOutcome(w, request, env);
      var r := o.result.value;
      && r == ExecutionResult(true, c.order, c.owner, FinalAmount(c), c.untouchedAmount)
      && o.world.db.paymentTransactions.rows == w.db.paymentTransactions.rows
           + [Row(w.db.paymentTransactions.nextId, TransactionRecord(c.owner, c.order, r.finalAmount, c.pan))]
      && |o.world.db.balanceUpdates.rows| == |w.db.balanceUpdates.rows| + 1
      && o.world.db.balanceUpdates.rows[|w.db.balanceUpdates.rows|].data.amount == r.finalAmount
      && o.world.db.balanceUpdates.rows[|w.db.balanceUpdates.rows|].data.operation == Increment
      && |o.world.db.orders.rows| == |w.db.orders.rows| + 1
      && o.world.db.orders.rows[|w.db.orders.rows|].data.status == Confirmed
      && o.world.mongo.transactions == InsertOne(w.mongo.transactions,
           TransactionDocument(c.owner, c.order, r.finalAmount, c.pan), env.transactionOid)
    ensures var c := Prelude(w, request, env).result.value;
      var o := CompletionOutcome(w, request, env);
      && FirstMatch(w.mongo.orders, ById(c.order.id)).Some?
      && var i := FirstMatch(w.mongo.orders, ById(c.order.id)).value;
         && o.world.mongo.orders[i].id == w.mongo.orders[i].id
         && ConfirmedOrder(o.world.mongo.orders[i], c.untouchedAmount, env.run.nowMs)
  {
    var pre := Prelude(w, request, env);
    var c := pre.result.value;
    var s8 := FindUserBalance(pre.world, request.id, Field(c.product, "user"), RubText);
    var orderRecord := LedgerOrderRecord(c.order, Confirmed, Some(env.run.nowMs)).value;
    var params := TransactionParams(c.order, c.product, c.owner, s8.result.value, orderRecord,
      TransactionRecord(c.owner, c.order, FinalAmount(c), c.pan), request, IsPaidRecurrently(c.product));
    ExecuteEffects(w.db, params, env.run);
    assert Matches(c.order, ById(c.order.id));
  }

  /**
   * When the order's `payment` is a string, the settled branch commits the
   * ledger transaction and then fails to set `payment.amount` in the document
   * store: the ledger records a payment the document store never confirms.
   */
  lemma TextPaymentLeavesStoresInconsistent(w: World, request: Row<IncomingRequest>, env: CompletionEnv)
    requires Prelude(w, request, env).result.Ok? && !IsRejection(request.data.payload)
    requires UniqueIds(w.mongo.orders)
    requires var c := Prelude(w, request, env).result.value;
      Field(c.order, "payment").Some? && Field(c.order, "payment").value.JStr?
    requires var c := Prelude(w, request, env).result.value;
      FindUserBalance(Prelude(w, request, env).world, request.id, Field(c.product, "user"), RubText).result.Ok?
    requires env.run.fault == None && env.run.scheduler == Intended
    ensures var o := CompletionOutcome(w, request, env);
      && o.result == Err(MongoWriteError)
      && o.world.mongo == w.mongo
      && |o.world.db.paymentTransactions.rows| == |w.db.paymentTransactions.rows| + 1
      && |o.world.db.balanceUpdates.rows| == |w.db.balanceUpdates.rows| + 1
  {
    var pre := Prelude(w, request, env);
    var c := pre.result.value;
    var s8 := FindUserBalance(pre.world, request.id, Field(c.product, "user"), RubText);
    var orderRecord := LedgerOrderRecord(c.order, Confirmed, Some(env.run.nowMs)).value;
    var params := TransactionParams(c.order, c.product, c.owner, s8.result.value, orderRecord,
      TransactionRecord(c.owner, c.order, FinalAmount(c), c.pan), request, IsPaidRecurrently(c.product));
    ExecuteCommits(w.db, params, env.run);
    ExecuteEffects(w.db, params, env.run);
    var i :| 0 <= i < |w.mongo.orders| && w.mongo.orders[i] == c.order;
    ByIdFindsItself(w.mongo.orders, i);
    var sets := ConfirmSets(c.untouchedAmount, env.run.nowMs);
    assert Get(c.order.fields, "payment") == Field(c.order, "payment");
    assert SetField(c.order, sets[0].0, sets[0].1).Err?;
    assert SetAll(c.order, sets).Err?;
  }

  class CompletionWebhook {
    const request: Row<IncomingRequest>
    var executionResult: Option<ExecutionResult>

    constructor (request: Row<IncomingRequest>)
      ensures this.request == request && executionResult == None
    {
      this.request := request;
      executionResult := None;
    }

    /** `execute`: runs against the stores; the execution result is set only when it completes. */
    method Execute(st: Stores, env: CompletionEnv) returns (r: Result<(), Error>)
      modifies this, st
      ensures var o := CompletionOutcome(old(st.State()), request, env);
        && st.State() == o.world
        && (r.Ok? <==> o.result.Ok?)
        && (r.Ok? ==> executionResult == Some(o.result.value))
        && (r.Err? ==> r.error == o.result.error && executionResult == old(executionResult))
    {
      var pre := Prelude(st.State(), request, env);
      st.db, st.mongo, st.log := pre.world.db, pre.world.mongo, pre.world.log;
      if pre.result.Err? {
        return Err(pre.result.error);
      }
      var c := pre.result.value;
      if IsRejection(request.data.payload) {
        var o := Reject(st.State(), c, request, env);
        st.db, st.mongo, st.log := o.world.db, o.world.mongo, o.world.log;
        if o.result.Err? {
          return Err(o.result.error);
        }
        executionResult := Some(o.result.value);
        return Ok(());
      }

      var settled := Settle(st, c, env);
      if settled.Err? {
        return Err(settled.error);
      }
      executionResult := Some(settled.value);
      r := Ok(());
    }

    /** The settled branch: the ledger transaction, then the document-store order and transaction. */
    method Settle(st: Stores, c: Checked, env: CompletionEnv) returns (r: Result<ExecutionResult, Error>)
      modifies st
      ensures Confirm(old(st.State()), c, request, env) == Outcome(st.State(), r)
    {
      var balance := FindUserBalance(st.State(), request.id, Field(c.product, "user"), RubText);
      st.log := balance.world.log;
      if balance.result.Err? {
        return Err(balance.result.error);
      }
      var finalAmount := FinalAmount(c);
      var orderRecord := LedgerOrderRecord(c.order, Confirmed, Some(env.run.nowMs));
      if orderRecord.Err? {
        return Err(orderRecord.error);
      }
      var params := TransactionParams(c.order, c.product, c.owner, balance.result.value, orderRecord.value,
        TransactionRecord(c.owner, c.order, finalAmount, c.pan), request, IsPaidRecurrently(c.product));
      var executor := new CompleteTransactionExecutor(params);
      var committed := executor.Execute(st, env.run);
      if committed.Err? {
        return Err(committed.error);
      }
      var confirmed := ConfirmOrderInMongo(st.mongo, c.order.id, ConfirmSets(c.untouchedAmount, env.run.nowMs));
      if confirmed.Err? {
        return Err(confirmed.error);
      }
      st.mongo := InsertTransactionInMongo(confirmed.value, TransactionDocument(c.owner, c.order, finalAmount, c.pan), env.transactionOid);
      r := Ok(ExecutionResult(true, c.order, c.owner, finalAmount, c.untouchedAmount));
    }
  }
}
