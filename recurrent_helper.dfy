/**
 * One row of the recurrent-payments queue, as the helper object of the
 * offset-paged executor handles it: find the parent order and its product,
 * drop the row when the product can no longer be paid recurrently, otherwise
 * clone the parent into a new order, build the gateway URL, ask the gateway to
 * charge the card, and drop the row once it has accepted.
 */
module RecurrentHelper {
  import opened Wrappers
  import opened Failures
  import opened JsValues
  import opened Enums
  import opened Ledger
  import opened Documents
  import opened Audit
  import opened StoreState

  /** What one pass over a row draws from outside: the clock, generated ids, and the gateway's answer. */
  datatype Iteration = Iteration(
    nowMs: nat,
    /** The id `new ObjectId()` generates when given nothing to parse. */
    freshOid: string,
    /** `randomstring.generate(32)`: the new order's payment id. */
    paymentKey: string,
    /** The `_id` the document store assigns to the inserted order. */
    newOid: string,
    /** Whether the gateway answered the initiation request with `ok === true`. */
    gatewayOk: bool)

  /** The settings the script reads: the configured payment system and the URLs. */
  datatype RecurrentConfig = RecurrentConfig(
    /** `PaymentSystem[process.env.PAYMENT_SYSTEM]`; undefined when the variable names no member. */
    system: Option<PaymentSystem>,
    mainUrl: string,
    merchId: string,
    failedPaymentUrl: string,
    initiationUrl: string)

  // ---------------------------------------------------------------------------
  // ObjectId

  predicate IsHexDigit(c: char)
  {
    '0' <= c <= '9' || 'a' <= c <= 'f' || 'A' <= c <= 'F'
  }

  /** The number a hexadecimal digit stands for, in either case. */
  function HexValue(c: char): (n: nat)
    requires IsHexDigit(c)
    ensures n < 16
  {
    if '0' <= c <= '9' then c as int - '0' as int
    else if 'a' <= c <= 'f' then c as int - 'a' as int + 10
    else c as int - 'A' as int + 10
  }

  /** A hexadecimal digit in lower case, standing for the same number; any other character is kept. */
  function LowerHexDigit(c: char): (d: char)
    ensures IsHexDigit(c) ==> ('0' <= d <= '9' || 'a' <= d <= 'f') && HexValue(d) == HexValue(c)
    ensures !IsHexDigit(c) ==> d == c
  {
    if 'A' <= c <= 'F' then (c as int + 32) as char else c
  }

  /** The text form the driver accepts: 24 hexadecimal digits, in either case. */
  predicate IsObjectIdText(s: string)
  {
    |s| == 24 && forall i :: 0 <= i < |s| ==> IsHexDigit(s[i])
  }

  /** An id's canonical text: lower-case hexadecimal. */
  predicate IsCanonicalObjectId(s: string)
  {
    |s| == 24 && forall i :: 0 <= i < |s| ==> '0' <= s[i] <= '9' || 'a' <= s[i] <= 'f'
  }

  function LowerHex(s: string): (t: string)
    ensures |t| == |s|
    ensures forall i :: 0 <= i < |s| ==> t[i] == LowerHexDigit(s[i])
    ensures forall i :: 0 <= i < |s| && IsHexDigit(s[i]) ==> IsHexDigit(t[i]) && HexValue(t[i]) == HexValue(s[i])
    ensures IsObjectIdText(s) ==> IsCanonicalObjectId(t)
  {
    seq(|s|, i requires 0 <= i < |s| => LowerHexDigit(s[i]))
  }

  /**
   * `new ObjectId(v)`: an id is itself; hexadecimal text is parsed; undefined,
   * null and a number (taken as a timestamp) yield a newly generated id;
   * anything else is rejected.
   */
  function ObjectIdFrom(v: Option<Json>, freshOid: string): (r: Result<Json, Error>)
    ensures r.Ok? ==> r.value.JOid?
    ensures r.Err? ==> r.error == ObjectIdError
    ensures v.Some? && v.value.JStr? ==> (r.Ok? <==> IsObjectIdText(v.value.s))
    ensures v.Some? && v.value.JStr? && r.Ok? ==> IsCanonicalObjectId(r.value.oid)
    ensures v.Some? && v.value.JStr? && r.Ok? ==> r.value == JOid(LowerHex(v.value.s))
    ensures v.Some? && v.value.JOid? ==> r == Ok(v.value)
    ensures v in {None, Some(JNull)} || (v.Some? && v.value.JNum?) ==> r == Ok(JOid(freshOid))
  {
    match v
    case None => Ok(JOid(freshOid))
    case Some(JNull) => Ok(JOid(freshOid))
    case Some(JNum(_)) => Ok(JOid(freshOid))
    case Some(JOid(h)) => Ok(JOid(h))
    case Some(JStr(s)) => if IsObjectIdText(s) then Ok(JOid(LowerHex(s))) else Err(ObjectIdError)
    case Some(_) => Err(ObjectIdError)
  }

  /** The canonical text of an id parses back to that same id. */
  lemma ObjectIdRoundTrip(h: string, freshOid: string)
    requires IsCanonicalObjectId(h)
    ensures ObjectIdFrom(Some(JStr(ToText(Some(JOid(h))))), freshOid) == Ok(JOid(h))
  {
    assert ToText(Some(JOid(h))) == h;
    assert IsObjectIdText(h);
    assert LowerHex(h) == h;
  }

  // ---------------------------------------------------------------------------
  // fillDataSource

  /** The order and product found for a row, and whether the row may proceed. */
  datatype Source = Source(order: Option<Document>, product: Option<Document>, allowed: bool)

  /** The product exists, is active, is still paid recurrently and still accepts the configured system. */
  function Eligible(product: Option<Document>, system: Option<PaymentSystem>): (ok: bool)
    ensures ok ==> product.Some? && "active" in product.value.fields && product.value.fields["active"] == JBool(true)
    ensures ok ==>
      && system.Some? && "paymentType" in product.value.fields
      && product.value.fields["paymentType"].JArr?
      && JStr(PaymentSystemText(system.value)) in product.value.fields["paymentType"].items
    ensures ok ==> OptionalMember(Field(product.value, "recurrent"), "status") == Some(JBool(true))
    ensures system.None? ==> !ok
    ensures
      && product.Some? && system.Some?
      && "active" in product.value.fields && product.value.fields["active"] == JBool(true)
      && "recurrent" in product.value.fields && product.value.fields["recurrent"].JObj?
      && "status" in product.value.fields["recurrent"].fields && product.value.fields["recurrent"].fields["status"] == JBool(true)
      && "paymentType" in product.value.fields && product.value.fields["paymentType"].JArr?
      && JStr(PaymentSystemText(system.value)) in product.value.fields["paymentType"].items
      ==> ok
  {
    && product.Some?
    && Field(product.value, "active") == Some(JBool(true))
    && OptionalMember(Field(product.value, "recurrent"), "status") == Some(JBool(true))
    && Field(product.value, "paymentType").Some?
    && Field(product.value, "paymentType").value.JArr?
    && system.Some?
    && JStr(PaymentSystemText(system.value)) in Field(product.value, "paymentType").value.items
  }

  /** `deleteRecurrentPaymentsQueueRecord`: DELETE of the row with this id. */
  function DeleteRecord(w: World, id: nat): World
  {
    w.(db := w.db.(recurrentPayments := Delete(w.db.recurrentPayments, id)))
  }

  /** The deletion removes the row with that id and keeps every other row, in order. */
  lemma DeleteRemovesOnlyThatRow(w: World, id: nat)
    requires ValidTable(w.db.recurrentPayments)
    ensures var q := DeleteRecord(w, id).db.recurrentPayments;
      && ValidTable(q)
      && Ids(q.rows) == Ids(w.db.recurrentPayments.rows) - {id}
      && (forall r :: r in w.db.recurrentPayments.rows && r.id != id ==> r in q.rows)
    ensures DeleteRecord(w, id).mongo == w.mongo && DeleteRecord(w, id).log == w.log
  {
    WithoutValid(w.db.recurrentPayments, id);
  }

  /** `fillDataSource`. */
  function DataSource(w: World, rec: Row<RecurrentPayment>, system: Option<PaymentSystem>, freshOid: string): (o: Outcome<Source>)
    ensures o.result.Err? ==> o.world == w && o.result.error == ObjectIdError
    ensures o.result.Ok? && o.result.value.allowed ==> o.world == w
    ensures o.result.Ok? && !o.result.value.allowed ==> o.world == DeleteRecord(w, rec.id)
    ensures o.result.Ok? ==>
      (o.result.value.allowed <==> o.result.value.order.Some? && Eligible(o.result.value.product, system))
    ensures o.result.Ok? && o.result.value.order.Some? ==> o.result.value.order.value in w.mongo.orders
    ensures o.result.Ok? && o.result.value.product.Some? ==> o.result.value.product.value in w.mongo.products
    ensures ObjectIdFrom(Some(JStr(rec.data.orderIdMongo)), freshOid).Err? ==> o.result.Err?
    ensures o.result.Ok? ==>
      var oid := ObjectIdFrom(Some(JStr(rec.data.orderIdMongo)), freshOid);
      oid.Ok? && o.result.value.order == FindOne(w.mongo.orders, ById(oid.value))
    ensures o.result.Ok? && o.result.value.order.None? ==> o.result.value.product.None?
    ensures o.result.Ok? && o.result.value.order.Some? ==>
      var pid := ObjectIdFrom(Field(o.result.value.order.value, "product"), freshOid);
      pid.Ok? && o.result.value.product == FindOne(w.mongo.products, ById(pid.value))
  {
    match ObjectIdFrom(Some(JStr(rec.data.orderIdMongo)), freshOid)
    case Err(e) => Raise(w, e)
    case Ok(oid) =>
      var order := FindOne(w.mongo.orders, ById(oid));
      if order.None? then Outcome(DeleteRecord(w, rec.id), Ok(Source(None, None, false)))
      else
        match ObjectIdFrom(Field(order.value, "product"), freshOid)
        case Err(e) => Raise(w, e)
        case Ok(pid) =>
          var product := FindOne(w.mongo.products, ById(pid));
          if !Eligible(product, system) then Outcome(DeleteRecord(w, rec.id), Ok(Source(order, product, false)))
          else Outcome(w, Ok(Source(order, product, true)))
  }

  /**
   * The row the scheduler queues for a paid order leads the helper back to
   * that order: its `orderIdMongo` parses to the order's id, and the order is
   * the one document with that id.
   */
  lemma QueuedRowFindsParentOrder(w: World, i: nat, rec: Row<RecurrentPayment>, system: Option<PaymentSystem>, freshOid: string)
    requires UniqueIds(w.mongo.orders) && i < |w.mongo.orders|
    requires w.mongo.orders[i].id.JOid? && IsCanonicalObjectId(w.mongo.orders[i].id.oid)
    requires rec.data.orderIdMongo == ToText(Some(w.mongo.orders[i].id))
    ensures var o := DataSource(w, rec, system, freshOid);
      o.result.Ok? ==> o.result.value.order == Some(w.mongo.orders[i])
  {
    ObjectIdRoundTrip(w.mongo.orders[i].id.oid, freshOid);
    ByIdFindsItself(w.mongo.orders, i);
  }

  // ---------------------------------------------------------------------------
  // createOrder

  /** The parent's fields the new order leaves out. */
  const StrippedKeys: set<string> := {"questions", "updatedAt", "paidAt", "receipt", "_id"}

  /** The fields the new order sets itself. */
  const OverriddenKeys: set<string> := {"status", "payment", "recurrent", "createdAt"}

  /** The new order's `payment`: a fresh id, the transaction to rebill, the price, and the parent's type and commission. */
  function NewPayment(paymentKey: string, trxId: Option<Json>, amount: Option<Json>, paymentType: Option<Json>, commission: Option<Json>): Json
  {
    JObj(map[
      "id" := JStr(paymentKey),
      "trx_id" := Stored(trxId),
      "amount" := Stored(amount),
      "type" := Stored(paymentType),
      "commission" := Stored(commission)])
  }

  /** The fields the new order sets over the parent's. */
  function Overrides(payment: Json, trxId: Option<Json>, nowMs: nat): (m: Fields)
    ensures m.Keys == OverriddenKeys
  {
    map[
      "status" := JStr(OrderStatusText(Created)),
      "payment" := payment,
      "recurrent" := JObj(map["rebill" := Stored(trxId), "status" := JBool(false)]),
      "createdAt" := JDate(nowMs)]
  }

  /**
   * The new order: the parent spread into a fresh record, overridden by
   * `Overrides`, with the parent's questions, timestamps, receipt and id
   * removed. Reading the product's price or the parent's payment type fails
   * on a null or missing object.
   */
  function NewOrderRecord(order: Document, product: Document, trxId: Option<Json>, paymentKey: string, nowMs: nat): (r: Result<Fields, Error>)
    ensures r.Err? <==>
      Field(product, "price") in {None, Some(JNull)} || Field(order, "payment") in {None, Some(JNull)}
    ensures r.Err? ==> r.error == TypeError
    ensures r.Ok? ==> "_id" !in r.value
  {
    var amount :- Member(Field(product, "price"), "GAZPROM");
    var paymentType :- Member(Field(order, "payment"), "type");
    // `payment` was just read without error, so reading `commission` cannot fail either.
    var commission := OptionalMember(Field(order, "payment"), "commission");
    var payment := NewPayment(paymentKey, trxId, amount, paymentType, commission);
    Ok((AsValue(order).fields + Overrides(payment, trxId, nowMs)) - StrippedKeys)
  }

  /**
   * The new order keeps every field of the parent except the stripped and
   * overridden ones, drops the stripped ones, and carries status Created, a
   * payment with the new id, the transaction id, the product's Gazprom price
   * and the parent's type and commission, a recurrence marker pointing at the
   * transaction, and its creation date.
   */
  lemma NewOrderCopiesParent(order: Document, product: Document, trxId: Option<Json>, paymentKey: string, nowMs: nat)
    requires NewOrderRecord(order, product, trxId, paymentKey, nowMs).Ok?
    ensures var r := NewOrderRecord(order, product, trxId, paymentKey, nowMs).value;
      && (forall k :: k in StrippedKeys ==> k !in r)
      && (forall k :: k in r ==> k in order.fields || k in OverriddenKeys)
      && (forall k :: k in order.fields && k !in StrippedKeys && k !in OverriddenKeys ==> k in r && r[k] == order.fields[k])
      && r["status"] == JStr(OrderStatusText(Created))
      && r["createdAt"] == JDate(nowMs)
      && r["recurrent"] == JObj(map["rebill" := Stored(trxId), "status" := JBool(false)])
      && r["payment"] == NewPayment(paymentKey, trxId,
           OptionalMember(Field(product, "price"), "GAZPROM"),
           OptionalMember(Field(order, "payment"), "type"),
           OptionalMember(Field(order, "payment"), "commission"))
  {
    var payment := NewPayment(paymentKey, trxId,
      OptionalMember(Field(product, "price"), "GAZPROM"),
      OptionalMember(Field(order, "payment"), "type"),
      OptionalMember(Field(order, "payment"), "commission"));
    var ov := Overrides(payment, trxId, nowMs);
    var r := NewOrderRecord(order, product, trxId, paymentKey, nowMs).value;
    assert r == (AsValue(order).fields + ov) - StrippedKeys;
    forall k | k in order.fields && k !in StrippedKeys && k !in OverriddenKeys
      ensures k in r && r[k] == order.fields[k]
    {
      assert k != "_id";
      assert k !in ov;
    }
  }

  /**
   * `createOrder`: the record is inserted, and the driver writes the generated
   * `_id` back into it; that record is the helper's `orderRecord`.
   */
  function OrderCreation(w: World, order: Option<Document>, product: Option<Document>, rec: Row<RecurrentPayment>, it: Iteration): (o: Outcome<Fields>)
    ensures o.result.Err? ==> o.world == w && o.result.error == TypeError
    ensures o.result.Err? <==> (order.None? || product.None? ||
      NewOrderRecord(order.value, product.value, Get(rec.data.metadata, "trxId"), it.paymentKey, it.nowMs).Err?)
    ensures o.result.Ok? ==>
      var fields := NewOrderRecord(order.value, product.value, Get(rec.data.metadata, "trxId"), it.paymentKey, it.nowMs).value;
      && o.result.value == fields["_id" := JOid(it.newOid)]
      && o.world == w.(mongo := w.mongo.(orders := w.mongo.orders + [Document(JOid(it.newOid), fields)]))
  {
    var trxId := Get(rec.data.metadata, "trxId");
    if product.None? || order.None? then Raise(w, TypeError)
    else
      match NewOrderRecord(order.value, product.value, trxId, it.paymentKey, it.nowMs)
      case Err(e) => Raise(w, e)
      case Ok(fields) =>
        assert "_id" !in fields;
        assert fields - {"_id"} == fields;
        var orders := InsertOne(w.mongo.orders, fields, it.newOid);
        assert orders == w.mongo.orders + [Document(JOid(it.newOid), fields)];
        Outcome(w.(mongo := w.mongo.(orders := orders)), Ok(fields["_id" := JOid(it.newOid)]))
  }

  // ---------------------------------------------------------------------------
  // buildPaymentUrl

  /** Where the gateway sends the payer after a success: the product's redirect, or the order page. */
  function SuccessUrl(order: Document, product: Option<Document>, mainUrl: string): (s: string)
    ensures var redirect := if product.Some? then Field(product.value, "redirect") else None;
      if redirect.Some? && redirect.value.JStr? && |redirect.value.s| > 1 then s == redirect.value.s
      else s == mainUrl + "/order/confirmed?order=" + ToText(Field(order, "payer"))
  {
    var redirect := if product.Some? then Field(product.value, "redirect") else None;
    match redirect
    case Some(JStr(r)) => if |r| > 1 then r else mainUrl + "/order/confirmed?order=" + ToText(Field(order, "payer"))
    case _ => mainUrl + "/order/confirmed?order=" + ToText(Field(order, "payer"))
  }

  /** A value as `querystring.stringify` writes it: strings, finite numbers and booleans as text, all else empty. */
  function QueryPrimitive(v: Option<Json>): (t: string)
    ensures v.Some? && v.value.JStr? ==> t == v.value.s
    ensures v.Some? && v.value.JNum? && IsInteger(Some(v.value.n)) ==> ParseFloat(t) == Some(v.value.n)
    ensures v.None? || v == Some(JNull) || (v.Some? && (v.value.JObj? || v.value.JArr? || v.value.JOid? || v.value.JDate?)) ==> t == ""
    ensures v.Some? && v.value.JBool? ==> t == (if v.value.b then "true" else "false")
  {
    match v
    case Some(JStr(s)) => s
    case Some(JNum(n)) =>
      if IsInteger(Some(n)) then IntegerTextRoundTrip(n); JsonText(JNum(n))
      else JsonText(JNum(n))
    case Some(JBool(b)) => if b then "true" else "false"
    case _ => ""
  }

  /**
   * A number with at most `MaxFractionDigits` decimal places is written so
   * that `parseFloat` reads the same number back.
   */
  lemma QueryNumberReadBack(n: real, k: nat)
    requires k <= MaxFractionDigits && IsWhole(Scaled(n, k))
    ensures ParseFloat(QueryPrimitive(Some(JNum(n)))) == Some(n)
  {
    DecimalTextRoundTrip(n, k);
    if !IsInteger(Some(n)) {
      assert QueryPrimitive(Some(JNum(n))) == ToText(Some(JNum(n)));
    }
  }

  /** The `key=value` pairs of one property; an array gives one pair per item, none when empty. */
  function PropertyPairs(key: string, v: Option<Json>): (r: seq<string>)
    ensures (v.None? || !v.value.JArr?) ==> r == [key + "=" + QueryPrimitive(v)]
  {
    match v
    case Some(JArr(items)) => seq(|items|, j requires 0 <= j < |items| => key + "=" + QueryPrimitive(Some(items[j])))
    case _ => [key + "=" + QueryPrimitive(v)]
  }

  function AllPairs(params: seq<(string, Option<Json>)>): seq<string>
  {
    if |params| == 0 then [] else PropertyPairs(params[0].0, params[0].1) + AllPairs(params[1..])
  }

  /** The parts separated by `sep`. */
  function Join(parts: seq<string>, sep: string): string
  {
    if |parts| == 0 then "" else if |parts| == 1 then parts[0] else parts[0] + sep + Join(parts[1..], sep)
  }

  /**
   * `querystring.stringify(params, '&', '=', { encodeURIComponent: Object })`:
   * the encoder leaves every text as it is, so keys and values are joined
   * verbatim.
   */
  function QueryString(params: seq<(string, Option<Json>)>): string
  {
    Join(AllPairs(params), "&")
  }

  /** The query parameters, in the order the source lists them. */
  function QueryParams(customerKey: Option<Json>, successUrl: string, cfg: RecurrentConfig): seq<(string, Option<Json>)>
  {
    [("o.CustomerKey", customerKey),
     ("o.PaymentStatus", Some(JStr(AutoStatusText))),
     ("o.TestEnv", Some(JStr("true"))),
     ("lang_code", Some(JStr("RU"))),
     ("merch_id", Some(JStr(cfg.merchId))),
     ("back_url_s", Some(JStr(successUrl))),
     ("back_url_f", Some(JStr(cfg.failedPaymentUrl)))]
  }

  /** `buildPaymentUrl`; the customer key is the PARENT order's payment id. */
  function PaymentUrl(order: Option<Document>, product: Option<Document>, cfg: RecurrentConfig): (r: Result<string, Error>)
    ensures r.Err? <==> order.None? || Field(order.value, "payment") in {None, Some(JNull)}
    ensures r.Err? ==> r.error == TypeError
  {
    if order.None? then Err(TypeError)
    else
      var success := SuccessUrl(order.value, product, cfg.mainUrl);
      var customerKey :- Member(Field(order.value, "payment"), "id");
      Ok(cfg.initiationUrl + "?" + QueryString(QueryParams(customerKey, success, cfg)))
  }

  /** Without array values, each property gives exactly one `key=value` pair, in order. */
  lemma {:induction false} AllPairsOfScalars(params: seq<(string, Option<Json>)>)
    requires forall i :: 0 <= i < |params| ==> params[i].1.None? || !params[i].1.value.JArr?
    ensures AllPairs(params) == seq(|params|, i requires 0 <= i < |params| => params[i].0 + "=" + QueryPrimitive(params[i].1))
  {
    if |params| > 0 {
      AllPairsOfScalars(params[1..]);
    }
  }

  /**
   * With a textual payment id, the URL is the initiation address, '?', and the
   * seven pairs joined by '&', every value spliced in as it is, unencoded.
   */
  lemma PaymentUrlText(order: Document, product: Option<Document>, cfg: RecurrentConfig, id: string)
    requires OptionalMember(Field(order, "payment"), "id") == Some(JStr(id))
    ensures PaymentUrl(Some(order), product, cfg) == Ok(cfg.initiationUrl + "?" + Join([
      "o.CustomerKey=" + id,
      "o.PaymentStatus=auto",
      "o.TestEnv=true",
      "lang_code=RU",
      "merch_id=" + cfg.merchId,
      "back_url_s=" + SuccessUrl(order, product, cfg.mainUrl),
      "back_url_f=" + cfg.failedPaymentUrl], "&"))
  {
    var params := QueryParams(Some(JStr(id)), SuccessUrl(order, product, cfg.mainUrl), cfg);
    AllPairsOfScalars(params);
    var pairs := AllPairs(params);
    assert pairs[0] == "o.CustomerKey=" + id by {
      assert "o.CustomerKey" + "=" == "o.CustomerKey=";
    }
    assert pairs[1] == "o.PaymentStatus=auto";
    assert pairs[2] == "o.TestEnv=true";
    assert pairs[3] == "lang_code=RU";
    assert pairs[4] == "merch_id=" + cfg.merchId by {
      assert "merch_id" + "=" == "merch_id=";
    }
    assert pairs[5] == "back_url_s=" + SuccessUrl(order, product, cfg.mainUrl) by {
      assert "back_url_s" + "=" == "back_url_s=";
    }
    assert pairs[6] == "back_url_f=" + cfg.failedPaymentUrl by {
      assert "back_url_f" + "=" == "back_url_f=";
    }
    assert pairs == [
      "o.CustomerKey=" + id,
      "o.PaymentStatus=auto",
      "o.TestEnv=true",
      "lang_code=RU",
      "merch_id=" + cfg.merchId,
      "back_url_s=" + SuccessUrl(order, product, cfg.mainUrl),
      "back_url_f=" + cfg.failedPaymentUrl];
    assert Member(Field(order, "payment"), "id") == Ok(Some(JStr(id)));
  }

  // ---------------------------------------------------------------------------
  // initiatePayment

  function InitiationFailure(orderRecord: Option<Fields>): LogEntry
  {
    LogEntry(GazpromRecurringPaymentInitiationFailed,
      Payload([("order", if orderRecord.Some? then Some(JObj(orderRecord.value)) else None)]))
  }

  /**
   * `initiatePayment` after the gateway answered: a refusal is logged with the
   * order record and stops the row; an acceptance leaves the flag as it was.
   */
  function Initiate(w: World, orderRecord: Option<Fields>, allowed: bool, gatewayOk: bool): (r: (World, bool))
    ensures r.1 <==> allowed && gatewayOk
    ensures gatewayOk ==> r.0 == w
    ensures !gatewayOk ==> r.0.db == w.db && r.0.mongo == w.mongo && r.0.log == w.log + [InitiationFailure(orderRecord)]
  {
    if !gatewayOk then (Logged(w, InitiationFailure(orderRecord)), false) else (w, allowed)
  }

  // ---------------------------------------------------------------------------
  // The whole row

  /**
   * A due row, with the data check the helper defines: fill the data source;
   * if allowed, create the order, build the URL, initiate the payment, and
   * delete the row if the initiation succeeded.
   */
  function ProcessRow(w: World, rec: Row<RecurrentPayment>, it: Iteration, cfg: RecurrentConfig): (o: Outcome<()>)
    ensures o.world.db == w.db.(recurrentPayments := o.world.db.recurrentPayments)
    ensures o.world.db.recurrentPayments in {w.db.recurrentPayments, Delete(w.db.recurrentPayments, rec.id)}
  {
    var s :- DataSource(w, rec, cfg.system, it.freshOid);
    var (w1, src) := s;
    if !src.allowed then Outcome(w1, Ok(()))
    else
      var c :- OrderCreation(w1, src.order, src.product, rec, it);
      var (w2, orderRecord) := c;
      match PaymentUrl(src.order, src.product, cfg)
      case Err(e) => Raise(w2, e)
      case Ok(_) =>
        var (w3, proceed) := Initiate(w2, Some(orderRecord), true, it.gatewayOk);
        if !proceed then Outcome(w3, Ok(()))
        else Outcome(DeleteRecord(w3, rec.id), Ok(()))
  }

  /** A row that fails the data check creates no order and builds no URL: only the row is deleted. */
  lemma DisallowedRowOnlyDeleted(w: World, rec: Row<RecurrentPayment>, it: Iteration, cfg: RecurrentConfig)
    requires DataSource(w, rec, cfg.system, it.freshOid).result.Ok?
    requires !DataSource(w, rec, cfg.system, it.freshOid).result.value.allowed
    ensures ProcessRow(w, rec, it, cfg) == Outcome(DeleteRecord(w, rec.id), Ok(()))
  {
  }

  /**
   * A row that passes the data check gets exactly one new order; the row is
   * deleted exactly when the gateway accepts, and a refusal is logged instead.
   */
  lemma AllowedRowDeletedIffAccepted(w: World, rec: Row<RecurrentPayment>, it: Iteration, cfg: RecurrentConfig)
    requires DataSource(w, rec, cfg.system, it.freshOid).result.Ok?
    requires DataSource(w, rec, cfg.system, it.freshOid).result.value.allowed
    requires ProcessRow(w, rec, it, cfg).result.Ok?
    ensures var o := ProcessRow(w, rec, it, cfg);
      && |o.world.mongo.orders| == |w.mongo.orders| + 1
      && o.world.mongo.orders[..|w.mongo.orders|] == w.mongo.orders
      && o.world.mongo.orders[|w.mongo.orders|].id == JOid(it.newOid)
      && (it.gatewayOk ==> o.world.db.recurrentPayments == Delete(w.db.recurrentPayments, rec.id) && o.world.log == w.log)
      && (!it.gatewayOk ==>
            o.world.db == w.db && |o.world.log| == |w.log| + 1 && o.world.log[|w.log|].kind == GazpromRecurringPaymentInitiationFailed)
  {
    var src := DataSource(w, rec, cfg.system, it.freshOid).result.value;
    var c := OrderCreation(w, src.order, src.product, rec, it);
    assert c.result.Ok?;
    assert PaymentUrl(src.order, src.product, cfg).Ok?;
  }

  // ---------------------------------------------------------------------------
  // The helper object

  class RecurrentPaymentsHelper {
    const record: Row<RecurrentPayment>
    var orderMongoInstance: Option<Document>
    var productMongoInstance: Option<Document>
    var orderRecord: Option<Fields>
    var paymentUrl: Option<string>
    var isItAllowableToProceedExecution: bool

    constructor (record: Row<RecurrentPayment>)
      ensures this.record == record
      ensures orderMongoInstance == None && productMongoInstance == None && orderRecord == None && paymentUrl == None
      ensures !isItAllowableToProceedExecution
    {
      this.record := record;
      orderMongoInstance := None;
      productMongoInstance := None;
      orderRecord := None;
      paymentUrl := None;
      isItAllowableToProceedExecution := false;
    }

    /** `fillDataSource`: sets the order and product found and raises the flag for an eligible row. */
    method FillDataSource(st: Stores, system: Option<PaymentSystem>, freshOid: string) returns (r: Result<(), Error>)
      modifies this, st
      ensures var o := DataSource(old(st.State()), record, system, freshOid);
        && st.State() == o.world
        && (r.Err? <==> o.result.Err?)
        && (r.Err? ==> r.error == o.result.error)
        && (r.Ok? ==> orderMongoInstance == o.result.value.order)
        && (r.Ok? ==> productMongoInstance == o.result.value.product)
        && (r.Ok? ==> isItAllowableToProceedExecution == (o.result.value.allowed || old(isItAllowableToProceedExecution)))
      ensures r.Err? ==> isItAllowableToProceedExecution == old(isItAllowableToProceedExecution)
      ensures orderRecord == old(orderRecord) && paymentUrl == old(paymentUrl)
    {
      var oid := ObjectIdFrom(Some(JStr(record.data.orderIdMongo)), freshOid);
      if oid.Err? {
        return Err(oid.error);
      }
      orderMongoInstance := FindOne(st.mongo.orders, ById(oid.value));
      if orderMongoInstance.None? {
        productMongoInstance := None;
        DeleteRecurrentPaymentsQueueRecord(st);
        return Ok(());
      }
      var pid := ObjectIdFrom(Field(orderMongoInstance.value, "product"), freshOid);
      if pid.Err? {
        return Err(pid.error);
      }
      productMongoInstance := FindOne(st.mongo.products, ById(pid.value));
      if !Eligible(productMongoInstance, system) {
        DeleteRecurrentPaymentsQueueRecord(st);
        return Ok(());
      }
      isItAllowableToProceedExecution := true;
      r := Ok(());
    }

    /** `createOrder`. */
    method CreateOrder(st: Stores, it: Iteration) returns (r: Result<(), Error>)
      modifies this, st
      ensures var o := OrderCreation(old(st.State()), orderMongoInstance, productMongoInstance, record, it);
        && st.State() == o.world
        && (r.Err? <==> o.result.Err?)
        && (r.Err? ==> r.error == o.result.error && orderRecord == old(orderRecord))
        && (r.Ok? ==> orderRecord == Some(o.result.value))
      ensures orderMongoInstance == old(orderMongoInstance) && productMongoInstance == old(productMongoInstance)
      ensures paymentUrl == old(paymentUrl) && isItAllowableToProceedExecution == old(isItAllowableToProceedExecution)
    {
      if productMongoInstance.None? || orderMongoInstance.None? {
        return Err(TypeError);
      }
      var fields := NewOrderRecord(orderMongoInstance.value, productMongoInstance.value,
        Get(record.data.metadata, "trxId"), it.paymentKey, it.nowMs);
      if fields.Err? {
        return Err(fields.error);
      }
      st.mongo := st.mongo.(orders := InsertOne(st.mongo.orders, fields.value, it.newOid));
      orderRecord := Some(fields.value["_id" := JOid(it.newOid)]);
      r := Ok(());
    }

    /** `buildPaymentUrl`. */
    method BuildPaymentUrl(cfg: RecurrentConfig) returns (r: Result<(), Error>)
      modifies this
      ensures var u := PaymentUrl(orderMongoInstance, productMongoInstance, cfg);
        && (r.Err? <==> u.Err?)
        && (r.Err? ==> r.error == u.error && paymentUrl == old(paymentUrl))
        && (r.Ok? ==> paymentUrl == Some(u.value))
      ensures orderMongoInstance == old(orderMongoInstance) && productMongoInstance == old(productMongoInstance)
      ensures orderRecord == old(orderRecord) && isItAllowableToProceedExecution == old(isItAllowableToProceedExecution)
    {
      var u := PaymentUrl(orderMongoInstance, productMongoInstance, cfg);
      if u.Err? {
        return Err(u.error);
      }
      paymentUrl := Some(u.value);
      r := Ok(());
    }

    /** `initiatePayment`, given the gateway's answer. */
    method InitiatePayment(st: Stores, gatewayOk: bool)
      modifies this, st
      ensures (st.State(), isItAllowableToProceedExecution)
        == Initiate(old(st.State()), orderRecord, old(isItAllowableToProceedExecution), gatewayOk)
      ensures orderMongoInstance == old(orderMongoInstance) && productMongoInstance == old(productMongoInstance)
      ensures orderRecord == old(orderRecord) && paymentUrl == old(paymentUrl)
    {
      if !gatewayOk {
        st.log := st.log + [InitiationFailure(orderRecord)];
        isItAllowableToProceedExecution := false;
      }
    }

    /** `deleteRecurrentPaymentsQueueRecord`. */
    method DeleteRecurrentPaymentsQueueRecord(st: Stores)
      modifies st
      ensures st.State() == DeleteRecord(old(st.State()), record.id)
    {
      st.db := st.db.(recurrentPayments := Delete(st.db.recurrentPayments, record.id));
    }
  }
}
