/**
 * The document-store lookups of both webhooks. Each reads one collection; on
 * a miss it appends one audit entry and raises InternalServerError.
 */
module DataSource {
  import opened Wrappers
  import opened Failures
  import opened JsValues
  import opened Enums
  import opened Documents
  import opened Audit
  import opened StoreState

  /** `findOne(filter)` on `c`, or the logged failure `miss`. */
  function FindOrFail(w: World, c: seq<Document>, filter: seq<Condition>, miss: LogEntry, reason: Reason): (o: Outcome<Document>)
    ensures o.result.Ok? <==> FindOne(c, filter).Some?
    ensures o.result.Ok? ==> o.world == w && o.result.value == FindOne(c, filter).value
    ensures o.result.Err? ==> o.world == Logged(w, miss) && o.result.error == InternalServerError(reason)
  {
    match FindOne(c, filter)
    case Some(d) => Outcome(w, Ok(d))
    case None => Outcome(Logged(w, miss), Err(InternalServerError(reason)))
  }

  /** The filter `{ 'payment.id': key }`. */
  function ByPaymentId(key: Option<Json>): seq<Condition>
  {
    [Condition(["payment", "id"], key)]
  }

  /** The filter `{ _id: id }` for an id that may be undefined. */
  function ByIdValue(id: Option<Json>): seq<Condition>
  {
    [Condition(["_id"], id)]
  }

  /** `findOrderByPaymentId`: the first order whose `payment.id` is `key`. */
  function FindOrderByPaymentId(w: World, requestId: nat, key: Option<Json>): (o: Outcome<Document>)
    ensures o.result.Ok? ==> o.world == w && o.result.value in w.mongo.orders
    ensures o.result.Ok? ==> FieldMatches(Lookup(o.result.value, ["payment", "id"]), key)
    ensures o.result.Ok? ==> FindOne(w.mongo.orders, ByPaymentId(key)) == Some(o.result.value)
    ensures o.result.Err? <==> forall d :: d in w.mongo.orders ==> !FieldMatches(Lookup(d, ["payment", "id"]), key)
    ensures o.result.Err? ==>
      && o.result.error == InternalServerError(OrderNotFound)
      && o.world == Logged(w, LogEntry(OrderInMongoNotFound, Payload([("incomingRequestId", IdValue(requestId)), ("order.payment.id", key)])))
  {
    var filter := ByPaymentId(key);
    assert forall d :: Matches(d, filter) <==> FieldMatches(Lookup(d, ["payment", "id"]), key);
    FindOrFail(w, w.mongo.orders, filter,
      LogEntry(OrderInMongoNotFound, Payload([("incomingRequestId", IdValue(requestId)), ("order.payment.id", key)])),
      OrderNotFound)
  }

  /** `findProductById`: the first product whose `_id` is `id`. */
  function FindProductById(w: World, requestId: nat, id: Option<Json>): (o: Outcome<Document>)
    ensures o.result.Ok? ==> o.world == w && o.result.value in w.mongo.products
    ensures o.result.Ok? ==> FieldMatches(Some(o.result.value.id), id)
    ensures o.result.Ok? ==> FindOne(w.mongo.products, ByIdValue(id)) == Some(o.result.value)
    ensures o.result.Err? <==> forall d :: d in w.mongo.products ==> !FieldMatches(Some(d.id), id)
    ensures o.result.Err? ==>
      && o.result.error == InternalServerError(ProductNotFound)
      && o.world == Logged(w, LogEntry(ProductInMongoNotFound, Payload([("incomingRequestId", IdValue(requestId)), ("product.id", Some(JStr(ToText(id))))])))
  {
    var filter := ByIdValue(id);
    assert forall d :: Matches(d, filter) <==> FieldMatches(Some(d.id), id);
    FindOrFail(w, w.mongo.products, filter,
      LogEntry(ProductInMongoNotFound, Payload([("incomingRequestId", IdValue(requestId)), ("product.id", Some(JStr(ToText(id))))])),
      ProductNotFound)
  }

  /** `findProductOwnerById`: the first user whose `_id` is `id`. */
  function FindProductOwnerById(w: World, requestId: nat, id: Option<Json>): (o: Outcome<Document>)
    ensures o.result.Ok? ==> o.world == w && o.result.value in w.mongo.users
    ensures o.result.Ok? ==> FieldMatches(Some(o.result.value.id), id)
    ensures o.result.Ok? ==> FindOne(w.mongo.users, ByIdValue(id)) == Some(o.result.value)
    ensures o.result.Err? <==> forall d :: d in w.mongo.users ==> !FieldMatches(Some(d.id), id)
    ensures o.result.Err? ==>
      && o.result.error == InternalServerError(ProductOwnerNotFound)
      && o.world == Logged(w, LogEntry(ProductOwnerInMongoNotFound, Payload([("incomingRequestId", IdValue(requestId)), ("productOwner.id", Some(JStr(ToText(id))))])))
  {
    var filter := ByIdValue(id);
    assert forall d :: Matches(d, filter) <==> FieldMatches(Some(d.id), id);
    FindOrFail(w, w.mongo.users, filter,
      LogEntry(ProductOwnerInMongoNotFound, Payload([("incomingRequestId", IdValue(requestId)), ("productOwner.id", Some(JStr(ToText(id))))])),
      ProductOwnerNotFound)
  }

  /** `findUserBalance`: the first balance of that user in that currency. */
  function FindUserBalance(w: World, requestId: nat, userId: Option<Json>, currency: string): (o: Outcome<Document>)
    ensures o.result.Ok? ==> o.world == w && o.result.value in w.mongo.payments
    ensures o.result.Ok? ==>
      FieldMatches(Field(o.result.value, "user"), userId) && FieldMatches(Field(o.result.value, "type"), Some(JStr(currency)))
    ensures o.result.Err? <==> forall d :: d in w.mongo.payments ==>
      !(FieldMatches(Field(d, "user"), userId) && FieldMatches(Field(d, "type"), Some(JStr(currency))))
    ensures o.result.Err? ==>
      && o.result.error == InternalServerError(ProductOwnerBalanceNotFound)
      && o.world == Logged(w, LogEntry(ProductOwnerBalanceInMongoNotFound,
           Payload([("incomingRequestId", IdValue(requestId)), ("userId", userId), ("currencyType", Some(JStr(currency)))])))
  {
    var filter := [Condition(["user"], userId), Condition(["type"], Some(JStr(currency)))];
    assert forall d :: Matches(d, filter) <==>
      FieldMatches(Field(d, "user"), userId) && FieldMatches(Field(d, "type"), Some(JStr(currency))) by {
      forall d ensures Matches(d, filter) <==>
        FieldMatches(Field(d, "user"), userId) && FieldMatches(Field(d, "type"), Some(JStr(currency))) {
        assert filter[0] in filter && filter[1] in filter;
      }
    }
    FindOrFail(w, w.mongo.payments, filter,
      LogEntry(ProductOwnerBalanceInMongoNotFound,
        Payload([("incomingRequestId", IdValue(requestId)), ("userId", userId), ("currencyType", Some(JStr(currency)))])),
      ProductOwnerBalanceNotFound)
  }
}
