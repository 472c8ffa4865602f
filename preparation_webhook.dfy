/**
 * The Gazprom preparation webhook ("payment availability"): the gateway asks
 * whether an order may be paid and for how much. Nothing is written; the
 * answer is built from the order and its product.
 */
module GazpromPreparation {
  import opened Wrappers
  import opened Failures
  import opened JsValues
  import opened Enums
  import opened Ledger
  import opened Documents
  import opened StoreState
  import opened DataSource
  import opened WebhookResult

  /** ISO 4217 numeric code of the rouble, and its minor-unit exponent. */
  const RoubleCode: int := 643
  const RoubleExponent: int := 2

  /** The card transaction id the answer carries for automatic payments. */
  const PlaceholderTrxId := "oldTrx ??????"

  /** `validatePaymentStatus`: only "new" and "auto" payments are acceptable. */
  function IsAcceptableStatus(payload: Fields): (ok: bool)
    ensures ok <==>
      && "o.PaymentStatus" in payload && payload["o.PaymentStatus"].JStr?
      && payload["o.PaymentStatus"].s in {NewStatusText, AutoStatusText}
  {
    Get(payload, "o.PaymentStatus") in {Some(JStr(NewStatusText)), Some(JStr(AutoStatusText))}
  }

  /** `Number(order.payment.amount)`; reading it throws when `payment` is null or undefined. */
  function PaymentAmount(order: Document): (r: Result<Option<real>, Error>)
    ensures r.Err? <==> Field(order, "payment") == None || Field(order, "payment") == Some(JNull)
    ensures r.Err? ==> r.error == TypeError
    ensures r.Ok? ==> r.value == ToNumber(OptionalMember(Field(order, "payment"), "amount"))
  {
    var amount :- Member(Field(order, "payment"), "amount");
    Ok(ToNumber(amount))
  }

  /** The product line of the answer: `Оплата продукта: "<name>"`. */
  function LongDesc(product: Document): string
  {
    "Оплата продукта: \"" + ToText(Field(product, "name")) + "\""
  }

  /** The purchase element: the product line and the amount in minor units. */
  function Purchase(amount: real, longDesc: string, merchId: Option<string>): Element
  {
    Node("purchase", [
      Leaf("longDesc", Some(JStr(longDesc))),
      Node("account-amount", [
        Leaf("id", if merchId.Some? then Some(JStr(merchId.value)) else None),
        Leaf("amount", Some(JNum(amount * 100.0))),
        Leaf("currency", Some(JNum(RoubleCode as real))),
        Leaf("exponent", Some(JNum(RoubleExponent as real)))])])
  }

  /** The card element of an automatic (recurring) payment: no card entry is asked of the payer. */
  function RecurringCard(): Element
  {
    Node("card", [Leaf("trx-id", Some(JStr(PlaceholderTrxId))), Leaf("present", Some(JStr("N")))])
  }

  /**
   * The answer: acceptance, then the purchase only when the amount is an
   * integer, then the recurring-card element only for automatic payments
   * with a purchase.
   */
  function Answer(amount: Option<real>, longDesc: string, status: Option<Json>, merchId: Option<string>): (r: FinalResult)
    ensures r.contentType == Xml && |r.payload| == 1 && r.payload[0].Node? && r.payload[0].tag == "payment-avail-response"
    ensures ResponseTags(r) ==
      ["result"]
      + (if IsInteger(amount) then ["purchase"] else [])
      + (if IsInteger(amount) && status == Some(JStr(AutoStatusText)) then ["card"] else [])
    ensures r.payload[0].children[0] == ResultElement(1, "Payment accepted")
  {
    var result := [ResultElement(1, "Payment accepted")];
    var purchase := if IsInteger(amount) then [Purchase(amount.value, longDesc, merchId)] else [];
    var card := if IsInteger(amount) && status == Some(JStr(AutoStatusText)) then [RecurringCard()] else [];
    FinalResult([Node("payment-avail-response", result + purchase + card)], Xml)
  }

  /** The amount the answer asks for, in kopecks: the order's integral rouble amount times 100. */
  function AnswerKopecks(r: FinalResult): Option<real>
  {
    if |r.payload| == 1 && r.payload[0].Node? && |r.payload[0].children| >= 2
       && r.payload[0].children[1].Node? && |r.payload[0].children[1].children| == 2
       && r.payload[0].children[1].children[1].Node? && |r.payload[0].children[1].children[1].children| >= 2
       && r.payload[0].children[1].children[1].children[1].Leaf?
       && r.payload[0].children[1].children[1].children[1].value.Some?
       && r.payload[0].children[1].children[1].children[1].value.value.JNum?
    then Some(r.payload[0].children[1].children[1].children[1].value.value.n)
    else None
  }

  /** The purchase carries the order's amount in kopecks, and only an integral amount is offered. */
  lemma AnswerAmountInKopecks(amount: Option<real>, longDesc: string, status: Option<Json>, merchId: Option<string>)
    ensures var k := AnswerKopecks(Answer(amount, longDesc, status, merchId));
      && (k.Some? <==> IsInteger(amount))
      && (k.Some? ==> k.value == amount.value * 100.0 && k.value / 100.0 == amount.value)
  {
  }

  /**
   * `r` is the answer for the order whose `payment.id` is the payload's
   * `o.CustomerKey` and for the product that `order.product` names: the
   * order's `payment.amount`, the product's name and the payload's status.
   */
  predicate AnswersFor(m: Mongo, payload: Fields, merchId: Option<string>, r: FinalResult)
  {
    var order := FindOne(m.orders, ByPaymentId(Get(payload, "o.CustomerKey")));
    && order.Some?
    && var product := FindOne(m.products, ByIdValue(Field(order.value, "product")));
    && product.Some?
    && PaymentAmount(order.value).Ok?
    && r == Answer(PaymentAmount(order.value).value, LongDesc(product.value), Get(payload, "o.PaymentStatus"), merchId)
  }

  /**
   * A successful preparation asks for the stored order's amount in kopecks,
   * and asks for an amount exactly when the order's amount is an integer.
   */
  lemma PreparationAsksOrderAmount(w: World, request: Row<IncomingRequest>, merchId: Option<string>)
    requires PreparationOutcome(w, request, merchId).result.Ok?
    ensures var order := FindOne(w.mongo.orders, ByPaymentId(Get(request.data.payload, "o.CustomerKey")));
      && order.Some?
      && var amount := ToNumber(OptionalMember(Field(order.value, "payment"), "amount"));
      && var k := AnswerKopecks(PreparationOutcome(w, request, merchId).result.value);
      && (k.Some? <==> IsInteger(amount))
      && (k.Some? ==> k.value == amount.value * 100.0)
  {
    var payload := request.data.payload;
    var order := FindOne(w.mongo.orders, ByPaymentId(Get(payload, "o.CustomerKey"))).value;
    var product := FindOne(w.mongo.products, ByIdValue(Field(order, "product"))).value;
    AnswerAmountInKopecks(PaymentAmount(order).value, LongDesc(product), Get(payload, "o.PaymentStatus"), merchId);
  }

  /** `execute`: the status check, the two lookups, then the answer. */
  function PreparationOutcome(w: World, request: Row<IncomingRequest>, merchId: Option<string>): (o: Outcome<FinalResult>)
    ensures o.world.db == w.db && o.world.mongo == w.mongo
    ensures o.result.Ok? ==> o.world == w
    ensures !IsAcceptableStatus(request.data.payload) ==> o == Outcome(w, Err(BadRequest(UnacceptablePaymentStatus)))
    ensures o.result.Ok? ==> AnswersFor(w.mongo, request.data.payload, merchId, o.result.value)
  {
    var payload := request.data.payload;
    if !IsAcceptableStatus(payload) then Raise(w, BadRequest(UnacceptablePaymentStatus))
    else
      var s1 :- FindOrderByPaymentId(w, request.id, Get(payload, "o.CustomerKey"));
      var order := s1.1;
      var s2 :- FindProductById(s1.0, request.id, Field(order, "product"));
      var product := s2.1;
      match PaymentAmount(order)
      case Err(e) => Raise(s2.0, e)
      case Ok(amount) => Outcome(s2.0, Ok(Answer(amount, LongDesc(product), Get(payload, "o.PaymentStatus"), merchId)))
  }

  class PreparationWebhook {
    const request: Row<IncomingRequest>
    var finalResult: Option<FinalResult>

    constructor (request: Row<IncomingRequest>)
      ensures this.request == request && finalResult == None
    {
      this.request := request;
      finalResult := None;
    }

    /** `execute`: the answer is assembled element by element, as the gateway expects it. */
    method Execute(st: Stores, merchId: Option<string>) returns (r: Result<(), Error>)
      modifies this, st
      ensures var o := PreparationOutcome(old(st.State()), request, merchId);
        && st.State() == o.world
        && (r.Ok? <==> o.result.Ok?)
        && (r.Ok? ==> finalResult == Some(o.result.value))
        && (r.Err? ==> r.error == o.result.error && finalResult == old(finalResult))
    {
      var payload := request.data.payload;
      var w0 := st.State();
      if !IsAcceptableStatus(payload) {
        return Err(BadRequest(UnacceptablePaymentStatus));
      }
      var order := FindOrderByPaymentId(w0, request.id, Get(payload, "o.CustomerKey"));
      st.log := order.world.log;
      if order.result.Err? {
        return Err(order.result.error);
      }
      assert order.world == w0;
      var product := FindProductById(w0, request.id, Field(order.result.value, "product"));
      st.log := product.world.log;
      if product.result.Err? {
        return Err(product.result.error);
      }
      var amount := PaymentAmount(order.result.value);
      if amount.Err? {
        return Err(amount.error);
      }

      var responseData: seq<Element> := [];
      responseData := responseData + [ResultElement(1, "Payment accepted")];
      assert responseData == [ResultElement(1, "Payment accepted")];
      if IsInteger(amount.value) {
        responseData := responseData + [Purchase(amount.value.value, LongDesc(product.result.value), merchId)];
        if Get(payload, "o.PaymentStatus") == Some(JStr(AutoStatusText)) {
          responseData := responseData + [RecurringCard()];
        }
      }
      assert responseData == [ResultElement(1, "Payment accepted")]
        + (if IsInteger(amount.value) then [Purchase(amount.value.value, LongDesc(product.result.value), merchId)] else [])
        + (if IsInteger(amount.value) && Get(payload, "o.PaymentStatus") == Some(JStr(AutoStatusText)) then [RecurringCard()] else []);
      var answer := Answer(amount.value, LongDesc(product.result.value), Get(payload, "o.PaymentStatus"), merchId);
      assert FinalResult([Node("payment-avail-response", responseData)], Xml) == answer;
      assert product.world == w0;
      assert PreparationOutcome(w0, request, merchId) == Outcome(w0, Ok(answer));
      finalResult := Some(FinalResult([Node("payment-avail-response", responseData)], Xml));
      r := Ok(());
    }
  }
}
