/**
 * The request handler: it loads a stored incoming request, refuses one that
 * is not freshly received, and dispatches it by payment system and
 * destination to the completion or the preparation webhook.
 */
module Handler {
  import opened Wrappers
  import opened Failures
  import opened JsValues
  import opened Enums
  import opened Ledger
  import opened Documents
  import opened StoreState
  import opened WebhookResult
  import opened GazpromCompletion
  import opened GazpromPreparation

  /** What the handler needs besides the stores. */
  datatype HandlerEnv = HandlerEnv(completion: CompletionEnv, merchId: Option<string>)

  /** The payload sent, without waiting, to the external interaction server after a completion. */
  datatype Notification = Notification(
    paymentSystem: PaymentSystem,
    orderId: Json,
    productOwnerId: Json,
    finalAmount: real,
    untouchedAmount: real)

  /** What one call of `process` leaves behind, and the notification it sends. */
  datatype Handled = Handled(outcome: Outcome<FinalResult>, notification: Option<Notification>)

  function NotificationOf(r: ExecutionResult): (n: Notification)
    ensures n.orderId == r.order.id && n.productOwnerId == r.owner.id
    ensures n.finalAmount == r.finalAmount && n.untouchedAmount == r.untouchedAmount
  {
    Notification(Gazprom, r.order.id, r.owner.id, r.finalAmount, r.untouchedAmount)
  }

  /**
   * The preparation step as written: after the webhook answers, the handler
   * calls `updateIncomingRequestStatus`, which the webhook does not define.
   */
  function PrepareAsWritten(w: World, request: Row<IncomingRequest>, merchId: Option<string>): Outcome<FinalResult>
  {
    var answered :- PreparationOutcome(w, request, merchId);
    Raise(answered.0, TypeError)
  }

  /** As written, no preparation request is ever answered, and none is marked processed. */
  lemma PrepareAsWrittenNeverAnswers(w: World, request: Row<IncomingRequest>, merchId: Option<string>)
    ensures PrepareAsWritten(w, request, merchId).result.Err?
    ensures PrepareAsWritten(w, request, merchId).world.db == w.db
    ensures PreparationOutcome(w, request, merchId).result.Ok? ==> PrepareAsWritten(w, request, merchId).result == Err(TypeError)
  {
  }

  /** The preparation step as intended: the answer is returned and the request is marked Processed. */
  function Prepare(w: World, request: Row<IncomingRequest>, merchId: Option<string>): (o: Outcome<FinalResult>)
    ensures o.result.Ok? <==> PreparationOutcome(w, request, merchId).result.Ok?
    ensures o.result.Ok? ==>
      && o.result == PreparationOutcome(w, request, merchId).result
      && o.world == w.(db := SetRequestStatus(w.db, request.id, RequestStatus.Processed))
    ensures o.result.Err? ==> o == PreparationOutcome(w, request, merchId)
  {
    var answered :- PreparationOutcome(w, request, merchId);
    Outcome(answered.0.(db := SetRequestStatus(answered.0.db, request.id, RequestStatus.Processed)), Ok(answered.1))
  }

  /** `process`: load, check the status, dispatch. */
  function Handle(w: World, requestId: nat, env: HandlerEnv): (h: Handled)
    ensures FindById(w.db.incomingRequests, requestId).None? ==>
      h == Handled(Outcome(w, Err(HandlerClaim(IncomingRequestNotFound))), None)
    ensures FindById(w.db.incomingRequests, requestId).Some? && FindById(w.db.incomingRequests, requestId).value.data.status != Received ==>
      h == Handled(Outcome(w, Err(HandlerClaim(UnacceptableIncomingRequestStatus))), None)
    ensures h.outcome.result.Ok? ==>
      && FindById(w.db.incomingRequests, requestId).Some?
      && var request := FindById(w.db.incomingRequests, requestId).value;
      && request.data.status == Received && request.data.paymentSystem == Gazprom
      && request.data.handlerDestination in {Completion, Preparation}
    ensures h.notification.Some? ==> h.outcome.result == Ok(CompletionAnswer())
  {
    match FindById(w.db.incomingRequests, requestId)
    case None => Handled(Raise(w, HandlerClaim(IncomingRequestNotFound)), None)
    case Some(request) =>
      if request.data.status != Received then
        Handled(Raise(w, HandlerClaim(UnacceptableIncomingRequestStatus)), None)
      else if request.data.paymentSystem != Gazprom then
        Handled(Raise(w, HandlerClaim(UnknownPaymentSystem)), None)
      else
        match request.data.handlerDestination
        case Completion =>
          var o := CompletionOutcome(w, request, env.completion);
          if o.result.Err? then Handled(Raise(o.world, o.result.error), None)
          else
            Handled(Outcome(o.world, Ok(CompletionAnswer())),
              if o.result.value.orderProcessed then Some(NotificationOf(o.result.value)) else None)
        case Preparation => Handled(Prepare(w, request, env.merchId), None)
        case OtherDestination(_) => Handled(Raise(w, InternalServerError(UnknownHandlerDestination)), None)
  }

  /** A request that is missing, or was already processed or failed, is refused and nothing changes. */
  lemma OnlyReceivedRequestsAreProcessed(w: World, requestId: nat, env: HandlerEnv)
    requires var found := FindById(w.db.incomingRequests, requestId); found.None? || found.value.data.status != Received
    ensures Handle(w, requestId, env).outcome.result.Err?
    ensures Handle(w, requestId, env).outcome.world == w
    ensures Handle(w, requestId, env).notification == None
  {
  }

  /** The merchant is notified exactly when a completion succeeds, with the amounts it settled. */
  lemma NotificationOnlyAfterCompletion(w: World, requestId: nat, env: HandlerEnv)
    ensures var p := Handle(w, requestId, env);
      p.notification.Some? <==>
        && FindById(w.db.incomingRequests, requestId).Some?
        && var request := FindById(w.db.incomingRequests, requestId).value;
        && request.data.status == Received && request.data.paymentSystem == Gazprom
        && request.data.handlerDestination == Completion
        && CompletionOutcome(w, request, env.completion).result.Ok?
    ensures var p := Handle(w, requestId, env);
      p.notification.Some? ==>
        var request := FindById(w.db.incomingRequests, requestId).value;
        var r := CompletionOutcome(w, request, env.completion).result.value;
        && p.outcome.result == Ok(CompletionAnswer())
        && p.notification.value.finalAmount == r.finalAmount
        && p.notification.value.untouchedAmount == r.untouchedAmount
  {
  }

  /**
   * A request is processed at most once: after a successful run it is no
   * longer Received, so handling it again is refused and changes nothing.
   */
  lemma ProcessedRequestIsRefusedAgain(w: World, requestId: nat, env: HandlerEnv)
    requires ValidTable(w.db.incomingRequests)
    requires Handle(w, requestId, env).outcome.result.Ok?
    ensures var w' := Handle(w, requestId, env).outcome.world;
      && Handle(w', requestId, env).outcome == Outcome(w', Err(HandlerClaim(UnacceptableIncomingRequestStatus)))
      && Handle(w', requestId, env).notification == None
  {
    var request := FindById(w.db.incomingRequests, requestId).value;
    var w' := Handle(w, requestId, env).outcome.world;
    assert request.id == requestId;
    assert request.id in Ids(w.db.incomingRequests.rows);
    match request.data.handlerDestination
    case Completion =>
      SuccessMarksRequestProcessed(w, request, env.completion);
    case Preparation =>
      SetRequestStatusEffect(w.db, request.id, RequestStatus.Processed);
    case OtherDestination(_) =>
  }

  class HandlerService {
    constructor ()
    {
    }

    /** `process`: the webhook objects run against the stores in place. */
    method Process(st: Stores, requestId: nat, env: HandlerEnv) returns (r: Result<FinalResult, Error>, notification: Option<Notification>)
      modifies st
      ensures Handle(old(st.State()), requestId, env) == Handled(Outcome(st.State(), r), notification)
    {
      var found := FindById(st.db.incomingRequests, requestId);
      if found.None? {
        return Err(HandlerClaim(IncomingRequestNotFound)), None;
      }
      var request := found.value;
      if request.data.status != Received {
        return Err(HandlerClaim(UnacceptableIncomingRequestStatus)), None;
      }
      if request.data.paymentSystem == Gazprom {
        if request.data.handlerDestination == Completion {
          var webhook := new CompletionWebhook(request);
          var done := webhook.Execute(st, env.completion);
          if done.Err? {
            return Err(done.error), None;
          }
          var result := webhook.executionResult.value;
          notification := if result.orderProcessed then Some(NotificationOf(result)) else None;
          return Ok(CompletionAnswer()), notification;
        } else if request.data.handlerDestination == Preparation {
          var webhook := new PreparationWebhook(request);
          var done := webhook.Execute(st, env.merchId);
          if done.Err? {
            return Err(done.error), None;
          }
          st.db := SetRequestStatus(st.db, request.id, RequestStatus.Processed);
          return Ok(webhook.finalResult.value), None;
        } else {
          return Err(InternalServerError(UnknownHandlerDestination)), None;
        }
      }
      return Err(HandlerClaim(UnknownPaymentSystem)), None;
    }
  }
}
