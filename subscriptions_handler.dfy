/**
  * The subscription endpoints of the service
  * (backend/internal/subscriptions/handler.go): `Create`, whose checks add a
  * billing-period rule and an RFC 3339 parse of the next billing time, and
  * which stores every new subscription as active; and `GetByUserID`.
  */
module SubscriptionsHandler {
  import opened Wrappers
  import opened Domain
  import opened HttpApi

  /** The subscription the handler builds for the repository; `nextBillingAt` is the
      instant `time.Parse(time.RFC3339, ...)` read. */
  datatype NewSubscription = NewSubscription(
    userId: Uuid,
    title: string,
    amount: int,
    currency: string,
    billingPeriod: string,
    nextBillingAt: int,
    active: bool)

  /** The field check of `Create`. */
  predicate InvalidInput(req: CreateSubscriptionRequest) {
    || req.userId == ""
    || req.title == ""
    || req.amount <= 0
    || req.currency == ""
    || (req.billingPeriod != "monthly" && req.billingPeriod != "yearly")
    || req.nextBillingAt == ""
  }

  /** The early-return checks of `Create`, in order; `parseTime` stands for the RFC 3339
      parser (section 5.6 of RFC 3339). */
  function CreateDecision(
    r: Request<CreateSubscriptionRequest>,
    parseUuid: string -> Option<Uuid>,
    parseTime: string -> Option<int>): Decision<NewSubscription>
  {
    if r.httpMethod != "POST" then Reject(StatusMethodNotAllowed, "method not allowed")
    else if r.body.None? then Reject(StatusBadRequest, "invalid body")
    else
      var req := r.body.value;
      if InvalidInput(req) then Reject(StatusBadRequest, "invalid input")
      else match parseUuid(req.userId)
        case None => Reject(StatusBadRequest, "invalid user_id")
        case Some(id) =>
          match parseTime(req.nextBillingAt)
          case None => Reject(StatusBadRequest, "invalid next_billing_at")
          case Some(at) => Store(NewSubscription(id, req.title, req.amount, req.currency, req.billingPeriod, at, true))
  }

  /** `Handler.Create`. */
  function Create<R>(
    r: Request<CreateSubscriptionRequest>,
    parseUuid: string -> Option<Uuid>,
    parseTime: string -> Option<int>,
    repoCreate: NewSubscription -> Option<R>): Response<R>
  {
    Answer(CreateDecision(r, parseUuid, parseTime), repoCreate, "could not create subscription")
  }

  /** `Handler.GetByUserID`; `userId` is the query parameter, `""` when absent. */
  function GetByUserID<L>(httpMethod: string, userId: string, repoGet: string -> Option<L>): Response<L> {
    if httpMethod != "GET" then HttpError(StatusMethodNotAllowed, "method not allowed")
    else if userId == "" then HttpError(StatusBadRequest, "user_id query param required")
    else match repoGet(userId)
      case None => HttpError(StatusInternalServerError, "could not fetch subscriptions")
      case Some(list) => Json(list)
  }

  /** The checks run in order and the first that fails decides the answer; a rejected
      request gets the same answer whatever the repository would do. */
  lemma CreateCheckOrder<R>(
    r: Request<CreateSubscriptionRequest>,
    parseUuid: string -> Option<Uuid>,
    parseTime: string -> Option<int>,
    repoCreate: NewSubscription -> Option<R>)
    ensures r.httpMethod != "POST" ==>
      Create(r, parseUuid, parseTime, repoCreate) == HttpError(StatusMethodNotAllowed, "method not allowed")
    ensures r.httpMethod == "POST" && r.body.None? ==>
      Create(r, parseUuid, parseTime, repoCreate) == HttpError(StatusBadRequest, "invalid body")
    ensures r.httpMethod == "POST" && r.body.Some? && InvalidInput(r.body.value) ==>
      Create(r, parseUuid, parseTime, repoCreate) == HttpError(StatusBadRequest, "invalid input")
    ensures (r.httpMethod == "POST" && r.body.Some? && !InvalidInput(r.body.value)
             && parseUuid(r.body.value.userId).None?) ==>
      Create(r, parseUuid, parseTime, repoCreate) == HttpError(StatusBadRequest, "invalid user_id")
    ensures (r.httpMethod == "POST" && r.body.Some? && !InvalidInput(r.body.value)
             && parseUuid(r.body.value.userId).Some? && parseTime(r.body.value.nextBillingAt).None?) ==>
      Create(r, parseUuid, parseTime, repoCreate) == HttpError(StatusBadRequest, "invalid next_billing_at")
    ensures CreateDecision(r, parseUuid, parseTime).Reject? ==>
      forall other: NewSubscription -> Option<R> ::
        Create(r, parseUuid, parseTime, other) == Create(r, parseUuid, parseTime, repoCreate)
  {
    var d := CreateDecision(r, parseUuid, parseTime);
    if d.Reject? {
      forall other: NewSubscription -> Option<R>
        ensures Create(r, parseUuid, parseTime, other) == Create(r, parseUuid, parseTime, repoCreate)
      {
        RejectionIgnoresRepository(d, other, repoCreate, "could not create subscription");
      }
    }
  }

  /** A request that passes every check reaches the repository with its own fields, the
      parsed user id and instant, and `active` set; the repository decides the rest. */
  lemma CreateAccepted<R>(
    r: Request<CreateSubscriptionRequest>,
    parseUuid: string -> Option<Uuid>,
    parseTime: string -> Option<int>,
    repoCreate: NewSubscription -> Option<R>)
    ensures CreateDecision(r, parseUuid, parseTime).Store? <==>
      && r.httpMethod == "POST" && r.body.Some? && !InvalidInput(r.body.value)
      && parseUuid(r.body.value.userId).Some? && parseTime(r.body.value.nextBillingAt).Some?
    ensures CreateDecision(r, parseUuid, parseTime).Store? ==>
      var req := r.body.value;
      var record := NewSubscription(parseUuid(req.userId).value, req.title, req.amount, req.currency,
        req.billingPeriod, parseTime(req.nextBillingAt).value, true);
      && CreateDecision(r, parseUuid, parseTime).record == record
      && record.active
      && (record.billingPeriod == "monthly" || record.billingPeriod == "yearly")
      && Create(r, parseUuid, parseTime, repoCreate)
         == (if repoCreate(record).None? then HttpError(StatusInternalServerError, "could not create subscription")
             else Json(repoCreate(record).value))
  {
  }

  /** The list endpoint answers by its checks, in order, and otherwise passes the query
      string to the repository as it is. */
  lemma GetByUserIDOutcomes<L>(httpMethod: string, userId: string, repoGet: string -> Option<L>)
    ensures httpMethod != "GET" ==>
      GetByUserID(httpMethod, userId, repoGet) == HttpError(StatusMethodNotAllowed, "method not allowed")
    ensures httpMethod == "GET" && userId == "" ==>
      GetByUserID(httpMethod, userId, repoGet) == HttpError(StatusBadRequest, "user_id query param required")
    ensures httpMethod == "GET" && userId != "" ==>
      GetByUserID(httpMethod, userId, repoGet)
      == (if repoGet(userId).None? then HttpError(StatusInternalServerError, "could not fetch subscriptions")
          else Json(repoGet(userId).value))
  {
  }
}
