/**
  * The expense endpoints of the service (backend/internal/expenses/handler.go):
  * `Create`, a chain of early-return checks ending in the repository's insert,
  * and `GetByUserID`, which checks the method and the query parameter before
  * asking the repository.
  */
module ExpensesHandler {
  import opened Wrappers
  import opened Domain
  import opened HttpApi

  /** The expense the handler builds for the repository. */
  datatype NewExpense = NewExpense(userId: Uuid, title: string, amount: int, currency: string, category: string)

  /** The field check of `Create`: any field empty, or a non-positive amount. Currency
      and category are not checked against any list. */
  predicate InvalidInput(req: CreateExpenseRequest) {
    req.userId == "" || req.title == "" || req.amount <= 0 || req.currency == "" || req.category == ""
  }

  /** The early-return checks of `Create`, in order. */
  function CreateDecision(r: Request<CreateExpenseRequest>, parseUuid: string -> Option<Uuid>): Decision<NewExpense> {
    if r.httpMethod != "POST" then Reject(StatusMethodNotAllowed, "method not allowed")
    else if r.body.None? then Reject(StatusBadRequest, "invalid body")
    else
      var req := r.body.value;
      if InvalidInput(req) then Reject(StatusBadRequest, "invalid input")
      else match parseUuid(req.userId)
        case None => Reject(StatusBadRequest, "invalid user_id")
        case Some(id) => Store(NewExpense(id, req.title, req.amount, req.currency, req.category))
  }

  /** `Handler.Create`. */
  function Create<R>(r: Request<CreateExpenseRequest>, parseUuid: string -> Option<Uuid>, repoCreate: NewExpense -> Option<R>): Response<R> {
    Answer(CreateDecision(r, parseUuid), repoCreate, "could not create expense")
  }

  /** `Handler.GetByUserID`; `userId` is the query parameter, `""` when absent. */
  function GetByUserID<L>(httpMethod: string, userId: string, repoGet: string -> Option<L>): Response<L> {
    if httpMethod != "GET" then HttpError(StatusMethodNotAllowed, "method not allowed")
    else if userId == "" then HttpError(StatusBadRequest, "user_id query param required")
    else match repoGet(userId)
      case None => HttpError(StatusInternalServerError, "could not fetch expenses")
      case Some(list) => Json(list)
  }

  /** The checks run in order and the first that fails decides the answer; none of them
      consults the repository. */
  lemma CreateCheckOrder<R>(r: Request<CreateExpenseRequest>, parseUuid: string -> Option<Uuid>, repoCreate: NewExpense -> Option<R>)
    ensures r.httpMethod != "POST" ==>
      Create(r, parseUuid, repoCreate) == HttpError(StatusMethodNotAllowed, "method not allowed")
    ensures r.httpMethod == "POST" && r.body.None? ==>
      Create(r, parseUuid, repoCreate) == HttpError(StatusBadRequest, "invalid body")
    ensures r.httpMethod == "POST" && r.body.Some? && InvalidInput(r.body.value) ==>
      Create(r, parseUuid, repoCreate) == HttpError(StatusBadRequest, "invalid input")
    ensures r.httpMethod == "POST" && r.body.Some? && !InvalidInput(r.body.value) && parseUuid(r.body.value.userId).None? ==>
      Create(r, parseUuid, repoCreate) == HttpError(StatusBadRequest, "invalid user_id")
    ensures CreateDecision(r, parseUuid).Reject? ==>
      forall other: NewExpense -> Option<R> :: Create(r, parseUuid, other) == Create(r, parseUuid, repoCreate)
  {
    if CreateDecision(r, parseUuid).Reject? {
      forall other: NewExpense -> Option<R> ensures Create(r, parseUuid, other) == Create(r, parseUuid, repoCreate) {
        RejectionIgnoresRepository(CreateDecision(r, parseUuid), other, repoCreate, "could not create expense");
      }
    }
  }

  /** A request that passes every check reaches the repository with the request's own
      fields and the parsed user id; the repository's failure is 500, its result is the
      response. */
  lemma CreateAccepted<R>(r: Request<CreateExpenseRequest>, parseUuid: string -> Option<Uuid>, repoCreate: NewExpense -> Option<R>)
    ensures CreateDecision(r, parseUuid).Store? <==>
      r.httpMethod == "POST" && r.body.Some? && !InvalidInput(r.body.value) && parseUuid(r.body.value.userId).Some?
    ensures CreateDecision(r, parseUuid).Store? ==>
      var req := r.body.value;
      var record := NewExpense(parseUuid(req.userId).value, req.title, req.amount, req.currency, req.category);
      && CreateDecision(r, parseUuid).record == record
      && Create(r, parseUuid, repoCreate)
         == (if repoCreate(record).None? then HttpError(StatusInternalServerError, "could not create expense")
             else Json(repoCreate(record).value))
  {
  }

  /** Any currency and any category pass, as long as they are not empty. */
  lemma FreeFormCurrencyAndCategory(userId: string, title: string, amount: int, currency: string, category: string, parseUuid: string -> Option<Uuid>)
    requires userId != "" && title != "" && amount > 0 && currency != "" && category != ""
    requires parseUuid(userId).Some?
    ensures CreateDecision(Request("POST", Some(CreateExpenseRequest(userId, title, amount, currency, category))), parseUuid).Store?
  {
    var req := CreateExpenseRequest(userId, title, amount, currency, category);
    assert !InvalidInput(req);
  }

  /** The list endpoint answers by its checks, in order, and otherwise passes the query
      string to the repository as it is, without a UUID check. */
  lemma GetByUserIDOutcomes<L>(httpMethod: string, userId: string, repoGet: string -> Option<L>)
    ensures httpMethod != "GET" ==>
      GetByUserID(httpMethod, userId, repoGet) == HttpError(StatusMethodNotAllowed, "method not allowed")
    ensures httpMethod == "GET" && userId == "" ==>
      GetByUserID(httpMethod, userId, repoGet) == HttpError(StatusBadRequest, "user_id query param required")
    ensures httpMethod == "GET" && userId != "" ==>
      GetByUserID(httpMethod, userId, repoGet)
      == (if repoGet(userId).None? then HttpError(StatusInternalServerError, "could not fetch expenses")
          else Json(repoGet(userId).value))
  {
  }
}
