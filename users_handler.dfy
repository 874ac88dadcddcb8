/**
  * The user endpoint of the service (backend/internal/users/handler.go):
  * `Create` decodes an email, rejects an empty one, and returns the user the
  * repository creates. It does not look at the request method.
  */
module UsersHandler {
  import opened Wrappers
  import opened HttpApi

  /** The body of `POST /users`. */
  datatype CreateUserRequest = CreateUserRequest(email: string)

  /** The early-return checks of `Create`, in order. */
  function CreateDecision(r: Request<CreateUserRequest>): Decision<string> {
    if r.body.None? then Reject(StatusBadRequest, "invalid body")
    else if r.body.value.email == "" then Reject(StatusBadRequest, "email required")
    else Store(r.body.value.email)
  }

  /** `Handler.Create`; `repoCreate` is the repository's insert by email. */
  function Create<U>(r: Request<CreateUserRequest>, repoCreate: string -> Option<U>): Response<U> {
    Answer(CreateDecision(r), repoCreate, "could not create user")
  }

  /** The outcomes in order. Any non-empty email, even one of spaces, reaches the
      repository unchanged, and the method plays no part. */
  lemma CreateOutcomes<U>(r: Request<CreateUserRequest>, repoCreate: string -> Option<U>)
    ensures r.body.None? ==> Create(r, repoCreate) == HttpError(StatusBadRequest, "invalid body")
    ensures r.body.Some? && r.body.value.email == "" ==>
      Create(r, repoCreate) == HttpError(StatusBadRequest, "email required")
    ensures r.body.Some? && r.body.value.email != "" ==>
      Create(r, repoCreate)
      == (if repoCreate(r.body.value.email).None? then HttpError(StatusInternalServerError, "could not create user")
          else Json(repoCreate(r.body.value.email).value))
    ensures forall m :: Create(Request(m, r.body), repoCreate) == Create(r, repoCreate)
  {
  }
}
