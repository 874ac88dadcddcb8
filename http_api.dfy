/**
  * What the service's handlers share: a decoded request (method and body),
  * the response they write (an error status with its message, or a JSON body),
  * and the values the `uuid` and `time` packages produce. Decoding, the UUID
  * check and RFC 3339 parsing are functions each handler is given.
  */
module HttpApi {
  import opened Wrappers

  const StatusBadRequest: nat := 400
  const StatusMethodNotAllowed: nat := 405
  const StatusInternalServerError: nat := 500

  /** A request as a handler sees it: its method and its body after JSON decoding
      (`None` when `json.Decoder.Decode` fails). */
  datatype Request<B> = Request(httpMethod: string, body: Option<B>)

  /** `http.Error(w, message, status)`, or a JSON-encoded value with status 200. */
  datatype Response<T> = HttpError(status: nat, message: string) | Json(body: T)

  /** A parsed UUID, kept in its canonical form. */
  datatype Uuid = Uuid(canonical: string)

  /** The outcome of a handler's early-return checks: the error it writes, or the
      record it hands to the repository. */
  datatype Decision<T> = Reject(status: nat, message: string) | Store(record: T)

  /** Answering a decision: a rejection is written as it is; a record is handed to the
      repository, whose failure becomes 500 with `failure` and whose result is encoded. */
  function Answer<T, R>(d: Decision<T>, repo: T -> Option<R>, failure: string): (r: Response<R>)
    ensures d.Reject? ==> r == HttpError(d.status, d.message)
    ensures d.Store? && repo(d.record).None? ==> r == HttpError(StatusInternalServerError, failure)
    ensures d.Store? && repo(d.record).Some? ==> r == Json(repo(d.record).value)
  {
    match d
    case Reject(status, message) => HttpError(status, message)
    case Store(record) =>
      match repo(record)
      case None => HttpError(StatusInternalServerError, failure)
      case Some(created) => Json(created)
  }

  /** A rejected request gets the same answer whatever the repository would do: the
      repository is not consulted. */
  lemma RejectionIgnoresRepository<T, R>(d: Decision<T>, repo1: T -> Option<R>, repo2: T -> Option<R>, failure: string)
    requires d.Reject?
    ensures Answer(d, repo1, failure) == Answer(d, repo2, failure)
    ensures Answer(d, repo1, failure).HttpError? && Answer(d, repo1, failure).status == d.status
  {
  }
}
