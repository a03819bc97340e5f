/**
 * The JSON envelope both API routes answer with: an HTTP status and a body
 * `{ success, data, error }`, where `data` and `error` may be null.
 */
module ApiEnvelope {
  import opened Wrappers

  const Ok: nat := 200
  const BadRequest: nat := 400
  const ServerError: nat := 500

  datatype Response<D> = Response(status: nat, success: bool, data: Option<D>, error: Option<string>)

  /** A response whose body is `{ success: true, data, error: null }`, status 200. */
  function Succeed<D>(data: D): (r: Response<D>)
    ensures r.status == Ok && r.success && r.data == Some(data) && r.error.None?
  {
    Response(Ok, true, Some(data), None)
  }

  /** A response whose body is `{ success: false, data: null, error: message }`. */
  function Fail<D>(status: nat, message: string): (r: Response<D>)
    ensures r.status == status && !r.success && r.data.None? && r.error == Some(message)
  {
    Response(status, false, None, Some(message))
  }

  /** The envelope's own invariant: success exactly when there is data, and exactly when there is no error. */
  predicate WellFormed<D>(r: Response<D>)
  {
    (r.success <==> r.data.Some?) && (r.success <==> r.error.None?)
  }
}
