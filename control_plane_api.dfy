/** The HTTP API between the gateway and the Control Plane: the JSON bodies it
    exchanges and the outcomes of one HTTP call. */
module ControlPlaneApi {
  import opened Common

  /** Body of `GET /api/tunnels/resolve/{slug}`. */
  datatype SlugRecord = SlugRecord(tunnelId: string, status: Option<string>, expiresAt: Option<int>)

  /** Body of `POST /api/tunnels/validate`; an absent key is None. `valid` holds
      the truthiness of the value (the gateway only tests it with `not`), and
      `otherKeys` says whether the object has any key besides these four. */
  datatype Validation = Validation(
    valid: Option<bool>,
    tunnelId: Option<string>,
    status: Option<string>,
    expiresAt: Option<int>,
    otherKeys: bool)

  /** A JSON object is truthy exactly when it has at least one key. */
  predicate NonEmpty(v: Validation) {
    v.valid.Some? || v.tunnelId.Some? || v.status.Some? || v.expiresAt.Some? || v.otherKeys
  }

  /** One HTTP call: a status code with the body decoded as `T`, a timeout, or any
      other transport failure. The body is None when it is not a JSON object: on
      text that is not JSON `response.json()` raises, and on a list, a number or
      `null` the client's `.get` raises, both inside the client's broad `except`,
      which returns None. */
  datatype HttpReply<T> = Response(code: int, body: Option<T>) | TimedOut | Failed
}
