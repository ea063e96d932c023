/** What the handlers and the auth gate share: status codes, decoded bodies, replies. */
module Http {
  import opened Wrappers

  const StatusOK: int := 200
  const StatusCreated: int := 201
  const StatusNoContent: int := 204
  const StatusBadRequest: int := 400
  const StatusUnauthorized: int := 401
  const StatusInternalServerError: int := 500

  /** The outcome of decoding a JSON request body. */
  datatype Decoded<T> = Malformed | Decoded(value: T)

  /**
   * What a handler does with one request: the status it answers, the service
   * call it makes (`None` when it answers before calling), and the value it
   * encodes into the response body, if any.
   */
  datatype Reply<C, B> = Reply(status: int, call: Option<C>, body: Option<B>)

  /** The identity check every protected handler starts with: a user ID is in the context and it is not empty. */
  predicate Authenticated(ctxUserId: Option<string>) {
    ctxUserId.Some? && ctxUserId.value != ""
  }
}
