/** Small value wrappers shared by the other modules: an optional value
    (a Go pointer or interface that may be nil), a value-or-error result
    (a Go `(T, error)` pair) and what an HTTP handler writes back. */
module Common {

  datatype Option<+T> = None | Some(value: T)

  datatype Result<+T> = Success(value: T) | Failure(error: string)

  /** The status code and body a handler writes. A handler that writes a
      body without calling `WriteHeader` answers 200. */
  datatype Response = Response(code: int, body: string)
}
