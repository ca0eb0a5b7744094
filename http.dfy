/** The `ResponseEntity` values the REST controllers build. */
module Http {
  import opened Base

  const OK := 200
  const CREATED := 201
  const NO_CONTENT := 204
  const NOT_FOUND := 404
  /** What Spring answers when a handler throws, as `save` does for a row that
      breaks a column constraint: no controller here catches it. */
  const INTERNAL_SERVER_ERROR := 500

  /** A status code and an optional JSON body. */
  datatype Response<T> = Response(status: int, body: Option<T>)

  function Ok<T>(body: T): Response<T> { Response(OK, Some(body)) }

  function Created<T>(body: T): Response<T> { Response(CREATED, Some(body)) }

  function NoContent<T>(): Response<T> { Response(NO_CONTENT, None) }

  function NotFound<T>(): Response<T> { Response(NOT_FOUND, None) }

  function ServerError<T>(): Response<T> { Response(INTERNAL_SERVER_ERROR, None) }

  /** `optional.map(ResponseEntity::ok).orElse(notFound)`, and the `!= null`
      test of the PUT handlers: the body is sent with 200 exactly when there is
      one, and 404 carries no body. */
  function OkOrNotFound<T>(o: Option<T>): (r: Response<T>)
    ensures r.status == OK <==> o.Some?
    ensures r.status == NOT_FOUND <==> o.None?
    ensures r.body == o
  {
    match o
    case Some(v) => Ok(v)
    case None => NotFound()
  }

  /** The PUT handlers: a `save` that threw gives 500 with no body; otherwise
      200 with the updated row, or 404 with no body for an unknown id. */
  function OkOrNotFoundOrError<T>(o: Outcome<Option<T>>): (r: Response<T>)
    ensures r.status == INTERNAL_SERVER_ERROR <==> o.Failure?
    ensures r.status == OK <==> o.Success? && o.value.Some?
    ensures r.status == NOT_FOUND <==> o == Success(None)
    ensures r.body == (if o.Success? then o.value else None)
  {
    match o
    case Success(v) => OkOrNotFound(v)
    case Failure => ServerError()
  }

  /** The DELETE handlers: 204 when the row was deleted, 404 otherwise. */
  function NoContentOrNotFound<T>(deleted: bool): (r: Response<T>)
    ensures r.status == NO_CONTENT <==> deleted
    ensures r.status == NOT_FOUND <==> !deleted
    ensures r.body == None
  {
    if deleted then NoContent() else NotFound()
  }
}
