/** Shared vocabulary of the tournament backend model: identifiers, instants,
    optional values, partial-update fields and the HTTP errors the endpoints raise. */
module Base {

  /** Row identifiers (uuid4 strings in the database) and player ids. */
  type Id = string

  /** An instant; `func.now()` and server-side defaults become a parameter of this type. */
  type Time = int

  datatype Option<+T> = None | Some(value: T)

  /** Python truthiness of an optional string: `None` and `""` are both false. */
  predicate Truthy(s: Option<string>) {
    s.Some? && s.value != ""
  }

  /** One field of a partial-update request: left out of the request body
      (`exclude_unset`) or set to a value. */
  datatype Field<+T> = Unset | Set(value: T) {
    /** The value a column holds after `setattr` with this field, if any. */
    function Apply(current: T): T {
      if Set? then value else current
    }
  }

  /** An `HTTPException`: status code and detail message. */
  datatype ApiError = ApiError(status: int, detail: string)

  /** What an endpoint answers: a response body or the exception it raised. */
  datatype Result<+T> = Ok(value: T) | Err(error: ApiError)

  const BadRequest: int := 400
  const Forbidden: int := 403
  const NotFound: int := 404
  /** Status of an uncaught exception, such as a database integrity error. */
  const InternalServerError: int := 500

  const IntegrityFailure := ApiError(InternalServerError, "Internal Server Error")
}
