/** How a handler's failure reaches the client: a handler passes an error to
    `next`, and the terminal error middleware answers with the error's status
    code (500 when it has none) inside a `{success, statusCode, message}` body. */
module ErrorHandling {

  /** What a handler passes to `next`. */
  datatype Thrown =
    | HttpError(statusCode: int, message: string)  // built by errorHandler(statusCode, message)
    | Unexpected(message: string)                  // any other error: schema validation, casts, the store

  /** What a handler produces: a success response, or an error for the middleware. */
  datatype Outcome<T> = Done(status: int, message: string, data: T) | Raised(error: Thrown)

  datatype ErrorBody = ErrorBody(success: bool, statusCode: int, message: string)

  const InternalServerError := "Internal Server Error"
  const AllFieldsRequired := "All fields are required"

  /** `err.statusCode || 500` */
  function StatusOf(e: Thrown): (code: int)
    ensures e.HttpError? && e.statusCode != 0 ==> code == e.statusCode
    ensures !(e.HttpError? && e.statusCode != 0) ==> code == 500
    ensures code != 0
  {
    if e.HttpError? && e.statusCode != 0 then e.statusCode else 500
  }

  /** The JSON body the error middleware sends. */
  function Envelope(e: Thrown): (body: ErrorBody)
    ensures !body.success && body.statusCode == StatusOf(e)
    ensures body.message != ""
    ensures e.message != "" ==> body.message == e.message
    ensures e.message == "" ==> body.message == InternalServerError
  {
    ErrorBody(false, StatusOf(e), if e.message != "" then e.message else InternalServerError)
  }

  /** The status code the client sees for an outcome. */
  function StatusCode<T>(o: Outcome<T>): int
  {
    match o
    case Done(status, _, _) => status
    case Raised(e) => StatusOf(e)
  }
}
