/** The error responses the Express handlers send, by HTTP status. */
module Responses {

  datatype HttpError =
    | BadRequest(message: string)   // 400
    | Forbidden(message: string)    // 403
    | NotFound(message: string)     // 404
    | ServerError(message: string)  // 500

  function StatusCode(e: HttpError): int {
    match e
    case BadRequest(_) => 400
    case Forbidden(_) => 403
    case NotFound(_) => 404
    case ServerError(_) => 500
  }
}
