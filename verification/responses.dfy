/** The failures the transaction controller reports, with their HTTP status codes. */
module Responses {

  datatype ApiError =
    | MissingDates        // a report query without `startDate` or `endDate`
    | InvalidDateFormat   // a report date that is not a valid time value after normalisation
    | NotFound            // no document with that id owned by the caller
    | ValidationFailed    // `save()` rejected the document; surfaces through the catch block

  function Status(e: ApiError): nat {
    match e
    case MissingDates => 400
    case InvalidDateFormat => 400
    case NotFound => 404
    case ValidationFailed => 500
  }

  /**
   * The `message` of the JSON error body. For a validation error it is the start of
   * Mongoose's message, which goes on to name the failing paths.
   */
  function Message(e: ApiError): string {
    match e
    case MissingDates => "Start date and end date are required"
    case InvalidDateFormat => "Invalid date format"
    case NotFound => "Transaction not found"
    case ValidationFailed => "Transaction validation failed"
  }
}
