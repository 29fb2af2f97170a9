/**
 * Application errors and the global error handler that turns any error into
 * an HTTP status and a JSON error envelope.
 */
module ErrorHandler {
  import opened Wrappers

  /** One problem found by request validation: where it is and what is wrong. */
  datatype ValidationIssue = ValidationIssue(path: seq<string>, message: string)

  /** The free-form `details` an error may carry. */
  datatype Details = IssueList(issues: seq<ValidationIssue>) | Text(text: string)

  /** An error raised on purpose by the application, with its HTTP status and machine-readable code. */
  datatype AppError = AppError(statusCode: int, code: string, message: string, details: Option<Details>) {
    const name: string := "AppError"
  }

  /** An AppError keeps the status, code, message and details it was built with, under the name "AppError". */
  lemma AppErrorKeepsFields(statusCode: int, code: string, message: string, details: Option<Details>)
    ensures var e := AppError(statusCode, code, message, details);
      e.statusCode == statusCode && e.code == code && e.message == message &&
      e.details == details && e.name == "AppError"
  {
  }

  /** Everything the handler can be given: an AppError, a validation failure, or any other error. */
  datatype Error =
    | App(appError: AppError)
    | Validation(issues: seq<ValidationIssue>)
    | Other(message: string)

  datatype ErrorBody = ErrorBody(code: string, message: string, details: Option<Details>)

  datatype ErrorResponse = ErrorResponse(success: bool, error: ErrorBody)

  const GenericMessage := "An unexpected error occurred"

  /**
   * The response the handler sends for `err`. `isDevelopment` is the
   * configuration flag that lets unexpected errors show their own message.
   */
  method HandleError(err: Error, isDevelopment: bool) returns (statusCode: int, response: ErrorResponse)
    ensures !response.success
    ensures err.App? ==>
      statusCode == err.appError.statusCode &&
      response.error == ErrorBody(err.appError.code, err.appError.message, err.appError.details)
    ensures err.Validation? ==>
      statusCode == 400 &&
      response.error == ErrorBody("VALIDATION_ERROR", "Invalid request data", Some(IssueList(err.issues)))
    ensures err.Other? ==>
      statusCode == 500 &&
      response.error.code == "INTERNAL_SERVER_ERROR" && response.error.details.None? &&
      response.error.message == (if isDevelopment then err.message else "An unexpected error occurred")
  {
    statusCode := 500;
    response := ErrorResponse(false, ErrorBody("INTERNAL_SERVER_ERROR", GenericMessage, None));
    match err {
      case App(e) =>
        statusCode := e.statusCode;
        response := response.(error := ErrorBody(e.code, e.message, e.details));
      case Validation(issues) =>
        statusCode := 400;
        response := response.(error := ErrorBody("VALIDATION_ERROR", "Invalid request data", Some(IssueList(issues))));
      case Other(message) =>
        var shown := if isDevelopment then message else GenericMessage;
        response := response.(error := response.error.(message := shown));
    }
  }

  /** The response for a route that does not exist. */
  method NotFoundHandler() returns (statusCode: int, response: ErrorResponse)
    ensures statusCode == 404 && !response.success
    ensures response.error == ErrorBody("NOT_FOUND", "The requested resource was not found", None)
  {
    statusCode := 404;
    response := ErrorResponse(false, ErrorBody("NOT_FOUND", "The requested resource was not found", None));
  }
}
