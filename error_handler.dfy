/** Classification of a failed HTTP request into the record the login screen shows. */
module ErrorHandler {
  import opened Wrappers

  /** The JSON body of an error response; either property may be missing. */
  datatype ErrorBody = ErrorBody(message: Option<string>, code: Option<string>)

  datatype HttpResponse = HttpResponse(status: int, data: ErrorBody)

  /** What a request error carries: the response if one arrived, whether the request
      was sent at all, and the error's own message. */
  datatype RequestError = RequestError(response: Option<HttpResponse>, requestSent: bool, message: string)

  datatype ApiError = ApiError(message: string, code: string, status: int)

  const DEFAULT_MESSAGE: string := "An error occurred"
  const UNKNOWN_ERROR: string := "UNKNOWN_ERROR"
  const NETWORK_ERROR: string := "NETWORK_ERROR"
  const NO_RESPONSE_MESSAGE: string := "No response from server"
  const REQUEST_SETUP_ERROR: string := "REQUEST_SETUP_ERROR"

  /** `ErrorHandler.handle`. */
  function Handle(error: RequestError): (r: ApiError)
    // a response arrived: the server's message and code (or defaults) and its status
    ensures error.response.Some? ==>
              var data := error.response.value.data;
              && r.status == error.response.value.status
              && (if data.message.Some? && data.message.value != "" then r.message == data.message.value
                  else r.message == DEFAULT_MESSAGE)
              && (if data.code.Some? && data.code.value != "" then r.code == data.code.value
                  else r.code == UNKNOWN_ERROR)
    // sent but unanswered: a network error
    ensures error.response.None? && error.requestSent ==>
              r == ApiError(NO_RESPONSE_MESSAGE, NETWORK_ERROR, 0)
    // never sent: a setup error with the error's own message, if it has one
    ensures error.response.None? && !error.requestSent ==>
              && r.code == REQUEST_SETUP_ERROR && r.status == 0
              && r.message == (if error.message != "" then error.message else DEFAULT_MESSAGE)
    // the message shown is never empty
    ensures r.message != ""
  {
    if error.response.Some? then
      var data := error.response.value.data;
      ApiError(OrElse(data.message, DEFAULT_MESSAGE), OrElse(data.code, UNKNOWN_ERROR), error.response.value.status)
    else if error.requestSent then
      ApiError(NO_RESPONSE_MESSAGE, NETWORK_ERROR, 0)
    else
      ApiError(OrElse(Some(error.message), DEFAULT_MESSAGE), REQUEST_SETUP_ERROR, 0)
  }

  /** Status 0 marks exactly the errors without a response, as long as no server answers with status 0. */
  lemma StatusZeroWithoutResponse(error: RequestError)
    requires error.response.Some? ==> error.response.value.status != 0
    ensures Handle(error).status == 0 <==> error.response.None?
  {
  }
}
