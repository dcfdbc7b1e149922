/** The message the route error boundary displays. */
module ErrorBoundary {
  import opened Wrappers
  import opened Thrown

  const FallbackMessage := "Unknown Error"

  /** The value has a `message` property whose value is a string. */
  predicate HasStringMessage(error: ErrorValue) {
    error.ObjectValue? && error.message.Some? && error.message.value.StringProperty?
  }

  /** `getErrorMessage`: a string is its own message; an object with a
      string `message` gives that message unless it is empty; everything
      else gives the fallback. */
  function GetErrorMessage(error: ErrorValue): (r: string)
    ensures error.StringValue? ==> r == error.text
    ensures HasStringMessage(error) && error.message.value.text != "" ==> r == error.message.value.text
    ensures HasStringMessage(error) && error.message.value.text == "" ==> r == FallbackMessage
    ensures !error.StringValue? && !HasStringMessage(error) ==> r == FallbackMessage
    ensures r == "" <==> error == StringValue("")
  {
    if error.StringValue? then error.text
    else if error.ObjectValue? && error.message.Some? && error.message.value.StringProperty? then
      if error.message.value.text != "" then error.message.value.text else FallbackMessage
    else FallbackMessage
  }

  /** What `useRouteError` hands the boundary: a response thrown with
      `data(...)`, whose `data` is the message, or any other thrown value. */
  datatype RouteError = RouteErrorResponse(status: int, data: string) | ThrownError(value: ErrorValue)

  /** The message `GeneralErrorBoundary` renders. */
  function GeneralErrorMessage(error: RouteError): (r: string)
    ensures error.RouteErrorResponse? ==> r == error.data
    ensures error.ThrownError? ==> r == GetErrorMessage(error.value)
    ensures error.ThrownError? ==> (r == "" <==> error.value == StringValue(""))
  {
    match error
    case RouteErrorResponse(_, data) => data
    case ThrownError(value) => GetErrorMessage(value)
  }
}
