/** The user-facing error texts, the status-to-message table and the helpers
    that classify a caught value. */
module ErrorMessages {
  import opened Wrappers
  import opened Errors

  const BadRequest := "Invalid request. Please check your input."
  const NotFound := "The requested resource was not found."
  const RateLimited := "Too many requests. Please wait a moment and try again."
  const ServerError := "Server error. Please try again later."
  const NetworkErrorMessage := "Network error. Please check your connection."
  const Generic := "An error occurred"
  const LoadClients := "Failed to load clients"
  const LoadProjects := "Failed to load projects"
  const LoadTasks := "Failed to load tasks"
  const LoadTimeEntries := "Failed to load time entries"
  const LoadTimeEntry := "Failed to load time entry"
  const SaveTimeEntry := "Failed to save time entry"
  const DeleteTimeEntry := "Failed to delete time entry"
  const LoadItems := "Failed to load items"
  const TaskNotFound := "Task not found. Please check the Task ID and try again."
  const TimeEntryNotFound := "Time entry not found. It may have been deleted."

  const StatusErrorMap: map<int, string> :=
    map[400 := BadRequest, 404 := NotFound, 429 := RateLimited, 500 := ServerError]

  /** `STATUS_ERROR_MAP[status]`: a dedicated message for 400, 404, 429 and 500 only. */
  function StatusMessage(status: int): (r: Option<string>)
    ensures r.Some? <==> status == 400 || status == 404 || status == 429 || status == 500
    ensures status == 400 ==> r == Some(BadRequest)
    ensures status == 404 ==> r == Some(NotFound)
    ensures status == 429 ==> r == Some(RateLimited)
    ensures status == 500 ==> r == Some(ServerError)
    ensures r.Some? ==> r.value != ""
  {
    if status in StatusErrorMap then Some(StatusErrorMap[status]) else None
  }

  /** `getErrorMessage`: the message of an `Error`, the fallback for anything else. */
  function GetErrorMessage(error: Thrown, fallback: string): (r: string)
    ensures error.ErrorInstance? ==> r == error.message
    ensures error.NonError? ==> r == fallback
  {
    match error
    case ErrorInstance(m, _, _) => m
    case NonError => fallback
  }

  /** `isApiError`: an `Error` whose `isApiError` property is exactly `true`. */
  predicate IsApiError(error: Thrown) {
    error.ErrorInstance? && error.apiErrorFlag
  }

  /** `isRateLimitError`: an API error whose `isRateLimited` property is exactly `true`. */
  predicate IsRateLimitError(error: Thrown) {
    IsApiError(error) && error.rateLimitedFlag
  }

  lemma RateLimitErrorIsApiError(error: Thrown)
    ensures IsRateLimitError(error) ==> IsApiError(error)
  {
  }

  /** Every `ApiError` is recognised; a plain `Error` or a non-`Error` is not. */
  lemma ApiErrorRecognised(e: ApiError, message: string)
    requires WellFormed(e)
    ensures IsApiError(Throw(e))
    ensures !IsApiError(PlainError(message)) && !IsApiError(NonError)
  {
  }

  /** Of the errors the client builds, exactly those from a 429 response are
      rate-limit errors. */
  lemma RateLimitErrorIffResponse429(o: Origin)
    ensures IsRateLimitError(Throw(Build(o))) <==> o.Response? && o.status == 429
  {
  }

  /** A loader shows an `ApiError`'s own message, never its fallback. */
  lemma MessageOfApiError(o: Origin, fallback: string)
    ensures GetErrorMessage(Throw(Build(o)), fallback) == Build(o).message
  {
  }
}
