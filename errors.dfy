/** The typed error the HTTP client rejects with, and the values a `catch` can receive. */
module Errors {

  /** An `ApiError`: an `Error` whose fields are set once, by its constructor. */
  datatype ApiError = ApiError(message: string, name: string, status: int,
                               isRateLimited: bool, isNetworkError: bool, isApiError: bool)

  /** What every constructed `ApiError` carries whatever its arguments. */
  predicate WellFormed(e: ApiError) {
    e.isApiError && e.name == "ApiError"
  }

  /** `new ApiError(message, status, isRateLimited = false, isNetworkError = false)`. */
  function NewApiError(message: string, status: int, isRateLimited: bool := false,
                       isNetworkError: bool := false): (e: ApiError)
    ensures WellFormed(e)
    ensures e.message == message && e.status == status
    ensures e.isRateLimited == isRateLimited && e.isNetworkError == isNetworkError
  {
    ApiError(message, "ApiError", status, isRateLimited, isNetworkError, true)
  }

  /** The constructor's two flags default to false. */
  lemma ConstructorDefaults(message: string, status: int)
    ensures !NewApiError(message, status).isRateLimited
    ensures !NewApiError(message, status).isNetworkError
    ensures NewApiError(message, status) == NewApiError(message, status, false, false)
  {
  }

  /** `ApiError.fromResponse`: an HTTP error response with the given status. */
  function FromResponse(status: int, message: string): (e: ApiError)
    ensures WellFormed(e)
    ensures e.status == status && e.message == message
    ensures e.isRateLimited <==> status == 429
    ensures !e.isNetworkError
  {
    NewApiError(message, status, status == 429)
  }

  /** `ApiError.networkError`: no response arrived; status is the sentinel 0. */
  function NetworkError(message: string): (e: ApiError)
    ensures WellFormed(e)
    ensures e.status == 0 && e.message == message
    ensures !e.isRateLimited && e.isNetworkError
  {
    NewApiError(message, 0, false, true)
  }

  /** The two ways the client builds an `ApiError`. */
  datatype Origin = Response(status: int, responseMessage: string) | Network(networkMessage: string)

  function Build(o: Origin): ApiError {
    match o
    case Response(s, m) => FromResponse(s, m)
    case Network(m) => NetworkError(m)
  }

  /** A value caught by a JavaScript `catch`: an `Error` instance, with its
      message and whether its `isApiError` and `isRateLimited` properties are
      present and exactly `true`, or any value that is not an `Error`. */
  datatype Thrown = ErrorInstance(message: string, apiErrorFlag: bool, rateLimitedFlag: bool)
                  | NonError

  /** An `ApiError` seen as a thrown value. */
  function Throw(e: ApiError): (t: Thrown)
    ensures t.ErrorInstance? && t.message == e.message
  {
    ErrorInstance(e.message, e.isApiError, e.isRateLimited)
  }

  /** A plain `Error` with the given message. */
  function PlainError(message: string): Thrown {
    ErrorInstance(message, false, false)
  }
}
