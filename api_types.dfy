/**
  The error types of the API client (src/types/api.ts): the JSON:API error
  object and error document (the "Error Objects" part of the JSON:API format),
  and the `ApiError` the client throws for a failed response.
*/
module ApiTypes {
  import opened Wrappers

  /** A JSON:API error object; every member is an optional string. */
  datatype JsonApiError = JsonApiError(
    status: Option<string>,
    code: Option<string>,
    title: Option<string>,
    detail: Option<string>)

  /**
    A JSON:API error document as the client reads it. The declared type makes
    `errors` mandatory, but the client reads it with `?.`, so a parsed body
    without an `errors` member is None here.
  */
  datatype JsonApiErrorResponse = JsonApiErrorResponse(errors: Option<seq<JsonApiError>>)

  /** The name every `ApiError` carries. */
  const ApiErrorName: string := "ApiError"

  /**
    An `ApiError`: an `Error` with a message and name, plus the readonly HTTP
    status and optional list of JSON:API errors. A datatype value cannot
    change, which is what `readonly` promises for `status` and `errors`.
  */
  datatype ApiError = ApiError(message: string, name: string, status: int, errors: Option<seq<JsonApiError>>)

  /**
    `new ApiError(message, status, errors)`: keeps the message, status and
    error list exactly as given (in order, absent when not given) and sets
    the name to "ApiError".
  */
  function NewApiError(message: string, status: int, errors: Option<seq<JsonApiError>>): (e: ApiError)
    ensures e.message == message && e.status == status && e.errors == errors
    ensures e.name == ApiErrorName
  {
    ApiError(message, ApiErrorName, status, errors)
  }
}
