/**
 * The records the components receive from the remote REST API, and the way an
 * awaited request settles. Every network call is a parameter of the operation
 * that awaits it: the model takes each possible outcome as given.
 */
module Api {
  import opened Wrappers

  /** The fields of a rejected request's error object that the components read. */
  datatype HttpError = HttpError(
    responseMessage: Option<string>,  // `error.response?.data?.message`
    message: Option<string>)          // `error.message`

  /** An awaited promise either resolves with a value or rejects with an error. */
  datatype Response<T> = Ok(value: T) | Failed(error: HttpError)

  /** The body of `GET /auth/profile`. */
  datatype UserProfile = UserProfile(username: string, role: string)

  datatype Category = Category(id: string, name: string)

  datatype Article = Article(id: string, title: string, content: string, categoryName: string)

  /** A page of a paginated listing: `response.data.data` and `response.data.total`. */
  datatype Page<T> = Page(data: seq<T>, total: nat)

  /** `if (token)`: a missing or empty stored token counts as no token. */
  predicate HasToken(token: Option<string>)
  {
    token.Some? && token.value != ""
  }

  /** The rejection of `fetchUserProfile` when no token is stored: it sends no request. */
  const NoTokenError := HttpError(None, Some("No token found"))

  /** The key under which the session token sits in `localStorage`. */
  const TokenKey := "access_token"
}
