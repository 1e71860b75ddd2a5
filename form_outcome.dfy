/**
 * What the Add Customer and Add Product forms show after Submit. Both forms
 * read the `jwtToken` cookie, refuse to send anything without it, and
 * otherwise post the form's values and turn the way the post settled into
 * one message. The two forms differ only in the endpoint and in the text for
 * an axios error that has neither a response nor a request.
 */
module FormOutcome {
  import opened Wrappers

  /**
   * How the post settled. `Created` carries `response.data.message`;
   * `ErrorResponse` carries `error.response.data.message`; either may be
   * undefined (None).
   */
  datatype SubmitOutcome =
    | Created(message: Option<string>)
    | ErrorResponse(message: Option<string>)
    | NoResponse
    | OtherAxiosError
    | NonAxiosError

  const MissingToken: string := "JWT token is missing. Please log in again."
  const ErrorPrefix: string := "Error: "
  const UnknownServerError: string := "Unknown server error"
  const NoResponseText: string := "No response from server. Please try again."
  const UnexpectedText: string := "Unexpected error occurred. Please try again."

  /** JavaScript truthiness of a possibly undefined string: defined and not empty. */
  predicate Truthy(s: Option<string>) {
    s.Some? && s.value != ""
  }

  /** `if (!jwtToken)` fails exactly when the cookie is absent or empty. */
  predicate TokenPresent(token: Option<string>) {
    Truthy(token)
  }

  /** `{responseMessage && <div>…</div>}`: the message is rendered iff it is truthy. */
  predicate Shown(message: Option<string>) {
    Truthy(message)
  }

  /** The request `axios.post` sends: endpoint, the form's values, and the bearer header. */
  datatype PostRequest = PostRequest(endpoint: string, body: map<string, string>, authorization: string)

  function BearerRequest(endpoint: string, body: map<string, string>, token: string): (r: PostRequest)
    ensures r.endpoint == endpoint && r.body == body
    ensures |r.authorization| == 7 + |token|
    ensures r.authorization[..7] == "Bearer " && r.authorization[7..] == token
  {
    PostRequest(endpoint, body, "Bearer " + token)
  }

  /** The header carries the token whole: two requests with one header were sent with one token. */
  lemma BearerRequestInjective(endpoint: string, body: map<string, string>, a: string, b: string)
    ensures BearerRequest(endpoint, body, a) == BearerRequest(endpoint, body, b) ==> a == b
  {
  }

  /**
   * `onFinish`'s final message: the token check first, then how the post
   * settled. A success shows the server's message as it came; an error
   * response shows "Error: " and the server's message, or a fallback when
   * that is falsy; the three other failures each show their fixed text.
   */
  function SubmitMessage(token: Option<string>, outcome: SubmitOutcome, failureText: string): (r: Option<string>)
    ensures !TokenPresent(token) ==> r == Some(MissingToken)
    ensures TokenPresent(token) && outcome.Created? ==> r == outcome.message
    ensures TokenPresent(token) && outcome.ErrorResponse? ==>
      r.Some? && |r.value| > 7 && r.value[..7] == ErrorPrefix
      && r.value[7..] == (if Truthy(outcome.message) then outcome.message.value else UnknownServerError)
    ensures TokenPresent(token) && outcome.NoResponse? ==> r == Some(NoResponseText)
    ensures TokenPresent(token) && outcome.OtherAxiosError? ==> r == Some(failureText)
    ensures TokenPresent(token) && outcome.NonAxiosError? ==> r == Some(UnexpectedText)
  {
    if !TokenPresent(token) then Some(MissingToken)
    else match outcome
      case Created(message) => message
      case ErrorResponse(message) =>
        var detail := if Truthy(message) then message.value else UnknownServerError;
        assert (ErrorPrefix + detail)[7..] == detail;
        Some(ErrorPrefix + detail)
      case NoResponse => Some(NoResponseText)
      case OtherAxiosError => Some(failureText)
      case NonAxiosError => Some(UnexpectedText)
  }

  /** Without a token the outcome of a post cannot matter: nothing was sent. */
  lemma MissingTokenIgnoresOutcome(token: Option<string>, a: SubmitOutcome, b: SubmitOutcome, failureText: string)
    requires !TokenPresent(token)
    ensures SubmitMessage(token, a, failureText) == SubmitMessage(token, b, failureText)
    ensures Shown(SubmitMessage(token, a, failureText))
  {
  }

  /** Every failure is reported with a visible message. */
  lemma FailuresAreShown(token: Option<string>, outcome: SubmitOutcome, failureText: string)
    requires failureText != ""
    requires !outcome.Created?
    ensures Shown(SubmitMessage(token, outcome, failureText))
  {
  }

  /** A success shows the server's message, and shows nothing when that message is empty or missing. */
  lemma SuccessShownIffServerMessage(token: Option<string>, message: Option<string>, failureText: string)
    requires TokenPresent(token)
    ensures SubmitMessage(token, Created(message), failureText) == message
    ensures Shown(SubmitMessage(token, Created(message), failureText)) <==> Truthy(message)
  {
  }
}
