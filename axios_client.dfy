/**
 * The shared axios instance of `src/utils/axios.js`: a request step that
 * attaches the bearer token, and a response step that logs the session out
 * on 401 and notifies the user about every failure before rejecting.
 */
module AxiosClient {
  import opened Js
  import opened Http
  import opened Config
  import opened Browser

  const SessionExpired: string := "Session expired. Please login again."
  const GenericError: string := "An error occurred. Please try again."

  /** Request step: sets `Authorization` from the stored token, in place, and returns the same config. */
  method RequestInterceptor(b: Browser, config: RequestConfig) returns (out: RequestConfig)
    modifies config
    ensures out == config && config.call == old(config.call)
    ensures config.headers == AuthorizedHeaders(old(config.headers), b.storage)
  {
    if HasToken(b.storage) {
      config.headers := config.headers["Authorization" := "Bearer " + b.storage[TokenKey]];
    }
    out := config;
  }

  /** Fulfilled responses pass through untouched; no browser state is involved. */
  method ResponseFulfilled(response: Value) returns (r: Value)
    ensures r == response
  {
    r := response;
  }

  /**
   * The notifications a rejected response produces, in order: the
   * session-expired notice on 401, then the server's message when it has a
   * truthy one, else the generic text.
   */
  function ErrorToasts(e: HttpError): (r: seq<Toast>)
    ensures |r| == if Is401(e) then 2 else 1
    ensures Is401(e) ==> r[0] == ToastError(SessionExpired)
    ensures Truthy(ServerMessage(e)) ==> r[|r| - 1] == ToastError(ToString(ServerMessage(e)))
    ensures !Truthy(ServerMessage(e)) ==> r[|r| - 1] == ToastError(GenericError)
  {
    var expired := if Is401(e) then [ToastError(SessionExpired)] else [];
    var message := ServerMessage(e);
    expired + [ToastError(if Truthy(message) then ToString(message) else GenericError)]
  }

  /**
   * Rejection step: on 401 removes the token and sends the window to the
   * login page; always notifies; rejects with the very error it received.
   */
  method ResponseRejected(b: Browser, error: HttpError) returns (rejected: HttpError)
    modifies b`storage, b`location, b`toasts
    ensures rejected == error
    ensures b.storage == if Is401(error) then old(b.storage) - {TokenKey} else old(b.storage)
    ensures b.location == if Is401(error) then LoginPath else old(b.location)
    ensures b.toasts == old(b.toasts) + ErrorToasts(error)
  {
    if Is401(error) {
      b.storage := b.storage - {TokenKey};
      b.location := LoginPath;
      b.toasts := b.toasts + [ToastError(SessionExpired)];
    }
    var message := ServerMessage(error);
    if Truthy(message) {
      b.toasts := b.toasts + [ToastError(ToString(message))];
    } else {
      b.toasts := b.toasts + [ToastError(GenericError)];
    }
    rejected := error;
  }

  /** A 401 always ends the session: afterwards no truthy token is stored. */
  lemma LogoutOn401(storage: map<string, string>)
    ensures !HasToken(storage - {TokenKey})
  {
  }
}
