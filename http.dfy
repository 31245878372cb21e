/**
 * What travels between the dashboard and its REST backend: calls (verb,
 * path, optional JSON body), the backend's outcome for each call, and the
 * session token that authorises them.
 */
module Http {
  import opened Wrappers
  import opened Js

  datatype Verb = GET | POST | PUT | PATCH | DELETE

  /** One `api.<verb>(path, body)` invocation. */
  datatype Call = Call(verb: Verb, path: string, body: Option<Value>)

  /** The `response` part of an axios error: the HTTP status and the decoded body. */
  datatype ErrorResponse = ErrorResponse(status: int, data: Value)

  /** An axios error; `response` is absent for network failures. */
  datatype HttpError = HttpError(response: Option<ErrorResponse>)

  /** What the backend does with one call: resolve with `response.data`, or reject. */
  datatype Reply = Ok(data: Value) | Failed(error: HttpError)

  /** A call paired with the reply the backend gives it. */
  datatype Exchange = Exchange(call: Call, reply: Reply)

  /** A request as it leaves the client: the call and its final headers. */
  datatype Request = Request(call: Call, headers: map<string, string>)

  datatype Toast = ToastSuccess(text: string) | ToastError(text: string)

  /** The `localStorage` key holding the session token. */
  const TokenKey: string := "adminToken"

  /** The login route, target of every forced logout. */
  const LoginPath: string := "/admin/login"

  /** `localStorage.getItem('adminToken')` is truthy: present and non-empty. */
  predicate HasToken(storage: map<string, string>) {
    TokenKey in storage && storage[TokenKey] != ""
  }

  /** `error.response?.status === 401`. */
  predicate Is401(e: HttpError) {
    e.response.Some? && e.response.value.status == 401
  }

  /** `error.response?.data?.message`. */
  function ServerMessage(e: HttpError): Value {
    if e.response.Some? then Get(e.response.value.data, "message") else Undefined
  }

  /**
   * The headers after the request step: `Authorization: Bearer <token>` is
   * set exactly when a truthy token is stored, and no other header changes.
   */
  function AuthorizedHeaders(headers: map<string, string>, storage: map<string, string>): (r: map<string, string>)
    ensures HasToken(storage) ==> "Authorization" in r && r["Authorization"] == "Bearer " + storage[TokenKey]
    ensures !HasToken(storage) ==> r == headers
    ensures forall h :: h in headers && h != "Authorization" ==> h in r && r[h] == headers[h]
    ensures forall h :: h in r && h != "Authorization" ==> h in headers
  {
    if HasToken(storage) then headers["Authorization" := "Bearer " + storage[TokenKey]] else headers
  }
}

/** The mutable request configuration that axios hands to a request interceptor. */
module Config {
  import opened Http

  class RequestConfig {
    var call: Call
    var headers: map<string, string>

    constructor (call: Call, headers: map<string, string>)
      ensures this.call == call && this.headers == headers
    {
      this.call := call;
      this.headers := headers;
    }
  }
}
