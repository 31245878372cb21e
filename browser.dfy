/**
 * The browser-side state the dashboard reads and writes: `localStorage`,
 * `window.location.href`, the toast notifications shown, the requests that
 * left the client, and the router's `navigate` targets. Each is a field;
 * the logs only ever grow.
 */
module Browser {
  import opened Http

  /** The part of the browser state that the HTTP client touches. */
  datatype NetState = NetState(storage: map<string, string>, location: string, requests: seq<Request>)

  class Browser {
    var storage: map<string, string>
    var location: string
    var toasts: seq<Toast>
    var requests: seq<Request>
    var history: seq<string>

    constructor (storage: map<string, string>, location: string)
      ensures this.storage == storage && this.location == location
      ensures toasts == [] && requests == [] && history == []
    {
      this.storage := storage;
      this.location := location;
      toasts := [];
      requests := [];
      history := [];
    }

    function Net(): NetState
      reads this
    {
      NetState(storage, location, requests)
    }
  }
}
