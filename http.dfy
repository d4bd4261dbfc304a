/**
 * The request transport underneath the Discord client: requests, scripted
 * replies, the error taxonomy, and a remote that records every request it
 * is sent and answers from a script.
 */
module Http {
  import opened Wrappers
  import opened Wire

  datatype Method = GET | POST | PATCH

  /** A request as handed to the HTTP client; headers are keyed by canonical name. */
  datatype Request = Request(verb: Method, url: string, headers: map<string, string>, body: Option<Payload>)

  /**
   * One round trip as seen by the client: either the request could not be
   * sent or answered, or a status code with the raw body and what decoding
   * that body as each response shape yields (None when it does not parse).
   */
  datatype Reply =
    | TransportFailure
    | Response(status: int, body: string, channel: Option<ForumChannelResponse>, thread: Option<CreateThreadResponse>)

  /** The kinds of error an operation reports. API errors keep the status and raw body verbatim. */
  datatype Error =
    | Transport
    | Api(status: int, body: string)
    | Parse
    | TagNotFound

  datatype Result<T> = Ok(value: T) | Err(error: Error)

  /** What one operation did: the requests it issued, in order, and what it returned. */
  datatype Run<T> = Run(sent: seq<Request>, result: Result<T>)

  /** The k-th reply still to come; a remote whose script has run out is unreachable. */
  function Upcoming(script: seq<Reply>, k: nat): (r: Reply)
    ensures k >= |script| ==> r == TransportFailure
  {
    if k < |script| then script[k] else TransportFailure
  }

  /** The script left after n round trips. */
  function Consumed(script: seq<Reply>, n: nat): (r: seq<Reply>)
    ensures |r| == if n <= |script| then |script| - n else 0
    ensures forall k: nat :: Upcoming(r, k) == Upcoming(script, n + k)
  {
    if n <= |script| then script[n..] else []
  }

  /** The remote end of the connection (Go's http.Client.Do against Discord). */
  class Remote {
    /** Every request issued so far, oldest first. */
    var log: seq<Request>
    /** The replies the remote will give, in order. */
    var script: seq<Reply>

    constructor (script: seq<Reply>)
      ensures log == [] && this.script == script
    {
      log := [];
      this.script := script;
    }

    /** Sends one request and receives the next scripted reply. */
    method Do(req: Request) returns (reply: Reply)
      modifies this
      ensures log == old(log) + [req]
      ensures reply == Upcoming(old(script), 0)
      ensures script == Consumed(old(script), 1)
    {
      log := log + [req];
      if script == [] {
        reply := TransportFailure;
      } else {
        reply := script[0];
        script := script[1..];
      }
    }
  }
}
