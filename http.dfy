/** The outbound HTTP call, abstracted: a request record, the response the
    provider gives back, and a transport that records what it was asked to
    send. */
module Http {
  import opened Wrappers
  import opened JsValues

  /** A `fetch` call: URL, HTTP method, headers and the JSON body, kept as
      the object that is serialised. */
  datatype Request = Request(url: string, verb: string, headers: map<string, string>, body: Record)

  /** A provider reply: its `ok` flag and the `description` member of its
      JSON body (`None` when the body has no such member). */
  datatype Response = Response(ok: bool, description: Option<string>)

  /** How a `fetch` call settles: with a reply, or rejected (a network or
      DNS failure, an abort) with the rejection's reason. */
  type Reply = Result<Response, string>

  /** The network: `server` says how each request settles, and `sent`
      logs every request issued, oldest first. */
  class Transport {
    const server: Request -> Reply
    var sent: seq<Request>

    constructor (server: Request -> Reply)
      ensures this.server == server && sent == []
    {
      this.server := server;
      sent := [];
    }

    /** Issue one request and wait until it settles. */
    method Post(req: Request) returns (reply: Reply)
      modifies this
      ensures sent == old(sent) + [req]
      ensures reply == server(req)
    {
      sent := sent + [req];
      reply := server(req);
    }
  }
}
