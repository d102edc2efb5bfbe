/**
 * The tunnel's control messages between src/socket/server.js and
 * src/socket/client.js: what the agent makes of the dispatch message the
 * server sends, and how the request id travels back in the upload.
 */
module Protocol {
  import opened Js
  import opened Dict
  import opened TunnelServer
  import opened Agent

  /**
   * The agent's view of a dispatch message after `JSON.stringify` on the
   * server and `JSON.parse` on the agent: an `undefined` field is not sent,
   * so it reads back `undefined`; the message never carries `method`.
   */
  function Received(m: DispatchMessage): Parsed {
    ParsedObject(m.command, Value.Undefined, Str(m.path), Str(m.requestId))
  }

  /**
   * The message as written has neither `command` nor `method`, so the agent's
   * switch matches nothing and no request is ever served through the tunnel.
   */
  lemma AsWrittenDispatchIgnored(path: string, requestId: RequestId)
    ensures Handle(TextFrame(Received(DispatchAsWritten(path, requestId)))) == NoAction
  {
  }

  /** With `command: "get"`, the agent fetches the requested path for the requested id. */
  lemma IntendedDispatchFetches(path: string, requestId: RequestId)
    ensures Handle(TextFrame(Received(DispatchIntended(path, requestId)))) == FetchGet(Str(path), Str(requestId))
  {
  }

  /** `httpGet`: `clientPostProxy('GET', path, {requestId})`, up to the uplink's options. */
  function HttpGetUplink(cfg: Config, path: Value, requestId: Value, message: BackendMessage): Dict<OptValue> {
    UplinkOpts(cfg.ca, cfg.cert, cfg.key, cfg.insecure, cfg.frontSide,
               UploadHeaders(Forwarded(message.rawHeaders, cfg.forwardable, PairCount(message.rawHeaders)),
                             Str("GET"), message.statusCode, message.statusMessage, requestId, path))
  }

  /**
   * The round trip of a request id: the upload the agent sends for a fetched
   * request carries, as `x-capnajax-request-id`, the id the server registered
   * and, as `x-capnajax-path`, the path it asked for.
   */
  lemma RequestIdRoundTrip(cfg: Config, path: string, requestId: RequestId, message: BackendMessage)
    ensures var h := UploadHeaders(Forwarded(message.rawHeaders, cfg.forwardable, PairCount(message.rawHeaders)),
                                   Str("GET"), message.statusCode, message.statusMessage, Str(requestId), Str(path));
            var o := HttpGetUplink(cfg, Str(path), Str(requestId), message);
            Get(o, "headers") == Some(Table(h)) &&
            Get(h, "x-capnajax-request-id") == Some(Str(requestId)) &&
            Get(h, "x-capnajax-path") == Some(Str(path))
  {
    var forwarded := Forwarded(message.rawHeaders, cfg.forwardable, PairCount(message.rawHeaders));
    var h := UploadHeaders(forwarded, Str("GET"), message.statusCode, message.statusMessage, Str(requestId), Str(path));
    SyntheticOverride(forwarded, Str("GET"), message.statusCode, message.statusMessage, Str(requestId), Str(path), "");
    UplinkIsPutOfContent(cfg.ca, cfg.cert, cfg.key, cfg.insecure, cfg.frontSide, h);
  }
}
