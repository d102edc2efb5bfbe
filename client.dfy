/**
 * The agent of src/socket/client.js: the option builders for its backend and
 * uplink requests, the loop that turns the backend's raw header list into the
 * upload's header object, and the switch that dispatches tunnel messages.
 *
 * Configuration values (`backend.host`, `backend.port`,
 * `security.insecure`, `proxy.forwardHeaders`, the TLS files, `frontSide`)
 * are parameters.
 */
module Agent {
  import opened Js
  import opened Dict

  // ---------------------------------------------------------------------------
  // Request options.

  /** A field of an options object: a plain value, or the `headers` object. */
  datatype OptValue = Scalar(v: Value) | Table(headers: Dict<Value>)

  /** The defaults `backendClientOpts` starts from. */
  function BackendDefaults(host: Value, port: Value): Dict<OptValue> {
    Put(Put(Put([], "host", Scalar(host)), "port", Scalar(port)), "timeout", Scalar(Num(1000)))
  }

  /** `backendClientOpts(opts)`: the defaults, overridden field by field by `opts`. */
  function BackendClientOpts(host: Value, port: Value, opts: Dict<OptValue>): Dict<OptValue> {
    Extend(BackendDefaults(host, port), opts)
  }

  /**
   * The defaults `uplinkClientOpts` starts from; a TLS file that was not
   * given is `undefined`, and certificates are checked unless
   * `security.insecure` is truthy.
   */
  function UplinkDefaults(ca: Value, cert: Value, key: Value, insecure: Value): Dict<OptValue> {
    Put(Put(Put(Put(Put([], "ca", Scalar(ca)), "cert", Scalar(cert)), "key", Scalar(key)),
            "rejectUnauthorized", Scalar(Bool(!Truthy(insecure)))), "timeout", Scalar(Num(1000)))
  }

  /** `uplinkClientOpts(opts)`. */
  function UplinkClientOpts(ca: Value, cert: Value, key: Value, insecure: Value, opts: Dict<OptValue>): Dict<OptValue> {
    Extend(UplinkDefaults(ca, cert, key, insecure), opts)
  }

  /** A caller's field always wins; a field the caller leaves out keeps its default. */
  lemma BackendOptsOverride(host: Value, port: Value, opts: Dict<OptValue>, k: string)
    requires Unique(opts)
    ensures Get(BackendClientOpts(host, port, opts), k)
            == if k in Keys(opts) then Get(opts, k) else Get(BackendDefaults(host, port), k)
    ensures k !in Keys(opts) && k == "timeout" ==> Get(BackendClientOpts(host, port, opts), k) == Some(Scalar(Num(1000)))
    ensures k !in Keys(opts) && k == "host" ==> Get(BackendClientOpts(host, port, opts), k) == Some(Scalar(host))
    ensures k !in Keys(opts) && k == "port" ==> Get(BackendClientOpts(host, port, opts), k) == Some(Scalar(port))
  {
    ExtendGet(BackendDefaults(host, port), opts, k);
  }

  /** The same for the uplink: a caller's field wins, otherwise the TLS defaults hold. */
  lemma UplinkOptsOverride(ca: Value, cert: Value, key: Value, insecure: Value, opts: Dict<OptValue>, k: string)
    requires Unique(opts)
    ensures Get(UplinkClientOpts(ca, cert, key, insecure, opts), k)
            == if k in Keys(opts) then Get(opts, k) else Get(UplinkDefaults(ca, cert, key, insecure), k)
    ensures k !in Keys(opts) && k == "rejectUnauthorized" ==>
              Get(UplinkClientOpts(ca, cert, key, insecure, opts), k) == Some(Scalar(Bool(!Truthy(insecure))))
    ensures k !in Keys(opts) && k == "timeout" ==>
              Get(UplinkClientOpts(ca, cert, key, insecure, opts), k) == Some(Scalar(Num(1000)))
  {
    ExtendGet(UplinkDefaults(ca, cert, key, insecure), opts, k);
  }

  /**
   * The backend request's options in `clientPostProxy`: the caller's
   * `clientOptions` (none from `httpGet`), then the requested path.
   */
  function BackendRequestOpts(host: Value, port: Value, clientOptions: Dict<OptValue>, path: Value): Dict<OptValue> {
    BackendClientOpts(host, port, Extend(Extend([], clientOptions), [("path", Scalar(path))]))
  }

  /** The backend is always asked for the requested path, whatever the client options say. */
  lemma BackendRequestPath(host: Value, port: Value, clientOptions: Dict<OptValue>, path: Value)
    requires Unique(clientOptions)
    ensures Get(BackendRequestOpts(host, port, clientOptions, path), "path") == Some(Scalar(path))
    ensures "timeout" !in Keys(clientOptions) ==>
              Get(BackendRequestOpts(host, port, clientOptions, path), "timeout") == Some(Scalar(Num(1000)))
  {
    var own := Extend([], clientOptions);
    var last: Dict<OptValue> := [("path", Scalar(path))];
    var inner := Extend(own, last);
    assert Keys(last) == ["path"];
    ExtendGet(own, last, "path");
    ExtendGet(own, last, "timeout");
    ExtendGet([], clientOptions, "timeout");
    BackendOptsOverride(host, port, inner, "path");
    BackendOptsOverride(host, port, inner, "timeout");
  }

  // ---------------------------------------------------------------------------
  // The upload's headers.

  /** The number of (name, value) pairs the loop visits in `rawHeaders`. */
  function PairCount(raw: seq<string>): nat {
    (|raw| + 1) / 2
  }

  /** The name of pair `j`, lower-cased. */
  function NameAt(raw: seq<string>, j: nat): string
    requires j < PairCount(raw)
  {
    Lower(raw[2 * j])
  }

  /** The value of pair `j`; a name without a value reads `undefined`. */
  function ValueAt(raw: seq<string>, j: nat): Value
    requires j < PairCount(raw)
  {
    if 2 * j + 1 < |raw| then Str(raw[2 * j + 1]) else Undefined
  }

  /** The header object after the loop has visited the first `n` pairs. */
  function Forwarded(raw: seq<string>, forwardable: seq<string>, n: nat): Dict<Value>
    requires n <= PairCount(raw)
  {
    if n == 0 then []
    else
      var rest := Forwarded(raw, forwardable, n - 1);
      if NameAt(raw, n - 1) in forwardable then Put(rest, NameAt(raw, n - 1), ValueAt(raw, n - 1)) else rest
  }

  /** The value of the last of the first `n` pairs named `k`, if any. */
  function Latest(raw: seq<string>, k: string, n: nat): (r: Option<Value>)
    requires n <= PairCount(raw)
    ensures r.None? <==> forall j :: 0 <= j < n ==> NameAt(raw, j) != k
    ensures r.Some? ==> exists j :: 0 <= j < n && NameAt(raw, j) == k && ValueAt(raw, j) == r.value &&
                                    forall j' :: j < j' < n ==> NameAt(raw, j') != k
  {
    if n == 0 then None
    else if NameAt(raw, n - 1) == k then Some(ValueAt(raw, n - 1))
    else Latest(raw, k, n - 1)
  }

  /**
   * The loop keeps exactly the forwardable names (after lower-casing), each
   * with the value of its last occurrence, and no name twice.
   */
  lemma {:induction false} ForwardedLastWins(raw: seq<string>, forwardable: seq<string>, n: nat, k: string)
    requires n <= PairCount(raw)
    ensures Get(Forwarded(raw, forwardable, n), k) == if k in forwardable then Latest(raw, k, n) else None
    ensures Unique(Forwarded(raw, forwardable, n))
  {
    if n > 0 {
      ForwardedLastWins(raw, forwardable, n - 1, k);
    }
  }

  /** One turn of the loop: pair `p` starts at index `2p`, and the pairs end once `2p + 2` is past the end. */
  lemma PairStep(raw: seq<string>, forwardable: seq<string>, p: nat)
    requires 2 * p < |raw|
    ensures p < PairCount(raw)
    ensures 2 * p + 2 >= |raw| ==> p + 1 == PairCount(raw)
    ensures var key, value := Lower(raw[2 * p]), if 2 * p + 1 < |raw| then Str(raw[2 * p + 1]) else Undefined;
            Forwarded(raw, forwardable, p + 1)
            == if key in forwardable then Put(Forwarded(raw, forwardable, p), key, value)
               else Forwarded(raw, forwardable, p)
  {
  }

  /** The header-building loop of the `response` handler. */
  method ForwardHeaders(rawHeaders: seq<string>, forwardable: seq<string>) returns (headers: Dict<Value>)
    ensures headers == Forwarded(rawHeaders, forwardable, PairCount(rawHeaders))
  {
    headers := [];
    var i := 0;
    ghost var pairs := 0;
    while i < |rawHeaders|
      invariant i == 2 * pairs && pairs <= PairCount(rawHeaders)
      invariant headers == Forwarded(rawHeaders, forwardable, pairs)
      invariant i >= |rawHeaders| ==> pairs == PairCount(rawHeaders)
      decreases |rawHeaders| - i
    {
      PairStep(rawHeaders, forwardable, pairs);
      var key := Lower(rawHeaders[i]);
      var value := if i + 1 < |rawHeaders| then Str(rawHeaders[i + 1]) else Undefined;
      if key in forwardable {
        headers := Put(headers, key, value);
      }
      i := i + 2;
      pairs := pairs + 1;
    }
  }

  /** The synthetic headers laid over the forwarded ones. */
  function Synthetic(httpMethod: Value, statusCode: int, statusMessage: Value, requestId: Value, path: Value): Dict<Value> {
    Put(Put(Put(Put(Put([], "x-capnajax-method", httpMethod), "x-capnajax-status", Num(statusCode)),
                    "x-capnajax-status-text", statusMessage), "x-capnajax-request-id", requestId),
        "x-capnajax-path", path)
  }

  /** `_.extend(headers, {...})`. */
  function UploadHeaders(forwarded: Dict<Value>, httpMethod: Value, statusCode: int, statusMessage: Value,
                         requestId: Value, path: Value): Dict<Value> {
    Extend(forwarded, Synthetic(httpMethod, statusCode, statusMessage, requestId, path))
  }

  /** True of the five names the agent always sets. */
  predicate IsSynthetic(k: string) {
    k == "x-capnajax-method" || k == "x-capnajax-status" || k == "x-capnajax-status-text" ||
    k == "x-capnajax-request-id" || k == "x-capnajax-path"
  }

  /**
   * The synthetic headers override any forwarded header of the same name; the
   * request id and path are the ones the agent was asked for; every other
   * forwarded header passes unchanged.
   */
  lemma SyntheticOverride(forwarded: Dict<Value>, httpMethod: Value, statusCode: int, statusMessage: Value,
                          requestId: Value, path: Value, k: string)
    ensures var h := UploadHeaders(forwarded, httpMethod, statusCode, statusMessage, requestId, path);
            Get(h, "x-capnajax-request-id") == Some(requestId) &&
            Get(h, "x-capnajax-path") == Some(path) &&
            Get(h, "x-capnajax-method") == Some(httpMethod) &&
            Get(h, "x-capnajax-status") == Some(Num(statusCode)) &&
            Get(h, "x-capnajax-status-text") == Some(statusMessage) &&
            (!IsSynthetic(k) ==> Get(h, k) == Get(forwarded, k))
  {
    var s := Synthetic(httpMethod, statusCode, statusMessage, requestId, path);
    SyntheticFields(httpMethod, statusCode, statusMessage, requestId, path, k);
    ExtendGet(forwarded, s, "x-capnajax-request-id");
    ExtendGet(forwarded, s, "x-capnajax-path");
    ExtendGet(forwarded, s, "x-capnajax-method");
    ExtendGet(forwarded, s, "x-capnajax-status");
    ExtendGet(forwarded, s, "x-capnajax-status-text");
    ExtendGet(forwarded, s, k);
  }

  /** The synthetic header object holds each of its five names once, and no other name. */
  lemma SyntheticFields(httpMethod: Value, statusCode: int, statusMessage: Value, requestId: Value, path: Value, k: string)
    ensures var s := Synthetic(httpMethod, statusCode, statusMessage, requestId, path);
            Unique(s) &&
            Get(s, "x-capnajax-request-id") == Some(requestId) &&
            Get(s, "x-capnajax-path") == Some(path) &&
            Get(s, "x-capnajax-method") == Some(httpMethod) &&
            Get(s, "x-capnajax-status") == Some(Num(statusCode)) &&
            Get(s, "x-capnajax-status-text") == Some(statusMessage) &&
            (!IsSynthetic(k) ==> k !in Keys(s))
  {
    var s1 := Put([], "x-capnajax-method", httpMethod);
    var s2 := Put(s1, "x-capnajax-status", Num(statusCode));
    var s3 := Put(s2, "x-capnajax-status-text", statusMessage);
    var s4 := Put(s3, "x-capnajax-request-id", requestId);
    assert Get(s4, "x-capnajax-method") == Get(s3, "x-capnajax-method") == Get(s2, "x-capnajax-method") == Some(httpMethod);
    assert Get(s4, "x-capnajax-status") == Get(s3, "x-capnajax-status") == Some(Num(statusCode));
    assert Get(s4, "x-capnajax-status-text") == Some(statusMessage);
    if !IsSynthetic(k) {
      assert Get(s4, k) == Get(s3, k) == Get(s2, k) == Get(s1, k) == None;
    }
  }

  /** The uplink's options: a `PUT` of `/_content` on the front side, with the built headers. */
  function UplinkOpts(ca: Value, cert: Value, key: Value, insecure: Value, frontSide: Value,
                      headers: Dict<Value>): Dict<OptValue> {
    UplinkClientOpts(ca, cert, key, insecure, UplinkRequest(frontSide, headers))
  }

  /** The object `uplinkClientOpts` is given for the upload. */
  function UplinkRequest(frontSide: Value, headers: Dict<Value>): Dict<OptValue> {
    Put(Put(Put(Put([], "method", Scalar(Str("PUT"))), "headers", Table(headers)),
            "hostname", Scalar(frontSide)), "path", Scalar(Str("/_content")))
  }

  /** The upload request's own fields: no field twice, and no TLS or timeout field. */
  lemma UplinkRequestFields(frontSide: Value, headers: Dict<Value>, k: string)
    requires k == "rejectUnauthorized" || k == "timeout"
    ensures Unique(UplinkRequest(frontSide, headers))
    ensures k !in Keys(UplinkRequest(frontSide, headers))
  {
    var d1 := Put([], "method", Scalar(Str("PUT")));
    var d2 := Put(d1, "headers", Table(headers));
    var d3 := Put(d2, "hostname", Scalar(frontSide));
    assert k[0] == 'r' || k[0] == 't';
    assert k != "method" && k != "headers" && k != "hostname" && k != "path" by {
      assert "method"[0] == 'm' && "headers"[0] == 'h' && "hostname"[0] == 'h' && "path"[0] == 'p';
    }
    assert Get(d1, k) == None;
    assert Get(d2, k) == None;
    assert Get(d3, k) == None;
  }

  /** The uplink is a `PUT` to `/_content` carrying exactly the built header object. */
  lemma UplinkIsPutOfContent(ca: Value, cert: Value, key: Value, insecure: Value, frontSide: Value, headers: Dict<Value>)
    ensures var o := UplinkOpts(ca, cert, key, insecure, frontSide, headers);
            Get(o, "method") == Some(Scalar(Str("PUT"))) &&
            Get(o, "path") == Some(Scalar(Str("/_content"))) &&
            Get(o, "headers") == Some(Table(headers)) &&
            Get(o, "hostname") == Some(Scalar(frontSide)) &&
            Get(o, "rejectUnauthorized") == Some(Scalar(Bool(!Truthy(insecure)))) &&
            Get(o, "timeout") == Some(Scalar(Num(1000)))
  {
    UplinkRequestFields(frontSide, headers, "rejectUnauthorized");
    UplinkRequestFields(frontSide, headers, "timeout");
    UplinkKeepsRequest(ca, cert, key, insecure, frontSide, headers);
    UplinkKeepsDefaults(ca, cert, key, insecure, frontSide, headers);
  }

  lemma UplinkKeepsRequest(ca: Value, cert: Value, key: Value, insecure: Value, frontSide: Value, headers: Dict<Value>)
    requires Unique(UplinkRequest(frontSide, headers))
    ensures var o := UplinkOpts(ca, cert, key, insecure, frontSide, headers);
            Get(o, "method") == Some(Scalar(Str("PUT"))) &&
            Get(o, "path") == Some(Scalar(Str("/_content"))) &&
            Get(o, "headers") == Some(Table(headers)) &&
            Get(o, "hostname") == Some(Scalar(frontSide))
  {
    var opts := UplinkRequest(frontSide, headers);
    var defaults := UplinkDefaults(ca, cert, key, insecure);
    assert Get(opts, "method") == Some(Scalar(Str("PUT")));
    assert Get(opts, "headers") == Some(Table(headers));
    assert Get(opts, "hostname") == Some(Scalar(frontSide));
    ExtendGet(defaults, opts, "method");
    ExtendGet(defaults, opts, "path");
    ExtendGet(defaults, opts, "headers");
    ExtendGet(defaults, opts, "hostname");
  }

  lemma UplinkKeepsDefaults(ca: Value, cert: Value, key: Value, insecure: Value, frontSide: Value, headers: Dict<Value>)
    requires "rejectUnauthorized" !in Keys(UplinkRequest(frontSide, headers))
    requires "timeout" !in Keys(UplinkRequest(frontSide, headers))
    ensures var o := UplinkOpts(ca, cert, key, insecure, frontSide, headers);
            Get(o, "rejectUnauthorized") == Some(Scalar(Bool(!Truthy(insecure)))) &&
            Get(o, "timeout") == Some(Scalar(Num(1000)))
  {
    var opts := UplinkRequest(frontSide, headers);
    var defaults := UplinkDefaults(ca, cert, key, insecure);
    ExtendGet(defaults, opts, "rejectUnauthorized");
    ExtendGet(defaults, opts, "timeout");
  }

  /** What the backend's response message offers the handler. */
  datatype BackendMessage = BackendMessage(statusCode: int, statusMessage: Value, rawHeaders: seq<string>)

  /** The agent's fixed configuration. */
  datatype Config = Config(forwardable: seq<string>, ca: Value, cert: Value, key: Value, insecure: Value, frontSide: Value)

  /**
   * The `response` handler of `clientPostProxy(method, path, {requestId})`:
   * the options of the uplink it opens.
   */
  method OnBackendResponse(cfg: Config, httpMethod: Value, path: Value, requestId: Value, message: BackendMessage)
    returns (uplink: Dict<OptValue>)
    ensures uplink == UplinkOpts(cfg.ca, cfg.cert, cfg.key, cfg.insecure, cfg.frontSide,
                                 UploadHeaders(Forwarded(message.rawHeaders, cfg.forwardable, PairCount(message.rawHeaders)),
                                               httpMethod, message.statusCode, message.statusMessage, requestId, path))
  {
    var headers := ForwardHeaders(message.rawHeaders, cfg.forwardable);
    headers := Extend(headers, Synthetic(httpMethod, message.statusCode, message.statusMessage, requestId, path));
    uplink := UplinkOpts(cfg.ca, cfg.cert, cfg.key, cfg.insecure, cfg.frontSide, headers);
  }

  // ---------------------------------------------------------------------------
  // Message dispatch.

  /** A text frame after `JSON.parse`. */
  datatype Parsed =
    | Unparsable                                                     // `JSON.parse` throws
    | ParsedNull                                                     // reading a field of `null` throws
    | ParsedObject(command: Value, httpMethod: Value, path: Value, requestId: Value)

  /** A frame arriving on the agent's socket. */
  datatype AgentInbound = BinaryFrame | TextFrame(parsed: Parsed)

  /** What the `message` handler does. */
  datatype Handling = LoggedBinary | LoggedInvalid | FetchGet(path: Value, requestId: Value) | NoAction

  /** The handler: the `switch` on `command || method`, inside a `try` that logs what throws. */
  function Handle(msg: AgentInbound): Handling {
    match msg
    case BinaryFrame => LoggedBinary
    case TextFrame(Unparsable) => LoggedInvalid
    case TextFrame(ParsedNull) => LoggedInvalid
    case TextFrame(ParsedObject(command, httpMethod, path, requestId)) =>
      if Or(command, httpMethod) == Str("get") then FetchGet(path, requestId) else NoAction
  }

  /**
   * Only `get` fetches: a text message reaches `httpGet` exactly when its
   * `command`, or its `method` when `command` is falsy, is the string `get`;
   * binary and malformed messages are logged and nothing is thrown.
   */
  lemma HandleOnlyGet(msg: AgentInbound)
    ensures Handle(msg).FetchGet? <==>
              msg.TextFrame? && msg.parsed.ParsedObject? &&
              (if Truthy(msg.parsed.command) then msg.parsed.command else msg.parsed.httpMethod) == Str("get")
    ensures Handle(msg).FetchGet? ==>
              Handle(msg) == FetchGet(msg.parsed.path, msg.parsed.requestId)
    ensures msg.BinaryFrame? <==> Handle(msg) == LoggedBinary
    ensures msg.TextFrame? && !msg.parsed.ParsedObject? <==> Handle(msg) == LoggedInvalid
  {
  }

  /** `command` takes precedence: a truthy `command` other than `get` is ignored even when `method` is `get`. */
  lemma CommandShadowsMethod(command: Value, path: Value, requestId: Value)
    requires Truthy(command) && command != Str("get")
    ensures Handle(TextFrame(ParsedObject(command, Str("get"), path, requestId))) == NoAction
  {
  }

  /** The switch is case-sensitive: `GET` is not `get`. */
  lemma UpperCaseMethodIgnored(path: Value, requestId: Value)
    ensures Handle(TextFrame(ParsedObject(Undefined, Str("GET"), path, requestId))) == NoAction
  {
  }
}
