/**
 * The tunnel server of src/socket/server.js: the registry that decides which
 * agent connection is active ("newest wins, losers barred forever"), the
 * ping/pong liveness sweep over open connections, and the table that
 * correlates a dispatched request with the upload that answers it.
 *
 * Sockets, timers and random ids are events and parameters here: a
 * connection is a handle, a timer firing is `Timeout`, an upload arriving is
 * `Deliver`, and the fresh request id is passed in.
 */
module TunnelServer {
  import opened Js
  import opened Dict
  import opened Documents

  /** An agent connection, by handle. */
  type ConnId = nat

  type RequestId = string

  /** The JavaScript value of a `clientId`: absent, `null`, or a string. */
  datatype IdValue = Undefined | Null | Id(s: string)

  /** A message arriving on an agent connection, as the handler sees it. */
  datatype Inbound =
    | Binary
    | NotJson                                  // text that `JSON.parse` rejects
    | JsonNull                                 // the text `null`
    | JsonValue(typ: Value, clientId: IdValue) // any other JSON: its `type` and `clientId` fields

  /**
   * The dispatch message sent to the agent. As written the server sends only
   * `{path, requestId}`; `command` is `Undefined` then (see Protocol).
   */
  datatype DispatchMessage = DispatchMessage(command: Value, path: string, requestId: RequestId)

  /** A frame the server sends on a connection. */
  datatype Frame = Ping | Dispatch(message: DispatchMessage) | Close(code: int, reason: string)

  /**
   * The server's view of one connection: its `isAlive` flag, the frames sent
   * on it, and whether it is `CLOSING` (a close was started on it).
   */
  datatype Conn = Conn(isAlive: bool, sent: seq<Frame>, closing: bool)

  /**
   * The close codes the `ws` library accepts in `close(code, reason)`: the
   * defined codes of section 7.4.1 of RFC 6455 that may appear on the wire,
   * and the registered and private ranges 3000-4999.
   */
  predicate ValidCloseCode(code: int) {
    (1000 <= code <= 1014 && code != 1004 && code != 1005 && code != 1006) || (3000 <= code <= 4999)
  }

  /**
   * `ws.close(code, reason)`: on a connection already closing it does nothing;
   * otherwise the connection becomes `CLOSING` first, and then either the
   * close frame is sent or, for a code `ws` rejects, a TypeError is thrown
   * with no frame sent.
   */
  function Closed(c: Conn, code: int, reason: string): (Conn, Completion<()>) {
    if c.closing then (c, Normal(()))
    else if ValidCloseCode(code) then (c.(closing := true, sent := c.sent + [Close(code, reason)]), Normal(()))
    else (c.(closing := true), Throw(TypeError))
  }

  // ---------------------------------------------------------------------------
  // The agent registry.

  /** `activeClient`, `activeClientId` and `deadClientIds`. */
  datatype Registry = Registry(activeClient: Option<ConnId>, activeClientId: IdValue, deadClientIds: set<IdValue>)

  /** The registry at start-up: no active agent, the id `null`, nobody barred. */
  const Initial := Registry(None, IdValue.Null, {})

  /** How the message handler ends. */
  datatype Reaction = Ignored | Threw(error: ErrorKind) | Refused | Accepted

  /** What the `message` handler does with `msg`. */
  function React(r: Registry, msg: Inbound): Reaction {
    match msg
    case Binary => Ignored
    case NotJson => Threw(SyntaxError)
    case JsonNull => Threw(TypeError)
    case JsonValue(typ, cid) =>
      if typ != Str("clientId") then Ignored
      else if cid in r.deadClientIds then Refused
      else Accepted
  }

  /** The registry after the handler has dealt with `msg` from `conn`. */
  function Identified(r: Registry, conn: ConnId, msg: Inbound): Registry {
    if React(r, msg) == Accepted then
      if r.activeClientId != msg.clientId then
        Registry(Some(conn), msg.clientId, r.deadClientIds + {r.activeClientId})
      else
        r.(activeClient := Some(conn))
    else r
  }

  /** The registry's invariant: the active id is never a barred one. */
  predicate ActiveNotDead(r: Registry) {
    r.activeClientId !in r.deadClientIds
  }

  /** A barred id is refused and leaves the registry as it was. */
  lemma DeadIdRefused(r: Registry, conn: ConnId, typ: Value, cid: IdValue)
    requires typ == Str("clientId") && cid in r.deadClientIds
    ensures React(r, JsonValue(typ, cid)) == Refused
    ensures Identified(r, conn, JsonValue(typ, cid)) == r
  {
  }

  /** A new live id bars the previous one and becomes active on this connection. */
  lemma NewIdSupersedes(r: Registry, conn: ConnId, cid: IdValue)
    requires cid !in r.deadClientIds && cid != r.activeClientId
    ensures Identified(r, conn, JsonValue(Str("clientId"), cid))
            == Registry(Some(conn), cid, r.deadClientIds + {r.activeClientId})
  {
  }

  /** Re-identifying with the active id rebinds the connection and bars nobody. */
  lemma SameIdRebinds(r: Registry, conn: ConnId)
    requires r.activeClientId !in r.deadClientIds
    ensures Identified(r, conn, JsonValue(Str("clientId"), r.activeClientId))
            == r.(activeClient := Some(conn))
  {
  }

  /** Binary frames, other message types and messages that throw leave the registry alone. */
  lemma OtherMessagesIgnored(r: Registry, conn: ConnId, msg: Inbound)
    requires !(msg.JsonValue? && msg.typ == Str("clientId"))
    ensures React(r, msg) != Accepted && React(r, msg) != Refused
    ensures Identified(r, conn, msg) == r
  {
  }

  /**
   * One step keeps the invariant, never shrinks the barred set, and after an
   * accepted identification the new active id is not barred.
   */
  lemma IdentifiedKeepsInvariant(r: Registry, conn: ConnId, msg: Inbound)
    ensures r.deadClientIds <= Identified(r, conn, msg).deadClientIds
    ensures React(r, msg) == Accepted ==> ActiveNotDead(Identified(r, conn, msg))
    ensures ActiveNotDead(r) ==> ActiveNotDead(Identified(r, conn, msg))
  {
  }

  /** The first identification ever bars `null`, the id the server starts with. */
  lemma FirstIdentificationBarsNull(conn: ConnId, s: string)
    ensures Identified(Initial, conn, JsonValue(Str("clientId"), Id(s))).deadClientIds == {IdValue.Null}
  {
  }

  /** The registry after handling a sequence of (connection, message) events. */
  function Replay(r: Registry, events: seq<(ConnId, Inbound)>): Registry
    decreases |events|
  {
    if events == [] then r
    else Replay(Identified(r, events[0].0, events[0].1), events[1..])
  }

  lemma {:induction false} ReplayAppend(r: Registry, a: seq<(ConnId, Inbound)>, b: seq<(ConnId, Inbound)>)
    ensures Replay(r, a + b) == Replay(Replay(r, a), b)
    decreases |a|
  {
    if a == [] {
      assert a + b == b;
    } else {
      assert (a + b)[0] == a[0];
      assert (a + b)[1..] == a[1..] + b;
      ReplayAppend(Identified(r, a[0].0, a[0].1), a[1..], b);
    }
  }

  /** Over any run the barred set only grows and the invariant holds throughout. */
  lemma {:induction false} ReplayGrowsDead(r: Registry, events: seq<(ConnId, Inbound)>)
    ensures r.deadClientIds <= Replay(r, events).deadClientIds
    ensures ActiveNotDead(r) ==> ActiveNotDead(Replay(r, events))
    decreases |events|
  {
    if events != [] {
      IdentifiedKeepsInvariant(r, events[0].0, events[0].1);
      ReplayGrowsDead(Identified(r, events[0].0, events[0].1), events[1..]);
    }
  }

  /** Losers are barred forever: an id barred at some point is never active again. */
  lemma SupersededNeverReturns(events: seq<(ConnId, Inbound)>, later: seq<(ConnId, Inbound)>, id: IdValue)
    requires id in Replay(Initial, events).deadClientIds
    ensures Replay(Initial, events + later).activeClientId != id
    ensures id in Replay(Initial, events + later).deadClientIds
  {
    ReplayAppend(Initial, events, later);
    ReplayGrowsDead(Initial, events);
    ReplayGrowsDead(Replay(Initial, events), later);
  }

  /** The hand-over: "A" then "B" on two connections makes "B" active, and "A" is refused afterwards. */
  lemma HandOver(a: string, b: string, c1: ConnId, c2: ConnId, c3: ConnId)
    requires a != b
    ensures var r := Replay(Initial, [(c1, JsonValue(Str("clientId"), Id(a))), (c2, JsonValue(Str("clientId"), Id(b)))]);
            r.activeClientId == Id(b) && r.activeClient == Some(c2) && Id(a) in r.deadClientIds &&
            React(r, JsonValue(Str("clientId"), Id(a))) == Refused &&
            Identified(r, c3, JsonValue(Str("clientId"), Id(a))) == r
  {
    var e1 := (c1, JsonValue(Str("clientId"), Id(a)));
    var e2 := (c2, JsonValue(Str("clientId"), Id(b)));
    var es: seq<(ConnId, Inbound)> := [e1, e2];
    var r1 := Identified(Initial, c1, e1.1);
    var r2 := Identified(r1, c2, e2.1);
    assert es[1..] == [e2];
    assert es[1..][1..] == [];
    assert Replay(Initial, es) == Replay(r1, [e2]) == Replay(r2, []) == r2;
  }

  // ---------------------------------------------------------------------------
  // Liveness.

  /**
   * A connection kept by the sweep: flagged as not alive and pinged. `ws`
   * drops a ping on a connection that is closing.
   */
  function Pinged(c: Conn): Conn {
    c.(isAlive := false, sent := if c.closing then c.sent else c.sent + [Ping])
  }

  /** The sweep: connections not alive are terminated, every other one is flagged and pinged. */
  function Swept(conns: map<ConnId, Conn>): map<ConnId, Conn> {
    map id | id in conns && conns[id].isAlive :: Pinged(conns[id])
  }

  /** `heartbeat`: a pong marks its connection alive. */
  function Ponged(conns: map<ConnId, Conn>, id: ConnId): map<ConnId, Conn> {
    if id in conns then conns[id := conns[id].(isAlive := true)] else conns
  }

  /** The connections after a sequence of pongs. */
  function AfterPongs(conns: map<ConnId, Conn>, pongs: seq<ConnId>): map<ConnId, Conn>
    decreases |pongs|
  {
    if pongs == [] then conns else AfterPongs(Ponged(conns, pongs[0]), pongs[1..])
  }

  /** Pongs change only the flag, and set it exactly for the connections that ponged. */
  lemma {:induction false} AfterPongsFlags(conns: map<ConnId, Conn>, pongs: seq<ConnId>)
    ensures AfterPongs(conns, pongs).Keys == conns.Keys
    ensures forall id :: id in conns ==>
              AfterPongs(conns, pongs)[id] == conns[id].(isAlive := conns[id].isAlive || id in pongs)
    decreases |pongs|
  {
    if pongs != [] {
      AfterPongsFlags(Ponged(conns, pongs[0]), pongs[1..]);
    }
  }

  /**
   * A connection survives two consecutive sweeps exactly when it survived the
   * first and ponged between them.
   */
  lemma SurvivesTwoSweepsIffPonged(conns: map<ConnId, Conn>, pongs: seq<ConnId>, id: ConnId)
    ensures id in Swept(AfterPongs(Swept(conns), pongs)) <==> id in Swept(conns) && id in pongs
  {
    AfterPongsFlags(Swept(conns), pongs);
  }

  /** Without a pong, two sweeps terminate every connection. */
  lemma TwoSweepsWithoutPong(conns: map<ConnId, Conn>)
    ensures Swept(Swept(conns)) == map[]
  {
    assert forall id :: id in Swept(conns) ==> !Swept(conns)[id].isAlive;
  }

  /**
   * A closing connection is sent nothing more: `send` drops the frame, and
   * the sweep flags it without a ping. An open connection kept by the sweep
   * gets exactly one ping.
   */
  lemma ClosingGetsNoFrames(conns: map<ConnId, Conn>, id: ConnId, f: Frame)
    requires id in conns
    ensures conns[id].closing ==> SentTo(conns, id, f) == conns
    ensures id in Swept(conns) ==> Swept(conns)[id].closing == conns[id].closing &&
                                   (Swept(conns)[id].sent == conns[id].sent + [Ping] <==> !conns[id].closing) &&
                                   (Swept(conns)[id].sent == conns[id].sent <==> conns[id].closing)
  {
  }

  // ---------------------------------------------------------------------------
  // Refusing a barred id.

  /** The close code the handler passes for a barred id, as written. */
  const DeadClientCode := 409

  /** The close code evidently intended: one of the private range 4000-4999. */
  const IntendedDeadClientCode := 4409

  /**
   * What the `message` handler does to its own connection, and how it ends,
   * when it closes a refused connection with `code`: a message that throws
   * leaves the connection alone; a barred id closes it; anything else ends
   * normally.
   */
  function Handled(r: Registry, c: Conn, msg: Inbound, code: int): (Conn, Completion<()>) {
    match React(r, msg)
    case Threw(e) => (c, Throw(e))
    case Refused => Closed(c, code, "Dead ClientId")
    case _ => (c, Normal(()))
  }

  /**
   * As written, refusing a barred id on an open connection leaves it closing
   * with no close frame sent, and the handler throws: `ws` rejects 409.
   */
  lemma AsWrittenRefusalThrows(r: Registry, c: Conn, cid: IdValue)
    requires cid in r.deadClientIds && !c.closing
    ensures !ValidCloseCode(DeadClientCode)
    ensures Handled(r, c, JsonValue(Str("clientId"), cid), DeadClientCode) == (c.(closing := true), Throw(TypeError))
  {
  }

  /** With an application close code the refusal sends its close frame and the handler returns. */
  lemma IntendedRefusalCloses(r: Registry, c: Conn, cid: IdValue)
    requires cid in r.deadClientIds && !c.closing
    ensures ValidCloseCode(IntendedDeadClientCode)
    ensures Handled(r, c, JsonValue(Str("clientId"), cid), IntendedDeadClientCode)
            == (c.(closing := true, sent := c.sent + [Close(IntendedDeadClientCode, "Dead ClientId")]), Normal(()))
  {
  }

  /** Whatever the close code, only a refusal touches the connection. */
  lemma OnlyRefusalTouchesConnection(r: Registry, c: Conn, msg: Inbound, code: int)
    requires React(r, msg) != Refused
    ensures Handled(r, c, msg, code).0 == c
    ensures Handled(r, c, msg, code).1.Throw? <==> React(r, msg).Threw?
  {
  }

  // ---------------------------------------------------------------------------
  // Outstanding requests.

  /** The state of a request's promise. */
  datatype Settlement = Pending | Resolved(headers: Dict<string>, body: Body) | Rejected(reason: string)

  /**
   * What a request's closures share: the `rejected` flag, whether its timeout
   * is still armed, and its promise.
   */
  datatype Outstanding = Outstanding(rejected: bool, timerArmed: bool, settlement: Settlement)

  /** A request just dispatched. */
  const Registered := Outstanding(false, true, Pending)

  /** The timeout firing: `rejected = true; reject('timeout')` (a no-op once disarmed). */
  function TimedOut(o: Outstanding): Outstanding {
    if !o.timerArmed then o
    else Outstanding(true, false, if o.settlement.Pending? then Rejected("timeout") else o.settlement)
  }

  /**
   * The resolver registered in `requestsOutstanding`, with the timer cancelled
   * as intended (`clearTimeout`): nothing once `rejected` is set; otherwise
   * disarm the timer and resolve (resolving twice changes nothing).
   */
  function Delivered(o: Outstanding, headers: Dict<string>, body: Body): Outstanding {
    if o.rejected then o
    else Outstanding(false, false, if o.settlement.Pending? then Resolved(headers, body) else o.settlement)
  }

  /**
   * The resolver as written: it calls `cancelTimout`, which is defined
   * nowhere, so unless `rejected` is set the call throws a ReferenceError
   * before `resolve` runs, and nothing changes.
   */
  function DeliveredAsWritten(o: Outstanding): (Outstanding, Completion<()>) {
    if o.rejected then (o, Normal(())) else (o, Throw(ReferenceError))
  }

  /** The events that reach one request: its timer firing, or an upload for its id. */
  datatype RequestEvent = Fire | Upload(headers: Dict<string>, body: Body)

  function Step(o: Outstanding, e: RequestEvent): Outstanding {
    match e
    case Fire => TimedOut(o)
    case Upload(h, b) => Delivered(o, h, b)
  }

  function Run(o: Outstanding, events: seq<RequestEvent>): Outstanding
    decreases |events|
  {
    if events == [] then o else Run(Step(o, events[0]), events[1..])
  }

  function RunAsWritten(o: Outstanding, events: seq<RequestEvent>): Outstanding
    decreases |events|
  {
    if events == [] then o
    else
      var next := match events[0] case Fire => TimedOut(o) case Upload(_, _) => DeliveredAsWritten(o).0;
      RunAsWritten(next, events[1..])
  }

  /** Once settled, a request stays settled the same way, whatever arrives later. */
  lemma {:induction false} SettledStaysSettled(o: Outstanding, events: seq<RequestEvent>)
    requires !o.settlement.Pending?
    ensures Run(o, events).settlement == o.settlement
    decreases |events|
  {
    if events != [] {
      SettledStaysSettled(Step(o, events[0]), events[1..]);
    }
  }

  /**
   * Exactly-once settlement: the first event decides a request's outcome (a
   * timeout rejects, an upload resolves) and nothing after it changes that.
   */
  lemma FirstEventDecides(e: RequestEvent, later: seq<RequestEvent>)
    ensures Run(Registered, [e] + later).settlement
            == match e case Fire => Rejected("timeout") case Upload(h, b) => Resolved(h, b)
  {
    assert ([e] + later)[0] == e && ([e] + later)[1..] == later;
    SettledStaysSettled(Step(Registered, e), later);
  }

  /** A delivery after the timeout does nothing at all. */
  lemma LateDeliveryIsNoOp(headers: Dict<string>, body: Body)
    ensures Delivered(TimedOut(Registered), headers, body) == TimedOut(Registered)
  {
  }

  /** As written, no request is ever resolved: a delivery throws until the timeout rejects it. */
  lemma {:induction false} AsWrittenNeverResolves(o: Outstanding, events: seq<RequestEvent>)
    requires o.settlement.Pending? || o.settlement == Rejected("timeout")
    ensures RunAsWritten(o, events).settlement.Pending? || RunAsWritten(o, events).settlement == Rejected("timeout")
    decreases |events|
  {
    if events != [] {
      var next := match events[0] case Fire => TimedOut(o) case Upload(_, _) => DeliveredAsWritten(o).0;
      AsWrittenNeverResolves(next, events[1..]);
    }
  }

  /** The counterexample: an upload before the timeout resolves the intended resolver, not the written one. */
  lemma AsWrittenLosesUpload(headers: Dict<string>, body: Body)
    ensures DeliveredAsWritten(Registered) == (Registered, Throw(ReferenceError))
    ensures Run(Registered, [Upload(headers, body), Fire]).settlement == Resolved(headers, body)
    ensures RunAsWritten(Registered, [Upload(headers, body), Fire]).settlement == Rejected("timeout")
  {
    var es: seq<RequestEvent> := [Upload(headers, body), Fire];
    assert es[1..] == [Fire];
    assert es[1..][1..] == [];
    var o := Delivered(Registered, headers, body);
    assert Run(Registered, es) == Run(o, [Fire]) == Run(TimedOut(o), []);
    assert RunAsWritten(Registered, es) == RunAsWritten(Registered, [Fire]) == RunAsWritten(TimedOut(Registered), []);
  }

  // ---------------------------------------------------------------------------
  // Starting a request.

  /** How `requestDocument` starts. */
  datatype Start = NoClient | StartThrew(error: ErrorKind) | Dispatched(requestId: RequestId)

  /**
   * `requestDocument` as written: it calls `activeClient.message(...)`, but a
   * WebSocket has `send`, not `message`; the TypeError thrown inside the
   * promise executor rejects the promise before any timer or resolver exists.
   */
  function StartAsWritten(r: Registry): Start {
    if r.activeClient.None? then NoClient else StartThrew(TypeError)
  }

  /** `requestDocument` as intended: reject with `no_client`, or send and register. */
  function StartIntended(r: Registry, requestId: RequestId): Start {
    if r.activeClient.None? then NoClient else Dispatched(requestId)
  }

  /** With an active agent the written call never dispatches; the intended one always does. */
  lemma AsWrittenNeverDispatches(r: Registry, requestId: RequestId)
    requires r.activeClient.Some?
    ensures StartAsWritten(r) == StartThrew(TypeError)
    ensures StartIntended(r, requestId) == Dispatched(requestId)
  {
  }

  /** The message sent to the agent, as written: only `path` and `requestId`. */
  function DispatchAsWritten(path: string, requestId: RequestId): DispatchMessage {
    DispatchMessage(Value.Undefined, path, requestId)
  }

  /** The message sent to the agent with the `command` its dispatcher switches on. */
  function DispatchIntended(path: string, requestId: RequestId): DispatchMessage {
    DispatchMessage(Str("get"), path, requestId)
  }

  /**
   * `send` on a connection: the frame is queued if the connection is open and
   * not closing; otherwise it is dropped.
   */
  function SentTo(conns: map<ConnId, Conn>, id: ConnId, f: Frame): map<ConnId, Conn> {
    if id in conns && !conns[id].closing then conns[id := conns[id].(sent := conns[id].sent + [f])]
    else conns
  }

  class Server {
    /** `wss.clients` with each connection's state. */
    var conns: map<ConnId, Conn>
    var activeClient: Option<ConnId>
    var activeClientId: IdValue
    /** Only ever grows. */
    var deadClientIds: set<IdValue>
    /** Never shrinks either: entries are not removed once settled. */
    var requestsOutstanding: map<RequestId, Outstanding>

    function Reg(): Registry
      reads this
    {
      Registry(activeClient, activeClientId, deadClientIds)
    }

    ghost predicate Valid()
      reads this
    {
      ActiveNotDead(Reg())
    }

    constructor ()
      ensures Valid()
      ensures conns == map[] && Reg() == Initial && requestsOutstanding == map[]
    {
      conns := map[];
      activeClient := None;
      activeClientId := IdValue.Null;
      deadClientIds := {};
      requestsOutstanding := map[];
    }

    /** `connection`: a new socket starts alive. */
    method Connect(id: ConnId)
      requires id !in conns
      modifies this
      ensures conns == old(conns)[id := Conn(true, [], false)]
      ensures Reg() == old(Reg()) && requestsOutstanding == old(requestsOutstanding)
    {
      conns := conns[id := Conn(true, [], false)];
    }

    /**
     * The `message` handler of connection `conn`, as written: a barred id is
     * refused with close code 409, which throws (see `AsWrittenRefusalThrows`).
     */
    method OnMessage(conn: ConnId, msg: Inbound) returns (reaction: Reaction, outcome: Completion<()>)
      requires Valid()
      requires conn in conns
      modifies this
      ensures Valid()
      ensures reaction == React(old(Reg()), msg)
      ensures Reg() == Identified(old(Reg()), conn, msg)
      ensures old(deadClientIds) <= deadClientIds
      ensures conn in conns && conns == old(conns)[conn := conns[conn]]
      ensures (conns[conn], outcome) == Handled(old(Reg()), old(conns)[conn], msg, DeadClientCode)
      ensures requestsOutstanding == old(requestsOutstanding)
    {
      IdentifiedKeepsInvariant(Reg(), conn, msg);
      outcome := Normal(());
      match msg
      case Binary =>
        reaction := Ignored;
      case NotJson =>
        reaction := Threw(SyntaxError);
        outcome := Throw(SyntaxError);
      case JsonNull =>
        reaction := Threw(TypeError);
        outcome := Throw(TypeError);
      case JsonValue(typ, cid) =>
        if typ != Str("clientId") {
          reaction := Ignored;
        } else if cid in deadClientIds {
          var closed := Closed(conns[conn], DeadClientCode, "Dead ClientId");
          conns := conns[conn := closed.0];
          outcome := closed.1;
          reaction := Refused;
        } else {
          if activeClientId != cid {
            deadClientIds := deadClientIds + {activeClientId};
            activeClientId := cid;
          }
          activeClient := Some(conn);
          reaction := Accepted;
        }
    }

    /** `heartbeat` on a pong. */
    method OnPong(conn: ConnId)
      modifies this
      ensures conns == Ponged(old(conns), conn)
      ensures Reg() == old(Reg()) && requestsOutstanding == old(requestsOutstanding)
    {
      if conn in conns {
        conns := conns[conn := conns[conn].(isAlive := true)];
      }
    }

    /**
     * The interval's `ping` sweep over `wss.clients`. A terminated socket
     * leaves the set; the active connection is not cleared even then.
     */
    method Sweep()
      modifies this
      ensures conns == Swept(old(conns))
      ensures Reg() == old(Reg()) && requestsOutstanding == old(requestsOutstanding)
    {
      ghost var start := conns;
      var todo := conns.Keys;
      while todo != {}
        invariant todo <= start.Keys
        invariant conns.Keys == (set id | id in start && (id in todo || start[id].isAlive))
        invariant forall id :: id in conns ==> conns[id] == if id in todo then start[id] else Pinged(start[id])
        invariant Reg() == old(Reg()) && requestsOutstanding == old(requestsOutstanding)
        decreases todo
      {
        var id :| id in todo;
        if !conns[id].isAlive {
          conns := conns - {id};
        } else {
          conns := conns[id := Pinged(conns[id])];
        }
        todo := todo - {id};
      }
      assert conns.Keys == Swept(start).Keys;
    }

    /**
     * `requestDocument(path)` with the fresh random id `requestId`, as intended
     * (the dispatch is sent with `send` and carries the `get` command).
     */
    method RequestDocument(path: string, requestId: RequestId) returns (start: Start)
      requires requestId !in requestsOutstanding
      modifies this
      ensures start == StartIntended(old(Reg()), requestId)
      ensures Reg() == old(Reg())
      ensures activeClient.None? ==> conns == old(conns) && requestsOutstanding == old(requestsOutstanding)
      ensures activeClient.Some? ==>
                conns == SentTo(old(conns), activeClient.value, Dispatch(DispatchIntended(path, requestId))) &&
                requestsOutstanding == old(requestsOutstanding)[requestId := Registered]
    {
      match activeClient
      case None =>
        start := NoClient;
      case Some(c) =>
        conns := SentTo(conns, c, Dispatch(DispatchIntended(path, requestId)));
        requestsOutstanding := requestsOutstanding[requestId := Registered];
        start := Dispatched(requestId);
    }

    /** The timer of request `requestId` fires. */
    method Timeout(requestId: RequestId)
      modifies this
      ensures requestsOutstanding == if requestId in old(requestsOutstanding)
                                     then old(requestsOutstanding)[requestId := TimedOut(old(requestsOutstanding)[requestId])]
                                     else old(requestsOutstanding)
      ensures conns == old(conns) && Reg() == old(Reg())
    {
      if requestId in requestsOutstanding {
        requestsOutstanding := requestsOutstanding[requestId := TimedOut(requestsOutstanding[requestId])];
      }
    }

    /**
     * An upload for `requestId` reaches the receiver, which calls the
     * registered resolver if there is one and drops the upload otherwise. The
     * resolver is the corrected one, `Delivered`, which cancels the timer with
     * `clearTimeout`; the one written throws (see `DeliveredAsWritten`).
     */
    method Deliver(requestId: RequestId, headers: Dict<string>, body: Body)
      modifies this
      ensures requestsOutstanding == if requestId in old(requestsOutstanding)
                                     then old(requestsOutstanding)[requestId := Delivered(old(requestsOutstanding)[requestId], headers, body)]
                                     else old(requestsOutstanding)
      ensures conns == old(conns) && Reg() == old(Reg())
    {
      if requestId in requestsOutstanding {
        requestsOutstanding := requestsOutstanding[requestId := Delivered(requestsOutstanding[requestId], headers, body)];
      }
    }
  }
}
