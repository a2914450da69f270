/** The unixctl client, one call at a time: a connection that is dialled when it is needed and
    dropped on any transport failure. What the socket does is a parameter of each call. */
module Unixctl {
  import opened Wrappers
  import opened Clock

  /** Successful dials are numbered from zero, so every connection is a new one. */
  type Conn = nat

  const DEFAULT_DIAL_TIMEOUT: Time := 2 * SECOND
  const DEFAULT_CALL_TIMEOUT: Time := 5 * SECOND

  datatype Config = Config(
    socketPath: string, runDir: string, daemon: string, hasLogger: bool, dialTimeout: Time, callTimeout: Time)

  /** The configuration that a new client works with; None is an error. */
  function New(cfg: Config): (r: Option<Config>)
    ensures r == None <==> !cfg.hasLogger || (cfg.socketPath == "" && (cfg.runDir == "" || cfg.daemon == ""))
    ensures r.Some? ==> r.value.dialTimeout != 0 && r.value.callTimeout != 0
    ensures r.Some? ==> r.value.dialTimeout == if cfg.dialTimeout == 0 then 2 * SECOND else cfg.dialTimeout
    ensures r.Some? ==> r.value.callTimeout == if cfg.callTimeout == 0 then 5 * SECOND else cfg.callTimeout
    ensures r.Some? ==> r.value.(dialTimeout := cfg.dialTimeout, callTimeout := cfg.callTimeout) == cfg
  {
    if cfg.socketPath == "" && (cfg.runDir == "" || cfg.daemon == "") then None
    else if !cfg.hasLogger then None
    else
      Some(cfg.(dialTimeout := if cfg.dialTimeout == 0 then DEFAULT_DIAL_TIMEOUT else cfg.dialTimeout,
                callTimeout := if cfg.callTimeout == 0 then DEFAULT_CALL_TIMEOUT else cfg.callTimeout))
  }

  // ------------------------------------------------------------------ messages

  /** A raw JSON value: absent, null, a string with its text, or any other value. */
  datatype Raw = Missing | Null | Text(text: string) | Other(json: string)

  /** Unmarshalling into a string variable: null leaves the variable empty. */
  function UnmarshalText(raw: Raw): Option<string> {
    match raw
    case Text(text) => Some(text)
    case Null => Some("")
    case _ => None
  }

  datatype Request = Request(id: int, name: string, params: seq<string>)
  datatype Response = Response(result: Raw, error: Raw, id: int)

  datatype Stage = Discover | Dial | SetDeadline | Encode | Decode

  datatype CallResult =
    | Result(raw: Raw)
    | CallError(name: string, cause: Raw)
    | Failed(stage: Stage)

  function NewRequest(id: int, name: string, params: Option<seq<string>>): Request {
    Request(id, name, if params.Some? then params.value else [])
  }

  /** The response id takes no part in this. */
  function Conclude(name: string, resp: Response): CallResult {
    if resp.error != Missing && resp.error != Null then CallError(name, resp.error) else Result(resp.result)
  }

  // ------------------------------------------------------------------ the session

  /** The fields of a client: the socket and the connections that the decoder and the encoder were
      made for. */
  datatype Session = Session(conn: Option<Conn>, dec: Option<Conn>, enc: Option<Conn>, nextID: int) {
    ghost predicate Consistent() {
      conn == dec == enc
    }

    function Connected(c: Conn): Session {
      this.(conn := Some(c), dec := Some(c), enc := Some(c))
    }

    function Disconnected(): Session {
      if conn.Some? then this.(conn := None, dec := None, enc := None) else this
    }
  }

  const NEW_SESSION := Session(None, None, None, 0)

  /** What the outside world answers to one call, and when. */
  datatype Io = Io(
    discovered: Option<string>,
    dialed: Option<Conn>,
    dialDone: Time,
    deadlineSet: bool,
    encoded: bool,
    encodeDone: Time,
    decoded: Option<Response>,
    decodeDone: Time)

  /** Whether connecting succeeds; if not, the stage that fails. */
  function ConnectFailure(cfg: Config, s: Session, io: Io): Option<Stage> {
    if s.conn.Some? then None
    else if cfg.socketPath == "" && io.discovered == None then Some(Discover)
    else if io.dialed == None then Some(Dial)
    else None
  }

  function AfterConnect(cfg: Config, s: Session, io: Io): Session {
    if s.conn == None && ConnectFailure(cfg, s, io) == None then s.Connected(io.dialed.value) else s
  }

  /** Where a call that has a connection fails, if it does. */
  function ExchangeFailure(io: Io): Option<Stage> {
    if !io.deadlineSet then Some(SetDeadline)
    else if !io.encoded then Some(Encode)
    else if io.decoded == None then Some(Decode)
    else None
  }

  /** What a call does to its session once it has a connection. */
  function AfterExchange(s: Session, io: Io): Session {
    var armed := s.(nextID := s.nextID + 1);
    if ExchangeFailure(io) != None then armed.Disconnected() else armed
  }

  function ResultOfExchange(name: string, io: Io): CallResult {
    if ExchangeFailure(io) != None then Failed(ExchangeFailure(io).value) else Conclude(name, io.decoded.value)
  }

  /** The session after a call. It is connected exactly when the call got an answer, and an id is
      spent exactly when the call got as far as a connection. */
  function AfterCall(cfg: Config, s: Session, io: Io): (r: Session)
    ensures s.Consistent() ==> r.Consistent()
    ensures r.conn.Some? <==> Answered(cfg, s, io)
    ensures r.conn.Some? <==>
      && (s.conn.Some? || ((cfg.socketPath != "" || io.discovered.Some?) && io.dialed.Some?))
      && io.deadlineSet && io.encoded && io.decoded.Some?
    ensures r.conn.Some? ==> r.conn == if s.conn.Some? then s.conn else io.dialed
    ensures r.nextID == if ConnectFailure(cfg, s, io) == None then s.nextID + 1 else s.nextID
  {
    if ConnectFailure(cfg, s, io) != None then s else AfterExchange(AfterConnect(cfg, s, io), io)
  }

  predicate Answered(cfg: Config, s: Session, io: Io) {
    ConnectFailure(cfg, s, io) == None && ExchangeFailure(io) == None
  }

  function ResultOfCall(cfg: Config, s: Session, name: string, io: Io): (r: CallResult)
    ensures r.Failed? <==> !Answered(cfg, s, io)
    ensures Answered(cfg, s, io) ==> r == Conclude(name, io.decoded.value)
  {
    var err := ConnectFailure(cfg, s, io);
    if err.Some? then Failed(err.value) else ResultOfExchange(name, io)
  }

  // ------------------------------------------------------------------ time

  function Max(a: Time, b: Time): Time {
    if a < b then b else a
  }

  /** The earlier of a time and the deadline of the caller's context, if it has one. */
  function Earliest(t: Time, ctx: Option<Time>): Time {
    if ctx.Some? && ctx.value < t then ctx.value else t
  }

  /** When the call holds a connection. */
  function ConnectDone(cfg: Config, s: Session, io: Io, start: Time): Time {
    if s.conn.Some? || ConnectFailure(cfg, s, io) == Some(Discover) then start else io.dialDone
  }

  function CallDone(cfg: Config, s: Session, io: Io, start: Time): Time {
    if ConnectFailure(cfg, s, io) != None || !io.deadlineSet then ConnectDone(cfg, s, io, start)
    else if !io.encoded then io.encodeDone
    else io.decodeDone
  }

  /** An operation that starts at `from` returns by the deadline, or at once when that has passed,
      and then without success. */
  ghost predicate By(from: Time, done: Time, deadline: Time, ok: bool) {
    from <= done <= Max(from, deadline) && (ok ==> done <= deadline)
  }

  /** The deadline for writing and reading: the call timeout from now on, or the context's. */
  function Deadline(cfg: Config, s: Session, io: Io, ctx: Option<Time>, start: Time): Time {
    Earliest(ConnectDone(cfg, s, io, start) + cfg.callTimeout, ctx)
  }

  /** Every blocking operation honours the deadline that it was given: the dialler's for the dial,
      the connection's for writing and reading. */
  ghost predicate HonoursDeadlines(cfg: Config, s: Session, io: Io, ctx: Option<Time>, start: Time) {
    var connected := ConnectDone(cfg, s, io, start);
    var deadline := Deadline(cfg, s, io, ctx, start);
    && By(start, io.dialDone, Earliest(start + cfg.dialTimeout, ctx), io.dialed.Some?)
    && By(connected, io.encodeDone, deadline, io.encoded)
    && By(io.encodeDone, io.decodeDone, deadline, io.decoded.Some?)
  }

  lemma CallIsBounded(cfg: Config, s: Session, io: Io, ctx: Option<Time>, start: Time)
    requires HonoursDeadlines(cfg, s, io, ctx, start)
    ensures start <= CallDone(cfg, s, io, start)
    ensures CallDone(cfg, s, io, start) <= start + Max(0, cfg.dialTimeout) + Max(0, cfg.callTimeout)
    ensures ctx.Some? ==> CallDone(cfg, s, io, start) <= Max(start, ctx.value)
    ensures s.conn.Some? ==> CallDone(cfg, s, io, start) <= start + Max(0, cfg.callTimeout)
  {
  }

  /** A timeout in the past leaves nothing to be answered. */
  lemma NoAnswerWithoutTime(cfg: Config, s: Session, io: Io, ctx: Option<Time>, start: Time)
    requires HonoursDeadlines(cfg, s, io, ctx, start) && s.conn == None
    requires cfg.dialTimeout < 0 || cfg.callTimeout < 0
    ensures !Answered(cfg, s, io)
  {
  }

  // ------------------------------------------------------------------ the client

  class Client {
    const cfg: Config
    var conn: Option<Conn>
    var dec: Option<Conn>
    var enc: Option<Conn>
    var nextID: int

    constructor (cfg: Config)
      ensures this.cfg == cfg && View() == NEW_SESSION
    {
      this.cfg := cfg;
      conn, dec, enc, nextID := None, None, None, 0;
    }

    ghost function View(): Session
      reads this
    {
      Session(conn, dec, enc, nextID)
    }

    /** The fields are set and reset together. */
    ghost predicate Valid()
      reads this
    {
      View().Consistent()
    }

    /** Dials unless there is a connection. The error is the stage that failed. */
    method EnsureConnected(io: Io) returns (err: Option<Stage>)
      requires Valid()
      modifies this
      ensures Valid()
      ensures err == ConnectFailure(cfg, old(View()), io)
      ensures View() == AfterConnect(cfg, old(View()), io)
      ensures err == None <==> conn.Some?
    {
      if conn != None {
        return None;
      }
      if cfg.socketPath == "" {
        if io.discovered == None {
          return Some(Discover);
        }
      }
      if io.dialed == None {
        return Some(Dial);
      }
      conn := io.dialed;
      dec := conn;
      enc := conn;
      return None;
    }

    method Disconnect()
      modifies this
      ensures View() == old(View()).Disconnected()
      ensures old(Valid()) ==> Valid()
      ensures conn == None
    {
      if conn != None {
        conn := None;
        dec := None;
        enc := None;
      }
    }

    method Close()
      requires Valid()
      modifies this
      ensures Valid() && View() == NEW_SESSION.(nextID := old(nextID))
    {
      Disconnect();
    }

    /** Sends one request on the connection and reads one reply. The deadline that the connection
        was given and the request that was handed to the encoder are ghost results. */
    method Call(name: string, params: Option<seq<string>>, io: Io, ctx: Option<Time>, start: Time)
      returns (result: CallResult, done: Time, ghost limit: Option<Time>, ghost sent: Option<Request>)
      requires Valid()
      modifies this
      ensures Valid()
      ensures View() == AfterCall(cfg, old(View()), io)
      ensures result == ResultOfCall(cfg, old(View()), name, io)
      ensures done == CallDone(cfg, old(View()), io, start)
      ensures limit.Some? <==> ConnectFailure(cfg, old(View()), io) == None
      ensures limit.Some? ==> limit.value == Deadline(cfg, old(View()), io, ctx, start)
      ensures sent.Some? <==> ConnectFailure(cfg, old(View()), io) == None && io.deadlineSet
      ensures sent.Some? ==>
        sent.value == Request(old(nextID) + 1, name, if params == None then [] else params.value)
      ensures Answered(cfg, old(View()), io) ==>
        var resp := io.decoded.value;
        result == if resp.error == Missing || resp.error == Null then Result(resp.result)
                  else CallError(name, resp.error)
    {
      limit, sent := None, None;
      var dialing := conn == None;
      var err := EnsureConnected(io);
      if err != None {
        return Failed(err.value), if err == Some(Dial) then io.dialDone else start, limit, sent;
      }
      done := if dialing then io.dialDone else start;
      var args := if params == None then [] else params.value;
      nextID := nextID + 1;
      var req := Request(nextID, name, args);
      var deadline := done + cfg.callTimeout;
      if ctx.Some? && ctx.value < deadline {
        deadline := ctx.value;
      }
      limit := Some(deadline);
      if !io.deadlineSet {
        Disconnect();
        return Failed(SetDeadline), done, limit, sent;
      }
      sent := Some(req);
      if !io.encoded {
        Disconnect();
        return Failed(Encode), io.encodeDone, limit, sent;
      }
      if io.decoded == None {
        Disconnect();
        return Failed(Decode), io.decodeDone, limit, sent;
      }
      var resp := io.decoded.value;
      if resp.error != Missing && resp.error != Null {
        return CallError(name, resp.error), io.decodeDone, limit, sent;
      }
      return Result(resp.result), io.decodeDone, limit, sent;
    }
  }
}
