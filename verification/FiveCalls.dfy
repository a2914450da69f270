/** The five calls of a refresh on one client: the sessions, the texts and the times. */
module FiveCalls {
  import opened Wrappers
  import opened Clock
  import opened Unixctl

  const METHODS: seq<string> := ["coverage/show", "memory/show", "dpif/show", "dpctl/show", "upcall/show"]

  /** The default of the flag cache.ttl. */
  const DEFAULT_TTL: Time := 60 * SECOND

  type Ios = ios: seq<Io> | |ios| == 5 witness seq(5, _ => Io(None, None, 0, false, false, 0, None, 0))

  /** The session before the call with number i. */
  function Before(cfg: Config, s: Session, ios: Ios, i: nat): Session
    requires i <= 5
  {
    if i == 0 then s else AfterCall(cfg, Before(cfg, s, ios, i - 1), ios[i - 1])
  }

  /** When the call with number i starts. */
  function StartOf(cfg: Config, s: Session, ios: Ios, start: Time, i: nat): Time
    requires i <= 5
  {
    if i == 0 then start
    else CallDone(cfg, Before(cfg, s, ios, i - 1), ios[i - 1], StartOf(cfg, s, ios, start, i - 1))
  }

  /** The text that a call brings, if nothing failed on the way. */
  function TextOf(result: CallResult): Option<string> {
    if result.Result? then UnmarshalText(result.raw) else None
  }

  /** A text comes exactly from a call that is answered, without an error and with a string or null. */
  function Received(cfg: Config, s: Session, ios: Ios, i: nat): (r: Option<string>)
    requires i < 5
    ensures r.Some? <==>
      && Answered(cfg, Before(cfg, s, ios, i), ios[i])
      && var resp := ios[i].decoded.value;
         (resp.error == Missing || resp.error == Null) && (resp.result.Text? || resp.result == Null)
    ensures r.Some? ==>
      r.value == if ios[i].decoded.value.result.Text? then ios[i].decoded.value.result.text else ""
  {
    TextOf(ResultOfCall(cfg, Before(cfg, s, ios, i), METHODS[i], ios[i]))
  }

  function Texts(cfg: Config, s: Session, ios: Ios): (r: seq<Option<string>>)
    ensures |r| == 5
    ensures forall i :: 0 <= i < 5 ==> r[i] == Received(cfg, s, ios, i)
  {
    seq(5, i requires 0 <= i < 5 => Received(cfg, s, ios, i))
  }

  /** The request that a call for a method hands to the encoder, if it gets that far. */
  function RequestOf(cfg: Config, s: Session, name: string, io: Io): Option<Request> {
    if ConnectFailure(cfg, s, io) == None && io.deadlineSet then Some(Request(s.nextID + 1, name, [])) else None
  }

  function Requests(cfg: Config, s: Session, ios: Ios): (r: seq<Option<Request>>)
    ensures |r| == 5
    ensures forall i :: 0 <= i < 5 ==> r[i] == RequestOf(cfg, Before(cfg, s, ios, i), METHODS[i], ios[i])
  {
    seq(5, i requires 0 <= i < 5 => RequestOf(cfg, Before(cfg, s, ios, i), METHODS[i], ios[i]))
  }

  /** The request, if it was sent, is for the method, without parameters. */
  predicate AsksFor(sent: Option<Request>, name: string) {
    sent.Some? ==> sent.value.name == name && sent.value.params == []
  }

  /** The five methods, in order, and ids that increase from the session's. */
  ghost predicate AsksFive(s: Session, sent: seq<Option<Request>>) {
    && |sent| == 5
    && AsksFor(sent[0], "coverage/show") && AsksFor(sent[1], "memory/show") && AsksFor(sent[2], "dpif/show")
    && AsksFor(sent[3], "dpctl/show") && AsksFor(sent[4], "upcall/show")
    && (forall i :: 0 <= i < 5 && sent[i].Some? ==> s.nextID < sent[i].value.id)
    && (forall i, j :: 0 <= i < j < 5 && sent[i].Some? && sent[j].Some? ==> sent[i].value.id < sent[j].value.id)
  }

  lemma {:induction false} IdsIncrease(cfg: Config, s: Session, ios: Ios, i: nat, j: nat)
    requires i <= j <= 5
    ensures Before(cfg, s, ios, i).nextID <= Before(cfg, s, ios, j).nextID
    ensures i < j && RequestOf(cfg, Before(cfg, s, ios, i), METHODS[i], ios[i]).Some? ==>
      Before(cfg, s, ios, i).nextID < Before(cfg, s, ios, j).nextID
  {
    if i < j {
      IdsIncrease(cfg, s, ios, i, j - 1);
    }
  }

  lemma MethodNames()
    ensures METHODS[0] == "coverage/show" && METHODS[1] == "memory/show" && METHODS[2] == "dpif/show"
    ensures METHODS[3] == "dpctl/show" && METHODS[4] == "upcall/show"
  {
  }

  lemma RequestsAskFive(cfg: Config, s: Session, ios: Ios)
    ensures AsksFive(s, Requests(cfg, s, ios))
  {
    MethodNames();
    var sent := Requests(cfg, s, ios);
    forall i, j | 0 <= i < j < 5 && sent[i].Some? && sent[j].Some? ensures sent[i].value.id < sent[j].value.id {
      IdsIncrease(cfg, s, ios, i, j);
    }
    forall i | 0 <= i < 5 && sent[i].Some? ensures s.nextID < sent[i].value.id {
      IdsIncrease(cfg, s, ios, 0, i);
    }
  }

  /** What a reply brings, if it is no error: its string, and the empty one for null. */
  function ReplyText(resp: Response): Option<string> {
    if resp.error != Missing && resp.error != Null then None
    else if resp.result.Text? then Some(resp.result.text)
    else if resp.result == Null then Some("")
    else None
  }

  /** Whatever function of the request the server computes, the text of a call is that of the reply to
      the request that the call sent. */
  lemma TextsAreOfTheReplies(cfg: Config, s: Session, ios: Ios, server: Request -> Option<Response>, i: nat)
    requires i < 5
    requires var sent := Requests(cfg, s, ios)[i];
      sent.Some? && ios[i].encoded && ios[i].decoded.Some? ==> ios[i].decoded == server(sent.value)
    ensures var text, sent := Texts(cfg, s, ios)[i], Requests(cfg, s, ios)[i];
      text.Some? ==> sent.Some? && server(sent.value).Some? && text == ReplyText(server(sent.value).value)
  {
  }

  // ------------------------------------------------------------------ properties

  /** How many of the first i calls dial: those that find no connection and discover a socket. */
  function Dials(cfg: Config, s: Session, ios: Ios, i: nat): nat
    requires i <= 5
  {
    if i == 0 then 0
    else
      var found := Before(cfg, s, ios, i - 1);
      Dials(cfg, s, ios, i - 1) +
        if found.conn == None && ConnectFailure(cfg, found, ios[i - 1]) != Some(Discover) then 1 else 0
  }

  /** A call dials exactly when the call before it was not answered, for whatever reason, and a socket
      is discovered; an error reply or an unreadable result does not cost the connection. */
  lemma RedialsExactlyAfterADrop(cfg: Config, s: Session, ios: Ios, i: nat)
    requires 0 < i < 5
    ensures Dials(cfg, s, ios, i + 1) == Dials(cfg, s, ios, i) + 1 <==>
      && !Answered(cfg, Before(cfg, s, ios, i - 1), ios[i - 1])
      && (cfg.socketPath != "" || ios[i].discovered.Some?)
  {
  }

  /** Calls that are answered one after the other use one connection. */
  lemma {:induction false} OneConnectionWhileAnswered(cfg: Config, s: Session, ios: Ios, i: nat, j: nat)
    requires i <= j <= 5 && Before(cfg, s, ios, i).conn.Some?
    requires forall k :: i <= k < j ==> Answered(cfg, Before(cfg, s, ios, k), ios[k])
    ensures Before(cfg, s, ios, j).conn == Before(cfg, s, ios, i).conn
    ensures Dials(cfg, s, ios, j) == Dials(cfg, s, ios, i)
  {
    if i < j {
      OneConnectionWhileAnswered(cfg, s, ios, i, j - 1);
    }
  }

  /** Every call honours its deadlines. */
  ghost predicate AllHonour(cfg: Config, s: Session, ios: Ios, ctx: Option<Time>, start: Time) {
    forall i :: 0 <= i < 5 ==>
      HonoursDeadlines(cfg, Before(cfg, s, ios, i), ios[i], ctx, StartOf(cfg, s, ios, start, i))
  }

  lemma OneMoreCall(i: nat, most: Time)
    requires i > 0
    ensures i * most == (i - 1) * most + most
  {
  }

  lemma {:induction false} CallsAreBounded(cfg: Config, s: Session, ios: Ios, ctx: Option<Time>, start: Time, i: nat)
    requires AllHonour(cfg, s, ios, ctx, start) && i <= 5
    ensures start <= StartOf(cfg, s, ios, start, i)
    ensures StartOf(cfg, s, ios, start, i) <= start + i * (Max(0, cfg.dialTimeout) + Max(0, cfg.callTimeout))
    ensures ctx.Some? ==> StartOf(cfg, s, ios, start, i) <= Max(start, ctx.value)
  {
    if i > 0 {
      OneMoreCall(i, Max(0, cfg.dialTimeout) + Max(0, cfg.callTimeout));
      CallsAreBounded(cfg, s, ios, ctx, start, i - 1);
      CallIsBounded(cfg, Before(cfg, s, ios, i - 1), ios[i - 1], ctx, StartOf(cfg, s, ios, start, i - 1));
    }
  }

  /** With the default timeouts a refresh takes at most 35 seconds, less than the default TTL. */
  lemma DefaultRefreshFitsTheDefaultTTL(given: Config, s: Session, ios: Ios, ctx: Option<Time>, start: Time)
    requires New(given).Some? && given.dialTimeout == 0 && given.callTimeout == 0
    requires AllHonour(New(given).value, s, ios, ctx, start)
    ensures StartOf(New(given).value, s, ios, start, 5) - start <= 35 * SECOND < DEFAULT_TTL
  {
    CallsAreBounded(New(given).value, s, ios, ctx, start, 5);
  }

  // ------------------------------------------------------------------ two refreshes on one client

  lemma OneCallIsBounded(cfg: Config, s: Session, ios: Ios, start: Time, i: nat)
    requires AllHonour(cfg, s, ios, None, start) && i < 5
    ensures var dial := if Before(cfg, s, ios, i).conn.Some? then 0 else Max(0, cfg.dialTimeout);
      StartOf(cfg, s, ios, start, i + 1) <= StartOf(cfg, s, ios, start, i) + dial + Max(0, cfg.callTimeout)
  {
    CallIsBounded(cfg, Before(cfg, s, ios, i), ios[i], None, StartOf(cfg, s, ios, start, i));
  }

  /** A refresh in which some call finds a connection saves one dial. */
  lemma {:induction false} SavedDial(cfg: Config, s: Session, ios: Ios, start: Time, i: nat, j: nat)
    requires AllHonour(cfg, s, ios, None, start) && i < j <= 5 && Before(cfg, s, ios, i).conn.Some?
    ensures StartOf(cfg, s, ios, start, j)
         <= start + (j - 1) * (Max(0, cfg.dialTimeout) + Max(0, cfg.callTimeout)) + Max(0, cfg.callTimeout)
  {
    OneCallIsBounded(cfg, s, ios, start, j - 1);
    if j == i + 1 {
      CallsAreBounded(cfg, s, ios, None, start, i);
    } else {
      SavedDial(cfg, s, ios, start, i, j - 1);
      OneMoreCall(j - 1, Max(0, cfg.dialTimeout) + Max(0, cfg.callTimeout));
    }
  }

  lemma {:induction false} FewerDials(cfg: Config, s: Session, ios: Ios, i: nat, j: nat)
    requires i < j <= 5 && Before(cfg, s, ios, i).conn.Some?
    ensures Dials(cfg, s, ios, j) < j
  {
    if j == i + 1 {
      AtMostOneDialEach(cfg, s, ios, i);
    } else {
      FewerDials(cfg, s, ios, i, j - 1);
    }
  }

  lemma {:induction false} AtMostOneDialEach(cfg: Config, s: Session, ios: Ios, i: nat)
    requires i <= 5
    ensures Dials(cfg, s, ios, i) <= i
  {
    if i > 0 {
      AtMostOneDialEach(cfg, s, ios, i - 1);
    }
  }

  /** Of two refreshes in a row the first of which received anything, one saves a dial. */
  lemma NineDials(cfg: Config, s: Session, ios: Ios, ios': Ios, i: nat)
    requires i < 5 && Received(cfg, s, ios, i).Some?
    ensures Dials(cfg, s, ios, 5) + Dials(cfg, Before(cfg, s, ios, 5), ios', 5) <= 9
  {
    var s' := Before(cfg, s, ios, 5);
    AtMostOneDialEach(cfg, s, ios, 5);
    AtMostOneDialEach(cfg, s', ios', 5);
    assert Before(cfg, s, ios, i + 1).conn.Some?;
    if i < 4 {
      FewerDials(cfg, s, ios, i + 1, 5);
    } else {
      assert Before(cfg, s', ios', 0) == s';
      FewerDials(cfg, s', ios', 0, 5);
    }
  }

  /** So they take at most nine dial timeouts and ten call timeouts. */
  lemma TwoRefreshes(cfg: Config, s: Session, ios: Ios, start: Time, ios': Ios, start': Time, i: nat)
    requires i < 5 && Received(cfg, s, ios, i).Some?
    requires AllHonour(cfg, s, ios, None, start)
    requires AllHonour(cfg, Before(cfg, s, ios, 5), ios', None, start')
    ensures (StartOf(cfg, s, ios, start, 5) - start)
          + (StartOf(cfg, Before(cfg, s, ios, 5), ios', start', 5) - start')
         <= 9 * Max(0, cfg.dialTimeout) + 10 * Max(0, cfg.callTimeout)
  {
    var s' := Before(cfg, s, ios, 5);
    CallsAreBounded(cfg, s, ios, None, start, 5);
    CallsAreBounded(cfg, s', ios', None, start', 5);
    assert Before(cfg, s, ios, i + 1).conn.Some?;
    if i < 4 {
      SavedDial(cfg, s, ios, start, i + 1, 5);
    } else {
      assert Before(cfg, s', ios', 0) == s';
      SavedDial(cfg, s', ios', start', 0, 5);
    }
  }

  /** With a timeout in the past a new client never gets a text. */
  lemma {:induction false} NothingReceived(cfg: Config, ios: Ios, start: Time, i: nat)
    requires AllHonour(cfg, NEW_SESSION, ios, None, start) && (cfg.dialTimeout < 0 || cfg.callTimeout < 0)
    requires i <= 5
    ensures Before(cfg, NEW_SESSION, ios, i).conn == None
    ensures forall j :: 0 <= j < i ==> Received(cfg, NEW_SESSION, ios, j) == None
  {
    if i > 0 {
      NothingReceived(cfg, ios, start, i - 1);
      NoAnswerWithoutTime(
        cfg, Before(cfg, NEW_SESSION, ios, i - 1), ios[i - 1], None, StartOf(cfg, NEW_SESSION, ios, start, i - 1));
    }
  }

  // ------------------------------------------------------------------ the slowest refresh

  /** A call that dials as long as it can and waits for the reply as long as it can; only the last
      call of a refresh is answered. */
  function SlowIo(cfg: Config, connected: bool, start: Time, answered: bool): Io {
    var ready := if connected then start else start + cfg.dialTimeout;
    Io(Some("ovs-vswitchd.ctl"), if connected then None else Some(0), ready, true, true, ready,
       if answered then Some(Response(Text(""), Missing, 0)) else None, ready + cfg.callTimeout)
  }

  function SlowStart(cfg: Config, connected: bool, start: Time, i: nat): Time {
    start + i * (cfg.dialTimeout + cfg.callTimeout) - if connected && i > 0 then cfg.dialTimeout else 0
  }

  function SlowIos(cfg: Config, connected: bool, start: Time): Ios {
    [SlowIo(cfg, connected, start, false),
     SlowIo(cfg, false, SlowStart(cfg, connected, start, 1), false),
     SlowIo(cfg, false, SlowStart(cfg, connected, start, 2), false),
     SlowIo(cfg, false, SlowStart(cfg, connected, start, 3), false),
     SlowIo(cfg, false, SlowStart(cfg, connected, start, 4), true)]
  }

  lemma SlowIoAt(cfg: Config, connected: bool, start: Time, i: nat)
    requires i < 5
    ensures SlowIos(cfg, connected, start)[i]
         == SlowIo(cfg, connected && i == 0, SlowStart(cfg, connected, start, i), i == 4)
  {
    assert SlowStart(cfg, connected, start, 0) == start;
  }

  /** What a slow call does, alone. */
  lemma SlowCall(cfg: Config, s: Session, start: Time, answered: bool)
    requires cfg.dialTimeout > 0 && cfg.callTimeout > 0
    ensures var connected := s.conn.Some?;
      var io := SlowIo(cfg, connected, start, answered);
      && HonoursDeadlines(cfg, s, io, None, start)
      && CallDone(cfg, s, io, start)
           == start + cfg.callTimeout + (if connected then 0 else cfg.dialTimeout)
      && (Answered(cfg, s, io) <==> answered)
      && (forall name: string :: TextOf(ResultOfCall(cfg, s, name, io)) == if answered then Some("") else None)
  {
  }

  lemma NextOf(cfg: Config, s: Session, ios: Ios, start: Time, i: nat)
    requires 0 < i <= 5
    ensures Before(cfg, s, ios, i).conn.Some? <==> Answered(cfg, Before(cfg, s, ios, i - 1), ios[i - 1])
    ensures StartOf(cfg, s, ios, start, i)
         == CallDone(cfg, Before(cfg, s, ios, i - 1), ios[i - 1], StartOf(cfg, s, ios, start, i - 1))
  {
  }

  /** The call with number i of a slow refresh starts where the one before ended. */
  lemma {:induction false} SlowCalls(cfg: Config, s: Session, start: Time, i: nat)
    requires cfg.dialTimeout > 0 && cfg.callTimeout > 0 && i < 5
    ensures var ios := SlowIos(cfg, s.conn.Some?, start);
      && StartOf(cfg, s, ios, start, i) == SlowStart(cfg, s.conn.Some?, start, i)
      && (Before(cfg, s, ios, i).conn.Some? <==> i == 0 && s.conn.Some?)
  {
    if i > 0 {
      var ios := SlowIos(cfg, s.conn.Some?, start);
      NextOf(cfg, s, ios, start, i);
      SlowCalls(cfg, s, start, i - 1);
      SlowIoAt(cfg, s.conn.Some?, start, i - 1);
      SlowCall(cfg, Before(cfg, s, ios, i - 1), SlowStart(cfg, s.conn.Some?, start, i - 1), false);
      SlowNext(cfg, s.conn.Some?, start, i);
    }
  }

  lemma SlowNext(cfg: Config, connected: bool, start: Time, i: nat)
    requires i > 0
    ensures SlowStart(cfg, connected, start, i)
         == SlowStart(cfg, connected, start, i - 1) + cfg.callTimeout
          + (if connected && i == 1 then 0 else cfg.dialTimeout)
  {
    OneMoreCall(i, cfg.dialTimeout + cfg.callTimeout);
  }

  lemma SlowCallOf(cfg: Config, s: Session, start: Time, i: nat)
    requires cfg.dialTimeout > 0 && cfg.callTimeout > 0 && i < 5
    ensures var ios := SlowIos(cfg, s.conn.Some?, start);
      && HonoursDeadlines(cfg, Before(cfg, s, ios, i), ios[i], None, StartOf(cfg, s, ios, start, i))
      && StartOf(cfg, s, ios, start, i + 1) == SlowStart(cfg, s.conn.Some?, start, i + 1)
      && Received(cfg, s, ios, i) == if i == 4 then Some("") else None
  {
    var ios := SlowIos(cfg, s.conn.Some?, start);
    NextOf(cfg, s, ios, start, i + 1);
    SlowCalls(cfg, s, start, i);
    SlowIoAt(cfg, s.conn.Some?, start, i);
    SlowCall(cfg, Before(cfg, s, ios, i), SlowStart(cfg, s.conn.Some?, start, i), i == 4);
    SlowNext(cfg, s.conn.Some?, start, i + 1);
  }

  /** A slow refresh honours its deadlines, succeeds by its last call, and takes all its time. */
  lemma SlowRefresh(cfg: Config, s: Session, start: Time)
    requires cfg.dialTimeout > 0 && cfg.callTimeout > 0
    ensures var ios := SlowIos(cfg, s.conn.Some?, start);
      && AllHonour(cfg, s, ios, None, start)
      && Received(cfg, s, ios, 4).Some?
      && Before(cfg, s, ios, 5).conn.Some?
      && StartOf(cfg, s, ios, start, 5) - start
           == 5 * cfg.callTimeout + (if s.conn.Some? then 4 else 5) * cfg.dialTimeout
  {
    var ios := SlowIos(cfg, s.conn.Some?, start);
    forall i | 0 <= i < 5
      ensures HonoursDeadlines(cfg, Before(cfg, s, ios, i), ios[i], None, StartOf(cfg, s, ios, start, i))
    {
      SlowCallOf(cfg, s, start, i);
    }
    SlowCallOf(cfg, s, start, 4);
  }
}
