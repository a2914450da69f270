/** One refresh of the OVS scraper: five calls on one client, each parsed into its own field of a
    new snapshot. */
module Refresh {
  import opened Wrappers
  import opened Clock
  import opened Unixctl
  import opened FiveCalls
  import Coverage
  import Memory
  import Dpif
  import Dpctl
  import Upcall
  import DpifObjects

  datatype Snapshot = Snapshot(
    coverage: Option<map<string, int>>,
    memory: Option<map<string, int>>,
    dpif: Option<map<string, Dpif.Datapath>>,
    dpctl: Option<map<string, Dpctl.Stats>>,
    upcall: Option<map<string, Upcall.Upcalls>>)

  /** The snapshot under construction. Its fields are not edited once they are stored, so a field
      holds the value of the object that the parser returned. */
  class OVSSnapshot {
    var Coverage: Option<map<string, int>>
    var Memory: Option<map<string, int>>
    var DPIF: Option<map<string, Dpif.Datapath>>
    var DPCTL: Option<map<string, Dpctl.Stats>>
    var Upcall: Option<map<string, Upcall.Upcalls>>

    constructor ()
      ensures View() == EMPTY
    {
      Coverage, Memory, DPIF, DPCTL, Upcall := None, None, None, None, None;
    }

    ghost function View(): Snapshot
      reads this
    {
      Snapshot(Coverage, Memory, DPIF, DPCTL, Upcall)
    }
  }

  const EMPTY := Snapshot(None, None, None, None, None)

  function Parsed<T>(text: Option<string>, parse: string -> T): (r: Option<T>)
    ensures r.Some? <==> text.Some?
  {
    if text == None then None else Some(parse(text.value))
  }

  /** Every field is what is parsed from the text of its own call, and nil if that brought none. */
  function Assembled(texts: seq<Option<string>>): (r: Snapshot)
    requires |texts| == 5
    ensures r.coverage.Some? <==> texts[0].Some?
    ensures r.memory.Some? <==> texts[1].Some?
    ensures r.dpif.Some? <==> texts[2].Some?
    ensures r.dpctl.Some? <==> texts[3].Some?
    ensures r.upcall.Some? <==> texts[4].Some?
  {
    Snapshot(
      Parsed(texts[0], Coverage.ParseText),
      Parsed(texts[1], Memory.ParseText),
      Parsed(texts[2], Dpif.ParseText),
      Parsed(texts[3], Dpctl.ParseText),
      Parsed(texts[4], Upcall.ParseText))
  }

  /** The text of the reply that a server gives to a request for a method. */
  function AnswerTo(server: Request -> Option<Response>, sent: Option<Request>, name: string): Option<string> {
    if sent.Some? && sent.value.name == name && sent.value.params == [] && server(sent.value).Some? then
      ReplyText(server(sent.value).value)
    else None
  }

  /** Every reply that is read is the server's to the request of the same call. */
  ghost predicate RepliesOf(server: Request -> Option<Response>, sent: seq<Option<Request>>, ios: Ios) {
    |sent| == 5 &&
    forall i :: 0 <= i < 5 && sent[i].Some? && ios[i].encoded && ios[i].decoded.Some? ==>
      ios[i].decoded == server(sent[i].value)
  }

  /** Each field of the snapshot is the parse of what the server replies to the request for it. */
  lemma FieldsAnswerTheirRequests(cfg: Config, s: Session, ios: Ios, server: Request -> Option<Response>)
    requires RepliesOf(server, Requests(cfg, s, ios), ios)
    ensures var snap, sent := Assembled(Texts(cfg, s, ios)), Requests(cfg, s, ios);
      && (snap.coverage.Some? ==>
            snap.coverage == Parsed(AnswerTo(server, sent[0], "coverage/show"), Coverage.ParseText))
      && (snap.memory.Some? ==> snap.memory == Parsed(AnswerTo(server, sent[1], "memory/show"), Memory.ParseText))
      && (snap.dpif.Some? ==> snap.dpif == Parsed(AnswerTo(server, sent[2], "dpif/show"), Dpif.ParseText))
      && (snap.dpctl.Some? ==> snap.dpctl == Parsed(AnswerTo(server, sent[3], "dpctl/show"), Dpctl.ParseText))
      && (snap.upcall.Some? ==> snap.upcall == Parsed(AnswerTo(server, sent[4], "upcall/show"), Upcall.ParseText))
  {
    RequestsAskFive(cfg, s, ios);
    TextsAreOfTheReplies(cfg, s, ios, server, 0);
    TextsAreOfTheReplies(cfg, s, ios, server, 1);
    TextsAreOfTheReplies(cfg, s, ios, server, 2);
    TextsAreOfTheReplies(cfg, s, ios, server, 3);
    TextsAreOfTheReplies(cfg, s, ios, server, 4);
  }

  // ------------------------------------------------------------------ the refresh

  method Fetch(client: Client, name: string, io: Io, ctx: Option<Time>, start: Time)
    returns (text: Option<string>, done: Time, ghost sent: Option<Request>)
    requires client.Valid()
    modifies client
    ensures client.Valid() && client.View() == AfterCall(client.cfg, old(client.View()), io)
    ensures sent == RequestOf(client.cfg, old(client.View()), name, io)
    ensures text == TextOf(ResultOfCall(client.cfg, old(client.View()), name, io))
    ensures done == CallDone(client.cfg, old(client.View()), io, start)
  {
    var result;
    ghost var limit;
    result, done, limit, sent := client.Call(name, None, io, ctx, start);
    text := if result.Result? then UnmarshalText(result.raw) else None;
  }

  /** The client and the results after one call for a method. */
  ghost predicate Called(
    client: Client, s: Session, name: string, io: Io, start: Time, failed: bool, done: Time, text: Option<string>,
    sent: Option<Request>)
    reads client
  {
    && client.Valid() && client.View() == AfterCall(client.cfg, s, io)
    && done == CallDone(client.cfg, s, io, start)
    && text == TextOf(ResultOfCall(client.cfg, s, name, io))
    && failed == (text == None)
    && sent == RequestOf(client.cfg, s, name, io)
  }

  method CallCoverage(client: Client, snap: OVSSnapshot, io: Io, ctx: Option<Time>, start: Time)
    returns (failed: bool, done: Time, ghost text: Option<string>, ghost sent: Option<Request>)
    requires client.Valid() && snap.Coverage == None
    modifies client, snap`Coverage
    ensures Called(client, old(client.View()), "coverage/show", io, start, failed, done, text, sent)
    ensures snap.View() == old(snap.View()).(coverage := Parsed(text, Coverage.ParseText))
  {
    var received;
    received, done, sent := Fetch(client, "coverage/show", io, ctx, start);
    text, failed := received, received == None;
    if !failed {
      var events := Coverage.ParseCoverage(received.value);
      snap.Coverage := Some(events);
    }
  }

  method CallMemory(client: Client, snap: OVSSnapshot, io: Io, ctx: Option<Time>, start: Time)
    returns (failed: bool, done: Time, ghost text: Option<string>, ghost sent: Option<Request>)
    requires client.Valid() && snap.Memory == None
    modifies client, snap`Memory
    ensures Called(client, old(client.View()), "memory/show", io, start, failed, done, text, sent)
    ensures snap.View() == old(snap.View()).(memory := Parsed(text, Memory.ParseText))
  {
    var received;
    received, done, sent := Fetch(client, "memory/show", io, ctx, start);
    text, failed := received, received == None;
    if !failed {
      var usage := Memory.ParseMemory(received.value);
      snap.Memory := Some(usage);
    }
  }

  method CallDPIF(client: Client, snap: OVSSnapshot, io: Io, ctx: Option<Time>, start: Time)
    returns (failed: bool, done: Time, ghost text: Option<string>, ghost sent: Option<Request>)
    requires client.Valid() && snap.DPIF == None
    modifies client, snap`DPIF
    ensures Called(client, old(client.View()), "dpif/show", io, start, failed, done, text, sent)
    ensures snap.View() == old(snap.View()).(dpif := Parsed(text, Dpif.ParseText))
  {
    var received;
    received, done, sent := Fetch(client, "dpif/show", io, ctx, start);
    text, failed := received, received == None;
    if !failed {
      var dpif := DpifObjects.ParseDPIF(received.value);
      snap.DPIF := Some(dpif.View());
    }
  }

  method CallDPCTL(client: Client, snap: OVSSnapshot, io: Io, ctx: Option<Time>, start: Time)
    returns (failed: bool, done: Time, ghost text: Option<string>, ghost sent: Option<Request>)
    requires client.Valid() && snap.DPCTL == None
    modifies client, snap`DPCTL
    ensures Called(client, old(client.View()), "dpctl/show", io, start, failed, done, text, sent)
    ensures snap.View() == old(snap.View()).(dpctl := Parsed(text, Dpctl.ParseText))
  {
    var received;
    received, done, sent := Fetch(client, "dpctl/show", io, ctx, start);
    text, failed := received, received == None;
    if !failed {
      var dpctl := Dpctl.ParseDPCTL(received.value);
      snap.DPCTL := Some(dpctl.View());
    }
  }

  method CallUpcall(client: Client, snap: OVSSnapshot, io: Io, ctx: Option<Time>, start: Time)
    returns (failed: bool, done: Time, ghost text: Option<string>, ghost sent: Option<Request>)
    requires client.Valid() && snap.Upcall == None
    modifies client, snap`Upcall
    ensures Called(client, old(client.View()), "upcall/show", io, start, failed, done, text, sent)
    ensures snap.View() == old(snap.View()).(upcall := Parsed(text, Upcall.ParseText))
  {
    var received;
    received, done, sent := Fetch(client, "upcall/show", io, ctx, start);
    text, failed := received, received == None;
    if !failed {
      var upcall := Upcall.ParseUpcall(received.value);
      snap.Upcall := Some(upcall.View());
    }
  }

  function Count(failed: bool): nat {
    if failed then 1 else 0
  }

  lemma NextCall(cfg: Config, s: Session, ios: Ios, start: Time, i: nat)
    requires i < 5
    ensures Before(cfg, s, ios, i + 1) == AfterCall(cfg, Before(cfg, s, ios, i), ios[i])
    ensures StartOf(cfg, s, ios, start, i + 1)
         == CallDone(cfg, Before(cfg, s, ios, i), ios[i], StartOf(cfg, s, ios, start, i))
    ensures Texts(cfg, s, ios)[i] == TextOf(ResultOfCall(cfg, Before(cfg, s, ios, i), METHODS[i], ios[i]))
    ensures Requests(cfg, s, ios)[i] == RequestOf(cfg, Before(cfg, s, ios, i), METHODS[i], ios[i])
    ensures METHODS[0] == "coverage/show" && METHODS[1] == "memory/show" && METHODS[2] == "dpif/show"
    ensures METHODS[3] == "dpctl/show" && METHODS[4] == "upcall/show"
  {
    MethodNames();
  }

  /** The snapshot after the first two calls. */
  function FirstTwo(texts: seq<Option<string>>): Snapshot
    requires |texts| == 5
  {
    EMPTY.(coverage := Parsed(texts[0], Coverage.ParseText), memory := Parsed(texts[1], Memory.ParseText))
  }

  /** The first two calls, each into its own field. */
  method CallTexts(client: Client, snap: OVSSnapshot, ios: Ios, ctx: Option<Time>, start: Time, ghost cfg: Config,
                ghost s: Session, ghost begun: Time)
    returns (attempts: nat, failures: nat, done: Time, ghost sent: seq<Option<Request>>)
    requires client.cfg == cfg && client.Valid() && client.View() == Before(cfg, s, ios, 0)
    requires start == StartOf(cfg, s, ios, begun, 0)
    requires snap.View() == EMPTY
    modifies client, snap
    ensures client.Valid() && client.View() == Before(cfg, s, ios, 2)
    ensures done == StartOf(cfg, s, ios, begun, 2)
    ensures attempts == 2 && failures == Count(Texts(cfg, s, ios)[0] == None) + Count(Texts(cfg, s, ios)[1] == None)
    ensures snap.View() == FirstTwo(Texts(cfg, s, ios))
    ensures sent == [Requests(cfg, s, ios)[0], Requests(cfg, s, ios)[1]]
  {
    ghost var texts := Texts(cfg, s, ios);
    attempts, failures := 0, 0;
    var failed;
    ghost var text, first, second;
    NextCall(cfg, s, ios, begun, 0);
    failed, done, text, first := CallCoverage(client, snap, ios[0], ctx, start);
    attempts, failures := attempts + 1, failures + Count(failed);
    assert text == texts[0];
    NextCall(cfg, s, ios, begun, 1);
    failed, done, text, second := CallMemory(client, snap, ios[1], ctx, done);
    attempts, failures := attempts + 1, failures + Count(failed);
    assert text == texts[1];
    sent := [first, second];
  }

  /** The snapshot after four. */
  function FirstFour(texts: seq<Option<string>>): Snapshot
    requires |texts| == 5
  {
    FirstTwo(texts).(dpif := Parsed(texts[2], Dpif.ParseText), dpctl := Parsed(texts[3], Dpctl.ParseText))
  }

  /** The next two. */
  method CallDatapaths(client: Client, snap: OVSSnapshot, ios: Ios, ctx: Option<Time>, start: Time, ghost cfg: Config,
                ghost s: Session, ghost begun: Time)
    returns (attempts: nat, failures: nat, done: Time, ghost sent: seq<Option<Request>>)
    requires client.cfg == cfg && client.Valid() && client.View() == Before(cfg, s, ios, 2)
    requires start == StartOf(cfg, s, ios, begun, 2)
    requires snap.View() == FirstTwo(Texts(cfg, s, ios))
    modifies client, snap
    ensures client.Valid() && client.View() == Before(cfg, s, ios, 4)
    ensures done == StartOf(cfg, s, ios, begun, 4)
    ensures attempts == 2 && failures == Count(Texts(cfg, s, ios)[2] == None) + Count(Texts(cfg, s, ios)[3] == None)
    ensures snap.View() == FirstFour(Texts(cfg, s, ios))
    ensures sent == [Requests(cfg, s, ios)[2], Requests(cfg, s, ios)[3]]
  {
    ghost var texts := Texts(cfg, s, ios);
    attempts, failures := 0, 0;
    var failed;
    ghost var text, first, second;
    NextCall(cfg, s, ios, begun, 2);
    failed, done, text, first := CallDPIF(client, snap, ios[2], ctx, start);
    attempts, failures := attempts + 1, failures + Count(failed);
    assert text == texts[2];
    NextCall(cfg, s, ios, begun, 3);
    failed, done, text, second := CallDPCTL(client, snap, ios[3], ctx, done);
    attempts, failures := attempts + 1, failures + Count(failed);
    assert text == texts[3];
    sent := [first, second];
  }

  /** The last one. */
  method CallHandlers(client: Client, snap: OVSSnapshot, ios: Ios, ctx: Option<Time>, start: Time, ghost cfg: Config,
                ghost s: Session, ghost begun: Time)
    returns (attempts: nat, failures: nat, done: Time, ghost sent: seq<Option<Request>>)
    requires client.cfg == cfg && client.Valid() && client.View() == Before(cfg, s, ios, 4)
    requires start == StartOf(cfg, s, ios, begun, 4)
    requires snap.View() == FirstFour(Texts(cfg, s, ios))
    modifies client, snap
    ensures client.Valid() && client.View() == Before(cfg, s, ios, 5)
    ensures done == StartOf(cfg, s, ios, begun, 5)
    ensures attempts == 1 && failures == Count(Texts(cfg, s, ios)[4] == None)
    ensures snap.View() == Assembled(Texts(cfg, s, ios))
    ensures sent == [Requests(cfg, s, ios)[4]]
  {
    NextCall(cfg, s, ios, begun, 4);
    var failed;
    ghost var text, request;
    failed, done, text, request := CallUpcall(client, snap, ios[4], ctx, start);
    attempts, failures := 1, Count(failed);
    sent := [request];
  }

  lemma AllMissed(texts: seq<Option<string>>)
    requires |texts| == 5
    ensures Count(texts[0] == None) + Count(texts[1] == None) + (Count(texts[2] == None) + Count(texts[3] == None))
        + Count(texts[4] == None) == 5
      <==> forall i :: 0 <= i < 5 ==> texts[i] == None
  {
  }

  lemma InOrder<T>(all: seq<T>)
    requires |all| == 5
    ensures [all[0], all[1]] + [all[2], all[3]] + [all[4]] == all
  {
  }

  /** Returns null for the error that every method failed. The requests that were handed to the encoder
      are a ghost result: they ask for the five methods. */
  method Refresh(client: Client, ios: Ios, ctx: Option<Time>, start: Time)
    returns (snap: OVSSnapshot?, done: Time, ghost sent: seq<Option<Request>>)
    requires client.Valid()
    modifies client
    ensures client.Valid() && client.View() == Before(client.cfg, old(client.View()), ios, 5)
    ensures done == StartOf(client.cfg, old(client.View()), ios, start, 5)
    ensures snap == null <==> forall i :: 0 <= i < 5 ==> Texts(client.cfg, old(client.View()), ios)[i] == None
    ensures snap != null ==> fresh(snap) && snap.View() == Assembled(Texts(client.cfg, old(client.View()), ios))
    ensures sent == Requests(client.cfg, old(client.View()), ios) && AsksFive(old(client.View()), sent)
  {
    ghost var cfg, s := client.cfg, client.View();
    AllMissed(Texts(cfg, s, ios));
    RequestsAskFive(cfg, s, ios);
    InOrder(Requests(cfg, s, ios));
    snap := new OVSSnapshot();
    var attempts, failures, moreAttempts, moreFailures;
    ghost var more;
    attempts, failures, done, sent := CallTexts(client, snap, ios, ctx, start, cfg, s, start);
    moreAttempts, moreFailures, done, more := CallDatapaths(client, snap, ios, ctx, done, cfg, s, start);
    attempts, failures, sent := attempts + moreAttempts, failures + moreFailures, sent + more;
    moreAttempts, moreFailures, done, more := CallHandlers(client, snap, ios, ctx, done, cfg, s, start);
    attempts, failures, sent := attempts + moreAttempts, failures + moreFailures, sent + more;
    if attempts > 0 && failures == attempts {
      snap := null;
    }
  }
}
