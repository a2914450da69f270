/** What the client returns when a server writes a reply out of turn. */
module OutOfTurn {
  import opened Wrappers
  import opened Sequences
  import opened Unixctl
  import opened ClientRuns

  // ------------------------------------------------------------------ the next call

  function ReadFirst(t: Caller): seq<Step> {
    [Write(t, true, true)] + ([Read(t, true)] + [Release(t)])
  }

  lemma ReadFirstReply(s: State, t: Caller) returns (r: State)
    requires s.At(t).Sent? && s.session.dec.Some?
    requires s.session.dec.value < |s.links| && s.links[s.session.dec.value].outbox != []
    ensures Apply(s, Read(t, true)) == Some(r)
    ensures r.At(t) == Leaving(Replied(s.At(t).request, s.links[s.session.dec.value].outbox[0]))
    ensures r.history == s.history && r.Asked(t) == s.Asked(t)
  {
    r := Reading(s, t, true).value;
  }

  lemma LeaveLock(s: State, t: Caller)
    requires s.At(t).Leaving?
    ensures Run(s, [Release(t)]).Some?
    ensures Run(s, [Release(t)]).value.history == s.history + [Finished(t, s.Asked(t), s.At(t).out)]
  {
    RunOne(s, Release(t));
  }

  lemma ReadAndRelease(s: State, t: Caller)
    requires s.At(t).Sent? && s.session.dec.Some?
    requires s.session.dec.value < |s.links| && s.links[s.session.dec.value].outbox != []
    ensures Run(s, [Read(t, true)] + [Release(t)]).Some?
    ensures Run(s, [Read(t, true)] + [Release(t)]).value.history ==
      s.history + [Finished(t, s.Asked(t), Replied(s.At(t).request, s.links[s.session.dec.value].outbox[0]))]
  {
    var r := ReadFirstReply(s, t);
    RunCons(s, Read(t, true), [Release(t)]);
    LeaveLock(r, t);
  }

  lemma ReadsTheFirstReply(s: State, t: Caller, reply: Reply)
    requires s.At(t).Armed? && s.session.Consistent() && s.session.conn.Some?
    requires s.session.conn.value < |s.links| && s.links[s.session.conn.value].outbox == [reply]
    ensures Run(s, ReadFirst(t)).Some?
    ensures Run(s, ReadFirst(t)).value.history
         == s.history + [Finished(t, s.Asked(t), Replied(s.At(t).request, reply))]
  {
    RunCons(s, Write(t, true, true), [Read(t, true)] + [Release(t)]);
    ReadAndRelease(Apply(s, Write(t, true, true)).value, t);
  }

  /** The steps of a call that takes the connection as it is, and whatever reply comes first. */
  function NextCall(t: Caller, name: string, params: Option<seq<string>>): seq<Step> {
    [Begin(t, Calling(name, params))] + ([Acquire(t)] + ([Connect(t, None)] + ([Arm(t, true)] + ReadFirst(t))))
  }

  /** The caller inside the lock takes the connection as it is. */
  lemma ConnectAndArm(s: State, t: Caller, rest: seq<Step>) returns (r: State)
    requires s.holder == Some(t) && s.At(t).Entered? && s.At(t).op.Calling? && s.session.conn.Some?
    ensures Run(s, [Connect(t, None)] + ([Arm(t, true)] + rest)) == Run(r, rest)
    ensures r.holder == s.holder && r.links == s.links && r.history == s.history && r.asked == s.asked
    ensures r.session == s.session.(nextID := s.session.nextID + 1)
    ensures r.At(t) == Armed(NewRequest(r.session.nextID, s.At(t).op.name, s.At(t).op.params))
  {
    RunCons(s, Connect(t, None), [Arm(t, true)] + rest);
    var s1 := Apply(s, Connect(t, None)).value;
    RunCons(s1, Arm(t, true), rest);
    r := Apply(s1, Arm(t, true)).value;
  }

  lemma EnterAndArm(s: State, t: Caller, op: Op, rest: seq<Step>) returns (r: State)
    requires s.holder == None && s.At(t).Idle? && s.session.conn.Some? && op.Calling?
    ensures Run(s, [Begin(t, op)] + ([Acquire(t)] + ([Connect(t, None)] + ([Arm(t, true)] + rest)))) == Run(r, rest)
    ensures r.holder == Some(t) && r.links == s.links && r.history == s.history && r.Asked(t) == op
    ensures r.session == s.session.(nextID := s.session.nextID + 1)
    ensures r.At(t) == Armed(NewRequest(r.session.nextID, op.name, op.params))
  {
    var s1 := Enter(s, t, op, [Connect(t, None)] + ([Arm(t, true)] + rest));
    r := ConnectAndArm(s1, t, rest);
  }

  lemma NextCallReadsTheFirst(s: State, t: Caller, name: string, params: Option<seq<string>>, reply: Reply)
    requires s.holder == None && s.At(t).Idle? && s.session.Consistent() && s.session.conn.Some?
    requires s.session.conn.value < |s.links| && s.links[s.session.conn.value].outbox == [reply]
    ensures Run(s, NextCall(t, name, params)).Some?
    ensures Run(s, NextCall(t, name, params)).value.history ==
      s.history + [Finished(t, Calling(name, params), Replied(NewRequest(s.session.nextID + 1, name, params), reply))]
  {
    var r := EnterAndArm(s, t, Calling(name, params), ReadFirst(t));
    ReadsTheFirstReply(r, t, reply);
  }

  /** One reply out of turn is enough to break the pairing: whoever calls next on that connection
      gets it, since its id is not compared with the request's. */
  lemma OutOfTurnReplyIsReturned(s: State, t: Caller, name: string, params: Option<seq<string>>, reply: Reply)
    requires Quiet(s, t) && s.session.conn.Some?
    requires reply.answers.id <= s.session.nextID
    ensures var steps := [Push(s.session.conn.value, reply)] + NextCall(t, name, params);
      && Run(s, steps).Some?
      && Run(s, steps).value.history != []
      && var out := Last(Run(s, steps).value.history).out;
         out.Replied? && out.reply == reply && out.reply.answers != out.request
  {
    var push := Push(s.session.conn.value, reply);
    var s1 := Apply(s, push).value;
    RunCons(s, push, NextCall(t, name, params));
    assert s1.links[s.session.conn.value].outbox == [] + [reply] == [reply];
    NextCallReadsTheFirst(s1, t, name, params, reply);
  }

  /** Every message on the link belongs to a request with a smaller id. */
  ghost predicate Below(link: Link, id: int) {
    && (forall i :: 0 <= i < |link.inbox| ==> link.inbox[i].id < id)
    && (forall i :: 0 <= i < |link.outbox| ==> link.outbox[i].answers.id < id)
  }

  lemma Foremost(link: Link, request: Request, response: Response)
    requires Below(link, request.id)
    ensures var inbox := link.inbox + [request];
      var outbox := link.outbox + [Reply(inbox[0], response)];
      outbox[0].answers == request <==> Empty(link)
  {
  }

  /** One exchange is paired exactly when nothing was on the connection before it. The server
      answers in turn; whatever else is in flight belongs to earlier requests. */
  lemma PairedExactlyWhenEmpty(s: State, t: Caller, response: Response)
    requires s.At(t).Armed? && s.session.Consistent() && s.session.conn.Some?
    requires s.session.conn.value < |s.links|
    requires Below(s.links[s.session.conn.value], s.At(t).request.id)
    ensures var c := s.session.conn.value;
      var steps := [Write(t, true, true)] + ([Answer(c, response)] + [Read(t, true)]);
      && Run(s, steps).Some?
      && Run(s, steps).value.At(t).Leaving?
      && (Paired(Run(s, steps).value.At(t).out) <==> Empty(s.links[c]))
  {
    var c := s.session.conn.value;
    var s1 := Apply(s, Write(t, true, true)).value;
    RunCons(s, Write(t, true, true), [Answer(c, response)] + [Read(t, true)]);
    assert s1.links[c].inbox == s.links[c].inbox + [s.At(t).request] && s1.links[c].outbox == s.links[c].outbox;
    var s2 := Apply(s1, Answer(c, response)).value;
    RunCons(s1, Answer(c, response), [Read(t, true)]);
    RunOne(s2, Read(t, true));
    Foremost(s.links[c], s.At(t).request, response);
  }

  // ------------------------------------------------------------------ the shift persists

  /** The server answers every request in turn. */
  ghost predicate Prompt(steps: seq<Step>) {
    forall step :: step in steps ==> !step.Push? && !step.Ignore?
  }

  /** The reply that the next reader of the link gets, or the request that it will answer. */
  function Head(link: Link): Request
    requires !Empty(link)
  {
    if link.outbox != [] then link.outbox[0].answers else link.inbox[0]
  }

  predicate Late(out: Outcome) {
    out.Replied? ==> out.reply.answers.id < out.request.id
  }

  /** There is one message too many on the link: it never runs empty, and whoever waits for a reply
      has that of an earlier request in front of him. */
  ghost predicate Behind(s: State, link: Link) {
    && Below(link, s.session.nextID + 1)
    && Outstanding(link) > 0
    && (s.holder.Some? ==>
          match s.At(s.holder.value)
          case Armed(request) => request.id == s.session.nextID && Below(link, request.id)
          case Sent(request) =>
            request.id == s.session.nextID && Outstanding(link) > 1 && Head(link).id < request.id
          case Dropping(out, _) => Late(out)
          case Leaving(out) => Late(out)
          case _ => true)
  }

  /** As long as connection c is live it is behind, and every reply since the n-th call was late. */
  ghost predicate Shifted(s: State, c: Conn, n: nat) {
    && c < |s.links| && n <= |s.history|
    && (s.session.conn == Some(c) ==>
          Behind(s, s.links[c]) && forall i :: n <= i < |s.history| ==> Late(s.history[i].out))
  }

  lemma ShiftBefore(s: State, step: Step, c: Conn, n: nat)
    requires Exclusive(s) && Wired(s) && Shifted(s, c, n) && Apply(s, step).Some?
    requires step.Begin? || step.Acquire? || step.Connect? || step.Arm? || step.Shut?
    ensures Shifted(Apply(s, step).value, c, n)
  {
    match step
    case Begin(t, op) =>
    case Acquire(t) =>
    case Connect(t, err) =>
    case Arm(t, ok) =>
    case Shut(t) =>
  }

  lemma ShiftWrite(s: State, step: Step, c: Conn, n: nat)
    requires Exclusive(s) && Wired(s) && Shifted(s, c, n) && Apply(s, step).Some?
    requires step.Write?
    ensures Shifted(Apply(s, step).value, c, n)
  {
  }

  lemma ShiftRead(s: State, step: Step, c: Conn, n: nat)
    requires Exclusive(s) && Wired(s) && Shifted(s, c, n) && Apply(s, step).Some?
    requires step.Read?
    ensures Shifted(Apply(s, step).value, c, n)
  {
  }

  lemma ShiftAfter(s: State, step: Step, c: Conn, n: nat)
    requires Exclusive(s) && Wired(s) && Shifted(s, c, n) && Apply(s, step).Some?
    requires step.Drop? || step.Release?
    ensures Shifted(Apply(s, step).value, c, n)
  {
  }

  lemma ShiftAnswer(s: State, step: Step, c: Conn, n: nat)
    requires Exclusive(s) && Wired(s) && Shifted(s, c, n) && Apply(s, step).Some?
    requires step.Answer?
    ensures Shifted(Apply(s, step).value, c, n)
  {
  }

  lemma ShiftStep(s: State, step: Step, c: Conn, n: nat)
    requires Exclusive(s) && Wired(s) && Shifted(s, c, n) && Apply(s, step).Some?
    requires !step.Push? && !step.Ignore?
    ensures Shifted(Apply(s, step).value, c, n)
  {
    match step
    case Write(_, _, _) => ShiftWrite(s, step, c, n);
    case Read(_, _) => ShiftRead(s, step, c, n);
    case Drop(_) => ShiftAfter(s, step, c, n);
    case Release(_) => ShiftAfter(s, step, c, n);
    case Answer(_, _) => ShiftAnswer(s, step, c, n);
    case _ => ShiftBefore(s, step, c, n);
  }

  lemma {:induction false} RunShifted(s: State, steps: seq<Step>, c: Conn, n: nat)
    requires Sound(s) && Shifted(s, c, n)
    requires Prompt(steps) && Run(s, steps).Some?
    ensures Shifted(Run(s, steps).value, c, n)
    decreases |steps|
  {
    if steps != [] {
      assert steps[0] in steps;
      ShiftStep(s, steps[0], c, n);
      SoundStep(s, steps[0]);
      RunShifted(Apply(s, steps[0]).value, steps[1..], c, n);
    }
  }

  /** After one reply out of turn, and until the connection is dropped, every call by anybody that
      gets a reply gets that of an earlier request. */
  lemma OutOfTurnReplyShiftsAllLater(steps: seq<Step>, reply: Reply, more: seq<Step>)
    requires InTurn(steps) && Prompt(more) && Run(INIT, steps).Some?
    requires var s := Run(INIT, steps).value;
      && s.holder == None && s.session.conn.Some? && reply.answers.id <= s.session.nextID
      && Run(s, [Push(s.session.conn.value, reply)] + more).Some?
    ensures var s := Run(INIT, steps).value;
      var r := Run(s, [Push(s.session.conn.value, reply)] + more).value;
      r.session.conn == s.session.conn ==>
        && |s.history| <= |r.history|
        && forall i :: |s.history| <= i < |r.history| && r.history[i].out.Replied? ==>
             r.history[i].out.reply.answers.id < r.history[i].out.request.id
  {
    InitInv();
    RunInv(INIT, steps, 0);
    var s := Run(INIT, steps).value;
    var c := s.session.conn.value;
    var pushed := Apply(s, Push(c, reply)).value;
    RunCons(s, Push(c, reply), more);
    SoundStep(s, Push(c, reply));
    assert pushed.links[c] == Link([], [] + [reply]);
    RunShifted(pushed, more, c, |s.history|);
  }

  lemma InTurnAppend(a: seq<Step>, b: seq<Step>)
    requires InTurn(a) && InTurn(b)
    ensures InTurn(a + b)
  {
  }

  lemma ExchangeStepsInTurn(session: Session, t: Caller, io: Io)
    requires session.conn.Some?
    ensures InTurn(ExchangeSteps(session, t, io))
  {
    var read := ReadSteps(session, t, io);
    assert InTurn(CloseSteps(t));
    if io.decoded == None {
      InTurnAppend([Read(t, false)], CloseSteps(t));
    } else {
      InTurnAppend([Answer(session.conn.value, io.decoded.value)], [Read(t, true)] + [Release(t)]);
    }
    assert InTurn(read);
    InTurnAppend([Write(t, io.encoded, io.encoded)], if io.encoded then read else CloseSteps(t));
    InTurnAppend([Arm(t, io.deadlineSet)], if io.deadlineSet then WriteSteps(session, t, io) else CloseSteps(t));
  }

  lemma CallStepsInTurn(cfg: Config, s: Session, t: Caller, name: string, params: Option<seq<string>>, io: Io)
    ensures InTurn(CallSteps(cfg, s, t, name, params, io))
  {
    var err := ConnectFailure(cfg, s, io);
    if err == None {
      ExchangeStepsInTurn(AfterConnect(cfg, s, io), t, io);
    }
    var last := if err.Some? then [Release(t)] else ExchangeSteps(AfterConnect(cfg, s, io), t, io);
    InTurnAppend([Connect(t, err)], last);
    InTurnAppend([Acquire(t)], [Connect(t, err)] + last);
    InTurnAppend([Begin(t, Calling(name, params))], [Acquire(t)] + ([Connect(t, err)] + last));
  }

  const ONE_ANSWER: Response := Response(Null, Null, 1)
  const ANSWERED: Io := Io(Some("ovs-vswitchd.ctl"), Some(0), 0, true, true, 0, Some(ONE_ANSWER), 0)

  lemma NextCallInTurn(t: Caller, name: string, params: Option<seq<string>>)
    ensures InTurn(NextCall(t, name, params))
  {
    assert InTurn(ReadFirst(t));
    InTurnAppend([Arm(t, true)], ReadFirst(t));
    InTurnAppend([Connect(t, None)], [Arm(t, true)] + ReadFirst(t));
  }

  lemma FirstCall(cfg: Config, t: Caller, name: string) returns (first: seq<Step>)
    ensures InTurn(first) && Run(INIT, first).Some?
    ensures var s := Run(INIT, first).value;
      Quiet(s, t) && s.session == Session(Some(0), Some(0), Some(0), 1)
  {
    first := CallSteps(cfg, NEW_SESSION, t, name, None, ANSWERED);
    CallStepsInTurn(cfg, NEW_SESSION, t, name, None, ANSWERED);
    CallIsARun(cfg, INIT, t, name, None, ANSWERED);
    UnlockedIsQuiet(first, t);
  }

  /** A run from the start in which a call is answered, its answer arrives again, and the next call
      returns it. */
  lemma Mispairs(cfg: Config, t: Caller, name: string) returns (steps: seq<Step>)
    ensures Run(INIT, steps).Some?
    ensures exists f :: f in Run(INIT, steps).value.history && !Paired(f.out)
    ensures exists first, reply, more :: steps == first + ([Push(0, reply)] + more) && InTurn(first) && InTurn(more)
  {
    var first := FirstCall(cfg, t, name);
    var s := Run(INIT, first).value;
    var reply := Reply(NewRequest(1, name, None), ONE_ANSWER);
    var more := NextCall(t, name, None);
    OutOfTurnReplyIsReturned(s, t, name, None, reply);
    NextCallInTurn(t, name, None);
    RunAppend(INIT, first, [Push(0, reply)] + more);
    steps := first + ([Push(0, reply)] + more);
    assert Last(Run(s, [Push(0, reply)] + more).value.history) in Run(INIT, steps).value.history;
  }
}
