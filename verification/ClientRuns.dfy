/** The client shared by concurrent callers, as a step system: every interleaving of callers that
    use Call and Close with a server that may fail at any point. */
module ClientRuns {
  import opened Wrappers
  import opened Sequences
  import opened Unixctl

  type Caller = nat

  /** A reply on the wire and the request that it answers, which the client does not see. */
  datatype Reply = Reply(answers: Request, response: Response)

  /** What has been written to a connection and not been read from it, in either direction. */
  datatype Link = Link(inbox: seq<Request>, outbox: seq<Reply>)

  datatype Op = Calling(name: string, params: Option<seq<string>>) | Closing

  datatype Outcome =
    | Replied(request: Request, reply: Reply)
    | Failure(stage: Stage)
    | Closed

  /** Where a caller is. All states but the first two are inside the lock. */
  datatype Pc =
    | Idle
    | Queued(op: Op)
    | Entered(op: Op)
    | Ready(name: string, params: Option<seq<string>>)
    | Armed(request: Request)
    | Sent(request: Request)
    | Dropping(out: Outcome, unanswered: Option<Request>)
    | Leaving(out: Outcome)
  {
    predicate Outside() {
      Idle? || Queued?
    }

    /** The caller relies on the connection. */
    predicate Using() {
      Ready? || Armed? || Sent?
    }

    /** The request that the caller has handed to the connection and has no reply to. */
    function Own(): Option<Request> {
      if Sent? then Some(request) else if Dropping? then unanswered else None
    }
  }

  /** What a caller asked for and what came of it. */
  datatype Finished = Finished(caller: Caller, op: Op, out: Outcome)

  datatype State = State(
    session: Session,
    holder: Option<Caller>,
    pcs: map<Caller, Pc>,
    asked: map<Caller, Op>,
    links: seq<Link>,
    sent: seq<Request>,
    drops: nat,
    history: seq<Finished>)
  {
    function At(t: Caller): Pc {
      if t in pcs then pcs[t] else Idle
    }

    /** The operation that the caller began last. */
    function Asked(t: Caller): Op {
      if t in asked then asked[t] else Closing
    }

    function Goto(t: Caller, pc: Pc): State {
      this.(pcs := pcs[t := pc])
    }
  }

  const INIT := State(NEW_SESSION, None, map[], map[], [], [], 0, [])

  datatype Step =
    | Begin(t: Caller, op: Op)
    | Acquire(t: Caller)
    | Connect(t: Caller, err: Option<Stage>)
    | Arm(t: Caller, ok: bool)
    | Write(t: Caller, ok: bool, delivered: bool)
    | Read(t: Caller, ok: bool)
    | Shut(t: Caller)
    | Drop(t: Caller)
    | Release(t: Caller)
    | Answer(c: Conn, response: Response)
    | Ignore(c: Conn)
    | Push(c: Conn, reply: Reply)

  function Begun(s: State, t: Caller, op: Op): Option<State> {
    if s.At(t).Idle? then Some(s.Goto(t, Queued(op)).(asked := s.asked[t := op])) else None
  }

  function Acquired(s: State, t: Caller): Option<State> {
    if s.At(t).Queued? && s.holder == None then Some(s.Goto(t, Entered(s.At(t).op)).(holder := Some(t))) else None
  }

  /** ensureConnectedLocked: a fresh connection is empty. */
  function Connecting(s: State, t: Caller, err: Option<Stage>): Option<State> {
    if !(s.At(t).Entered? && s.At(t).op.Calling?) then None
    else
      var ready := s.Goto(t, Ready(s.At(t).op.name, s.At(t).op.params));
      if s.session.conn.Some? then (if err == None then Some(ready) else None)
      else if err.Some? then Some(s.Goto(t, Leaving(Failure(err.value))))
      else Some(ready.(session := s.session.Connected(|s.links|), links := s.links + [Link([], [])]))
  }

  /** The next id is taken before the deadline is set. */
  function Arming(s: State, t: Caller, ok: bool): Option<State> {
    if !s.At(t).Ready? then None
    else
      var next := s.(session := s.session.(nextID := s.session.nextID + 1));
      var req := NewRequest(next.session.nextID, s.At(t).name, s.At(t).params);
      Some(next.Goto(t, if ok then Armed(req) else Dropping(Failure(SetDeadline), None)))
  }

  /** A failed write may still have delivered the request. */
  function Writing(s: State, t: Caller, ok: bool, delivered: bool): Option<State> {
    if !(s.At(t).Armed? && s.session.enc.Some? && s.session.enc.value < |s.links|) then None
    else
      var req := s.At(t).request;
      var c := s.session.enc.value;
      var link := s.links[c].(inbox := s.links[c].inbox + [req]);
      var next := if ok || delivered then s.(links := s.links[c := link], sent := s.sent + [req]) else s;
      Some(next.Goto(t, if ok then Sent(req) else Dropping(Failure(Encode), Some(req))))
  }

  /** The decoder takes the first reply on its connection, whatever id it carries. */
  function Reading(s: State, t: Caller, ok: bool): Option<State> {
    if !(s.At(t).Sent? && s.session.dec.Some? && s.session.dec.value < |s.links|) then None
    else
      var c := s.session.dec.value;
      var outbox := s.links[c].outbox;
      if !ok then Some(s.Goto(t, Dropping(Failure(Decode), Some(s.At(t).request))))
      else if outbox == [] then None
      else
        Some(s.(links := s.links[c := s.links[c].(outbox := outbox[1..])])
              .Goto(t, Leaving(Replied(s.At(t).request, outbox[0]))))
  }

  function Shutting(s: State, t: Caller): Option<State> {
    if s.At(t) == Entered(Closing) then Some(s.Goto(t, Dropping(Closed, None))) else None
  }

  function Disconnecting(s: State, t: Caller): Option<State> {
    if !s.At(t).Dropping? then None
    else
      Some(s.Goto(t, Leaving(s.At(t).out))
            .(session := s.session.Disconnected(), drops := s.drops + if s.session.conn.Some? then 1 else 0))
  }

  function Releasing(s: State, t: Caller): Option<State> {
    if !s.At(t).Leaving? then None
    else Some(s.Goto(t, Idle).(holder := None, history := s.history + [Finished(t, s.Asked(t), s.At(t).out)]))
  }

  /** The server answers the first request that it has on a connection. */
  function Answering(s: State, c: Conn, response: Response): Option<State> {
    if !(c < |s.links| && s.links[c].inbox != []) then None
    else
      var link := s.links[c];
      Some(s.(links := s.links[c := Link(link.inbox[1..], link.outbox + [Reply(link.inbox[0], response)])]))
  }

  /** The server fails to answer it. */
  function Ignoring(s: State, c: Conn): Option<State> {
    if !(c < |s.links| && s.links[c].inbox != []) then None
    else Some(s.(links := s.links[c := s.links[c].(inbox := s.links[c].inbox[1..])]))
  }

  /** The server writes a reply out of turn. */
  function Pushing(s: State, c: Conn, reply: Reply): Option<State> {
    if c < |s.links| then Some(s.(links := s.links[c := s.links[c].(outbox := s.links[c].outbox + [reply])]))
    else None
  }

  function Apply(s: State, step: Step): Option<State> {
    match step
    case Begin(t, op) => Begun(s, t, op)
    case Acquire(t) => Acquired(s, t)
    case Connect(t, err) => Connecting(s, t, err)
    case Arm(t, ok) => Arming(s, t, ok)
    case Write(t, ok, delivered) => Writing(s, t, ok, delivered)
    case Read(t, ok) => Reading(s, t, ok)
    case Shut(t) => Shutting(s, t)
    case Drop(t) => Disconnecting(s, t)
    case Release(t) => Releasing(s, t)
    case Answer(c, response) => Answering(s, c, response)
    case Ignore(c) => Ignoring(s, c)
    case Push(c, reply) => Pushing(s, c, reply)
  }

  function Run(s: State, steps: seq<Step>): Option<State>
    decreases |steps|
  {
    if steps == [] then Some(s)
    else
      var next := Apply(s, steps[0]);
      if next == None then None else Run(next.value, steps[1..])
  }

  /** The server speaks only to answer a request that it has. */
  ghost predicate InTurn(steps: seq<Step>) {
    forall step :: step in steps ==> !step.Push?
  }

  // ------------------------------------------------------------------ what every run keeps

  /** Only the holder of the lock is inside. */
  ghost predicate Exclusive(s: State) {
    && (forall t: Caller :: s.holder != Some(t) ==> s.At(t).Outside())
    && (s.holder.Some? ==> !s.At(s.holder.value).Outside())
  }

  /** The fields belong together, and the live connection is the last one dialled. */
  ghost predicate Wired(s: State) {
    && s.session.Consistent()
    && |s.links| == s.drops + (if s.session.conn.Some? then 1 else 0)
    && (s.session.conn.Some? ==> s.session.conn.value + 1 == |s.links|)
    && (s.holder.Some? && s.At(s.holder.value).Using() ==> s.session.conn.Some?)
  }

  ghost predicate Increasing(sent: seq<Request>) {
    forall i, j :: 0 <= i < j < |sent| ==> sent[i].id < sent[j].id
  }

  /** The ids on the wire increase, also from one connection to the next. */
  ghost predicate Numbered(s: State) {
    && Increasing(s.sent)
    && (forall i :: 0 <= i < |s.sent| ==> s.sent[i].id <= s.session.nextID)
    && (s.holder.Some? && s.At(s.holder.value).Armed? ==>
          && s.At(s.holder.value).request.id == s.session.nextID
          && forall i :: 0 <= i < |s.sent| ==> s.sent[i].id < s.session.nextID)
  }

  /** The request has the name and the parameters of the call. */
  predicate Fits(op: Op, request: Request) {
    && op.Calling? && request.name == op.name
    && request.params == if op.params.Some? then op.params.value else []
  }

  predicate PcFits(op: Op, pc: Pc) {
    match pc
    case Idle => true
    case Queued(o) => o == op
    case Entered(o) => o == op
    case Ready(name, params) => op == Calling(name, params)
    case Armed(request) => Fits(op, request)
    case Sent(request) => Fits(op, request)
    case Dropping(out, request) => !out.Replied? && (request.Some? ==> Fits(op, request.value))
    case Leaving(out) => out.Replied? ==> Fits(op, out.request)
  }

  /** Every caller works on, and every finished one has worked on, what it began with. */
  ghost predicate AsAsked(s: State) {
    && (forall t: Caller :: PcFits(s.Asked(t), s.At(t)))
    && (forall i :: 0 <= i < |s.history| && s.history[i].out.Replied? ==>
          Fits(s.history[i].op, s.history[i].out.request))
  }

  /** This much holds with any server. */
  ghost predicate Sound(s: State) {
    Exclusive(s) && Wired(s) && Numbered(s) && AsAsked(s)
  }

  /** Inside the lock a step moves its caller and nobody else. */
  lemma ExclusiveInside(s: State, r: State, t: Caller, pc: Pc)
    requires Exclusive(s) && s.holder == Some(t) && !pc.Outside()
    requires r.pcs == s.pcs[t := pc] && r.holder == s.holder
    ensures Exclusive(r)
  {
  }

  lemma ExclusiveMove(s: State, step: Step)
    requires Exclusive(s) && Apply(s, step).Some?
    requires step.Connect? || step.Arm? || step.Write? || step.Read? || step.Shut? || step.Drop?
    ensures Exclusive(Apply(s, step).value)
  {
    var r := Apply(s, step).value;
    ExclusiveInside(s, r, step.t, r.At(step.t));
  }

  lemma ExclusiveStep(s: State, step: Step)
    requires Exclusive(s) && Apply(s, step).Some?
    ensures Exclusive(Apply(s, step).value)
  {
    if step.Connect? || step.Arm? || step.Write? || step.Read? || step.Shut? || step.Drop? {
      ExclusiveMove(s, step);
    }
  }

  lemma CallerWired(s: State, step: Step)
    requires Exclusive(s) && Wired(s) && Apply(s, step).Some?
    requires step.Begin? || step.Acquire? || step.Connect? || step.Arm? || step.Shut?
    ensures Wired(Apply(s, step).value)
  {
  }

  lemma OtherWired(s: State, step: Step)
    requires Exclusive(s) && Wired(s) && Apply(s, step).Some?
    requires !(step.Begin? || step.Acquire? || step.Connect? || step.Arm? || step.Shut?)
    ensures Wired(Apply(s, step).value)
  {
  }

  lemma WriteNumbered(s: State, t: Caller, ok: bool, delivered: bool)
    requires Exclusive(s) && Numbered(s) && Writing(s, t, ok, delivered).Some?
    ensures Numbered(Writing(s, t, ok, delivered).value)
  {
    assert s.holder == Some(t);
  }

  lemma ArmNumbered(s: State, t: Caller, ok: bool)
    requires Exclusive(s) && Numbered(s) && Arming(s, t, ok).Some?
    ensures Numbered(Arming(s, t, ok).value)
  {
    assert s.holder == Some(t);
  }

  lemma OtherNumbered(s: State, step: Step)
    requires Exclusive(s) && Numbered(s) && Apply(s, step).Some? && !step.Write? && !step.Arm?
    ensures Numbered(Apply(s, step).value)
  {
    var r := Apply(s, step).value;
    assert r.sent == s.sent && r.session.nextID == s.session.nextID;
    assert r.holder.Some? && r.At(r.holder.value).Armed? ==>
      r.holder == s.holder && r.At(r.holder.value) == s.At(r.holder.value);
  }

  /** A step of caller t that goes on with what it was asked. */
  lemma AskedGoto(s: State, r: State, t: Caller, pc: Pc)
    requires AsAsked(s) && r.pcs == s.pcs[t := pc] && r.asked == s.asked && r.history == s.history
    requires PcFits(s.Asked(t), pc)
    ensures AsAsked(r)
  {
    forall u: Caller ensures PcFits(r.Asked(u), r.At(u)) {
      assert PcFits(s.Asked(u), s.At(u));
    }
  }

  lemma AskedBegin(s: State, t: Caller, op: Op)
    requires AsAsked(s) && Begun(s, t, op).Some?
    ensures AsAsked(Begun(s, t, op).value)
  {
    var r := Begun(s, t, op).value;
    forall u: Caller ensures PcFits(r.Asked(u), r.At(u)) {
      assert PcFits(s.Asked(u), s.At(u));
    }
  }

  lemma AskedRelease(s: State, t: Caller)
    requires AsAsked(s) && Releasing(s, t).Some?
    ensures AsAsked(Releasing(s, t).value)
  {
    var r := Releasing(s, t).value;
    assert PcFits(s.Asked(t), s.At(t));
    forall u: Caller ensures PcFits(r.Asked(u), r.At(u)) {
      assert PcFits(s.Asked(u), s.At(u));
    }
  }

  lemma AskedMove(s: State, step: Step)
    requires AsAsked(s) && Apply(s, step).Some?
    requires step.Acquire? || step.Connect? || step.Arm? || step.Write? || step.Read? || step.Shut? || step.Drop?
    ensures AsAsked(Apply(s, step).value)
  {
    var r := Apply(s, step).value;
    assert PcFits(s.Asked(step.t), s.At(step.t));
    AskedGoto(s, r, step.t, r.At(step.t));
  }

  lemma AskedServer(s: State, step: Step)
    requires AsAsked(s) && Apply(s, step).Some?
    requires step.Answer? || step.Ignore? || step.Push?
    ensures AsAsked(Apply(s, step).value)
  {
    var r := Apply(s, step).value;
    forall u: Caller ensures PcFits(r.Asked(u), r.At(u)) {
      assert PcFits(s.Asked(u), s.At(u));
    }
  }

  lemma AskedStep(s: State, step: Step)
    requires AsAsked(s) && Apply(s, step).Some?
    ensures AsAsked(Apply(s, step).value)
  {
    match step
    case Begin(t, op) => AskedBegin(s, t, op);
    case Release(t) => AskedRelease(s, t);
    case Answer(_, _) => AskedServer(s, step);
    case Ignore(_) => AskedServer(s, step);
    case Push(_, _) => AskedServer(s, step);
    case _ => AskedMove(s, step);
  }

  lemma SoundStep(s: State, step: Step)
    requires Sound(s) && Apply(s, step).Some?
    ensures Sound(Apply(s, step).value)
  {
    ExclusiveStep(s, step);
    AskedStep(s, step);
    if step.Begin? || step.Acquire? || step.Connect? || step.Arm? || step.Shut? {
      CallerWired(s, step);
    } else {
      OtherWired(s, step);
    }
    if step.Write? {
      WriteNumbered(s, step.t, step.ok, step.delivered);
    } else if step.Arm? {
      ArmNumbered(s, step.t, step.ok);
    } else {
      OtherNumbered(s, step);
    }
  }

  lemma {:induction false} RunSound(s: State, steps: seq<Step>)
    requires Sound(s) && Run(s, steps).Some?
    ensures Sound(Run(s, steps).value)
    decreases |steps|
  {
    if steps != [] {
      SoundStep(s, steps[0]);
      RunSound(Apply(s, steps[0]).value, steps[1..]);
    }
  }

  // ------------------------------------------------------------------ what a call leaves behind

  /** Who is about to leave has a connection exactly if it has got a reply. */
  ghost predicate LeavingOk(s: State) {
    forall t: Caller :: s.At(t).Leaving? ==> (s.session.conn.Some? <==> s.At(t).out.Replied?)
  }

  /** A step of the holder that does not make it leave, or makes it leave as it should. */
  lemma LeavingMove(s: State, r: State, t: Caller)
    requires Exclusive(s) && s.holder == Some(t) && r.pcs == s.pcs[t := r.At(t)]
    requires r.At(t).Leaving? ==> (r.session.conn.Some? <==> r.At(t).out.Replied?)
    ensures LeavingOk(r)
  {
    forall u: Caller | u != t ensures r.At(u).Outside() {
      assert r.At(u) == s.At(u);
    }
  }

  lemma LeavingHolder(s: State, step: Step)
    requires Sound(s) && Apply(s, step).Some?
    requires step.Connect? || step.Arm? || step.Write? || step.Read? || step.Shut? || step.Drop?
    ensures LeavingOk(Apply(s, step).value)
  {
    assert PcFits(s.Asked(step.t), s.At(step.t));
    LeavingMove(s, Apply(s, step).value, step.t);
  }

  lemma LeavingOther(s: State, step: Step)
    requires Sound(s) && LeavingOk(s) && Apply(s, step).Some?
    requires !(step.Connect? || step.Arm? || step.Write? || step.Read? || step.Shut? || step.Drop?)
    ensures LeavingOk(Apply(s, step).value)
  {
    var r := Apply(s, step).value;
    forall u: Caller | r.At(u).Leaving? ensures r.session.conn.Some? <==> r.At(u).out.Replied? {
      assert r.At(u) == s.At(u);
    }
  }

  lemma {:induction false} RunLeaving(s: State, steps: seq<Step>)
    requires Sound(s) && LeavingOk(s) && Run(s, steps).Some?
    ensures LeavingOk(Run(s, steps).value)
    decreases |steps|
  {
    if steps != [] {
      SoundStep(s, steps[0]);
      if steps[0].Connect? || steps[0].Arm? || steps[0].Write? || steps[0].Read? || steps[0].Shut? || steps[0].Drop? {
        LeavingHolder(s, steps[0]);
      } else {
        LeavingOther(s, steps[0]);
      }
      RunLeaving(Apply(s, steps[0]).value, steps[1..]);
    }
  }

  lemma InitSound()
    ensures Sound(INIT) && LeavingOk(INIT)
  {
  }

  /** On every run and with any server: a caller that leaves the lock leaves a connection behind exactly
      if it has got a reply; every failure and every Close has dropped it. */
  lemma ConnectedExactlyWhenReplied(steps: seq<Step>, t: Caller)
    requires Run(INIT, steps).Some? && Run(INIT, steps).value.At(t).Leaving?
    ensures var s := Run(INIT, steps).value; s.session.conn.Some? <==> s.At(t).out.Replied?
  {
    InitSound();
    RunLeaving(INIT, steps);
  }

  // ------------------------------------------------------------------ every operation can finish

  /** How far the caller is from leaving when everything fails. */
  function Rank(pc: Pc): nat {
    match pc
    case Leaving(_) => 0
    case Dropping(_, _) => 1
    case Sent(_) => 2
    case Armed(_) => 2
    case Ready(_, _) => 2
    case _ => 3
  }

  /** A step that brings the holder nearer to leaving. */
  function WayOut(s: State, t: Caller): Step
    requires !s.At(t).Outside()
  {
    match s.At(t)
    case Leaving(_) => Release(t)
    case Dropping(_, _) => Drop(t)
    case Sent(_) => Read(t, false)
    case Armed(_) => Write(t, false, false)
    case Ready(_, _) => Arm(t, false)
    case Entered(op) =>
      if op.Closing? then Shut(t) else Connect(t, if s.session.conn.Some? then None else Some(Dial))
  }

  lemma WayOutIsOpen(s: State, t: Caller)
    requires Sound(s) && s.holder == Some(t) && !s.At(t).Leaving? && !s.At(t).Outside()
    ensures Apply(s, WayOut(s, t)).Some?
    ensures var r := Apply(s, WayOut(s, t)).value;
      && r.holder == Some(t) && Rank(r.At(t)) < Rank(s.At(t))
      && r.pcs == s.pcs[t := r.At(t)] && r.history == s.history && r.asked == s.asked
  {
  }

  /** The operation of the caller is finished, and nobody else has moved. */
  ghost predicate Finishes(s: State, r: State, t: Caller) {
    && r.holder == None && r.At(t).Idle? && (forall u: Caller :: u != t ==> r.At(u) == s.At(u))
    && |r.history| == |s.history| + 1 && r.asked == s.asked
    && Last(r.history).caller == t && Last(r.history).op == s.Asked(t)
  }

  lemma {:induction false} HolderCanLeave(s: State, t: Caller) returns (more: seq<Step>)
    requires Sound(s) && s.holder == Some(t)
    ensures Run(s, more).Some? && Sound(Run(s, more).value) && Finishes(s, Run(s, more).value, t)
    decreases Rank(s.At(t))
  {
    assert !s.At(t).Outside();
    var step := WayOut(s, t);
    if s.At(t).Leaving? {
      more := [step];
      SoundStep(s, step);
      RunOne(s, step);
    } else {
      WayOutIsOpen(s, t);
      SoundStep(s, step);
      var rest := HolderCanLeave(Apply(s, step).value, t);
      RunCons(s, step, rest);
      more := [step] + rest;
    }
  }

  lemma HeadAppend(a: seq<Step>, b: seq<Step>)
    requires a != []
    ensures a + b == [a[0]] + (a[1..] + b)
  {
  }

  lemma {:induction false} RunAppend(s: State, a: seq<Step>, b: seq<Step>)
    requires Run(s, a).Some?
    ensures Run(s, a + b) == Run(Run(s, a).value, b)
    decreases |a|
  {
    if a == [] {
      assert a + b == b;
    } else {
      var next := Apply(s, a[0]).value;
      RunAppend(next, a[1..], b);
      HeadAppend(a, b);
      RunCons(s, a[0], a[1..] + b);
    }
  }

  lemma {:induction false} QueuedCanFinish(s: State, t: Caller) returns (more: seq<Step>)
    requires Sound(s) && s.holder == None && s.At(t).Queued?
    ensures Run(s, more).Some? && Finishes(s, Run(s, more).value, t)
  {
    var s1 := Apply(s, Acquire(t)).value;
    SoundStep(s, Acquire(t));
    var rest := HolderCanLeave(s1, t);
    RunCons(s, Acquire(t), rest);
    more := [Acquire(t)] + rest;
  }

  /** There is no deadlock: after every run with any server, every operation that has begun can still
      be finished. */
  lemma EveryCallCanFinish(steps: seq<Step>, t: Caller) returns (more: seq<Step>)
    requires Run(INIT, steps).Some? && !Run(INIT, steps).value.At(t).Idle?
    ensures Run(Run(INIT, steps).value, more).Some?
    ensures var s := Run(INIT, steps).value; var r := Run(s, more).value;
      r.At(t).Idle? && r.history != [] && Last(r.history).caller == t && Last(r.history).op == s.Asked(t)
  {
    InitSound();
    RunSound(INIT, steps);
    var s := Run(INIT, steps).value;
    if s.holder == Some(t) {
      more := HolderCanLeave(s, t);
    } else if s.holder == None {
      more := QueuedCanFinish(s, t);
    } else {
      var first := HolderCanLeave(s, s.holder.value);
      var s1 := Run(s, first).value;
      var rest := QueuedCanFinish(s1, t);
      RunAppend(s, first, rest);
      more := first + rest;
    }
  }

  // ------------------------------------------------------------------ what runs in turn keep

  predicate Empty(link: Link) {
    link.inbox == [] && link.outbox == []
  }

  /** The only message in flight is the request or its reply. */
  predicate Only(link: Link, request: Request) {
    || Empty(link)
    || link == Link([request], [])
    || (link.inbox == [] && |link.outbox| == 1 && link.outbox[0].answers == request)
  }

  /** The request that the holder of the lock has on the live connection, if any. */
  function OwnRequest(s: State): Option<Request> {
    if s.holder.Some? then s.At(s.holder.value).Own() else None
  }

  /** Nothing is in flight on the live connection but the holder's own request or its reply. */
  ghost predicate SingleInFlight(s: State) {
    s.session.conn.Some? && s.session.conn.value < |s.links| ==>
      var link := s.links[s.session.conn.value];
      if OwnRequest(s).Some? then Only(link, OwnRequest(s).value) else Empty(link)
  }

  predicate Paired(out: Outcome) {
    out.Replied? ==> out.reply.answers == out.request
  }

  /** Every reply that was returned since the n-th operation, or is about to be, answers the caller's
      own request. */
  ghost predicate PairedSince(s: State, n: nat) {
    && n <= |s.history|
    && (forall i :: n <= i < |s.history| ==> Paired(s.history[i].out))
    && (s.holder.Some? && s.At(s.holder.value).Leaving? ==> Paired(s.At(s.holder.value).out))
  }

  ghost predicate Inv(s: State, n: nat) {
    Sound(s) && SingleInFlight(s) && PairedSince(s, n)
  }

  lemma InitInv()
    ensures Inv(INIT, 0)
  {
  }

  lemma ConnectStep(s: State, t: Caller, err: Option<Stage>, n: nat)
    requires Inv(s, n) && Connecting(s, t, err).Some?
    ensures var r := Connecting(s, t, err).value; SingleInFlight(r) && PairedSince(r, n)
  {
    assert s.holder == Some(t);
  }

  lemma CallerStep(s: State, step: Step, n: nat)
    requires Inv(s, n) && Apply(s, step).Some?
    requires step.Begin? || step.Acquire? || step.Arm? || step.Shut?
    ensures SingleInFlight(Apply(s, step).value) && PairedSince(Apply(s, step).value, n)
  {
  }

  lemma WriteStep(s: State, t: Caller, ok: bool, delivered: bool, n: nat)
    requires Inv(s, n) && Writing(s, t, ok, delivered).Some?
    ensures var r := Writing(s, t, ok, delivered).value; SingleInFlight(r) && PairedSince(r, n)
  {
    assert s.holder == Some(t);
  }

  lemma ReadStep(s: State, t: Caller, ok: bool, n: nat)
    requires Inv(s, n) && Reading(s, t, ok).Some?
    ensures var r := Reading(s, t, ok).value; SingleInFlight(r) && PairedSince(r, n)
  {
    assert s.holder == Some(t);
  }

  lemma LeaveStep(s: State, step: Step, n: nat)
    requires Inv(s, n) && Apply(s, step).Some?
    requires step.Drop? || step.Release?
    ensures SingleInFlight(Apply(s, step).value) && PairedSince(Apply(s, step).value, n)
  {
  }

  lemma ServerStep(s: State, step: Step, n: nat)
    requires Inv(s, n) && Apply(s, step).Some?
    requires step.Answer? || step.Ignore?
    ensures SingleInFlight(Apply(s, step).value) && PairedSince(Apply(s, step).value, n)
  {
  }

  lemma StepInv(s: State, step: Step, n: nat)
    requires Inv(s, n) && Apply(s, step).Some? && !step.Push?
    ensures Inv(Apply(s, step).value, n)
  {
    SoundStep(s, step);
    match step
    case Connect(t, err) => ConnectStep(s, t, err, n);
    case Write(t, ok, delivered) => WriteStep(s, t, ok, delivered, n);
    case Read(t, ok) => ReadStep(s, t, ok, n);
    case Drop(_) => LeaveStep(s, step, n);
    case Release(_) => LeaveStep(s, step, n);
    case Answer(_, _) => ServerStep(s, step, n);
    case Ignore(_) => ServerStep(s, step, n);
    case _ => CallerStep(s, step, n);
  }

  lemma {:induction false} RunInv(s: State, steps: seq<Step>, n: nat)
    requires Inv(s, n) && InTurn(steps) && Run(s, steps).Some?
    ensures Inv(Run(s, steps).value, n)
    decreases |steps|
  {
    if steps != [] {
      assert steps[0] in steps;
      StepInv(s, steps[0], n);
      RunInv(Apply(s, steps[0]).value, steps[1..], n);
    }
  }

  // ------------------------------------------------------------------ results for all interleavings

  /** What Call returns. */
  function ResultOf(out: Outcome): CallResult
    requires !out.Closed?
  {
    match out
    case Replied(request, reply) => Conclude(request.name, reply.response)
    case Failure(stage) => Failed(stage)
  }

  /** Whatever the interleaving and whatever ids the server writes, a call that got a reply got the
      reply to its own request, the one with the name and the parameters that it was called with. */
  lemma RepliesAnswerTheirCaller(steps: seq<Step>, f: Finished)
    requires InTurn(steps) && Run(INIT, steps).Some? && f in Run(INIT, steps).value.history
    requires f.out.Replied?
    ensures f.out.reply.answers == f.out.request
    ensures f.op.Calling? && f.out.request == NewRequest(f.out.request.id, f.op.name, f.op.params)
    ensures ResultOf(f.out) == Conclude(f.op.name, f.out.reply.response)
  {
    InitInv();
    RunInv(INIT, steps, 0);
  }

  /** Dropping the connection heals the client, whatever the server did before: the calls that finish
      afterwards, with a server that speaks in turn, get their own replies. */
  lemma DropHeals(steps: seq<Step>, more: seq<Step>, i: nat)
    requires Run(INIT, steps).Some? && InTurn(more)
    requires var s := Run(INIT, steps).value;
      && s.holder == None && s.session.conn == None
      && Run(s, more).Some? && |s.history| <= i < |Run(s, more).value.history|
    ensures Paired(Run(Run(INIT, steps).value, more).value.history[i].out)
  {
    InitInv();
    RunSound(INIT, steps);
    var s := Run(INIT, steps).value;
    RunInv(s, more, |s.history|);
  }

  function Outstanding(link: Link): nat {
    |link.inbox| + |link.outbox|
  }

  /** On the live connection at most one request is unanswered or its reply unread, always; it is
      that of the caller inside the lock, who waits for the reply or is about to drop the connection. */
  lemma AtMostOneOutstanding(steps: seq<Step>)
    requires InTurn(steps) && Run(INIT, steps).Some?
    ensures var s := Run(INIT, steps).value;
      && s.session.Consistent()
      && |s.links| - s.drops == (if s.session.conn.Some? then 1 else 0)
      && Increasing(s.sent)
      && (s.session.conn.Some? ==>
            && s.session.conn.value < |s.links|
            && var link := s.links[s.session.conn.value];
            && Outstanding(link) <= 1
            && (Outstanding(link) == 1 ==> OwnRequest(s).Some? && Only(link, OwnRequest(s).value)))
  {
    InitInv();
    RunInv(INIT, steps, 0);
  }

  // ------------------------------------------------------------------ one call as a run

  function CloseSteps(t: Caller): seq<Step> {
    [Drop(t)] + [Release(t)]
  }

  /** The steps of a call that has sent its request. */
  function ReadSteps(session: Session, t: Caller, io: Io): seq<Step>
    requires session.conn.Some?
  {
    if io.decoded == None then [Read(t, false)] + CloseSteps(t)
    else [Answer(session.conn.value, io.decoded.value)] + ([Read(t, true)] + [Release(t)])
  }

  function WriteSteps(session: Session, t: Caller, io: Io): seq<Step>
    requires session.conn.Some?
  {
    [Write(t, io.encoded, io.encoded)] + (if io.encoded then ReadSteps(session, t, io) else CloseSteps(t))
  }

  function ExchangeSteps(session: Session, t: Caller, io: Io): seq<Step>
    requires session.conn.Some?
  {
    [Arm(t, io.deadlineSet)] + (if io.deadlineSet then WriteSteps(session, t, io) else CloseSteps(t))
  }

  function CallSteps(cfg: Config, s: Session, t: Caller, name: string, params: Option<seq<string>>, io: Io): seq<Step> {
    var err := ConnectFailure(cfg, s, io);
    [Begin(t, Calling(name, params))] + ([Acquire(t)] + ([Connect(t, err)] +
      (if err.Some? then [Release(t)] else ExchangeSteps(AfterConnect(cfg, s, io), t, io))))
  }

  lemma RunCons(s: State, step: Step, rest: seq<Step>)
    requires Apply(s, step).Some?
    ensures Run(s, [step] + rest) == Run(Apply(s, step).value, rest)
  {
    assert ([step] + rest)[1..] == rest;
  }

  lemma RunOne(s: State, step: Step)
    requires Apply(s, step).Some?
    ensures Run(s, [step]) == Apply(s, step)
  {
    RunCons(s, step, []);
    assert [step] + [] == [step];
  }

  /** Nobody holds the lock, the caller is idle and the live connection is empty. */
  ghost predicate Quiet(s: State, t: Caller) {
    && s.holder == None && s.At(t).Idle?
    && s.session.Consistent()
    && (s.session.conn.Some? ==> s.session.conn.value < |s.links| && Empty(s.links[s.session.conn.value]))
  }

  /** The caller has left with the given result. */
  ghost predicate Left(s: State, t: Caller, history: seq<Finished>, result: CallResult) {
    && s.holder == None && s.At(t).Idle?
    && |s.history| == |history| + 1 && s.history[..|history|] == history
    && Last(s.history).caller == t && !Last(s.history).out.Closed?
    && ResultOf(Last(s.history).out) == result
  }

  lemma DropAndLeave(s: State, t: Caller)
    requires s.holder == Some(t) && s.At(t).Dropping? && s.At(t).out.Failure?
    ensures Run(s, [Drop(t)] + [Release(t)]).Some?
    ensures var r := Run(s, [Drop(t)] + [Release(t)]).value;
      r.session == s.session.Disconnected() && Left(r, t, s.history, Failed(s.At(t).out.stage))
  {
    RunCons(s, Drop(t), [Release(t)]);
    RunOne(Apply(s, Drop(t)).value, Release(t));
  }

  lemma ReadReply(s: State, t: Caller, io: Io)
    requires s.holder == Some(t) && s.At(t).Sent? && s.session.Consistent() && s.session.conn.Some?
    requires s.session.conn.value < |s.links|
    requires s.links[s.session.conn.value] == Link([s.At(t).request], [])
    ensures Run(s, ReadSteps(s.session, t, io)).Some?
    ensures var r := Run(s, ReadSteps(s.session, t, io)).value;
      && r.session == (if io.decoded == None then s.session.Disconnected() else s.session)
      && Left(r, t, s.history,
              if io.decoded == None then Failed(Decode) else Conclude(s.At(t).request.name, io.decoded.value))
  {
    if io.decoded == None {
      RunCons(s, Read(t, false), CloseSteps(t));
      DropAndLeave(Apply(s, Read(t, false)).value, t);
    } else {
      var answer := Answer(s.session.conn.value, io.decoded.value);
      var s1 := Apply(s, answer).value;
      RunCons(s, answer, [Read(t, true)] + [Release(t)]);
      RunCons(s1, Read(t, true), [Release(t)]);
      RunOne(Apply(s1, Read(t, true)).value, Release(t));
    }
  }

  lemma WriteAndRead(s: State, t: Caller, io: Io)
    requires s.holder == Some(t) && s.At(t).Armed? && s.session.Consistent() && s.session.conn.Some?
    requires s.session.conn.value < |s.links| && Empty(s.links[s.session.conn.value])
    requires io.deadlineSet
    ensures Run(s, WriteSteps(s.session, t, io)).Some?
    ensures var r := Run(s, WriteSteps(s.session, t, io)).value;
      && r.session == (if ExchangeFailure(io) != None then s.session.Disconnected() else s.session)
      && Left(r, t, s.history,
              if ExchangeFailure(io) != None then Failed(ExchangeFailure(io).value)
              else Conclude(s.At(t).request.name, io.decoded.value))
  {
    var write := Write(t, io.encoded, io.encoded);
    var s1 := Apply(s, write).value;
    RunCons(s, write, if io.encoded then ReadSteps(s.session, t, io) else CloseSteps(t));
    if io.encoded {
      assert ReadSteps(s.session, t, io) == ReadSteps(s1.session, t, io);
      ReadReply(s1, t, io);
    } else {
      DropAndLeave(s1, t);
    }
  }

  lemma Exchange(s: State, t: Caller, io: Io)
    requires s.holder == Some(t) && s.At(t).Ready? && s.session.Consistent() && s.session.conn.Some?
    requires s.session.conn.value < |s.links| && Empty(s.links[s.session.conn.value])
    ensures var steps := ExchangeSteps(s.session, t, io);
      && Run(s, steps).Some?
      && Run(s, steps).value.session == AfterExchange(s.session, io)
      && Left(Run(s, steps).value, t, s.history, ResultOfExchange(s.At(t).name, io))
  {
    var arm := Arm(t, io.deadlineSet);
    var s1 := Apply(s, arm).value;
    RunCons(s, arm, if io.deadlineSet then WriteSteps(s.session, t, io) else CloseSteps(t));
    if io.deadlineSet {
      assert WriteSteps(s.session, t, io) == WriteSteps(s1.session, t, io);
      WriteAndRead(s1, t, io);
    } else {
      DropAndLeave(s1, t);
    }
  }

  /** The caller queues for the free lock and gets it. */
  lemma Enter(s: State, t: Caller, op: Op, rest: seq<Step>) returns (r: State)
    requires s.holder == None && s.At(t).Idle?
    ensures Run(s, [Begin(t, op)] + ([Acquire(t)] + rest)) == Run(r, rest)
    ensures r == s.Goto(t, Entered(op)).(holder := Some(t), asked := s.asked[t := op])
  {
    RunCons(s, Begin(t, op), [Acquire(t)] + rest);
    var s1 := Apply(s, Begin(t, op)).value;
    RunCons(s1, Acquire(t), rest);
    r := Apply(s1, Acquire(t)).value;
    assert s.pcs[t := Queued(op)][t := Entered(op)] == s.pcs[t := Entered(op)];
  }

  lemma FailToConnect(s: State, t: Caller, stage: Stage)
    requires s.holder == Some(t) && s.At(t).Entered? && s.At(t).op.Calling? && s.session.conn == None
    ensures var steps := [Connect(t, Some(stage))] + [Release(t)];
      && Run(s, steps).Some?
      && Run(s, steps).value.session == s.session
      && Left(Run(s, steps).value, t, s.history, Failed(stage))
  {
    RunCons(s, Connect(t, Some(stage)), [Release(t)]);
    RunOne(Apply(s, Connect(t, Some(stage))).value, Release(t));
  }

  lemma ConnectAndExchange(s: State, t: Caller, io: Io, dialed: Session)
    requires s.holder == Some(t) && s.At(t).Entered? && s.At(t).op.Calling? && s.session.Consistent()
    requires s.session.conn.Some? ==> s.session.conn.value < |s.links| && Empty(s.links[s.session.conn.value])
    requires dialed == if s.session.conn.Some? then s.session else s.session.Connected(|s.links|)
    ensures var steps := [Connect(t, None)] + ExchangeSteps(dialed, t, io);
      && Run(s, steps).Some?
      && Run(s, steps).value.session == AfterExchange(dialed, io)
      && Left(Run(s, steps).value, t, s.history, ResultOfExchange(s.At(t).op.name, io))
  {
    RunCons(s, Connect(t, None), ExchangeSteps(dialed, t, io));
    Exchange(Apply(s, Connect(t, None)).value, t, io);
  }

  /** The sequential client is one of the runs: from any state in which the caller can run alone,
      the session and the result are those of the method Call. */
  lemma CallIsARun(cfg: Config, s: State, t: Caller, name: string, params: Option<seq<string>>, io: Io)
    requires Quiet(s, t)
    requires s.session.conn == None && io.dialed.Some? ==> io.dialed.value == |s.links|
    ensures var steps := CallSteps(cfg, s.session, t, name, params, io);
      && Run(s, steps).Some?
      && Run(s, steps).value.session == AfterCall(cfg, s.session, io)
      && Left(Run(s, steps).value, t, s.history, ResultOfCall(cfg, s.session, name, io))
  {
    var err := ConnectFailure(cfg, s.session, io);
    if err.Some? {
      var s1 := Enter(s, t, Calling(name, params), [Connect(t, err)] + [Release(t)]);
      FailToConnect(s1, t, err.value);
    } else {
      var dialed := AfterConnect(cfg, s.session, io);
      var s1 := Enter(s, t, Calling(name, params), [Connect(t, None)] + ExchangeSteps(dialed, t, io));
      ConnectAndExchange(s1, t, io, dialed);
    }
  }

  /** So is Close: from any state in which the lock is free, the session is that of the method. */
  lemma CloseIsARun(s: State, t: Caller)
    requires s.holder == None && s.At(t).Idle? && s.session.Consistent()
    ensures var steps := [Begin(t, Closing)] + ([Acquire(t)] + ([Shut(t)] + ([Drop(t)] + [Release(t)])));
      && Run(s, steps).Some?
      && var r := Run(s, steps).value;
         r.session == NEW_SESSION.(nextID := s.session.nextID) && r.holder == None && r.At(t).Idle?
         && r.links == s.links && r.history == s.history + [Finished(t, Closing, Closed)]
  {
    var s1 := Enter(s, t, Closing, [Shut(t)] + ([Drop(t)] + [Release(t)]));
    RunCons(s1, Shut(t), [Drop(t)] + [Release(t)]);
    var s2 := Apply(s1, Shut(t)).value;
    RunCons(s2, Drop(t), [Release(t)]);
    RunOne(Apply(s2, Drop(t)).value, Release(t));
  }

  /** In a run in turn, a state without a lock holder is quiet for every idle caller. */
  lemma UnlockedIsQuiet(steps: seq<Step>, t: Caller)
    requires InTurn(steps) && Run(INIT, steps).Some?
    requires Run(INIT, steps).value.holder == None && Run(INIT, steps).value.At(t).Idle?
    ensures Quiet(Run(INIT, steps).value, t)
  {
    InitInv();
    RunInv(INIT, steps, 0);
  }
}
