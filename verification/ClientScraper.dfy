/** The scraper on its client: the timed runs of the scraper in which every refresh makes its five
    calls on one client, whose session goes from each refresh to the next. */
module ClientScraper {
  import opened Wrappers
  import opened Sequences
  import opened Clock
  import opened Scraper
  import opened Unixctl
  import opened FiveCalls
  import Runs = ScraperRuns

  /** What five calls bring. */
  type Received = texts: seq<Option<string>> | |texts| == 5 witness [None, None, None, None, None]

  /** The client's configuration, the scraper's interval, the TTL that the readiness check works with,
      and how a refresh makes its result from what its calls brought. */
  datatype Setup<!T> = Setup(cfg: Config, interval: Time, ttl: Time, make: Received -> Fetched<T>)
  {
    /** The most that five calls can take. */
    function Limits(): Runs.Bounds {
      Runs.Bounds(interval, 5 * (Max(0, cfg.dialTimeout) + Max(0, cfg.callTimeout)))
    }
  }

  /** A refresh returns an error or a snapshot, and an error exactly when no call brought a text. */
  ghost predicate Reports<T(!new)>(make: Received -> Fetched<T>) {
    && (forall texts: Received :: make(texts).err == None <==> make(texts).snap.Some?)
    && (forall texts: Received :: make(texts).err == None <==> exists i :: 0 <= i < 5 && texts[i].Some?)
  }

  /** One refresh: the session that it finds, what the outside world does to its calls, its start. */
  datatype Refreshed = Refreshed(session: Session, ios: Ios, start: Time) {
    function Texts(cfg: Config): Received {
      FiveCalls.Texts(cfg, session, ios)
    }

    function End(cfg: Config): Time {
      StartOf(cfg, session, ios, start, 5)
    }

    function After(cfg: Config): Session {
      Before(cfg, session, ios, 5)
    }

    function Attempted<T>(e: Setup<T>): Attempt<T> {
      Attempt(e.make(Texts(e.cfg)), start, End(e.cfg))
    }

    ghost predicate Honest(cfg: Config) {
      AllHonour(cfg, session, ios, None, start)
    }
  }

  /** The scraper, the refresh that is running or ran last, and the finished refreshes in order. */
  datatype World<T> = World(run: Runs.State<T>, current: Refreshed, finished: seq<Refreshed>)

  /** A refresh begins with what its calls are going to meet. */
  datatype Move =
    | Elapse(d: Time)
    | Tick
    | Finish
    | Store
    | Begin(ios: Ios)
    | Cancel
    | Stop

  function StepOf<T>(e: Setup<T>, w: World<T>, m: Move): Runs.Step<T> {
    match m
    case Elapse(d) => Runs.Elapse(d)
    case Tick => Runs.Tick
    case Finish => Runs.Finish(e.make(w.current.Texts(e.cfg)))
    case Store => Runs.Store
    case Begin(_) => Runs.Begin
    case Cancel => Runs.Cancel
    case Stop => Runs.Stop
  }

  /** The client starts out without a connection. */
  function Start<T>(start: Time, ios: Ios): World<T> {
    World(Runs.Init(start), Refreshed(NEW_SESSION, ios, start), [])
  }

  /** The refresh that would begin now: it finds the session that the last one left. */
  function Next<T>(e: Setup<T>, w: World<T>, ios: Ios): Refreshed {
    Refreshed(w.current.After(e.cfg), ios, w.run.now)
  }

  /** A refresh runs until its last call is done, and no longer. */
  ghost predicate Enabled<T>(e: Setup<T>, w: World<T>, m: Move) {
    match m
    case Elapse(d) => w.run.phase.Refreshing? ==> w.run.now + d <= w.current.End(e.cfg)
    case Finish => w.run.now == w.current.End(e.cfg)
    case Begin(ios) => Next(e, w, ios).Honest(e.cfg)
    case _ => true
  }

  ghost function Apply<T>(e: Setup<T>, w: World<T>, m: Move): Option<World<T>> {
    var run := Runs.Apply(e.Limits(), w.run, StepOf(e, w, m));
    if !Enabled(e, w, m) || run == None then None
    else
      match m
      case Finish => Some(World(run.value, w.current, w.finished + [w.current]))
      case Begin(ios) => Some(World(run.value, Next(e, w, ios), w.finished))
      case _ => Some(w.(run := run.value))
  }

  ghost function Run<T>(e: Setup<T>, w: World<T>, moves: seq<Move>): Option<World<T>>
    decreases |moves|
  {
    if moves == [] then Some(w)
    else
      var next := Apply(e, w, moves[0]);
      if next == None then None else Run(e, next.value, moves[1..])
  }

  // ------------------------------------------------------------------ what every run keeps

  /** The refreshes share the client: each finds the session that the one before it left. */
  ghost predicate Chained(cfg: Config, finished: seq<Refreshed>) {
    && (finished != [] ==> finished[0].session == NEW_SESSION)
    && (forall i :: 0 < i < |finished| ==> finished[i].session == finished[i - 1].After(cfg))
  }

  /** The scraper's attempts are these refreshes. */
  ghost predicate Recorded<T>(e: Setup<T>, attempts: seq<Attempt<T>>, finished: seq<Refreshed>) {
    && |attempts| == |finished|
    && (forall i :: 0 <= i < |finished| ==> attempts[i] == finished[i].Attempted(e))
    && (forall i :: 0 <= i < |finished| ==> finished[i].Honest(e.cfg))
  }

  /** The current refresh is the last one, or runs on the session that the last one left. */
  ghost predicate Current<T>(e: Setup<T>, w: World<T>) {
    && w.current.Honest(e.cfg)
    && if w.run.phase.Refreshing? then
         && w.run.phase.start == w.current.start
         && w.current.session == (if w.finished == [] then NEW_SESSION else Last(w.finished).After(e.cfg))
       else w.finished != [] && w.current == Last(w.finished)
  }

  /** The latest time at which the refresh after a finished one begins. */
  function LatestBegin<T>(e: Setup<T>, r: Refreshed): Time {
    r.End(e.cfg) + e.interval
  }

  ghost predicate Timed<T>(e: Setup<T>, w: World<T>) {
    && (w.run.nextTick.Some? && w.run.phase != Runs.Done ==>
          w.run.now <= w.run.nextTick.value <= w.run.now + e.interval)
    && (w.finished != [] && w.run.phase.Refreshing? ==> w.run.nextTick.Some?)
    && match w.run.phase
       case Refreshing(start) =>
         && start <= w.run.now <= w.current.End(e.cfg)
         && (w.finished != [] ==> start <= LatestBegin(e, Last(w.finished)))
       case Storing => w.run.now == w.current.End(e.cfg)
       case Idle =>
         && w.run.nextTick.Some?
         && w.run.now <= LatestBegin(e, w.current)
         && (w.run.pending || w.run.nextTick.value <= LatestBegin(e, w.current))
       case Done => true
  }

  ghost predicate Inv<T>(e: Setup<T>, w: World<T>) {
    && Recorded(e, w.run.attempts, w.finished) && Chained(e.cfg, w.finished)
    && Current(e, w) && Timed(e, w) && Runs.InStep(w.run)
  }

  lemma StartInv<T>(e: Setup<T>, start: Time, ios: Ios)
    requires Start<T>(start, ios).current.Honest(e.cfg)
    ensures Inv(e, Start(start, ios))
  {
    CallsAreBounded(e.cfg, NEW_SESSION, ios, None, start, 5);
  }

  lemma OneMoreRecorded<T>(e: Setup<T>, attempts: seq<Attempt<T>>, finished: seq<Refreshed>, r: Refreshed)
    requires Recorded(e, attempts, finished) && r.Honest(e.cfg)
    ensures Recorded(e, attempts + [r.Attempted(e)], finished + [r])
  {
    var a := r.Attempted(e);
    forall i | 0 <= i < |finished| + 1
      ensures (attempts + [a])[i] == (finished + [r])[i].Attempted(e) && (finished + [r])[i].Honest(e.cfg)
    {
      if i < |finished| {
        assert (attempts + [a])[i] == attempts[i] && (finished + [r])[i] == finished[i];
      }
    }
  }

  lemma OneMoreChained(cfg: Config, finished: seq<Refreshed>, r: Refreshed)
    requires Chained(cfg, finished)
    requires r.session == if finished == [] then NEW_SESSION else Last(finished).After(cfg)
    ensures Chained(cfg, finished + [r])
  {
    forall i | 0 < i < |finished| + 1 ensures (finished + [r])[i].session == (finished + [r])[i - 1].After(cfg) {
      assert (finished + [r])[i - 1] == finished[i - 1];
    }
  }

  lemma FinishKept<T>(e: Setup<T>, w: World<T>)
    requires Inv(e, w) && Apply(e, w, Finish).Some?
    ensures var r := Apply(e, w, Finish).value;
      Recorded(e, r.run.attempts, r.finished) && Chained(e.cfg, r.finished)
  {
    var r := Apply(e, w, Finish).value;
    FinishRecords(e, w);
    OneMoreRecorded(e, w.run.attempts, w.finished, w.current);
    OneMoreChained(e.cfg, w.finished, w.current);
  }

  lemma FinishRecords<T>(e: Setup<T>, w: World<T>)
    requires Current(e, w) && w.run.phase.Refreshing? && Apply(e, w, Finish).Some?
    ensures var r := Apply(e, w, Finish).value;
      r.run.attempts == w.run.attempts + [w.current.Attempted(e)] && r.finished == w.finished + [w.current]
  {
  }

  lemma FinishCurrent<T>(e: Setup<T>, w: World<T>)
    requires Current(e, w) && Apply(e, w, Finish).Some?
    ensures Current(e, Apply(e, w, Finish).value)
  {
    Snoc(w.finished, w.current);
  }

  lemma FinishTimed<T>(e: Setup<T>, w: World<T>)
    requires e.interval > 0 && Current(e, w) && Timed(e, w) && Apply(e, w, Finish).Some?
    ensures Timed(e, Apply(e, w, Finish).value)
  {
  }

  /** What is finished is not changed again. */
  lemma StepGrows<T>(e: Setup<T>, w: World<T>, m: Move)
    requires Apply(e, w, m).Some?
    ensures var r := Apply(e, w, m).value;
      && w.run.attempts <= r.run.attempts && w.finished <= r.finished
      && (!m.Finish? ==> r.run.attempts == w.run.attempts && r.finished == w.finished)
  {
  }

  lemma BeginCurrent<T>(e: Setup<T>, w: World<T>, ios: Ios)
    requires Current(e, w) && Apply(e, w, Begin(ios)).Some?
    ensures Current(e, Apply(e, w, Begin(ios)).value)
  {
  }

  lemma BeginTimed<T>(e: Setup<T>, w: World<T>, ios: Ios)
    requires Current(e, w) && Timed(e, w) && Apply(e, w, Begin(ios)).Some?
    ensures Timed(e, Apply(e, w, Begin(ios)).value)
  {
    CallsAreBounded(e.cfg, w.current.After(e.cfg), ios, None, w.run.now, 5);
  }

  lemma OtherCurrent<T>(e: Setup<T>, w: World<T>, m: Move)
    requires Current(e, w) && Apply(e, w, m).Some? && !m.Finish? && !m.Begin?
    ensures Current(e, Apply(e, w, m).value)
  {
  }

  lemma ElapseTimed<T>(e: Setup<T>, w: World<T>, d: Time)
    requires Current(e, w) && Timed(e, w) && Apply(e, w, Elapse(d)).Some?
    ensures Timed(e, Apply(e, w, Elapse(d)).value)
  {
  }

  lemma TickTimed<T>(e: Setup<T>, w: World<T>)
    requires e.interval > 0 && Current(e, w) && Timed(e, w) && Apply(e, w, Tick).Some?
    ensures Timed(e, Apply(e, w, Tick).value)
  {
  }

  lemma StoreTimed<T>(e: Setup<T>, w: World<T>)
    requires e.interval > 0 && Current(e, w) && Timed(e, w) && Apply(e, w, Store).Some?
    ensures Timed(e, Apply(e, w, Store).value)
  {
  }

  lemma EndTimed<T>(e: Setup<T>, w: World<T>, m: Move)
    requires Current(e, w) && Timed(e, w) && Apply(e, w, m).Some? && (m.Cancel? || m.Stop?)
    ensures Timed(e, Apply(e, w, m).value)
  {
  }

  lemma StepCurrent<T>(e: Setup<T>, w: World<T>, m: Move)
    requires Current(e, w) && Apply(e, w, m).Some?
    ensures Current(e, Apply(e, w, m).value)
  {
    match m
    case Finish => FinishCurrent(e, w);
    case Begin(ios) => BeginCurrent(e, w, ios);
    case _ => OtherCurrent(e, w, m);
  }

  lemma StepTimed<T>(e: Setup<T>, w: World<T>, m: Move)
    requires e.interval > 0 && Current(e, w) && Timed(e, w) && Apply(e, w, m).Some?
    ensures Timed(e, Apply(e, w, m).value)
  {
    match m
    case Finish => FinishTimed(e, w);
    case Begin(ios) => BeginTimed(e, w, ios);
    case Elapse(d) => ElapseTimed(e, w, d);
    case Tick => TickTimed(e, w);
    case Store => StoreTimed(e, w);
    case _ => EndTimed(e, w, m);
  }

  lemma StepKept<T>(e: Setup<T>, w: World<T>, m: Move)
    requires Inv(e, w) && Apply(e, w, m).Some?
    ensures var r := Apply(e, w, m).value;
      Recorded(e, r.run.attempts, r.finished) && Chained(e.cfg, r.finished)
  {
    if m.Finish? {
      FinishKept(e, w);
    } else {
      StepGrows(e, w, m);
    }
  }

  /** The scraper inside takes one of its own steps. */
  lemma StepInside<T>(e: Setup<T>, w: World<T>, m: Move)
    requires Runs.InStep(w.run) && Apply(e, w, m).Some?
    ensures var r := Apply(e, w, m).value;
      Runs.InStep(r.run) && Runs.Shown(w.run) <= Runs.Shown(r.run)
  {
    Runs.StepInStep(e.Limits(), w.run, StepOf(e, w, m));
  }

  lemma StepInv<T>(e: Setup<T>, w: World<T>, m: Move)
    requires e.interval > 0 && Inv(e, w) && Apply(e, w, m).Some?
    ensures Inv(e, Apply(e, w, m).value)
    ensures Runs.Shown(w.run) <= Runs.Shown(Apply(e, w, m).value.run)
  {
    StepKept(e, w, m);
    StepCurrent(e, w, m);
    StepTimed(e, w, m);
    StepInside(e, w, m);
  }

  lemma {:induction false} RunInv<T>(e: Setup<T>, w: World<T>, moves: seq<Move>)
    requires e.interval > 0 && Inv(e, w) && Run(e, w, moves).Some?
    ensures var r := Run(e, w, moves).value;
      && Inv(e, r)
      && w.run.attempts <= r.run.attempts && w.finished <= r.finished
      && Runs.Shown(w.run) <= Runs.Shown(r.run)
    decreases |moves|
  {
    if moves != [] {
      StepInv(e, w, moves[0]);
      StepGrows(e, w, moves[0]);
      RunInv(e, Apply(e, w, moves[0]).value, moves[1..]);
    }
  }

  /** The given first refresh can happen, and the moves are a run. */
  ghost predicate Reaches<T>(e: Setup<T>, start: Time, ios: Ios, moves: seq<Move>, w: World<T>) {
    && e.interval > 0
    && Start<T>(start, ios).current.Honest(e.cfg)
    && Run(e, Start(start, ios), moves) == Some(w)
  }

  lemma ReachesInv<T>(e: Setup<T>, start: Time, ios: Ios, moves: seq<Move>, w: World<T>)
    requires Reaches(e, start, ios, moves, w)
    ensures Inv(e, w)
  {
    StartInv(e, start, ios);
    RunInv(e, Start(start, ios), moves);
  }

  // ------------------------------------------------------------------ the snapshot

  /** The numbers of the refreshes that succeeded. */
  function Succeeded<T>(w: World<T>): seq<nat> {
    Runs.SuccessIndices(w.run.attempts)
  }

  /** The number of the refresh whose snapshot readers see. */
  function ShownIndex<T>(w: World<T>): nat
    requires 0 < Runs.Shown(w.run) <= |Succeeded(w)|
  {
    Succeeded(w)[Runs.Shown(w.run) - 1]
  }

  lemma ReportsAt<T(!new)>(make: Received -> Fetched<T>, texts: Received)
    requires Reports(make) && make(texts).err == None
    ensures make(texts).snap.Some? && exists i :: 0 <= i < 5 && texts[i].Some?
  {
  }

  /** The attempt whose value readers see. */
  lemma ShownAttempt<T>(w: World<T>)
    requires Runs.InStep(w.run)
    ensures 0 <= Runs.Shown(w.run) <= |Succeeded(w)|
    ensures Runs.Shown(w.run) == 0 ==> w.run.snap == None
    ensures Runs.Shown(w.run) > 0 ==>
      && ShownIndex(w) < |w.run.attempts|
      && w.run.attempts[ShownIndex(w)].result.err == None
      && w.run.snap == w.run.attempts[ShownIndex(w)].result.snap
  {
    Runs.SuccessIndicesMeaning(w.run.attempts);
    var shown, values := Runs.Shown(w.run), Successes(w.run.attempts);
    if shown > 0 {
      assert Last(values[..shown]) == values[shown - 1];
    }
  }

  lemma AttemptOf<T>(e: Setup<T>, attempts: seq<Attempt<T>>, finished: seq<Refreshed>, i: nat)
    requires Recorded(e, attempts, finished) && i < |attempts|
    ensures attempts[i].result == e.make(finished[i].Texts(e.cfg))
  {
    assert attempts[i] == finished[i].Attempted(e);
  }

  lemma SnapshotOf<T(!new)>(e: Setup<T>, w: World<T>)
    requires Reports(e.make) && Recorded(e, w.run.attempts, w.finished) && Runs.InStep(w.run)
    ensures 0 <= Runs.Shown(w.run) <= |Succeeded(w)|
    ensures w.run.snap == None <==> Runs.Shown(w.run) == 0
    ensures w.run.snap.Some? ==>
      && ShownIndex(w) < |w.finished|
      && w.run.snap == e.make(w.finished[ShownIndex(w)].Texts(e.cfg)).snap
      && exists i :: 0 <= i < 5 && w.finished[ShownIndex(w)].Texts(e.cfg)[i].Some?
  {
    ShownAttempt(w);
    if Runs.Shown(w.run) > 0 {
      AttemptOf(e, w.run.attempts, w.finished, ShownIndex(w));
      ReportsAt(e.make, w.finished[ShownIndex(w)].Texts(e.cfg));
    }
  }

  /** It is that of the latest success, or of the one before while the latest is being stored. */
  lemma ShownIsLatest<T>(w: World<T>)
    requires Runs.InStep(w.run) && 0 < Runs.Shown(w.run)
    ensures 0 < Runs.Shown(w.run) <= |Succeeded(w)|
    ensures w.run.phase != Runs.Storing ==> ShownIndex(w) == Last(Succeeded(w))
    ensures w.run.phase == Runs.Storing ==> |Succeeded(w)| > 1 && ShownIndex(w) == Last(Front(Succeeded(w)))
  {
    ShownAttempt(w);
    Runs.SuccessIndicesMeaning(w.run.attempts);
  }

  /** The snapshot that readers see is the one that a certain refresh of the run made, from what its
      own five calls brought on the session that the refresh before it had left. It is the latest
      refresh that succeeded, or the one before while the latest snapshot is being stored. */
  lemma SnapshotIsOfOneRefresh<T(!new)>(e: Setup<T>, start: Time, ios: Ios, moves: seq<Move>, w: World<T>)
    requires Reports(e.make) && Reaches(e, start, ios, moves, w)
    ensures Chained(e.cfg, w.finished)
    ensures w.run.snap.Some? ==>
      && 0 < Runs.Shown(w.run) <= |Succeeded(w)|
      && ShownIndex(w) < |w.finished|
      && w.run.snap == e.make(w.finished[ShownIndex(w)].Texts(e.cfg)).snap
      && (w.run.phase != Runs.Storing ==> ShownIndex(w) == Last(Succeeded(w)))
      && exists i :: 0 <= i < 5 && w.finished[ShownIndex(w)].Texts(e.cfg)[i].Some?
    ensures w.run.phase != Runs.Storing ==> (w.run.snap == None <==> Succeeded(w) == [])
    ensures w.run.phase == Runs.Storing ==>
      && Succeeded(w) != []
      && (w.run.snap == None <==> |Succeeded(w)| == 1)
      && (w.run.snap.Some? ==> ShownIndex(w) == Last(Front(Succeeded(w))))
  {
    ReachesInv(e, start, ios, moves, w);
    SnapshotOf(e, w);
    Runs.SuccessIndicesMeaning(w.run.attempts);
    if w.run.snap.Some? {
      ShownIsLatest(w);
    }
  }

  lemma ShownIndexGrows<T>(w: World<T>, r: World<T>)
    requires w.run.attempts <= r.run.attempts
    requires 0 < Runs.Shown(w.run) <= Runs.Shown(r.run)
    requires Runs.Shown(w.run) <= |Succeeded(w)| && Runs.Shown(r.run) <= |Succeeded(r)|
    ensures ShownIndex(w) <= ShownIndex(r)
  {
    Runs.SuccessIndicesGrow(w.run.attempts, r.run.attempts);
    Runs.SuccessIndicesMeaning(r.run.attempts);
    assert Succeeded(w)[Runs.Shown(w.run) - 1] == Succeeded(r)[Runs.Shown(w.run) - 1];
  }

  /** Once there is a snapshot there always is one, and never of an older refresh. */
  lemma SnapshotNeverGoesBack<T(!new)>(
    e: Setup<T>, start: Time, ios: Ios, moves: seq<Move>, w: World<T>, more: seq<Move>, r: World<T>)
    requires Reports(e.make) && Reaches(e, start, ios, moves, w) && Run(e, w, more) == Some(r)
    ensures w.finished <= r.finished
    ensures w.run.snap.Some? ==>
      && r.run.snap.Some?
      && 0 < Runs.Shown(w.run) <= |Succeeded(w)|
      && 0 < Runs.Shown(r.run) <= |Succeeded(r)|
      && ShownIndex(w) <= ShownIndex(r)
  {
    ReachesInv(e, start, ios, moves, w);
    RunInv(e, w, more);
    SnapshotOf(e, w);
    SnapshotOf(e, r);
    if w.run.snap.Some? {
      ShownIndexGrows(w, r);
    }
  }
}
