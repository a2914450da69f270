/** The readiness check of the exporter: exactly which timeouts and intervals it is safe for. */
module Readiness {
  import opened Wrappers
  import opened Sequences
  import opened Clock
  import opened Scraper
  import opened Unixctl
  import opened FiveCalls
  import opened ClientScraper
  import Runs = ScraperRuns

  ghost predicate Succeeds<T>(e: Setup<T>, r: Refreshed) {
    e.make(r.Texts(e.cfg)).err == None
  }

  /** The refreshes so far succeeded, and the running one is going to. */
  ghost predicate AllSucceed<T>(e: Setup<T>, w: World<T>) {
    && (forall i :: 0 <= i < |w.finished| ==> Succeeds(e, w.finished[i]))
    && (w.run.phase.Refreshing? ==> Succeeds(e, w.current))
  }

  /** A moment after the first outcome of a run without failures. */
  ghost predicate Watched<T>(e: Setup<T>, start: Time, ios: Ios, moves: seq<Move>, w: World<T>) {
    Reaches(e, start, ios, moves, w) && AllSucceed(e, w) && w.finished != [] && w.run.phase != Runs.Done
  }

  predicate Ready<T>(e: Setup<T>, w: World<T>) {
    w.run.outcome.Some? && Staleness(w.run.outcome.value, Runs.ReadinessThreshold(e.ttl), w.run.now) == None
  }

  /** The check passes at every such moment. */
  ghost predicate AlwaysReady<T(!new)>(e: Setup<T>, start: Time) {
    forall ios: Ios, moves: seq<Move>, w: World<T> :: Watched(e, start, ios, moves, w) ==> Ready(e, w)
  }

  // ------------------------------------------------------------------ the age of the outcome

  ghost predicate NotBefore<T>(w: World<T>, start: Time) {
    && start <= w.current.start <= w.run.now
    && forall i :: 0 <= i < |w.finished| ==> start <= w.finished[i].start <= w.run.now
  }

  lemma {:induction false} RunNotBefore<T>(e: Setup<T>, w: World<T>, moves: seq<Move>, start: Time)
    requires NotBefore(w, start) && Run(e, w, moves).Some?
    ensures NotBefore(Run(e, w, moves).value, start)
    decreases |moves|
  {
    if moves != [] {
      RunNotBefore(e, Apply(e, w, moves[0]).value, moves[1..], start);
    }
  }

  lemma OutcomeIsLast<T>(e: Setup<T>, w: World<T>)
    requires Inv(e, w) && w.finished != []
    ensures w.run.outcome.Some? && w.run.outcome.value.time == Last(w.finished).start
    ensures w.run.outcome.value.success <==> Succeeds(e, Last(w.finished))
  {
    var i := |w.finished| - 1;
    assert w.run.attempts[i] == w.finished[i].Attempted(e);
  }

  lemma RefreshIsBounded(cfg: Config, r: Refreshed)
    requires r.Honest(cfg)
    ensures 0 <= r.End(cfg) - r.start <= 5 * (Max(0, cfg.dialTimeout) + Max(0, cfg.callTimeout))
  {
    CallsAreBounded(cfg, r.session, r.ios, None, r.start, 5);
  }

  lemma TwoInARow<T(!new)>(e: Setup<T>, first: Refreshed, second: Refreshed)
    requires Reports(e.make) && first.Honest(e.cfg) && second.Honest(e.cfg)
    requires Succeeds(e, first) && second.session == first.After(e.cfg)
    ensures (first.End(e.cfg) - first.start) + (second.End(e.cfg) - second.start)
         <= 9 * Max(0, e.cfg.dialTimeout) + 10 * Max(0, e.cfg.callTimeout)
  {
    var texts := first.Texts(e.cfg);
    var i :| 0 <= i < 5 && texts[i].Some?;
    TwoRefreshes(e.cfg, first.session, first.ios, first.start, second.ios, second.start, i);
  }

  /** The times of the last refresh, in every phase. */
  lemma SinceLast<T>(e: Setup<T>, w: World<T>)
    requires Inv(e, w) && w.finished != [] && w.run.phase != Runs.Done
    ensures Last(w.finished).Honest(e.cfg)
    ensures !w.run.phase.Refreshing? ==> w.run.now <= Last(w.finished).End(e.cfg) + Max(0, e.interval)
    ensures w.run.phase.Refreshing? ==>
      && w.current.Honest(e.cfg) && w.current.session == Last(w.finished).After(e.cfg)
      && w.current.start <= Last(w.finished).End(e.cfg) + e.interval
      && w.run.now <= w.current.End(e.cfg)
  {
  }

  /** While refreshes succeed, no outcome is older than the interval and two refreshes on one client,
      which can dial nine times and call ten times. */
  lemma OutcomeAge<T(!new)>(e: Setup<T>, w: World<T>)
    requires Reports(e.make) && Inv(e, w) && w.finished != [] && w.run.phase != Runs.Done
    requires e.interval > 0 && Succeeds(e, Last(w.finished))
    ensures w.run.now - Last(w.finished).start
         <= e.interval + 9 * Max(0, e.cfg.dialTimeout) + 10 * Max(0, e.cfg.callTimeout)
  {
    SinceLast(e, w);
    if w.run.phase.Refreshing? {
      TwoInARow(e, Last(w.finished), w.current);
    } else {
      RefreshIsBounded(e.cfg, Last(w.finished));
    }
  }

  /** What the check sees at such a moment: a success that began at a time of the run. */
  lemma WatchedTimes<T(!new)>(e: Setup<T>, start: Time, ios: Ios, moves: seq<Move>, w: World<T>)
    requires Watched(e, start, ios, moves, w)
    ensures Inv(e, w)
    ensures w.run.outcome.Some? && w.run.outcome.value.success
    ensures start <= w.run.outcome.value.time == Last(w.finished).start <= w.run.now
  {
    ReachesInv(e, start, ios, moves, w);
    RunNotBefore(e, Start(start, ios), moves, start);
    OutcomeIsLast(e, w);
  }

  lemma ReadyWhenTimeoutsFit<T(!new)>(e: Setup<T>, start: Time, ios: Ios, moves: seq<Move>, w: World<T>)
    requires Reports(e.make) && start > 0 && Watched(e, start, ios, moves, w)
    requires e.interval + 9 * Max(0, e.cfg.dialTimeout) + 10 * Max(0, e.cfg.callTimeout) <= 3 * e.ttl
    ensures Ready(e, w)
  {
    WatchedTimes(e, start, ios, moves, w);
    OutcomeAge(e, w);
  }

  // ------------------------------------------------------------------ a timeout in the past

  lemma FirstRefreshFails<T(!new)>(e: Setup<T>, r: Refreshed)
    requires Reports(e.make) && (e.cfg.dialTimeout < 0 || e.cfg.callTimeout < 0)
    requires r.session == NEW_SESSION && r.Honest(e.cfg)
    ensures !Succeeds(e, r)
  {
    NothingReceived(e.cfg, r.ios, r.start, 5);
    var texts := r.Texts(e.cfg);
    assert forall i :: 0 <= i < 5 ==> texts[i] == None;
  }

  lemma NeverAllSucceed<T(!new)>(e: Setup<T>, start: Time, ios: Ios, moves: seq<Move>, w: World<T>)
    requires Reports(e.make) && (e.cfg.dialTimeout < 0 || e.cfg.callTimeout < 0)
    requires Reaches(e, start, ios, moves, w) && w.finished != []
    ensures !AllSucceed(e, w)
  {
    ReachesInv(e, start, ios, moves, w);
    FirstRefreshFails(e, w.finished[0]);
  }

  // ------------------------------------------------------------------ the oldest outcome

  lemma RunCons<T>(e: Setup<T>, w: World<T>, m: Move, rest: seq<Move>)
    requires Apply(e, w, m).Some?
    ensures Run(e, w, [m] + rest) == Run(e, Apply(e, w, m).value, rest)
  {
    assert ([m] + rest)[1..] == rest;
  }

  /** Passing time while a refresh runs takes in the ticks on the way. */
  function Through(interval: Time, d: Time): seq<Move>
    requires interval > 0 && d >= 0
    decreases d
  {
    if d <= interval then [Elapse(d)] else [Elapse(interval)] + ([Tick] + Through(interval, d - interval))
  }

  lemma ToTheTick<T>(e: Setup<T>, w: World<T>, rest: seq<Move>) returns (r: World<T>)
    requires e.interval > 0 && w.run.phase.Refreshing? && w.run.nextTick == Some(w.run.now + e.interval)
    requires w.run.now + e.interval <= w.current.End(e.cfg)
    requires w.run.now + e.interval <= w.run.phase.start + e.Limits().longest
    ensures Run(e, w, [Elapse(e.interval)] + ([Tick] + rest)) == Run(e, r, rest)
    ensures r.run.now == w.run.now + e.interval && r.run.nextTick == Some(r.run.now + e.interval)
    ensures r.run.phase == w.run.phase && r.finished == w.finished && r.current == w.current
  {
    RunCons(e, w, Elapse(e.interval), [Tick] + rest);
    var w1 := Apply(e, w, Elapse(e.interval)).value;
    RunCons(e, w1, Tick, rest);
    r := Apply(e, w1, Tick).value;
  }

  lemma {:induction false} RunThrough<T>(e: Setup<T>, w: World<T>, d: Time)
    requires e.interval > 0 && w.run.phase.Refreshing? && w.run.nextTick == Some(w.run.now + e.interval)
    requires 0 <= d && w.run.now + d <= w.current.End(e.cfg)
    requires w.run.now + d <= w.run.phase.start + e.Limits().longest
    ensures Run(e, w, Through(e.interval, d)).Some?
    ensures var r := Run(e, w, Through(e.interval, d)).value;
      && r.run.now == w.run.now + d && r.run.phase == w.run.phase
      && r.finished == w.finished && r.current == w.current
    decreases d
  {
    if d <= e.interval {
      RunCons(e, w, Elapse(d), []);
      assert [Elapse(d)] + [] == Through(e.interval, d);
    } else {
      var w1 := ToTheTick(e, w, Through(e.interval, d - e.interval));
      RunThrough(e, w1, d - e.interval);
    }
  }

  function FirstMoves<T>(e: Setup<T>, r: Refreshed, rest: seq<Move>): seq<Move> {
    [Elapse(r.End(e.cfg) - r.start)] + ([Finish] + ([Store] + rest))
  }

  /** The state after the first refresh, if that succeeds. */
  function AfterFirst<T>(e: Setup<T>, r: Refreshed): World<T> {
    var a := r.Attempted(e);
    World(
      Runs.State(a.end, Runs.Idle, Some(OutcomeOf(a)), a.result.snap, Some(a.end + e.interval), false, false, [a]),
      r, [r])
  }

  /** The state at the end of the first refresh, before its outcome is stored. */
  function AtEnd<T>(e: Setup<T>, r: Refreshed): World<T> {
    World(Runs.State(r.End(e.cfg), Runs.Refreshing(r.start), None, None, None, false, false, []), r, [])
  }

  lemma FinishFirst<T>(e: Setup<T>, r: Refreshed)
    requires Succeeds(e, r)
    ensures Apply(e, AtEnd(e, r), Finish).Some?
    ensures Apply(e, Apply(e, AtEnd(e, r), Finish).value, Store) == Some(AfterFirst(e, r))
  {
    assert [] + [r.Attempted(e)] == [r.Attempted(e)];
    assert [] + [r] == [r];
  }

  lemma FirstElapse<T>(e: Setup<T>, r: Refreshed, rest: seq<Move>)
    requires r.session == NEW_SESSION && r.start <= r.End(e.cfg) <= r.start + e.Limits().longest
    ensures Run(e, Start(r.start, r.ios), [Elapse(r.End(e.cfg) - r.start)] + rest) == Run(e, AtEnd(e, r), rest)
  {
    RunCons(e, Start(r.start, r.ios), Elapse(r.End(e.cfg) - r.start), rest);
  }

  lemma FirstRefresh<T>(e: Setup<T>, r: Refreshed, rest: seq<Move>)
    requires r.session == NEW_SESSION && r.Honest(e.cfg) && Succeeds(e, r)
    ensures Run(e, Start(r.start, r.ios), FirstMoves(e, r, rest)) == Run(e, AfterFirst(e, r), rest)
  {
    RefreshIsBounded(e.cfg, r);
    FirstElapse(e, r, [Finish] + ([Store] + rest));
    RunFinish(e, r, rest);
  }

  lemma RunFinish<T>(e: Setup<T>, r: Refreshed, rest: seq<Move>)
    requires Succeeds(e, r)
    ensures Run(e, AtEnd(e, r), [Finish] + ([Store] + rest)) == Run(e, AfterFirst(e, r), rest)
  {
    FinishFirst(e, r);
    RunCons(e, AtEnd(e, r), Finish, [Store] + rest);
    RunCons(e, Apply(e, AtEnd(e, r), Finish).value, Store, rest);
  }

  lemma WaitForTick<T>(e: Setup<T>, w: World<T>, rest: seq<Move>) returns (r: World<T>)
    requires e.interval > 0 && w.run.phase == Runs.Idle && !w.run.pending && !w.run.cancelled
    requires w.run.nextTick == Some(w.run.now + e.interval)
    ensures Run(e, w, [Elapse(e.interval)] + ([Tick] + rest)) == Run(e, r, rest)
    ensures r.run.now == w.run.now + e.interval && r.run.phase == Runs.Idle && r.run.pending
    ensures r.run.nextTick == Some(r.run.now + e.interval) && r.current == w.current && r.finished == w.finished
  {
    RunCons(e, w, Elapse(e.interval), [Tick] + rest);
    var w1 := Apply(e, w, Elapse(e.interval)).value;
    RunCons(e, w1, Tick, rest);
    r := Apply(e, w1, Tick).value;
  }

  lemma BeginNow<T>(e: Setup<T>, w: World<T>, next: Refreshed, rest: seq<Move>) returns (r: World<T>)
    requires w.run.phase == Runs.Idle && w.run.pending
    requires next.session == w.current.After(e.cfg) && next.start == w.run.now && next.Honest(e.cfg)
    ensures Run(e, w, [Begin(next.ios)] + rest) == Run(e, r, rest)
    ensures r.run.now == w.run.now && r.run.phase == Runs.Refreshing(r.run.now) && r.run.nextTick == w.run.nextTick
    ensures r.current == next && r.finished == w.finished
  {
    assert Next(e, w, next.ios) == next;
    RunCons(e, w, Begin(next.ios), rest);
    r := Apply(e, w, Begin(next.ios)).value;
  }

  lemma WaitAndBegin<T>(e: Setup<T>, w: World<T>, next: Refreshed, rest: seq<Move>) returns (r: World<T>)
    requires e.interval > 0 && w.run.phase == Runs.Idle && !w.run.pending && !w.run.cancelled
    requires w.run.nextTick == Some(w.run.now + e.interval)
    requires next.session == w.current.After(e.cfg) && next.start == w.run.now + e.interval && next.Honest(e.cfg)
    ensures Run(e, w, [Elapse(e.interval)] + ([Tick] + ([Begin(next.ios)] + rest))) == Run(e, r, rest)
    ensures r.run.now == next.start && r.run.phase == Runs.Refreshing(next.start)
    ensures r.run.nextTick == Some(r.run.now + e.interval)
    ensures r.current == next && r.finished == w.finished
  {
    var w1 := WaitForTick(e, w, [Begin(next.ios)] + rest);
    r := BeginNow(e, w1, next, rest);
  }

  /** A slow refresh of which only the last call is answered. */
  lemma SlowRefreshed<T(!new)>(e: Setup<T>, s: Session, start: Time) returns (r: Refreshed)
    requires Reports(e.make) && e.cfg.dialTimeout > 0 && e.cfg.callTimeout > 0
    ensures r.session == s && r.start == start && r.Honest(e.cfg)
    ensures Succeeds(e, r) && r.After(e.cfg).conn.Some?
    ensures r.End(e.cfg) - start == 5 * e.cfg.callTimeout + (if s.conn.Some? then 4 else 5) * e.cfg.dialTimeout
  {
    SlowRefresh(e.cfg, s, start);
    r := Refreshed(s, SlowIos(e.cfg, s.conn.Some?, start), start);
    assert r.Texts(e.cfg)[4].Some?;
  }

  /** From a scraper that waits, the second slow refresh. */
  lemma SecondRefresh<T(!new)>(e: Setup<T>, w: World<T>) returns (moves: seq<Move>, r: World<T>)
    requires Reports(e.make) && e.interval > 0 && e.cfg.dialTimeout > 0 && e.cfg.callTimeout > 0
    requires w.run.phase == Runs.Idle && !w.run.pending && !w.run.cancelled
    requires w.run.nextTick == Some(w.run.now + e.interval) && w.current.After(e.cfg).conn.Some?
    ensures Run(e, w, moves) == Some(r)
    ensures r.finished == w.finished && r.run.phase.Refreshing? && Succeeds(e, r.current)
    ensures r.run.now == w.run.now + e.interval + 5 * e.cfg.callTimeout + 4 * e.cfg.dialTimeout
  {
    var second := SlowRefreshed(e, w.current.After(e.cfg), w.run.now + e.interval);
    RefreshIsBounded(e.cfg, second);
    var d := second.End(e.cfg) - second.start;
    var last := Through(e.interval, d);
    moves := [Elapse(e.interval)] + ([Tick] + ([Begin(second.ios)] + last));
    var w1 := WaitAndBegin(e, w, second, last);
    RunThrough(e, w1, d);
    r := Run(e, w1, last).value;
  }

  lemma WaitingAfterFirst<T(!new)>(e: Setup<T>, first: Refreshed) returns (rest: seq<Move>, w: World<T>)
    requires Reports(e.make) && e.interval > 0 && e.cfg.dialTimeout > 0 && e.cfg.callTimeout > 0
    requires first.After(e.cfg).conn.Some?
    ensures Run(e, AfterFirst(e, first), rest) == Some(w)
    ensures w.finished == [first] && w.run.phase.Refreshing? && Succeeds(e, w.current)
    ensures w.run.now == first.End(e.cfg) + e.interval + 5 * e.cfg.callTimeout + 4 * e.cfg.dialTimeout
  {
    rest, w := SecondRefresh(e, AfterFirst(e, first));
  }

  lemma FirstReaches<T>(e: Setup<T>, first: Refreshed, rest: seq<Move>, w: World<T>)
    requires e.interval > 0 && first.session == NEW_SESSION && first.Honest(e.cfg) && Succeeds(e, first)
    requires Run(e, AfterFirst(e, first), rest) == Some(w)
    ensures Reaches(e, first.start, first.ios, FirstMoves(e, first, rest), w)
  {
    FirstRefresh(e, first, rest);
    assert Start<T>(first.start, first.ios).current == first;
  }

  lemma FirstIsWatched<T>(e: Setup<T>, first: Refreshed, rest: seq<Move>, w: World<T>)
    requires e.interval > 0 && first.session == NEW_SESSION && first.Honest(e.cfg) && Succeeds(e, first)
    requires Run(e, AfterFirst(e, first), rest) == Some(w)
    requires w.finished == [first] && w.run.phase.Refreshing? && Succeeds(e, w.current)
    ensures Watched(e, first.start, first.ios, FirstMoves(e, first, rest), w)
  {
    FirstReaches(e, first, rest, w);
  }

  /** The bound of OutcomeAge is reached, by two refreshes of which only the last calls are answered. */
  lemma OutcomeAgeIsReached<T(!new)>(e: Setup<T>, start: Time) returns (ios: Ios, moves: seq<Move>, w: World<T>)
    requires Reports(e.make) && e.interval > 0 && e.cfg.dialTimeout > 0 && e.cfg.callTimeout > 0
    ensures Watched(e, start, ios, moves, w)
    ensures w.run.now - Last(w.finished).start == e.interval + 9 * e.cfg.dialTimeout + 10 * e.cfg.callTimeout
  {
    var first := SlowRefreshed(e, NEW_SESSION, start);
    var rest;
    rest, w := WaitingAfterFirst(e, first);
    ios, moves := first.ios, FirstMoves(e, first, rest);
    FirstIsWatched(e, first, rest, w);
  }

  // ------------------------------------------------------------------ the theorem

  /** A scraper of which every refresh succeeds is ready at every moment from its first outcome on
      if and only if the interval, nine dials and ten calls fit into three times the TTL, or else, with
      a timeout in the past, no refresh ever succeeds. */
  lemma AlwaysReadyExactlyWhen<T(!new)>(e: Setup<T>, given: Config, start: Time)
    requires Reports(e.make) && Unixctl.New(given) == Some(e.cfg) && e.interval > 0 && start > 0
    ensures AlwaysReady(e, start) <==>
      || e.cfg.dialTimeout < 0 || e.cfg.callTimeout < 0
      || e.interval + 9 * e.cfg.dialTimeout + 10 * e.cfg.callTimeout <= 3 * e.ttl
  {
    if e.cfg.dialTimeout < 0 || e.cfg.callTimeout < 0 {
      forall ios: Ios, moves: seq<Move>, w: World<T> ensures !Watched(e, start, ios, moves, w) {
        if Reaches(e, start, ios, moves, w) && w.finished != [] {
          NeverAllSucceed(e, start, ios, moves, w);
        }
      }
    } else if e.interval + 9 * e.cfg.dialTimeout + 10 * e.cfg.callTimeout <= 3 * e.ttl {
      forall ios: Ios, moves: seq<Move>, w: World<T> | Watched(e, start, ios, moves, w) ensures Ready(e, w) {
        ReadyWhenTimeoutsFit(e, start, ios, moves, w);
      }
    } else {
      var ios, moves, w := OutcomeAgeIsReached(e, start);
      ReachesInv(e, start, ios, moves, w);
      OutcomeIsLast(e, w);
      assert !Ready(e, w);
    }
  }
}
