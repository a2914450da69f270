/** Run as a timed step system: a ticker whose channel holds one tick, refreshes that take at most
    a given time, and readers between any two steps. */
module ScraperRuns {
  import opened Wrappers
  import opened Sequences
  import opened Clock
  import opened Scraper

  /** The ticker period and the longest refresh. */
  datatype Bounds = Bounds(period: Time, longest: Time) {
    predicate Valid() {
      period > 0 && longest >= 0
    }
  }

  /** A refresh is running; its outcome is stored and its snapshot is not; the loop waits in its
      select; Run has returned. */
  datatype Phase = Refreshing(start: Time) | Storing | Idle | Done

  datatype State<T> = State(
    now: Time,
    phase: Phase,
    outcome: Option<Outcome>,
    snap: Option<T>,
    nextTick: Option<Time>,
    pending: bool,
    cancelled: bool,
    attempts: seq<Attempt<T>>)

  /** Run starts with a refresh, before there is a ticker. */
  function Init<T>(start: Time): State<T> {
    State(start, Refreshing(start), None, None, None, false, false, [])
  }

  datatype Step<T> =
    | Elapse(d: Time)
    | Tick
    | Finish(result: Fetched<T>)
    | Store
    | Begin
    | Cancel
    | Stop

  /** Time passes while the loop waits or a refresh runs, but not past the next tick and not past
      the longest refresh. A loop that has something to receive receives it at once. */
  predicate MayElapse<T>(b: Bounds, s: State<T>, d: Time) {
    && d >= 0
    && (s.nextTick.Some? && s.phase != Done ==> s.now + d <= s.nextTick.value)
    && match s.phase
       case Refreshing(start) => s.now + d <= start + b.longest
       case Storing => d == 0
       case Idle => d == 0 || (!s.pending && !s.cancelled)
       case Done => true
  }

  /** Back in the select; the first time this creates the ticker. */
  function Waiting<T>(b: Bounds, s: State<T>): State<T> {
    s.(phase := Idle, nextTick := if s.nextTick == None then Some(s.now + b.period) else s.nextTick)
  }

  function Finished<T>(b: Bounds, s: State<T>, result: Fetched<T>): State<T>
    requires s.phase.Refreshing?
  {
    var a := Attempt(result, s.phase.start, s.now);
    var stored := s.(outcome := Some(OutcomeOf(a)), attempts := s.attempts + [a]);
    if result.err == None then stored.(phase := Storing) else Waiting(b, stored)
  }

  function Apply<T(==)>(b: Bounds, s: State<T>, step: Step<T>): Option<State<T>> {
    match step
    case Elapse(d) =>
      if MayElapse(b, s, d) then Some(s.(now := s.now + d)) else None
    case Tick =>
      if s.nextTick == Some(s.now) && s.phase != Done then
        Some(s.(nextTick := Some(s.now + b.period), pending := true))
      else None
    case Finish(result) =>
      if s.phase.Refreshing? then Some(Finished(b, s, result)) else None
    case Store =>
      if s.phase.Storing? && s.attempts != [] then Some(Waiting(b, s.(snap := Last(s.attempts).result.snap)))
      else None
    case Begin =>
      if s.phase.Idle? && s.pending then Some(s.(phase := Refreshing(s.now), pending := false)) else None
    case Cancel =>
      Some(s.(cancelled := true))
    case Stop =>
      if s.phase.Idle? && s.cancelled then Some(s.(phase := Done)) else None
  }

  function Run<T(==)>(b: Bounds, s: State<T>, steps: seq<Step<T>>): Option<State<T>>
    decreases |steps|
  {
    if steps == [] then Some(s)
    else
      var next := Apply(b, s, steps[0]);
      if next == None then None else Run(b, next.value, steps[1..])
  }

  // ------------------------------------------------------------------ the age of the outcome

  /** The latest time at which the loop can begin the refresh that replaces an outcome. */
  function LatestBegin(b: Bounds, o: Outcome): Time {
    o.time + b.longest + b.period
  }

  ghost predicate Timed<T>(b: Bounds, s: State<T>) {
    && (s.phase.Idle? ==> s.outcome.Some? && s.nextTick.Some?)
    && (s.phase.Storing? ==> s.outcome.Some?)
    && (s.outcome.Some? && s.phase.Refreshing? ==> s.nextTick.Some?)
    && (s.nextTick.Some? && s.phase != Done ==> s.now <= s.nextTick.value <= s.now + b.period)
    && match s.phase
       case Refreshing(start) =>
         && start <= s.now <= start + b.longest
         && (s.outcome.Some? ==> start <= LatestBegin(b, s.outcome.value))
       case Storing => s.now <= s.outcome.value.time + b.longest
       case Idle =>
         && s.now <= LatestBegin(b, s.outcome.value)
         && (s.pending || s.nextTick.value <= LatestBegin(b, s.outcome.value))
       case Done => true
  }

  lemma StepTimed<T>(b: Bounds, s: State<T>, step: Step<T>)
    requires b.Valid() && Timed(b, s) && Apply(b, s, step).Some?
    ensures Timed(b, Apply(b, s, step).value)
  {
  }

  lemma {:induction false} RunTimed<T>(b: Bounds, s: State<T>, steps: seq<Step<T>>)
    requires b.Valid() && Timed(b, s) && Run(b, s, steps).Some?
    ensures Timed(b, Run(b, s, steps).value)
    decreases |steps|
  {
    if steps != [] {
      StepTimed(b, s, steps[0]);
      RunTimed(b, Apply(b, s, steps[0]).value, steps[1..]);
    }
  }

  /** From the first outcome until Run returns, no outcome is older than the period and two of the
      longest refreshes, also when refreshes overrun the period and ticks are dropped. */
  lemma OutcomeAge<T>(b: Bounds, start: Time, steps: seq<Step<T>>)
    requires b.Valid() && Run(b, Init(start), steps).Some?
    ensures var s := Run(b, Init(start), steps).value;
      s.outcome.Some? && s.phase != Done ==> s.now - s.outcome.value.time <= b.period + 2 * b.longest
  {
    RunTimed(b, Init(start), steps);
  }

  // ------------------------------------------------------------------ the rate of the refreshes

  /** The refreshes that have begun. */
  function Begun<T>(s: State<T>): nat {
    |s.attempts| + if s.phase.Refreshing? then 1 else 0
  }

  function Ticks<T>(steps: seq<Step<T>>): nat
    decreases |steps|
  {
    if steps == [] then 0 else (if steps[0].Tick? then 1 else 0) + Ticks(steps[1..])
  }

  /** After n ticks: every refresh but the first has taken one, and they were a period apart. */
  ghost predicate Paced<T>(b: Bounds, s: State<T>, start: Time, n: nat) {
    && Begun(s) + (if s.pending then 1 else 0) <= n + 1
    && (s.nextTick == None ==> n == 0)
    && start + n * b.period <= s.now
    && (s.nextTick.Some? ==> start + n * b.period + b.period <= s.nextTick.value)
  }

  lemma StepPaced<T>(b: Bounds, s: State<T>, step: Step<T>, start: Time, n: nat)
    requires b.Valid() && Paced(b, s, start, n) && Apply(b, s, step).Some? && !step.Tick?
    ensures Paced(b, Apply(b, s, step).value, start, n)
  {
  }

  lemma TickPaced<T>(b: Bounds, s: State<T>, start: Time, n: nat)
    requires b.Valid() && Paced(b, s, start, n) && Apply(b, s, Tick).Some?
    ensures Paced(b, Apply(b, s, Tick).value, start, n + 1)
  {
    assert (n + 1) * b.period == n * b.period + b.period;
  }

  lemma {:induction false} RunPaced<T>(b: Bounds, s: State<T>, steps: seq<Step<T>>, start: Time, n: nat)
    requires b.Valid() && Paced(b, s, start, n) && Run(b, s, steps).Some?
    ensures Paced(b, Run(b, s, steps).value, start, n + Ticks(steps))
    decreases |steps|
  {
    if steps != [] {
      if steps[0].Tick? {
        TickPaced(b, s, start, n);
        RunPaced(b, Apply(b, s, Tick).value, steps[1..], start, n + 1);
      } else {
        StepPaced(b, s, steps[0], start, n);
        RunPaced(b, Apply(b, s, steps[0]).value, steps[1..], start, n);
      }
    }
  }

  lemma TimesPeriod(a: int, n: int, period: Time)
    requires a <= n && period > 0
    ensures a * period <= n * period
  {
  }

  /** Every refresh but the first takes a tick of its own, so at any moment of a run at most one refresh,
      and one more for every whole period since the start, has begun. */
  lemma RefreshesArePaced<T>(b: Bounds, start: Time, steps: seq<Step<T>>)
    requires b.Valid() && Run(b, Init(start), steps).Some?
    ensures var s := Run(b, Init(start), steps).value;
      && Begun(s) <= 1 + Ticks(steps)
      && (Begun(s) - 1) * b.period <= s.now - start
  {
    var s0: State<T> := Init(start);
    assert 0 * b.period == 0;
    RunPaced(b, s0, steps, start, 0);
    var s := Run(b, s0, steps).value;
    TimesPeriod(Begun(s) - 1, Ticks(steps), b.period);
  }

  // ------------------------------------------------------------------ when Run returns

  lemma {:induction false} RunCancelled<T>(b: Bounds, s: State<T>, steps: seq<Step<T>>)
    requires Run(b, s, steps).Some? && (s.phase.Done? ==> s.cancelled)
    ensures var r := Run(b, s, steps).value;
      && (r.cancelled <==> s.cancelled || Cancel in steps)
      && (r.phase.Done? ==> r.cancelled)
    decreases |steps|
  {
    if steps != [] {
      RunCancelled(b, Apply(b, s, steps[0]).value, steps[1..]);
      assert steps == [steps[0]] + steps[1..];
    }
  }

  lemma {:induction false} DoneIsFinal<T>(b: Bounds, s: State<T>, more: seq<Step<T>>)
    requires s.phase.Done? && Run(b, s, more).Some?
    ensures var r := Run(b, s, more).value;
      r.phase.Done? && r.attempts == s.attempts && r.outcome == s.outcome && r.snap == s.snap
    decreases |more|
  {
    if more != [] {
      DoneIsFinal(b, Apply(b, s, more[0]).value, more[1..]);
    }
  }

  /** Run returns only after a cancellation, and from then on nothing is refreshed or stored. */
  lemma ReturnsOnlyWhenCancelled<T>(b: Bounds, start: Time, steps: seq<Step<T>>, more: seq<Step<T>>)
    requires Run(b, Init(start), steps).Some? && Run(b, Init(start), steps).value.phase.Done?
    requires Run(b, Run(b, Init(start), steps).value, more).Some?
    ensures Cancel in steps
    ensures var s := Run(b, Init(start), steps).value;
      var r := Run(b, s, more).value;
      r.attempts == s.attempts && r.outcome == s.outcome && r.snap == s.snap
  {
    RunCancelled(b, Init(start), steps);
    DoneIsFinal(b, Run(b, Init(start), steps).value, more);
  }

  // ------------------------------------------------------------------ the readiness threshold

  /** The readiness check allows three periods. */
  function ReadinessThreshold(period: Time): Time {
    3 * period
  }

  ghost predicate AllSucceed<T>(steps: seq<Step<T>>) {
    forall step :: step in steps && step.Finish? ==> step.result.err == None
  }

  /** Every outcome so far is a success, and no clock reading is before the start. */
  ghost predicate Healthy<T>(s: State<T>, start: Time) {
    && start <= s.now
    && (s.phase.Refreshing? ==> start <= s.phase.start)
    && (s.outcome.Some? ==> s.outcome.value.success && start <= s.outcome.value.time)
  }

  lemma {:induction false} RunHealthy<T>(b: Bounds, s: State<T>, steps: seq<Step<T>>, start: Time)
    requires Healthy(s, start) && AllSucceed(steps) && Run(b, s, steps).Some?
    ensures Healthy(Run(b, s, steps).value, start)
    decreases |steps|
  {
    if steps != [] {
      assert steps[0] in steps;
      RunHealthy(b, Apply(b, s, steps[0]).value, steps[1..], start);
    }
  }

  /** A run of successful refreshes that has an outcome and goes on. */
  ghost predicate Watched<T>(b: Bounds, start: Time, steps: seq<Step<T>>) {
    && AllSucceed(steps)
    && Run(b, Init(start), steps).Some?
    && Run(b, Init(start), steps).value.outcome.Some?
    && Run(b, Init(start), steps).value.phase != Done
  }

  /** The readiness check passes at the end of every such run. */
  ghost predicate AlwaysReady<T(!new)>(b: Bounds, start: Time) {
    forall steps: seq<Step<T>> :: Watched(b, start, steps) ==>
      var s := Run(b, Init(start), steps).value;
      Staleness(s.outcome.value, ReadinessThreshold(b.period), s.now) == None
  }

  lemma ReadyWhenRefreshesFit<T>(b: Bounds, start: Time, steps: seq<Step<T>>)
    requires b.Valid() && start > 0 && b.longest <= b.period && Watched(b, start, steps)
    ensures var s := Run(b, Init(start), steps).value;
      Staleness(s.outcome.value, ReadinessThreshold(b.period), s.now) == None
  {
    OutcomeAge(b, start, steps);
    RunHealthy(b, Init(start), steps, start);
  }

  lemma RunCons<T>(b: Bounds, s: State<T>, step: Step<T>, rest: seq<Step<T>>)
    requires Apply(b, s, step).Some?
    ensures Run(b, s, [step] + rest) == Run(b, Apply(b, s, step).value, rest)
  {
    assert ([step] + rest)[1..] == rest;
  }

  /** Passing time while a refresh runs takes in the ticks on the way. */
  function Through<T>(b: Bounds, d: Time): seq<Step<T>>
    requires b.Valid() && d >= 0
    decreases d
  {
    if d <= b.period then [Elapse(d)] else [Elapse(b.period)] + ([Tick] + Through(b, d - b.period))
  }

  lemma {:induction false} RunThrough<T>(b: Bounds, s: State<T>, d: Time)
    requires b.Valid() && s.phase.Refreshing? && s.nextTick == Some(s.now + b.period)
    requires 0 <= d && s.now + d <= s.phase.start + b.longest
    ensures Run(b, s, Through(b, d)).Some?
    ensures var r := Run(b, s, Through(b, d)).value;
      r.now == s.now + d && r.phase == s.phase && r.outcome == s.outcome
    decreases d
  {
    if d <= b.period {
      RunCons(b, s, Elapse(d), []);
      assert [Step<T>.Elapse(d)] + [] == Through(b, d);
    } else {
      var s1 := Apply(b, s, Elapse(b.period)).value;
      RunCons(b, s, Elapse(b.period), [Tick] + Through(b, d - b.period));
      RunCons(b, s1, Tick, Through(b, d - b.period));
      RunThrough(b, Apply(b, s1, Tick).value, d - b.period);
    }
  }

  /** Two slow refreshes, the second begun a whole period after the first. */
  function Slow<T>(b: Bounds, value: T): seq<Step<T>>
    requires b.Valid()
  {
    [Elapse(b.longest)] + ([Finish(Fetched(Some(value), None))] + ([Store] + ([Elapse(b.period)] +
      ([Tick] + ([Begin] + Through(b, b.longest))))))
  }

  lemma {:induction false} ThroughSucceeds<T>(b: Bounds, d: Time)
    requires b.Valid() && d >= 0
    ensures forall step :: step in Through<T>(b, d) ==> !step.Finish?
    decreases d
  {
    if d > b.period {
      ThroughSucceeds<T>(b, d - b.period);
    }
  }

  lemma FirstRefresh<T>(b: Bounds, start: Time, value: T, rest: seq<Step<T>>) returns (r: State<T>)
    requires b.Valid()
    ensures Run(b, Init(start), [Elapse(b.longest)] + ([Finish(Fetched(Some(value), None))] + ([Store] + rest)))
         == Run(b, r, rest)
    ensures r.phase == Idle && r.now == start + b.longest && !r.pending && !r.cancelled
    ensures r.nextTick == Some(r.now + b.period) && r.outcome == Some(Outcome(start, b.longest, true, None))
  {
    var ok := Finish(Fetched(Some(value), None));
    var s0: State<T> := Init(start);
    RunCons(b, s0, Elapse(b.longest), [ok] + ([Store] + rest));
    var s1 := Apply(b, s0, Elapse(b.longest)).value;
    RunCons(b, s1, ok, [Store] + rest);
    var s2 := Apply(b, s1, ok).value;
    RunCons(b, s2, Store, rest);
    r := Apply(b, s2, Store).value;
  }

  lemma WaitAndBegin<T>(b: Bounds, s: State<T>, rest: seq<Step<T>>) returns (r: State<T>)
    requires b.Valid() && s.phase.Idle? && !s.pending && !s.cancelled && s.nextTick == Some(s.now + b.period)
    ensures Run(b, s, [Elapse(b.period)] + ([Tick] + ([Begin] + rest))) == Run(b, r, rest)
    ensures r.now == s.now + b.period && r.phase == Refreshing(r.now)
    ensures r.nextTick == Some(r.now + b.period) && r.outcome == s.outcome
  {
    RunCons(b, s, Elapse(b.period), [Tick] + ([Begin] + rest));
    var s1 := Apply(b, s, Elapse(b.period)).value;
    RunCons(b, s1, Tick, [Begin] + rest);
    var s2 := Apply(b, s1, Tick).value;
    RunCons(b, s2, Begin, rest);
    r := Apply(b, s2, Begin).value;
  }

  lemma AllSucceedCons<T>(step: Step<T>, rest: seq<Step<T>>)
    requires AllSucceed(rest) && (step.Finish? ==> step.result.err == None)
    ensures AllSucceed([step] + rest)
  {
  }

  lemma SlowSucceeds<T>(b: Bounds, value: T)
    requires b.Valid()
    ensures AllSucceed(Slow(b, value))
  {
    var s1: seq<Step<T>> := Through(b, b.longest);
    var s2 := [Begin] + s1;
    var s3 := [Tick] + s2;
    var s4 := [Elapse(b.period)] + s3;
    var s5 := [Store] + s4;
    ThroughSucceeds<T>(b, b.longest);
    AllSucceedCons(Begin, s1);
    AllSucceedCons(Tick, s2);
    AllSucceedCons(Elapse(b.period), s3);
    AllSucceedCons(Store, s4);
    AllSucceedCons(Finish(Fetched(Some(value), None)), s5);
    AllSucceedCons(Elapse(b.longest), [Finish(Fetched(Some(value), None))] + s5);
  }

  /** The bound of OutcomeAge is reached, by a run without failures. */
  lemma OutcomeAgeIsReached<T>(b: Bounds, start: Time, value: T)
    requires b.Valid()
    ensures Watched(b, start, Slow(b, value))
    ensures var s := Run(b, Init(start), Slow(b, value)).value;
      s.now - s.outcome.value.time == b.period + 2 * b.longest
  {
    var last: seq<Step<T>> := Through(b, b.longest);
    var s1 := FirstRefresh(b, start, value, [Elapse(b.period)] + ([Tick] + ([Begin] + last)));
    var s2 := WaitAndBegin(b, s1, last);
    RunThrough(b, s2, b.longest);
    SlowSucceeds(b, value);
  }

  /** The threshold of three periods is tight: a scraper whose refreshes all succeed is ready at
      every moment from its first outcome on if and only if no refresh takes longer than a period. */
  lemma AlwaysReadyExactlyWhen<T(!new)>(b: Bounds, start: Time, value: T)
    requires b.Valid() && start > 0
    ensures AlwaysReady<T>(b, start) <==> b.longest <= b.period
  {
    if b.longest <= b.period {
      forall steps: seq<Step<T>> | Watched(b, start, steps)
        ensures var s := Run(b, Init(start), steps).value;
          Staleness(s.outcome.value, ReadinessThreshold(b.period), s.now) == None
      {
        ReadyWhenRefreshesFit(b, start, steps);
      }
    } else {
      OutcomeAgeIsReached(b, start, value);
    }
  }

  // ------------------------------------------------------------------ the snapshot

  /** How many successful values have been stored: all of them, but for the moment between the two
      stores of a refresh. */
  function Shown<T>(s: State<T>): int {
    |Successes(s.attempts)| - (if s.phase.Storing? then 1 else 0)
  }

  ghost predicate InStep<T>(s: State<T>) {
    && (s.attempts == [] ==> s.outcome == None)
    && (s.attempts != [] ==> s.outcome == Some(OutcomeOf(Last(s.attempts))))
    && (s.phase.Storing? ==> s.attempts != [] && Last(s.attempts).result.err == None)
    && 0 <= Shown(s)
    && s.snap == Latest(Successes(s.attempts)[..Shown(s)])
  }

  lemma SuccessesNext<T>(attempts: seq<Attempt<T>>, a: Attempt<T>)
    ensures Successes(attempts + [a])
         == if a.result.err == None then Successes(attempts) + [a.result.snap] else Successes(attempts)
  {
    Snoc(attempts, a);
  }

  lemma FinishInStep<T>(b: Bounds, s: State<T>, result: Fetched<T>)
    requires InStep(s) && s.phase.Refreshing?
    ensures var r := Finished(b, s, result);
      InStep(r) && Successes(s.attempts) <= Successes(r.attempts) && Shown(s) == Shown(r)
  {
    var a := Attempt(result, s.phase.start, s.now);
    SuccessesNext(s.attempts, a);
    Snoc(s.attempts, a);
    Snoc(Successes(s.attempts), a.result.snap);
  }

  lemma StoreInStep<T>(b: Bounds, s: State<T>)
    requires InStep(s) && s.phase.Storing?
    ensures var r := Waiting(b, s.(snap := Last(s.attempts).result.snap));
      InStep(r) && Shown(s) + 1 == Shown(r) && r.attempts == s.attempts
  {
    FrontLast(s.attempts);
    SuccessesNext(Front(s.attempts), Last(s.attempts));
    Snoc(Successes(Front(s.attempts)), Last(s.attempts).result.snap);
    var all := Successes(s.attempts);
    assert all[..|all|] == all;
  }

  lemma StepInStep<T>(b: Bounds, s: State<T>, step: Step<T>)
    requires InStep(s) && Apply(b, s, step).Some?
    ensures InStep(Apply(b, s, step).value)
    ensures Successes(s.attempts) <= Successes(Apply(b, s, step).value.attempts)
    ensures Shown(s) <= Shown(Apply(b, s, step).value)
  {
    if step.Finish? {
      FinishInStep(b, s, step.result);
    } else if step.Store? {
      StoreInStep(b, s);
    }
  }

  lemma {:induction false} RunInStep<T>(b: Bounds, s: State<T>, steps: seq<Step<T>>)
    requires InStep(s) && Run(b, s, steps).Some?
    ensures InStep(Run(b, s, steps).value)
    ensures Successes(s.attempts) <= Successes(Run(b, s, steps).value.attempts)
    ensures Shown(s) <= Shown(Run(b, s, steps).value)
    decreases |steps|
  {
    if steps != [] {
      StepInStep(b, s, steps[0]);
      RunInStep(b, Apply(b, s, steps[0]).value, steps[1..]);
    }
  }

  /** What a reader sees: the outcome of the last refresh, and the value of the latest success,
      except that between the two stores it is still the value of the success before. */
  lemma ReadersSee<T>(b: Bounds, start: Time, steps: seq<Step<T>>)
    requires Run(b, Init(start), steps).Some?
    ensures var s := Run(b, Init(start), steps).value;
      && s.outcome == (if s.attempts == [] then None else Some(OutcomeOf(Last(s.attempts))))
      && (!s.phase.Storing? ==> s.snap == Latest(Successes(s.attempts)))
      && (s.phase.Storing? ==> Successes(s.attempts) != [] && s.snap == Latest(Front(Successes(s.attempts))))
  {
    RunInStep(b, Init(start), steps);
  }

  /** A later reader sees the value of the same success as an earlier one, or of a later success. */
  lemma SnapshotsOnlyAdvance<T>(b: Bounds, start: Time, steps: seq<Step<T>>, more: seq<Step<T>>)
    requires Run(b, Init(start), steps).Some?
    requires Run(b, Run(b, Init(start), steps).value, more).Some?
    ensures var s := Run(b, Init(start), steps).value;
      var r := Run(b, s, more).value;
      var all := Successes(r.attempts);
      && 0 <= Shown(s) <= Shown(r) <= |all|
      && s.snap == Latest(all[..Shown(s)])
      && r.snap == Latest(all[..Shown(r)])
  {
    RunInStep(b, Init(start), steps);
    var s := Run(b, Init(start), steps).value;
    RunInStep(b, s, more);
    var all := Successes(Run(b, s, more).value.attempts);
    assert all[..Shown(s)] == Successes(s.attempts)[..Shown(s)];
  }

  // ------------------------------------------------------------------ which refreshes succeeded

  /** The numbers of the successful refreshes. */
  function SuccessIndices<T>(attempts: seq<Attempt<T>>): seq<nat> {
    if attempts == [] then []
    else if Last(attempts).result.err == None then SuccessIndices(Front(attempts)) + [|attempts| - 1]
    else SuccessIndices(Front(attempts))
  }

  lemma {:induction false} SuccessIndicesMeaning<T>(attempts: seq<Attempt<T>>)
    ensures |SuccessIndices(attempts)| == |Successes(attempts)|
    ensures forall k :: 0 <= k < |SuccessIndices(attempts)| ==>
      var i := SuccessIndices(attempts)[k];
      i < |attempts| && attempts[i].result.err == None && Successes(attempts)[k] == attempts[i].result.snap
    ensures forall j, k :: 0 <= j < k < |SuccessIndices(attempts)| ==>
      SuccessIndices(attempts)[j] < SuccessIndices(attempts)[k]
    ensures forall i: nat :: i < |attempts| && attempts[i].result.err == None ==> i in SuccessIndices(attempts)
  {
    if attempts != [] {
      var front := Front(attempts);
      SuccessIndicesMeaning(front);
      FrontLast(attempts);
      forall i: nat | i < |attempts| && attempts[i].result.err == None ensures i in SuccessIndices(attempts) {
        if i < |front| {
          assert front[i] == attempts[i];
          assert i in SuccessIndices(front);
        }
      }
    }
  }

  lemma {:induction false} SuccessIndicesGrow<T>(attempts: seq<Attempt<T>>, more: seq<Attempt<T>>)
    requires attempts <= more
    ensures SuccessIndices(attempts) <= SuccessIndices(more)
  {
    if |attempts| < |more| {
      assert attempts <= Front(more);
      SuccessIndicesGrow(attempts, Front(more));
    } else {
      assert attempts == more;
    }
  }
}
