/** The scraper: refreshes one after another, and the two cells that readers load. */
module Scraper {
  import opened Wrappers
  import opened Sequences
  import opened Clock

  const DEFAULT_INTERVAL: Time := 15 * SECOND

  /** What a refresh function returns: a pointer and an error. */
  datatype Fetched<T> = Fetched(snap: Option<T>, err: Option<string>)

  /** A refresh that ran from start to end. */
  datatype Attempt<T> = Attempt(result: Fetched<T>, start: Time, end: Time)

  /** The time is that of the start. Zero is the zero time, which no clock shows. */
  datatype Outcome = Outcome(time: Time, duration: Time, success: bool, err: Option<string>)

  const NO_OUTCOME := Outcome(0, 0, false, None)

  function OutcomeOf<T>(a: Attempt<T>): Outcome {
    Outcome(a.start, a.end - a.start, a.result.err == None, a.result.err)
  }

  datatype StaleError = NoAttempt | LastFailed(err: Option<string>) | TooOld(age: Time, maxAge: Time)

  /** What is wrong with an outcome at a given time, if anything is. */
  function Staleness(o: Outcome, maxAge: Time, now: Time): (r: Option<StaleError>)
    ensures r == None <==> o.time != 0 && o.success && now - o.time <= maxAge
    ensures r == Some(NoAttempt) <==> o.time == 0
    ensures o.time != 0 && !o.success ==> r == Some(LastFailed(o.err))
    ensures o.time != 0 && o.success && r.Some? ==> r.value == TooOld(now - o.time, maxAge)
  {
    if o.time == 0 then Some(NoAttempt)
    else if !o.success then Some(LastFailed(o.err))
    else if now - o.time > maxAge then Some(TooOld(now - o.time, maxAge))
    else None
  }

  /** The values that successful refreshes returned, in order. */
  function Successes<T>(attempts: seq<Attempt<T>>): seq<Option<T>> {
    if attempts == [] then []
    else if Last(attempts).result.err == None then Successes(Front(attempts)) + [Last(attempts).result.snap]
    else Successes(Front(attempts))
  }

  /** The value of the latest success, or else nil. */
  function Latest<T>(values: seq<Option<T>>): Option<T> {
    if values == [] then None else Last(values)
  }

  /** The interval of a new scraper; None is an error. */
  function NewScraper(name: string, hasRefresh: bool, hasLogger: bool, interval: Time): (r: Option<Time>)
    ensures r == None <==> name == "" || !hasRefresh || !hasLogger
    ensures r.Some? ==> r.value == if interval == 0 then DEFAULT_INTERVAL else interval
  {
    if name == "" || !hasRefresh || !hasLogger then None
    else Some(if interval == 0 then DEFAULT_INTERVAL else interval)
  }

  class Scraper<T> {
    var snap: Option<T>
    var outcome: Option<Outcome>

    constructor ()
      ensures snap == None && outcome == None
    {
      snap, outcome := None, None;
    }

    method Snapshot() returns (r: Option<T>)
      ensures r == snap
    {
      r := snap;
    }

    method LastOutcome() returns (o: Outcome)
      ensures outcome.Some? ==> o == outcome.value
      ensures outcome == None ==> o == NO_OUTCOME
    {
      if outcome != None {
        return outcome.value;
      }
      return NO_OUTCOME;
    }

    method Stale(maxAge: Time, now: Time) returns (err: Option<StaleError>)
      ensures outcome == None ==> err == Some(NoAttempt)
      ensures outcome.Some? ==> err == Staleness(outcome.value, maxAge, now)
    {
      var o := LastOutcome();
      if o.time == 0 {
        return Some(NoAttempt);
      }
      if !o.success {
        return Some(LastFailed(o.err));
      }
      var age := now - o.time;
      if age > maxAge {
        return Some(TooOld(age, maxAge));
      }
      return None;
    }

    /** Stores the outcome, then the snapshot if there is no error. */
    method Refresh(a: Attempt<T>) returns (err: Option<string>)
      modifies this
      ensures err == a.result.err
      ensures outcome == Some(Outcome(a.start, a.end - a.start, a.result.err == None, a.result.err))
      ensures snap == if a.result.err == None then a.result.snap else old(snap)
    {
      var result := a.result;
      outcome := Some(Outcome(a.start, a.end - a.start, result.err == None, result.err));
      if result.err != None {
        return result.err;
      }
      snap := result.snap;
      return None;
    }

    /** The first refresh runs at once, then one for every tick that is taken before the loop sees
        the cancellation. */
    method Run(attempts: seq<Attempt<T>>)
      requires attempts != []
      modifies this
      ensures outcome == Some(OutcomeOf(Last(attempts)))
      ensures snap == if Successes(attempts) == [] then old(snap) else Last(Successes(attempts))
    {
      var err := Refresh(attempts[0]);
      assert attempts[..1] == [attempts[0]] && Front([attempts[0]]) == [];
      assert Successes(Front(attempts[..1])) == [];
      for i := 1 to |attempts|
        invariant outcome == Some(OutcomeOf(attempts[i - 1]))
        invariant snap == if Successes(attempts[..i]) == [] then old(snap) else Last(Successes(attempts[..i]))
      {
        Prefix(attempts, i);
        err := Refresh(attempts[i]);
      }
      assert attempts[..|attempts|] == attempts;
    }
  }
}
