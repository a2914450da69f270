/** The scraper of the exporter: a client, a scraper, and the refresh of the five unixctl methods. */
module OvsScraper {
  import opened Wrappers
  import opened Sequences
  import opened Clock
  import opened Scraper
  import opened Unixctl
  import opened FiveCalls
  import opened Refresh
  import opened ClientScraper
  import Runs = ScraperRuns
  import Readiness

  /** What a refresh returns when its five calls brought these texts. */
  function Returned(texts: Received): (r: Fetched<Snapshot>)
    ensures r.err == None <==> r.snap.Some?
    ensures r.err == None <==> exists i :: 0 <= i < 5 && texts[i].Some?
  {
    if forall i :: 0 <= i < 5 ==> texts[i] == None then
      Fetched(None, Some("unixctl: all 5 ovs-vswitchd appctl methods failed"))
    else Fetched(Some(Assembled(texts)), None)
  }

  /** The exporter gives its TTL to the scraper as the interval, where zero means the default, and to
      the readiness check as it is. */
  function Exporter(cfg: Config, ttl: Time): (e: Setup<Snapshot>)
    ensures ttl != 0 ==> e.interval == ttl
    ensures ttl == 0 ==> e.interval == DEFAULT_INTERVAL
  {
    Setup(cfg, NewScraper("ovs", true, true, ttl).value, ttl, Returned)
  }

  lemma ReturnedReports()
    ensures Reports(Returned)
  {
  }

  predicate HasField(snap: Snapshot) {
    snap.coverage.Some? || snap.memory.Some? || snap.dpif.Some? || snap.dpctl.Some? || snap.upcall.Some?
  }

  lemma SomeField(texts: Received)
    requires Returned(texts).err == None
    ensures HasField(Assembled(texts))
  {
    assert texts[0].Some? || texts[1].Some? || texts[2].Some? || texts[3].Some? || texts[4].Some?;
  }

  /** The snapshot that readers load is what one refresh of the run, whose number is named, assembled
      from the texts that its own five calls brought; it has a field. But for the moment between the
      two stores of a refresh it is the latest refresh that succeeded. */
  lemma SnapshotIsOfOneRefresh(
    cfg: Config, ttl: Time, start: Time, ios: Ios, moves: seq<Move>, w: World<Snapshot>)
    requires Reaches(Exporter(cfg, ttl), start, ios, moves, w)
    ensures Chained(cfg, w.finished)
    ensures w.run.snap.Some? ==>
      && 0 < Runs.Shown(w.run) <= |Succeeded(w)|
      && ShownIndex(w) < |w.finished|
      && w.run.snap.value == Assembled(w.finished[ShownIndex(w)].Texts(cfg))
      && HasField(w.run.snap.value)
      && (w.run.phase != Runs.Storing ==> ShownIndex(w) == Last(Succeeded(w)))
    ensures w.run.phase != Runs.Storing ==> (w.run.snap == None <==> Succeeded(w) == [])
  {
    var e := Exporter(cfg, ttl);
    ReturnedReports();
    ClientScraper.SnapshotIsOfOneRefresh(e, start, ios, moves, w);
    if w.run.snap.Some? {
      SomeField(w.finished[ShownIndex(w)].Texts(cfg));
    }
  }

  /** Once readers see a snapshot they always see one, and never that of an older refresh. */
  lemma SnapshotNeverGoesBack(
    cfg: Config, ttl: Time, start: Time, ios: Ios, moves: seq<Move>, w: World<Snapshot>,
    more: seq<Move>, r: World<Snapshot>)
    requires Reaches(Exporter(cfg, ttl), start, ios, moves, w) && Run(Exporter(cfg, ttl), w, more) == Some(r)
    ensures w.finished <= r.finished
    ensures w.run.snap.Some? ==>
      && r.run.snap.Some?
      && 0 < Runs.Shown(w.run) <= |Succeeded(w)|
      && 0 < Runs.Shown(r.run) <= |Succeeded(r)|
      && ShownIndex(w) <= ShownIndex(r)
  {
    ReturnedReports();
    ClientScraper.SnapshotNeverGoesBack(Exporter(cfg, ttl), start, ios, moves, w, more, r);
  }

  /** While its refreshes succeed the exporter is always ready if and only if the TTL is not zero and
      nine dials and ten calls fit into two TTLs, or a timeout in the past keeps every refresh from
      succeeding. */
  lemma ReadyExactlyWhenTimeoutsFit(given: Config, cfg: Config, ttl: Time, start: Time)
    requires Unixctl.New(given) == Some(cfg) && ttl >= 0 && start > 0
    ensures Readiness.AlwaysReady(Exporter(cfg, ttl), start) <==>
      || cfg.dialTimeout < 0 || cfg.callTimeout < 0
      || (ttl > 0 && 9 * cfg.dialTimeout + 10 * cfg.callTimeout <= 2 * ttl)
  {
    ReturnedReports();
    Readiness.AlwaysReadyExactlyWhen(Exporter(cfg, ttl), given, start);
  }

  /** With a TTL of zero the scraper works at its default interval, but the check passes only as long
      as no time has passed since the last refresh began. */
  lemma ZeroIsHardlyEverReady(cfg: Config, start: Time, ios: Ios, moves: seq<Move>, w: World<Snapshot>)
    requires Readiness.Watched(Exporter(cfg, 0), start, ios, moves, w) && start > 0
    ensures Readiness.Ready(Exporter(cfg, 0), w) <==> w.run.now == Last(w.finished).start
  {
    Readiness.WatchedTimes(Exporter(cfg, 0), start, ios, moves, w);
  }

  /** With the default timeouts that is so from an interval of 34 seconds on; the default has 60. */
  lemma DefaultsAreReady(given: Config, cfg: Config, ttl: Time, start: Time)
    requires Unixctl.New(given) == Some(cfg) && given.dialTimeout == 0 && given.callTimeout == 0
    requires ttl >= 0 && start > 0
    ensures Readiness.AlwaysReady(Exporter(cfg, ttl), start) <==> ttl >= 34 * SECOND
    ensures Readiness.AlwaysReady(Exporter(cfg, DEFAULT_TTL), start)
  {
    ReadyExactlyWhenTimeoutsFit(given, cfg, ttl, start);
    ReadyExactlyWhenTimeoutsFit(given, cfg, DEFAULT_TTL, start);
  }
}
