# ovs-exporter: verified model

A Dafny model of the parts of ovs-exporter that carry logic of their own, with proofs of what they
promise. `dafny verify dfyconfig.toml` checks everything.

* **The appctl parsers** (`internal/unixctl`). Methods in the form of the Go loops, with the cursors
  that alias objects of the result, are proved against specification functions on values. About these
  functions the project proves round trips with a printer, the exact set of possible results,
  composition of texts, conservation of tokens and erasure of noise, and for each of them what every
  line of every text means, stated apart from the function (`Dpif.DatapathLineMeaning`,
  `Dpctl.StatsLineMeaning`, `UpcallMeaning`, `Coverage.RowMeaning`). `Blocks` states once what the
  three block parsers share; `Regex` defines leftmost-first backtracking and its meaning for any pattern.
* **The unixctl client**. `Unixctl.Client` is one caller at a time, with the outcomes of the socket as a
  parameter. `ClientRuns` is every interleaving of concurrent callers with a server that may fail at any
  point, as a step system with an inductive invariant; the sequential method is proved to be one of its
  runs. `OutOfTurn` is about servers that do not keep their turn.
* **The refresh and the scraper**. `FiveCalls` is the sequence of calls of one refresh, with its sessions
  and times, and `Refresh` the method that makes them and parses. `ScraperRuns` is `Run` as a timed step
  system: a ticker whose channel holds one tick, refreshes of bounded length, readers at any moment.
  `ClientScraper` runs it on the client: every refresh makes its calls on the session that the one
  before it left, and lasts as long as they do. `Readiness` and `OvsScraper` are what follows.
* **The interface join** (`Interfaces`) and **the exporter list** (`Exporters`): fast forms proved equal
  to simple ones.

White space comes in two classes, as in Go: `\s` of a regular expression is space, tab, newline, form
feed and carriage return; `Fields` and `TrimSpace` use Unicode white space, which also has the vertical
tab. Text is a sequence of code points. Integers are unbounded; `ParseInt` fails outside int64.

Three places where the code and its documentation disagree, or where a claim needs a condition:

* `parsePushExporters("none,")` gives `["none"]`, although the documentation says that "none" yields nil
  (`internal/otel/otel.go:309`): only an input that trims to exactly "none" does. Re-parsing the joined
  result therefore fails exactly when "none" is the only wanted entry of such an input
  (`Exporters.ReparseExactlyWhen`).
* The client does not compare the id of a response with that of its request. Pairing holds on every run
  with a server that answers each connection's requests in order; one reply out of turn breaks it
  (`OutOfTurn.Mispairs`) and shifts every later reply on that connection
  (`OutOfTurn.OutOfTurnReplyShiftsAllLater`).
* The readiness threshold of three intervals is safe for refreshes of at most D if and only if D fits
  into one interval (`ScraperRuns.AlwaysReadyExactlyWhen`). On the exporter's client less is needed,
  since a refresh that succeeds leaves or finds a connection: nine dial and ten call timeouts must fit
  into two intervals (`OvsScraper.ReadyExactlyWhenTimeoutsFit`). With `--cache.ttl=0s` the scraper falls
  back to 15 s and the check does not, so it is hardly ever ready (`OvsScraper.ZeroIsHardlyEverReady`).

Files: `Wrappers`, `Clock`, `Sequences`, `Entries`, `Text`, `Decimal`, `KeyValue`, `Regex` and `Blocks` are shared;
`PortLine`, `Dpif*`, `Dpctl*`, `Upcall*`, `Memory*` and `Coverage` are the parsers; the rest is named after
what it models.

## Model

| member | source | states |
|---|---|---|
| Regex.BacktrackIsLeftmostFirst | internal/unixctl/dpif.go:74 | for every pattern and text, backtracking finds a match exactly when there is one, and it is the preferred (greedy, leftmost-first) one of all |
| Regex.FindAllAccepts | internal/unixctl/upcall.go:69 | every group of every match found by repeated matching satisfies its piece of the pattern |
| Regex.FindAllMeaning | internal/unixctl/upcall.go:69 | for every pattern that takes a character, repeated search gives the preferred match at the leftmost position, goes on behind it, and ends where no match is left |
| Regex.FoundIsUnique | internal/unixctl/upcall.go:69 | only one list of matches is like that |
| Regex.MatchesMeaning | internal/unixctl/dpif.go:74 | a list of texts is a match at the start of a text if and only if every text is accepted by its piece and their concatenation starts the text |
| Decimal.ParseIntMeaning | internal/unixctl/dpif.go:146-149 | a text reads as n if and only if it is at most one sign and digits, with the value n in the int64 range; leading zeros are accepted |
| Decimal.PlaceValue | internal/unixctl/dpif.go:146-149 | digits have their decimal place values |
| PortLine.PortRegexMeaning | internal/unixctl/dpif.go:67-74 | on every line the backtracking match is the deterministic reading: whole first run, digits up to the slash, longest prefix of the next run that a type follows |
| PortLine.PortLineMeaning | internal/unixctl/dpif.go:168-183 | a line is the port p if and only if it has a reading as name, space, number, slash, OpenFlow port, colon, parenthesis and type, the longest texts first, whose number is the int64 of p and whose other texts are the fields of p, the type trimmed |
| PortLine.PortPrinted | internal/unixctl/dpif.go:168-183 | a printed port, with its empty type as a space, reads back as itself |
| Dpif.PortLineOk | internal/unixctl/dpif.go:168-183 | every parsed port has a non-empty name and OpenFlow port without regex white space and a number in [0, 2^63) |
| Dpif.DatapathLineMeaning | internal/unixctl/dpif.go:133-166 | for every line: it opens the datapath of a name if and only if it is that name, non-empty and without a colon, a colon, and fields of which some give an int64 to hit, missed or lost; each counter is that of the last field with its key, or zero |
| Dpif.HeaderRecognised | internal/unixctl/dpif.go:133-166 | after any such name and a colon, any text makes a header if and only if one of its fields is a lookup counter |
| Dpif.PortOnMeaning | internal/unixctl/dpif.go:99 | spaces and tabs before a port line are dropped, and nothing else |
| Dpif.PortLineChanges | internal/unixctl/dpif.go:95-103 | a line indented by four changes at most the current bridge of the current datapath, by one port at its end |
| Dpif.OthersUntouched | internal/unixctl/dpif.go:90-128 | a line leaves every datapath but the current one alone, finished or not, unless it is a header of that name |
| Dpif.OtherBridgesUntouched | internal/unixctl/dpif.go:95-124 | a line that is no header, recognised or not, leaves every bridge of the current datapath but the current one alone, unless it opens a bridge of that name |
| Dpif.ComposeTexts | internal/unixctl/dpif.go:120-128 | when b begins with a datapath header, parsing a then b is the parse of a overridden by the parse of b |
| Dpif.ParseIsOk | internal/unixctl/dpif.go:81-183 | every result, for every text, satisfies the conditions that the printer needs |
| DpifRoundTrip.RoundTrip | internal/unixctl/dpif.go:81-183 | parse, print in any order of datapaths and bridges, parse again: the same structure, for every text |
| DpifRoundTrip.HasListing | internal/unixctl/dpif.go:81-131 | every possible result can be listed for printing |
| DpifRoundTrip.ResultsCharacterised | internal/unixctl/dpif.go:81-183 | a structure is the parse of some text if and only if it meets those conditions |
| DpifObjects.DPIFDatapath.LinkBridge | internal/unixctl/dpif.go:114-118 | the map holds the new bridge under its name and every other bridge is kept |
| DpifObjects.AddPort | internal/unixctl/dpif.go:103 | an edit through the bridge cursor is seen in the result, in that bridge and nowhere else |
| DpifObjects.AddBridge | internal/unixctl/dpif.go:113-118 | a bridge linked through the datapath cursor is seen in the result, in that datapath and nowhere else |
| DpifObjects.AddDatapath | internal/unixctl/dpif.go:125-127 | the result holds the new object under its name; all others are as before |
| DpifObjects.ParseDPIFDatapathLine | internal/unixctl/dpif.go:133-166 | null if and only if the line opens no datapath in that sense; else a fresh object with the name and the counters that the line opens |
| DpifObjects.ReadPort | internal/unixctl/dpif.go:95-103 | one step of the loop: objects, cursors and keys stay in step with the specification's state |
| DpifObjects.ReadBridge | internal/unixctl/dpif.go:105-118 | the same for a bridge line |
| DpifObjects.ReadDatapath | internal/unixctl/dpif.go:120-128 | the same for a line at column 0 |
| DpifObjects.ParseDPIF | internal/unixctl/dpif.go:81-131 | the object graph shows the specification's parse; keys are names, distinct keys hold distinct objects |
| Blocks.EarlierBlocksUntouched | internal/unixctl/dpctl.go:62-83 | what follows a header depends only on the open block; finished blocks are changed only by a new block of the same name |
| Blocks.EraseFromText | internal/unixctl/dpctl.go:63-83 | lines that change no state can be deleted anywhere in a text, for any block grammar |
| Blocks.LabelOnMeaning | internal/unixctl/dpctl.go:76-80 | a line labels a name if and only if it is, without the white space around it, that name and a colon |
| Dpctl.ParseDPCTL | internal/unixctl/dpctl.go:55-85 | the object graph shows the specification's parse |
| Dpctl.DPCTLDatapath.ParseKVMap | internal/unixctl/dpctl.go:126-140 | each counter of the section becomes the int64 of the last field with its key, or stays; all others stay |
| Dpctl.DPCTLDatapath.ParseStatsLine | internal/unixctl/dpctl.go:87-124 | the same for a whole line: which start sets which counters, from which fields, and that any other line sets none |
| Dpctl.StatsLineMeaning | internal/unixctl/dpctl.go:87-124 | the specification of a line has that meaning, for every line and every datapath |
| Dpctl.TokenErasure | internal/unixctl/dpctl.go:126-140 | fields that are no pairs can be deleted at any positions |
| KeyValue.RatesAreNoPairs | internal/unixctl/dpctl.go:126-128 | key:value with a dot in the value, such as hit/pkt:2.17 and hit-rate:75.42%, is no pair |
| Dpctl.ClassifyMeaning | internal/unixctl/dpctl.go:64-82 | which lines are body, and which are the header of a name, for every line |
| Dpctl.HeaderChanges | internal/unixctl/dpctl.go:75-82 | a header shows a datapath with all counters zero, over one of the same name |
| Dpctl.IndentedLineChanges | internal/unixctl/dpctl.go:68-73 | an indented line edits the open datapath by its text between the white space, whatever that is, and no other |
| Dpctl.ComposeTexts | internal/unixctl/dpctl.go:63-84 | when b begins with a header, the parse of a then b is that of a overridden by that of b |
| Dpctl.NoiseErasure | internal/unixctl/dpctl.go:63-124 | deleting, at any positions, indented lines that start none of the four statistics leaves the parse unchanged |
| Dpctl.CachesAndPortsAreNoise | internal/unixctl/dpctl.go:122-123 | the lines of the caches block and the port lines are such noise, whatever follows and ends them |
| DpctlNoise.DeletableExactlyWhen | internal/unixctl/dpctl.go:63-124 | a line can be deleted from every text if and only if it is empty, no header at column 0, or indented and without effect on two sample datapaths |
| DpctlRoundTrip.ParsePrint | internal/unixctl/dpctl.go:55-124 | printed datapaths parse to the map of these datapaths |
| DpctlRoundTrip.RoundTrip | internal/unixctl/dpctl.go:55-124 | parse, print in any order, parse again: the same map |
| DpctlRoundTrip.HasListing | internal/unixctl/dpctl.go:55-84 | every possible result can be listed for printing, so the round trip is one for every text |
| DpctlRoundTrip.ResultsCharacterised | internal/unixctl/dpctl.go:55-124 | exactly the maps of datapaths with int64 counters under their one-line names can result |
| Upcall.ParseUpcall | internal/unixctl/upcall.go:43-106 | the object graph shows the specification's parse |
| UpcallMeaning.ClassifyMeaning | internal/unixctl/upcall.go:52-62 | which lines are skipped, and which are the header of a name, for every line |
| UpcallMeaning.HeaderChanges | internal/unixctl/upcall.go:56-61 | a header shows a datapath with all counters zero and no handlers, over one of the same name |
| UpcallMeaning.BodyLineChanges | internal/unixctl/upcall.go:63-66 | any other line that is not blank edits the open datapath by its text between the white space, and no other |
| UpcallMeaning.FlowsMeaning | internal/unixctl/upcall.go:68-84 | a line that starts with flows, whatever follows: each of the four counts becomes the int64 of the last group found with its name, or stays; all else stays |
| UpcallMeaning.GroupMeaning | internal/unixctl/upcall.go:33 | a group matches exactly the texts parenthesis, lower-case letters, space, digits, parenthesis |
| UpcallMeaning.PaddedFlows | internal/unixctl/upcall.go:68-84 | in particular flows, any padding without a parenthesis and printed groups |
| UpcallMeaning.DumpMeaning | internal/unixctl/upcall.go:85-94 | a line that starts with dump duration, any text up to the colon: the duration becomes the int64 behind it without white space and one "ms", or stays |
| UpcallMeaning.DumpWithoutColon | internal/unixctl/upcall.go:87-90 | without a colon it changes nothing |
| UpcallMeaning.HandlerMeaning | internal/unixctl/upcall.go:95-101 | any other line of the form of a handler line sets that handler if both numbers are int64 |
| UpcallMeaning.OtherLinesSayNothing | internal/unixctl/upcall.go:95-102 | a line of no such form changes nothing |
| Upcall.ComposeTexts | internal/unixctl/upcall.go:51-104 | when b begins with a header, the parse of a then b is that of a overridden by that of b |
| UpcallRoundTrip.PairsFound | internal/unixctl/upcall.go:33-84 | repeated matching of a printed list of (name value) groups gives exactly these groups, in order, each as often as it is printed |
| UpcallRoundTrip.ParsePrint | internal/unixctl/upcall.go:33-105 | printed counters, durations and handler entries come back exactly |
| UpcallRoundTrip.RoundTrip | internal/unixctl/upcall.go:33-105 | parse, print in any order, parse again: the same map |
| UpcallRoundTrip.HasListing | internal/unixctl/upcall.go:43-105 | every possible result can be listed for printing, so the round trip is one for every text |
| UpcallRoundTrip.ResultsCharacterised | internal/unixctl/upcall.go:33-105 | exactly the maps with non-negative flow counts, ids and keys and an int64 duration can result |
| Memory.ParseMemory | internal/unixctl/memory.go:29-58 | the loop computes the specification's fold over the tokens |
| Memory.ClosingMeaning | internal/unixctl/memory.go:37-46 | a token closes a key if and only if it is a name part, a colon and an int64 without a colon |
| Memory.CloseMeaning | internal/unixctl/memory.go:47-55 | the key that it closes is the pending words and the name part, if any, joined by spaces; a nameless number sets nothing |
| Memory.Conservation | internal/unixctl/memory.go:34-57 | closings, nameless numbers and the dangling tail partition the tokens in order, and the map is the last-wins fold of the closings |
| Memory.ConservationIsUnique | internal/unixctl/memory.go:34-57 | there is only one such account of a token list |
| MemoryRoundTrip.RecoveredExactlyWhen | internal/unixctl/memory.go:29-58 | printed entries with distinct keys are recovered if and only if every value is an int64 and every key is words of which none but the last ends in ":integer" |
| MemoryRoundTrip.ParseIsOk | internal/unixctl/memory.go:29-58 | every result meets these conditions |
| MemoryRoundTrip.ResultsCharacterised | internal/unixctl/memory.go:29-58 | exactly the maps with these conditions can result |
| Coverage.ParseCoverage | internal/unixctl/coverage.go:30-53 | the loop computes the specification's fold over the lines |
| Coverage.RowMeaning | internal/unixctl/coverage.go:37-50 | for every line: it is the row of an event with a total if and only if it is white space, the event as first field, anything, and the last "total:" with an int64 behind it |
| Coverage.OneLineChanges | internal/unixctl/coverage.go:36-51 | a row sets the total of its event and of no other; any other line changes nothing |
| Coverage.LastRowWins | internal/unixctl/coverage.go:36-51 | a name is present if and only if some line is a row of it in that sense, with the total of the last one |
| Coverage.PermutationInvariant | internal/unixctl/coverage.go:36-51 | permuting the lines changes nothing when no two rows of a name differ |
| Coverage.ParsePrint | internal/unixctl/coverage.go:37-50 | printed events come back, also with names that contain "total:" |
| Coverage.RecoveredExactlyWhen | internal/unixctl/coverage.go:37-50 | entries with distinct names are recovered if and only if each is a non-empty space-free name with an int64 |
| Coverage.ResultsCharacterised | internal/unixctl/coverage.go:30-53 | exactly the maps of such entries can result |
| Exporters.ParsePushExporters | internal/otel/otel.go:315-334 | the loop computes the specification's selection |
| Exporters.ExportersMeaning | internal/otel/otel.go:308-334 | a list is the result if and only if it has exactly the trimmed entries but the empty ones and "prometheus", each once, by first occurrence; or nothing when the input trims to "none" |
| Exporters.EntriesMeaning | internal/otel/otel.go:321-322 | the entries are the trimmed parts between the commas, in order |
| Exporters.ReparseExactlyWhen | internal/otel/otel.go:315-334 | re-parsing the comma-joined result gives the same list if and only if the input trims to "none", or has no entry "none", or has another wanted entry |
| Exporters.TrailingComma | internal/otel/otel.go:316-331 | a wanted entry with a comma after it is selected, whatever it is |
| Exporters.NoneSurvives | internal/otel/otel.go:309-318 | the input "none," gives ["none"] |
| Interfaces.Observe | collector/interfaces.go:105-133 | with unique row UUIDs the observations are those of the nested linear scan, in its order |
| Interfaces.ValuesMeaning | collector/interfaces.go:135-171 | the nine observations of an interface: which instrument and direction shows which statistic, zero if it is missing |
| Interfaces.IndexedJoinIsScan | collector/interfaces.go:111-131 | the indexed join finds the pairs of the nested scan, skipping exactly the dangling references |
| Interfaces.ObservedOncePerPath | collector/interfaces.go:117-131 | an interface row is observed once for every path of references to it; other UUIDs never |
| Interfaces.ObservedExactlyOnce | collector/interfaces.go:117-131 | when the port rows are referenced once each, an interface is observed exactly once if and only if it is referenced exactly once |
| Unixctl.New | internal/unixctl/client.go:32-46 | which configurations are refused, and the configuration of the others: timeouts of zero become the defaults, all else is kept |
| Unixctl.Client.EnsureConnected | internal/unixctl/client.go:122-143 | dials only without a connection; conn, dec and enc are set together or not at all |
| Unixctl.Client.Disconnect | internal/unixctl/client.go:145-152 | all three are reset together; the id counter stays |
| Unixctl.Client.Close | internal/unixctl/client.go:115-120 | the client is as new but for its id counter |
| Unixctl.Client.Call | internal/unixctl/client.go:74-112 | the session, result, deadline, request and end of one call, for every outcome of the socket; the request has the next id, the name and the parameters, and an answer gives its result or its error |
| Unixctl.AfterCall | internal/unixctl/client.go:74-152 | the client is connected after a call exactly when the call was answered, on the connection it had or has dialled; an id is spent exactly when there was a connection |
| Unixctl.CallIsBounded | internal/unixctl/client.go:88-95 | a call returns within both timeouts, within one when it is connected, and by the context's deadline |
| ClientRuns.RunSound | internal/unixctl/client.go:74-152 | on every interleaving and with any server: mutual exclusion, fields together, dials minus disconnects, increasing ids, and every caller works on what it was called with |
| ClientRuns.ConnectedExactlyWhenReplied | internal/unixctl/client.go:78-120 | on every run and with any server, a caller that leaves the lock leaves a connection behind if and only if it has got a reply: every failure and every Close has dropped it |
| ClientRuns.EveryCallCanFinish | internal/unixctl/client.go:74-120 | no deadlock: after every run with any server, every operation that has begun can still be finished |
| ClientRuns.RunInv | internal/unixctl/client.go:74-152 | with a server that speaks in turn also: only the lock holder's own request or its reply in flight, and own replies only |
| ClientRuns.RepliesAnswerTheirCaller | internal/unixctl/client.go:74-112 | on every run, whatever ids the server writes, a call that gets a reply gets the reply to its own request, which has the name and the parameters of the call |
| ClientRuns.DropHeals | internal/unixctl/client.go:71-152 | after any run with any server, a client without a connection and without a caller inside is healed: with a server in turn all calls that finish later get their own replies |
| ClientRuns.AtMostOneOutstanding | internal/unixctl/client.go:74-152 | on every run and always: at most one message on the live connection, the own request of the caller inside the lock or its reply; ids on the wire increase across reconnects; dials minus disconnects is one or zero |
| ClientRuns.CallIsARun | internal/unixctl/client.go:74-112 | the sequential method is a run of the step system, with the same session and result |
| ClientRuns.CloseIsARun | internal/unixctl/client.go:114-120 | so is the sequential Close, with its session |
| ClientRuns.UnlockedIsQuiet | internal/unixctl/client.go:74-152 | on every run, when nobody holds the lock the live connection is empty, so CallIsARun applies |
| OutOfTurn.PairedExactlyWhenEmpty | internal/unixctl/client.go:97-111 | one exchange returns the caller's own reply if and only if nothing of earlier requests was on the connection before it |
| OutOfTurn.OutOfTurnReplyIsReturned | internal/unixctl/client.go:102-111 | after one reply out of turn the next call returns it as its own, since the ids are not compared |
| OutOfTurn.OutOfTurnReplyShiftsAllLater | internal/unixctl/client.go:102-111 | after one reply out of turn, until the connection is dropped, every call by anybody that gets a reply gets that of an earlier request |
| OutOfTurn.Mispairs | internal/unixctl/client.go:102-111 | a run from the start with a single reply out of turn that returns another call's reply |
| Refresh.Refresh | internal/datasource/refresh.go:21-82 | fails if and only if no call brought a text that could be read; else every field is the parse of its own text, or nil without one; the requests sent are those for the five methods, in order |
| Refresh.FieldsAnswerTheirRequests | internal/datasource/refresh.go:27-75 | whatever the server replies to each request, a field that is not nil is the parse of the string in its reply to the request for that field, which was sent with the name of that method and no parameters |
| FiveCalls.RequestsAskFive | internal/datasource/refresh.go:27-75 | the requests of a refresh, as far as they are sent, ask for the five methods in order, without parameters, with ids that increase from the session's |
| FiveCalls.Received | internal/datasource/refresh.go:27-39 | a call brings a text if and only if it was answered, without an error and with a string or null |
| FiveCalls.RedialsExactlyAfterADrop | internal/unixctl/client.go:71-143 | a call of a refresh dials exactly when the one before it was not answered and a socket is discovered; server and parse errors keep the connection |
| FiveCalls.OneConnectionWhileAnswered | internal/unixctl/client.go:122-125 | calls that are answered one after the other use one connection and dial no more |
| FiveCalls.CallsAreBounded | internal/datasource/refresh.go:41-75 | i calls take at most i times the two timeouts, and end by the context's deadline |
| FiveCalls.DefaultRefreshFitsTheDefaultTTL | internal/unixctl/client.go:39-44 | a refresh with the default timeouts takes at most 35 s, below the default TTL of 60 s |
| FiveCalls.NineDials | internal/datasource/refresh.go:27-75 | two refreshes in a row on one client, the first of which got any text, dial at most nine times |
| FiveCalls.TwoRefreshes | internal/datasource/refresh.go:27-75 | so they take at most nine dial and ten call timeouts |
| Scraper.Scraper.Stale | internal/scrape/scraper.go:88-99 | the verdict on the stored outcome, and the error for no attempt |
| Scraper.Staleness | internal/scrape/scraper.go:87-99 | no error if and only if there was an attempt, it succeeded, and it is not older than allowed; else which error |
| Scraper.Scraper.Refresh | internal/scrape/scraper.go:103-130 | the outcome is that of this attempt; the snapshot changes only on success |
| Scraper.Scraper.Run | internal/scrape/scraper.go:135-148 | over a finite list of refreshes: the outcome of the last and the value of the latest success |
| ScraperRuns.OutcomeAge | internal/scrape/scraper.go:103-148 | at every moment from the first outcome until Run returns, the outcome is at most T + 2D old, overruns and dropped ticks included |
| ScraperRuns.OutcomeAgeIsReached | internal/scrape/scraper.go:103-148 | for all T and D a run without failures reaches that age |
| ScraperRuns.RefreshesArePaced | internal/scrape/scraper.go:135-148 | on every run every refresh but the first takes a tick of its own, so at most one refresh, and one more for every whole period since the start, has begun |
| ScraperRuns.ReturnsOnlyWhenCancelled | internal/scrape/scraper.go:135-148 | Run returns only after a cancellation, and from then on no refresh begins and nothing is stored |
| ScraperRuns.AlwaysReadyExactlyWhen | ovs_exporter.go:268-270 | for refreshes of which only the longest duration D is known, Stale(3T) never reports an error on runs of successful refreshes if and only if D <= T |
| ScraperRuns.ReadersSee | internal/scrape/scraper.go:116-125 | on every run the snapshot is the value of the latest success, one success behind only between the two stores of a refresh |
| ScraperRuns.SnapshotsOnlyAdvance | internal/scrape/scraper.go:103-148 | between any two moments of a run the snapshot moves only from the value of one success to that of the same or a later one |
| ClientScraper.RunInv | internal/scrape/scraper.go:103-148 | on every run of the scraper on its client: attempts are the refreshes of one chain of sessions, with their results and times |
| OvsScraper.SnapshotIsOfOneRefresh | internal/datasource/refresh.go:22-81 | the snapshot that readers load is what a named refresh of the run assembled from its own five calls, and has a non-nil field; but for the moment between the two stores that is the latest refresh that succeeded |
| OvsScraper.SnapshotNeverGoesBack | internal/scrape/scraper.go:103-148 | once readers see a snapshot they always see one, never nil again and never that of an older refresh |
| Scraper.NewScraper | internal/scrape/scraper.go:51-65 | which configurations are refused, and that an interval of zero becomes the default |
| Readiness.OutcomeAge | internal/scrape/scraper.go:87-148 | while refreshes succeed on one client no outcome is older than the interval plus nine dial and ten call timeouts |
| Readiness.OutcomeAgeIsReached | internal/scrape/scraper.go:87-148 | a run of successful refreshes reaches that age, for all positive timeouts |
| OvsScraper.ReadyExactlyWhenTimeoutsFit | ovs_exporter.go:268-270 | over every run of the exporter's scraper on its client without failures, the readiness check always passes if and only if the TTL is not zero and nine dial and ten call timeouts fit into two TTLs (or a negative timeout keeps every refresh from succeeding) |
| OvsScraper.ZeroIsHardlyEverReady | ovs_exporter.go:268-270 | with a TTL of zero the scraper works at its default interval, and the check passes only at the very time at which the last refresh began |
| OvsScraper.DefaultsAreReady | ovs_exporter.go:268-270 | with the default timeouts that is so exactly from a TTL of 34 s on, and so for the default of 60 s |

## Left out

- JSON: a raw value is missing, null, a string with its text, or something else; the decoder's syntax is not modelled.
- Nil and empty maps and slices are not told apart; a nil `Bridges` map reads as empty.
- Invalid UTF-8 cannot reach the parsers after JSON decoding, so text is a sequence of code points.
- `strconv.Atoi` of a handler id is modelled at 64 bits.
- Printers: the formats are ours; the proofs are about what the parsers do with them.
- Unixctl.HonoursDeadlines: assumes that socket operations return by their deadline, and succeed only by then; a cancelled context ends them early, with a failure or not.
- Unixctl.Client.Call: `nextID` does not wrap around at 2^63; the lock is modelled in ClientRuns only.
- Refresh.Refresh: a snapshot field holds the value of the parsed object, since snapshots are not edited after they are stored (internal/unixctl/snapshot.go:5-7).
- Refresh.FieldsAnswerTheirRequests: takes the server as a function of the request, and the reply that is read as the one to it; ClientRuns.RepliesAnswerTheirCaller says when that is so.
- Scraper.Scraper.Run: takes the refreshes as a list; when ticks come and when the loop stops is modelled in ScraperRuns.
- ScraperRuns.OutcomeAge: that a refresh takes at most D is an assumption on the run; in ClientScraper the length of a refresh is that of its calls. Code outside the calls takes no time.
- ClientRuns.RepliesAnswerTheirCaller: covers servers that answer each connection's requests in order; the module OutOfTurn says what happens with others, and DropHeals when it is over.
- OutOfTurn.OutOfTurnReplyShiftsAllLater: covers servers that answer every later request.
- Socket discovery, dialling, the file system: each is an outcome that succeeds or fails, and discovery takes no time.
- OvsScraper.ReadyExactlyWhenTimeoutsFit: a negative TTL is left out, since the ticker panics on it.
- The libovsdb cache: a view is three sequences of rows.
- OpenTelemetry set-up, HTTP handlers, flags, logging and tracing: wrappers over libraries.
- `interfaces_info.go` and `interfaces_status.go` repeat the join of `interfaces.go`; the other collectors are flat loops.
