/** Printing a dpif/show result and reading it back. */
module DpifRoundTrip {
  import opened Wrappers
  import opened Text
  import opened Decimal
  import opened KeyValue
  import opened PortLine
  import opened Blocks
  import opened Dpif

  /** A datapath with its bridges in the order in which they are printed. */
  datatype Listing = Listing(name: string, lookups: Lookups, bridges: seq<Bridge>)

  predicate ListingOk(l: Listing) {
    && DatapathNameOk(l.name) && LookupsOk(l.lookups)
    && forall i :: 0 <= i < |l.bridges| ==> BridgeOk(l.bridges[i])
  }

  /** The block that a listing denotes: the last bridge is the open one. */
  function Opened(l: Listing): Open
    decreases |l.bridges|
  {
    if l.bridges == [] then Open(l.name, l.lookups, map[], None)
    else
      var n := |l.bridges| - 1;
      Open(l.name, l.lookups, Bridges(Opened(l.(bridges := l.bridges[..n]))), Some(l.bridges[n]))
  }

  function HeaderLine(l: Listing): string {
    l.name + ":" + PrintLookups(l.lookups)
  }

  function BridgeLine(name: string): string {
    "  " + (name + ":")
  }

  function PortText(p: Port): string {
    "    " + PrintPort(p)
  }

  function BridgeLines(b: Bridge): seq<string>
    decreases |b.ports|
  {
    if b.ports == [] then [BridgeLine(b.name)]
    else
      var n := |b.ports| - 1;
      BridgeLines(Bridge(b.name, b.ports[..n])) + [PortText(b.ports[n])]
  }

  function Lines(l: Listing): seq<string>
    decreases |l.bridges|
  {
    if l.bridges == [] then [HeaderLine(l)]
    else
      var n := |l.bridges| - 1;
      Lines(l.(bridges := l.bridges[..n])) + BridgeLines(l.bridges[n])
  }

  function AllLines(ls: seq<Listing>): seq<seq<string>> {
    seq(|ls|, i requires 0 <= i < |ls| => Lines(ls[i]))
  }

  function AllOpened(ls: seq<Listing>): seq<Open> {
    seq(|ls|, i requires 0 <= i < |ls| => Opened(ls[i]))
  }

  function PrintText(ls: seq<Listing>): string {
    Unlines(Flatten(AllLines(ls)))
  }

  /** The result that shows a list of datapaths. */
  function Shown(ls: seq<Listing>): map<string, Datapath> {
    Collect(GRAMMAR, AllOpened(ls))
  }

  // ------------------------------------------------------------------ one line

  lemma {:induction false} HeaderPrinted(l: Listing)
    requires ListingOk(l)
    ensures Classify(HeaderLine(l)) == Header(Open(l.name, l.lookups, map[], None))
  {
    CutAt(l.name, ':', PrintLookups(l.lookups));
    assert l.name + ":" == l.name + [':'];
    HeaderScan(l.lookups);
    NotIndented(l.name, PrintLookups(l.lookups));
  }

  lemma TwoSpaces(s: string)
    ensures "  " <= s <==> |s| >= 2 && s[0] == ' ' && s[1] == ' '
  {
  }

  lemma NotIndented(name: string, rest: string)
    requires name != "" && !("  " <= name)
    ensures !("  " <= name + ":" + rest)
  {
    TwoSpaces(name);
    TwoSpaces(name + ":" + rest);
  }

  lemma {:induction false} ThreeTokens(a: string, b: string, c: string)
    ensures ScanTokens([a, b, c]) == ScanToken(ScanToken(ScanToken(Scan(NO_LOOKUPS, false), a), b), c)
  {
    assert [a, b, c][..2] == [a, b] && [a, b][..1] == [a] && [a][..0] == [];
    assert ScanTokens([a]) == ScanToken(ScanTokens([]), a);
    assert ScanTokens([a, b]) == ScanToken(ScanTokens([a]), b);
  }

  lemma TokenPrinted(s: Scan, key: string, n: int)
    requires IsLookupKey(key) && InInt64(n)
    ensures ScanToken(s, PrintKeyInt(key, n)) == Scan(SetLookup(s.lookups, key, n), true)
  {
    KeyIntPrinted(key, n);
  }

  lemma {:induction false} HeaderScan(l: Lookups)
    requires LookupsOk(l)
    ensures ScanTokens(Fields(PrintLookups(l))) == Scan(l, true)
  {
    FieldsOfLookups(l);
    var words := LookupWords(l);
    ThreeTokens(words[0], words[1], words[2]);
    TokenPrinted(Scan(NO_LOOKUPS, false), "hit", l.hit);
    TokenPrinted(Scan(Lookups(l.hit, 0, 0), true), "missed", l.missed);
    TokenPrinted(Scan(Lookups(l.hit, l.missed, 0), true), "lost", l.lost);
  }

  lemma OneLineInt(n: int)
    ensures OneLine(FormatInt(n))
  {
    FormatChars(n);
  }

  lemma HeaderOneLine(l: Listing)
    requires ListingOk(l)
    ensures OneLine(HeaderLine(l))
  {
    LookupWordsOk(l.lookups);
    JoinEnd(LookupWords(l.lookups));
  }

  lemma BridgeIndent(name: string)
    requires LabelOk(name)
    ensures "  " <= BridgeLine(name) && !("    " <= BridgeLine(name)) && OneLine(BridgeLine(name))
  {
    var line := BridgeLine(name);
    assert line[2] == if name == "" then ':' else name[0];
    TwoSpaces(line);
  }

  lemma {:induction false} BridgePrinted(o: Open, name: string)
    requires LabelOk(name)
    ensures Classify(BridgeLine(name)).Body? && OneLine(BridgeLine(name))
    ensures EditBlock(o, BridgeLine(name)) == Open(o.name, o.lookups, Bridges(o), Some(Bridge(name, [])))
  {
    BridgeIndent(name);
    LabelPrinted("  ", name);
  }

  lemma {:induction false} PortTextPrinted(o: Open, p: Port)
    requires PortOk(p) && o.bridge.Some?
    ensures Classify(PortText(p)).Body? && OneLine(PortText(p))
    ensures EditBlock(o, PortText(p)) ==
            o.(bridge := Some(Bridge(o.bridge.value.name, o.bridge.value.ports + [p])))
  {
    TrimLeftSkips("    ", PrintPort(p), Blank);
    PortPrinted(p);
    TwoSpaces(PortText(p));
    PortOneLine(p);
  }

  lemma PortOneLine(p: Port)
    requires PortOk(p)
    ensures OneLine(PortText(p))
  {
    OneLineInt(p.portNo);
  }

  // ------------------------------------------------------------------ one block

  lemma RunOne(st: State<Datapath, Open>, line: string)
    ensures Run(GRAMMAR, st, [line]) == Step(GRAMMAR, st, line)
  {
    assert [line][..0] == [];
  }

  lemma BridgeStep(o: Open, name: string)
    requires LabelOk(name)
    ensures Run(GRAMMAR, State(map[], Some(o)), [BridgeLine(name)]) ==
            State(map[], Some(Open(o.name, o.lookups, Bridges(o), Some(Bridge(name, [])))))
  {
    RunOne(State(map[], Some(o)), BridgeLine(name));
    BridgePrinted(o, name);
  }

  lemma PortStep(o: Open, p: Port)
    requires PortOk(p) && o.bridge.Some?
    ensures Step(GRAMMAR, State(map[], Some(o)), PortText(p)) ==
            State(map[], Some(o.(bridge := Some(Bridge(o.bridge.value.name, o.bridge.value.ports + [p])))))
  {
    PortTextPrinted(o, p);
  }

  lemma {:induction false} BridgeLinesRun(o: Open, b: Bridge)
    requires BridgeOk(b)
    ensures Run(GRAMMAR, State(map[], Some(o)), BridgeLines(b)) ==
            State(map[], Some(Open(o.name, o.lookups, Bridges(o), Some(b))))
    decreases |b.ports|
  {
    if b.ports == [] {
      BridgeStep(o, b.name);
    } else {
      var n := |b.ports| - 1;
      var front, p := Bridge(b.name, b.ports[..n]), b.ports[n];
      assert BridgeOk(front) && PortOk(p);
      BridgeLinesRun(o, front);
      RunSnoc(GRAMMAR, State(map[], Some(o)), BridgeLines(front), PortText(p));
      PortStep(Open(o.name, o.lookups, Bridges(o), Some(front)), p);
      LastPort(b.ports);
    }
  }

  lemma LastPort(ports: seq<Port>)
    requires ports != []
    ensures ports[..|ports| - 1] + [ports[|ports| - 1]] == ports
  {
  }

  lemma {:induction false} BridgeLinesOneLine(b: Bridge)
    requires BridgeOk(b)
    ensures forall i :: 0 <= i < |BridgeLines(b)| ==> OneLine(BridgeLines(b)[i])
    decreases |b.ports|
  {
    if b.ports != [] {
      var n := |b.ports| - 1;
      assert PortOk(b.ports[n]);
      BridgeLinesOneLine(Bridge(b.name, b.ports[..n]));
      PortOneLine(b.ports[n]);
    }
  }

  lemma {:induction false} LinesDenote(l: Listing)
    requires ListingOk(l)
    ensures Denotes(GRAMMAR, Lines(l), Opened(l))
    decreases |l.bridges|
  {
    if l.bridges == [] {
      HeaderPrinted(l);
      HeaderOneLine(l);
      RunOne(Start(), HeaderLine(l));
    } else {
      var n := |l.bridges| - 1;
      var front := l.(bridges := l.bridges[..n]);
      LinesDenote(front);
      RunAppend(GRAMMAR, Start(), Lines(front), BridgeLines(l.bridges[n]));
      BridgeLinesRun(Opened(front), l.bridges[n]);
      BridgeLinesOneLine(l.bridges[n]);
      OpenedHead(front);
    }
  }

  lemma OpenedHead(l: Listing)
    ensures Opened(l).name == l.name && Opened(l).lookups == l.lookups
  {
  }

  /** Reading back a printed list of well-formed datapaths shows exactly these datapaths. */
  lemma {:induction false} ParsePrint(ls: seq<Listing>)
    requires forall i :: 0 <= i < |ls| ==> ListingOk(ls[i])
    ensures ParseText(PrintText(ls)) == Shown(ls)
  {
    forall i | 0 <= i < |ls| ensures Denotes(GRAMMAR, AllLines(ls)[i], AllOpened(ls)[i]) {
      LinesDenote(ls[i]);
    }
    ParsePrinted(GRAMMAR, AllLines(ls), AllOpened(ls));
  }

  // ------------------------------------------------------------------ listings of a result

  /** No two datapaths, and no two bridges of one datapath, have the same name. */
  ghost predicate Distinct(ls: seq<Listing>) {
    && (forall i, j :: 0 <= i < j < |ls| ==> ls[i].name != ls[j].name)
    && (forall i :: 0 <= i < |ls| ==> DistinctBridges(ls[i].bridges))
  }

  ghost predicate DistinctBridges(bs: seq<Bridge>) {
    forall j, k :: 0 <= j < k < |bs| ==> bs[j].name != bs[k].name
  }

  lemma {:induction false} OpenedFinds(l: Listing, i: nat)
    requires DistinctBridges(l.bridges) && i < |l.bridges|
    ensures l.bridges[i].name in Seal(Opened(l)).bridges
    ensures Seal(Opened(l)).bridges[l.bridges[i].name] == l.bridges[i]
    decreases |l.bridges|
  {
    var n := |l.bridges| - 1;
    if i < n {
      OpenedFinds(l.(bridges := l.bridges[..n]), i);
    }
  }

  /** A listing of a parse result can be printed. */
  lemma {:induction false} ListingsAreOk(text: string, ls: seq<Listing>)
    requires Distinct(ls) && Shown(ls) == ParseText(text)
    ensures forall i :: 0 <= i < |ls| ==> ListingOk(ls[i])
  {
    ParseIsOk(text);
    forall i | 0 <= i < |ls| ensures ListingOk(ls[i]) {
      var os := AllOpened(ls);
      forall j | 0 <= j < |ls| ensures os[j].name == ls[j].name {
        OpenedHead(ls[j]);
      }
      CollectFinds(GRAMMAR, os, i);
      OpenedHead(ls[i]);
      var dp := ParseText(text)[ls[i].name];
      assert dp == Seal(Opened(ls[i]));
      forall j | 0 <= j < |ls[i].bridges| ensures BridgeOk(ls[i].bridges[j]) {
        OpenedFinds(ls[i], j);
      }
    }
  }

  /** Parse, print in any order, and parse again: nothing is lost and nothing is added. */
  lemma RoundTrip(text: string, ls: seq<Listing>)
    requires Distinct(ls) && Shown(ls) == ParseText(text)
    ensures ParseText(PrintText(ls)) == ParseText(text)
  {
    ListingsAreOk(text, ls);
    ParsePrint(ls);
  }

  lemma {:induction false} ListBridges(bs: map<string, Bridge>) returns (list: seq<Bridge>)
    requires BridgesOk(bs)
    ensures forall i :: 0 <= i < |list| ==> list[i].name in bs && bs[list[i].name] == list[i]
    ensures DistinctBridges(list)
    ensures forall name, lookups :: Seal(Opened(Listing(name, lookups, list))).bridges == bs
    decreases |bs|
  {
    if bs == map[] {
      list := [];
    } else {
      var k :| k in bs;
      list := ListBridges(bs - {k});
      var front := list;
      list := list + [bs[k]];
      assert list[..|list| - 1] == front;
      assert (bs - {k})[k := bs[k]] == bs;
    }
  }

  lemma ListingOf(dp: Datapath) returns (l: Listing)
    requires DatapathOk(dp)
    ensures ListingOk(l) && DistinctBridges(l.bridges) && l.name == dp.name
    ensures Seal(Opened(l)) == dp
  {
    var list := ListBridges(dp.bridges);
    l := Listing(dp.name, dp.lookups, list);
    OpenedHead(l);
    ListedOk(list, dp.bridges);
  }

  lemma AddListing(m: map<string, Datapath>, k: string, front: seq<Listing>) returns (ls: seq<Listing>)
    requires k in m && m[k].name == k && DatapathOk(m[k])
    requires Distinct(front) && Shown(front) == m - {k}
    requires forall i :: 0 <= i < |front| ==> ListingOk(front[i]) && front[i].name in m - {k}
    ensures Distinct(ls) && Shown(ls) == m
    ensures forall i :: 0 <= i < |ls| ==> ListingOk(ls[i]) && ls[i].name in m
  {
    var l := ListingOf(m[k]);
    DistinctSnoc(front, l);
    ShownSnoc(front, l);
    assert (m - {k})[k := m[k]] == m;
    ls := front + [l];
  }

  /** Every parse result has a listing, so the round trip is about all of them. */
  lemma {:induction false} HasListing(m: map<string, Datapath>) returns (ls: seq<Listing>)
    requires ResultOk(m)
    ensures Distinct(ls) && Shown(ls) == m
    ensures forall i :: 0 <= i < |ls| ==> ListingOk(ls[i]) && ls[i].name in m
    decreases |m|
  {
    if m == map[] {
      ls := [];
    } else {
      var k :| k in m;
      var front := HasListing(m - {k});
      ls := AddListing(m, k, front);
    }
  }

  lemma DistinctSnoc(front: seq<Listing>, l: Listing)
    requires Distinct(front) && DistinctBridges(l.bridges)
    requires forall i :: 0 <= i < |front| ==> front[i].name != l.name
    ensures Distinct(front + [l])
  {
  }

  lemma ListedOk(list: seq<Bridge>, bs: map<string, Bridge>)
    requires BridgesOk(bs)
    requires forall i :: 0 <= i < |list| ==> list[i].name in bs && bs[list[i].name] == list[i]
    ensures forall i :: 0 <= i < |list| ==> BridgeOk(list[i])
  {
  }

  lemma ShownSnoc(front: seq<Listing>, l: Listing)
    ensures Shown(front + [l]) == Shown(front)[l.name := Seal(Opened(l))]
  {
    OpenedHead(l);
    assert AllOpened(front + [l])[..|front|] == AllOpened(front);
  }

  /** The results of parsing are exactly the maps that satisfy ResultOk. */
  lemma ResultsCharacterised(m: map<string, Datapath>)
    ensures (exists text :: ParseText(text) == m) <==> ResultOk(m)
  {
    if ResultOk(m) {
      var ls := HasListing(m);
      ParsePrint(ls);
      assert ParseText(PrintText(ls)) == m;
    }
    if text :| ParseText(text) == m {
      ParseIsOk(text);
    }
  }
}
