/** dpif/show on values: column-0 lines open a datapath, lines indented by two spaces open a bridge
    of it, lines indented by four spaces add a port to that bridge. */
module Dpif {
  import opened Wrappers
  import opened Text
  import opened Decimal
  import opened KeyValue
  import opened PortLine
  import opened Blocks
  import opened Entries

  datatype Bridge = Bridge(name: string, ports: seq<Port>)
  datatype Datapath = Datapath(name: string, lookups: Lookups, bridges: map<string, Bridge>)

  /** The datapath being read: the bridges finished so far and the one that port lines extend. */
  datatype Open = Open(name: string, lookups: Lookups, finished: map<string, Bridge>, bridge: Option<Bridge>)

  function Bridges(o: Open): map<string, Bridge> {
    match o.bridge
    case None => o.finished
    case Some(b) => o.finished[b.name := b]
  }

  function Seal(o: Open): Datapath {
    Datapath(o.name, o.lookups, Bridges(o))
  }

  // ------------------------------------------------------------------ datapath lines

  /** What the token loop of a datapath line accumulates. */
  datatype Scan = Scan(lookups: Lookups, seen: bool)

  function ScanToken(s: Scan, tok: string): Scan {
    match KeyInt(tok)
    case None => s
    case Some(kv) => Scan(SetLookup(s.lookups, kv.0, kv.1), s.seen || IsLookupKey(kv.0))
  }

  function ScanTokens(toks: seq<string>): Scan {
    if toks == [] then Scan(NO_LOOKUPS, false)
    else ScanToken(ScanTokens(toks[..|toks| - 1]), toks[|toks| - 1])
  }

  lemma ScanNext(toks: seq<string>, i: nat)
    requires i < |toks|
    ensures var s := ScanTokens(toks[..i]);
            ScanTokens(toks[..i + 1]) ==
            match KeyInt(toks[i])
            case None => s
            case Some(kv) => Scan(SetLookup(s.lookups, kv.0, kv.1), s.seen || IsLookupKey(kv.0))
  {
    assert toks[..i + 1][..i] == toks[..i];
  }

  function DatapathLine(line: string): Option<(string, Lookups)> {
    var cut := Cut(line, ':');
    if !cut.2 || cut.0 == "" then None
    else
      var s := ScanTokens(Fields(cut.1));
      if s.seen then Some((cut.0, s.lookups)) else None
  }

  // ------------------------------------------------------------------ which lines open a datapath

  /** The line is a non-empty name without a colon, a colon, and fields of which at least one gives an
      int64 to hit, missed or lost; each counter is that of the last field with its key, or zero. */
  ghost predicate Opens(line: string, name: string, l: Lookups) {
    && name != "" && ':' !in name && name + ":" <= line
    && var toks := Fields(line[|name| + 1..]);
       HasLookup(toks) && LookupsFrom(toks, Lookups(0, 0, 0), l)
  }

  lemma {:induction false} ScanMeaning(toks: seq<string>)
    ensures LookupsFrom(toks, NO_LOOKUPS, ScanTokens(toks).lookups)
    ensures ScanTokens(toks).seen <==> HasLookup(toks)
  {
    if toks == [] {
      LookupsFromNone(NO_LOOKUPS);
    } else {
      var front, tok := toks[..|toks| - 1], toks[|toks| - 1];
      ScanMeaning(front);
      LookupsFromSnoc(front, tok, NO_LOOKUPS, ScanTokens(front).lookups);
      HasLookupSnoc(front, tok);
      IsLookupToken(tok);
      assert front + [tok] == toks;
    }
  }

  lemma LookupsFromIsUnique(toks: seq<string>, before: Lookups, a: Lookups, b: Lookups)
    requires LookupsFrom(toks, before, a) && LookupsFrom(toks, before, b)
    ensures a == b
  {
    LastOrIsUnique(toks, ValueOf("hit"), before.hit, a.hit, b.hit);
    LastOrIsUnique(toks, ValueOf("missed"), before.missed, a.missed, b.missed);
    LastOrIsUnique(toks, ValueOf("lost"), before.lost, a.lost, b.lost);
  }

  /** The headers are exactly these lines, with exactly these counters. */
  lemma DatapathLineMeaning(line: string, name: string, l: Lookups)
    ensures DatapathLine(line) == Some((name, l)) <==> Opens(line, name, l)
  {
    if name != "" && ':' !in name && name + ":" <= line {
      CutKey(line, name);
      var toks := Fields(line[|name| + 1..]);
      ScanMeaning(toks);
      if Opens(line, name, l) {
        LookupsFromIsUnique(toks, NO_LOOKUPS, l, ScanTokens(toks).lookups);
      }
    } else {
      var cut := Cut(line, ':');
      assert cut.2 && cut.0 == name ==> line == name + ":" + cut.1;
    }
  }

  lemma NoHeader(line: string)
    requires DatapathLine(line) == None
    ensures forall name, l :: !Opens(line, name, l)
  {
    forall name, l ensures !Opens(line, name, l) {
      DatapathLineMeaning(line, name, l);
    }
  }

  /** After a name and a colon, any fields open a datapath if one of them is a lookup counter. */
  lemma HeaderRecognised(name: string, rest: string)
    requires name != "" && ':' !in name
    ensures DatapathLine(name + ":" + rest).Some? <==> HasLookup(Fields(rest))
    ensures DatapathLine(name + ":" + rest).Some? ==>
      && DatapathLine(name + ":" + rest).value.0 == name
      && LookupsFrom(Fields(rest), Lookups(0, 0, 0), DatapathLine(name + ":" + rest).value.1)
  {
    CutAt(name, ':', rest);
    ScanMeaning(Fields(rest));
  }

  // ------------------------------------------------------------------ the block grammar

  function Classify(line: string): Line<Open> {
    if line == "" then Skip
    else if "  " <= line then Body
    else
      match DatapathLine(line)
      case None => Skip
      case Some(dp) => Header(Open(dp.0, dp.1, map[], None))
  }

  function PortOn(line: string): Option<Port> {
    ParsePortLine(TrimLeft(line, Blank))
  }

  /** Spaces and tabs before a port line play no part. */
  lemma PortOnMeaning(pad: string, line: string)
    requires Blank.All(pad) && (line == "" || !(line[0] == ' ' || line[0] == '\t'))
    ensures PortOn(pad + line) == ParsePortLine(line)
  {
    TrimLeftSkips(pad, line, Blank);
  }

  function EditBlock(o: Open, line: string): Open {
    if "    " <= line then
      match o.bridge
      case None => o
      case Some(b) =>
        match PortOn(line)
        case None => o
        case Some(p) => o.(bridge := Some(Bridge(b.name, b.ports + [p])))
    else
      match LabelOn(line)
      case None => o
      case Some(name) => Open(o.name, o.lookups, Bridges(o), Some(Bridge(name, [])))
  }

  function KeyOf(o: Open): string { o.name }

  const GRAMMAR: Grammar<Open, Datapath> := Grammar(Classify, EditBlock, KeyOf, Seal)

  function ParseText(text: string): map<string, Datapath> {
    Parse(GRAMMAR, text)
  }

  // ------------------------------------------------------------------ what one line changes

  lemma EditChanges(st: State<Datapath, Open>, o: Open)
    requires st.cur.Some? && o.name == st.cur.value.name
    ensures Result(GRAMMAR, State(st.done, Some(o))) == Result(GRAMMAR, st)[o.name := Seal(o)]
  {
  }

  /** A port line changes the open bridge of the open datapath and nothing else. */
  lemma PortLineChanges(st: State<Datapath, Open>, line: string)
    requires "    " <= line
    ensures if st.cur == None || st.cur.value.bridge == None || PortOn(line) == None
            then Step(GRAMMAR, st, line) == st
            else
              var o, b, st' := st.cur.value, st.cur.value.bridge.value, Step(GRAMMAR, st, line);
              var b' := Bridge(b.name, b.ports + [PortOn(line).value]);
              && st' == State(st.done, Some(o.(bridge := Some(b'))))
              && Seal(st'.cur.value) == Seal(o).(bridges := Bridges(o)[b.name := b'])
              && Result(GRAMMAR, st') == Result(GRAMMAR, st)[o.name := Seal(st'.cur.value)]
  {
    IndentedIsBody(line);
    if st.cur.Some? && st.cur.value.bridge.Some? && PortOn(line).Some? {
      var o, b := st.cur.value, st.cur.value.bridge.value;
      var b' := Bridge(b.name, b.ports + [PortOn(line).value]);
      assert o.finished[b.name := b'] == Bridges(o)[b.name := b'];
      EditChanges(st, o.(bridge := Some(b')));
    }
  }

  lemma IndentedIsBody(line: string)
    requires "  " <= line || "    " <= line
    ensures Classify(line) == Body
  {
  }

  /** A bridge line adds an empty bridge to the open datapath, over one of the same name. */
  lemma BridgeLineChanges(st: State<Datapath, Open>, line: string)
    requires "  " <= line && !("    " <= line)
    ensures if st.cur == None || LabelOn(line) == None
            then Step(GRAMMAR, st, line) == st
            else
              var o, b, st' := st.cur.value, Bridge(LabelOn(line).value, []), Step(GRAMMAR, st, line);
              && st' == State(st.done, Some(Open(o.name, o.lookups, Bridges(o), Some(b))))
              && Seal(st'.cur.value) == Seal(o).(bridges := Bridges(o)[b.name := b])
              && Result(GRAMMAR, st') == Result(GRAMMAR, st)[o.name := Seal(st'.cur.value)]
  {
    IndentedIsBody(line);
    if st.cur.Some? && LabelOn(line).Some? {
      var o := st.cur.value;
      EditChanges(st, Open(o.name, o.lookups, Bridges(o), Some(Bridge(LabelOn(line).value, []))));
    }
  }

  /** Any other line either changes nothing, and leaves the datapath and the bridge open, or opens
      a datapath with no bridges, over one of the same name. */
  lemma DatapathLineChanges(st: State<Datapath, Open>, line: string)
    requires line != "" && !("  " <= line)
    ensures if DatapathLine(line) == None
            then Step(GRAMMAR, st, line) == st
            else
              var (name, lookups) := DatapathLine(line).value;
              var st' := Step(GRAMMAR, st, line);
              && st' == State(Result(GRAMMAR, st), Some(Open(name, lookups, map[], None)))
              && Result(GRAMMAR, st') == Result(GRAMMAR, st)[name := Datapath(name, lookups, map[])]
  {
  }

  /** A line leaves every datapath alone but the current one, whatever was parsed before, unless it
      is a header that takes the datapath's name. */
  lemma OthersUntouched(st: State<Datapath, Open>, line: string, k: string)
    requires k in Result(GRAMMAR, st)
    requires st.cur.Some? ==> st.cur.value.name != k
    requires Classify(line).Header? ==> Classify(line).block.name != k
    ensures k in Result(GRAMMAR, Step(GRAMMAR, st, line))
    ensures Result(GRAMMAR, Step(GRAMMAR, st, line))[k] == Result(GRAMMAR, st)[k]
  {
    if "    " <= line {
      PortLineChanges(st, line);
      IndentedIsBody(line);
    } else if "  " <= line {
      BridgeLineChanges(st, line);
      IndentedIsBody(line);
    } else if line != "" {
      DatapathLineChanges(st, line);
    }
  }

  /** In the current datapath a line leaves every bridge alone but the current one, unless it opens a
      bridge of that name. */
  lemma OtherBridgesUntouched(st: State<Datapath, Open>, line: string, j: string)
    requires st.cur.Some? && !Classify(line).Header?
    requires j in Bridges(st.cur.value) && LabelOn(line) != Some(j)
    requires st.cur.value.bridge.Some? ==> st.cur.value.bridge.value.name != j
    ensures var st' := Step(GRAMMAR, st, line);
      && st'.cur.Some? && st'.cur.value.name == st.cur.value.name
      && j in Bridges(st'.cur.value) && Bridges(st'.cur.value)[j] == Bridges(st.cur.value)[j]
  {
    if "    " <= line {
      PortLineChanges(st, line);
      IndentedIsBody(line);
    } else if "  " <= line {
      BridgeLineChanges(st, line);
      IndentedIsBody(line);
    } else if line != "" {
      DatapathLineChanges(st, line);
    }
  }

  lemma NoHeaderNoChange(st: State<Datapath, Open>, line: string)
    requires line != "" && !("  " <= line) && DatapathLine(line) == None
    ensures Step(GRAMMAR, st, line) == st
  {
  }

  // ------------------------------------------------------------------ block composition

  /** Parsing A and then a text B that begins with a datapath line gives A's datapaths overridden,
      name by name, by B's. */
  lemma ComposeTexts(a: string, b: string)
    requires Classify(Split(b, '\n')[0]).Header?
    ensures ParseText(a + "\n" + b) == ParseText(a) + ParseText(b)
  {
    Compose(GRAMMAR, a, b);
  }

  // ------------------------------------------------------------------ what parsing can produce

  predicate DatapathNameOk(name: string) {
    name != "" && ':' !in name && '\n' !in name && !("  " <= name)
  }

  predicate BridgeOk(b: Bridge) {
    LabelOk(b.name) && forall i :: 0 <= i < |b.ports| ==> PortOk(b.ports[i])
  }

  predicate BridgesOk(bs: map<string, Bridge>) {
    forall k :: k in bs ==> bs[k].name == k && BridgeOk(bs[k])
  }

  predicate DatapathOk(dp: Datapath) {
    DatapathNameOk(dp.name) && LookupsOk(dp.lookups) && BridgesOk(dp.bridges)
  }

  ghost predicate OpenOk(o: Open) {
    && DatapathNameOk(o.name) && LookupsOk(o.lookups) && BridgesOk(o.finished)
    && (o.bridge.Some? ==> BridgeOk(o.bridge.value))
  }

  lemma ScanTokensOk(toks: seq<string>)
    ensures LookupsOk(ScanTokens(toks).lookups)
  {
  }

  lemma HeaderOk(line: string)
    requires OneLine(line) && Classify(line).Header?
    ensures OpenOk(Classify(line).block)
  {
    var cut := Cut(line, ':');
    ScanTokensOk(Fields(cut.1));
    assert cut.0 <= line;
  }

  /** Every parsed port has a non-empty name and OpenFlow port without `\s` characters, and a
      number from 0 up to the largest int64. */
  lemma {:induction false} PortLineOk(line: string)
    requires OneLine(line) && ParsePortLine(line).Some?
    ensures PortOk(ParsePortLine(line).value)
  {
    PortRegexMeaning(line);
    var m := MeaningPieces(line);
    DigitsAreNatural(m[2]);
    var front, back := TrimSpaceMeaning(m[8]);
    assert forall ch :: ch in TrimSpace(m[8]) ==> ch in m[8];
  }

  lemma PortOnOk(line: string)
    requires OneLine(line) && PortOn(line).Some?
    ensures PortOk(PortOn(line).value)
  {
    var t := TrimLeft(line, Blank);
    assert forall i :: 0 <= i < |t| ==> t[i] == line[Span(line, Blank) + i];
    PortLineOk(t);
  }

  lemma OneMorePort(b: Bridge, p: Port)
    requires BridgeOk(b) && PortOk(p)
    ensures BridgeOk(Bridge(b.name, b.ports + [p]))
  {
  }

  lemma BridgesOfOpen(o: Open)
    requires OpenOk(o)
    ensures BridgesOk(Bridges(o))
  {
  }

  lemma PortEditOk(o: Open, line: string)
    requires OneLine(line) && OpenOk(o) && "    " <= line
    ensures OpenOk(EditBlock(o, line))
  {
    if o.bridge.Some? && PortOn(line).Some? {
      PortOnOk(line);
      OneMorePort(o.bridge.value, PortOn(line).value);
    }
  }

  lemma BridgeEditOk(o: Open, line: string)
    requires OneLine(line) && OpenOk(o) && !("    " <= line)
    ensures OpenOk(EditBlock(o, line))
  {
    if LabelOn(line).Some? {
      LabelOnOk(line);
      BridgesOfOpen(o);
    }
  }

  lemma EditOk(o: Open, line: string)
    requires OneLine(line) && OpenOk(o)
    ensures OpenOk(EditBlock(o, line))
  {
    if "    " <= line {
      PortEditOk(o, line);
    } else {
      BridgeEditOk(o, line);
    }
  }

  predicate ResultOk(m: map<string, Datapath>) {
    forall k :: k in m ==> m[k].name == k && DatapathOk(m[k])
  }

  /** Every result satisfies the conditions under which it can be printed. */
  lemma ParseIsOk(text: string)
    ensures ResultOk(ParseText(text))
  {
    forall l | OneLine(l) && Classify(l).Header? ensures OpenOk(Classify(l).block) {
      HeaderOk(l);
    }
    forall o, l | OneLine(l) && OpenOk(o) ensures OpenOk(EditBlock(o, l)) {
      EditOk(o, l);
    }
    var inv := (o: Open) => OpenOk(o);
    assert Keeps(GRAMMAR, inv);
    ParseShows(GRAMMAR, inv, text);
    forall k | k in ParseText(text) ensures ParseText(text)[k].name == k && DatapathOk(ParseText(text)[k]) {
      assert Shows(GRAMMAR, inv, k, ParseText(text)[k]);
    }
  }
}
