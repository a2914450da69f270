/** Printing an upcall/show result and reading it back. */
module UpcallRoundTrip {
  import opened Wrappers
  import opened Text
  import opened Decimal
  import opened Sequences
  import opened Entries
  import opened Regex
  import opened Blocks
  import opened Upcall

  predicate Natural(n: int) {
    0 <= n <= MAX_INT64
  }

  predicate HandlersOk(handlers: map<int, int>) {
    forall id :: id in handlers ==> Natural(id) && Natural(handlers[id])
  }

  predicate CountersOk(dp: Upcalls) {
    && LabelOk(dp.name) && InInt64(dp.dumpMs)
    && Natural(dp.current) && Natural(dp.avg) && Natural(dp.max) && Natural(dp.limit)
  }

  predicate UpcallsOk(dp: Upcalls) {
    CountersOk(dp) && HandlersOk(dp.handlers)
  }

  /** The counters of a datapath, and its handlers in the order in which they are printed. */
  datatype Listing = Listing(counters: Upcalls, handlers: seq<(int, int)>)

  predicate ListingOk(l: Listing) {
    && CountersOk(l.counters) && l.counters.handlers == map[]
    && forall i :: 0 <= i < |l.handlers| ==> Natural(l.handlers[i].0) && Natural(l.handlers[i].1)
  }

  function Denoted(l: Listing): Upcalls {
    l.counters.(handlers := MapOf(l.handlers))
  }

  function PairText(name: string, n: int): string {
    "(" + (name + (" " + (FormatInt(n) + ")")))
  }

  function PairMatch(name: string, n: int): Match {
    ["("] + ([name] + ([" "] + ([FormatInt(n)] + ([")"] + []))))
  }

  function HeaderText(name: string): string { "" + (name + ":") }

  function PairsText(ps: seq<(string, int)>): string {
    if ps == [] then "" else " " + (PairText(ps[0].0, ps[0].1) + PairsText(ps[1..]))
  }

  function Flows(dp: Upcalls): seq<(string, int)> {
    [("current", dp.current)] + ([("avg", dp.avg)] + ([("max", dp.max)] + ([("limit", dp.limit)] + [])))
  }

  function FlowsText(dp: Upcalls): string {
    "flows :" + PairsText(Flows(dp))
  }

  function DumpText(n: int): string {
    "dump duration " + ":" + (" " + (FormatInt(n) + "ms"))
  }

  function HandlerText(h: (int, int)): string {
    FormatInt(h.0) + (":" + (" " + KeysText(h.1)))
  }

  /** `(keys N)`, one literal of the pattern at a time. */
  function KeysText(n: int): string {
    "(" + ("k" + ("e" + ("y" + ("s" + (" " + (FormatInt(n) + ")"))))))
  }

  function Lines(l: Listing): seq<string>
    decreases |l.handlers|
  {
    if l.handlers == [] then
      [HeaderText(l.counters.name)] + ["  " + FlowsText(l.counters)] + ["  " + DumpText(l.counters.dumpMs)]
    else Lines(l.(handlers := Front(l.handlers))) + ["  " + HandlerText(Last(l.handlers))]
  }

  function AllLines(ls: seq<Listing>): seq<seq<string>> {
    seq(|ls|, i requires 0 <= i < |ls| => Lines(ls[i]))
  }

  function AllDenoted(ls: seq<Listing>): seq<Upcalls> {
    seq(|ls|, i requires 0 <= i < |ls| => Denoted(ls[i]))
  }

  function PrintText(ls: seq<Listing>): string {
    Unlines(Flatten(AllLines(ls)))
  }

  // ------------------------------------------------------------------ the flows line

  lemma DigitsOf(n: int)
    requires n >= 0
    ensures AllDigits(FormatInt(n)) && Digit.Has(FormatInt(n)[0])
  {
    FormatChars(n);
  }

  /** Space, digits and a closing parenthesis. */
  lemma {:induction false} CountMatched(n: int, rest: string)
    requires n >= 0
    ensures Backtrack(GAP, " " + (FormatInt(n) + (")" + rest))) ==
            Some([" "] + ([FormatInt(n)] + ([")"] + [])))
  {
    var d := FormatInt(n);
    var v := ")" + rest;
    DigitsOf(n);
    SpanStops(" ", d + v, ReSpace);
    GreedyStep(Plus(ReSpace), COUNT, " " + (d + v));
    assert (" " + (d + v))[..1] == " " && (" " + (d + v))[1..] == d + v;
    SpanStops(d, v, Digit);
    GreedyStep(Plus(Digit), CLOSE, d + v);
    assert (d + v)[..|d|] == d && (d + v)[|d|..] == v;
    OneStep(One(Only(')')), [], v);
    assert [One(Only(')'))] + [] == CLOSE;
    assert v[..1] == ")";
  }

  lemma Regroup(a: string, b: string, c: string, rest: string)
    ensures ("(" + (a + (" " + (b + c)))) + rest == "(" + (a + (" " + (b + (c + rest))))
  {
  }

  lemma {:induction false} PairMatched(name: string, n: int, rest: string)
    requires n >= 0 && name != "" && Lower.All(name)
    ensures Backtrack(PAREN_PAIR, PairText(name, n) + rest) == Some(PairMatch(name, n))
    ensures Length(PairMatch(name, n)) == |PairText(name, n)|
  {
    var u := " " + (FormatInt(n) + (")" + rest));
    var t := "(" + (name + u);
    Regroup(name, FormatInt(n), ")", rest);
    OneStep(One(Only('(')), NAME, t);
    assert t[..1] == "(" && t[1..] == name + u;
    SpanStops(name, u, Lower);
    GreedyStep(Plus(Lower), GAP, name + u);
    assert (name + u)[..|name|] == name && (name + u)[|name|..] == u;
    CountMatched(n, rest);
    PairLength("(", name, " ", FormatInt(n), ")");
  }

  lemma {:induction false} PairLength(a: string, b: string, c: string, d: string, e: string)
    ensures Length([a] + ([b] + ([c] + ([d] + ([e] + []))))) == |a| + |b| + |c| + |d| + |e|
  {
    LengthCons(a, [b] + ([c] + ([d] + ([e] + []))));
    LengthCons(b, [c] + ([d] + ([e] + [])));
    LengthCons(c, [d] + ([e] + []));
    LengthCons(d, [e] + []);
    LengthCons(e, []);
  }

  lemma LengthCons(a: string, m: Match)
    ensures Length([a] + m) == |a| + Length(m)
  {
    assert ([a] + m)[1..] == m;
  }

  predicate PairOk(p: (string, int)) {
    p.0 != "" && Span(p.0, Lower) == |p.0| && Natural(p.1)
  }

  lemma {:induction false} PairFound(p: (string, int), rest: string)
    requires PairOk(p)
    ensures FindAll(PAREN_PAIR, " " + (PairText(p.0, p.1) + rest)) ==
            [PairMatch(p.0, p.1)] + FindAll(PAREN_PAIR, rest)
  {
    assert Lower.All(p.0);
    FindAllSkips('(', NAME, " ", PairText(p.0, p.1) + rest);
    PairMatched(p.0, p.1, rest);
    FindAllNext(PAREN_PAIR, PairMatch(p.0, p.1), PairText(p.0, p.1), rest);
  }

  function SetAll(dp: Upcalls, ps: seq<(string, int)>): Upcalls
    decreases |ps|
  {
    if ps == [] then dp else SetAll(SetFlows(dp, ps[0].0, ps[0].1), ps[1..])
  }

  lemma {:induction false} FlowMatchesCons(dp: Upcalls, m: Match, ms: seq<Match>)
    requires |m| == 5 && forall i :: 0 <= i < |ms| ==> |ms[i]| == 5
    ensures FlowMatches(dp, [m] + ms) == FlowMatches(FlowMatch(dp, m), ms)
  {
    if ms == [] {
      assert [m] + ms == [m] && Front([m]) == [];
    } else {
      assert Front([m] + ms) == [m] + Front(ms);
      FlowMatchesCons(dp, m, Front(ms));
    }
  }

  lemma PairSets(dp: Upcalls, p: (string, int), ms: seq<Match>)
    requires PairOk(p) && forall i :: 0 <= i < |ms| ==> |ms[i]| == 5
    ensures |PairMatch(p.0, p.1)| == 5
    ensures FlowMatches(dp, [PairMatch(p.0, p.1)] + ms) == FlowMatches(SetFlows(dp, p.0, p.1), ms)
  {
    FlowMatchesCons(dp, PairMatch(p.0, p.1), ms);
    ParseFormat(p.1);
  }

  function PairMatches(ps: seq<(string, int)>): seq<Match> {
    if ps == [] then [] else [PairMatch(ps[0].0, ps[0].1)] + PairMatches(ps[1..])
  }

  /** Every printed group is found, once and in order, and nothing else is. */
  lemma {:induction false} PairsFound(ps: seq<(string, int)>)
    requires forall i :: 0 <= i < |ps| ==> PairOk(ps[i])
    ensures FindAll(PAREN_PAIR, PairsText(ps)) == PairMatches(ps)
  {
    if ps == [] {
      OneStep(One(Only('(')), NAME, "");
    } else {
      PairFound(ps[0], PairsText(ps[1..]));
      PairsFound(ps[1..]);
    }
  }

  /** So every group sets its counter, in order. */
  lemma {:induction false} PairsSet(dp: Upcalls, ps: seq<(string, int)>)
    requires forall i :: 0 <= i < |ps| ==> PairOk(ps[i])
    ensures forall i :: 0 <= i < |PairMatches(ps)| ==> |PairMatches(ps)[i]| == 5
    ensures FlowMatches(dp, PairMatches(ps)) == SetAll(dp, ps)
    decreases |ps|
  {
    if ps != [] {
      var p, rest := ps[0], ps[1..];
      PairsSet(SetFlows(dp, p.0, p.1), rest);
      PairSets(dp, p, PairMatches(rest));
    }
  }

  lemma LowerCurrent()
    ensures Span("current", Lower) == 7
  {
  }

  lemma LowerOthers()
    ensures Span("avg", Lower) == 3 && Span("max", Lower) == 3 && Span("limit", Lower) == 5
  {
  }

  lemma FourOk(a: (string, int), b: (string, int), c: (string, int), d: (string, int))
    requires PairOk(a) && PairOk(b) && PairOk(c) && PairOk(d)
    ensures forall i :: 0 <= i < 4 ==> PairOk([a, b, c, d][i])
  {
  }

  lemma FlowsOk(dp: Upcalls)
    requires CountersOk(dp)
    ensures forall i :: 0 <= i < |Flows(dp)| ==> PairOk(Flows(dp)[i])
  {
    LowerCurrent();
    LowerOthers();
    FourOk(("current", dp.current), ("avg", dp.avg), ("max", dp.max), ("limit", dp.limit));
  }

  lemma SetAllCons(dp: Upcalls, p: (string, int), ps: seq<(string, int)>)
    ensures SetAll(dp, [p] + ps) == SetAll(SetFlows(dp, p.0, p.1), ps)
  {
    assert ([p] + ps)[1..] == ps;
  }

  lemma {:induction false} SetAllFlows(dp: Upcalls, from: Upcalls)
    ensures SetAll(dp, Flows(from)) ==
            dp.(current := from.current, avg := from.avg, max := from.max, limit := from.limit)
  {
    var p1, p2, p3, p4 := ("current", from.current), ("avg", from.avg), ("max", from.max), ("limit", from.limit);
    SetAllCons(dp, p1, [p2] + ([p3] + ([p4] + [])));
    var dp1 := dp.(current := from.current);
    SetAllCons(dp1, p2, [p3] + ([p4] + []));
    var dp2 := dp1.(avg := from.avg);
    SetAllCons(dp2, p3, [p4] + []);
    SetAllCons(dp2.(max := from.max), p4, []);
  }

  lemma {:induction false} FlowsRead(dp: Upcalls, from: Upcalls)
    requires CountersOk(from)
    ensures Content(dp, FlowsText(from)) ==
            dp.(current := from.current, avg := from.avg, max := from.max, limit := from.limit)
  {
    FindAllSkips('(', NAME, "flows :", PairsText(Flows(from)));
    FlowsOk(from);
    PairsFound(Flows(from));
    PairsSet(dp, Flows(from));
    SetAllFlows(dp, from);
    assert "flows" <= FlowsText(from);
  }

  // ------------------------------------------------------------------ the other lines

  lemma {:induction false} DumpRead(dp: Upcalls, n: int)
    requires InInt64(n)
    ensures Content(dp, DumpText(n)) == dp.(dumpMs := n)
  {
    var t := DumpText(n);
    var v := FormatInt(n) + "ms";
    assert "dump duration" <= t && t[0] == 'd';
    CutAt("dump duration ", ':', " " + v);
    DumpValue(n);
    ParseFormat(n);
  }

  lemma DumpValue(n: int)
    ensures TrimSuffix(TrimSpace(" " + (FormatInt(n) + "ms")), "ms") == FormatInt(n)
  {
    var v := FormatInt(n) + "ms";
    FormatChars(n);
    TrimSpacePadded(" ", v);
    assert v[|v| - 2..] == "ms" && v[..|v| - 2] == FormatInt(n);
  }

  lemma {:induction false} KeysMatched(n: int)
    requires n >= 0
    ensures var m := Backtrack(OPEN, KeysText(n));
            m.Some? && m.value[6] == FormatInt(n)
  {
    var u := " " + (FormatInt(n) + ")");
    CountMatched(n, "");
    assert ")" + "" == ")";
    var s := "s" + u;
    var y := "y" + s;
    var e := "e" + y;
    CharStep('s', GAP, u);
    CharStep('y', [One(Only('s'))] + GAP, s);
    CharStep('e', [One(Only('y'))] + ([One(Only('s'))] + GAP), y);
    CharStep('k', [One(Only('e'))] + ([One(Only('y'))] + ([One(Only('s'))] + GAP)), e);
    CharStep('(', KEYS, "k" + e);
    SixthPiece("(", "k", "e", "y", "s", " ", FormatInt(n), ")");
  }

  lemma SixthPiece(a: string, b: string, c: string, d: string, e: string, f: string, g: string, h: string)
    ensures ([a] + ([b] + ([c] + ([d] + ([e] + ([f] + ([g] + ([h] + []))))))))[6] == g
  {
  }

  lemma {:induction false} SpaceMatched(n: int)
    requires n >= 0
    ensures Backtrack(SPACES, " " + KeysText(n)) == Then(" ", Backtrack(OPEN, KeysText(n)))
  {
    var v := KeysText(n);
    SpanStops(" ", v, ReSpace);
    GreedyStep(Star(ReSpace), OPEN, " " + v);
    assert (" " + v)[1..] == v && (" " + v)[..1] == " ";
  }

  lemma {:induction false} ColonMatched(n: int)
    requires n >= 0
    ensures var m := Backtrack(COLON, ":" + (" " + KeysText(n)));
            m.Some? && m.value[8] == FormatInt(n)
  {
    CharStep(':', SPACES, " " + KeysText(n));
    SpaceMatched(n);
    KeysMatched(n);
    Snoc8(":", " ", Backtrack(OPEN, KeysText(n)).value);
  }

  lemma Snoc8(a: string, b: string, rest: Match)
    requires |rest| == 8
    ensures ([a] + ([b] + rest))[8] == rest[6]
  {
  }

  lemma {:induction false} HandlerMatched(h: (int, int))
    requires Natural(h.0) && Natural(h.1)
    ensures var m := Backtrack(HANDLER_LINE, HandlerText(h));
            m.Some? && m.value[0] == FormatInt(h.0) && m.value[9] == FormatInt(h.1)
  {
    var v := ":" + (" " + KeysText(h.1));
    var d := FormatInt(h.0);
    DigitsOf(h.0);
    SpanStops(d, v, Digit);
    GreedyStep(Plus(Digit), COLON, d + v);
    assert (d + v)[..|d|] == d && (d + v)[|d|..] == v;
    ColonMatched(h.1);
    Snoc9(d, Backtrack(COLON, v).value);
  }

  lemma Snoc9(d: string, rest: Match)
    requires |rest| == 10
    ensures ([d] + rest)[0] == d && ([d] + rest)[9] == rest[8]
  {
  }

  lemma {:induction false} HandlerRead(dp: Upcalls, h: (int, int))
    requires Natural(h.0) && Natural(h.1)
    ensures Content(dp, HandlerText(h)) == dp.(handlers := dp.handlers[h.0 := h.1])
  {
    HandlerMatched(h);
    DigitsOf(h.0);
    assert HandlerText(h)[0] == FormatInt(h.0)[0];
    ParseFormat(h.0);
    ParseFormat(h.1);
  }

  // ------------------------------------------------------------------ one block

  predicate LineText(t: string) {
    t != "" && Trimmed(t) && '\n' !in t
  }

  lemma EditPrinted(t: string)
    requires LineText(t)
    ensures Classify("  " + t) == Body && OneLine("  " + t) && TrimSpace("  " + t) == t
  {
    TrimSpacePadded("  ", t);
  }

  lemma NoNewline(n: int)
    ensures '\n' !in FormatInt(n)
  {
    FormatChars(n);
  }

  lemma {:induction false} PairsShape(ps: seq<(string, int)>)
    requires ps != [] && forall i :: 0 <= i < |ps| ==> PairOk(ps[i])
    ensures PairsText(ps) != "" && Last(PairsText(ps)) == ')' && '\n' !in PairsText(ps)
  {
    NoNewline(ps[0].1);
    assert Lower.All(ps[0].0);
    assert Last(PairText(ps[0].0, ps[0].1)) == ')' && '\n' !in PairText(ps[0].0, ps[0].1);
    if |ps| > 1 {
      PairsShape(ps[1..]);
    }
  }

  lemma LineOf(a: string, b: string)
    requires a != "" && !IsUniSpace(a[0]) && '\n' !in a
    requires b != "" && !IsUniSpace(Last(b)) && '\n' !in b
    ensures LineText(a + b)
  {
    assert (a + b)[0] == a[0] && (a + b)[|a + b| - 1] == Last(b);
  }

  lemma FlowsStart()
    ensures "flows :"[0] == 'f' && !IsUniSpace('f') && !IsUniSpace(')') && '\n' !in "flows :"
  {
  }

  lemma FlowsLine(b: string)
    requires b != "" && Last(b) == ')' && '\n' !in b
    ensures LineText("flows :" + b)
  {
    FlowsStart();
    LineOf("flows :", b);
  }

  lemma FlowsShape(dp: Upcalls)
    requires CountersOk(dp)
    ensures LineText(FlowsText(dp))
  {
    FlowsOk(dp);
    PairsShape(Flows(dp));
    FlowsLine(PairsText(Flows(dp)));
  }

  lemma DumpShape(n: int)
    ensures LineText(DumpText(n))
  {
    NoNewline(n);
    assert Last(DumpText(n)) == 's' && DumpText(n)[0] == 'd';
  }

  lemma HandlerShape(h: (int, int))
    requires Natural(h.0) && Natural(h.1)
    ensures LineText(HandlerText(h))
  {
    NoNewline(h.0);
    NoNewline(h.1);
    DigitsOf(h.0);
    assert Last(HandlerText(h)) == ')' && HandlerText(h)[0] == FormatInt(h.0)[0];
  }

  lemma HeaderPrinted(name: string)
    requires LabelOk(name)
    ensures Classify(HeaderText(name)) == Header(NewUpcalls(name)) && OneLine(HeaderText(name))
  {
    var line := HeaderText(name);
    assert line[0] == if name == "" then ':' else name[0];
    LabelPrinted("", name);
    assert !Indented(line) && LabelOn(line) == Some(name);
    assert TrimSpace(line) != "";
  }

  lemma {:induction false} EditStep(lines: seq<string>, dp: Upcalls, t: string)
    requires Denotes(GRAMMAR, lines, dp) && LineText(t)
    ensures Denotes(GRAMMAR, lines + ["  " + t], Content(dp, t))
  {
    EditPrinted(t);
    RunSnoc(GRAMMAR, Start(), lines, "  " + t);
  }

  lemma {:induction false} CountersDenote(dp: Upcalls)
    requires CountersOk(dp) && dp.handlers == map[]
    ensures Denotes(GRAMMAR, [HeaderText(dp.name)] + ["  " + FlowsText(dp)] + ["  " + DumpText(dp.dumpMs)], dp)
  {
    var l0, dp0 := [HeaderText(dp.name)], NewUpcalls(dp.name);
    HeaderPrinted(dp.name);
    RunSnoc(GRAMMAR, Start(), [], HeaderText(dp.name));
    assert [] + l0 == l0;
    FlowsShape(dp);
    EditStep(l0, dp0, FlowsText(dp));
    FlowsRead(dp0, dp);
    var dp1 := dp.(dumpMs := 0);
    DumpShape(dp.dumpMs);
    EditStep(l0 + ["  " + FlowsText(dp)], dp1, DumpText(dp.dumpMs));
    DumpRead(dp1, dp.dumpMs);
  }

  lemma {:induction false} LinesDenote(l: Listing)
    requires ListingOk(l)
    ensures Denotes(GRAMMAR, Lines(l), Denoted(l))
    decreases |l.handlers|
  {
    if l.handlers == [] {
      CountersDenote(l.counters);
    } else {
      var front, h := l.(handlers := Front(l.handlers)), Last(l.handlers);
      LinesDenote(front);
      HandlerShape(h);
      EditStep(Lines(front), Denoted(front), HandlerText(h));
      HandlerRead(Denoted(front), h);
    }
  }

  /** Reading back printed datapaths collects exactly these datapaths. */
  lemma ParsePrint(ls: seq<Listing>)
    requires forall i :: 0 <= i < |ls| ==> ListingOk(ls[i])
    ensures ParseText(PrintText(ls)) == Collect(GRAMMAR, AllDenoted(ls))
  {
    forall i | 0 <= i < |ls| ensures Denotes(GRAMMAR, AllLines(ls)[i], AllDenoted(ls)[i]) {
      LinesDenote(ls[i]);
    }
    ParsePrinted(GRAMMAR, AllLines(ls), AllDenoted(ls));
  }

  // ------------------------------------------------------------------ what parsing can produce

  lemma {:induction false} FlowMatchesOk(dp: Upcalls, ms: seq<Match>)
    requires UpcallsOk(dp) && forall i :: 0 <= i < |ms| ==> |ms[i]| == 5 && AllDigits(ms[i][3])
    ensures UpcallsOk(FlowMatches(dp, ms))
  {
    if ms != [] {
      FlowMatchesOk(dp, Front(ms));
      if ParseInt(Last(ms)[3]).Some? {
        DigitsAreNatural(Last(ms)[3]);
      }
    }
  }

  lemma FlowsLineOk(dp: Upcalls, t: string)
    requires UpcallsOk(dp)
    ensures UpcallsOk(FlowMatches(dp, FindAll(PAREN_PAIR, t)))
  {
    assert PAREN_PAIR[3] == Plus(Digit);
    FindAllAccepts(PAREN_PAIR, t, 3);
    FlowMatchesOk(dp, FindAll(PAREN_PAIR, t));
  }

  lemma HandlerOk(t: string)
    requires Handler(t).Some?
    ensures Natural(Handler(t).value.0) && Natural(Handler(t).value.1)
  {
    var m := Backtrack(HANDLER_LINE, t).value;
    assert HANDLER_LINE[0] == Plus(Digit) && HANDLER_LINE[9] == Plus(Digit);
    BacktrackIsLeftmostFirst(HANDLER_LINE, t);
    MatchAccepts(HANDLER_LINE, t, m, 0);
    MatchAccepts(HANDLER_LINE, t, m, 9);
    DigitsAreNatural(m[0]);
    DigitsAreNatural(m[9]);
  }

  lemma EditOk(dp: Upcalls, line: string)
    requires UpcallsOk(dp)
    ensures UpcallsOk(EditBlock(dp, line))
  {
    var t := TrimSpace(line);
    if "flows" <= t {
      FlowsLineOk(dp, t);
    } else if !("dump duration" <= t) && Handler(t).Some? {
      HandlerOk(t);
    }
  }

  predicate ResultOk(m: map<string, Upcalls>) {
    forall k :: k in m ==> m[k].name == k && UpcallsOk(m[k])
  }

  lemma ParseIsOk(text: string)
    ensures ResultOk(ParseText(text))
  {
    forall l | OneLine(l) && Classify(l).Header? ensures UpcallsOk(Classify(l).block) {
      LabelOnOk(l);
    }
    forall dp, l | OneLine(l) && UpcallsOk(dp) ensures UpcallsOk(EditBlock(dp, l)) {
      EditOk(dp, l);
    }
    var inv := (dp: Upcalls) => UpcallsOk(dp);
    assert Keeps(GRAMMAR, inv);
    ParseShows(GRAMMAR, inv, text);
    forall k | k in ParseText(text) ensures ParseText(text)[k].name == k && UpcallsOk(ParseText(text)[k]) {
      assert Shows(GRAMMAR, inv, k, ParseText(text)[k]);
    }
  }

  /** No two datapaths have one name, and no two handlers of a datapath have one id. */
  ghost predicate Distinct(ls: seq<Listing>) {
    && (forall i, j :: 0 <= i < j < |ls| ==> ls[i].counters.name != ls[j].counters.name)
    && (forall i :: 0 <= i < |ls| ==> DistinctKeys(ls[i].handlers) && ls[i].counters.handlers == map[])
  }

  /** Parse, print in any order, and parse again: nothing is lost and nothing is added. */
  lemma RoundTrip(text: string, ls: seq<Listing>)
    requires Distinct(ls) && Collect(GRAMMAR, AllDenoted(ls)) == ParseText(text)
    ensures ParseText(PrintText(ls)) == ParseText(text)
  {
    ParseIsOk(text);
    forall i | 0 <= i < |ls| ensures ListingOk(ls[i]) {
      CollectFinds(GRAMMAR, AllDenoted(ls), i);
      assert ParseText(text)[ls[i].counters.name] == Denoted(ls[i]);
      forall j | 0 <= j < |ls[i].handlers|
        ensures Natural(ls[i].handlers[j].0) && Natural(ls[i].handlers[j].1)
      {
        MapOfFinds(ls[i].handlers, j);
      }
    }
    ParsePrint(ls);
  }

  lemma ListingOf(dp: Upcalls) returns (l: Listing)
    ensures Denoted(l) == dp && l.counters.name == dp.name
    ensures l.counters.handlers == map[] && DistinctKeys(l.handlers)
    ensures UpcallsOk(dp) ==> ListingOk(l)
  {
    var hs := Enumerate(dp.handlers);
    l := Listing(dp.(handlers := map[]), hs);
  }

  lemma CollectSnoc(ls: seq<Listing>, l: Listing)
    ensures Collect(GRAMMAR, AllDenoted(ls + [l])) == Collect(GRAMMAR, AllDenoted(ls))[l.counters.name := Denoted(l)]
  {
    var ds := AllDenoted(ls + [l]);
    assert ds[..|ds| - 1] == AllDenoted(ls);
  }

  lemma DistinctSnoc(ls: seq<Listing>, l: Listing)
    requires Distinct(ls) && DistinctKeys(l.handlers) && l.counters.handlers == map[]
    requires forall i :: 0 <= i < |ls| ==> ls[i].counters.name != l.counters.name
    ensures Distinct(ls + [l])
  {
  }

  lemma AddListing(m: map<string, Upcalls>, k: string, front: seq<Listing>) returns (ls: seq<Listing>)
    requires k in m && m[k].name == k
    requires Distinct(front) && Collect(GRAMMAR, AllDenoted(front)) == m - {k}
    requires forall i :: 0 <= i < |front| ==> front[i].counters.name in m - {k}
    ensures Distinct(ls) && Collect(GRAMMAR, AllDenoted(ls)) == m
    ensures forall i :: 0 <= i < |ls| ==> ls[i].counters.name in m
  {
    var l := ListingOf(m[k]);
    ls := front + [l];
    DistinctSnoc(front, l);
    CollectSnoc(front, l);
    assert (m - {k})[k := m[k]] == m;
  }

  /** Every result can be listed for printing. */
  lemma {:induction false} HasListing(m: map<string, Upcalls>) returns (ls: seq<Listing>)
    requires ResultOk(m)
    ensures Distinct(ls) && Collect(GRAMMAR, AllDenoted(ls)) == m
    ensures forall i :: 0 <= i < |ls| ==> ls[i].counters.name in m
    decreases |m|
  {
    if m == map[] {
      ls := [];
    } else {
      var k :| k in m;
      var front := HasListing(m - {k});
      ls := AddListing(m, k, front);
    }
  }

  /** The results of parsing are exactly the maps of well-formed datapaths under their names. */
  lemma ResultsCharacterised(m: map<string, Upcalls>)
    ensures (exists text :: ParseText(text) == m) <==> ResultOk(m)
  {
    if ResultOk(m) {
      forall k | k in m
        ensures Writable(GRAMMAR, k, m[k])
      {
        var l := ListingOf(m[k]);
        LinesDenote(l);
      }
      var blocks, ds := Reachable(GRAMMAR, m);
      ParsePrinted(GRAMMAR, blocks, ds);
      assert ParseText(Unlines(Flatten(blocks))) == m;
    }
    if text :| ParseText(text) == m {
      ParseIsOk(text);
    }
  }
}
