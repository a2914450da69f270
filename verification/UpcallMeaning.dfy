/** What each line of upcall/show says, for every line and every datapath. */
module UpcallMeaning {
  import opened Wrappers
  import opened Text
  import opened Decimal
  import opened Sequences
  import opened Entries
  import opened Regex
  import Blocks
  import opened Upcall
  import opened UpcallRoundTrip

  // ------------------------------------------------------------------ flows

  /** The int64 that a (name value) group gives to the name. */
  function GroupOf(name: string): Match -> Option<int> {
    m => if |m| == 5 && m[1] == name then ParseInt(m[3]) else None
  }

  /** Each flow count becomes the value of the last group with its name, or stays; all else stays. */
  ghost predicate FlowsFrom(before: Upcalls, ms: seq<Match>, after: Upcalls) {
    && LastOr(ms, GroupOf("current"), before.current, after.current)
    && LastOr(ms, GroupOf("avg"), before.avg, after.avg)
    && LastOr(ms, GroupOf("max"), before.max, after.max)
    && LastOr(ms, GroupOf("limit"), before.limit, after.limit)
    && after.name == before.name && after.dumpMs == before.dumpMs && after.handlers == before.handlers
  }

  lemma FlowMatchSets(dp: Upcalls, m: Match)
    requires |m| == 5
    ensures FlowMatch(dp, m) == dp.(
      current := Or(GroupOf("current")(m), dp.current), avg := Or(GroupOf("avg")(m), dp.avg),
      max := Or(GroupOf("max")(m), dp.max), limit := Or(GroupOf("limit")(m), dp.limit))
  {
  }

  lemma FlowsFromSnoc(before: Upcalls, ms: seq<Match>, m: Match, dp: Upcalls)
    requires FlowsFrom(before, ms, dp) && |m| == 5
    ensures FlowsFrom(before, ms + [m], FlowMatch(dp, m))
  {
    FlowMatchSets(dp, m);
    LastOrSnoc(ms, m, GroupOf("current"), before.current, dp.current);
    LastOrSnoc(ms, m, GroupOf("avg"), before.avg, dp.avg);
    LastOrSnoc(ms, m, GroupOf("max"), before.max, dp.max);
    LastOrSnoc(ms, m, GroupOf("limit"), before.limit, dp.limit);
  }

  lemma {:induction false} FlowMatchesMeaning(dp: Upcalls, ms: seq<Match>)
    requires forall i :: 0 <= i < |ms| ==> |ms[i]| == 5
    ensures FlowsFrom(dp, ms, FlowMatches(dp, ms))
  {
    if ms != [] {
      FlowMatchesMeaning(dp, Front(ms));
      FlowsFromSnoc(dp, Front(ms), Last(ms), FlowMatches(dp, Front(ms)));
      FrontLast(ms);
    }
  }

  lemma PairConsumes()
    ensures Consumes(PAREN_PAIR)
  {
    assert PAREN_PAIR[0].Least() > 0;
  }

  /** A line that starts with `flows`, with whatever follows, sets the counts from the groups found in it. */
  lemma FlowsMeaning(dp: Upcalls, t: string, ms: seq<Match>)
    requires "flows" <= t && Found(PAREN_PAIR, t, ms)
    ensures FlowsFrom(dp, ms, Content(dp, t))
  {
    PairConsumes();
    FindAllMeaning(PAREN_PAIR, t);
    FoundIsUnique(PAREN_PAIR, t, ms, FindAll(PAREN_PAIR, t));
    FlowMatchesMeaning(dp, ms);
  }

  /** The text of a group. */
  ghost predicate GroupForm(t: string, name: string, gap: string, digits: string) {
    && "(" + (name + (gap + (digits + ")"))) <= t
    && name != "" && Lower.All(name) && gap != "" && ReSpace.All(gap) && AllDigits(digits)
  }

  lemma PairPieces(m: Match)
    requires |m| == 5
    ensures AcceptsAll(PAREN_PAIR, m) <==>
      && m[0] == "(" && m[1] != "" && Lower.All(m[1]) && m[2] != "" && ReSpace.All(m[2])
      && AllDigits(m[3]) && m[4] == ")"
  {
    OnlyAccepts('(', m[0]);
    OnlyAccepts(')', m[4]);
    assert |PAREN_PAIR| == 5;
    assert PAREN_PAIR[0] == One(Only('(')) && PAREN_PAIR[1] == Plus(Lower) && PAREN_PAIR[2] == Plus(ReSpace);
    assert PAREN_PAIR[3] == Plus(Digit) && PAREN_PAIR[4] == One(Only(')'));
  }

  lemma OnlyAccepts(c: char, w: string)
    ensures One(Only(c)).Accepts(w) <==> w == [c]
  {
  }

  lemma Flat5(m: Match)
    requires |m| == 5
    ensures Flat(m) == m[0] + (m[1] + (m[2] + (m[3] + m[4])))
  {
    FlatDrop(m, 0);
    FlatDrop(m, 1);
    FlatDrop(m, 2);
    FlatDrop(m, 3);
    FlatDrop(m, 4);
    assert m[0..] == m && m[5..] == [] && m[4] + "" == m[4];
  }

  /** The groups are the texts of this form and no others. */
  lemma GroupMeaning(t: string, m: Match)
    ensures Matches(PAREN_PAIR, t, m) <==>
      |m| == 5 && m[0] == "(" && m[4] == ")" && GroupForm(t, m[1], m[2], m[3])
  {
    MatchesMeaning(PAREN_PAIR, t, m);
    assert |PAREN_PAIR| == 5;
    if |m| == 5 {
      PairPieces(m);
      Flat5(m);
    }
  }

  lemma {:induction false} PairMatchAt(ps: seq<(string, int)>, i: nat)
    requires i < |ps|
    ensures |PairMatches(ps)| == |ps| && PairMatches(ps)[i] == PairMatch(ps[i].0, ps[i].1)
  {
    if i > 0 {
      PairMatchAt(ps[1..], i - 1);
    } else if |ps| > 1 {
      PairMatchAt(ps[1..], 0);
    }
  }

  lemma PairMatchValue(e: (string, int), key: string)
    requires PairOk(e)
    ensures GroupOf(key)(PairMatch(e.0, e.1)) == EntryOf(key)(e)
  {
    ParseFormat(e.1);
  }

  lemma CountsAgree(ms: seq<Match>, ps: seq<(string, int)>, key: string, before: int, after: int)
    requires |ms| == |ps|
    requires forall i :: 0 <= i < |ps| ==> PairOk(ps[i]) && ms[i] == PairMatch(ps[i].0, ps[i].1)
    requires LastOr(ms, GroupOf(key), before, after)
    ensures LastOr(ps, EntryOf(key), before, after)
  {
    forall i | 0 <= i < |ps| ensures GroupOf(key)(ms[i]) == EntryOf(key)(ps[i]) {
      PairMatchValue(ps[i], key);
    }
    LastOrSame(ms, GroupOf(key), ps, EntryOf(key), before, after);
  }

  lemma PairMatchesAt(ps: seq<(string, int)>)
    ensures |PairMatches(ps)| == |ps|
    ensures forall i :: 0 <= i < |ps| ==> PairMatches(ps)[i] == PairMatch(ps[i].0, ps[i].1)
  {
    if ps != [] {
      PairMatchAt(ps, 0);
    }
    forall i | 0 <= i < |ps| ensures PairMatches(ps)[i] == PairMatch(ps[i].0, ps[i].1) {
      PairMatchAt(ps, i);
    }
  }

  lemma PrintedCount(ps: seq<(string, int)>, key: string, before: int, after: int)
    requires forall i :: 0 <= i < |ps| ==> PairOk(ps[i])
    requires LastOr(PairMatches(ps), GroupOf(key), before, after)
    ensures LastOr(ps, EntryOf(key), before, after)
  {
    PairMatchesAt(ps);
    CountsAgree(PairMatches(ps), ps, key, before, after);
  }

  /** `flows`, any padding without a parenthesis, and printed groups: the groups set the counts. */
  lemma PaddedFlows(dp: Upcalls, pad: string, ps: seq<(string, int)>)
    requires '(' !in pad && forall i :: 0 <= i < |ps| ==> PairOk(ps[i])
    ensures var r := Content(dp, "flows" + pad + PairsText(ps));
      && LastOr(ps, EntryOf("current"), dp.current, r.current)
      && LastOr(ps, EntryOf("avg"), dp.avg, r.avg)
      && LastOr(ps, EntryOf("max"), dp.max, r.max)
      && LastOr(ps, EntryOf("limit"), dp.limit, r.limit)
      && r.name == dp.name && r.dumpMs == dp.dumpMs && r.handlers == dp.handlers
  {
    var r := PaddedFlowsFound(dp, pad, ps);
    PrintedCount(ps, "current", dp.current, r.current);
    PrintedCount(ps, "avg", dp.avg, r.avg);
    PrintedCount(ps, "max", dp.max, r.max);
    PrintedCount(ps, "limit", dp.limit, r.limit);
  }

  lemma PaddedFlowsFound(dp: Upcalls, pad: string, ps: seq<(string, int)>) returns (r: Upcalls)
    requires '(' !in pad && forall i :: 0 <= i < |ps| ==> PairOk(ps[i])
    ensures r == Content(dp, "flows" + pad + PairsText(ps)) && FlowsFrom(dp, PairMatches(ps), r)
  {
    var t := "flows" + pad + PairsText(ps);
    FindAllSkips('(', NAME, "flows" + pad, PairsText(ps));
    PairsFound(ps);
    assert "flows" <= t;
    r := Content(dp, t);
    FlowMatchesMeaning(dp, FindAll(PAREN_PAIR, t));
  }

  // ------------------------------------------------------------------ dump duration

  lemma DumpIsNoFlows(t: string)
    requires "dump duration" <= t
    ensures !("flows" <= t)
  {
    assert "dump duration"[0] == 'd' && "flows"[0] == 'f';
  }

  /** Whatever stands between `dump duration` and the first colon, the number behind the colon counts,
      with `ms` behind it or without. */
  lemma DumpMeaning(dp: Upcalls, pad: string, rest: string, v: string)
    requires ':' !in pad
    requires TrimSpace(rest) == v + "ms" || (TrimSpace(rest) == v && forall a :: v != a + "ms")
    ensures Content(dp, "dump duration" + pad + ":" + rest) == dp.(dumpMs := Or(ParseInt(v), dp.dumpMs))
  {
    var t := "dump duration" + pad + ":" + rest;
    assert "dump duration" <= t;
    DumpIsNoFlows(t);
    CutAt("dump duration" + pad, ':', rest);
    TrimSuffixMeaning(v, "ms");
  }

  lemma DumpWithoutColon(dp: Upcalls, t: string)
    requires "dump duration" <= t && ':' !in t
    ensures Content(dp, t) == dp
  {
    DumpIsNoFlows(t);
  }

  // ------------------------------------------------------------------ handlers

  /** A handler line: its id, its key count, and the white space between. */
  ghost predicate HandlerForm(t: string, id: string, gap: string, space: string, keys: string) {
    && id + (":" + (gap + ("(keys" + (space + (keys + ")"))))) <= t
    && AllDigits(id) && ReSpace.All(gap) && space != "" && ReSpace.All(space) && AllDigits(keys)
  }

  function HandlerMatch(id: string, gap: string, space: string, keys: string): Match {
    [id, ":", gap, "(", "k", "e", "y", "s", space, keys, ")"]
  }

  lemma HandlerPieces()
    ensures |HANDLER_LINE| == 11
    ensures HANDLER_LINE[0] == Plus(Digit) && HANDLER_LINE[1] == One(Only(':')) && HANDLER_LINE[2] == Star(ReSpace)
    ensures HANDLER_LINE[3] == One(Only('(')) && HANDLER_LINE[4] == One(Only('k')) && HANDLER_LINE[5] == One(Only('e'))
    ensures HANDLER_LINE[6] == One(Only('y')) && HANDLER_LINE[7] == One(Only('s')) && HANDLER_LINE[8] == Plus(ReSpace)
    ensures HANDLER_LINE[9] == Plus(Digit) && HANDLER_LINE[10] == One(Only(')'))
  {
  }

  lemma Flat11(m: Match)
    requires |m| == 11
    ensures Flat(m) == m[0] + (m[1] + (m[2] + (m[3] + (m[4] + (m[5] + (m[6] + (m[7] + (m[8] + (m[9] + m[10])))))))))
  {
    FlatDrop(m, 0);
    FlatDrop(m, 1);
    FlatDrop(m, 2);
    FlatDrop(m, 3);
    FlatDrop(m, 4);
    FlatDrop(m, 5);
    Flat5(m[6..]);
    assert m[0..] == m;
  }

  lemma KeysWord(rest: string)
    ensures "(" + ("k" + ("e" + ("y" + ("s" + rest)))) == "(keys" + rest
  {
  }

  lemma AcceptedHandler(m: Match)
    requires AcceptsAll(HANDLER_LINE, m)
    ensures |m| == 11 && m == HandlerMatch(m[0], m[2], m[8], m[9])
    ensures AllDigits(m[0]) && ReSpace.All(m[2]) && m[8] != "" && ReSpace.All(m[8]) && AllDigits(m[9])
  {
    HandlerPieces();
    OnlyAccepts(':', m[1]);
    OnlyAccepts('(', m[3]);
    OnlyAccepts('k', m[4]);
    OnlyAccepts('e', m[5]);
    OnlyAccepts('y', m[6]);
    OnlyAccepts('s', m[7]);
    OnlyAccepts(')', m[10]);
  }

  lemma HandlerAccepted(id: string, gap: string, space: string, keys: string)
    requires AllDigits(id) && ReSpace.All(gap) && space != "" && ReSpace.All(space) && AllDigits(keys)
    ensures AcceptsAll(HANDLER_LINE, HandlerMatch(id, gap, space, keys))
  {
    HandlerPieces();
    var m := HandlerMatch(id, gap, space, keys);
    forall j | 0 <= j < 11 ensures HANDLER_LINE[j].Accepts(m[j]) {
    }
  }

  lemma HandlerFlat(id: string, gap: string, space: string, keys: string)
    ensures Flat(HandlerMatch(id, gap, space, keys)) == id + (":" + (gap + ("(keys" + (space + (keys + ")")))))
  {
    Flat11(HandlerMatch(id, gap, space, keys));
    KeysWord(space + (keys + ")"));
  }

  lemma FormMatches(t: string, id: string, gap: string, space: string, keys: string)
    requires HandlerForm(t, id, gap, space, keys)
    ensures Matches(HANDLER_LINE, t, HandlerMatch(id, gap, space, keys))
  {
    HandlerAccepted(id, gap, space, keys);
    HandlerFlat(id, gap, space, keys);
    MatchesMeaning(HANDLER_LINE, t, HandlerMatch(id, gap, space, keys));
  }

  lemma MatchHasForm(t: string, m: Match)
    requires Matches(HANDLER_LINE, t, m)
    ensures |m| == 11 && HandlerForm(t, m[0], m[2], m[8], m[9])
  {
    MatchesMeaning(HANDLER_LINE, t, m);
    AcceptedHandler(m);
    HandlerFlat(m[0], m[2], m[8], m[9]);
  }

  /** A run of a class and a character outside it start a text in only one way. */
  lemma OneRun(t: string, k: CharClass, a: string, x: string, b: string, y: string)
    requires a + x <= t && b + y <= t && k.All(a) && k.All(b)
    requires x != "" && !k.Has(x[0]) && y != "" && !k.Has(y[0])
    ensures a == b && x <= t[|a|..] && y <= t[|a|..]
  {
    var u, v := t[|a + x|..], t[|b + y|..];
    assert t == a + (x + u) && t == b + (y + v);
    SpanStops(a, x + u, k);
    SpanStops(b, y + v, k);
    assert a == t[..|a|] && b == t[..|b|];
    assert t[|a|..] == x + u == y + v;
  }

  lemma DropSame(w: string, x: string, y: string, t: string)
    requires w + x <= t && w + y <= t
    ensures x <= t[|w|..] && y <= t[|w|..]
  {
    assert t[|w|..][..|x|] == t[..|w + x|][|w|..] == x;
    assert t[|w|..][..|y|] == t[..|w + y|][|w|..] == y;
  }

  lemma DigitsStart(s: string, rest: string)
    requires AllDigits(s)
    ensures s + rest != "" && !ReSpace.Has((s + rest)[0])
  {
    assert Digit.Has(s[0]);
  }

  /** A line has at most one such form. */
  lemma OneForm(t: string, id: string, gap: string, space: string, keys: string,
                id': string, gap': string, space': string, keys': string)
    requires HandlerForm(t, id, gap, space, keys) && HandlerForm(t, id', gap', space', keys')
    ensures id == id' && keys == keys'
  {
    var a3, b3 := space + (keys + ")"), space' + (keys' + ")");
    var a2, b2 := gap + ("(keys" + a3), gap' + ("(keys" + b3);
    OneRun(t, Digit, id, ":" + a2, id', ":" + b2);
    var u := t[|id|..];
    DropSame(":", a2, b2, u);
    OneRun(u[1..], ReSpace, gap, "(keys" + a3, gap', "(keys" + b3);
    var v := u[1..][|gap|..];
    DropSame("(keys", a3, b3, v);
    var w := v[5..];
    DigitsStart(keys, ")");
    DigitsStart(keys', ")");
    OneRun(w, ReSpace, space, keys + ")", space', keys' + ")");
    OneRun(w[|space|..], Digit, keys, ")", keys', ")");
  }

  /** A line that is neither: of the form of a handler line, it sets the handler if both numbers are
      int64. */
  lemma HandlerMeaning(dp: Upcalls, t: string, id: string, gap: string, space: string, keys: string)
    requires !("flows" <= t) && !("dump duration" <= t) && HandlerForm(t, id, gap, space, keys)
    ensures Content(dp, t) ==
      if ParseInt(id).Some? && ParseInt(keys).Some? then
        dp.(handlers := dp.handlers[ParseInt(id).value := ParseInt(keys).value])
      else dp
  {
    FormMatches(t, id, gap, space, keys);
    BacktrackIsLeftmostFirst(HANDLER_LINE, t);
    var m := Backtrack(HANDLER_LINE, t).value;
    MatchHasForm(t, m);
    OneForm(t, id, gap, space, keys, m[0], m[2], m[8], m[9]);
  }

  /** Any other line says nothing. */
  lemma OtherLinesSayNothing(dp: Upcalls, t: string)
    requires !("flows" <= t) && !("dump duration" <= t)
    requires forall id, gap, space, keys :: !HandlerForm(t, id, gap, space, keys)
    ensures Content(dp, t) == dp
  {
    BacktrackIsLeftmostFirst(HANDLER_LINE, t);
    if Backtrack(HANDLER_LINE, t).Some? {
      MatchHasForm(t, Backtrack(HANDLER_LINE, t).value);
    }
  }

  // ------------------------------------------------------------------ headers and body lines

  /** Blank lines are skipped; a line that starts with neither a space nor a tab, and ends in a colon
      but for white space, is the header of the name before the colon; all other lines are body. */
  lemma ClassifyMeaning(line: string, name: string)
    ensures Classify(line).Skip? <==> TrimSpace(line) == ""
    ensures Classify(line) == Blocks.Header(Upcalls(name, 0, 0, 0, 0, 0, map[])) <==>
      !(" " <= line) && !("\t" <= line) && TrimSpace(line) == name + ":"
    ensures Classify(line).Header? ==> Classify(line).block == NewUpcalls(Classify(line).block.name)
  {
    Blocks.LabelOnMeaning(line, name);
  }

  type State = Blocks.State<Upcalls, Upcalls>

  /** A header line shows a datapath without counts and handlers, over one of the same name, and
      opens it. */
  lemma HeaderChanges(st: State, line: string, name: string)
    requires !(" " <= line) && !("\t" <= line) && TrimSpace(line) == name + ":"
    ensures var dp, st' := Upcalls(name, 0, 0, 0, 0, 0, map[]), Blocks.Step(GRAMMAR, st, line);
      && st' == Blocks.State(Blocks.Result(GRAMMAR, st), Some(dp))
      && Blocks.Result(GRAMMAR, st') == Blocks.Result(GRAMMAR, st)[name := dp]
  {
    ClassifyMeaning(line, name);
  }

  lemma BodyWithoutColon(line: string, t: string)
    requires TrimSpace(line) == t && t != "" && (" " <= line || "\t" <= line || !HasSuffix(t, ":"))
    ensures Classify(line) == Blocks.Body
  {
  }

  /** A line that is indented or does not end in a colon edits the open datapath by its text without
      the white space around it, and nothing else. */
  lemma BodyLineChanges(st: State, line: string, front: string, t: string, back: string)
    requires st.cur.Some? && t != "" && (" " <= line || "\t" <= line || !HasSuffix(t, ":"))
    requires line == front + (t + back) && UniSpace.All(front) && Trimmed(t) && UniSpace.All(back)
    ensures var dp, st' := st.cur.value, Blocks.Step(GRAMMAR, st, line);
      && st'.done == st.done && st'.cur == Some(Content(dp, t))
      && Blocks.Result(GRAMMAR, st') == Blocks.Result(GRAMMAR, st)[dp.name := Content(dp, t)]
  {
    TrimSpaceIs(front, t, back);
    BodyWithoutColon(line, t);
    BodyChanges(st, line);
  }
}
