/** Printing a dpctl/show result and reading it back. */
module DpctlRoundTrip {
  import opened Wrappers
  import opened Text
  import opened Decimal
  import opened Sequences
  import opened KeyValue
  import opened Blocks
  import opened Dpctl

  predicate StatsOk(dp: Stats) {
    && LabelOk(dp.name) && LookupsOk(dp.lookups)
    && InInt64(dp.flows) && InInt64(dp.masksHit) && InInt64(dp.masksTotal) && InInt64(dp.cacheHit)
  }

  function Tag(section: Section): string {
    match section case LookupsLine => "lookups:" case MasksLine => "masks:" case CacheLine => "cache:"
  }

  function LookupsText(l: Lookups): string { Labelled(Tag(LookupsLine), LookupWords(l)) }
  function FlowsText(n: int): string { Labelled("flows:", [FormatInt(n)]) }
  function MasksText(hit: int, total: int): string {
    Labelled(Tag(MasksLine), [PrintKeyInt("hit", hit), PrintKeyInt("total", total)])
  }
  function CacheText(hit: int): string { Labelled(Tag(CacheLine), [PrintKeyInt("hit", hit)]) }

  function HeaderText(name: string): string { "" + (name + ":") }

  function Lines(dp: Stats): seq<string> {
    [HeaderText(dp.name)]
    + ["  " + LookupsText(dp.lookups)]
    + ["  " + FlowsText(dp.flows)]
    + ["  " + MasksText(dp.masksHit, dp.masksTotal)]
    + ["  " + CacheText(dp.cacheHit)]
  }

  function AllLines(dps: seq<Stats>): seq<seq<string>> {
    seq(|dps|, i requires 0 <= i < |dps| => Lines(dps[i]))
  }

  function PrintText(dps: seq<Stats>): string {
    Unlines(Flatten(AllLines(dps)))
  }

  // ------------------------------------------------------------------ one line

  /** The line that an edit line is printed as, and what it does. */
  lemma EditPrinted(dp: Stats, tag: string, words: seq<string>)
    requires IsWord(tag) && words != [] && AllWords(words)
    ensures var line := "  " + Labelled(tag, words);
            && Classify(line) == Body && OneLine(line)
            && EditBlock(dp, line) == StatsLine(dp, Labelled(tag, words))
  {
    LabelledShape(tag, words);
    TrimSpacePadded("  ", Labelled(tag, words));
  }

  lemma FirstLetters(t: string)
    ensures "lookups:" <= t ==> t[0] == 'l'
    ensures "flows:" <= t ==> t[0] == 'f'
    ensures "masks:" <= t ==> t[0] == 'm'
    ensures "cache:" <= t ==> t[0] == 'c'
  {
  }

  /** The four kinds of statistics lines exclude each other. */
  lemma Dispatch(dp: Stats, t: string)
    ensures "lookups:" <= t ==> StatsLine(dp, t) == SetTokens(dp, LookupsLine, Fields(t[8..]))
    ensures "masks:" <= t ==> StatsLine(dp, t) == SetTokens(dp, MasksLine, Fields(t[6..]))
    ensures "cache:" <= t ==> StatsLine(dp, t) == SetTokens(dp, CacheLine, Fields(t[6..]))
    ensures "flows:" <= t ==>
              StatsLine(dp, t) ==
              match ParseInt(TrimSpace(t[6..])) case None => dp case Some(n) => dp.(flows := n)
  {
    FirstLetters(t);
  }

  lemma KeyWord(key: string, n: int)
    requires key == "hit" || key == "total"
    ensures IsWord(PrintKeyInt(key, n)) && ':' !in key
  {
    LowerWord("hit");
    LowerWord("total");
    KeyIntWord(key, n);
  }

  lemma TokenPrinted(dp: Stats, section: Section, key: string, n: int)
    requires ':' !in key && InInt64(n)
    ensures SetToken(dp, section, PrintKeyInt(key, n)) == SetStat(dp, section, key, n)
  {
    KeyIntPrinted(key, n);
  }

  lemma {:induction false} OneToken(dp: Stats, section: Section, a: string)
    ensures SetTokens(dp, section, [a]) == SetToken(dp, section, a)
  {
    assert Front([a]) == [];
  }

  lemma {:induction false} TwoTokens(dp: Stats, section: Section, a: string, b: string)
    ensures SetTokens(dp, section, [a, b]) == SetToken(SetToken(dp, section, a), section, b)
  {
    assert Front([a, b]) == [a];
    OneToken(dp, section, a);
  }

  lemma {:induction false} ThreeTokens(dp: Stats, section: Section, a: string, b: string, c: string)
    ensures SetTokens(dp, section, [a, b, c]) ==
            SetToken(SetToken(SetToken(dp, section, a), section, b), section, c)
  {
    assert Front([a, b, c]) == [a, b];
    TwoTokens(dp, section, a, b);
  }

  lemma {:induction false} SetLookups(dp: Stats, l: Lookups)
    requires LookupsOk(l)
    ensures SetTokens(dp, LookupsLine, LookupWords(l)) == dp.(lookups := l)
  {
    var words := LookupWords(l);
    ThreeTokens(dp, LookupsLine, words[0], words[1], words[2]);
    TokenPrinted(dp, LookupsLine, "hit", l.hit);
    var dp1 := SetStat(dp, LookupsLine, "hit", l.hit);
    TokenPrinted(dp1, LookupsLine, "missed", l.missed);
    TokenPrinted(SetStat(dp1, LookupsLine, "missed", l.missed), LookupsLine, "lost", l.lost);
  }

  lemma LookupsTag()
    ensures IsWord("lookups:")
  {
    PlainWord("lookups:");
  }

  lemma MasksTag()
    ensures IsWord("masks:")
  {
    PlainWord("masks:");
  }

  lemma CacheTag()
    ensures IsWord("cache:")
  {
    PlainWord("cache:");
  }

  lemma TagIsWord(section: Section)
    ensures IsWord(Tag(section))
  {
    LookupsTag();
    MasksTag();
    CacheTag();
  }

  lemma TaggedLine(dp: Stats, section: Section, t: string)
    requires Tag(section) <= t
    ensures StatsLine(dp, t) == SetTokens(dp, section, Fields(t[|Tag(section)|..]))
  {
    Dispatch(dp, t);
    match section
    case LookupsLine => assert "lookups:" <= t && |Tag(section)| == 8;
    case MasksLine => assert "masks:" <= t && |Tag(section)| == 6;
    case CacheLine => assert "cache:" <= t && |Tag(section)| == 6;
  }

  /** A printed line of pairs applies its pairs. */
  lemma {:induction false} PairsPrinted(dp: Stats, section: Section, words: seq<string>)
    requires words != [] && AllWords(words)
    ensures var line := "  " + Labelled(Tag(section), words);
            Classify(line) == Body && OneLine(line) && EditBlock(dp, line) == SetTokens(dp, section, words)
  {
    TagIsWord(section);
    EditPrinted(dp, Tag(section), words);
    LabelledShape(Tag(section), words);
    TaggedLine(dp, section, Labelled(Tag(section), words));
    LabelledFields(words);
  }

  lemma {:induction false} LookupsLinePrinted(dp: Stats, l: Lookups)
    requires LookupsOk(l)
    ensures var line := "  " + LookupsText(l);
            Classify(line) == Body && OneLine(line) && EditBlock(dp, line) == dp.(lookups := l)
  {
    LookupWordsOk(l);
    PairsPrinted(dp, LookupsLine, LookupWords(l));
    SetLookups(dp, l);
  }

  lemma {:induction false} FlowsLinePrinted(dp: Stats, n: int)
    requires InInt64(n)
    ensures var line := "  " + FlowsText(n);
            Classify(line) == Body && OneLine(line) && EditBlock(dp, line) == dp.(flows := n)
  {
    PlainWord("flows:");
    FormatChars(n);
    EditPrinted(dp, "flows:", [FormatInt(n)]);
    LabelledShape("flows:", [FormatInt(n)]);
    FlowsRead(dp, FlowsText(n), n);
  }

  lemma {:induction false} FlowsRead(dp: Stats, t: string, n: int)
    requires InInt64(n) && "flows:" <= t && t[6..] == " " + FormatInt(n)
    ensures StatsLine(dp, t) == dp.(flows := n)
  {
    FormatChars(n);
    Dispatch(dp, t);
    TrimSpacePadded(" ", FormatInt(n));
    ParseFormat(n);
  }

  lemma {:induction false} MasksLinePrinted(dp: Stats, hit: int, total: int)
    requires InInt64(hit) && InInt64(total)
    ensures var line := "  " + MasksText(hit, total);
            && Classify(line) == Body && OneLine(line)
            && EditBlock(dp, line) == dp.(masksHit := hit, masksTotal := total)
  {
    var words := [PrintKeyInt("hit", hit), PrintKeyInt("total", total)];
    KeyWord("hit", hit);
    KeyWord("total", total);
    PairsPrinted(dp, MasksLine, words);
    TwoTokens(dp, MasksLine, words[0], words[1]);
    TokenPrinted(dp, MasksLine, "hit", hit);
    TokenPrinted(dp.(masksHit := hit), MasksLine, "total", total);
  }

  lemma {:induction false} CacheLinePrinted(dp: Stats, hit: int)
    requires InInt64(hit)
    ensures var line := "  " + CacheText(hit);
            Classify(line) == Body && OneLine(line) && EditBlock(dp, line) == dp.(cacheHit := hit)
  {
    var words := [PrintKeyInt("hit", hit)];
    KeyWord("hit", hit);
    PairsPrinted(dp, CacheLine, words);
    OneToken(dp, CacheLine, words[0]);
    TokenPrinted(dp, CacheLine, "hit", hit);
  }

  lemma HeaderPrinted(name: string)
    requires LabelOk(name)
    ensures Classify(HeaderText(name)) == Header(NewStats(name)) && OneLine(HeaderText(name))
  {
    assert HeaderText(name)[0] == if name == "" then ':' else name[0];
    LabelPrinted("", name);
  }

  // ------------------------------------------------------------------ one block

  lemma {:induction false} EditStep(lines: seq<string>, dp: Stats, line: string, dp': Stats)
    requires Denotes(GRAMMAR, lines, dp)
    requires Classify(line) == Body && OneLine(line) && EditBlock(dp, line) == dp'
    ensures Denotes(GRAMMAR, lines + [line], dp')
  {
    RunSnoc(GRAMMAR, Start(), lines, line);
  }

  lemma {:induction false} LinesDenote(dp: Stats)
    requires StatsOk(dp)
    ensures Denotes(GRAMMAR, Lines(dp), dp)
  {
    var dp0 := NewStats(dp.name);
    var dp1 := dp0.(lookups := dp.lookups);
    var dp2 := dp1.(flows := dp.flows);
    var dp3 := dp2.(masksHit := dp.masksHit, masksTotal := dp.masksTotal);
    var l0 := [HeaderText(dp.name)];
    HeaderPrinted(dp.name);
    RunSnoc(GRAMMAR, Start(), [], HeaderText(dp.name));
    assert [] + l0 == l0;
    LookupsLinePrinted(dp0, dp.lookups);
    EditStep(l0, dp0, "  " + LookupsText(dp.lookups), dp1);
    var l1 := l0 + ["  " + LookupsText(dp.lookups)];
    FlowsLinePrinted(dp1, dp.flows);
    EditStep(l1, dp1, "  " + FlowsText(dp.flows), dp2);
    var l2 := l1 + ["  " + FlowsText(dp.flows)];
    MasksLinePrinted(dp2, dp.masksHit, dp.masksTotal);
    EditStep(l2, dp2, "  " + MasksText(dp.masksHit, dp.masksTotal), dp3);
    CacheLinePrinted(dp3, dp.cacheHit);
    EditStep(l2 + ["  " + MasksText(dp.masksHit, dp.masksTotal)], dp3, "  " + CacheText(dp.cacheHit), dp);
  }

  /** Reading back printed datapaths collects exactly these datapaths. */
  lemma ParsePrint(dps: seq<Stats>)
    requires forall i :: 0 <= i < |dps| ==> StatsOk(dps[i])
    ensures ParseText(PrintText(dps)) == Collect(GRAMMAR, dps)
  {
    forall i | 0 <= i < |dps| ensures Denotes(GRAMMAR, AllLines(dps)[i], dps[i]) {
      LinesDenote(dps[i]);
    }
    ParsePrinted(GRAMMAR, AllLines(dps), dps);
  }

  // ------------------------------------------------------------------ what parsing can produce

  lemma {:induction false} SetTokensOk(dp: Stats, section: Section, toks: seq<string>)
    requires StatsOk(dp)
    ensures StatsOk(SetTokens(dp, section, toks))
  {
    if toks != [] {
      SetTokensOk(dp, section, Front(toks));
      SetTokenOk(SetTokens(dp, section, Front(toks)), section, Last(toks));
    }
  }

  lemma SetTokenOk(dp: Stats, section: Section, tok: string)
    requires StatsOk(dp)
    ensures StatsOk(SetToken(dp, section, tok))
  {
  }

  lemma EditOk(dp: Stats, line: string)
    requires StatsOk(dp)
    ensures StatsOk(EditBlock(dp, line))
  {
    var t := TrimSpace(line);
    if "lookups:" <= t {
      SetTokensOk(dp, LookupsLine, Fields(t[8..]));
    } else if "masks:" <= t {
      SetTokensOk(dp, MasksLine, Fields(t[6..]));
    } else if "cache:" <= t {
      SetTokensOk(dp, CacheLine, Fields(t[6..]));
    }
  }

  predicate ResultOk(m: map<string, Stats>) {
    forall k :: k in m ==> m[k].name == k && StatsOk(m[k])
  }

  lemma ParseIsOk(text: string)
    ensures ResultOk(ParseText(text))
  {
    forall l | OneLine(l) && Classify(l).Header? ensures StatsOk(Classify(l).block) {
      LabelOnOk(l);
    }
    forall dp, l | OneLine(l) && StatsOk(dp) ensures StatsOk(EditBlock(dp, l)) {
      EditOk(dp, l);
    }
    var inv := (dp: Stats) => StatsOk(dp);
    assert Keeps(GRAMMAR, inv);
    ParseShows(GRAMMAR, inv, text);
    forall k | k in ParseText(text) ensures ParseText(text)[k].name == k && StatsOk(ParseText(text)[k]) {
      assert Shows(GRAMMAR, inv, k, ParseText(text)[k]);
    }
  }

  /** Parse, print in any order, and parse again: nothing is lost and nothing is added. */
  lemma RoundTrip(text: string, dps: seq<Stats>)
    requires forall i, j :: 0 <= i < j < |dps| ==> dps[i].name != dps[j].name
    requires Collect(GRAMMAR, dps) == ParseText(text)
    ensures ParseText(PrintText(dps)) == ParseText(text)
  {
    ParseIsOk(text);
    forall i | 0 <= i < |dps| ensures StatsOk(dps[i]) {
      CollectFinds(GRAMMAR, dps, i);
      assert ParseText(text)[dps[i].name] == dps[i];
    }
    ParsePrint(dps);
  }

  lemma AddListing(m: map<string, Stats>, k: string, front: seq<Stats>) returns (dps: seq<Stats>)
    requires k in m && m[k].name == k
    requires forall i, j :: 0 <= i < j < |front| ==> front[i].name != front[j].name
    requires Collect(GRAMMAR, front) == m - {k} && forall i :: 0 <= i < |front| ==> front[i].name in m - {k}
    ensures forall i, j :: 0 <= i < j < |dps| ==> dps[i].name != dps[j].name
    ensures Collect(GRAMMAR, dps) == m && forall i :: 0 <= i < |dps| ==> dps[i].name in m
  {
    dps := front + [m[k]];
    assert dps[..|dps| - 1] == front;
    assert (m - {k})[k := m[k]] == m;
  }

  /** Every result can be listed for printing. */
  lemma {:induction false} HasListing(m: map<string, Stats>) returns (dps: seq<Stats>)
    requires ResultOk(m)
    ensures forall i, j :: 0 <= i < j < |dps| ==> dps[i].name != dps[j].name
    ensures Collect(GRAMMAR, dps) == m
    ensures forall i :: 0 <= i < |dps| ==> dps[i].name in m
    decreases |m|
  {
    if m == map[] {
      dps := [];
    } else {
      var k :| k in m;
      var front := HasListing(m - {k});
      dps := AddListing(m, k, front);
    }
  }

  /** The results of parsing are exactly the maps of well-formed datapaths under their names. */
  lemma ResultsCharacterised(m: map<string, Stats>)
    ensures (exists text :: ParseText(text) == m) <==> ResultOk(m)
  {
    if ResultOk(m) {
      forall k | k in m
        ensures Writable(GRAMMAR, k, m[k])
      {
        LinesDenote(m[k]);
      }
      var blocks, dps := Reachable(GRAMMAR, m);
      ParsePrinted(GRAMMAR, blocks, dps);
      assert ParseText(Unlines(Flatten(blocks))) == m;
    }
    if text :| ParseText(text) == m {
      ParseIsOk(text);
    }
  }
}
