/** Exactly which lines of a dpctl/show text can be deleted without anyone noticing. */
module DpctlNoise {
  import opened Wrappers
  import opened Text
  import opened Sequences
  import opened KeyValue
  import opened Blocks
  import opened Dpctl
  import opened DpctlRoundTrip

  ghost predicate AllOneLine(lines: seq<string>) {
    forall i :: 0 <= i < |lines| ==> OneLine(lines[i])
  }

  ghost predicate SameWithout(before: seq<string>, line: string, after: seq<string>) {
    ParseText(Unlines(before + [line] + after)) == ParseText(Unlines(before + after))
  }

  /** Deleting the line never changes a result, wherever it stands. */
  ghost predicate Deletable(line: string) {
    forall before, after :: AllOneLine(before) && AllOneLine(after) ==> SameWithout(before, line, after)
  }

  const ZERO: Stats := NewStats("")
  const ONE: Stats := Stats("", Lookups(1, 1, 1), 1, 1, 1, 1)

  /** A test that looks at the line alone: it is empty, or it stands at column 0 and does not end in
      a colon, or it is indented and changes neither of two sample datapaths. */
  predicate Ineffective(line: string) {
    || line == ""
    || (!Indented(line) && LabelOn(line) == None)
    || (Indented(line) && EditBlock(ZERO, line) == ZERO && EditBlock(ONE, line) == ONE)
  }

  // ------------------------------------------------------------------ an edit keeps or overwrites

  predicate Alike(x: int, x': int, y: int, y': int) {
    (x' == x && y' == y) || x' == y'
  }

  /** Going from a to a' and from b to b', every counter was kept in both or overwritten alike. */
  predicate EditedAlike(a: Stats, a': Stats, b: Stats, b': Stats) {
    && Alike(a.lookups.hit, a'.lookups.hit, b.lookups.hit, b'.lookups.hit)
    && Alike(a.lookups.missed, a'.lookups.missed, b.lookups.missed, b'.lookups.missed)
    && Alike(a.lookups.lost, a'.lookups.lost, b.lookups.lost, b'.lookups.lost)
    && Alike(a.flows, a'.flows, b.flows, b'.flows)
    && Alike(a.masksHit, a'.masksHit, b.masksHit, b'.masksHit)
    && Alike(a.masksTotal, a'.masksTotal, b.masksTotal, b'.masksTotal)
    && Alike(a.cacheHit, a'.cacheHit, b.cacheHit, b'.cacheHit)
  }

  lemma TokenEditsAlike(a: Stats, a': Stats, b: Stats, b': Stats, section: Section, tok: string)
    requires EditedAlike(a, a', b, b')
    ensures EditedAlike(a, SetToken(a', section, tok), b, SetToken(b', section, tok))
  {
    if KeyInt(tok).Some? {
      StatEditsAlike(a, a', b, b', section, KeyInt(tok).value.0, KeyInt(tok).value.1);
    }
  }

  lemma StatEditsAlike(a: Stats, a': Stats, b: Stats, b': Stats, section: Section, key: string, n: int)
    requires EditedAlike(a, a', b, b')
    ensures EditedAlike(a, SetStat(a', section, key, n), b, SetStat(b', section, key, n))
  {
  }

  lemma {:induction false} TokensEditAlike(a: Stats, b: Stats, section: Section, toks: seq<string>)
    ensures EditedAlike(a, SetTokens(a, section, toks), b, SetTokens(b, section, toks))
  {
    if toks != [] {
      TokensEditAlike(a, b, section, Front(toks));
      TokenEditsAlike(a, SetTokens(a, section, Front(toks)), b, SetTokens(b, section, Front(toks)),
                      section, Last(toks));
    }
  }

  lemma LineEditsAlike(a: Stats, b: Stats, line: string)
    ensures EditedAlike(a, EditBlock(a, line), b, EditBlock(b, line))
  {
    var t := TrimSpace(line);
    if "lookups:" <= t {
      TokensEditAlike(a, b, LookupsLine, Fields(t[8..]));
    } else if "masks:" <= t {
      Dispatch(a, t);
      Dispatch(b, t);
      TokensEditAlike(a, b, MasksLine, Fields(t[6..]));
    } else if "cache:" <= t {
      Dispatch(a, t);
      Dispatch(b, t);
      TokensEditAlike(a, b, CacheLine, Fields(t[6..]));
    }
  }

  lemma IneffectiveIsInert(line: string)
    requires Ineffective(line)
    ensures Inert(GRAMMAR, line)
  {
    if Indented(line) {
      forall dp ensures EditBlock(dp, line) == dp {
        LineEditsAlike(dp, ZERO, line);
        LineEditsAlike(dp, ONE, line);
        StatsLineKeepsName(dp, TrimSpace(line));
      }
    }
  }

  // ------------------------------------------------------------------ deletion

  lemma {:induction false} ParseUnlines(lines: seq<string>)
    requires AllOneLine(lines)
    ensures ParseText(Unlines(lines)) == Result(GRAMMAR, Run(GRAMMAR, Start(), lines))
  {
    SplitUnlines(lines);
    RunSnoc(GRAMMAR, Start(), lines, "");
  }

  lemma {:induction false} InertIsDeletable(line: string)
    requires OneLine(line) && Inert(GRAMMAR, line)
    ensures Deletable(line)
  {
    forall before, after | AllOneLine(before) && AllOneLine(after) ensures SameWithout(before, line, after) {
      ParseUnlines(before + [line] + after);
      ParseUnlines(before + after);
      RunSnoc(GRAMMAR, Start(), before, line);
      InertStep(GRAMMAR, Run(GRAMMAR, Start(), before), line);
      RunAppend(GRAMMAR, Start(), before + [line], after);
      RunAppend(GRAMMAR, Start(), before, after);
    }
  }

  lemma ParseWithEdit(dp: Stats, line: string)
    requires StatsOk(dp) && OneLine(line) && Indented(line)
    ensures ParseText(Unlines(Lines(dp) + [line])) == map[dp.name := EditBlock(dp, line)]
    ensures ParseText(Unlines(Lines(dp))) == map[dp.name := dp]
  {
    LinesDenote(dp);
    ParseUnlines(Lines(dp) + [line]);
    ParseUnlines(Lines(dp));
    RunSnoc(GRAMMAR, Start(), Lines(dp), line);
    StatsLineKeepsName(dp, TrimSpace(line));
  }

  /** After a printed datapath, an indented line shows what it does to that datapath. */
  lemma {:induction false} EditIsSeen(dp: Stats, line: string)
    requires StatsOk(dp) && OneLine(line) && Indented(line) && Deletable(line)
    ensures EditBlock(dp, line) == dp
  {
    LinesDenote(dp);
    assert SameWithout(Lines(dp), line, []);
    assert Lines(dp) + [line] + [] == Lines(dp) + [line] && Lines(dp) + [] == Lines(dp);
    ParseWithEdit(dp, line);
    OneValue(dp.name, EditBlock(dp, line), dp);
  }

  lemma OneValue(name: string, a: Stats, b: Stats)
    requires map[name := a] == map[name := b]
    ensures a == b
  {
    assert map[name := a][name] == map[name := b][name];
  }

  lemma {:induction false} HeaderIsSeen(line: string)
    requires OneLine(line) && Deletable(line)
    ensures !Classify(line).Header?
  {
    assert SameWithout([], line, []);
    assert [] + [line] + [] == [line];
    ParseUnlines([line]);
    ParseUnlines([]);
    RunSnoc(GRAMMAR, Start(), [], line);
    assert [] + [line] == [line];
    if Classify(line).Header? {
      NotEmpty(Classify(line).block.name, Classify(line).block);
    }
  }

  lemma NotEmpty(name: string, dp: Stats)
    ensures map[name := dp] != map[]
  {
    assert name in map[name := dp];
  }

  /** A line can be deleted from every text exactly when it passes the test. */
  lemma DeletableExactlyWhen(line: string)
    requires OneLine(line)
    ensures Deletable(line) <==> Ineffective(line)
  {
    if Ineffective(line) {
      IneffectiveIsInert(line);
      InertIsDeletable(line);
    }
    if Deletable(line) {
      HeaderIsSeen(line);
      if Indented(line) {
        EditIsSeen(ZERO, line);
        EditIsSeen(ONE, line);
      }
    }
  }
}
