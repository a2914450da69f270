/** dpctl/show: one block per datapath, with lookup, flow, mask and cache lines; every other
    indented line is ignored. */
module Dpctl {
  import opened Wrappers
  import opened Text
  import opened Decimal
  import opened Sequences
  import opened KeyValue
  import opened Blocks
  import opened Entries

  datatype Stats = Stats(
    name: string, lookups: Lookups, flows: int, masksHit: int, masksTotal: int, cacheHit: int)

  function NewStats(name: string): Stats {
    Stats(name, NO_LOOKUPS, 0, 0, 0, 0)
  }

  /** The lines whose tokens are key-value pairs. */
  datatype Section = LookupsLine | MasksLine | CacheLine

  function SetStat(dp: Stats, section: Section, key: string, n: int): Stats {
    match section
    case LookupsLine => dp.(lookups := SetLookup(dp.lookups, key, n))
    case MasksLine =>
      if key == "hit" then dp.(masksHit := n) else if key == "total" then dp.(masksTotal := n) else dp
    case CacheLine =>
      if key == "hit" then dp.(cacheHit := n) else dp
  }

  function SetToken(dp: Stats, section: Section, tok: string): Stats {
    match KeyInt(tok)
    case None => dp
    case Some(kv) => SetStat(dp, section, kv.0, kv.1)
  }

  function SetTokens(dp: Stats, section: Section, toks: seq<string>): Stats {
    if toks == [] then dp else SetToken(SetTokens(dp, section, Front(toks)), section, Last(toks))
  }

  lemma SetTokensNext(dp: Stats, section: Section, toks: seq<string>, i: nat)
    requires i < |toks|
    ensures SetTokens(dp, section, toks[..i + 1]) == SetToken(SetTokens(dp, section, toks[..i]), section, toks[i])
  {
    Prefix(toks, i);
  }

  function StatsLine(dp: Stats, line: string): Stats {
    if "lookups:" <= line then SetTokens(dp, LookupsLine, Fields(line[8..]))
    else if "flows:" <= line then
      match ParseInt(TrimSpace(line[6..]))
      case None => dp
      case Some(n) => dp.(flows := n)
    else if "masks:" <= line then SetTokens(dp, MasksLine, Fields(line[6..]))
    else if "cache:" <= line then SetTokens(dp, CacheLine, Fields(line[6..]))
    else dp
  }

  predicate Statistics(t: string) {
    "lookups:" <= t || "flows:" <= t || "masks:" <= t || "cache:" <= t
  }

  // ------------------------------------------------------------------ what the statistics lines say

  /** What fields do to a datapath on a line of the section: the counters of the section become the
      values of the last fields with their keys, or stay; the other counters stay. */
  ghost predicate PairsFrom(before: Stats, section: Section, toks: seq<string>, after: Stats) {
    && after.name == before.name && after.flows == before.flows
    && (if section == LookupsLine then LookupsFrom(toks, before.lookups, after.lookups)
        else after.lookups == before.lookups)
    && (if section == MasksLine then
          && LastOr(toks, ValueOf("hit"), before.masksHit, after.masksHit)
          && LastOr(toks, ValueOf("total"), before.masksTotal, after.masksTotal)
        else after.masksHit == before.masksHit && after.masksTotal == before.masksTotal)
    && (if section == CacheLine then LastOr(toks, ValueOf("hit"), before.cacheHit, after.cacheHit)
        else after.cacheHit == before.cacheHit)
  }

  lemma MaskToken(dp: Stats, tok: string)
    ensures SetToken(dp, MasksLine, tok) == dp.(
      masksHit := Or(TokenValue(tok, "hit"), dp.masksHit), masksTotal := Or(TokenValue(tok, "total"), dp.masksTotal))
  {
    LookupKeysArePlain();
    KeyIntIsTokenValue(tok, "hit");
    KeyIntIsTokenValue(tok, "total");
  }

  lemma CacheToken(dp: Stats, tok: string)
    ensures SetToken(dp, CacheLine, tok) == dp.(cacheHit := Or(TokenValue(tok, "hit"), dp.cacheHit))
  {
    LookupKeysArePlain();
    KeyIntIsTokenValue(tok, "hit");
  }

  lemma PairsFromSnoc(before: Stats, section: Section, toks: seq<string>, tok: string, dp: Stats)
    requires PairsFrom(before, section, toks, dp)
    ensures PairsFrom(before, section, toks + [tok], SetToken(dp, section, tok))
  {
    match section
    case LookupsLine =>
      LookupsFromSnoc(toks, tok, before.lookups, dp.lookups);
    case MasksLine =>
      MaskToken(dp, tok);
      LastOrSnoc(toks, tok, ValueOf("hit"), before.masksHit, dp.masksHit);
      LastOrSnoc(toks, tok, ValueOf("total"), before.masksTotal, dp.masksTotal);
    case CacheLine =>
      CacheToken(dp, tok);
      LastOrSnoc(toks, tok, ValueOf("hit"), before.cacheHit, dp.cacheHit);
  }

  lemma {:induction false} SetTokensMeaning(dp: Stats, section: Section, toks: seq<string>)
    ensures PairsFrom(dp, section, toks, SetTokens(dp, section, toks))
  {
    if toks == [] {
      LookupsFromNone(dp.lookups);
    } else {
      SetTokensMeaning(dp, section, Front(toks));
      PairsFromSnoc(dp, section, Front(toks), Last(toks), SetTokens(dp, section, Front(toks)));
      FrontLast(toks);
    }
  }

  /** What a trimmed indented line does to a datapath. */
  ghost predicate StatsFrom(before: Stats, t: string, after: Stats) {
    && ("lookups:" <= t ==> PairsFrom(before, LookupsLine, Fields(t[8..]), after))
    && ("masks:" <= t ==> PairsFrom(before, MasksLine, Fields(t[6..]), after))
    && ("cache:" <= t ==> PairsFrom(before, CacheLine, Fields(t[6..]), after))
    && ("flows:" <= t ==> after == before.(flows := Or(ParseInt(TrimSpace(t[6..])), before.flows)))
    && (!("lookups:" <= t) && !("masks:" <= t) && !("cache:" <= t) && !("flows:" <= t) ==> after == before)
  }

  lemma OnePrefix(t: string)
    ensures "lookups:" <= t ==> !("flows:" <= t) && !("masks:" <= t) && !("cache:" <= t)
    ensures "flows:" <= t ==> !("masks:" <= t) && !("cache:" <= t)
    ensures "masks:" <= t ==> !("cache:" <= t)
  {
    assert "lookups:"[0] == 'l' && "flows:"[0] == 'f' && "masks:"[0] == 'm' && "cache:"[0] == 'c';
  }

  /** Which fields each line sets, and from what, for every line and every datapath. */
  lemma StatsLineMeaning(dp: Stats, t: string)
    ensures StatsFrom(dp, t, StatsLine(dp, t))
  {
    OnePrefix(t);
    if "lookups:" <= t {
      SetTokensMeaning(dp, LookupsLine, Fields(t[8..]));
    } else if "masks:" <= t {
      SetTokensMeaning(dp, MasksLine, Fields(t[6..]));
    } else if "cache:" <= t {
      SetTokensMeaning(dp, CacheLine, Fields(t[6..]));
    }
  }

  /** Fields that are no pairs can be deleted at any positions. */
  lemma {:induction false} TokenErasure(dp: Stats, section: Section, toks: seq<string>, keep: seq<bool>)
    requires |keep| == |toks| && forall i :: 0 <= i < |toks| && !keep[i] ==> NoPair(toks[i])
    ensures SetTokens(dp, section, Kept(toks, keep)) == SetTokens(dp, section, toks)
  {
    if toks != [] {
      var n := |toks| - 1;
      TokenErasure(dp, section, toks[..n], keep[..n]);
      if keep[n] {
        Snoc(Kept(toks[..n], keep[..n]), toks[n]);
      } else {
        NoPairIsNoKeyInt(toks[n]);
        assert Kept(toks, keep) == Kept(toks[..n], keep[..n]);
      }
    }
  }

  // ------------------------------------------------------------------ the block grammar

  function Classify(line: string): Line<Stats> {
    if line == "" then Skip
    else if Indented(line) then Body
    else
      match LabelOn(line)
      case None => Skip
      case Some(name) => Header(NewStats(name))
  }

  function EditBlock(dp: Stats, line: string): Stats {
    StatsLine(dp, TrimSpace(line))
  }

  function KeyOf(dp: Stats): string { dp.name }

  function Seal(dp: Stats): Stats { dp }

  const GRAMMAR: Grammar<Stats, Stats> := Grammar(Classify, EditBlock, KeyOf, Seal)

  function ParseText(text: string): map<string, Stats> {
    Parse(GRAMMAR, text)
  }

  /** A line that starts with a space or a tab is body; of the others those are headers that end in a
      colon but for white space, of the name before the colon, and the rest is skipped. */
  lemma ClassifyMeaning(line: string, name: string)
    ensures Classify(line).Body? <==> " " <= line || "\t" <= line
    ensures Classify(line) == Header(Stats(name, Lookups(0, 0, 0), 0, 0, 0, 0)) <==>
      !(" " <= line) && !("\t" <= line) && TrimSpace(line) == name + ":"
    ensures Classify(line).Header? ==> Classify(line).block == NewStats(Classify(line).block.name)
  {
    LabelOnMeaning(line, name);
  }

  /** A header line shows a datapath without counts, over one of the same name, and opens it. */
  lemma HeaderChanges(st: State<Stats, Stats>, line: string, name: string)
    requires !(" " <= line) && !("\t" <= line) && TrimSpace(line) == name + ":"
    ensures var dp, st' := Stats(name, Lookups(0, 0, 0), 0, 0, 0, 0), Step(GRAMMAR, st, line);
      && st' == State(Result(GRAMMAR, st), Some(dp))
      && Result(GRAMMAR, st') == Result(GRAMMAR, st)[name := dp]
  {
    ClassifyMeaning(line, name);
  }

  /** An indented line edits the open datapath by its text without the white space around it, and
      nothing else. */
  lemma IndentedLineChanges(st: State<Stats, Stats>, line: string, front: string, t: string, back: string)
    requires st.cur.Some? && (" " <= line || "\t" <= line)
    requires line == front + (t + back) && UniSpace.All(front) && Trimmed(t) && UniSpace.All(back)
    ensures var dp, st' := st.cur.value, Step(GRAMMAR, st, line);
      && st'.done == st.done && st'.cur.Some? && StatsFrom(dp, t, st'.cur.value)
      && Result(GRAMMAR, st') == Result(GRAMMAR, st)[dp.name := st'.cur.value]
  {
    TrimSpaceIs(front, t, back);
    BodyChanges(st, line);
    StatsLineMeaning(st.cur.value, t);
  }

  // ------------------------------------------------------------------ composition and noise

  /** Parsing A and then a text B that begins with a header gives A's datapaths overridden, name by
      name, by B's. */
  lemma ComposeTexts(a: string, b: string)
    requires Classify(Split(b, '\n')[0]).Header?
    ensures ParseText(a + "\n" + b) == ParseText(a) + ParseText(b)
  {
    Compose(GRAMMAR, a, b);
  }

  /** An indented line that is none of the four statistics lines. */
  predicate IsNoise(line: string) {
    Indented(line) && !Statistics(TrimSpace(line))
  }

  /** Deleting noise lines from any text, at any positions, leaves its parse unchanged. */
  lemma NoiseErasure(text: string, keep: seq<bool>)
    requires |keep| == |Split(text, '\n')|
    requires forall i :: 0 <= i < |keep| && !keep[i] ==> IsNoise(Split(text, '\n')[i])
    ensures ParseText(Join(Kept(Split(text, '\n'), keep), "\n")) == ParseText(text)
  {
    forall i | 0 <= i < |keep| && !keep[i] ensures Inert(GRAMMAR, Split(text, '\n')[i]) {
      NoiseIsInert(Split(text, '\n')[i]);
    }
    EraseFromText(GRAMMAR, text, keep);
  }

  lemma NoiseIsInert(line: string)
    requires IsNoise(line)
    ensures Inert(GRAMMAR, line)
  {
  }

  /** In particular the block of caches and the port lines are noise, whatever ends them. */
  lemma CachesAndPortsAreNoise(pad: string, rest: string)
    requires pad != "" && Blank.All(pad)
    ensures IsNoise(pad + ("caches:" + rest))
    ensures IsNoise(pad + ("masks-cache:" + rest))
    ensures IsNoise(pad + ("port " + rest))
  {
    OtherStart("caches:", rest);
    OtherStart("masks-cache:", rest);
    OtherStart("port ", rest);
    NoiseAfterPad(pad, "caches:" + rest);
    NoiseAfterPad(pad, "masks-cache:" + rest);
    NoiseAfterPad(pad, "port " + rest);
  }

  lemma OtherStart(start: string, rest: string)
    requires start in {"caches:", "masks-cache:", "port "}
    ensures !Statistics(start + rest)
  {
    var t := start + rest;
    assert t[0] == start[0];
    assert |start| > 5 ==> t[5] == start[5];
    assert "lookups:"[0] == 'l' && "flows:"[0] == 'f' && "masks:"[5] == ':' && "cache:"[5] == ':';
  }

  lemma StatisticsOfPrefix(u: string, t: string)
    requires u <= t && Statistics(u)
    ensures Statistics(t)
  {
  }

  lemma NoiseAfterPad(pad: string, t: string)
    requires pad != "" && Blank.All(pad)
    requires t != "" && !IsUniSpace(t[0]) && !Statistics(t)
    ensures IsNoise(pad + t)
  {
    assert Blank.Has(pad[0]);
    TrimmedIsPrefix(pad, t);
    if Statistics(TrimSpace(pad + t)) {
      StatisticsOfPrefix(TrimSpace(pad + t), t);
    }
  }

  lemma TrimmedIsPrefix(pad: string, t: string)
    requires Blank.All(pad) && t != "" && !IsUniSpace(t[0])
    ensures TrimSpace(pad + t) <= t
  {
    var line := pad + t;
    var front, back := TrimSpaceMeaning(line);
    assert forall i :: 0 <= i < |pad| ==> Blank.Has(pad[i]);
    SpanStops(pad, t, UniSpace);
    assert front == pad;
    assert line[|pad|..] == t == TrimSpace(line) + back;
  }

  // ------------------------------------------------------------------ the method

  class DPCTLDatapath {
    var Name: string
    var Lookups: Lookups
    var Flows: int
    var MasksHit: int
    var MasksTotal: int
    var CacheHit: int

    constructor (name: string)
      ensures View() == NewStats(name)
    {
      Name, Lookups, Flows, MasksHit, MasksTotal, CacheHit := name, NO_LOOKUPS, 0, 0, 0, 0;
    }

    function View(): Stats
      reads this
    {
      Stats(Name, Lookups, Flows, MasksHit, MasksTotal, CacheHit)
    }

    /** What the callback of a statistics line does with one pair. */
    method Set(section: Section, key: string, n: int)
      modifies this
      ensures View() == SetStat(old(View()), section, key, n)
    {
      match section {
        case LookupsLine => Lookups := SetLookup(Lookups, key, n);
        case MasksLine =>
          if key == "hit" {
            MasksHit := n;
          } else if key == "total" {
            MasksTotal := n;
          }
        case CacheLine =>
          if key == "hit" {
            CacheHit := n;
          }
      }
    }

    method ParseKVMap(rest: string, section: Section)
      modifies this
      ensures View() == SetTokens(old(View()), section, Fields(rest))
      ensures PairsFrom(old(View()), section, Fields(rest), View())
    {
      ghost var before := View();
      var toks := Fields(rest);
      for i := 0 to |toks|
        invariant View() == SetTokens(before, section, toks[..i])
      {
        SetTokensNext(before, section, toks, i);
        var kv := KeyInt(toks[i]);
        if kv != None {
          Set(section, kv.value.0, kv.value.1);
        }
      }
      assert toks[..|toks|] == toks;
      SetTokensMeaning(before, section, toks);
    }

    method ParseStatsLine(line: string)
      modifies this
      ensures View() == StatsLine(old(View()), line)
      ensures StatsFrom(old(View()), line, View())
    {
      StatsLineMeaning(View(), line);
      if "lookups:" <= line {
        ParseKVMap(line[8..], LookupsLine);
      } else if "flows:" <= line {
        var n := ParseInt(TrimSpace(line[6..]));
        if n != None {
          Flows := n.value;
        }
      } else if "masks:" <= line {
        ParseKVMap(line[6..], MasksLine);
      } else if "cache:" <= line {
        ParseKVMap(line[6..], CacheLine);
      }
    }
  }

  class DPCTL {
    var Datapaths: map<string, DPCTLDatapath>

    constructor ()
      ensures Datapaths == map[]
    {
      Datapaths := map[];
    }

    /** Every key is the name of its object, so distinct keys hold distinct objects. */
    ghost predicate Valid()
      reads this, Datapaths.Values
    {
      forall k :: k in Datapaths ==> Datapaths[k].Name == k
    }

    function View(): map<string, Stats>
      reads this, Datapaths.Values
    {
      map k | k in Datapaths :: Datapaths[k].View()
    }
  }

  lemma StatsLineKeepsName(dp: Stats, line: string)
    ensures StatsLine(dp, line).name == dp.name
  {
    if "lookups:" <= line {
      SetTokensKeepsName(dp, LookupsLine, Fields(line[8..]));
    } else if "masks:" <= line {
      SetTokensKeepsName(dp, MasksLine, Fields(line[6..]));
    } else if "cache:" <= line {
      SetTokensKeepsName(dp, CacheLine, Fields(line[6..]));
    }
  }

  lemma {:induction false} SetTokensKeepsName(dp: Stats, section: Section, toks: seq<string>)
    ensures SetTokens(dp, section, toks).name == dp.name
  {
    if toks != [] {
      SetTokensKeepsName(dp, section, Front(toks));
    }
  }

  /** The cursor and the result, against the state of the value-level parser. */
  ghost predicate Tracks(out: DPCTL, cur: DPCTLDatapath?, st: State<Stats, Stats>)
    reads out, out.Datapaths.Values, cur
  {
    && out.Valid()
    && out.View() == Result(GRAMMAR, st)
    && (cur == null <==> st.cur == None)
    && (cur != null ==> cur.Name in out.Datapaths && out.Datapaths[cur.Name] == cur && cur.View() == st.cur.value)
  }

  /** A body line edits the open block and nothing else. */
  lemma BodyChanges(st: State<Stats, Stats>, line: string)
    requires st.cur.Some? && Classify(line) == Body
    ensures var st' := Step(GRAMMAR, st, line);
      && st'.cur == Some(StatsLine(st.cur.value, TrimSpace(line)))
      && st'.cur.value.name == st.cur.value.name
      && Result(GRAMMAR, st') == Result(GRAMMAR, st)[st.cur.value.name := st'.cur.value]
  {
    StatsLineKeepsName(st.cur.value, TrimSpace(line));
  }

  /** The object of the cursor is edited in place; every other datapath of the result is as before. */
  method EditCurrent(ghost out: DPCTL, cur: DPCTLDatapath, t: string)
    requires out.Valid() && cur.Name in out.Datapaths && out.Datapaths[cur.Name] == cur
    modifies cur
    ensures cur.View() == StatsLine(old(cur.View()), t) && cur.Name == old(cur.Name)
    ensures out.Valid() && out.View() == old(out.View())[cur.Name := cur.View()]
  {
    StatsLineKeepsName(cur.View(), t);
    cur.ParseStatsLine(t);
    assert cur.Name == old(cur.Name);
    forall k | k in out.Datapaths && k != cur.Name ensures out.Datapaths[k].View() == old(out.Datapaths[k].View()) {
      assert out.Datapaths[k] != cur;
    }
    OneEntry(old(out.View()), out.View(), cur.Name);
  }

  method ReadStats(ghost out: DPCTL, cur: DPCTLDatapath, line: string, ghost st: State<Stats, Stats>)
    requires Tracks(out, cur, st) && Indented(line)
    modifies cur
    ensures Tracks(out, cur, Step(GRAMMAR, st, line))
  {
    BodyChanges(st, line);
    EditCurrent(out, cur, TrimSpace(line));
  }

  method ReadHeader(out: DPCTL, name: string, ghost line: string, ghost cur: DPCTLDatapath?,
                    ghost st: State<Stats, Stats>)
    returns (newCur: DPCTLDatapath)
    requires Tracks(out, cur, st) && Classify(line) == Header(NewStats(name))
    modifies out
    ensures fresh(newCur) && Tracks(out, newCur, Step(GRAMMAR, st, line))
  {
    newCur := new DPCTLDatapath(name);
    out.Datapaths := out.Datapaths[name := newCur];
  }

  method ParseDPCTL(text: string) returns (out: DPCTL)
    ensures fresh(out) && out.Valid()
    ensures out.View() == ParseText(text)
  {
    out := new DPCTL();
    var cur: DPCTLDatapath? := null;
    var lines := Split(text, '\n');
    for i := 0 to |lines|
      invariant fresh(out) && (cur != null ==> fresh(cur))
      invariant Tracks(out, cur, Run(GRAMMAR, Start(), lines[..i]))
    {
      var line := lines[i];
      ghost var st := Run(GRAMMAR, Start(), lines[..i]);
      RunNext(GRAMMAR, Start(), lines, i);
      if line == "" {
        continue;
      }
      if Indented(line) {
        if cur == null {
          continue;
        }
        ReadStats(out, cur, line, st);
        continue;
      }
      var trimmed := TrimSpace(line);
      if !HasSuffix(trimmed, ":") {
        continue;
      }
      cur := ReadHeader(out, TrimSuffix(trimmed, ":"), line, cur, st);
    }
    assert lines[..|lines|] == lines;
  }
}
