/** memory/show: one line of `key:N` pairs in which a key may be several words. */
module Memory {
  import opened Wrappers
  import opened Text
  import opened Decimal
  import opened Sequences

  /** The name part and the value of a token that ends in `:integer`. */
  function Closing(tok: string): (r: Option<(string, int)>)
    ensures r.Some? ==> InInt64(r.value.1)
  {
    var idx := LastIndex(tok, ":");
    if idx < 0 then None
    else
      match ParseInt(tok[idx + 1..])
      case None => None
      case Some(n) => Some((tok[..idx], n))
  }

  /** A token closes a key exactly when it is a name part, a colon and an int64 without one. */
  lemma ClosingMeaning(tok: string, pre: string, n: int)
    ensures Closing(tok) == Some((pre, n)) <==> exists v :: ClosingForm(tok, pre, v, n)
  {
    if Closing(tok) == Some((pre, n)) {
      ClosingParts(tok);
    }
    if v :| ClosingForm(tok, pre, v, n) {
      ClosingOfForm(tok, pre, v, n);
    }
  }

  predicate ClosingForm(tok: string, pre: string, v: string, n: int) {
    tok == pre + (":" + v) && ':' !in v && ParseInt(v) == Some(n)
  }

  lemma ClosingParts(tok: string)
    requires Closing(tok).Some?
    ensures exists v :: ClosingForm(tok, Closing(tok).value.0, v, Closing(tok).value.1)
  {
    var idx := LastIndex(tok, ":");
    ColonAt(tok);
    NoColonAfter(tok);
    assert ClosingForm(tok, tok[..idx], tok[idx + 1..], Closing(tok).value.1);
  }

  lemma ClosingOfForm(tok: string, pre: string, v: string, n: int)
    requires ClosingForm(tok, pre, v, n)
    ensures Closing(tok) == Some((pre, n))
  {
    OnlyColon(pre, v);
    assert tok[..|pre|] == pre && tok[|pre| + 1..] == v;
  }

  lemma ColonAt(tok: string)
    requires LastIndex(tok, ":") >= 0
    ensures LastIndex(tok, ":") < |tok| && tok[LastIndex(tok, ":")] == ':'
  {
    assert ":"[0] == tok[LastIndex(tok, ":")..][0];
  }

  lemma NoColonAfter(tok: string)
    requires LastIndex(tok, ":") >= 0
    ensures ':' !in tok[LastIndex(tok, ":") + 1..]
  {
    var i := LastIndex(tok, ":");
    forall j | i < j < |tok| ensures tok[j] != ':' {
      assert !(":" <= tok[j..]);
    }
  }

  lemma OnlyColon(pre: string, v: string)
    requires ':' !in v
    ensures LastIndex(pre + (":" + v), ":") == |pre|
  {
    var tok := pre + (":" + v);
    assert ":" <= tok[|pre|..];
    forall j | |pre| < j <= |tok| ensures !(":" <= tok[j..]) {
      assert j < |tok| ==> tok[j] == v[j - |pre| - 1];
    }
  }

  /** The words of the key that a closing token completes. */
  function KeyWords(parts: seq<string>, pre: string): seq<string> {
    if pre != "" then parts + [pre] else parts
  }

  /** The usage collected so far and the pending words of the next key. */
  datatype State = State(usage: map<string, int>, parts: seq<string>)

  function Step(st: State, tok: string): State {
    match Closing(tok)
    case None => State(st.usage, st.parts + [tok])
    case Some(c) =>
      var name := Join(KeyWords(st.parts, c.0), " ");
      State(if name == "" then st.usage else st.usage[name := c.1], [])
  }

  function Run(toks: seq<string>): State {
    if toks == [] then State(map[], []) else Step(Run(toks[..|toks| - 1]), toks[|toks| - 1])
  }

  function ParseText(text: string): map<string, int> {
    Run(Fields(text)).usage
  }

  lemma RunNext(toks: seq<string>, i: nat)
    requires i < |toks|
    ensures Run(toks[..i + 1]) == Step(Run(toks[..i]), toks[i])
  {
    assert toks[..i + 1][..i] == toks[..i];
  }

  method ParseMemory(text: string) returns (usage: map<string, int>)
    ensures usage == ParseText(text)
  {
    usage := map[];
    var parts: seq<string> := [];
    var toks := Fields(text);
    for i := 0 to |toks|
      invariant Run(toks[..i]) == State(usage, parts)
    {
      var tok := toks[i];
      RunNext(toks, i);
      var idx := LastIndex(tok, ":");
      if idx < 0 {
        parts := parts + [tok];
        continue;
      }
      var n := ParseInt(tok[idx + 1..]);
      if n == None {
        parts := parts + [tok];
        continue;
      }
      if tok[..idx] != "" {
        parts := parts + [tok[..idx]];
      }
      var name := Join(parts, " ");
      parts := [];
      if name == "" {
        continue;
      }
      usage := usage[name := n.value];
    }
    assert toks[..|toks|] == toks;
  }

  // ------------------------------------------------------------------ conservation of tokens

  /** A closing token with the words that were pending before it. */
  datatype Group = Group(words: seq<string>, closer: string)

  ghost predicate Pending(tok: string) {
    Closing(tok) == None
  }

  ghost predicate AllPending(words: seq<string>) {
    forall i :: 0 <= i < |words| ==> Pending(words[i])
  }

  ghost predicate GroupOk(g: Group) {
    !Pending(g.closer) && AllPending(g.words)
  }

  /** What a closing token after some pending words adds to a map: nothing for a nameless `:N`. */
  function Close(usage: map<string, int>, words: seq<string>, closer: string): map<string, int> {
    match Closing(closer)
    case None => usage
    case Some(c) =>
      var name := Join(KeyWords(words, c.0), " ");
      if name == "" then usage else usage[name := c.1]
  }

  /** The key is the pending words and the name part, if there is one, joined by spaces. */
  lemma CloseMeaning(usage: map<string, int>, words: seq<string>, pre: string, v: string, n: int)
    requires ':' !in v && ParseInt(v) == Some(n)
    ensures var name := Join(if pre == "" then words else words + [pre], " ");
      Close(usage, words, pre + (":" + v)) == if name == "" then usage else usage[name := n]
  {
    ClosingOfForm(pre + (":" + v), pre, v, n);
  }

  function TokensOf(gs: seq<Group>): seq<string> {
    if gs == [] then []
    else TokensOf(gs[..|gs| - 1]) + gs[|gs| - 1].words + [gs[|gs| - 1].closer]
  }

  /** The map of a list of groups: the last value of a key wins. */
  function LastWins(gs: seq<Group>): map<string, int> {
    if gs == [] then map[]
    else Close(LastWins(gs[..|gs| - 1]), gs[|gs| - 1].words, gs[|gs| - 1].closer)
  }

  /** The groups and the dangling words account for every token, once and in order. */
  ghost predicate Accounts(toks: seq<string>, gs: seq<Group>, tail: seq<string>) {
    && toks == TokensOf(gs) + tail
    && (forall i :: 0 <= i < |gs| ==> GroupOk(gs[i]))
    && AllPending(tail)
  }

  lemma StepMeaning(st: State, tok: string)
    ensures Step(st, tok) ==
            if Pending(tok) then State(st.usage, st.parts + [tok])
            else State(Close(st.usage, st.parts, tok), [])
  {
  }

  lemma AddWord(toks: seq<string>, gs: seq<Group>, tail: seq<string>, tok: string)
    requires Accounts(toks, gs, tail) && Pending(tok)
    ensures Accounts(toks + [tok], gs, tail + [tok])
  {
    assert (TokensOf(gs) + tail) + [tok] == TokensOf(gs) + (tail + [tok]);
  }

  lemma TokensNext(gs: seq<Group>, g: Group)
    ensures TokensOf(gs + [g]) == TokensOf(gs) + g.words + [g.closer]
    ensures LastWins(gs + [g]) == Close(LastWins(gs), g.words, g.closer)
  {
    assert (gs + [g])[..|gs|] == gs;
  }

  lemma GroupsNext(gs: seq<Group>, g: Group)
    requires GroupOk(g) && forall i :: 0 <= i < |gs| ==> GroupOk(gs[i])
    ensures forall i :: 0 <= i < |gs + [g]| ==> GroupOk((gs + [g])[i])
  {
  }

  lemma NoTail<T>(a: seq<T>, b: seq<T>, x: T)
    ensures (a + b) + [x] == (a + b + [x]) + []
  {
  }

  lemma AddGroup(toks: seq<string>, gs: seq<Group>, tail: seq<string>, tok: string)
    requires Accounts(toks, gs, tail) && !Pending(tok)
    ensures Accounts(toks + [tok], gs + [Group(tail, tok)], [])
    ensures LastWins(gs + [Group(tail, tok)]) == Close(LastWins(gs), tail, tok)
  {
    TokensNext(gs, Group(tail, tok));
    GroupsNext(gs, Group(tail, tok));
    NoTail(TokensOf(gs), tail, tok);
  }

  lemma OneMoreToken(front: seq<string>, tok: string, gs: seq<Group>, st: State) returns (gs': seq<Group>)
    requires Accounts(front, gs, st.parts) && st.usage == LastWins(gs)
    ensures Accounts(front + [tok], gs', Step(st, tok).parts)
    ensures Step(st, tok).usage == LastWins(gs')
  {
    StepMeaning(st, tok);
    if Pending(tok) {
      AddWord(front, gs, st.parts, tok);
      gs' := gs;
    } else {
      AddGroup(front, gs, st.parts, tok);
      gs' := gs + [Group(st.parts, tok)];
    }
  }

  /** Every token ends up in exactly one group or in the tail, and the map is the last-wins fold of
      the groups. */
  lemma {:induction false} Conservation(toks: seq<string>) returns (gs: seq<Group>)
    ensures Accounts(toks, gs, Run(toks).parts)
    ensures Run(toks).usage == LastWins(gs)
  {
    if toks == [] {
      gs := [];
    } else {
      var before := Conservation(toks[..|toks| - 1]);
      FrontLast(toks);
      gs := OneMoreToken(toks[..|toks| - 1], toks[|toks| - 1], before, Run(toks[..|toks| - 1]));
    }
  }

  lemma {:induction false} DropWord(front: seq<string>, tok: string, gs: seq<Group>, tail: seq<string>)
    requires Accounts(front + [tok], gs, tail) && Pending(tok)
    ensures tail != [] && Last(tail) == tok
    ensures Accounts(front, gs, Front(tail))
  {
    if tail == [] {
      LastGroup(gs);
      assert TokensOf(gs) + [] == TokensOf(gs);
      SnocEqual(front, tok, TokensOf(Front(gs)) + Last(gs).words, Last(gs).closer);
      assert false;
    } else {
      FrontLast(tail);
      Assoc(TokensOf(gs), Front(tail), [Last(tail)]);
      SnocEqual(front, tok, TokensOf(gs) + Front(tail), Last(tail));
    }
  }

  lemma {:induction false} DropGroup(front: seq<string>, tok: string, gs: seq<Group>, tail: seq<string>)
    requires Accounts(front + [tok], gs, tail) && !Pending(tok)
    ensures tail == [] && gs != [] && Last(gs).closer == tok
    ensures Accounts(front, Front(gs), Last(gs).words)
  {
    if tail != [] {
      FrontLast(tail);
      Assoc(TokensOf(gs), Front(tail), [Last(tail)]);
      SnocEqual(front, tok, TokensOf(gs) + Front(tail), Last(tail));
      assert false;
    } else {
      LastGroup(gs);
      assert TokensOf(gs) + [] == TokensOf(gs);
      SnocEqual(front, tok, TokensOf(Front(gs)) + Last(gs).words, Last(gs).closer);
    }
  }

  lemma LastGroup(gs: seq<Group>)
    requires TokensOf(gs) != []
    ensures gs != [] && TokensOf(gs) == (TokensOf(Front(gs)) + Last(gs).words) + [Last(gs).closer]
  {
  }

  lemma NoTokens(gs: seq<Group>)
    requires TokensOf(gs) == []
    ensures gs == []
  {
  }

  /** The account of a token list is unique. */
  lemma {:induction false} ConservationIsUnique(
    toks: seq<string>, gs: seq<Group>, tail: seq<string>, gs': seq<Group>, tail': seq<string>)
    requires Accounts(toks, gs, tail) && Accounts(toks, gs', tail')
    ensures gs == gs' && tail == tail'
  {
    if toks == [] {
      NoTokens(gs);
      NoTokens(gs');
    } else {
      var front, tok := Front(toks), Last(toks);
      FrontLast(toks);
      if Pending(tok) {
        DropWord(front, tok, gs, tail);
        DropWord(front, tok, gs', tail');
        ConservationIsUnique(front, gs, Front(tail), gs', Front(tail'));
        FrontLast(tail);
        FrontLast(tail');
      } else {
        DropGroup(front, tok, gs, tail);
        DropGroup(front, tok, gs', tail');
        ConservationIsUnique(front, Front(gs), Last(gs).words, Front(gs'), Last(gs').words);
        FrontLast(gs);
        FrontLast(gs');
      }
    }
  }
}
