/** Printing a memory/show result and reading it back. */
module MemoryRoundTrip {
  import opened Wrappers
  import opened Text
  import opened Decimal
  import opened Sequences
  import opened Entries
  import opened Memory

  /** The keys that ParseMemory can recover: single-spaced words, of which only the last may itself
      end in `:integer`. */
  ghost predicate KeyOk(key: string) {
    var words := Fields(key);
    words != [] && key == Join(words, " ") && AllPending(Front(words))
  }

  ghost predicate EntryOk(e: (string, int)) {
    KeyOk(e.0) && InInt64(e.1)
  }

  ghost predicate UsageOk(m: map<string, int>) {
    forall k :: k in m ==> EntryOk((k, m[k]))
  }

  function EntryText(e: (string, int)): string {
    e.0 + (":" + FormatInt(e.1))
  }

  /** Each entry after a space. */
  function PrintText(es: seq<(string, int)>): string {
    if es == [] then "" else PrintText(Front(es)) + " " + EntryText(Last(es))
  }

  // ------------------------------------------------------------------ printing

  lemma {:induction false} LastColon(w: string, n: int)
    ensures LastIndex(w + (":" + FormatInt(n)), ":") == |w|
  {
    var tok := w + (":" + FormatInt(n));
    FormatChars(n);
    assert tok[|w|..] == ":" + FormatInt(n) && ":" <= tok[|w|..];
    forall j | |w| < j < |tok| ensures tok[j] != ':' {
      assert tok[j] == FormatInt(n)[j - |w| - 1];
    }
    var idx := LastIndex(tok, ":");
    assert tok[idx..][0] == tok[idx] == ':';
  }

  lemma {:induction false} ClosingPrinted(w: string, n: int)
    ensures Closing(w + (":" + FormatInt(n))) == if InInt64(n) then Some((w, n)) else None
  {
    var tok := w + (":" + FormatInt(n));
    LastColon(w, n);
    assert tok[..|w|] == w && tok[|w| + 1..] == FormatInt(n);
    ParseFormat(n);
  }

  lemma {:induction false} JoinSuffix(front: seq<string>, last: string, suffix: string)
    ensures Join(front + [last], " ") + suffix == Join(front + [last + suffix], " ")
  {
    if front != [] {
      var rest := front[1..];
      JoinSuffix(rest, last, suffix);
      assert (front + [last])[1..] == rest + [last];
      assert (front + [last + suffix])[1..] == rest + [last + suffix];
      Assoc(front[0] + " ", Join(rest + [last], " "), suffix);
    }
  }

  lemma {:induction false} EntryWords(front: seq<string>, last: string, n: int)
    requires forall i :: 0 <= i < |front| ==> IsWord(front[i])
    requires IsWord(last)
    ensures Fields(Join(front + [last], " ") + (":" + FormatInt(n))) == front + [last + (":" + FormatInt(n))]
  {
    ColonInt(n);
    WordAppend(last, ":" + FormatInt(n));
    JoinSuffix(front, last, ":" + FormatInt(n));
    FieldsJoin(front + [last + (":" + FormatInt(n))]);
  }

  lemma EntryFields(e: (string, int))
    requires EntryOk(e)
    ensures var words := Fields(e.0);
            Fields(EntryText(e)) == Front(words) + [Last(words) + (":" + FormatInt(e.1))]
  {
    var words := Fields(e.0);
    FrontLast(words);
    FieldsAreWords(e.0);
    EntryWords(Front(words), Last(words), e.1);
  }

  lemma {:induction false} RunPending(toks: seq<string>, words: seq<string>)
    requires AllPending(words)
    ensures Run(toks + words) == State(Run(toks).usage, Run(toks).parts + words)
  {
    if words == [] {
      assert toks + words == toks;
      assert Run(toks).parts + words == Run(toks).parts;
    } else {
      var front, last := Front(words), Last(words);
      FrontLast(words);
      RunPending(toks, front);
      Assoc(toks, front, [last]);
      Assoc(Run(toks).parts, front, [last]);
      Snoc(toks + front, last);
      assert Pending(last);
      StepMeaning(Run(toks + front), last);
    }
  }

  lemma {:induction false} RunEntry(toks: seq<string>, e: (string, int))
    requires EntryOk(e) && Run(toks).parts == []
    ensures Run(toks + Fields(EntryText(e))) == State(Run(toks).usage[e.0 := e.1], [])
  {
    var words := Fields(e.0);
    var front, closer := Front(words), Last(words) + (":" + FormatInt(e.1));
    EntryFields(e);
    RunPending(toks, front);
    assert [] + front == front;
    Assoc(toks, front, [closer]);
    Snoc(toks + front, closer);
    ClosingPrinted(Last(words), e.1);
    FieldsAreWords(e.0);
    FrontLast(words);
    assert KeyWords(front, Last(words)) == words;
    JoinNotEmpty(words);
  }

  lemma JoinNotEmpty(words: seq<string>)
    requires words != [] && words[0] != ""
    ensures Join(words, " ") != ""
  {
  }

  lemma {:induction false} RunPrinted(es: seq<(string, int)>)
    requires forall i :: 0 <= i < |es| ==> EntryOk(es[i])
    ensures Run(Fields(PrintText(es))) == State(MapOf(es), [])
  {
    if es == [] {
      assert Fields("") == [];
    } else {
      RunPrinted(Front(es));
      FieldsAppend(PrintText(Front(es)), EntryText(Last(es)));
      RunEntry(Fields(PrintText(Front(es))), Last(es));
    }
  }

  // ------------------------------------------------------------------ what parsing can produce

  ghost predicate StateOk(st: State) {
    UsageOk(st.usage) && AllPending(st.parts) && forall i :: 0 <= i < |st.parts| ==> IsWord(st.parts[i])
  }

  lemma {:induction false} NameOk(parts: seq<string>, tok: string)
    requires AllPending(parts) && (forall i :: 0 <= i < |parts| ==> IsWord(parts[i])) && IsWord(tok)
    requires Closing(tok).Some? && Join(KeyWords(parts, Closing(tok).value.0), " ") != ""
    ensures KeyOk(Join(KeyWords(parts, Closing(tok).value.0), " "))
  {
    var pre := Closing(tok).value.0;
    var words := KeyWords(parts, pre);
    assert forall i :: 0 <= i < |pre| ==> pre[i] == tok[i];
    FieldsJoin(words);
    assert AllPending(Front(words)) by {
      assert forall i :: 0 <= i < |Front(words)| ==> Front(words)[i] == parts[i];
    }
  }

  lemma StepOk(st: State, tok: string)
    requires StateOk(st) && IsWord(tok)
    ensures StateOk(Step(st, tok))
  {
    StepMeaning(st, tok);
    if !Pending(tok) && Join(KeyWords(st.parts, Closing(tok).value.0), " ") != "" {
      NameOk(st.parts, tok);
    }
  }

  lemma {:induction false} RunOk(toks: seq<string>)
    requires forall i :: 0 <= i < |toks| ==> IsWord(toks[i])
    ensures StateOk(Run(toks))
  {
    if toks != [] {
      RunOk(Front(toks));
      StepOk(Run(Front(toks)), Last(toks));
    }
  }

  lemma ParseIsOk(text: string)
    ensures UsageOk(ParseText(text))
  {
    FieldsAreWords(text);
    RunOk(Fields(text));
  }

  // ------------------------------------------------------------------ the round trip

  /** A printed map, in whatever order, is recovered exactly when all its entries are well-formed. */
  lemma {:induction false} RecoveredExactlyWhen(es: seq<(string, int)>)
    requires DistinctKeys(es)
    ensures ParseText(PrintText(es)) == MapOf(es) <==> forall i :: 0 <= i < |es| ==> EntryOk(es[i])
  {
    if forall i :: 0 <= i < |es| ==> EntryOk(es[i]) {
      RunPrinted(es);
    }
    if ParseText(PrintText(es)) == MapOf(es) {
      ParseIsOk(PrintText(es));
      forall i | 0 <= i < |es| ensures EntryOk(es[i]) {
        MapOfFinds(es, i);
      }
    }
  }

  /** The results of ParseMemory are exactly the maps with well-formed entries. */
  lemma ResultsCharacterised(m: map<string, int>)
    ensures (exists text :: ParseText(text) == m) <==> UsageOk(m)
  {
    if UsageOk(m) {
      var es := Enumerate(m);
      RunPrinted(es);
      assert ParseText(PrintText(es)) == m;
    }
    if text :| ParseText(text) == m {
      ParseIsOk(text);
    }
  }
}
