/** Tokens of the form `key:int64`, and the lookup counters that dpif/show and dpctl/show fill
    from them. */
module KeyValue {
  import opened Wrappers
  import opened Text
  import opened Decimal
  import opened Sequences
  import opened Entries

  /** The key and the value of a token; None when the token has no colon or what follows the first
      colon is not an int64. */
  function KeyInt(tok: string): (r: Option<(string, int)>)
    ensures r.Some? ==> InInt64(r.value.1)
  {
    var kv := Cut(tok, ':');
    if !kv.2 then None
    else
      match ParseInt(kv.1)
      case None => None
      case Some(n) => Some((kv.0, n))
  }

  function PrintKeyInt(key: string, n: int): string {
    key + ":" + FormatInt(n)
  }

  lemma KeyIntPrinted(key: string, n: int)
    requires ':' !in key && InInt64(n)
    ensures KeyInt(PrintKeyInt(key, n)) == Some((key, n))
  {
    CutAt(key, ':', FormatInt(n));
    ParseFormat(n);
  }

  lemma KeyIntWord(key: string, n: int)
    requires IsWord(key)
    ensures IsWord(PrintKeyInt(key, n))
  {
    FormatChars(n);
    WordAppend(key, ":");
    WordAppend(key + ":", FormatInt(n));
  }

  datatype Lookups = Lookups(hit: int, missed: int, lost: int)

  const NO_LOOKUPS := Lookups(0, 0, 0)

  predicate LookupsOk(l: Lookups) {
    InInt64(l.hit) && InInt64(l.missed) && InInt64(l.lost)
  }

  predicate IsLookupKey(key: string) {
    key == "hit" || key == "missed" || key == "lost"
  }

  function SetLookup(l: Lookups, key: string, n: int): Lookups {
    if key == "hit" then l.(hit := n)
    else if key == "missed" then l.(missed := n)
    else if key == "lost" then l.(lost := n)
    else l
  }

  function LookupWords(l: Lookups): seq<string> {
    [PrintKeyInt("hit", l.hit), PrintKeyInt("missed", l.missed), PrintKeyInt("lost", l.lost)]
  }

  function PrintLookups(l: Lookups): string {
    " " + Join(LookupWords(l), " ")
  }

  lemma LowerWord(w: string)
    requires w != "" && Span(w, Lower) == |w|
    ensures IsWord(w) && ':' !in w
  {
    assert Lower.All(w);
  }

  lemma LowerKeyWord(key: string, n: int)
    requires key != "" && Span(key, Lower) == |key|
    ensures IsWord(PrintKeyInt(key, n))
  {
    LowerWord(key);
    KeyIntWord(key, n);
  }

  lemma ThreeWords(a: string, b: string, c: string)
    requires IsWord(a) && IsWord(b) && IsWord(c)
    ensures AllWords([a, b, c])
  {
  }

  lemma LowerHit()
    ensures Span("hit", Lower) == 3
  {
  }

  lemma LowerMissed()
    ensures Span("missed", Lower) == 6
  {
  }

  lemma LowerLost()
    ensures Span("lost", Lower) == 4
  {
  }

  lemma LookupWordsOk(l: Lookups)
    ensures AllWords(LookupWords(l))
  {
    LowerHit();
    LowerMissed();
    LowerLost();
    LowerKeyWord("hit", l.hit);
    LowerKeyWord("missed", l.missed);
    LowerKeyWord("lost", l.lost);
    ThreeWords(PrintKeyInt("hit", l.hit), PrintKeyInt("missed", l.missed), PrintKeyInt("lost", l.lost));
  }

  lemma FieldsOfLookups(l: Lookups)
    ensures Fields(PrintLookups(l)) == LookupWords(l)
  {
    LookupWordsOk(l);
    LabelledFields(LookupWords(l));
  }

  // ------------------------------------------------------------------ what a list of tokens says

  /** The int64 that the token gives to the key: the key, a colon and a text that ParseInt accepts. */
  function TokenValue(tok: string, key: string): Option<int> {
    if key + ":" <= tok then ParseInt(tok[|key| + 1..]) else None
  }

  function ValueOf(key: string): string -> Option<int> {
    tok => TokenValue(tok, key)
  }

  lemma CutKey(tok: string, key: string)
    requires ':' !in key && key + ":" <= tok
    ensures Cut(tok, ':') == (key, tok[|key| + 1..], true)
  {
    CutAt(key, ':', tok[|key| + 1..]);
    assert tok == key + ":" + tok[|key| + 1..];
  }

  lemma KeyIntIsTokenValue(tok: string, key: string)
    requires ':' !in key
    ensures TokenValue(tok, key)
         == if KeyInt(tok).Some? && KeyInt(tok).value.0 == key then Some(KeyInt(tok).value.1) else None
  {
    if key + ":" <= tok {
      CutKey(tok, key);
    } else {
      var cut := Cut(tok, ':');
      assert cut.2 && cut.0 == key ==> tok == key + ":" + cut.1;
    }
  }

  /** The three lookup counters after a list of tokens. */
  ghost predicate LookupsFrom(toks: seq<string>, before: Lookups, after: Lookups) {
    && LastOr(toks, ValueOf("hit"), before.hit, after.hit)
    && LastOr(toks, ValueOf("missed"), before.missed, after.missed)
    && LastOr(toks, ValueOf("lost"), before.lost, after.lost)
  }

  function LookupsAfter(l: Lookups, tok: string): Lookups {
    match KeyInt(tok)
    case None => l
    case Some(kv) => SetLookup(l, kv.0, kv.1)
  }

  lemma LookupKeysArePlain()
    ensures ':' !in "hit" && ':' !in "missed" && ':' !in "lost" && ':' !in "total"
  {
  }

  lemma LookupsAfterToken(l: Lookups, tok: string)
    ensures LookupsAfter(l, tok) == Lookups(
      Or(TokenValue(tok, "hit"), l.hit), Or(TokenValue(tok, "missed"), l.missed), Or(TokenValue(tok, "lost"), l.lost))
  {
    LookupKeysArePlain();
    KeyIntIsTokenValue(tok, "hit");
    KeyIntIsTokenValue(tok, "missed");
    KeyIntIsTokenValue(tok, "lost");
  }

  lemma LookupsFromNone(l: Lookups)
    ensures LookupsFrom([], l, l)
  {
  }

  lemma LookupsFromSnoc(toks: seq<string>, tok: string, before: Lookups, l: Lookups)
    requires LookupsFrom(toks, before, l)
    ensures LookupsFrom(toks + [tok], before, LookupsAfter(l, tok))
  {
    LookupsAfterToken(l, tok);
    LastOrSnoc(toks, tok, ValueOf("hit"), before.hit, l.hit);
    LastOrSnoc(toks, tok, ValueOf("missed"), before.missed, l.missed);
    LastOrSnoc(toks, tok, ValueOf("lost"), before.lost, l.lost);
  }

  /** Some token gives an int64 to one of the three keys. */
  ghost predicate HasLookup(toks: seq<string>) {
    exists i :: 0 <= i < |toks| && IsLookup(toks[i])
  }

  predicate IsLookup(tok: string) {
    TokenValue(tok, "hit").Some? || TokenValue(tok, "missed").Some? || TokenValue(tok, "lost").Some?
  }

  lemma IsLookupToken(tok: string)
    ensures IsLookup(tok) <==> KeyInt(tok).Some? && IsLookupKey(KeyInt(tok).value.0)
  {
    LookupKeysArePlain();
    KeyIntIsTokenValue(tok, "hit");
    KeyIntIsTokenValue(tok, "missed");
    KeyIntIsTokenValue(tok, "lost");
  }

  lemma HasLookupSnoc(toks: seq<string>, tok: string)
    ensures HasLookup(toks + [tok]) <==> HasLookup(toks) || IsLookup(tok)
  {
    var all := toks + [tok];
    if i :| 0 <= i < |toks| && IsLookup(toks[i]) {
      assert all[i] == toks[i];
    }
    if IsLookup(tok) {
      assert all[|toks|] == tok;
    }
    if i :| 0 <= i < |all| && IsLookup(all[i]) {
      assert i < |toks| ==> all[i] == toks[i];
    }
  }

  /** A token that gives an int64 to no key at all. */
  ghost predicate NoPair(tok: string) {
    forall key :: ':' !in key ==> TokenValue(tok, key) == None
  }

  lemma NoPairIsNoKeyInt(tok: string)
    ensures NoPair(tok) <==> KeyInt(tok) == None
  {
    if KeyInt(tok).Some? {
      KeyIntIsTokenValue(tok, KeyInt(tok).value.0);
    } else {
      forall key | ':' !in key ensures TokenValue(tok, key) == None {
        KeyIntIsTokenValue(tok, key);
      }
    }
  }

  /** Rates such as `hit/pkt:2.17` and `hit-rate:75.42%` are no pairs. */
  lemma RatesAreNoPairs(key: string, rate: string)
    requires ':' !in key && '.' in rate
    ensures NoPair(key + ":" + rate)
  {
    CutAt(key, ':', rate);
    DotIsNoInt(rate);
    NoPairIsNoKeyInt(key + ":" + rate);
  }

  lemma DotIsNoInt(s: string)
    requires '.' in s
    ensures ParseInt(s) == None
  {
    var i :| 0 <= i < |s| && s[i] == '.';
    var digits := if s != "" && (s[0] == '+' || s[0] == '-') then s[1..] else s;
    assert !AllDigits(digits) by {
      var j := i - (|s| - |digits|);
      assert digits[j] == '.' && !Digit.Has(digits[j]);
    }
  }
}
