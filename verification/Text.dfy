/** The part of Go's `strings` package that the parsers rest on, over texts that are
    sequences of Unicode code points (JSON decoding always yields well-formed text). */
module Text {
  import opened Sequences

  /** The character classes of the parsers.  `UniSpace` is what Fields and TrimSpace call
      white space; `ReSpace` is the regular-expression class `\s`, which lacks the vertical
      tab and every non-ASCII space. */
  datatype CharClass =
    | UniSpace | UniWord
    | ReSpace | ReWord
    | Digit | Lower | Plain | Blank | TypeChar
    | Only(c: char) | Except(c: char)
  {
    predicate Has(ch: char) {
      match this
      case UniSpace => IsUniSpace(ch)
      case UniWord => !IsUniSpace(ch)
      case ReSpace => IsReSpace(ch)
      case ReWord => !IsReSpace(ch)
      case Digit => '0' <= ch <= '9'
      case Lower => 'a' <= ch <= 'z'
      case Plain => 'a' <= ch <= 'z' || ch == ':'
      case Blank => ch == ' ' || ch == '\t'
      case TypeChar => ch != ':' && ch != ')'
      case Only(c) => ch == c
      case Except(c) => ch != c
    }

    /** Every character of the text is in the class. */
    predicate All(s: string) {
      forall i :: 0 <= i < |s| ==> Has(s[i])
    }
  }

  predicate IsReSpace(ch: char) {
    ch == ' ' || ch == '\t' || ch == '\n' || ch == '\U{000C}' || ch == '\r'
  }

  predicate IsUniSpace(ch: char) {
    || IsReSpace(ch)
    || ch == '\U{000B}' || ch == '\U{0085}' || ch == '\U{00A0}' || ch == '\U{1680}'
    || '\U{2000}' <= ch <= '\U{200A}'
    || ch == '\U{2028}' || ch == '\U{2029}' || ch == '\U{202F}' || ch == '\U{205F}' || ch == '\U{3000}'
  }

  /** The length of the longest prefix whose characters are all in the class. */
  function Span(s: string, k: CharClass): (n: nat)
    ensures n <= |s|
    ensures forall i :: 0 <= i < n ==> k.Has(s[i])
    ensures n < |s| ==> !k.Has(s[n])
  {
    if s == "" || !k.Has(s[0]) then 0 else 1 + Span(s[1..], k)
  }

  /** The contract of Span leaves one choice. */
  lemma {:induction false} SpanIs(s: string, k: CharClass, n: nat)
    requires n <= |s| && forall i :: 0 <= i < n ==> k.Has(s[i])
    requires n < |s| ==> !k.Has(s[n])
    ensures Span(s, k) == n
  {
    if n > 0 {
      SpanIs(s[1..], k, n - 1);
    }
  }

  lemma {:induction false} SpanOver(a: string, b: string, k: CharClass)
    requires k.All(a)
    ensures Span(a + b, k) == |a| + Span(b, k)
  {
    if a == "" {
      assert a + b == b;
    } else {
      assert (a + b)[1..] == a[1..] + b;
      SpanOver(a[1..], b, k);
    }
  }

  lemma SpanStops(a: string, b: string, k: CharClass)
    requires k.All(a)
    requires b == "" || !k.Has(b[0])
    ensures Span(a + b, k) == |a|
  {
    SpanOver(a, b, k);
  }

  // ---------------------------------------------------------------- prefixes and suffixes

  predicate HasSuffix(s: string, suffix: string) {
    |suffix| <= |s| && s[|s| - |suffix|..] == suffix
  }

  function TrimSuffix(s: string, suffix: string): string {
    if HasSuffix(s, suffix) then s[..|s| - |suffix|] else s
  }

  lemma TrimSuffixMeaning(s: string, suffix: string)
    ensures TrimSuffix(s + suffix, suffix) == s
    ensures (forall a :: s != a + suffix) ==> TrimSuffix(s, suffix) == s
  {
    assert (s + suffix)[..|s|] == s && (s + suffix)[|s|..] == suffix;
    if HasSuffix(s, suffix) {
      assert s == s[..|s| - |suffix|] + suffix;
    }
  }

  function TrimLeft(s: string, k: CharClass): string {
    s[Span(s, k)..]
  }

  function TrimRight(s: string, k: CharClass): string {
    if s != "" && k.Has(s[|s| - 1]) then TrimRight(s[..|s| - 1], k) else s
  }

  function TrimSpace(s: string): string {
    TrimRight(TrimLeft(s, UniSpace), UniSpace)
  }

  /** No white space at either end. */
  predicate Trimmed(s: string) {
    s == "" || (!IsUniSpace(s[0]) && !IsUniSpace(s[|s| - 1]))
  }

  lemma {:induction false} TrimRightMeaning(s: string, k: CharClass)
    ensures TrimRight(s, k) <= s
    ensures k.All(s[|TrimRight(s, k)|..])
    ensures TrimRight(s, k) != "" ==> !k.Has(TrimRight(s, k)[|TrimRight(s, k)| - 1])
  {
    if s != "" && k.Has(s[|s| - 1]) {
      var front, t := s[..|s| - 1], TrimRight(s, k);
      TrimRightMeaning(front, k);
      forall i | 0 <= i < |s| - |t| ensures k.Has(s[|t|..][i]) {
        if i < |front| - |t| {
          assert s[|t|..][i] == front[|t|..][i];
        }
      }
    }
  }

  lemma TrimLeftMeaning(s: string, k: CharClass)
    ensures s == s[..Span(s, k)] + TrimLeft(s, k)
    ensures k.All(s[..Span(s, k)])
    ensures TrimLeft(s, k) != "" ==> !k.Has(TrimLeft(s, k)[0])
  {
  }

  /** Trimming removes a run of white space from each end and nothing else. */
  lemma {:induction false} TrimSpaceMeaning(s: string) returns (front: string, back: string)
    ensures s == front + TrimSpace(s) + back
    ensures UniSpace.All(front) && UniSpace.All(back)
    ensures Trimmed(TrimSpace(s))
    ensures front == s[..Span(s, UniSpace)]
  {
    var mid, t := TrimLeft(s, UniSpace), TrimSpace(s);
    TrimLeftMeaning(s, UniSpace);
    TrimRightMeaning(mid, UniSpace);
    front, back := s[..Span(s, UniSpace)], mid[|t|..];
    assert mid == t + back;
    if t != "" {
      assert t[0] == mid[0];
    }
    assert front + (t + back) == front + t + back;
  }

  lemma {:induction false} TrimRightSkips(s: string, back: string, k: CharClass)
    requires k.All(back) && (s == "" || !k.Has(s[|s| - 1]))
    ensures TrimRight(s + back, k) == s
    decreases |back|
  {
    if back == "" {
      assert s + back == s;
    } else {
      assert (s + back)[..|s + back| - 1] == s + back[..|back| - 1];
      TrimRightSkips(s, back[..|back| - 1], k);
    }
  }

  /** Whatever is left when the white space at both ends is taken away, it is what trimming returns. */
  lemma {:induction false} TrimSpaceIs(front: string, s: string, back: string)
    requires UniSpace.All(front) && Trimmed(s) && UniSpace.All(back)
    ensures TrimSpace(front + (s + back)) == s
  {
    if s == "" {
      assert UniSpace.All(front + (s + back));
      SpanIs(front + (s + back), UniSpace, |front + (s + back)|);
    } else {
      TrimLeftSkips(front, s + back, UniSpace);
      TrimRightSkips(s, back, UniSpace);
    }
  }

  lemma {:induction false} TrimSpaceKeeps(s: string)
    requires Trimmed(s)
    ensures TrimSpace(s) == s
  {
    if s != "" {
      SpanIs(s, UniSpace, 0);
    }
  }

  lemma {:induction false} TrimLeftSkips(pad: string, s: string, k: CharClass)
    requires k.All(pad)
    requires s == "" || !k.Has(s[0])
    ensures TrimLeft(pad + s, k) == s
  {
    SpanStops(pad, s, k);
  }

  lemma {:induction false} TrimSpacePadded(pad: string, s: string)
    requires UniSpace.All(pad) && Trimmed(s)
    ensures TrimSpace(pad + s) == s
  {
    TrimLeftSkips(pad, s, UniSpace);
  }

  // ---------------------------------------------------------------- cutting and splitting

  /** The text before and after the first separator, if there is one. */
  function Cut(s: string, sep: char): (r: (string, string, bool))
    ensures r.2 ==> s == r.0 + [sep] + r.1 && sep !in r.0
    ensures !r.2 ==> r.0 == s && r.1 == "" && sep !in s
  {
    var i := Span(s, Except(sep));
    if i < |s| then (s[..i], s[i + 1..], true) else (s, "", false)
  }

  lemma {:induction false} CutAt(a: string, sep: char, b: string)
    requires sep !in a
    ensures Cut(a + [sep] + b, sep) == (a, b, true)
  {
    SpanStops(a, [sep] + b, Except(sep));
    assert a + [sep] + b == a + ([sep] + b);
  }

  function Split(s: string, sep: char): (parts: seq<string>)
    ensures |parts| > 0
    ensures forall i :: 0 <= i < |parts| ==> sep !in parts[i]
    decreases |s|
  {
    var cut := Cut(s, sep);
    if cut.2 then [cut.0] + Split(cut.1, sep) else [s]
  }

  function Join(parts: seq<string>, sep: string): string {
    if |parts| == 0 then ""
    else if |parts| == 1 then parts[0]
    else parts[0] + sep + Join(parts[1..], sep)
  }

  lemma Regroup(a: string, b: string, c: string, d: string, e: string)
    ensures (a + b + c) + d + e == a + b + (c + d + e)
  {
  }

  lemma {:induction false} SplitAround(a: string, sep: char, b: string)
    ensures Split(a + [sep] + b, sep) == Split(a, sep) + Split(b, sep)
    decreases |a|
  {
    var cut := Cut(a, sep);
    if cut.2 {
      var rest := cut.1 + [sep] + b;
      Regroup(cut.0, [sep], cut.1, [sep], b);
      CutAt(cut.0, sep, rest);
      SplitAround(cut.1, sep, b);
      assert [cut.0] + (Split(cut.1, sep) + Split(b, sep)) == ([cut.0] + Split(cut.1, sep)) + Split(b, sep);
    } else {
      CutAt(a, sep, b);
    }
  }

  lemma {:induction false} SplitOne(a: string, sep: char)
    requires sep !in a
    ensures Split(a, sep) == [a]
  {
    SpanStops(a, "", Except(sep));
    assert a + "" == a;
  }

  lemma JoinCons(parts: seq<string>, sep: char)
    requires |parts| > 1
    ensures Join(parts, [sep]) == parts[0] + [sep] + Join(parts[1..], [sep])
    ensures parts == [parts[0]] + parts[1..]
  {
  }

  lemma {:induction false} SplitJoin(parts: seq<string>, sep: char)
    requires |parts| > 0
    requires forall i :: 0 <= i < |parts| ==> sep !in parts[i]
    ensures Split(Join(parts, [sep]), sep) == parts
  {
    SplitOne(parts[0], sep);
    if |parts| > 1 {
      JoinCons(parts, sep);
      SplitJoin(parts[1..], sep);
      SplitAround(parts[0], sep, Join(parts[1..], [sep]));
    }
  }

  /** The maximal runs of non-space characters, in order. */
  function Fields(s: string): seq<string>
    decreases |s|
  {
    var t := TrimLeft(s, UniSpace);
    if t == "" then []
    else
      var n := Span(t, UniWord);
      [t[..n]] + Fields(t[n..])
  }

  /** A word as Fields returns it: not empty, no white space. */
  predicate IsWord(w: string) {
    w != "" && UniWord.All(w)
  }

  lemma PlainWord(w: string)
    requires w != "" && Span(w, Plain) == |w|
    ensures IsWord(w)
  {
    assert Plain.All(w);
  }

  lemma WordAppend(a: string, b: string)
    requires IsWord(a) && IsWord(b)
    ensures IsWord(a + b)
  {
  }

  /** The first field of a text that is not blank, and where the others are. */
  lemma FieldsCons(s: string) returns (w: string, rest: string)
    requires TrimLeft(s, UniSpace) != ""
    ensures IsWord(w) && |rest| < |s| && Fields(s) == [w] + Fields(rest)
  {
    var t := TrimLeft(s, UniSpace);
    w, rest := t[..Span(t, UniWord)], t[Span(t, UniWord)..];
  }

  lemma {:induction false} FieldsAreWords(s: string)
    ensures AllWords(Fields(s))
    decreases |s|
  {
    if TrimLeft(s, UniSpace) == "" {
      BlankFields(s);
    } else {
      var w, rest := FieldsCons(s);
      FieldsAreWords(rest);
      WordsCons(w, Fields(rest));
    }
  }

  lemma WordsCons(w: string, words: seq<string>)
    requires IsWord(w) && AllWords(words)
    ensures AllWords([w] + words)
  {
  }

  lemma {:induction false} FieldsSkipSpace(pad: string, s: string)
    requires UniSpace.All(pad)
    ensures Fields(pad + s) == Fields(s)
  {
    SpanOver(pad, s, UniSpace);
    assert TrimLeft(pad + s, UniSpace) == TrimLeft(s, UniSpace);
  }

  /** A word followed by the end of the text or by a space is the first field. */
  lemma {:induction false} FieldsWord(w: string, s: string)
    requires IsWord(w)
    requires s == "" || IsUniSpace(s[0])
    ensures Fields(w + s) == [w] + Fields(s)
  {
    SpanStops(w, s, UniWord);
    SpanIs(w + s, UniSpace, 0);
    assert TrimLeft(w + s, UniSpace) == w + s;
  }

  lemma {:induction false} FieldsLast(w: string)
    requires IsWord(w)
    ensures Fields(w) == [w]
  {
    FieldsWord(w, "");
    assert w + "" == w;
  }

  lemma StartsWithSpace(s: string)
    ensures UniSpace.All(" ") && " " + s != "" && IsUniSpace((" " + s)[0])
  {
  }

  lemma {:induction false} FieldsNext(w: string, s: string)
    requires IsWord(w)
    ensures Fields(w + " " + s) == [w] + Fields(s)
  {
    StartsWithSpace(s);
    FieldsWord(w, " " + s);
    FieldsSkipSpace(" ", s);
    Assoc(w, " ", s);
  }

  lemma {:induction false} FieldsJoin(words: seq<string>)
    requires forall i :: 0 <= i < |words| ==> IsWord(words[i])
    ensures Fields(Join(words, " ")) == words
  {
    if |words| == 1 {
      FieldsLast(words[0]);
    } else if |words| > 1 {
      FieldsJoin(words[1..]);
      FieldsNext(words[0], Join(words[1..], " "));
    }
  }

  lemma Spaced(pad: string, w: string, rest: string, b: string)
    ensures (pad + (w + rest)) + " " + b == pad + (w + (rest + " " + b))
  {
  }

  /** The white space, the first word and the rest of a text that is not blank. */
  lemma FirstWord(a: string) returns (pad: string, w: string, rest: string)
    requires TrimLeft(a, UniSpace) != ""
    ensures a == pad + (w + rest) && UniSpace.All(pad) && IsWord(w) && (rest == "" || IsUniSpace(rest[0]))
  {
    var t := TrimLeft(a, UniSpace);
    pad, w, rest := a[..Span(a, UniSpace)], t[..Span(t, UniWord)], t[Span(t, UniWord)..];
    assert t == w + rest;
  }

  lemma BlankFields(a: string)
    requires TrimLeft(a, UniSpace) == ""
    ensures UniSpace.All(a) && Fields(a) == []
  {
  }

  lemma AfterSpace(rest: string, b: string)
    requires rest == "" || IsUniSpace(rest[0])
    ensures rest + " " + b != "" && IsUniSpace((rest + " " + b)[0])
  {
  }

  /** White space between two texts separates their fields. */
  lemma {:induction false} FieldsAppend(a: string, b: string)
    ensures Fields(a + " " + b) == Fields(a) + Fields(b)
    decreases |a|
  {
    if TrimLeft(a, UniSpace) == "" {
      BlankFields(a);
      FieldsSkipSpace(a + " ", b);
    } else {
      var pad, w, rest := FirstWord(a);
      Spaced(pad, w, rest, b);
      FieldsSkipSpace(pad, w + (rest + " " + b));
      FieldsSkipSpace(pad, w + rest);
      AfterSpace(rest, b);
      FieldsWord(w, rest + " " + b);
      FieldsWord(w, rest);
      FieldsAppend(rest, b);
      OneThenTwo(w, Fields(rest), Fields(b));
    }
  }

  lemma OneThenTwo(w: string, a: seq<string>, b: seq<string>)
    ensures [w] + (a + b) == ([w] + a) + b
  {
  }

  predicate AllWords(words: seq<string>) {
    forall i :: 0 <= i < |words| ==> IsWord(words[i])
  }

  lemma {:induction false} JoinEnd(words: seq<string>)
    requires words != [] && AllWords(words)
    ensures Join(words, " ") != "" && !IsUniSpace(Sequences.Last(Join(words, " ")))
    ensures '\n' !in Join(words, " ")
  {
    if |words| > 1 {
      JoinEnd(words[1..]);
    }
  }

  /** A tag followed by words, each after a space. */
  function Labelled(tag: string, words: seq<string>): string {
    tag + (" " + Join(words, " "))
  }

  lemma LabelledShape(tag: string, words: seq<string>)
    requires IsWord(tag) && words != [] && AllWords(words)
    ensures Trimmed(Labelled(tag, words)) && '\n' !in Labelled(tag, words)
    ensures tag <= Labelled(tag, words)
    ensures Labelled(tag, words)[|tag|..] == " " + Join(words, " ")
    ensures Labelled(tag, words)[0] == tag[0]
  {
    JoinEnd(words);
  }

  lemma LabelledFields(words: seq<string>)
    requires AllWords(words)
    ensures Fields(" " + Join(words, " ")) == words
  {
    FieldsJoin(words);
    FieldsSkipSpace(" ", Join(words, " "));
  }

  /** The last position at which `sub` occurs, or -1. */
  function LastIndex(s: string, sub: string): (r: int)
    ensures -1 <= r <= |s| - |sub| || r == -1
    ensures r >= 0 ==> sub <= s[r..]
    ensures forall j :: r < j <= |s| && 0 <= j ==> !(sub <= s[j..])
  {
    LastIndexUpTo(s, sub, |s|)
  }

  function LastIndexUpTo(s: string, sub: string, i: int): (r: int)
    requires -1 <= i <= |s|
    ensures -1 <= r <= i
    ensures r >= 0 ==> sub <= s[r..]
    ensures forall j :: r < j <= i ==> !(sub <= s[j..])
    decreases i + 1
  {
    if i < 0 then -1
    else if sub <= s[i..] then i
    else LastIndexUpTo(s, sub, i - 1)
  }
}
