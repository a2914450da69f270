/** Go's regular expressions on the fragment that the parsers use: a sequence of pieces, each a
    character class taken once, at least once, or any number of times, all of them greedy.  Every
    capture group of the source wraps exactly one piece, so a match is the list of the texts that
    the pieces consumed. */
module Regex {
  import opened Wrappers
  import opened Text

  datatype Piece = One(k: CharClass) | Plus(k: CharClass) | Star(k: CharClass)
  {
    function Least(): nat { if Star? then 0 else 1 }

    function Most(t: string): nat {
      var run := Span(t, k);
      if One? && run > 1 then 1 else run
    }

    ghost predicate Accepts(w: string) {
      Least() <= |w| && (One? ==> |w| == 1) && k.All(w)
    }
  }

  type Pattern = seq<Piece>
  type Match = seq<string>

  /** The pieces, in order, accept the texts of m, and these texts start t. */
  ghost predicate Matches(p: Pattern, t: string, m: Match) {
    if p == [] then m == []
    else m != [] && m[0] <= t && p[0].Accepts(m[0]) && Matches(p[1..], t[|m[0]|..], m[1..])
  }

  /** Backtracking with greedy pieces: each piece first takes as much as it can and gives back one
      character at a time until the rest of the pattern matches. */
  function Backtrack(p: Pattern, t: string): (r: Option<Match>)
    ensures r.Some? ==> |r.value| == |p|
    decreases |p|, |t| + 2
  {
    if p == [] then Some([]) else TryFrom(p, t, p[0].Most(t))
  }

  function TryFrom(p: Pattern, t: string, n: int): (r: Option<Match>)
    requires p != [] && -1 <= n <= |t|
    ensures r.Some? ==> |r.value| == |p|
    decreases |p|, n + 1
  {
    if n < p[0].Least() then None
    else
      match Backtrack(p[1..], t[n..])
      case Some(m) => Some([t[..n]] + m)
      case None => if n == 0 then None else TryFrom(p, t, n - 1)
  }

  /** Leftmost-first priority between matches at one position: the longer text at the first piece
      where they differ wins. */
  ghost predicate Prefers(a: Match, b: Match) {
    || a == b
    || (a != [] && b != [] && (|a[0]| > |b[0]| || (a[0] == b[0] && Prefers(a[1..], b[1..]))))
  }

  lemma AcceptsIsBounded(q: Piece, t: string, w: string)
    requires w <= t
    ensures q.Accepts(w) <==> q.Least() <= |w| <= q.Most(t)
  {
    if |w| <= Span(t, q.k) {
      assert q.k.All(w);
    } else {
      assert w[Span(t, q.k)] == t[Span(t, q.k)];
    }
  }

  /** Backtracking returns the match that leftmost-first priority prefers over every other, and
      finds nothing only when there is no match. */
  lemma {:induction false} BacktrackIsLeftmostFirst(p: Pattern, t: string)
    ensures Backtrack(p, t).Some? ==> Matches(p, t, Backtrack(p, t).value)
    ensures forall m :: Matches(p, t, m) ==> Backtrack(p, t).Some? && Prefers(Backtrack(p, t).value, m)
    decreases |p|, |t| + 2
  {
    if p != [] {
      TryFromIsLeftmostFirst(p, t, p[0].Most(t));
      forall m | Matches(p, t, m) ensures |m[0]| <= p[0].Most(t) {
        AcceptsIsBounded(p[0], t, m[0]);
      }
    }
  }

  /** A piece that takes n characters, when the rest of the pattern matches behind them. */
  lemma TryFound(p: Pattern, t: string, n: nat, rest: Match)
    requires p != [] && p[0].Least() <= n <= p[0].Most(t)
    requires Backtrack(p[1..], t[n..]) == Some(rest)
    requires Matches(p[1..], t[n..], rest) && forall m :: Matches(p[1..], t[n..], m) ==> Prefers(rest, m)
    ensures TryFrom(p, t, n) == Some([t[..n]] + rest)
    ensures Matches(p, t, [t[..n]] + rest)
    ensures forall m :: Matches(p, t, m) && |m[0]| <= n ==> Prefers([t[..n]] + rest, m)
  {
    AcceptsIsBounded(p[0], t, t[..n]);
    LongestIsPreferred(p, t, n, rest);
  }

  lemma TryNext(p: Pattern, t: string, n: nat)
    requires p != [] && p[0].Least() <= n <= |t| && Backtrack(p[1..], t[n..]) == None
    ensures TryFrom(p, t, n) == if n == 0 then None else TryFrom(p, t, n - 1)
  {
  }

  lemma TooShort(p: Pattern, t: string, n: int)
    requires p != [] && -1 <= n <= |t| && n < p[0].Least()
    ensures TryFrom(p, t, n) == None
    ensures forall m :: Matches(p, t, m) ==> |m[0]| > n
  {
  }

  lemma {:induction false} TryFromIsLeftmostFirst(p: Pattern, t: string, n: int)
    requires p != [] && -1 <= n <= p[0].Most(t)
    ensures TryFrom(p, t, n).Some? ==> Matches(p, t, TryFrom(p, t, n).value)
    ensures forall m :: Matches(p, t, m) && |m[0]| <= n ==>
              TryFrom(p, t, n).Some? && Prefers(TryFrom(p, t, n).value, m)
    decreases |p|, n + 1
  {
    if n < p[0].Least() {
      TooShort(p, t, n);
    } else {
      BacktrackIsLeftmostFirst(p[1..], t[n..]);
      match Backtrack(p[1..], t[n..])
      case Some(rest) =>
        TryFound(p, t, n, rest);
      case None =>
        NoneOfLength(p, t, n);
        TryNext(p, t, n);
        if n > 0 {
          TryFromIsLeftmostFirst(p, t, n - 1);
        }
    }
  }

  lemma NoneOfLength(p: Pattern, t: string, n: nat)
    requires p != [] && n <= |t| && forall m :: !Matches(p[1..], t[n..], m)
    ensures forall m :: Matches(p, t, m) ==> |m[0]| != n
  {
    forall m | Matches(p, t, m) ensures |m[0]| != n {
      assert !Matches(p[1..], t[n..], m[1..]);
    }
  }

  lemma {:induction false} LongestIsPreferred(p: Pattern, t: string, n: nat, rest: Match)
    requires p != [] && n <= |t| && p[0].Accepts(t[..n]) && Matches(p[1..], t[n..], rest)
    requires forall m :: Matches(p[1..], t[n..], m) ==> Prefers(rest, m)
    ensures Matches(p, t, [t[..n]] + rest)
    ensures forall m :: Matches(p, t, m) && |m[0]| <= n ==> Prefers([t[..n]] + rest, m)
  {
    var best := [t[..n]] + rest;
    assert best[1..] == rest;
    forall m | Matches(p, t, m) && |m[0]| <= n ensures Prefers(best, m) {
      if |m[0]| == n {
        assert m[0] == t[..n];
        assert Prefers(rest, m[1..]);
      }
    }
  }

  /** At most one match is preferred over every other. */
  lemma PrefersIsAntisymmetric(a: Match, b: Match)
    requires Prefers(a, b) && Prefers(b, a)
    ensures a == b
  {
    if a != b {
      PrefersIsAntisymmetric(a[1..], b[1..]);
    }
  }

  // ------------------------------------------------------------------ patterns without choices

  function Then(w: string, rest: Option<Match>): Option<Match> {
    match rest case None => None case Some(m) => Some([w] + m)
  }

  /** No character can both continue the piece q and start what follows it. */
  ghost predicate NoChoice(q: Piece, rest: Pattern) {
    rest != [] ==> rest[0].Least() == 1 && forall ch :: !(q.k.Has(ch) && rest[0].k.Has(ch))
  }

  /** Such a piece never gives back: it takes its whole run or the match fails. */
  lemma {:induction false} GreedyStep(q: Piece, rest: Pattern, t: string)
    requires NoChoice(q, rest) && !q.One?
    ensures Backtrack([q] + rest, t) ==
            if Span(t, q.k) < q.Least() then None
            else Then(t[..Span(t, q.k)], Backtrack(rest, TrimLeft(t, q.k)))
  {
    assert ([q] + rest)[1..] == rest;
    if rest != [] {
      GivingBackFails(q, rest, t, Span(t, q.k) - 1);
    }
  }

  lemma {:induction false} GivingBackFails(q: Piece, rest: Pattern, t: string, n: int)
    requires NoChoice(q, rest) && rest != [] && -1 <= n < Span(t, q.k)
    ensures TryFrom([q] + rest, t, n) == None
    decreases n + 1
  {
    assert ([q] + rest)[1..] == rest;
    if n >= q.Least() {
      assert q.k.Has(t[n]);
      assert Span(t[n..], rest[0].k) == 0;
      assert Backtrack(rest, t[n..]) == None;
      if n > 0 {
        GivingBackFails(q, rest, t, n - 1);
      }
    }
  }

  /** A single-character piece looks at one character. */
  lemma {:induction false} OneStep(q: Piece, rest: Pattern, t: string)
    requires q.One?
    ensures Backtrack([q] + rest, t) ==
            if t != "" && q.k.Has(t[0]) then Then(t[..1], Backtrack(rest, t[1..])) else None
  {
    var p := [q] + rest;
    assert p[1..] == rest;
    assert Backtrack(p, t) == TryFrom(p, t, q.Most(t));
    if q.Most(t) == 1 {
      assert TryFrom(p, t, 0) == None;
    }
  }

  lemma {:induction false} CharStep(c: char, rest: Pattern, t: string)
    ensures Backtrack([One(Only(c))] + rest, [c] + t) == Then([c], Backtrack(rest, t))
  {
    OneStep(One(Only(c)), rest, [c] + t);
    assert ([c] + t)[..1] == [c] && ([c] + t)[1..] == t;
  }

  // ------------------------------------------------------------------ repeated search

  function Length(m: Match): nat {
    if m == [] then 0 else |m[0]| + Length(m[1..])
  }

  /** The matches at the leftmost positions, each starting no earlier than the end of the one
      before it.  A match of the empty text, which no pattern of the source has, is passed over. */
  function FindAll(p: Pattern, t: string): (ms: seq<Match>)
    ensures forall i :: 0 <= i < |ms| ==> |ms[i]| == |p|
    decreases |t|
  {
    match Backtrack(p, t)
    case Some(m) =>
      if 0 < Length(m) <= |t| then [m] + FindAll(p, t[Length(m)..])
      else if t == "" then [] else FindAll(p, t[1..])
    case None => if t == "" then [] else FindAll(p, t[1..])
  }

  /** Every piece of a match accepts its text. */
  lemma {:induction false} MatchAccepts(p: Pattern, t: string, m: Match, j: nat)
    requires Matches(p, t, m) && j < |p|
    ensures |m| == |p| && p[j].Accepts(m[j])
  {
    MatchLength(p, t, m);
    if j > 0 {
      MatchAccepts(p[1..], t[|m[0]|..], m[1..], j - 1);
    }
  }

  lemma {:induction false} MatchLength(p: Pattern, t: string, m: Match)
    requires Matches(p, t, m)
    ensures |m| == |p|
  {
    if p != [] {
      MatchLength(p[1..], t[|m[0]|..], m[1..]);
    }
  }

  lemma {:induction false} FindAllAccepts(p: Pattern, t: string, j: nat)
    requires j < |p|
    ensures forall i :: 0 <= i < |FindAll(p, t)| ==> p[j].Accepts(FindAll(p, t)[i][j])
    decreases |t|
  {
    var r := Backtrack(p, t);
    if r.Some? {
      BacktrackIsLeftmostFirst(p, t);
      MatchAccepts(p, t, r.value, j);
      if 0 < Length(r.value) <= |t| {
        FindAllAccepts(p, t[Length(r.value)..], j);
      } else if t != "" {
        FindAllAccepts(p, t[1..], j);
      }
    } else if t != "" {
      FindAllAccepts(p, t[1..], j);
    }
  }

  /** A pattern that starts with one given character is searched from that character on. */
  lemma {:induction false} FindAllSkips(c: char, rest: Pattern, pre: string, t: string)
    requires c !in pre
    ensures FindAll([One(Only(c))] + rest, pre + t) == FindAll([One(Only(c))] + rest, t)
  {
    var p := [One(Only(c))] + rest;
    if pre == "" {
      assert pre + t == t;
    } else {
      OneStep(One(Only(c)), rest, pre + t);
      assert (pre + t)[0] == pre[0] && (pre + t)[1..] == pre[1..] + t;
      FindAllSkips(c, rest, pre[1..], t);
    }
  }

  /** A match at the start is found first, and the search goes on behind it. */
  lemma FindAllNext(p: Pattern, m: Match, w: string, t: string)
    requires Backtrack(p, w + t) == Some(m) && Length(m) == |w| && w != ""
    ensures FindAll(p, w + t) == [m] + FindAll(p, t)
  {
    assert (w + t)[|w|..] == t;
  }

  // ------------------------------------------------------------------ what repeated search finds

  ghost predicate HasMatch(p: Pattern, t: string) {
    exists m :: Matches(p, t, m)
  }

  /** Some piece takes a character, so no match is empty. */
  predicate Consumes(p: Pattern) {
    exists j :: 0 <= j < |p| && p[j].Least() > 0
  }

  /** No match starts before i, and m is the preferred one of those that start there. */
  ghost predicate FoundAt(p: Pattern, t: string, i: nat, m: Match)
    requires i <= |t|
  {
    && (forall j :: 0 <= j < i ==> !HasMatch(p, t[j..]))
    && Matches(p, t[i..], m) && forall m' :: Matches(p, t[i..], m') ==> Prefers(m, m')
  }

  ghost predicate FirstFound(p: Pattern, t: string, i: nat, ms: seq<Match>)
    requires ms != []
    decreases |ms|, 0
  {
    && i + Length(ms[0]) <= |t| && FoundAt(p, t, i, ms[0])
    && Found(p, t[i + Length(ms[0])..], ms[1..])
  }

  /** The list starts with the match at the leftmost position, goes on behind the end of that match,
      and ends where no match is left. */
  ghost predicate Found(p: Pattern, t: string, ms: seq<Match>)
    decreases |ms|, 1
  {
    if ms == [] then forall i :: 0 <= i <= |t| ==> !HasMatch(p, t[i..])
    else exists i: nat :: FirstFound(p, t, i, ms)
  }

  lemma {:induction false} MatchFits(p: Pattern, t: string, m: Match)
    requires Matches(p, t, m)
    ensures Length(m) <= |t|
  {
    if p != [] {
      MatchFits(p[1..], t[|m[0]|..], m[1..]);
    }
  }

  lemma {:induction false} MatchConsumes(p: Pattern, t: string, m: Match)
    requires Matches(p, t, m) && Consumes(p)
    ensures Length(m) > 0
  {
    if p[0].Least() == 0 {
      var j :| 0 <= j < |p| && p[j].Least() > 0;
      assert p[1..][j - 1] == p[j];
      MatchConsumes(p[1..], t[|m[0]|..], m[1..]);
    }
  }

  lemma {:induction false} FoundLater(p: Pattern, t: string, ms: seq<Match>)
    requires t != "" && !HasMatch(p, t) && Found(p, t[1..], ms)
    ensures Found(p, t, ms)
  {
    assert t[0..] == t;
    assert forall i :: 0 < i <= |t| ==> t[i..] == t[1..][i - 1..];
    if ms != [] {
      var i: nat :| FirstFound(p, t[1..], i, ms);
      assert t[1..][i + Length(ms[0])..] == t[i + 1 + Length(ms[0])..];
      assert FirstFound(p, t, i + 1, ms);
    }
  }

  /** Repeated search finds the leftmost matches, not overlapping, with none passed over. */
  lemma {:induction false} FindAllMeaning(p: Pattern, t: string)
    requires Consumes(p)
    ensures Found(p, t, FindAll(p, t))
    decreases |t|
  {
    BacktrackIsLeftmostFirst(p, t);
    var r := Backtrack(p, t);
    if r.Some? {
      MatchFits(p, t, r.value);
      MatchConsumes(p, t, r.value);
      var rest := t[Length(r.value)..];
      FindAllMeaning(p, rest);
      assert ([r.value] + FindAll(p, rest))[1..] == FindAll(p, rest);
      assert t[0..] == t;
      assert FirstFound(p, t, 0, FindAll(p, t));
    } else {
      assert !HasMatch(p, t);
      if t == "" {
        assert t[0..] == t;
      } else {
        FindAllMeaning(p, t[1..]);
        FoundLater(p, t, FindAll(p, t[1..]));
      }
    }
  }

  /** There is only one such list. */
  lemma {:induction false} FoundIsUnique(p: Pattern, t: string, ms: seq<Match>, ms': seq<Match>)
    requires Found(p, t, ms) && Found(p, t, ms')
    ensures ms == ms'
    decreases |ms|
  {
    if ms != [] && ms' != [] {
      var i: nat :| FirstFound(p, t, i, ms);
      var i': nat :| FirstFound(p, t, i', ms');
      assert HasMatch(p, t[i..]) && HasMatch(p, t[i'..]);
      assert i == i';
      PrefersIsAntisymmetric(ms[0], ms'[0]);
      FoundIsUnique(p, t[i + Length(ms[0])..], ms[1..], ms'[1..]);
      assert ms == [ms[0]] + ms[1..] && ms' == [ms'[0]] + ms'[1..];
    } else if ms != [] {
      var i: nat :| FirstFound(p, t, i, ms);
      assert HasMatch(p, t[i..]);
    } else if ms' != [] {
      var i: nat :| FirstFound(p, t, i, ms');
      assert HasMatch(p, t[i..]);
    }
  }

  // ------------------------------------------------------------------ matches as texts

  function Flat(m: Match): string {
    if m == [] then "" else m[0] + Flat(m[1..])
  }

  /** The pieces accept the texts one by one. */
  ghost predicate AcceptsAll(p: Pattern, m: Match) {
    |m| == |p| && forall j :: 0 <= j < |p| ==> p[j].Accepts(m[j])
  }

  /** A match is a text for every piece, such that the line starts with these texts. */
  lemma {:induction false} MatchesMeaning(p: Pattern, t: string, m: Match)
    ensures Matches(p, t, m) <==> AcceptsAll(p, m) && Flat(m) <= t
  {
    if p != [] && m != [] {
      if m[0] <= t {
        MatchesMeaning(p[1..], t[|m[0]|..], m[1..]);
        PrefixOfRest(m[0], Flat(m[1..]), t);
      } else if Flat(m) <= t {
        PrefixOfPrefix(m[0], Flat(m[1..]), t);
      }
      AcceptsCons(p, m);
    }
  }

  lemma AcceptsCons(p: Pattern, m: Match)
    requires p != [] && m != []
    ensures AcceptsAll(p, m) <==> p[0].Accepts(m[0]) && AcceptsAll(p[1..], m[1..])
  {
    if p[0].Accepts(m[0]) && AcceptsAll(p[1..], m[1..]) {
      forall j | 0 <= j < |p| ensures p[j].Accepts(m[j]) {
        if j > 0 {
          assert p[1..][j - 1] == p[j] && m[1..][j - 1] == m[j];
        }
      }
    }
    if AcceptsAll(p, m) {
      forall j | 0 <= j < |p| - 1 ensures p[1..][j].Accepts(m[1..][j]) {
        assert p[1..][j] == p[j + 1] && m[1..][j] == m[j + 1];
      }
    }
  }

  lemma PrefixOfRest(a: string, b: string, t: string)
    requires a <= t
    ensures a + b <= t <==> b <= t[|a|..]
  {
    assert t == a + t[|a|..];
    if b <= t[|a|..] {
      assert t[|a|..] == b + t[|a|..][|b|..];
    }
    if a + b <= t {
      assert t[|a|..][..|b|] == t[..|a + b|][|a|..] == b;
    }
  }

  lemma PrefixOfPrefix(a: string, b: string, t: string)
    requires a + b <= t
    ensures a <= t
  {
    assert t[..|a|] == (a + b)[..|a|] == a;
  }

  lemma FlatDrop(m: Match, i: nat)
    requires i < |m|
    ensures Flat(m[i..]) == m[i] + Flat(m[i + 1..])
  {
    assert m[i..][1..] == m[i + 1..];
  }
}
