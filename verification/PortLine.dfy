/** The port line of dpif/show: `<name> <portno>/<ofportno>: (<type>...)`. */
module PortLine {
  import opened Wrappers
  import opened Text
  import opened Decimal
  import opened Regex

  datatype Port = Port(name: string, portNo: int, ofPortNo: string, kind: string)

  /** `^(\S+)\s+(\d+)/(\S+):\s*\(([^:)]+)`, from its last piece to its first; the groups are the
      pieces 0, 2, 4 and 8. */
  const TYPE: Pattern := [Plus(TypeChar)]
  const PAREN: Pattern := [One(Only('('))] + TYPE
  const GAP: Pattern := [Star(ReSpace)] + PAREN
  const COLON: Pattern := [One(Only(':'))] + GAP
  const OF_PORT: Pattern := [Plus(ReWord)] + COLON
  const SLASH: Pattern := [One(Only('/'))] + OF_PORT
  const NUMBER: Pattern := [Plus(Digit)] + SLASH
  const SPACE: Pattern := [Plus(ReSpace)] + NUMBER
  const PORT_LINE: Pattern := [Plus(ReWord)] + SPACE

  function ParsePortLine(line: string): Option<Port> {
    match Backtrack(PORT_LINE, line)
    case None => None
    case Some(m) =>
      match ParseInt(m[2])
      case None => None
      case Some(portNo) => Some(Port(m[0], portNo, m[4], TrimSpace(m[8])))
  }

  // ------------------------------------------------------------------ what the pattern means

  /** A colon, optional space, an opening parenthesis and at least one type character. */
  predicate KindFollows(u: string) {
    u != "" && u[0] == ':' &&
    var v := TrimLeft(u[1..], ReSpace);
    v != "" && v[0] == '(' && Span(v[1..], TypeChar) > 0
  }

  function KindMatch(u: string): Match
    requires KindFollows(u)
  {
    var v := TrimLeft(u[1..], ReSpace);
    [":", u[1..][..Span(u[1..], ReSpace)], "(", v[1..][..Span(v[1..], TypeChar)]]
  }

  /** The longest prefix of t, of at most n characters and at least one, that a type follows. */
  function LongestOfPort(t: string, n: nat): (r: Option<nat>)
    requires n <= |t|
    ensures r.Some? ==> 0 < r.value <= n && KindFollows(t[r.value..])
    ensures forall j :: (if r.Some? then r.value else 0) < j <= n ==> !KindFollows(t[j..])
    decreases n
  {
    if n == 0 then None
    else if KindFollows(t[n..]) then Some(n)
    else LongestOfPort(t, n - 1)
  }

  /** The pieces of a port line: the name is the whole first run of non-space characters, the
      digits run up to a slash, and the OpenFlow port is the longest prefix of the run after the
      slash that is followed by a type. */
  function Meaning(line: string): Option<Match> {
    var name := line[..Span(line, ReWord)];
    if name == "" then None else Then(name, GapMeaning(TrimLeft(line, ReWord)))
  }

  function GapMeaning(t: string): Option<Match> {
    var gap := t[..Span(t, ReSpace)];
    if gap == "" then None else Then(gap, NumberMeaning(TrimLeft(t, ReSpace)))
  }

  function NumberMeaning(u: string): Option<Match> {
    var digits := u[..Span(u, Digit)];
    var v := TrimLeft(u, Digit);
    if digits == "" || v == "" || v[0] != '/' then None
    else Then(digits, Then("/", OfPortMeaning(v[1..], Span(v[1..], ReWord))))
  }

  function OfPortMeaning(w: string, n: nat): Option<Match>
    requires n <= |w|
  {
    match LongestOfPort(w, n)
    case None => None
    case Some(m) => Some([w[..m]] + KindMatch(w[m..]))
  }

  lemma {:induction false} TypeMatched(v: string)
    ensures Backtrack(PAREN, v) ==
            if v != "" && v[0] == '(' && Span(v[1..], TypeChar) > 0
            then Some(["(", v[1..][..Span(v[1..], TypeChar)]]) else None
  {
    OneStep(One(Only('(')), TYPE, v);
    if v != "" && v[0] == '(' {
      GreedyStep(Plus(TypeChar), [], v[1..]);
      assert [Plus(TypeChar)] + [] == TYPE;
      assert v[..1] == "(";
      var w := v[1..][..Span(v[1..], TypeChar)];
      assert [w] + [] == [w];
      assert ["("] + [w] == ["(", w];
    }
  }

  lemma FourPieces(a: string, b: string, c: string, d: string)
    ensures [a] + ([b] + [c, d]) == [a, b, c, d]
  {
  }

  lemma {:induction false} KindMatched(u: string)
    ensures Backtrack(COLON, u) == if KindFollows(u) then Some(KindMatch(u)) else None
  {
    OneStep(One(Only(':')), GAP, u);
    if u != "" && u[0] == ':' {
      GreedyStep(Star(ReSpace), PAREN, u[1..]);
      TypeMatched(TrimLeft(u[1..], ReSpace));
      assert u[..1] == ":";
      if KindFollows(u) {
        FourPieces(":", u[1..][..Span(u[1..], ReSpace)], "(", KindMatch(u)[3]);
      }
    }
  }

  lemma {:induction false} OfPortMatched(w: string, n: nat)
    requires n <= Span(w, ReWord)
    ensures TryFrom(OF_PORT, w, n) == OfPortMeaning(w, n)
  {
    assert OF_PORT[1..] == COLON && OF_PORT[0].Least() == 1;
    if n >= 1 {
      KindMatched(w[n..]);
      OfPortMatched(w, n - 1);
    }
  }

  lemma {:induction false} NumberMatched(u: string)
    ensures Backtrack(NUMBER, u) == NumberMeaning(u)
  {
    GreedyStep(Plus(Digit), SLASH, u);
    var v := TrimLeft(u, Digit);
    OneStep(One(Only('/')), OF_PORT, v);
    if v != "" && v[0] == '/' {
      OfPortMatched(v[1..], Span(v[1..], ReWord));
      assert v[..1] == "/";
    }
  }

  /** The meaning above is what leftmost-first backtracking returns, on every line. */
  lemma {:induction false} PortRegexMeaning(line: string)
    ensures Backtrack(PORT_LINE, line) == Meaning(line)
  {
    GreedyStep(Plus(ReWord), SPACE, line);
    var t := TrimLeft(line, ReWord);
    GreedyStep(Plus(ReSpace), NUMBER, t);
    NumberMatched(TrimLeft(t, ReSpace));
  }

  // ------------------------------------------------------------------ which lines are ports

  /** The texts of a port line: name, space, number, slash, OpenFlow port, colon, optional space,
      parenthesis and type. */
  ghost predicate PortForm(line: string, m: Match) {
    && |m| == 9 && Flat(m) <= line
    && IsReWord(m[0]) && m[1] != "" && ReSpace.All(m[1])
    && AllDigits(m[2]) && m[3] == "/" && IsReWord(m[4]) && m[5] == ":" && ReSpace.All(m[6])
    && m[7] == "(" && m[8] != "" && IsTypeText(m[8])
  }

  /** Of all the ways in which a line can be one, the one whose texts are longest, the first text first. */
  ghost predicate PortReading(line: string, m: Match) {
    PortForm(line, m) && forall other :: PortForm(line, other) ==> Prefers(m, other)
  }

  lemma PortPieces()
    ensures |PORT_LINE| == 9
    ensures PORT_LINE[0] == Plus(ReWord) && PORT_LINE[1] == Plus(ReSpace) && PORT_LINE[2] == Plus(Digit)
    ensures PORT_LINE[3] == One(Only('/')) && PORT_LINE[4] == Plus(ReWord) && PORT_LINE[5] == One(Only(':'))
    ensures PORT_LINE[6] == Star(ReSpace) && PORT_LINE[7] == One(Only('(')) && PORT_LINE[8] == Plus(TypeChar)
  {
  }

  lemma OneAccepts(c: char, w: string)
    ensures One(Only(c)).Accepts(w) <==> w == [c]
  {
  }

  lemma TypeAccepts(w: string)
    ensures Plus(TypeChar).Accepts(w) <==> w != "" && IsTypeText(w)
  {
  }

  lemma AcceptedPort(m: Match)
    requires |m| == 9
    ensures AcceptsAll(PORT_LINE, m) <==>
      && IsReWord(m[0]) && m[1] != "" && ReSpace.All(m[1])
      && AllDigits(m[2]) && m[3] == "/" && IsReWord(m[4]) && m[5] == ":" && ReSpace.All(m[6])
      && m[7] == "(" && m[8] != "" && IsTypeText(m[8])
  {
    PortPieces();
    OneAccepts('/', m[3]);
    OneAccepts(':', m[5]);
    OneAccepts('(', m[7]);
    TypeAccepts(m[8]);
  }

  lemma PortFormMatches(line: string, m: Match)
    ensures Matches(PORT_LINE, line, m) <==> PortForm(line, m)
  {
    PortPieces();
    MatchesMeaning(PORT_LINE, line, m);
    if |m| == 9 {
      AcceptedPort(m);
    }
  }

  lemma ReadingIsMatch(line: string, m: Match)
    ensures Backtrack(PORT_LINE, line) == Some(m) <==> PortReading(line, m)
  {
    BacktrackIsLeftmostFirst(PORT_LINE, line);
    forall other ensures Matches(PORT_LINE, line, other) <==> PortForm(line, other) {
      PortFormMatches(line, other);
    }
    if PortReading(line, m) {
      PrefersIsAntisymmetric(Backtrack(PORT_LINE, line).value, m);
    }
  }

  /** The fields of a port are the texts of the reading; its number is an int64. */
  ghost predicate PortFields(line: string, m: Match, p: Port) {
    && PortReading(line, m)
    && p.name == m[0] && ParseInt(m[2]) == Some(p.portNo) && p.ofPortNo == m[4] && p.kind == TrimSpace(m[8])
  }

  /** Which lines are ports, and of which fields. */
  lemma PortLineMeaning(line: string, p: Port)
    ensures ParsePortLine(line) == Some(p) <==> exists m :: PortFields(line, m, p)
  {
    if ParsePortLine(line) == Some(p) {
      ReadingIsMatch(line, Backtrack(PORT_LINE, line).value);
      assert PortFields(line, Backtrack(PORT_LINE, line).value, p);
    }
    if m :| PortFields(line, m, p) {
      ReadingIsMatch(line, m);
    }
  }

  // ------------------------------------------------------------------ what a match contains

  predicate IsReWord(s: string) {
    s != "" && ReWord.All(s)
  }

  predicate IsTypeText(s: string) {
    ':' !in s && ')' !in s
  }

  lemma OfPortPieces(w: string, n: nat)
    requires n <= Span(w, ReWord) && OfPortMeaning(w, n).Some?
    ensures var m := OfPortMeaning(w, n).value;
            |m| == 5 && IsReWord(m[0]) && IsTypeText(m[4]) && forall ch :: ch in m[4] ==> ch in w
  {
    var len := LongestOfPort(w, n).value;
    var v := TrimLeft(w[len..][1..], ReSpace)[1..];
    var kind := v[..Span(v, TypeChar)];
    assert kind == KindMatch(w[len..])[3];
    assert forall i :: 0 <= i < |kind| ==> TypeChar.Has(kind[i]) && kind[i] in w;
  }

  lemma {:induction false} NumberPieces(u: string)
    requires NumberMeaning(u).Some?
    ensures var m := NumberMeaning(u).value;
            && |m| == 7 && AllDigits(m[0]) && IsReWord(m[2]) && IsTypeText(m[6])
            && forall ch :: ch in m[6] ==> ch in u
  {
    var w := TrimLeft(u, Digit)[1..];
    OfPortPieces(w, Span(w, ReWord));
    var rest := OfPortMeaning(w, Span(w, ReWord)).value;
    assert NumberMeaning(u).value == [u[..Span(u, Digit)]] + (["/"] + rest);
    assert forall ch :: ch in w ==> ch in u;
  }

  lemma {:induction false} GapPieces(t: string)
    requires GapMeaning(t).Some?
    ensures var m := GapMeaning(t).value;
            && |m| == 8 && AllDigits(m[1]) && IsReWord(m[3]) && IsTypeText(m[7])
            && forall ch :: ch in m[7] ==> ch in t
  {
    var u := TrimLeft(t, ReSpace);
    NumberPieces(u);
    assert GapMeaning(t).value == [t[..Span(t, ReSpace)]] + NumberMeaning(u).value;
    assert forall ch :: ch in u ==> ch in t;
  }

  /** The pieces that the fields of a port come from. */
  lemma {:induction false} MeaningPieces(line: string) returns (m: Match)
    requires Meaning(line).Some?
    ensures Meaning(line) == Some(m) && |m| == 9
    ensures IsReWord(m[0]) && AllDigits(m[2]) && IsReWord(m[4]) && IsTypeText(m[8])
    ensures forall ch :: ch in m[8] ==> ch in line
  {
    var name, t := line[..Span(line, ReWord)], TrimLeft(line, ReWord);
    GapPieces(t);
    m := Prepend(name, GapMeaning(t).value);
    assert forall ch :: ch in t ==> ch in line;
  }

  lemma Prepend(name: string, rest: Match) returns (m: Match)
    requires IsReWord(name) && |rest| == 8
    requires AllDigits(rest[1]) && IsReWord(rest[3]) && IsTypeText(rest[7])
    ensures m == [name] + rest
    ensures IsReWord(m[0]) && AllDigits(m[2]) && IsReWord(m[4]) && IsTypeText(m[8]) && m[8] == rest[7]
  {
    m := [name] + rest;
  }

  // ------------------------------------------------------------------ printing

  predicate PortOk(p: Port) {
    && IsReWord(p.name) && IsReWord(p.ofPortNo)
    && 0 <= p.portNo <= MAX_INT64
    && Trimmed(p.kind) && IsTypeText(p.kind) && '\n' !in p.kind
  }

  /** A blank type is shown as one space: the pattern wants at least one type character. */
  function ShownKind(kind: string): string {
    if kind == "" then " " else kind
  }

  function PrintPort(p: Port): string {
    p.name + (" " + (FormatInt(p.portNo) + ("/" + (p.ofPortNo + (": (" + (ShownKind(p.kind) + ")"))))))
  }

  lemma {:induction false} KindPrinted(kind: string)
    requires kind != "" && IsTypeText(kind)
    ensures var u := ": (" + (kind + ")");
            KindFollows(u) && KindMatch(u) == [":", " ", "(", kind]
  {
    var u := ": (" + (kind + ")");
    var v := "(" + (kind + ")");
    assert u[1..] == " " + v;
    SpanStops(" ", v, ReSpace);
    assert TypeChar.All(kind);
    SpanStops(kind, ")", TypeChar);
    assert v[1..] == kind + ")";
    assert TrimLeft(u[1..], ReSpace) == v;
  }

  lemma {:induction false} OfPortPrinted(of: string, kind: string)
    requires IsReWord(of) && kind != "" && IsTypeText(kind)
    ensures var w := of + (": (" + (kind + ")"));
            OfPortMeaning(w, Span(w, ReWord)) == Some([of] + [":", " ", "(", kind])
  {
    var u := ": (" + (kind + ")");
    var w := of + u;
    SpanStops(":", u[1..], ReWord);
    assert ":" + u[1..] == u;
    SpanOver(of, u, ReWord);
    var n := Span(w, ReWord);
    assert n == |of| + 1;
    assert w[n..] == u[1..] && u[1] == ' ';
    assert !KindFollows(w[n..]);
    assert w[..|of|] == of && w[|of|..] == u;
    KindPrinted(kind);
    assert LongestOfPort(w, n) == LongestOfPort(w, n - 1) == Some(|of|);
  }

  lemma {:induction false} NumberPrinted(digits: string, w: string)
    requires AllDigits(digits)
    ensures NumberMeaning(digits + ("/" + w)) == Then(digits, Then("/", OfPortMeaning(w, Span(w, ReWord))))
  {
    var v := "/" + w;
    SpanStops(digits, v, Digit);
    assert (digits + v)[..|digits|] == digits && (digits + v)[|digits|..] == v;
    assert v[1..] == w;
  }

  lemma {:induction false} NamePrinted(name: string, u: string)
    requires IsReWord(name) && u != "" && !IsReSpace(u[0])
    ensures Meaning(name + (" " + u)) == Then(name, Then(" ", NumberMeaning(u)))
  {
    var t := " " + u;
    SpanStops(name, t, ReWord);
    assert (name + t)[..|name|] == name && (name + t)[|name|..] == t;
    SpanStops(" ", u, ReSpace);
    assert t[..1] == " " && t[1..] == u;
  }

  lemma {:induction false} Pieces(a: string, b: string, c: string, d: string, m: Match)
    requires |m| == 5
    ensures var r := Then(a, Then(b, Then(c, Then(d, Some(m)))));
            r.Some? && |r.value| == 9 && r.value[0] == a && r.value[2] == c && r.value[4] == m[0] && r.value[8] == m[4]
  {
  }

  lemma {:induction false} MatchPrinted(p: Port) returns (m: Match)
    requires PortOk(p)
    ensures Meaning(PrintPort(p)) == Some(m) && |m| == 9
    ensures m[0] == p.name && m[2] == FormatInt(p.portNo) && m[4] == p.ofPortNo && m[8] == ShownKind(p.kind)
  {
    var kind, digits := ShownKind(p.kind), FormatInt(p.portNo);
    var w := p.ofPortNo + (": (" + (kind + ")"));
    var u := digits + ("/" + w);
    FormatChars(p.portNo);
    assert Digit.Has(digits[0]);
    NamePrinted(p.name, u);
    NumberPrinted(digits, w);
    OfPortPrinted(p.ofPortNo, kind);
    var tail := [p.ofPortNo] + [":", " ", "(", kind];
    Pieces(p.name, " ", digits, "/", tail);
    assert Meaning(p.name + (" " + u)) == Then(p.name, Then(" ", Then(digits, Then("/", Some(tail)))));
    m := Meaning(PrintPort(p)).value;
  }

  /** A printed port reads back. */
  lemma {:induction false} PortPrinted(p: Port)
    requires PortOk(p)
    ensures ParsePortLine(PrintPort(p)) == Some(p)
  {
    var m := MatchPrinted(p);
    PortRegexMeaning(PrintPort(p));
    ParseFormat(p.portNo);
    KindRestored(p.kind);
  }

  lemma KindRestored(kind: string)
    requires Trimmed(kind)
    ensures TrimSpace(ShownKind(kind)) == kind
  {
    if kind == "" {
      assert TrimSpace(" ") == "";
    } else {
      TrimSpaceKeeps(kind);
    }
  }
}
