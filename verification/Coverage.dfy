/** coverage/show: one event per line, its cumulative total after the last `total:`. */
module Coverage {
  import opened Wrappers
  import opened Text
  import opened Decimal
  import opened Sequences
  import opened Entries
  import opened Blocks

  /** The event and the total of a row; None for every other line. */
  function Row(line: string): Option<(string, int)> {
    var idx := LastIndex(line, "total:");
    if idx < 0 then None
    else
      var head := Fields(line[..idx]);
      if head == [] then None
      else
        match ParseInt(TrimSpace(line[idx + 6..]))
        case None => None
        case Some(n) => Some((head[0], n))
  }

  function AddRow(events: map<string, int>, line: string): map<string, int> {
    match Row(line)
    case None => events
    case Some(e) => events[e.0 := e.1]
  }

  function Events(lines: seq<string>): map<string, int> {
    if lines == [] then map[] else AddRow(Events(Front(lines)), Last(lines))
  }

  function ParseText(text: string): map<string, int> {
    Events(Split(text, '\n'))
  }

  lemma EventsNext(lines: seq<string>, i: nat)
    requires i < |lines|
    ensures Events(lines[..i + 1]) ==
            match Row(lines[i])
            case None => Events(lines[..i])
            case Some(e) => Events(lines[..i])[e.0 := e.1]
  {
    assert lines[..i + 1] == lines[..i] + [lines[i]];
  }

  method ParseCoverage(text: string) returns (events: map<string, int>)
    ensures events == ParseText(text)
  {
    events := map[];
    var lines := Split(text, '\n');
    for i := 0 to |lines|
      invariant events == Events(lines[..i])
    {
      var line := lines[i];
      EventsNext(lines, i);
      var idx := LastIndex(line, "total:");
      if idx < 0 {
        continue;
      }
      var head := Fields(line[..idx]);
      if |head| == 0 {
        continue;
      }
      var n := ParseInt(TrimSpace(line[idx + 6..]));
      if n == None {
        continue;
      }
      events := events[head[0] := n.value];
    }
    assert lines[..|lines|] == lines;
  }

  // ------------------------------------------------------------------ which lines are rows

  /** White space, the name, other fields, the last `total:` of the line and a number. */
  ghost predicate RowParts(line: string, pad: string, name: string, mid: string, tail: string, n: int) {
    && line == pad + (name + (mid + ("total:" + tail)))
    && UniSpace.All(pad) && IsWord(name) && (mid == "" || IsUniSpace(mid[0]))
    && (forall d :: 0 < d <= |"total:" + tail| ==> !("total:" <= ("total:" + tail)[d..]))
    && ParseInt(TrimSpace(tail)) == Some(n)
  }

  /** The line is a row of the event: its first field is the name, and the number behind its last
      `total:` is the total. */
  ghost predicate RowForm(line: string, name: string, n: int) {
    exists pad, mid, tail :: RowParts(line, pad, name, mid, tail, n)
  }

  lemma LastIndexAt(pre: string, tag: string, tail: string)
    requires forall d :: 0 < d <= |tag + tail| ==> !(tag <= (tag + tail)[d..])
    ensures LastIndex(pre + (tag + tail), tag) == |pre|
  {
    var line := pre + (tag + tail);
    assert line[|pre|..] == tag + tail && tag <= tag + tail;
    forall j | |pre| < j <= |line| ensures !(tag <= line[j..]) {
      assert line[j..] == (tag + tail)[j - |pre|..];
    }
  }

  lemma FirstField(pad: string, name: string, mid: string)
    requires UniSpace.All(pad) && IsWord(name) && (mid == "" || IsUniSpace(mid[0]))
    ensures Fields(pad + (name + mid)) == [name] + Fields(mid)
  {
    FieldsSkipSpace(pad, name + mid);
    FieldsWord(name, mid);
  }

  lemma BeforeTotal(pad: string, name: string, mid: string, end: string)
    ensures pad + (name + (mid + end)) == (pad + (name + mid)) + end
  {
  }

  lemma RowAt(line: string, idx: nat, name: string, more: seq<string>, rest: string)
    requires LastIndex(line, "total:") == idx && idx + 6 <= |line|
    requires Fields(line[..idx]) == [name] + more && line[idx + 6..] == rest
    ensures Row(line) == if ParseInt(TrimSpace(rest)).Some? then Some((name, ParseInt(TrimSpace(rest)).value)) else None
  {
  }

  lemma RowOfParts(line: string, pad: string, name: string, mid: string, tail: string, n: int)
    requires RowParts(line, pad, name, mid, tail, n)
    ensures Row(line) == Some((name, n))
  {
    var pre := pad + (name + mid);
    BeforeTotal(pad, name, mid, "total:" + tail);
    LastIndexAt(pre, "total:", tail);
    FirstField(pad, name, mid);
    RowBehind(pre, name, Fields(mid), tail);
  }

  lemma Slices(pre: string, tag: string, rest: string)
    ensures (pre + (tag + rest))[..|pre|] == pre && (pre + (tag + rest))[|pre| + |tag|..] == rest
  {
  }

  /** The white space before the first field, and what follows that field. */
  lemma {:induction false} FirstFieldParts(s: string) returns (pad: string, mid: string)
    requires Fields(s) != []
    ensures s == pad + (Fields(s)[0] + mid)
    ensures UniSpace.All(pad) && IsWord(Fields(s)[0]) && (mid == "" || IsUniSpace(mid[0]))
  {
    FieldsAreWords(s);
    var name := Fields(s)[0];
    pad := s[..Span(s, UniSpace)];
    var t := TrimLeft(s, UniSpace);
    TrimLeftMeaning(s, UniSpace);
    mid := t[Span(t, UniWord)..];
    assert name == t[..Span(t, UniWord)];
    assert t == name + mid;
  }

  lemma CutAtLast(line: string, tag: string) returns (pre: string, tail: string)
    requires LastIndex(line, tag) >= 0
    ensures line == pre + (tag + tail) && |pre| == LastIndex(line, tag)
    ensures forall d :: 0 < d <= |tag + tail| ==> !(tag <= (tag + tail)[d..])
  {
    var idx := LastIndex(line, tag);
    pre, tail := line[..idx], line[idx + |tag|..];
    assert line[idx..] == tag + tail;
    forall d | 0 < d <= |tag + tail| ensures !(tag <= (tag + tail)[d..]) {
      assert (tag + tail)[d..] == line[idx + d..];
    }
  }

  lemma RowOut(line: string, idx: nat)
    requires Row(line).Some? && LastIndex(line, "total:") == idx && idx + 6 <= |line|
    ensures Fields(line[..idx]) != [] && Row(line).value.0 == Fields(line[..idx])[0]
    ensures ParseInt(TrimSpace(line[idx + 6..])) == Some(Row(line).value.1)
  {
  }

  lemma RowHasTotal(line: string)
    requires Row(line).Some?
    ensures LastIndex(line, "total:") >= 0
  {
  }

  lemma RowSplit(line: string, pre: string, tail: string)
    requires Row(line).Some? && line == pre + ("total:" + tail) && |pre| == LastIndex(line, "total:")
    ensures Fields(pre) != [] && Row(line).value.0 == Fields(pre)[0]
    ensures ParseInt(TrimSpace(tail)) == Some(Row(line).value.1)
  {
    Slices(pre, "total:", tail);
    RowOut(line, |pre|);
  }

  lemma PartsOfRow(line: string)
    requires Row(line).Some?
    ensures RowForm(line, Row(line).value.0, Row(line).value.1)
  {
    RowHasTotal(line);
    var pre, tail := CutAtLast(line, "total:");
    RowSplit(line, pre, tail);
    var pad, mid := FirstFieldParts(pre);
    JoinParts(line, pad, Row(line).value.0, mid, tail, Row(line).value.1, pre);
  }

  lemma JoinParts(line: string, pad: string, name: string, mid: string, tail: string, n: int, pre: string)
    requires line == pre + ("total:" + tail) && pre == pad + (name + mid)
    requires UniSpace.All(pad) && IsWord(name) && (mid == "" || IsUniSpace(mid[0]))
    requires forall d :: 0 < d <= |"total:" + tail| ==> !("total:" <= ("total:" + tail)[d..])
    requires ParseInt(TrimSpace(tail)) == Some(n)
    ensures RowForm(line, name, n)
  {
    BeforeTotal(pad, name, mid, "total:" + tail);
    assert RowParts(line, pad, name, mid, tail, n);
  }

  /** The rows are exactly these lines, with exactly these names and totals. */
  lemma RowMeaning(line: string, name: string, n: int)
    ensures Row(line) == Some((name, n)) <==> RowForm(line, name, n)
  {
    if Row(line) == Some((name, n)) {
      PartsOfRow(line);
    }
    if pad, mid, tail :| RowParts(line, pad, name, mid, tail, n) {
      RowOfParts(line, pad, name, mid, tail, n);
    }
  }

  /** A row sets the total of its event and nothing else, and any other line changes nothing. */
  lemma OneLineChanges(lines: seq<string>, line: string)
    ensures forall name, n :: RowForm(line, name, n) ==> Events(lines + [line]) == Events(lines)[name := n]
    ensures (forall name, n :: !RowForm(line, name, n)) ==> Events(lines + [line]) == Events(lines)
  {
    Snoc(lines, line);
    forall name, n | RowForm(line, name, n) ensures Events(lines + [line]) == Events(lines)[name := n] {
      RowMeaning(line, name, n);
    }
    if Row(line).Some? {
      PartsOfRow(line);
    }
  }

  // ------------------------------------------------------------------ what the map says

  ghost predicate RowOf(line: string, name: string) {
    exists n :: RowForm(line, name, n)
  }

  lemma RowOfMeaning(line: string, name: string)
    ensures RowOf(line, name) <==> Row(line).Some? && Row(line).value.0 == name
  {
    if n :| RowForm(line, name, n) {
      RowMeaning(line, name, n);
    }
    if Row(line).Some? && Row(line).value.0 == name {
      RowMeaning(line, name, Row(line).value.1);
    }
  }

  /** Line i is a row of the event and no later line is. */
  ghost predicate LastRowOf(lines: seq<string>, i: nat, name: string) {
    i < |lines| && RowOf(lines[i], name) && forall j :: i < j < |lines| ==> !RowOf(lines[j], name)
  }

  /** The map shows an event exactly if some line is a row of it, with the total of the last one. */
  lemma {:induction false} LastRowWins(lines: seq<string>, name: string)
    ensures name in Events(lines) <==> exists i: nat :: LastRowOf(lines, i, name)
    ensures forall i: nat :: LastRowOf(lines, i, name) ==> RowForm(lines[i], name, Events(lines)[name])
  {
    if lines != [] {
      var front, last := Front(lines), Last(lines);
      FrontLast(lines);
      RowOfMeaning(last, name);
      if RowOf(last, name) {
        assert LastRowOf(lines, |front|, name);
        RowMeaning(last, name, Events(lines)[name]);
        forall i: nat | LastRowOf(lines, i, name) ensures lines[i] == last {}
      } else {
        LastRowWins(front, name);
        LastRowKept(front, last, name);
        assert name in Events(lines) <==> name in Events(front);
      }
    }
  }

  lemma LastRowKept(front: seq<string>, last: string, name: string)
    requires !RowOf(last, name)
    ensures forall i: nat :: LastRowOf(front + [last], i, name) <==> LastRowOf(front, i, name)
    ensures forall i: nat :: LastRowOf(front, i, name) ==> (front + [last])[i] == front[i]
  {
    var lines := front + [last];
    forall i: nat ensures LastRowOf(lines, i, name) <==> LastRowOf(front, i, name) {
      assert forall j :: 0 <= j < |front| ==> lines[j] == front[j];
      if LastRowOf(front, i, name) {
        assert forall j :: i < j < |lines| ==> !RowOf(lines[j], name);
      }
      if LastRowOf(lines, i, name) {
        assert lines[i] != last;
        assert forall j :: i < j < |front| ==> !RowOf(front[j], name) by {
          assert forall j :: i < j < |front| ==> front[j] == lines[j];
        }
      }
    }
  }

  /** Rows of one event agree; in particular this holds when the rows have distinct names. */
  ghost predicate Consistent(lines: seq<string>) {
    forall l, l', name, n, n' :: l in lines && l' in lines && RowForm(l, name, n) && RowForm(l', name, n') ==> n == n'
  }

  lemma {:induction false} RowIsShown(lines: seq<string>, l: string)
    requires l in lines && Row(l).Some?
    ensures Row(l).value.0 in Events(lines)
  {
    FrontLast(lines);
    if l != Last(lines) {
      RowIsShown(Front(lines), l);
    }
  }

  lemma EventHasRow(lines: seq<string>, k: string)
    requires k in Events(lines)
    ensures exists l :: l in lines && RowForm(l, k, Events(lines)[k])
  {
    LastRowWins(lines, k);
    var i: nat :| LastRowOf(lines, i, k);
    assert lines[i] in lines;
  }

  /** Consistent rows decide the map through the set of lines alone. */
  lemma EventsWithin(lines: seq<string>, lines': seq<string>)
    requires Consistent(lines') && forall l :: l in lines ==> l in lines'
    ensures forall k :: k in Events(lines) ==> k in Events(lines') && Events(lines')[k] == Events(lines)[k]
  {
    forall k | k in Events(lines) ensures k in Events(lines') && Events(lines')[k] == Events(lines)[k] {
      EventHasRow(lines, k);
      var l :| l in lines && RowForm(l, k, Events(lines)[k]);
      RowMeaning(l, k, Events(lines)[k]);
      RowIsShown(lines', l);
      EventHasRow(lines', k);
      var l' :| l' in lines' && RowForm(l', k, Events(lines')[k]);
    }
  }

  /** Permuting the lines of such a text leaves its parse unchanged. */
  lemma PermutationInvariant(text: string, text': string)
    requires multiset(Split(text, '\n')) == multiset(Split(text', '\n')) && Consistent(Split(text, '\n'))
    ensures ParseText(text) == ParseText(text')
  {
    var lines, lines' := Split(text, '\n'), Split(text', '\n');
    forall l ensures l in lines <==> l in lines' {
      assert l in lines <==> l in multiset(lines);
      assert l in lines' <==> l in multiset(lines');
    }
    EventsWithin(lines, lines');
    EventsWithin(lines', lines);
  }

  // ------------------------------------------------------------------ printing

  predicate EventOk(e: (string, int)) {
    IsWord(e.0) && InInt64(e.1)
  }

  predicate EventsOk(m: map<string, int>) {
    forall k :: k in m ==> EventOk((k, m[k]))
  }

  function EventLine(e: (string, int)): string {
    (e.0 + " ") + ("total:" + (" " + FormatInt(e.1)))
  }

  function EventLines(es: seq<(string, int)>): seq<string> {
    if es == [] then [] else EventLines(Front(es)) + [EventLine(Last(es))]
  }

  function PrintText(es: seq<(string, int)>): string {
    Unlines(EventLines(es))
  }

  /** The printed `total:` is the last one, whatever the name contains. */
  lemma {:induction false} LastTotal(pre: string, n: int)
    ensures LastIndex(pre + ("total:" + (" " + FormatInt(n))), "total:") == |pre|
  {
    var tail := "total:" + (" " + FormatInt(n));
    var line := pre + tail;
    assert line[|pre|..] == tail && "total:" <= tail;
    forall j | |pre| < j <= |line| ensures !("total:" <= line[j..]) {
      assert line[j..] == tail[j - |pre|..];
      NotAgain(n, j - |pre|);
    }
  }

  lemma TagChars()
    ensures "total:"[0] == 't' && "total:"[1] == 'o' && "total:"[2] == 't' && "total:"[3] == 'a'
    ensures "total:"[4] == 'l' && "total:"[5] == ':' && |"total:"| == 6
  {
  }

  /** The letter t, when it is followed by the letter o, is only at the start of the tag. */
  lemma OnlyAtStart(tag: string, rest: string, d: nat)
    requires |tag| == 6 && tag[1] == 'o' && tag[2] == 't' && tag[3] == 'a' && tag[4] == 'l' && tag[5] == ':'
    requires 't' !in rest && 0 < d && d + 1 < |tag + rest|
    ensures (tag + rest)[d] != 't' || (tag + rest)[d + 1] != 'o'
  {
    if d >= 6 {
      assert (tag + rest)[d] == rest[d - 6];
    } else if d < 5 {
      assert (tag + rest)[d] == tag[d] && (tag + rest)[d + 1] == tag[d + 1];
    }
  }

  lemma NotAgain(n: int, d: nat)
    requires 0 < d <= |"total:" + (" " + FormatInt(n))|
    ensures !("total:" <= ("total:" + (" " + FormatInt(n)))[d..])
  {
    var rest := " " + FormatInt(n);
    var tail := "total:" + rest;
    FormatChars(n);
    TagChars();
    if d + 1 < |tail| {
      OnlyAtStart("total:", rest, d);
      StartsWith("total:", tail[d..]);
    }
  }

  lemma StartsWith(tag: string, t: string)
    requires |tag| > 1
    ensures tag <= t ==> |t| > 1 && t[0] == tag[0] && t[1] == tag[1]
  {
  }

  lemma OneField(name: string)
    requires IsWord(name)
    ensures Fields(name + " ") == [name] + []
  {
    FieldsNext(name, "");
    assert name + " " == name + " " + "" && Fields("") == [];
  }

  lemma AfterOneSpace(s: string)
    requires Trimmed(s)
    ensures TrimSpace(" " + s) == s
  {
    StartsWithSpace(s);
    TrimSpacePadded(" ", s);
  }

  lemma TotalRead(n: int)
    ensures ParseInt(TrimSpace(" " + FormatInt(n))) == if InInt64(n) then Some(n) else None
  {
    FormatChars(n);
    AfterOneSpace(FormatInt(n));
    ParseFormat(n);
  }

  /** A row whose fields before the last `total:` are known. */
  lemma RowBehind(pre: string, name: string, more: seq<string>, rest: string)
    requires Fields(pre) == [name] + more && LastIndex(pre + ("total:" + rest), "total:") == |pre|
    ensures Row(pre + ("total:" + rest))
         == if ParseInt(TrimSpace(rest)).Some? then Some((name, ParseInt(TrimSpace(rest)).value)) else None
  {
    Slices(pre, "total:", rest);
    RowAt(pre + ("total:" + rest), |pre|, name, more, rest);
  }

  lemma RowPrinted(e: (string, int))
    requires IsWord(e.0)
    ensures Row(EventLine(e)) == if InInt64(e.1) then Some(e) else None
  {
    LastTotal(e.0 + " ", e.1);
    OneField(e.0);
    RowBehind(e.0 + " ", e.0, [], " " + FormatInt(e.1));
    TotalRead(e.1);
  }

  lemma EventLineIsOne(e: (string, int))
    requires IsWord(e.0)
    ensures OneLine(EventLine(e))
  {
    FormatChars(e.1);
  }

  lemma {:induction false} EventsPrinted(es: seq<(string, int)>)
    requires forall i :: 0 <= i < |es| ==> EventOk(es[i])
    ensures Events(EventLines(es)) == MapOf(es)
    ensures forall i :: 0 <= i < |EventLines(es)| ==> OneLine(EventLines(es)[i])
  {
    if es != [] {
      EventsPrinted(Front(es));
      RowPrinted(Last(es));
      EventLineIsOne(Last(es));
      Snoc(EventLines(Front(es)), EventLine(Last(es)));
    }
  }

  lemma ParsePrint(es: seq<(string, int)>)
    requires forall i :: 0 <= i < |es| ==> EventOk(es[i])
    ensures ParseText(PrintText(es)) == MapOf(es)
  {
    EventsPrinted(es);
    SplitUnlines(EventLines(es));
    Snoc(EventLines(es), "");
    assert Row("") == None;
  }

  lemma RowOk(line: string)
    requires Row(line).Some?
    ensures EventOk(Row(line).value)
  {
    FieldsAreWords(line[..LastIndex(line, "total:")]);
  }

  lemma {:induction false} EventsAreOk(lines: seq<string>)
    ensures EventsOk(Events(lines))
  {
    if lines != [] {
      EventsAreOk(Front(lines));
      if Row(Last(lines)).Some? {
        RowOk(Last(lines));
      }
    }
  }

  /** A printed map, in whatever order, is recovered exactly when every name is a single word and
      every total an int64; a name may well contain `total:`. */
  lemma {:induction false} RecoveredExactlyWhen(es: seq<(string, int)>)
    requires DistinctKeys(es)
    ensures ParseText(PrintText(es)) == MapOf(es) <==> forall i :: 0 <= i < |es| ==> EventOk(es[i])
  {
    if forall i :: 0 <= i < |es| ==> EventOk(es[i]) {
      ParsePrint(es);
    }
    if ParseText(PrintText(es)) == MapOf(es) {
      EventsAreOk(Split(PrintText(es), '\n'));
      forall i | 0 <= i < |es| ensures EventOk(es[i]) {
        MapOfFinds(es, i);
      }
    }
  }

  /** The results of ParseCoverage are exactly the maps of single words to int64. */
  lemma ResultsCharacterised(m: map<string, int>)
    ensures (exists text :: ParseText(text) == m) <==> EventsOk(m)
  {
    if EventsOk(m) {
      var es := Enumerate(m);
      ParsePrint(es);
      assert ParseText(PrintText(es)) == m;
    }
    if text :| ParseText(text) == m {
      EventsAreOk(Split(text, '\n'));
    }
  }
}
