/** The shape that dpif/show, dpctl/show and upcall/show share: header lines open a datapath
    block, the lines that follow edit the open block, and the result maps each block's name to
    the last block of that name. */
module Blocks {
  import opened Wrappers
  import opened Text

  datatype Line<+D> = Skip | Header(block: D) | Body

  /** A block format.  `classify` reads one line, `body` applies a body line to the open block
      and `seal` is the value that the result shows for a block. */
  datatype Grammar<!D, !V> = Grammar(
    classify: string -> Line<D>,
    body: (D, string) -> D,
    key: D -> string,
    seal: D -> V)

  /** The blocks closed so far, by name, and the open one. */
  datatype State<V, D> = State(done: map<string, V>, cur: Option<D>)

  function Start<V, D>(): State<V, D> {
    State(map[], None)
  }

  function Result<D, V>(g: Grammar<D, V>, st: State<V, D>): map<string, V> {
    match st.cur
    case None => st.done
    case Some(d) => st.done[g.key(d) := g.seal(d)]
  }

  function Step<D, V>(g: Grammar<D, V>, st: State<V, D>, line: string): State<V, D> {
    match g.classify(line)
    case Skip => st
    case Header(d) => State(Result(g, st), Some(d))
    case Body =>
      match st.cur
      case None => st
      case Some(d) => State(st.done, Some(g.body(d, line)))
  }

  function Run<D, V>(g: Grammar<D, V>, st: State<V, D>, lines: seq<string>): State<V, D> {
    if lines == [] then st
    else Step(g, Run(g, st, lines[..|lines| - 1]), lines[|lines| - 1])
  }

  function Parse<D, V>(g: Grammar<D, V>, text: string): map<string, V> {
    Result(g, Run(g, Start(), Split(text, '\n')))
  }

  lemma {:induction false} RunNext<D, V>(g: Grammar<D, V>, st: State<V, D>, lines: seq<string>, i: nat)
    requires i < |lines|
    ensures Run(g, st, lines[..i + 1]) == Step(g, Run(g, st, lines[..i]), lines[i])
  {
    assert lines[..i + 1][..i] == lines[..i];
  }

  lemma {:induction false} RunSnoc<D, V>(g: Grammar<D, V>, st: State<V, D>, lines: seq<string>, line: string)
    ensures Run(g, st, lines + [line]) == Step(g, Run(g, st, lines), line)
  {
    assert (lines + [line])[..|lines|] == lines;
  }

  lemma {:induction false} RunAppend<D, V>(g: Grammar<D, V>, st: State<V, D>, a: seq<string>, b: seq<string>)
    ensures Run(g, st, a + b) == Run(g, Run(g, st, a), b)
  {
    if b == [] {
      assert a + b == a;
    } else {
      assert (a + b)[..|a + b| - 1] == a + b[..|b| - 1];
      RunAppend(g, st, a, b[..|b| - 1]);
    }
  }

  // ------------------------------------------------------------------ block composition

  /** Blocks closed earlier are never looked at again: they only lie under the later ones. */
  lemma {:induction false} EarlierBlocksUntouched<D, V>(
    g: Grammar<D, V>, done: map<string, V>, cur: Option<D>, lines: seq<string>)
    ensures Run(g, State(done, cur), lines).cur == Run(g, State(map[], cur), lines).cur
    ensures Run(g, State(done, cur), lines).done == done + Run(g, State(map[], cur), lines).done
    ensures Result(g, Run(g, State(done, cur), lines)) == done + Result(g, Run(g, State(map[], cur), lines))
  {
    if lines != [] {
      EarlierBlocksUntouched(g, done, cur, lines[..|lines| - 1]);
    }
  }

  /** If the first line of B is a recognised header, parsing A and then B gives the result of A
      overridden, name by name, by the result of B. */
  lemma {:induction false} Compose<D, V>(g: Grammar<D, V>, a: string, b: string)
    requires g.classify(Split(b, '\n')[0]).Header?
    ensures Parse(g, a + "\n" + b) == Parse(g, a) + Parse(g, b)
  {
    var la, lb := Split(a, '\n'), Split(b, '\n');
    SplitAround(a, '\n', b);
    RunAppend(g, Start(), la, lb);
    var st := Run(g, Start(), la);
    var first, rest := lb[..1], lb[1..];
    assert lb == first + rest;
    assert first[..0] == [];
    RunAppend(g, st, first, rest);
    RunAppend(g, Start(), first, rest);
    var d := g.classify(lb[0]).block;
    assert Run(g, st, first) == Step(g, Run(g, st, first[..0]), lb[0]) == State(Result(g, st), Some(d));
    assert Run(g, Start(), first) == Step(g, Run(g, Start(), first[..0]), lb[0]) == State(map[], Some(d));
    EarlierBlocksUntouched(g, Result(g, st), Some(d), rest);
    assert Parse(g, a + "\n" + b) == Result(g, Run(g, st, lb));
  }

  // ------------------------------------------------------------------ noise

  /** A line that changes no state. */
  ghost predicate Inert<D(!new), V>(g: Grammar<D, V>, line: string) {
    || g.classify(line).Skip?
    || (g.classify(line).Body? && forall d :: g.body(d, line) == d)
  }

  lemma InertStep<D(!new), V>(g: Grammar<D, V>, st: State<V, D>, line: string)
    requires Inert(g, line)
    ensures Step(g, st, line) == st
  {
  }

  /** The lines whose flag is set. */
  function Kept(lines: seq<string>, keep: seq<bool>): seq<string>
    requires |keep| == |lines|
  {
    if lines == [] then []
    else
      var n := |lines| - 1;
      Kept(lines[..n], keep[..n]) + (if keep[n] then [lines[n]] else [])
  }

  lemma {:induction false} InertLinesErase<D(!new), V>(
    g: Grammar<D, V>, st: State<V, D>, lines: seq<string>, keep: seq<bool>)
    requires |keep| == |lines|
    requires forall i :: 0 <= i < |lines| && !keep[i] ==> Inert(g, lines[i])
    ensures Run(g, st, Kept(lines, keep)) == Run(g, st, lines)
  {
    if lines != [] {
      var n := |lines| - 1;
      InertLinesErase(g, st, lines[..n], keep[..n]);
      if keep[n] {
        RunAppend(g, st, Kept(lines[..n], keep[..n]), [lines[n]]);
        assert [lines[n]][..0] == [];
      } else {
        assert Kept(lines, keep) == Kept(lines[..n], keep[..n]);
        InertStep(g, Run(g, st, lines[..n]), lines[n]);
      }
    }
  }

  /** Deleting inert lines from a text, at any positions, leaves its parse unchanged. */
  lemma {:induction false} EraseFromText<D(!new), V>(g: Grammar<D, V>, text: string, keep: seq<bool>)
    requires g.classify("").Skip?
    requires var lines := Split(text, '\n');
             |keep| == |lines| && forall i :: 0 <= i < |lines| && !keep[i] ==> Inert(g, lines[i])
    ensures Parse(g, Join(Kept(Split(text, '\n'), keep), "\n")) == Parse(g, text)
  {
    var lines := Split(text, '\n');
    InertLinesErase(g, Start(), lines, keep);
    KeptIsPart(lines, keep);
    ParseJoined(g, Kept(lines, keep));
  }

  lemma {:induction false} ParseJoined<D, V>(g: Grammar<D, V>, lines: seq<string>)
    requires g.classify("").Skip?
    requires forall i :: 0 <= i < |lines| ==> '\n' !in lines[i]
    ensures Parse(g, Join(lines, "\n")) == Result(g, Run(g, Start(), lines))
  {
    if lines == [] {
      SplitOne("", '\n');
      RunSnoc(g, Start(), [], "");
      assert [] + [""] == [""];
    } else {
      SplitJoin(lines, '\n');
    }
  }

  lemma {:induction false} KeptIsPart(lines: seq<string>, keep: seq<bool>)
    requires |keep| == |lines|
    ensures forall i :: 0 <= i < |Kept(lines, keep)| ==> Kept(lines, keep)[i] in lines
  {
    if lines != [] {
      KeptIsPart(lines[..|lines| - 1], keep[..|lines| - 1]);
    }
  }

  // ------------------------------------------------------------------ indentation and labels

  predicate Indented(line: string) {
    " " <= line || "\t" <= line
  }

  /** The text before the colon that ends a line, with the white space around the line removed. */
  function LabelOn(line: string): Option<string> {
    var trimmed := TrimSpace(line);
    if HasSuffix(trimmed, ":") then Some(TrimSuffix(trimmed, ":")) else None
  }

  lemma LabelOnMeaning(line: string, name: string)
    ensures LabelOn(line) == Some(name) <==> TrimSpace(line) == name + ":"
  {
    var trimmed := TrimSpace(line);
    if trimmed == name + ":" {
      TrimSuffixMeaning(name, ":");
    }
    if HasSuffix(trimmed, ":") {
      assert trimmed == trimmed[..|trimmed| - 1] + ":";
    }
  }

  predicate LabelOk(name: string) {
    '\n' !in name && (name != "" ==> !IsUniSpace(name[0]))
  }

  lemma LabelOnOk(line: string)
    requires OneLine(line) && LabelOn(line).Some?
    ensures LabelOk(LabelOn(line).value)
  {
    var front, back := TrimSpaceMeaning(line);
    var trimmed, name := TrimSpace(line), LabelOn(line).value;
    assert name <= trimmed;
    assert forall i :: 0 <= i < |name| ==> name[i] == trimmed[i] == line[|front| + i];
  }

  lemma LabelPrinted(pad: string, name: string)
    requires UniSpace.All(pad) && LabelOk(name)
    ensures LabelOn(pad + (name + ":")) == Some(name)
  {
    var t := name + ":";
    assert t[0] == if name == "" then ':' else name[0];
    TrimSpacePadded(pad, t);
    assert t[..|t| - 1] == name;
  }

  // ------------------------------------------------------------------ printing

  function Unlines(lines: seq<string>): string {
    if lines == [] then "" else lines[0] + "\n" + Unlines(lines[1..])
  }

  ghost predicate OneLine(s: string) {
    '\n' !in s
  }

  lemma {:induction false} SplitUnlines(lines: seq<string>)
    requires forall i :: 0 <= i < |lines| ==> OneLine(lines[i])
    ensures Split(Unlines(lines), '\n') == lines + [""]
  {
    if lines == [] {
      SplitOne("", '\n');
    } else {
      SplitFirst(lines[0], Unlines(lines[1..]));
      SplitUnlines(lines[1..]);
      HeadFirst(lines, "");
    }
  }

  lemma HeadFirst(lines: seq<string>, last: string)
    requires lines != []
    ensures [lines[0]] + (lines[1..] + [last]) == lines + [last]
  {
  }

  lemma {:induction false} SplitFirst(line: string, rest: string)
    requires OneLine(line)
    ensures Split(line + "\n" + rest, '\n') == [line] + Split(rest, '\n')
  {
    SplitAround(line, '\n', rest);
    SplitOne(line, '\n');
  }

  /** The lines form one block, and parsing them leaves exactly that block. */
  ghost predicate Denotes<D, V>(g: Grammar<D, V>, lines: seq<string>, d: D) {
    && lines != [] && (forall i :: 0 <= i < |lines| ==> OneLine(lines[i]))
    && g.classify(lines[0]).Header?
    && Run(g, Start(), lines) == State(map[], Some(d))
  }

  lemma {:induction false} RunBlock<D, V>(g: Grammar<D, V>, st: State<V, D>, lines: seq<string>, d: D)
    requires Denotes(g, lines, d)
    ensures Run(g, st, lines) == State(Result(g, st), Some(d))
  {
    var first, rest := lines[..1], lines[1..];
    assert lines == first + rest;
    assert first[..0] == [];
    RunAppend(g, st, first, rest);
    RunAppend(g, Start(), first, rest);
    var head := g.classify(lines[0]).block;
    assert Run(g, st, first) == Step(g, Run(g, st, first[..0]), lines[0]);
    assert Run(g, Start(), first) == Step(g, Run(g, Start(), first[..0]), lines[0]);
    EarlierBlocksUntouched(g, Result(g, st), Some(head), rest);
    assert Result(g, st) + map[] == Result(g, st);
  }

  /** The map that shows a list of blocks; the last block of a name wins. */
  function Collect<D, V>(g: Grammar<D, V>, ds: seq<D>): map<string, V> {
    if ds == [] then map[]
    else
      var d := ds[|ds| - 1];
      Collect(g, ds[..|ds| - 1])[g.key(d) := g.seal(d)]
  }

  function Flatten(blocks: seq<seq<string>>): seq<string> {
    if blocks == [] then [] else Flatten(blocks[..|blocks| - 1]) + blocks[|blocks| - 1]
  }

  /** Parsing the concatenation of printed blocks collects the blocks. */
  lemma {:induction false} ParsePrinted<D, V>(g: Grammar<D, V>, blocks: seq<seq<string>>, ds: seq<D>)
    requires |blocks| == |ds| && forall i :: 0 <= i < |ds| ==> Denotes(g, blocks[i], ds[i])
    requires g.classify("").Skip?
    ensures Parse(g, Unlines(Flatten(blocks))) == Collect(g, ds)
  {
    RunPrinted(g, blocks, ds);
    var lines := Flatten(blocks);
    SplitUnlines(lines);
    RunAppend(g, Start(), lines, [""]);
    assert [""][..0] == [];
  }

  lemma {:induction false} RunPrinted<D, V>(g: Grammar<D, V>, blocks: seq<seq<string>>, ds: seq<D>)
    requires |blocks| == |ds| && forall i :: 0 <= i < |ds| ==> Denotes(g, blocks[i], ds[i])
    ensures Result(g, Run(g, Start(), Flatten(blocks))) == Collect(g, ds)
    ensures forall i :: 0 <= i < |Flatten(blocks)| ==> OneLine(Flatten(blocks)[i])
  {
    if ds != [] {
      var n := |ds| - 1;
      RunPrinted(g, blocks[..n], ds[..n]);
      RunAppend(g, Start(), Flatten(blocks[..n]), blocks[n]);
      RunBlock(g, Run(g, Start(), Flatten(blocks[..n])), blocks[n], ds[n]);
    }
  }

  /** With distinct names every listed block is found in the map. */
  lemma {:induction false} CollectFinds<D, V>(g: Grammar<D, V>, ds: seq<D>, i: nat)
    requires i < |ds|
    requires forall j :: i < j < |ds| ==> g.key(ds[j]) != g.key(ds[i])
    ensures g.key(ds[i]) in Collect(g, ds) && Collect(g, ds)[g.key(ds[i])] == g.seal(ds[i])
  {
    var n := |ds| - 1;
    if i < n {
      CollectFinds(g, ds[..n], i);
    }
  }

  // ------------------------------------------------------------------ what parsing can produce

  /** A property that every new block has and every body line keeps holds of every block of the
      result. */
  ghost predicate Keeps<D(!new), V>(g: Grammar<D, V>, inv: D -> bool) {
    && (forall l :: OneLine(l) && g.classify(l).Header? ==> inv(g.classify(l).block))
    && (forall d, l :: OneLine(l) && g.classify(l).Body? && inv(d) ==> inv(g.body(d, l)))
  }

  ghost predicate Shows<D(!new), V>(g: Grammar<D, V>, inv: D -> bool, k: string, v: V) {
    exists d :: inv(d) && g.key(d) == k && g.seal(d) == v
  }

  lemma {:induction false} ResultShows<D(!new), V>(g: Grammar<D, V>, inv: D -> bool, lines: seq<string>)
    requires Keeps(g, inv)
    requires forall i :: 0 <= i < |lines| ==> OneLine(lines[i])
    ensures var st := Run(g, Start(), lines);
            && (st.cur.Some? ==> inv(st.cur.value))
            && (forall k :: k in st.done ==> Shows(g, inv, k, st.done[k]))
            && (forall k :: k in Result(g, st) ==> Shows(g, inv, k, Result(g, st)[k]))
  {
    if lines != [] {
      ResultShows(g, inv, lines[..|lines| - 1]);
    }
  }

  lemma ParseShows<D(!new), V>(g: Grammar<D, V>, inv: D -> bool, text: string)
    requires Keeps(g, inv)
    ensures forall k :: k in Parse(g, text) ==> Shows(g, inv, k, Parse(g, text)[k])
  {
    ResultShows(g, inv, Split(text, '\n'));
  }

  ghost predicate Writable<D(!new), V(!new)>(g: Grammar<D, V>, k: string, v: V) {
    exists lines, d :: Denotes(g, lines, d) && g.key(d) == k && g.seal(d) == v
  }

  lemma AddBlock<D(!new), V(!new)>(
    g: Grammar<D, V>, m: map<string, V>, k: string, blocks: seq<seq<string>>, ds: seq<D>)
    returns (blocks': seq<seq<string>>, ds': seq<D>)
    requires k in m && Writable(g, k, m[k])
    requires |blocks| == |ds| && forall i :: 0 <= i < |ds| ==> Denotes(g, blocks[i], ds[i])
    requires Collect(g, ds) == m - {k}
    ensures |blocks'| == |ds'| && forall i :: 0 <= i < |ds'| ==> Denotes(g, blocks'[i], ds'[i])
    ensures Collect(g, ds') == m
  {
    var lines, d :| Denotes(g, lines, d) && g.key(d) == k && g.seal(d) == m[k];
    blocks', ds' := blocks + [lines], ds + [d];
    assert ds'[..|ds|] == ds;
    assert (m - {k})[k := m[k]] == m;
  }

  /** Some text parses to every map whose entries can each be written as a block. */
  lemma {:induction false} Reachable<D(!new), V(!new)>(g: Grammar<D, V>, m: map<string, V>)
    returns (blocks: seq<seq<string>>, ds: seq<D>)
    requires forall k :: k in m ==> Writable(g, k, m[k])
    ensures |blocks| == |ds| && forall i :: 0 <= i < |ds| ==> Denotes(g, blocks[i], ds[i])
    ensures Collect(g, ds) == m
    decreases |m|
  {
    if m == map[] {
      blocks, ds := [], [];
    } else {
      var k :| k in m;
      blocks, ds := Reachable(g, m - {k});
      blocks, ds := AddBlock(g, m, k, blocks, ds);
    }
  }
}
