/** upcall/show: per datapath the flow counts, the dump duration and the key count of each
    handler. */
module Upcall {
  import opened Wrappers
  import opened Text
  import opened Decimal
  import opened Sequences
  import opened Regex
  import opened Blocks
  import opened Entries

  datatype Upcalls = Upcalls(
    name: string, current: int, avg: int, max: int, limit: int, dumpMs: int, handlers: map<int, int>)

  function NewUpcalls(name: string): Upcalls {
    Upcalls(name, 0, 0, 0, 0, 0, map[])
  }

  /** `\(([a-z]+)\s+(\d+)\)`; the groups are the pieces 1 and 3. */
  const CLOSE: Pattern := [One(Only(')'))]
  const COUNT: Pattern := [Plus(Digit)] + CLOSE
  const GAP: Pattern := [Plus(ReSpace)] + COUNT
  const NAME: Pattern := [Plus(Lower)] + GAP
  const PAREN_PAIR: Pattern := [One(Only('('))] + NAME

  /** `^(\d+):\s*\(keys\s+(\d+)\)`; the groups are the pieces 0 and 9. */
  const KEYS: Pattern := [One(Only('k'))] + ([One(Only('e'))] + ([One(Only('y'))] + ([One(Only('s'))] + GAP)))
  const OPEN: Pattern := [One(Only('('))] + KEYS
  const SPACES: Pattern := [Star(ReSpace)] + OPEN
  const COLON: Pattern := [One(Only(':'))] + SPACES
  const HANDLER_LINE: Pattern := [Plus(Digit)] + COLON

  // ------------------------------------------------------------------ the lines of a block

  function SetFlows(dp: Upcalls, name: string, n: int): Upcalls {
    if name == "current" then dp.(current := n)
    else if name == "avg" then dp.(avg := n)
    else if name == "max" then dp.(max := n)
    else if name == "limit" then dp.(limit := n)
    else dp
  }

  function FlowMatch(dp: Upcalls, m: Match): Upcalls
    requires |m| == 5
  {
    match ParseInt(m[3])
    case None => dp
    case Some(n) => SetFlows(dp, m[1], n)
  }

  function FlowMatches(dp: Upcalls, ms: seq<Match>): Upcalls
    requires forall i :: 0 <= i < |ms| ==> |ms[i]| == 5
  {
    if ms == [] then dp else FlowMatch(FlowMatches(dp, Front(ms)), Last(ms))
  }

  function DumpLine(dp: Upcalls, t: string): Upcalls {
    var cut := Cut(t, ':');
    if !cut.2 then dp
    else
      match ParseInt(TrimSuffix(TrimSpace(cut.1), "ms"))
      case None => dp
      case Some(n) => dp.(dumpMs := n)
  }

  /** The handler and its key count; the ids are read by Atoi, which on a 64-bit platform accepts
      exactly the int64 values. */
  function Handler(t: string): Option<(int, int)> {
    match Backtrack(HANDLER_LINE, t)
    case None => None
    case Some(m) =>
      var id, keys := ParseInt(m[0]), ParseInt(m[9]);
      if id.Some? && keys.Some? then Some((id.value, keys.value)) else None
  }

  function HandlerLine(dp: Upcalls, t: string): Upcalls {
    match Handler(t)
    case None => dp
    case Some(h) => dp.(handlers := dp.handlers[h.0 := h.1])
  }

  function Content(dp: Upcalls, t: string): Upcalls {
    if "flows" <= t then FlowMatches(dp, FindAll(PAREN_PAIR, t))
    else if "dump duration" <= t then DumpLine(dp, t)
    else HandlerLine(dp, t)
  }

  // ------------------------------------------------------------------ the block grammar

  function Classify(line: string): Line<Upcalls> {
    if TrimSpace(line) == "" then Skip
    else if !Indented(line) && LabelOn(line).Some? then Header(NewUpcalls(LabelOn(line).value))
    else Body
  }

  function EditBlock(dp: Upcalls, line: string): Upcalls {
    Content(dp, TrimSpace(line))
  }

  function KeyOf(dp: Upcalls): string { dp.name }

  function Seal(dp: Upcalls): Upcalls { dp }

  const GRAMMAR: Grammar<Upcalls, Upcalls> := Grammar(Classify, EditBlock, KeyOf, Seal)

  function ParseText(text: string): map<string, Upcalls> {
    Parse(GRAMMAR, text)
  }

  /** Parsing A and then a text B that begins with a header gives A's datapaths overridden, name by
      name, by B's. */
  lemma ComposeTexts(a: string, b: string)
    requires Classify(Split(b, '\n')[0]).Header?
    ensures ParseText(a + "\n" + b) == ParseText(a) + ParseText(b)
  {
    Compose(GRAMMAR, a, b);
  }

  // ------------------------------------------------------------------ the method

  class UpcallDatapath {
    var Name: string
    var FlowsCurrent: int
    var FlowsAvg: int
    var FlowsMax: int
    var FlowsLimit: int
    var DumpDurationMs: int
    var HandlerKeys: map<int, int>

    constructor (name: string)
      ensures View() == NewUpcalls(name)
    {
      Name, FlowsCurrent, FlowsAvg, FlowsMax, FlowsLimit, DumpDurationMs := name, 0, 0, 0, 0, 0;
      HandlerKeys := map[];
    }

    function View(): Upcalls
      reads this
    {
      Upcalls(Name, FlowsCurrent, FlowsAvg, FlowsMax, FlowsLimit, DumpDurationMs, HandlerKeys)
    }

    method ReadFlows(t: string)
      modifies this
      ensures View() == FlowMatches(old(View()), FindAll(PAREN_PAIR, t))
    {
      var ms := FindAll(PAREN_PAIR, t);
      for i := 0 to |ms|
        invariant View() == FlowMatches(old(View()), ms[..i])
      {
        Snoc(ms[..i], ms[i]);
        assert ms[..i + 1] == ms[..i] + [ms[i]];
        var m := ms[i];
        var n := ParseInt(m[3]);
        if n == None {
          continue;
        }
        if m[1] == "current" {
          FlowsCurrent := n.value;
        } else if m[1] == "avg" {
          FlowsAvg := n.value;
        } else if m[1] == "max" {
          FlowsMax := n.value;
        } else if m[1] == "limit" {
          FlowsLimit := n.value;
        }
      }
      assert ms[..|ms|] == ms;
    }

    method ReadContent(t: string)
      modifies this
      ensures View() == Content(old(View()), t)
    {
      if "flows" <= t {
        ReadFlows(t);
      } else if "dump duration" <= t {
        var cut := Cut(t, ':');
        if !cut.2 {
          return;
        }
        var n := ParseInt(TrimSuffix(TrimSpace(cut.1), "ms"));
        if n != None {
          DumpDurationMs := n.value;
        }
      } else {
        var h := Handler(t);
        if h != None {
          HandlerKeys := HandlerKeys[h.value.0 := h.value.1];
        }
      }
    }
  }

  class Upcall {
    var Datapaths: map<string, UpcallDatapath>

    constructor ()
      ensures Datapaths == map[]
    {
      Datapaths := map[];
    }

    /** Every key is the name of its object, so distinct keys hold distinct objects. */
    ghost predicate Valid()
      reads this, Datapaths.Values
    {
      forall k :: k in Datapaths ==> Datapaths[k].Name == k
    }

    function View(): map<string, Upcalls>
      reads this, Datapaths.Values
    {
      map k | k in Datapaths :: Datapaths[k].View()
    }
  }

  lemma FlowMatchesKeepsName(dp: Upcalls, ms: seq<Match>)
    requires forall i :: 0 <= i < |ms| ==> |ms[i]| == 5
    ensures FlowMatches(dp, ms).name == dp.name
  {
  }

  /** The cursor and the result, against the state of the value-level parser. */
  ghost predicate Tracks(out: Upcall, cur: UpcallDatapath?, st: State<Upcalls, Upcalls>)
    reads out, out.Datapaths.Values, cur
  {
    && out.Valid()
    && out.View() == Result(GRAMMAR, st)
    && (cur == null <==> st.cur == None)
    && (cur != null ==> cur.Name in out.Datapaths && out.Datapaths[cur.Name] == cur && cur.View() == st.cur.value)
  }

  /** A body line edits the open block and nothing else. */
  lemma BodyChanges(st: State<Upcalls, Upcalls>, line: string)
    requires st.cur.Some? && Classify(line) == Body
    ensures var st' := Step(GRAMMAR, st, line);
      && st'.cur == Some(Content(st.cur.value, TrimSpace(line)))
      && st'.cur.value.name == st.cur.value.name
      && Result(GRAMMAR, st') == Result(GRAMMAR, st)[st.cur.value.name := st'.cur.value]
  {
    FlowMatchesKeepsName(st.cur.value, FindAll(PAREN_PAIR, TrimSpace(line)));
  }

  /** The object of the cursor is edited in place; every other datapath of the result is as before. */
  method EditCurrent(ghost out: Upcall, cur: UpcallDatapath, t: string)
    requires out.Valid() && cur.Name in out.Datapaths && out.Datapaths[cur.Name] == cur
    modifies cur
    ensures cur.View() == Content(old(cur.View()), t) && cur.Name == old(cur.Name)
    ensures out.Valid() && out.View() == old(out.View())[cur.Name := cur.View()]
  {
    FlowMatchesKeepsName(cur.View(), FindAll(PAREN_PAIR, t));
    cur.ReadContent(t);
    assert cur.Name == old(cur.Name);
    forall k | k in out.Datapaths && k != cur.Name ensures out.Datapaths[k].View() == old(out.Datapaths[k].View()) {
      assert out.Datapaths[k] != cur;
    }
    OneEntry(old(out.View()), out.View(), cur.Name);
  }

  method ReadBody(ghost out: Upcall, cur: UpcallDatapath, line: string, ghost st: State<Upcalls, Upcalls>)
    requires Tracks(out, cur, st) && Classify(line) == Body
    modifies cur
    ensures Tracks(out, cur, Step(GRAMMAR, st, line))
  {
    BodyChanges(st, line);
    EditCurrent(out, cur, TrimSpace(line));
  }

  method ReadHeader(out: Upcall, name: string, ghost line: string, ghost cur: UpcallDatapath?,
                    ghost st: State<Upcalls, Upcalls>)
    returns (newCur: UpcallDatapath)
    requires Tracks(out, cur, st) && Classify(line) == Header(NewUpcalls(name))
    modifies out
    ensures fresh(newCur) && Tracks(out, newCur, Step(GRAMMAR, st, line))
  {
    newCur := new UpcallDatapath(name);
    out.Datapaths := out.Datapaths[name := newCur];
  }

  method ParseUpcall(text: string) returns (out: Upcall)
    ensures fresh(out) && out.Valid()
    ensures out.View() == ParseText(text)
  {
    out := new Upcall();
    var cur: UpcallDatapath? := null;
    var lines := Split(text, '\n');
    for i := 0 to |lines|
      invariant fresh(out) && (cur != null ==> fresh(cur))
      invariant Tracks(out, cur, Run(GRAMMAR, Start(), lines[..i]))
    {
      var line := lines[i];
      ghost var st := Run(GRAMMAR, Start(), lines[..i]);
      RunNext(GRAMMAR, Start(), lines, i);
      if TrimSpace(line) == "" {
        continue;
      }
      if !Indented(line) && HasSuffix(TrimSpace(line), ":") {
        cur := ReadHeader(out, TrimSuffix(TrimSpace(line), ":"), line, cur, st);
        continue;
      }
      if cur == null {
        continue;
      }
      ReadBody(out, cur, line, st);
    }
    assert lines[..|lines|] == lines;
  }
}
