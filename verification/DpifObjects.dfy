/** ParseDPIF as the program runs it: datapath and bridge objects are linked into the result when
    their line is read and edited afterwards through the cursors `curDP` and `curBridge`. */
module DpifObjects {
  import opened Wrappers
  import opened Text
  import opened KeyValue
  import opened PortLine
  import opened Blocks
  import opened Entries
  import Dpif

  class DPIFBridge {
    var Name: string
    var Ports: seq<Port>
    /** The datapath that the bridge was created for. */
    ghost const Owner: DPIFDatapath

    constructor (name: string, ghost owner: DPIFDatapath)
      ensures Name == name && Ports == [] && Owner == owner
    {
      Name, Ports, Owner := name, [], owner;
    }

    function View(): Dpif.Bridge
      reads this
    {
      Dpif.Bridge(Name, Ports)
    }
  }

  class DPIFDatapath {
    var Name: string
    var Lookups: Lookups
    var Bridges: map<string, DPIFBridge>

    constructor (name: string)
      ensures Name == name && Lookups == NO_LOOKUPS && Bridges == map[]
    {
      Name, Lookups, Bridges := name, NO_LOOKUPS, map[];
    }

    /** Every key is the name of its bridge, and every bridge belongs to this datapath. */
    ghost predicate Linked()
      reads this, Bridges.Values
    {
      forall j :: j in Bridges ==> Bridges[j].Name == j && Bridges[j].Owner == this
    }

    function View(): Dpif.Datapath
      reads this, Bridges.Values
    {
      Dpif.Datapath(Name, Lookups, map j | j in Bridges :: Bridges[j].View())
    }

    /** Links a new bridge, over one of the same name. */
    method LinkBridge(name: string) returns (bridge: DPIFBridge)
      requires Linked()
      modifies this`Bridges
      ensures fresh(bridge) && bridge.View() == Dpif.Bridge(name, [])
      ensures Linked() && Bridges == old(Bridges)[name := bridge] && HoldsBridge(this, bridge)
      ensures View() == old(View()).(bridges := old(View().bridges)[name := bridge.View()])
    {
      bridge := new DPIFBridge(name, this);
      Bridges := Bridges[name := bridge];
    }
  }

  class DPIF {
    var Datapaths: map<string, DPIFDatapath>
    /** Every object that was ever linked in. */
    ghost var Linkers: set<DPIFDatapath>
    ghost var Linkees: set<DPIFBridge>

    constructor ()
      ensures Datapaths == map[] && Linkers == {} && Linkees == {}
    {
      Datapaths, Linkers, Linkees := map[], {}, {};
    }

    /** Every key is the name of its object, so distinct keys hold distinct objects, and every
        bridge belongs to the one datapath that links to it. */
    ghost predicate Valid()
      reads this, Linkers, Linkees
    {
      && Datapaths.Values <= Linkers
      && (forall d :: d in Linkers ==> d.Bridges.Values <= Linkees && d.Linked())
      && (forall k :: k in Datapaths ==> Datapaths[k].Name == k)
    }

    function View(): map<string, Dpif.Datapath>
      requires Valid()
      reads this, Linkers, Linkees
    {
      map k | k in Datapaths :: Datapaths[k].View()
    }

    /** The datapath cursor is the object stored under its name. */
    ghost predicate Holds(dp: DPIFDatapath)
      reads this, dp
    {
      dp.Name in Datapaths && Datapaths[dp.Name] == dp
    }
  }

  /** The bridge cursor is the object stored under its name in the current datapath. */
  ghost predicate HoldsBridge(dp: DPIFDatapath, b: DPIFBridge)
    reads dp, b
  {
    b.Name in dp.Bridges && dp.Bridges[b.Name] == b
  }

  method ParseDPIFDatapathLine(line: string) returns (dp: DPIFDatapath?)
    ensures dp == null <==> Dpif.DatapathLine(line) == None
    ensures dp == null <==> forall name, l :: !Dpif.Opens(line, name, l)
    ensures dp != null ==> Dpif.Opens(line, dp.Name, dp.Lookups)
    ensures dp != null ==>
              && fresh(dp) && dp.Bridges == map[]
              && Dpif.DatapathLine(line) == Some((dp.Name, dp.Lookups))
              && dp.View() == Dpif.Datapath(dp.Name, dp.Lookups, map[])
  {
    dp := null;
    var cut := Cut(line, ':');
    if !cut.2 || cut.0 == "" {
      Dpif.NoHeader(line);
      return;
    }
    var datapath: DPIFDatapath := new DPIFDatapath(cut.0);
    var seen := false;
    var toks := Fields(cut.1);
    for i := 0 to |toks|
      invariant Dpif.ScanTokens(toks[..i]) == Dpif.Scan(datapath.Lookups, seen)
      modifies datapath`Lookups
    {
      Dpif.ScanNext(toks, i);
      var kv := KeyInt(toks[i]);
      if kv == None {
        continue;
      }
      var (k, n) := kv.value;
      match k {
        case "hit" =>
          datapath.Lookups := datapath.Lookups.(hit := n);
          seen := true;
        case "missed" =>
          datapath.Lookups := datapath.Lookups.(missed := n);
          seen := true;
        case "lost" =>
          datapath.Lookups := datapath.Lookups.(lost := n);
          seen := true;
        case _ =>
      }
    }
    assert toks[..|toks|] == toks;
    dp := if seen then datapath else null;
    if seen {
      Dpif.DatapathLineMeaning(line, datapath.Name, datapath.Lookups);
    } else {
      Dpif.NoHeader(line);
    }
  }

  /** A port line changes the current bridge and nothing else in the result. */
  method AddPort(ghost out: DPIF, ghost dp: DPIFDatapath, bridge: DPIFBridge, port: Port)
    requires out.Valid() && out.Holds(dp) && HoldsBridge(dp, bridge)
    modifies bridge`Ports
    ensures out.Valid() && out.Holds(dp) && HoldsBridge(dp, bridge)
    ensures bridge.View() == Dpif.Bridge(old(bridge.Name), old(bridge.Ports) + [port])
    ensures dp.View() == old(dp.View()).(bridges := old(dp.View().bridges)[bridge.Name := bridge.View()])
    ensures out.View() == old(out.View())[dp.Name := dp.View()]
  {
    bridge.Ports := bridge.Ports + [port];
  }

  /** The current datapath with its new bridge, and the others as before. */
  method LinkNew(ghost out: DPIF, dp: DPIFDatapath, name: string) returns (bridge: DPIFBridge)
    requires out.Valid() && out.Holds(dp)
    modifies dp`Bridges, out`Linkees
    ensures fresh(bridge) && bridge.View() == Dpif.Bridge(name, [])
    ensures out.Valid() && out.Holds(dp) && HoldsBridge(dp, bridge)
    ensures dp.View() == old(dp.View()).(bridges := old(dp.View().bridges)[name := bridge.View()])
    ensures out.Datapaths == old(out.Datapaths)
    ensures forall k :: k in out.Datapaths && k != dp.Name ==>
      out.Datapaths[k].View() == old(out.Datapaths[k].View())
  {
    bridge := dp.LinkBridge(name);
    out.Linkees := out.Linkees + {bridge};
    assert forall d :: d in out.Linkers && d != dp ==> d.Linked();
    assert forall k :: k in out.Datapaths && k != dp.Name ==> out.Datapaths[k] != dp;
  }

  /** A bridge line links a new bridge into the current datapath. */
  method AddBridge(ghost out: DPIF, dp: DPIFDatapath, name: string) returns (bridge: DPIFBridge)
    requires out.Valid() && out.Holds(dp)
    modifies dp`Bridges, out`Linkees
    ensures fresh(bridge) && bridge.View() == Dpif.Bridge(name, [])
    ensures out.Valid() && out.Holds(dp) && HoldsBridge(dp, bridge)
    ensures dp.View() == old(dp.View()).(bridges := old(dp.View().bridges)[name := bridge.View()])
    ensures out.View() == old(out.View())[dp.Name := dp.View()]
  {
    bridge := LinkNew(out, dp, name);
    OneEntry(old(out.View()), out.View(), dp.Name);
  }

  /** A datapath line links a new datapath into the result, over one of the same name. */
  method AddDatapath(out: DPIF, dp: DPIFDatapath)
    requires out.Valid() && dp.Bridges == map[]
    modifies out`Datapaths, out`Linkers
    ensures out.Valid() && out.Holds(dp)
    ensures out.View() == old(out.View())[dp.Name := dp.View()]
  {
    out.Datapaths := out.Datapaths[dp.Name := dp];
    out.Linkers := out.Linkers + {dp};
  }

  /** The cursors and the result, against the state of the value-level parser. */
  ghost predicate Tracks(out: DPIF, curDP: DPIFDatapath?, curBridge: DPIFBridge?,
                         st: State<Dpif.Datapath, Dpif.Open>)
    reads out, out.Linkers, out.Linkees, curDP, curBridge, if curDP == null then {} else curDP.Bridges.Values
  {
    && out.Valid()
    && out.View() == Result(Dpif.GRAMMAR, st)
    && (curDP == null <==> st.cur == None)
    && (curDP != null ==> out.Holds(curDP) && curDP.View() == Dpif.Seal(st.cur.value))
    && (curBridge == null <==> st.cur == None || st.cur.value.bridge == None)
    && (curBridge != null ==> HoldsBridge(curDP, curBridge) && curBridge.View() == st.cur.value.bridge.value)
  }

  /** A line indented by four spaces. */
  method ReadPort(ghost out: DPIF, ghost curDP: DPIFDatapath?, curBridge: DPIFBridge?, line: string,
                  ghost st: State<Dpif.Datapath, Dpif.Open>)
    requires Tracks(out, curDP, curBridge, st) && "    " <= line
    modifies curBridge
    ensures Tracks(out, curDP, curBridge, Step(Dpif.GRAMMAR, st, line))
  {
    Dpif.PortLineChanges(st, line);
    if curBridge == null {
      return;
    }
    var port := ParsePortLine(TrimLeft(line, Blank));
    if port == None {
      return;
    }
    AddPort(out, curDP, curBridge, port.value);
  }

  /** A line indented by two spaces. */
  method ReadBridge(ghost out: DPIF, curDP: DPIFDatapath?, curBridge: DPIFBridge?, line: string,
                    ghost st: State<Dpif.Datapath, Dpif.Open>)
    returns (newBridge: DPIFBridge?)
    requires Tracks(out, curDP, curBridge, st) && "  " <= line && !("    " <= line)
    modifies curDP, out`Linkees
    ensures newBridge == curBridge || fresh(newBridge)
    ensures Tracks(out, curDP, newBridge, Step(Dpif.GRAMMAR, st, line))
  {
    Dpif.BridgeLineChanges(st, line);
    newBridge := curBridge;
    if curDP == null {
      return;
    }
    var trimmed := TrimSpace(line);
    if !HasSuffix(trimmed, ":") {
      return;
    }
    newBridge := AddBridge(out, curDP, TrimSuffix(trimmed, ":"));
  }

  /** A header line, once its datapath is built. */
  method LinkHeader(out: DPIF, dp: DPIFDatapath, line: string, ghost st: State<Dpif.Datapath, Dpif.Open>)
    requires out.Valid() && out.View() == Result(Dpif.GRAMMAR, st)
    requires dp.Bridges == map[] && line != "" && !("  " <= line)
    requires Dpif.DatapathLine(line) == Some((dp.Name, dp.Lookups))
    modifies out
    ensures Tracks(out, dp, null, Step(Dpif.GRAMMAR, st, line))
  {
    Dpif.DatapathLineChanges(st, line);
    AddDatapath(out, dp);
  }

  /** Any other line. */
  method ReadDatapath(out: DPIF, curDP: DPIFDatapath?, curBridge: DPIFBridge?, line: string,
                      ghost st: State<Dpif.Datapath, Dpif.Open>)
    returns (newDP: DPIFDatapath?, newBridge: DPIFBridge?)
    requires Tracks(out, curDP, curBridge, st) && line != "" && !("  " <= line)
    modifies out
    ensures (newDP == curDP && newBridge == curBridge) || (fresh(newDP) && newBridge == null)
    ensures Tracks(out, newDP, newBridge, Step(Dpif.GRAMMAR, st, line))
  {
    newDP, newBridge := curDP, curBridge;
    var dp := ParseDPIFDatapathLine(line);
    assert unchanged(out) && unchanged(out.Linkers) && unchanged(out.Linkees);
    if dp == null {
      Dpif.NoHeaderNoChange(st, line);
      return;
    }
    LinkHeader(out, dp, line, st);
    newDP, newBridge := dp, null;
  }

  method ParseDPIF(text: string) returns (out: DPIF)
    ensures fresh(out) && out.Valid()
    ensures out.View() == Dpif.ParseText(text)
    ensures forall j, k :: j in out.Datapaths && k in out.Datapaths && j != k ==> out.Datapaths[j] != out.Datapaths[k]
  {
    out := new DPIF();
    var curDP: DPIFDatapath?, curBridge: DPIFBridge? := null, null;
    var lines := Split(text, '\n');
    for i := 0 to |lines|
      invariant fresh(out)
      invariant curDP != null ==> fresh(curDP)
      invariant curBridge != null ==> fresh(curBridge)
      invariant Tracks(out, curDP, curBridge, Run(Dpif.GRAMMAR, Start(), lines[..i]))
    {
      var line := lines[i];
      ghost var st := Run(Dpif.GRAMMAR, Start(), lines[..i]);
      RunNext(Dpif.GRAMMAR, Start(), lines, i);
      if line == "" {
        continue;
      }
      if "    " <= line {
        ReadPort(out, curDP, curBridge, line, st);
      } else if "  " <= line {
        curBridge := ReadBridge(out, curDP, curBridge, line, st);
      } else {
        curDP, curBridge := ReadDatapath(out, curDP, curBridge, line, st);
      }
    }
    assert lines[..|lines|] == lines;
  }
}
