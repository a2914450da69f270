/** The interface collector's join Bridge -> Port -> Interface over the rows of the database
    cache. */
module Interfaces {
  import opened Wrappers
  import opened Sequences

  /** A row of the cache and the columns that the join reads. */
  datatype Row<T> = Row(uuid: string, columns: T)
  datatype Bridge = Bridge(name: string, ports: seq<string>)
  datatype Port = Port(interfaces: seq<string>)
  datatype Interface = Interface(name: string, statistics: map<string, int>)

  /** The rows of the three tables, in the order in which the cache iterates over them. */
  datatype View = View(bridges: seq<Bridge>, ports: seq<Row<Port>>, interfaces: seq<Row<Interface>>)

  /** The cache is keyed by row UUID. */
  ghost predicate Unique<T(!new)>(rows: seq<Row<T>>) {
    forall i, j :: 0 <= i < j < |rows| ==> rows[i].uuid != rows[j].uuid
  }

  ghost predicate UniqueRows(v: View) {
    Unique(v.ports) && Unique(v.interfaces)
  }

  // ------------------------------------------------------------------ observations

  datatype Observation = Observation(
    instrument: string, bridge: string, interface: string, direction: Option<string>, value: int)

  /** A statistic that the row does not have reads as zero. */
  function Stat(iface: Interface, key: string): int {
    if key in iface.statistics then iface.statistics[key] else 0
  }

  /** A bridge name and an interface that it reaches. */
  datatype Pair = Pair(bridge: string, iface: Row<Interface>) {
    function Value(instrument: string, direction: Option<string>, key: string): Observation {
      Observation(instrument, bridge, iface.columns.name, direction, Stat(iface.columns, key))
    }

    function Values(): seq<Observation> {
      [Value("ovs.interface.rx.bytes", None, "rx_bytes"),
       Value("ovs.interface.rx.packets", None, "rx_packets"),
       Value("ovs.interface.tx.bytes", None, "tx_bytes"),
       Value("ovs.interface.tx.packets", None, "tx_packets"),
       Value("ovs.interface.collisions", None, "collisions"),
       Value("ovs.interface.errors", Some("rx"), "rx_errors"),
       Value("ovs.interface.errors", Some("tx"), "tx_errors"),
       Value("ovs.interface.drops", Some("rx"), "rx_dropped"),
       Value("ovs.interface.drops", Some("tx"), "tx_dropped")]
    }
  }

  /** The observation shows the statistic with the given key, or zero if the row does not have it. */
  predicate Shows(o: Observation, p: Pair, instrument: string, direction: Option<string>, key: string) {
    && o.bridge == p.bridge && o.interface == p.iface.columns.name
    && o.instrument == instrument && o.direction == direction
    && o.value == if key in p.iface.columns.statistics then p.iface.columns.statistics[key] else 0
  }

  /** Which statistics an interface shows: bytes and packets of each direction under instruments of
      their own, errors and drops with the direction as an attribute, and collisions. */
  lemma ValuesMeaning(p: Pair, o: Observation)
    ensures o in p.Values() <==>
      || Shows(o, p, "ovs.interface.rx.bytes", None, "rx_bytes")
      || Shows(o, p, "ovs.interface.rx.packets", None, "rx_packets")
      || Shows(o, p, "ovs.interface.tx.bytes", None, "tx_bytes")
      || Shows(o, p, "ovs.interface.tx.packets", None, "tx_packets")
      || Shows(o, p, "ovs.interface.collisions", None, "collisions")
      || Shows(o, p, "ovs.interface.errors", Some("rx"), "rx_errors")
      || Shows(o, p, "ovs.interface.errors", Some("tx"), "tx_errors")
      || Shows(o, p, "ovs.interface.drops", Some("rx"), "rx_dropped")
      || Shows(o, p, "ovs.interface.drops", Some("tx"), "tx_dropped")
    ensures |p.Values()| == 9
  {
  }

  function Observations(pairs: seq<Pair>): seq<Observation> {
    if pairs == [] then [] else Observations(Front(pairs)) + Last(pairs).Values()
  }

  lemma ObservationsSnoc(pairs: seq<Pair>, pair: Pair)
    ensures Observations(pairs + [pair]) == Observations(pairs) + pair.Values()
  {
    Snoc(pairs, pair);
  }

  lemma {:induction false} ObservationsAppend(a: seq<Pair>, b: seq<Pair>)
    ensures Observations(a + b) == Observations(a) + Observations(b)
  {
    if b == [] {
      assert a + b == a;
    } else {
      var front, last := Front(b), Last(b);
      ObservationsAppend(a, front);
      FrontLast(b);
      Assoc(a, front, [last]);
      ObservationsSnoc(a + front, last);
      ObservationsSnoc(front, last);
      Assoc(Observations(a), Observations(front), last.Values());
    }
  }

  // ------------------------------------------------------------------ the simple form: linear scans

  /** The rows with a given UUID. */
  function Named<T>(rows: seq<Row<T>>, uuid: string): seq<Row<T>> {
    if rows == [] then []
    else if Last(rows).uuid == uuid then Named(Front(rows), uuid) + [Last(rows)]
    else Named(Front(rows), uuid)
  }

  function WithBridge(bridge: string, rows: seq<Row<Interface>>): seq<Pair> {
    if rows == [] then [] else WithBridge(bridge, Front(rows)) + [Pair(bridge, Last(rows))]
  }

  function ScanInterfaces(v: View, bridge: string, refs: seq<string>): seq<Pair> {
    if refs == [] then []
    else ScanInterfaces(v, bridge, Front(refs)) + WithBridge(bridge, Named(v.interfaces, Last(refs)))
  }

  function ScanRows(v: View, bridge: string, rows: seq<Row<Port>>): seq<Pair> {
    if rows == [] then []
    else ScanRows(v, bridge, Front(rows)) + ScanInterfaces(v, bridge, Last(rows).columns.interfaces)
  }

  function ScanPorts(v: View, bridge: string, refs: seq<string>): seq<Pair> {
    if refs == [] then []
    else ScanPorts(v, bridge, Front(refs)) + ScanRows(v, bridge, Named(v.ports, Last(refs)))
  }

  /** Every row that a reference names, for every reference. */
  function Scan(v: View, bridges: seq<Bridge>): seq<Pair> {
    if bridges == [] then []
    else Scan(v, Front(bridges)) + ScanPorts(v, Last(bridges).name, Last(bridges).ports)
  }

  // ------------------------------------------------------------------ the fast form: indexes

  function Index<T>(rows: seq<Row<T>>): map<string, Row<T>> {
    if rows == [] then map[] else Index(Front(rows))[Last(rows).uuid := Last(rows)]
  }

  function Found<T>(index: map<string, Row<T>>, uuid: string): seq<Row<T>> {
    if uuid in index then [index[uuid]] else []
  }

  function JoinInterfaces(ifaces: map<string, Row<Interface>>, bridge: string, refs: seq<string>): seq<Pair> {
    if refs == [] then []
    else if Last(refs) in ifaces then
      JoinInterfaces(ifaces, bridge, Front(refs)) + [Pair(bridge, ifaces[Last(refs)])]
    else JoinInterfaces(ifaces, bridge, Front(refs))
  }

  function JoinPorts(
    ports: map<string, Row<Port>>, ifaces: map<string, Row<Interface>>, bridge: string, refs: seq<string>): seq<Pair>
  {
    if refs == [] then []
    else if Last(refs) in ports then
      JoinPorts(ports, ifaces, bridge, Front(refs))
      + JoinInterfaces(ifaces, bridge, ports[Last(refs)].columns.interfaces)
    else JoinPorts(ports, ifaces, bridge, Front(refs))
  }

  function Join(ports: map<string, Row<Port>>, ifaces: map<string, Row<Interface>>, bridges: seq<Bridge>): seq<Pair> {
    if bridges == [] then []
    else Join(ports, ifaces, Front(bridges)) + JoinPorts(ports, ifaces, Last(bridges).name, Last(bridges).ports)
  }

  method BuildIndex<T>(rows: seq<Row<T>>) returns (index: map<string, Row<T>>)
    ensures index == Index(rows)
  {
    index := map[];
    for i := 0 to |rows|
      invariant index == Index(rows[..i])
    {
      Prefix(rows, i);
      index := index[rows[i].uuid := rows[i]];
    }
    assert rows[..|rows|] == rows;
  }

  method ObservePort(ifaces: map<string, Row<Interface>>, bridge: string, refs: seq<string>)
    returns (out: seq<Observation>)
    ensures out == Observations(JoinInterfaces(ifaces, bridge, refs))
  {
    out := [];
    for i := 0 to |refs|
      invariant out == Observations(JoinInterfaces(ifaces, bridge, refs[..i]))
    {
      Prefix(refs, i);
      if refs[i] !in ifaces {
        continue;
      }
      var pair := Pair(bridge, ifaces[refs[i]]);
      Snoc(JoinInterfaces(ifaces, bridge, refs[..i]), pair);
      out := out + pair.Values();
    }
    assert refs[..|refs|] == refs;
  }

  method ObserveBridge(ports: map<string, Row<Port>>, ifaces: map<string, Row<Interface>>, b: Bridge)
    returns (out: seq<Observation>)
    ensures out == Observations(JoinPorts(ports, ifaces, b.name, b.ports))
  {
    out := [];
    for i := 0 to |b.ports|
      invariant out == Observations(JoinPorts(ports, ifaces, b.name, b.ports[..i]))
    {
      Prefix(b.ports, i);
      if b.ports[i] !in ports {
        continue;
      }
      var p := ports[b.ports[i]].columns;
      var more := ObservePort(ifaces, b.name, p.interfaces);
      ObservationsAppend(
        JoinPorts(ports, ifaces, b.name, b.ports[..i]), JoinInterfaces(ifaces, b.name, p.interfaces));
      out := out + more;
    }
    assert b.ports[..|b.ports|] == b.ports;
  }

  method Observe(view: Option<View>) returns (out: seq<Observation>)
    ensures view == None ==> out == []
    ensures view.Some? && UniqueRows(view.value) ==> out == Observations(Scan(view.value, view.value.bridges))
  {
    out := [];
    if view == None {
      return;
    }
    var v := view.value;
    var ports := BuildIndex(v.ports);
    var ifaces := BuildIndex(v.interfaces);
    for i := 0 to |v.bridges|
      invariant out == Observations(Join(ports, ifaces, v.bridges[..i]))
    {
      Prefix(v.bridges, i);
      var more := ObserveBridge(ports, ifaces, v.bridges[i]);
      ObservationsAppend(
        Join(ports, ifaces, v.bridges[..i]), JoinPorts(ports, ifaces, v.bridges[i].name, v.bridges[i].ports));
      out := out + more;
    }
    assert v.bridges[..|v.bridges|] == v.bridges;
    if UniqueRows(v) {
      IndexedJoinIsScan(v, v.bridges);
    }
  }

  // ------------------------------------------------------------------ refinement

  lemma UniqueFront<T(!new)>(rows: seq<Row<T>>)
    requires rows != [] && Unique(rows)
    ensures Unique(Front(rows))
    ensures forall i :: 0 <= i < |rows| - 1 ==> Front(rows)[i].uuid != Last(rows).uuid
  {
  }

  lemma {:induction false} Absent<T>(rows: seq<Row<T>>, uuid: string)
    requires forall i :: 0 <= i < |rows| ==> rows[i].uuid != uuid
    ensures Named(rows, uuid) == [] && uuid !in Index(rows)
  {
    if rows != [] {
      Absent(Front(rows), uuid);
    }
  }

  lemma {:induction false} LookupIsScan<T(!new)>(rows: seq<Row<T>>, uuid: string)
    requires Unique(rows)
    ensures Named(rows, uuid) == Found(Index(rows), uuid)
  {
    if rows != [] {
      UniqueFront(rows);
      if Last(rows).uuid == uuid {
        Absent(Front(rows), uuid);
        assert [] + [Last(rows)] == [Last(rows)];
      } else {
        LookupIsScan(Front(rows), uuid);
      }
    }
  }

  lemma OnePair(bridge: string, row: Row<Interface>)
    ensures WithBridge(bridge, [row]) == [Pair(bridge, row)]
  {
    assert Front([row]) == [] && Last([row]) == row;
    assert WithBridge(bridge, []) == [];
  }

  lemma OneRow(v: View, bridge: string, row: Row<Port>)
    ensures ScanRows(v, bridge, [row]) == ScanInterfaces(v, bridge, row.columns.interfaces)
  {
    assert Front([row]) == [] && Last([row]) == row;
    assert ScanRows(v, bridge, []) == [];
  }

  lemma {:induction false} JoinInterfacesIsScan(v: View, bridge: string, refs: seq<string>)
    requires UniqueRows(v)
    ensures JoinInterfaces(Index(v.interfaces), bridge, refs) == ScanInterfaces(v, bridge, refs)
  {
    if refs != [] {
      JoinInterfacesIsScan(v, bridge, Front(refs));
      LookupIsScan(v.interfaces, Last(refs));
      if Last(refs) in Index(v.interfaces) {
        OnePair(bridge, Index(v.interfaces)[Last(refs)]);
      } else {
        assert WithBridge(bridge, []) == [];
      }
    }
  }

  lemma {:induction false} JoinPortsIsScan(v: View, bridge: string, refs: seq<string>)
    requires UniqueRows(v)
    ensures JoinPorts(Index(v.ports), Index(v.interfaces), bridge, refs) == ScanPorts(v, bridge, refs)
  {
    if refs != [] {
      JoinPortsIsScan(v, bridge, Front(refs));
      LookupIsScan(v.ports, Last(refs));
      if Last(refs) in Index(v.ports) {
        var row := Index(v.ports)[Last(refs)];
        OneRow(v, bridge, row);
        JoinInterfacesIsScan(v, bridge, row.columns.interfaces);
      } else {
        assert ScanRows(v, bridge, []) == [];
      }
    }
  }

  /** With unique row UUIDs the indexed join finds the pairs of the nested scan, in its order. */
  lemma {:induction false} IndexedJoinIsScan(v: View, bridges: seq<Bridge>)
    requires UniqueRows(v)
    ensures Join(Index(v.ports), Index(v.interfaces), bridges) == Scan(v, bridges)
  {
    if bridges != [] {
      IndexedJoinIsScan(v, Front(bridges));
      JoinPortsIsScan(v, Last(bridges).name, Last(bridges).ports);
    }
  }

  // ------------------------------------------------------------------ how often an interface is observed

  function Count(refs: seq<string>, uuid: string): nat {
    if refs == [] then 0 else Count(Front(refs), uuid) + (if Last(refs) == uuid then 1 else 0)
  }

  /** How many pairs hold the interface. */
  function Times(pairs: seq<Pair>, uuid: string): nat {
    if pairs == [] then 0 else Times(Front(pairs), uuid) + (if Last(pairs).iface.uuid == uuid then 1 else 0)
  }

  function PortRefs(bridges: seq<Bridge>): seq<string> {
    if bridges == [] then [] else PortRefs(Front(bridges)) + Last(bridges).ports
  }

  function InterfaceRefs(ports: seq<Row<Port>>): seq<string> {
    if ports == [] then [] else InterfaceRefs(Front(ports)) + Last(ports).columns.interfaces
  }

  /** Every path: a reference to a port row, then a reference of that row to the interface. */
  function Paths(ports: seq<Row<Port>>, refs: seq<string>, uuid: string): nat {
    if ports == [] then 0
    else Paths(Front(ports), refs, uuid) + Count(refs, Last(ports).uuid) * Count(Last(ports).columns.interfaces, uuid)
  }

  lemma {:induction false} TimesAppend(a: seq<Pair>, b: seq<Pair>, uuid: string)
    ensures Times(a + b, uuid) == Times(a, uuid) + Times(b, uuid)
  {
    if b == [] {
      assert a + b == a;
    } else {
      TimesAppend(a, Front(b), uuid);
      FrontLast(b);
      Assoc(a, Front(b), [Last(b)]);
      Snoc(a + Front(b), Last(b));
    }
  }

  lemma {:induction false} CountAppend(a: seq<string>, b: seq<string>, uuid: string)
    ensures Count(a + b, uuid) == Count(a, uuid) + Count(b, uuid)
  {
    if b == [] {
      assert a + b == a;
    } else {
      CountAppend(a, Front(b), uuid);
      FrontLast(b);
      Assoc(a, Front(b), [Last(b)]);
      Snoc(a + Front(b), Last(b));
    }
  }

  lemma {:induction false} NamedHasName<T>(rows: seq<Row<T>>, uuid: string)
    ensures forall row :: row in Named(rows, uuid) ==> row.uuid == uuid && row in rows
  {
    if rows != [] {
      NamedHasName(Front(rows), uuid);
    }
  }

  lemma {:induction false} TimesOfNamed(bridge: string, rows: seq<Row<Interface>>, name: string, uuid: string)
    requires forall row :: row in rows ==> row.uuid == name
    ensures Times(WithBridge(bridge, rows), uuid) == if name == uuid then |rows| else 0
  {
    if rows != [] {
      TimesOfNamed(bridge, Front(rows), name, uuid);
      assert Last(rows) in rows;
      Snoc(WithBridge(bridge, Front(rows)), Pair(bridge, Last(rows)));
    }
  }

  /** The table has |Named(v.interfaces, uuid)| rows to show for one reference: one, or none when
      the reference dangles. */
  lemma {:induction false} TimesOfInterfaces(v: View, bridge: string, refs: seq<string>, uuid: string)
    ensures Times(ScanInterfaces(v, bridge, refs), uuid) == Count(refs, uuid) * |Named(v.interfaces, uuid)|
  {
    if refs != [] {
      var rows := Named(v.interfaces, Last(refs));
      TimesOfInterfaces(v, bridge, Front(refs), uuid);
      NamedHasName(v.interfaces, Last(refs));
      TimesOfNamed(bridge, rows, Last(refs), uuid);
      TimesAppend(ScanInterfaces(v, bridge, Front(refs)), WithBridge(bridge, rows), uuid);
      OneMore(Count(Front(refs), uuid), |Named(v.interfaces, uuid)|, if Last(refs) == uuid then 1 else 0);
    }
  }

  lemma {:induction false} TimesOfRows(v: View, bridge: string, rows: seq<Row<Port>>, uuid: string)
    ensures Times(ScanRows(v, bridge, rows), uuid)
         == Count(InterfaceRefs(rows), uuid) * |Named(v.interfaces, uuid)|
  {
    if rows != [] {
      var refs := Last(rows).columns.interfaces;
      TimesOfRows(v, bridge, Front(rows), uuid);
      TimesOfInterfaces(v, bridge, refs, uuid);
      TimesAppend(ScanRows(v, bridge, Front(rows)), ScanInterfaces(v, bridge, refs), uuid);
      CountAppend(InterfaceRefs(Front(rows)), refs, uuid);
      Distribute(Count(InterfaceRefs(Front(rows)), uuid), Count(refs, uuid), |Named(v.interfaces, uuid)|);
    }
  }

  lemma NoPaths(ports: seq<Row<Port>>, uuid: string)
    ensures Paths(ports, [], uuid) == 0
  {
  }

  lemma OneMore(a: nat, b: nat, one: nat)
    requires one == 0 || one == 1
    ensures (a + one) * b == a * b + (if one == 1 then b else 0)
  {
  }

  /** One more reference adds the paths through the rows that it names. */
  lemma {:induction false} OneMoreReference(ports: seq<Row<Port>>, refs: seq<string>, uuid: string)
    requires refs != []
    ensures Paths(ports, refs, uuid)
         == Paths(ports, Front(refs), uuid) + Count(InterfaceRefs(Named(ports, Last(refs))), uuid)
  {
    if ports != [] {
      var row := Last(ports);
      OneMoreReference(Front(ports), refs, uuid);
      OneMore(
        Count(Front(refs), row.uuid), Count(row.columns.interfaces, uuid), if Last(refs) == row.uuid then 1 else 0);
      if row.uuid == Last(refs) {
        var before := Named(Front(ports), Last(refs));
        Snoc(before, row);
        CountAppend(InterfaceRefs(before), row.columns.interfaces, uuid);
      }
    }
  }

  lemma {:induction false} TimesOfPorts(v: View, bridge: string, refs: seq<string>, uuid: string)
    ensures Times(ScanPorts(v, bridge, refs), uuid) == Paths(v.ports, refs, uuid) * |Named(v.interfaces, uuid)|
  {
    if refs == [] {
      NoPaths(v.ports, uuid);
    } else {
      var rows := Named(v.ports, Last(refs));
      TimesOfPorts(v, bridge, Front(refs), uuid);
      TimesOfRows(v, bridge, rows, uuid);
      TimesAppend(ScanPorts(v, bridge, Front(refs)), ScanRows(v, bridge, rows), uuid);
      OneMoreReference(v.ports, refs, uuid);
      Distribute(
        Paths(v.ports, Front(refs), uuid), Count(InterfaceRefs(rows), uuid), |Named(v.interfaces, uuid)|);
    }
  }

  lemma {:induction false} PathsAppend(ports: seq<Row<Port>>, a: seq<string>, b: seq<string>, uuid: string)
    ensures Paths(ports, a + b, uuid) == Paths(ports, a, uuid) + Paths(ports, b, uuid)
  {
    if ports != [] {
      var row := Last(ports);
      PathsAppend(Front(ports), a, b, uuid);
      CountAppend(a, b, row.uuid);
      Distribute(Count(a, row.uuid), Count(b, row.uuid), Count(row.columns.interfaces, uuid));
    }
  }

  lemma Distribute(a: nat, b: nat, c: nat)
    ensures (a + b) * c == a * c + b * c
  {
  }

  /** A row of the Interface table is observed once for every path to it, from whichever bridge;
      a UUID that the table does not hold is never observed. */
  lemma {:induction false} ObservedOncePerPath(v: View, bridges: seq<Bridge>, uuid: string)
    ensures Times(Scan(v, bridges), uuid)
         == Paths(v.ports, PortRefs(bridges), uuid) * |Named(v.interfaces, uuid)|
  {
    if bridges == [] {
      NoPaths(v.ports, uuid);
    } else {
      var b := Last(bridges);
      ObservedOncePerPath(v, Front(bridges), uuid);
      TimesOfPorts(v, b.name, b.ports, uuid);
      TimesAppend(Scan(v, Front(bridges)), ScanPorts(v, b.name, b.ports), uuid);
      PathsAppend(v.ports, PortRefs(Front(bridges)), b.ports, uuid);
      Distribute(
        Paths(v.ports, PortRefs(Front(bridges)), uuid), Paths(v.ports, b.ports, uuid), |Named(v.interfaces, uuid)|);
    }
  }

  /** Every port row is referenced exactly once. */
  ghost predicate PortsPartitioned(ports: seq<Row<Port>>, refs: seq<string>) {
    forall row :: row in ports ==> Count(refs, row.uuid) == 1
  }

  lemma {:induction false} PathsOfPartition(ports: seq<Row<Port>>, refs: seq<string>, uuid: string)
    requires PortsPartitioned(ports, refs)
    ensures Paths(ports, refs, uuid) == Count(InterfaceRefs(ports), uuid)
  {
    if ports != [] {
      assert Last(ports) in ports;
      assert PortsPartitioned(Front(ports), refs);
      PathsOfPartition(Front(ports), refs, uuid);
      CountAppend(InterfaceRefs(Front(ports)), Last(ports).columns.interfaces, uuid);
    }
  }

  lemma ObservedThroughPartition(v: View, uuid: string)
    requires |Named(v.interfaces, uuid)| == 1 && PortsPartitioned(v.ports, PortRefs(v.bridges))
    ensures Times(Scan(v, v.bridges), uuid) == Count(InterfaceRefs(v.ports), uuid)
  {
    ObservedOncePerPath(v, v.bridges, uuid);
    PathsOfPartition(v.ports, PortRefs(v.bridges), uuid);
    var paths := Paths(v.ports, PortRefs(v.bridges), uuid);
    assert paths * 1 == paths;
  }

  lemma {:induction false} TableRow(rows: seq<Row<Interface>>, i: nat)
    requires Unique(rows) && i < |rows|
    ensures Named(rows, rows[i].uuid) == [rows[i]]
  {
    if i < |rows| - 1 {
      UniqueFront(rows);
      assert Front(rows)[i] == rows[i];
      TableRow(Front(rows), i);
    } else {
      UniqueFront(rows);
      Absent(Front(rows), rows[i].uuid);
      assert [] + [Last(rows)] == [Last(rows)];
    }
  }

  /** When the bridges partition the port rows, an interface is observed exactly once if and only
      if the port rows refer to it exactly once. */
  lemma ObservedExactlyOnce(v: View, i: nat)
    requires UniqueRows(v) && i < |v.interfaces|
    requires PortsPartitioned(v.ports, PortRefs(v.bridges))
    ensures Times(Scan(v, v.bridges), v.interfaces[i].uuid) == 1
       <==> Count(InterfaceRefs(v.ports), v.interfaces[i].uuid) == 1
  {
    TableRow(v.interfaces, i);
    ObservedThroughPartition(v, v.interfaces[i].uuid);
  }
}
