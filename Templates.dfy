/** The sample circuits offered in the editor, and the one of them that is
    returned already wired. */
module Templates {
  import opened Base
  import opened Circuit
  import opened ComponentUtils

  /** The clock reading and random number one `createComponent` call uses. */
  datatype Stamp = Stamp(now: string, random: string)

  datatype Template = Template(
    id: string, name: string, description: string,
    components: seq<Component>, wires: seq<Wire>)

  const SimpleLedId := "simple-led"
  const TemplateIds := [SimpleLedId, "voltage-divider", "rc-filter", "transistor-switch"]

  /** `createComponent` with the `k`-th clock reading and random number. */
  function Make(kind: Kind, x: real, y: real, value: string, stamp: nat -> Stamp, k: nat): Component {
    CreateComponent(kind, x, y, value, stamp(k).now, stamp(k).random)
  }

  /** The table of templates, in menu order, none of them wired. The
      component ids come from the clock and random readings `stamp(0)`,
      `stamp(1)`, ... taken when the table is built. */
  function Table(stamp: nat -> Stamp): seq<Template> {
    [SimpleLed(stamp), VoltageDivider(stamp), RcFilter(stamp), TransistorSwitch(stamp)]
  }

  function SimpleLed(stamp: nat -> Stamp): Template {
    Template(SimpleLedId, "Simple LED Circuit", "Basic LED with resistor and battery",
      [ Make(Battery, 300.0, 200.0, "9V", stamp, 0),
        Make(Resistor, 400.0, 200.0, "220\U{03A9}", stamp, 1),
        Make(Led, 500.0, 200.0, "", stamp, 2),
        Make(Ground, 300.0, 300.0, "", stamp, 3) ], [])
  }

  function VoltageDivider(stamp: nat -> Stamp): Template {
    Template(TemplateIds[1], "Voltage Divider", "Two resistors in series with voltage source",
      [ Make(Battery, 300.0, 200.0, "12V", stamp, 4),
        Make(Resistor, 400.0, 200.0, "1k\U{03A9}", stamp, 5),
        Make(Resistor, 500.0, 200.0, "1k\U{03A9}", stamp, 6),
        Make(Ground, 300.0, 300.0, "", stamp, 7) ], [])
  }

  function RcFilter(stamp: nat -> Stamp): Template {
    Template(TemplateIds[2], "RC Low-Pass Filter", "Simple RC filter circuit",
      [ Make(AcSource, 300.0, 200.0, "5V", stamp, 8),
        Make(Resistor, 400.0, 200.0, "1k\U{03A9}", stamp, 9),
        Make(Capacitor, 500.0, 250.0, "100\U{00B5}F", stamp, 10),
        Make(Ground, 500.0, 350.0, "", stamp, 11) ], [])
  }

  function TransistorSwitch(stamp: nat -> Stamp): Template {
    Template(TemplateIds[3], "Transistor Switch", "NPN transistor as a switch",
      [ Make(Battery, 300.0, 200.0, "9V", stamp, 12),
        Make(TransistorNpn, 400.0, 250.0, "", stamp, 13),
        Make(Resistor, 350.0, 250.0, "10k\U{03A9}", stamp, 14),
        Make(Led, 400.0, 150.0, "", stamp, 15),
        Make(Resistor, 400.0, 350.0, "220\U{03A9}", stamp, 16),
        Make(Ground, 300.0, 400.0, "", stamp, 17) ], [])
  }

  /** `templates.find(t => t.id === id)`: the first template with that id. */
  function Find(ts: seq<Template>, id: string): (r: Option<Template>)
    ensures r.None? <==> forall t :: t in ts ==> t.id != id
    ensures r.Some? ==> exists i :: (0 <= i < |ts| && ts[i] == r.value && r.value.id == id &&
      forall j :: 0 <= j < i ==> ts[j].id != id)
  {
    if ts == [] then None
    else if ts[0].id == id then Some(ts[0])
    else
      var r := Find(ts[1..], id);
      if r.Some? then
        var i :| 0 <= i < |ts[1..]| && ts[1..][i] == r.value && r.value.id == id &&
          forall j :: 0 <= j < i ==> ts[1..][j].id != id;
        assert ts[i + 1] == r.value;
        assert forall j :: 0 <= j < i + 1 ==> ts[j].id != id by {
          forall j | 0 <= j < i + 1 ensures ts[j].id != id {
            if j > 0 { assert ts[j] == ts[1..][j - 1]; }
          }
        }
        r
      else
        r
  }

  /** The four parts the wiring takes, with the terminals it uses. */
  predicate SimpleLedShape(cs: seq<Component>) {
    |cs| == 4 && |cs[0].terminals| >= 2 && |cs[1].terminals| >= 2 &&
    |cs[2].terminals| >= 2 && |cs[3].terminals| >= 1
  }

  /** `wire-${Date.now()}-${suffix}`. */
  function WireId(now: string, suffix: char): string {
    "wire-" + now + "-" + [suffix]
  }

  function Link(a: Component, i: nat, b: Component, j: nat): (Endpoint, Endpoint)
    requires i < |a.terminals| && j < |b.terminals|
  {
    (Endpoint(a.id, a.terminals[i].id), Endpoint(b.id, b.terminals[j].id))
  }

  /** The wires of the LED sample, in push order: battery + to the resistor,
      the resistor to the LED, the LED to ground, ground to battery -. Wire
      `k` takes its id from the clock reading `clock(k)`. */
  function SimpleLedWires(cs: seq<Component>, clock: nat -> string): seq<Wire>
    requires SimpleLedShape(cs)
  {
    var battery, resistor, led, ground := cs[0], cs[1], cs[2], cs[3];
    var l1, l2 := Link(battery, 1, resistor, 0), Link(resistor, 1, led, 0);
    var l3, l4 := Link(led, 1, ground, 0), Link(ground, 0, battery, 0);
    [ Wire(WireId(clock(1), '1'), l1.0, l1.1,
        [Point(battery.pos.x + 40.0, battery.pos.y), Point(resistor.pos.x - 40.0, resistor.pos.y)]),
      Wire(WireId(clock(2), '2'), l2.0, l2.1,
        [Point(resistor.pos.x + 40.0, resistor.pos.y), Point(led.pos.x - 40.0, led.pos.y)]),
      Wire(WireId(clock(3), '3'), l3.0, l3.1,
        [Point(led.pos.x + 40.0, led.pos.y), Point(led.pos.x + 40.0, ground.pos.y - 20.0),
         Point(ground.pos.x, ground.pos.y - 20.0)]),
      Wire(WireId(clock(4), '4'), l4.0, l4.1,
        [Point(ground.pos.x, ground.pos.y - 20.0), Point(battery.pos.x - 40.0, ground.pos.y - 20.0),
         Point(battery.pos.x - 40.0, battery.pos.y)]) ]
  }

  /** The template's ids are the four listed, each once. */
  lemma TableIds(stamp: nat -> Stamp)
    ensures |Table(stamp)| == |TemplateIds|
    ensures forall i :: 0 <= i < |TemplateIds| ==> Table(stamp)[i].id == TemplateIds[i]
    ensures forall i, j :: 0 <= i < j < |TemplateIds| ==> TemplateIds[i] != TemplateIds[j]
  {
    IdsDistinct();
    var t := Table(stamp);
    assert t[0].id == TemplateIds[0] && t[1].id == TemplateIds[1];
    assert t[2].id == TemplateIds[2] && t[3].id == TemplateIds[3];
  }

  /** No template in the table has wires. */
  lemma TableUnwired(stamp: nat -> Stamp)
    ensures forall t :: t in Table(stamp) ==> t.wires == []
  {
    var t := Table(stamp);
    assert t[0].wires == [] && t[1].wires == [] && t[2].wires == [] && t[3].wires == [];
  }

  lemma IdsDistinct()
    ensures forall i, j :: 0 <= i < j < |TemplateIds| ==> TemplateIds[i] != TemplateIds[j]
  {
    assert TemplateIds[0][0] == 's' && TemplateIds[1][0] == 'v';
    assert TemplateIds[2][0] == 'r' && TemplateIds[3][0] == 't';
  }

  /** The LED sample's parts are a battery, a resistor, an LED and a ground,
      with two, two, two and one terminals, distinct ids, and distinct
      terminal ids within each part. */
  lemma SimpleLedParts(stamp: nat -> Stamp)
    ensures var cs := Table(stamp)[0].components;
      SimpleLedShape(cs) &&
      cs[0].kind == Battery && cs[1].kind == Resistor && cs[2].kind == Led && cs[3].kind == Ground &&
      |cs[0].terminals| == 2 && |cs[1].terminals| == 2 && |cs[2].terminals| == 2 && |cs[3].terminals| == 1 &&
      cs[0].id[0] == 'b' && cs[1].id[0] == 'r' && cs[2].id[0] == 'l' && cs[3].id[0] == 'g' &&
      cs[0].terminals[0].id != cs[0].terminals[1].id &&
      cs[1].terminals[0].id != cs[1].terminals[1].id &&
      cs[2].terminals[0].id != cs[2].terminals[1].id
  {
    var cs := Table(stamp)[0].components;
    assert KindName(Battery) + "-" <= cs[0].id;
    assert KindName(Resistor) + "-" <= cs[1].id;
    assert KindName(Led) + "-" <= cs[2].id;
    assert KindName(Ground) + "-" <= cs[3].id;
  }

  /** `getTemplateWithWires(id)`: nothing for an unknown id; otherwise the
      template with copies of its components and, for the LED sample only,
      four wires pushed one after another. */
  method GetTemplateWithWires(templateId: string, stamp: nat -> Stamp, clock: nat -> string)
    returns (r: Option<Template>)
    ensures r.None? <==> templateId !in TemplateIds
    ensures r.Some? ==> r.value.id == templateId && r.value.(wires := []) in Table(stamp)
    ensures r.Some? && templateId == SimpleLedId ==>
      r.value.components == Table(stamp)[0].components &&
      SimpleLedShape(r.value.components) && r.value.wires == SimpleLedWires(r.value.components, clock)
    ensures r.Some? && templateId != SimpleLedId ==> r.value.wires == []
  {
    TableIds(stamp);
    TableUnwired(stamp);
    SimpleLedParts(stamp);
    r := Lookup(Table(stamp), templateId, clock);
  }

  /** The lookup and wiring over any table laid out as the templates are. */
  method Lookup(table: seq<Template>, templateId: string, clock: nat -> string) returns (r: Option<Template>)
    requires |table| == |TemplateIds|
    requires forall i :: 0 <= i < |TemplateIds| ==> table[i].id == TemplateIds[i]
    requires forall t :: t in table ==> t.wires == []
    requires SimpleLedShape(table[0].components)
    ensures r.None? <==> templateId !in TemplateIds
    ensures r.Some? ==> r.value.id == templateId && r.value.(wires := []) in table
    ensures r.Some? && templateId == SimpleLedId ==>
      r.value.components == table[0].components &&
      SimpleLedShape(r.value.components) && r.value.wires == SimpleLedWires(r.value.components, clock)
    ensures r.Some? && templateId != SimpleLedId ==> r.value.wires == []
  {
    IdsDistinct();
    var found := Find(table, templateId);
    if found.None? {
      assert templateId !in TemplateIds by {
        forall i | 0 <= i < |TemplateIds|
          ensures TemplateIds[i] != templateId
        {
          assert table[i] in table;
        }
      }
      return None;
    }
    var template := found.value;
    var cloned := template.(components := template.components);
    var wires: seq<Wire> := [];
    if templateId == SimpleLedId {
      assert template == table[0] by {
        var i :| 0 <= i < |table| && table[i] == template && template.id == templateId;
        assert TemplateIds[i] == TemplateIds[0];
      }
      wires := WireSimpleLed(cloned.components, clock);
    }
    r := Some(cloned.(wires := wires));
    assert template in table && template.id == templateId;
  }

  /** The four pushes of the LED sample's wiring. */
  method WireSimpleLed(cs: seq<Component>, clock: nat -> string) returns (wires: seq<Wire>)
    requires SimpleLedShape(cs)
    ensures wires == SimpleLedWires(cs, clock)
  {
    var battery, resistor, led, ground := cs[0], cs[1], cs[2], cs[3];
    wires := [];
    wires := wires + [Wire(WireId(clock(1), '1'),
      Endpoint(battery.id, battery.terminals[1].id), Endpoint(resistor.id, resistor.terminals[0].id),
      [Point(battery.pos.x + 40.0, battery.pos.y), Point(resistor.pos.x - 40.0, resistor.pos.y)])];
    wires := wires + [Wire(WireId(clock(2), '2'),
      Endpoint(resistor.id, resistor.terminals[1].id), Endpoint(led.id, led.terminals[0].id),
      [Point(resistor.pos.x + 40.0, resistor.pos.y), Point(led.pos.x - 40.0, led.pos.y)])];
    wires := wires + [Wire(WireId(clock(3), '3'),
      Endpoint(led.id, led.terminals[1].id), Endpoint(ground.id, ground.terminals[0].id),
      [Point(led.pos.x + 40.0, led.pos.y), Point(led.pos.x + 40.0, ground.pos.y - 20.0),
       Point(ground.pos.x, ground.pos.y - 20.0)])];
    wires := wires + [Wire(WireId(clock(4), '4'),
      Endpoint(ground.id, ground.terminals[0].id), Endpoint(battery.id, battery.terminals[0].id),
      [Point(ground.pos.x, ground.pos.y - 20.0), Point(battery.pos.x - 40.0, ground.pos.y - 20.0),
       Point(battery.pos.x - 40.0, battery.pos.y)])];
  }
}

/** The LED sample run through the simulator's terminal map. */
module TemplatesProps {
  import opened Base
  import opened Circuit
  import opened NodeMap
  import opened Templates

  /** Battery -, LED T2 and ground. */
  function NodeA(cs: seq<Component>): set<Key>
    requires SimpleLedShape(cs)
  {
    {TerminalKey(cs[0], 0), TerminalKey(cs[2], 1), TerminalKey(cs[3], 0)}
  }

  /** Battery + and resistor T1. */
  function NodeB(cs: seq<Component>): set<Key>
    requires SimpleLedShape(cs)
  {
    {TerminalKey(cs[0], 1), TerminalKey(cs[1], 0)}
  }

  /** Resistor T2 and LED T1. */
  function NodeC(cs: seq<Component>): set<Key>
    requires SimpleLedShape(cs)
  {
    {TerminalKey(cs[1], 1), TerminalKey(cs[2], 0)}
  }

  /** The four parts have their usual terminals, distinct ids, and
      distinct terminal ids within each part. */
  predicate Separate(cs: seq<Component>) {
    SimpleLedShape(cs) &&
    |cs[0].terminals| == 2 && |cs[1].terminals| == 2 && |cs[2].terminals| == 2 && |cs[3].terminals| == 1 &&
    cs[0].id != cs[1].id && cs[0].id != cs[2].id && cs[0].id != cs[3].id &&
    cs[1].id != cs[2].id && cs[1].id != cs[3].id && cs[2].id != cs[3].id &&
    cs[0].terminals[0].id != cs[0].terminals[1].id &&
    cs[1].terminals[0].id != cs[1].terminals[1].id &&
    cs[2].terminals[0].id != cs[2].terminals[1].id
  }

  /** The sample's parts are separate. */
  lemma TableSeparate(stamp: nat -> Stamp)
    ensures Separate(Table(stamp)[0].components)
  {
    SimpleLedParts(stamp);
  }

  /** The four wire ids differ for any clock readings: their last
      characters differ. */
  lemma WireIdsDistinct(cs: seq<Component>, clock: nat -> string)
    requires SimpleLedShape(cs)
    ensures |SimpleLedWires(cs, clock)| == 4
    ensures forall i, j :: 0 <= i < j < 4 ==> SimpleLedWires(cs, clock)[i].id != SimpleLedWires(cs, clock)[j].id
  {
    var ws := SimpleLedWires(cs, clock);
    forall i, j | 0 <= i < j < 4
      ensures ws[i].id != ws[j].id
    {
      var a, b := ws[i].id, ws[j].id;
      assert a[|a| - 1] == "1234"[i] && b[|b| - 1] == "1234"[j];
    }
  }

  /** The terminal keys of the sample are the seven of the three nodes. */
  lemma SampleKeys(cs: seq<Component>)
    requires Separate(cs)
    ensures AllKeys(cs) == NodeA(cs) + NodeB(cs) + NodeC(cs)
  {
    var c0, c1, c2, c3 := ComponentKeys(cs[0]), ComponentKeys(cs[1]), ComponentKeys(cs[2]), ComponentKeys(cs[3]);
    assert cs[..1][..0] == [] && cs[..2][..1] == cs[..1] && cs[..3][..2] == cs[..2] && cs[..3] == cs[..|cs| - 1];
    assert FlatKeys(cs[..1]) == c0;
    assert FlatKeys(cs[..2]) == c0 + c1;
    assert FlatKeys(cs[..3]) == c0 + c1 + c2;
    assert FlatKeys(cs) == c0 + c1 + c2 + c3;
    assert c0 == [TerminalKey(cs[0], 0), TerminalKey(cs[0], 1)];
    assert c1 == [TerminalKey(cs[1], 0), TerminalKey(cs[1], 1)];
    assert c2 == [TerminalKey(cs[2], 0), TerminalKey(cs[2], 1)];
    assert c3 == [TerminalKey(cs[3], 0)];
  }

  /** Where the four wires of the sample run, terminal to terminal. */
  lemma SampleWires(cs: seq<Component>, clock: nat -> string)
    requires SimpleLedShape(cs)
    ensures var ws := SimpleLedWires(cs, clock);
      |ws| == 4 &&
      EndpointKey(ws[0].from) == TerminalKey(cs[0], 1) && EndpointKey(ws[0].to) == TerminalKey(cs[1], 0) &&
      EndpointKey(ws[1].from) == TerminalKey(cs[1], 1) && EndpointKey(ws[1].to) == TerminalKey(cs[2], 0) &&
      EndpointKey(ws[2].from) == TerminalKey(cs[2], 1) && EndpointKey(ws[2].to) == TerminalKey(cs[3], 0) &&
      EndpointKey(ws[3].from) == TerminalKey(cs[3], 0) && EndpointKey(ws[3].to) == TerminalKey(cs[0], 0)
  {
  }

  /** The seven terminal keys of separate parts differ. */
  lemma SampleKeysDistinct(cs: seq<Component>)
    requires Separate(cs)
    ensures Distinct([TerminalKey(cs[0], 0), TerminalKey(cs[0], 1), TerminalKey(cs[1], 0), TerminalKey(cs[1], 1),
      TerminalKey(cs[2], 0), TerminalKey(cs[2], 1), TerminalKey(cs[3], 0)])
  {
  }

  /** Seven distinct terminals wired as the sample is: battery + (`b1`) to
      resistor T1 (`r0`), resistor T2 (`r1`) to LED T1 (`l0`), LED T2 (`l1`)
      to ground (`g0`), ground to battery - (`b0`). */
  ghost predicate Wiring(keys: set<Key>, ws: seq<Wire>, b0: Key, b1: Key, r0: Key, r1: Key, l0: Key, l1: Key, g0: Key) {
    keys == {b0, b1, r0, r1, l0, l1, g0} && Distinct([b0, b1, r0, r1, l0, l1, g0]) && |ws| == 4 &&
    EndpointKey(ws[0].from) == b1 && EndpointKey(ws[0].to) == r0 &&
    EndpointKey(ws[1].from) == r1 && EndpointKey(ws[1].to) == l0 &&
    EndpointKey(ws[2].from) == l1 && EndpointKey(ws[2].to) == g0 &&
    EndpointKey(ws[3].from) == g0 && EndpointKey(ws[3].to) == b0
  }

  /** No wire leaves any of the three intended nodes. */
  lemma WiringClosed(keys: set<Key>, ws: seq<Wire>, b0: Key, b1: Key, r0: Key, r1: Key, l0: Key, l1: Key, g0: Key, s: set<Key>)
    requires Wiring(keys, ws, b0, b1, r0, r1, l0, l1, g0)
    requires s == {b0, l1, g0} || s == {b1, r0} || s == {r1, l0}
    ensures forall w :: w in ws && Joins(keys, w) ==> (EndpointKey(w.from) in s <==> EndpointKey(w.to) in s)
  {
    var ks := [b0, b1, r0, r1, l0, l1, g0];
    assert ks[0] != ks[1] && ks[0] != ks[2] && ks[0] != ks[3] && ks[0] != ks[4] && ks[0] != ks[5] && ks[0] != ks[6];
    assert ks[1] != ks[2] && ks[1] != ks[3] && ks[1] != ks[4] && ks[1] != ks[5] && ks[1] != ks[6];
    assert ks[2] != ks[3] && ks[2] != ks[4] && ks[2] != ks[5] && ks[2] != ks[6];
    assert ks[3] != ks[4] && ks[3] != ks[5] && ks[3] != ks[6];
    assert ks[4] != ks[5] && ks[4] != ks[6] && ks[5] != ks[6];
    forall w | w in ws && Joins(keys, w)
      ensures EndpointKey(w.from) in s <==> EndpointKey(w.to) in s
    {
      var i :| 0 <= i < 4 && ws[i] == w;
    }
  }

  /** A set no wire leaves, all reachable from its member `k`, is the node
      of each of its members. */
  lemma NodeIs(keys: set<Key>, ws: seq<Wire>, s: set<Key>, k: Key)
    requires k in s && s <= keys
    requires forall w :: w in ws && Joins(keys, w) ==> (EndpointKey(w.from) in s <==> EndpointKey(w.to) in s)
    requires forall j :: j in s ==> Connected(keys, ws, k, j)
    ensures forall j :: j in s ==> Class(keys, ws, j) == s
  {
    ClosedSetHoldsClass(keys, ws, s, k);
    assert Class(keys, ws, k) == s;
    forall j | j in s
      ensures Class(keys, ws, j) == s
    {
      ClassPartition(keys, ws, k, j);
    }
  }

  /** Battery -, LED T2 and ground form one node. */
  lemma WiringNodeA(keys: set<Key>, ws: seq<Wire>, b0: Key, b1: Key, r0: Key, r1: Key, l0: Key, l1: Key, g0: Key, s: set<Key>)
    requires Wiring(keys, ws, b0, b1, r0, r1, l0, l1, g0)
    requires s == {b0, l1, g0}
    ensures forall k :: k in s ==> Class(keys, ws, k) == s
  {
    assert Joins(keys, ws[2]) && Joins(keys, ws[3]);
    WireConnects(keys, ws, ws[2]);
    WireConnects(keys, ws, ws[3]);
    ConnectedRefl(keys, ws, b0);
    ConnectedSym(keys, ws, g0, b0);
    ConnectedSym(keys, ws, l1, g0);
    ConnectedTrans(keys, ws, b0, g0, l1);
    WiringClosed(keys, ws, b0, b1, r0, r1, l0, l1, g0, {b0, l1, g0});
    NodeIs(keys, ws, {b0, l1, g0}, b0);
  }

  /** Battery + and resistor T1 form one node. */
  lemma WiringNodeB(keys: set<Key>, ws: seq<Wire>, b0: Key, b1: Key, r0: Key, r1: Key, l0: Key, l1: Key, g0: Key, s: set<Key>)
    requires Wiring(keys, ws, b0, b1, r0, r1, l0, l1, g0)
    requires s == {b1, r0}
    ensures forall k :: k in s ==> Class(keys, ws, k) == s
  {
    assert Joins(keys, ws[0]);
    WireConnects(keys, ws, ws[0]);
    ConnectedRefl(keys, ws, b1);
    WiringClosed(keys, ws, b0, b1, r0, r1, l0, l1, g0, {b1, r0});
    NodeIs(keys, ws, {b1, r0}, b1);
  }

  /** Resistor T2 and LED T1 form one node. */
  lemma WiringNodeC(keys: set<Key>, ws: seq<Wire>, b0: Key, b1: Key, r0: Key, r1: Key, l0: Key, l1: Key, g0: Key, s: set<Key>)
    requires Wiring(keys, ws, b0, b1, r0, r1, l0, l1, g0)
    requires s == {r1, l0}
    ensures forall k :: k in s ==> Class(keys, ws, k) == s
  {
    assert Joins(keys, ws[1]);
    WireConnects(keys, ws, ws[1]);
    ConnectedRefl(keys, ws, r1);
    WiringClosed(keys, ws, b0, b1, r0, r1, l0, l1, g0, {r1, l0});
    NodeIs(keys, ws, {r1, l0}, r1);
  }

  /** The sample's terminals and wires are wired as `Wiring` describes. */
  lemma SampleWiring(cs: seq<Component>, clock: nat -> string)
    requires Separate(cs)
    ensures Wiring(AllKeys(cs), SimpleLedWires(cs, clock),
      TerminalKey(cs[0], 0), TerminalKey(cs[0], 1), TerminalKey(cs[1], 0), TerminalKey(cs[1], 1),
      TerminalKey(cs[2], 0), TerminalKey(cs[2], 1), TerminalKey(cs[3], 0))
  {
    SampleKeys(cs);
    SampleWires(cs, clock);
    SampleKeysDistinct(cs);
  }

  /** Wiring the sample makes exactly its three nodes: each terminal's node
      is the one it is wired into. */
  lemma ThreeNodes(cs: seq<Component>, clock: nat -> string)
    requires Separate(cs)
    ensures forall k :: k in NodeA(cs) ==> Class(AllKeys(cs), SimpleLedWires(cs, clock), k) == NodeA(cs)
    ensures forall k :: k in NodeB(cs) ==> Class(AllKeys(cs), SimpleLedWires(cs, clock), k) == NodeB(cs)
    ensures forall k :: k in NodeC(cs) ==> Class(AllKeys(cs), SimpleLedWires(cs, clock), k) == NodeC(cs)
  {
    var keys, ws := AllKeys(cs), SimpleLedWires(cs, clock);
    var b0, b1, r0, r1 := TerminalKey(cs[0], 0), TerminalKey(cs[0], 1), TerminalKey(cs[1], 0), TerminalKey(cs[1], 1);
    var l0, l1, g0 := TerminalKey(cs[2], 0), TerminalKey(cs[2], 1), TerminalKey(cs[3], 0);
    SampleWiring(cs, clock);
    WiringNodeA(keys, ws, b0, b1, r0, r1, l0, l1, g0, NodeA(cs));
    WiringNodeB(keys, ws, b0, b1, r0, r1, l0, l1, g0, NodeB(cs));
    WiringNodeC(keys, ws, b0, b1, r0, r1, l0, l1, g0, NodeC(cs));
  }

  /** The wired LED sample through `buildNodeMap`: its seven terminals fall
      into exactly three nodes, pairwise disjoint. */
  method SimpleLedNodeMap(stamp: nat -> Stamp, clock: nat -> string)
    returns (m: map<Key, set<Key>>, order: seq<Key>)
    ensures var cs := Table(stamp)[0].components;
      SimpleLedShape(cs) &&
      m.Keys == NodeA(cs) + NodeB(cs) + NodeC(cs) &&
      (set k | k in m :: m[k]) == {NodeA(cs), NodeB(cs), NodeC(cs)} &&
      NodeA(cs) !! NodeB(cs) && NodeA(cs) !! NodeC(cs) && NodeB(cs) !! NodeC(cs)
  {
    assert SimpleLedId in TemplateIds;
    var t := GetTemplateWithWires(SimpleLedId, stamp, clock);
    var cs, ws := t.value.components, t.value.wires;
    m, order := BuildNodeMap(cs, ws);
    TableSeparate(stamp);
    SampleMap(cs, clock, m);
  }

  /** What the terminal map of the wired sample holds. */
  lemma SampleMap(cs: seq<Component>, clock: nat -> string, m: map<Key, set<Key>>)
    requires Separate(cs)
    requires m.Keys == AllKeys(cs)
    requires forall k :: k in m ==> m[k] == Class(AllKeys(cs), SimpleLedWires(cs, clock), k)
    ensures m.Keys == NodeA(cs) + NodeB(cs) + NodeC(cs)
    ensures (set k | k in m :: m[k]) == {NodeA(cs), NodeB(cs), NodeC(cs)}
    ensures NodeA(cs) !! NodeB(cs) && NodeA(cs) !! NodeC(cs) && NodeB(cs) !! NodeC(cs)
  {
    SampleKeys(cs);
    SampleDisjoint(cs);
    ThreeNodes(cs, clock);
    MapValues(m, NodeA(cs), NodeB(cs), NodeC(cs), TerminalKey(cs[0], 0), TerminalKey(cs[0], 1), TerminalKey(cs[1], 1));
  }

  /** The three nodes share no terminal. */
  lemma SampleDisjoint(cs: seq<Component>)
    requires Separate(cs)
    ensures NodeA(cs) !! NodeB(cs) && NodeA(cs) !! NodeC(cs) && NodeB(cs) !! NodeC(cs)
  {
    SampleKeysDistinct(cs);
    var ks := [TerminalKey(cs[0], 0), TerminalKey(cs[0], 1), TerminalKey(cs[1], 0), TerminalKey(cs[1], 1),
      TerminalKey(cs[2], 0), TerminalKey(cs[2], 1), TerminalKey(cs[3], 0)];
    assert ks[0] != ks[1] && ks[0] != ks[2] && ks[0] != ks[3] && ks[0] != ks[4];
    assert ks[5] != ks[1] && ks[5] != ks[2] && ks[5] != ks[3] && ks[5] != ks[4];
    assert ks[6] != ks[1] && ks[6] != ks[2] && ks[6] != ks[3] && ks[6] != ks[4];
    assert ks[1] != ks[3] && ks[1] != ks[4] && ks[2] != ks[3] && ks[2] != ks[4];
  }

  /** A map whose keys are three sets, each key mapped to its own set, has
      exactly those three sets as values. */
  lemma MapValues(m: map<Key, set<Key>>, a: set<Key>, b: set<Key>, c: set<Key>, ka: Key, kb: Key, kc: Key)
    requires m.Keys == a + b + c && ka in a && kb in b && kc in c
    requires forall k :: k in a ==> m[k] == a
    requires forall k :: k in b ==> m[k] == b
    requires forall k :: k in c ==> m[k] == c
    ensures (set k | k in m :: m[k]) == {a, b, c}
  {
    assert m[ka] == a && m[kb] == b && m[kc] == c;
  }
}
