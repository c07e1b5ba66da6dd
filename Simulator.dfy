/** The DC simulation engine: node numbering, the reference node, source
    voltages, the per-kind current rules, wire currents and the
    diagnostics of `runSimulation`. Each loop of the engine is a method
    proved equal to a specification function; the properties are lemmas
    about those functions. */
module Simulator {
  import opened Base
  import opened Circuit
  import opened Sequences
  import opened NodeMap
  import ComponentUtils

  // ---------------------------------------------------------------------
  // Node numbering: node `n<i>` is entry i of the list of distinct sets
  // ---------------------------------------------------------------------

  /** The node set of every key, in the map's insertion order. */
  function NodeSets(m: map<Key, set<Key>>, order: seq<Key>): (r: seq<set<Key>>)
    requires forall k :: k in order ==> k in m
    ensures |r| == |order|
    ensures forall i :: 0 <= i < |order| ==> r[i] == m[order[i]]
  {
    seq(|order|, i requires 0 <= i < |order| => m[order[i]])
  }

  /** The numbering loop: a set gets the next id unless an equal set
      (same size, same members) already has one. */
  method NumberNodes(m: map<Key, set<Key>>, order: seq<Key>) returns (nodes: seq<set<Key>>)
    requires forall k :: k in order ==> k in m
    ensures nodes == Dedup(NodeSets(m, order))
  {
    nodes := [];
    ghost var sets := NodeSets(m, order);
    for i := 0 to |order|
      invariant nodes == Dedup(sets[..i])
    {
      var s := m[order[i]];
      assert sets[..i + 1] == sets[..i] + [s];
      DedupSnoc(sets[..i], s);
      if s !in nodes {
        nodes := nodes + [s];
      }
    }
    assert sets[..|order|] == sets;
  }

  /** Every key's set has exactly one id, and ids follow first appearance. */
  lemma NodesNumberEverySet(m: map<Key, set<Key>>, order: seq<Key>, k: Key)
    requires forall k :: k in order ==> k in m
    requires k in order
    ensures Distinct(Dedup(NodeSets(m, order)))
    ensures m[k] in Dedup(NodeSets(m, order))
    ensures forall s :: s in Dedup(NodeSets(m, order)) ==> exists j :: j in order && m[j] == s
  {
    var sets := NodeSets(m, order);
    var i :| 0 <= i < |order| && order[i] == k;
    assert sets[i] == m[k];
    forall s | s in Dedup(sets)
      ensures exists j :: j in order && m[j] == s
    {
      var i :| 0 <= i < |sets| && sets[i] == s;
      assert order[i] in order && m[order[i]] == s;
    }
  }

  /** `Array.from(uniqueNodes.entries()).find(...)`: the id of an equal set. */
  function FindNode(nodes: seq<set<Key>>, s: set<Key>): (r: Option<nat>)
    ensures r.Some? <==> s in nodes
    ensures r.Some? ==> r.value < |nodes| && nodes[r.value] == s && s !in nodes[..r.value]
  {
    if s in nodes then Some(FirstIndex(nodes, s)) else None
  }

  /** The node of a terminal key: `nodeMap.get` followed by the search. */
  function KeyNode(m: map<Key, set<Key>>, nodes: seq<set<Key>>, k: Key): (r: Option<nat>)
    ensures r.Some? ==> r.value < |nodes|
  {
    if k in m then FindNode(nodes, m[k]) else None
  }

  /** With the numbering of the map itself, every key of the map finds its node. */
  lemma KeyNodeFound(m: map<Key, set<Key>>, order: seq<Key>, k: Key)
    requires forall k :: k in order ==> k in m
    requires k in order
    ensures KeyNode(m, Dedup(NodeSets(m, order)), k).Some?
    ensures Dedup(NodeSets(m, order))[KeyNode(m, Dedup(NodeSets(m, order)), k).value] == m[k]
  {
    NodesNumberEverySet(m, order, k);
  }

  // ---------------------------------------------------------------------
  // The reference node
  // ---------------------------------------------------------------------

  /** `components.filter(c => c.type === 'ground')[0]`. */
  function FirstGround(cs: seq<Component>): (r: Option<Component>)
    ensures r.None? <==> forall c :: c in cs ==> !IsGround(c)
    ensures r.Some? ==> r.value in cs && IsGround(r.value)
  {
    if cs == [] then None
    else if IsGround(cs[0]) then Some(cs[0])
    else FirstGround(cs[1..])
  }

  /** The message of the exception raised when the first ground has no
      terminal (the V8 wording of the TypeError). */
  const UndefinedIdMessage: string := "Cannot read properties of undefined (reading 'id')"

  /** The reference node `n0` unless a ground exists, then the node of the
      first ground's first terminal; `None` is the exception raised when
      that ground has no terminal. */
  function ReferenceNode(cs: seq<Component>, m: map<Key, set<Key>>, nodes: seq<set<Key>>): Option<nat> {
    match FirstGround(cs)
    case None => Some(0)
    case Some(g) =>
      if |g.terminals| == 0 then None
      else match KeyNode(m, nodes, TerminalKey(g, 0))
        case Some(n) => Some(n)
        case None => Some(0)
  }

  /** The reference choice: `n0` without ground, a failure exactly when the
      first ground has no terminal, and otherwise the first ground's node. */
  lemma ReferenceNodeChoice(cs: seq<Component>, m: map<Key, set<Key>>, order: seq<Key>)
    requires forall k :: k in order ==> k in m
    requires forall c, i :: c in cs && 0 <= i < |c.terminals| ==> TerminalKey(c, i) in order
    ensures var nodes := Dedup(NodeSets(m, order));
      var r := ReferenceNode(cs, m, nodes);
      && ((forall c :: c in cs ==> !IsGround(c)) ==> r == Some(0))
      && (r.None? <==> FirstGround(cs).Some? && |FirstGround(cs).value.terminals| == 0)
      && (r.Some? && FirstGround(cs).Some? ==>
            r.value < |nodes| && nodes[r.value] == m[TerminalKey(FirstGround(cs).value, 0)])
  {
    var g := FirstGround(cs);
    if g.Some? && |g.value.terminals| > 0 {
      KeyNodeFound(m, order, TerminalKey(g.value, 0));
    }
  }

  // ---------------------------------------------------------------------
  // Source voltages
  // ---------------------------------------------------------------------

  /** `parseComponentValue(value || '0')`. */
  function SourceValue(c: Component): Num {
    ComponentUtils.ParseComponentValue(if c.props.value == "" then "0" else c.props.value)
  }

  /** The single node write of a source: terminal 0 is negative and
      terminal 1 positive. */
  function SourceWrite(c: Component, m: map<Key, set<Key>>, nodes: seq<set<Key>>, ref: nat): (r: Option<(nat, Num)>)
    ensures r.Some? ==> r.value.0 < |nodes|
  {
    if !IsSource(c) || |c.terminals| < 2 then None
    else
      var v := SourceValue(c);
      match (KeyNode(m, nodes, TerminalKey(c, 1)), KeyNode(m, nodes, TerminalKey(c, 0)))
      case (Some(pos), Some(neg)) =>
        if neg == ref then Some((pos, v))
        else if pos == ref then Some((neg, v.Negated()))
        else Some((pos, v))
      case _ => None
  }

  predicate Writes(c: Component, m: map<Key, set<Key>>, nodes: seq<set<Key>>, ref: nat, n: nat) {
    var w := SourceWrite(c, m, nodes, ref);
    w.Some? && w.value.0 == n
  }

  /** All nodes at 0, then every source's write in component order. */
  function Voltages(cs: seq<Component>, m: map<Key, set<Key>>, nodes: seq<set<Key>>, ref: nat): (v: seq<Num>)
    ensures |v| == |nodes|
  {
    if cs == [] then seq(|nodes|, _ => Finite(0.0))
    else
      var v := Voltages(cs[..|cs| - 1], m, nodes, ref);
      var w := SourceWrite(cs[|cs| - 1], m, nodes, ref);
      if w.Some? then v[w.value.0 := w.value.1] else v
  }

  method ComputeVoltages(cs: seq<Component>, m: map<Key, set<Key>>, nodes: seq<set<Key>>, ref: nat)
    returns (v: seq<Num>)
    ensures v == Voltages(cs, m, nodes, ref)
  {
    v := seq(|nodes|, _ => Finite(0.0));
    for i := 0 to |cs|
      invariant v == Voltages(cs[..i], m, nodes, ref)
    {
      assert cs[..i + 1][..i] == cs[..i];
      var w := SourceWrite(cs[i], m, nodes, ref);
      if w.Some? {
        v := v[w.value.0 := w.value.1];
      }
    }
    assert cs[..|cs|] == cs;
  }

  /** A node no source writes stays at 0. */
  lemma {:induction false} UnwrittenNodeIsZero(cs: seq<Component>, m: map<Key, set<Key>>, nodes: seq<set<Key>>, ref: nat, n: nat)
    requires n < |nodes|
    requires forall i :: 0 <= i < |cs| ==> !Writes(cs[i], m, nodes, ref, n)
    ensures Voltages(cs, m, nodes, ref)[n] == Finite(0.0)
  {
    if cs != [] {
      var init := cs[..|cs| - 1];
      assert !Writes(cs[|cs| - 1], m, nodes, ref, n);
      assert forall i :: 0 <= i < |init| ==> init[i] == cs[i];
      UnwrittenNodeIsZero(init, m, nodes, ref, n);
    }
  }

  /** A written node holds the value of the last source that writes it. */
  lemma {:induction false} LastWriterWins(cs: seq<Component>, m: map<Key, set<Key>>, nodes: seq<set<Key>>, ref: nat, n: nat, i: nat)
    requires i < |cs| && Writes(cs[i], m, nodes, ref, n)
    requires forall j :: i < j < |cs| ==> !Writes(cs[j], m, nodes, ref, n)
    ensures Voltages(cs, m, nodes, ref)[n] == SourceWrite(cs[i], m, nodes, ref).value.1
  {
    var init := cs[..|cs| - 1];
    if i < |cs| - 1 {
      assert !Writes(cs[|cs| - 1], m, nodes, ref, n);
      assert forall j :: 0 <= j < |init| ==> init[j] == cs[j];
      LastWriterWins(init, m, nodes, ref, n, i);
    }
  }

  /** The reference node is written only by a source whose two terminals
      both lie in it, and such a source writes its own value there. */
  lemma ReferenceWrites(c: Component, m: map<Key, set<Key>>, nodes: seq<set<Key>>, ref: nat)
    ensures Writes(c, m, nodes, ref, ref) <==>
      IsSource(c) && |c.terminals| >= 2 &&
      KeyNode(m, nodes, TerminalKey(c, 0)) == Some(ref) &&
      KeyNode(m, nodes, TerminalKey(c, 1)) == Some(ref)
    ensures Writes(c, m, nodes, ref, ref) ==> SourceWrite(c, m, nodes, ref).value.1 == SourceValue(c)
  {
  }

  /** Hence the reference node stays at 0 unless some source is shorted
      onto it. */
  lemma ReferenceStaysZero(cs: seq<Component>, m: map<Key, set<Key>>, nodes: seq<set<Key>>, ref: nat)
    requires ref < |nodes|
    requires forall c :: c in cs && IsSource(c) && |c.terminals| >= 2 ==>
      KeyNode(m, nodes, TerminalKey(c, 0)) != Some(ref) ||
      KeyNode(m, nodes, TerminalKey(c, 1)) != Some(ref)
    ensures Voltages(cs, m, nodes, ref)[ref] == Finite(0.0)
  {
    forall i | 0 <= i < |cs|
      ensures !Writes(cs[i], m, nodes, ref, ref)
    {
      ReferenceWrites(cs[i], m, nodes, ref);
    }
    UnwrittenNodeIsZero(cs, m, nodes, ref, ref);
  }

  /** The three cases of a source write, read off the computed voltages:
      the source `cs[i]` decides the node it writes unless a later source
      writes that node too. */
  lemma SourceWriteRule(cs: seq<Component>, m: map<Key, set<Key>>, nodes: seq<set<Key>>, ref: nat, i: nat, pos: nat, neg: nat)
    requires i < |cs| && IsSource(cs[i]) && |cs[i].terminals| >= 2
    requires KeyNode(m, nodes, TerminalKey(cs[i], 1)) == Some(pos)
    requires KeyNode(m, nodes, TerminalKey(cs[i], 0)) == Some(neg)
    ensures neg == ref && (forall j :: i < j < |cs| ==> !Writes(cs[j], m, nodes, ref, pos)) ==>
      Voltages(cs, m, nodes, ref)[pos] == SourceValue(cs[i])
    ensures neg != ref && pos == ref && (forall j :: i < j < |cs| ==> !Writes(cs[j], m, nodes, ref, neg)) ==>
      Voltages(cs, m, nodes, ref)[neg] == SourceValue(cs[i]).Negated()
    ensures neg != ref && pos != ref && (forall j :: i < j < |cs| ==> !Writes(cs[j], m, nodes, ref, pos)) ==>
      Voltages(cs, m, nodes, ref)[pos] == SourceValue(cs[i])
  {
    if neg != ref && pos == ref {
      if forall j :: i < j < |cs| ==> !Writes(cs[j], m, nodes, ref, neg) {
        LastWriterWins(cs, m, nodes, ref, neg, i);
      }
    } else {
      if forall j :: i < j < |cs| ==> !Writes(cs[j], m, nodes, ref, pos) {
        LastWriterWins(cs, m, nodes, ref, pos, i);
      }
    }
  }

  // ---------------------------------------------------------------------
  // Component currents
  // ---------------------------------------------------------------------

  /** The assumed diode forward drop and series resistance. */
  const ForwardVoltage: real := 0.7
  const DiodeResistance: real := 100.0
  /** The placeholder current of a source. */
  const SourceCurrent: real := 0.1
  /** `1e-10`: smaller currents are not reported. */
  const CurrentFloor: real := 0.0000000001

  /** `parseComponentValue(value || '1k')`. */
  function Resistance(c: Component): Num {
    ComponentUtils.ParseComponentValue(if c.props.value == "" then "1k" else c.props.value)
  }

  /** `resistance > 0 ? voltageDiff / resistance : 0`; NaN fails the test. */
  function ResistorCurrent(r: Num, dv: real): real {
    if r.Finite? && r.value > 0.0 then dv / r.value else 0.0
  }

  /** The per-kind current rule for voltage difference `dv`. */
  function KindCurrent(c: Component, dv: real): real {
    match c.kind
    case Resistor => ResistorCurrent(Resistance(c), dv)
    case Diode => if dv > ForwardVoltage then (dv - ForwardVoltage) / DiodeResistance else 0.0
    case Led => if dv > ForwardVoltage then (dv - ForwardVoltage) / DiodeResistance else 0.0
    case Battery => SourceCurrent
    case AcSource => SourceCurrent
    case _ => 0.0
  }

  /** Ohm's law for a positive resistance; no current otherwise. */
  lemma OhmsLaw(r: Num, dv: real)
    ensures r.Finite? && r.value > 0.0 ==> ResistorCurrent(r, dv) * r.value == dv
    ensures !(r.Finite? && r.value > 0.0) ==> ResistorCurrent(r, dv) == 0.0
  {
  }

  /** Diodes and LEDs conduct one way only, past the 0.7 V drop, through 100 ohms. */
  lemma DiodeLaw(c: Component, dv: real)
    requires c.kind == Diode || c.kind == Led
    ensures KindCurrent(c, dv) >= 0.0
    ensures KindCurrent(c, dv) > 0.0 <==> dv > ForwardVoltage
    ensures dv > ForwardVoltage ==> ForwardVoltage + DiodeResistance * KindCurrent(c, dv) == dv
  {
  }

  /** The current of a component with at least two terminals whose nodes
      are known: the rule applied to V(terminal 1) - V(terminal 0), a
      NaN voltage counting as 0. */
  function Current(c: Component, m: map<Key, set<Key>>, nodes: seq<set<Key>>, v: seq<Num>): Option<real>
    requires |v| == |nodes|
  {
    if |c.terminals| < 2 then None
    else match (KeyNode(m, nodes, TerminalKey(c, 0)), KeyNode(m, nodes, TerminalKey(c, 1)))
      case (Some(n1), Some(n2)) => Some(KindCurrent(c, v[n2].OrZero() - v[n1].OrZero()))
      case _ => None
  }

  /** A current is reported only above the floor. */
  predicate Reported(c: Component, m: map<Key, set<Key>>, nodes: seq<set<Key>>, v: seq<Num>)
    requires |v| == |nodes|
  {
    var i := Current(c, m, nodes, v);
    i.Some? && Abs(i.value) > CurrentFloor
  }

  /** `componentCurrents` after the component loop. */
  function Currents(cs: seq<Component>, m: map<Key, set<Key>>, nodes: seq<set<Key>>, v: seq<Num>): (d: Dict<real>)
    requires |v| == |nodes|
    ensures d.Valid()
  {
    if cs == [] then EmptyDict()
    else
      var d := Currents(cs[..|cs| - 1], m, nodes, v);
      var c := cs[|cs| - 1];
      if Reported(c, m, nodes, v) then d.Put(c.id, Current(c, m, nodes, v).value) else d
  }

  method ComputeCurrents(cs: seq<Component>, m: map<Key, set<Key>>, nodes: seq<set<Key>>, v: seq<Num>)
    returns (d: Dict<real>)
    requires |v| == |nodes|
    ensures d == Currents(cs, m, nodes, v)
  {
    d := EmptyDict();
    for i := 0 to |cs|
      invariant d == Currents(cs[..i], m, nodes, v)
    {
      assert cs[..i + 1][..i] == cs[..i];
      var c := cs[i];
      var current := Current(c, m, nodes, v);
      if current.Some? && Abs(current.value) > CurrentFloor {
        d := d.Put(c.id, current.value);
      }
    }
    assert cs[..|cs|] == cs;
  }

  /** Only components have entries. */
  lemma {:induction false} CurrentsKeys(cs: seq<Component>, m: map<Key, set<Key>>, nodes: seq<set<Key>>, v: seq<Num>)
    requires |v| == |nodes|
    ensures forall k :: k in Currents(cs, m, nodes, v).vals ==> HasComponent(cs, k)
  {
    if cs != [] {
      var init := cs[..|cs| - 1];
      CurrentsKeys(init, m, nodes, v);
      forall k | k in Currents(cs, m, nodes, v).vals
        ensures HasComponent(cs, k)
      {
        if k != cs[|cs| - 1].id {
          assert k in Currents(init, m, nodes, v).vals;
          var c :| c in init && c.id == k;
          assert c in cs;
        } else {
          assert cs[|cs| - 1] in cs;
        }
      }
    }
  }

  /** With distinct component ids, a component has an entry exactly when
      its current is above the floor, and the entry is that current. */
  lemma {:induction false} CurrentEntry(cs: seq<Component>, m: map<Key, set<Key>>, nodes: seq<set<Key>>, v: seq<Num>, i: nat)
    requires |v| == |nodes|
    requires forall i, j :: 0 <= i < j < |cs| ==> cs[i].id != cs[j].id
    requires i < |cs|
    ensures cs[i].id in Currents(cs, m, nodes, v).vals <==> Reported(cs[i], m, nodes, v)
    ensures Reported(cs[i], m, nodes, v) ==>
      Currents(cs, m, nodes, v).vals[cs[i].id] == Current(cs[i], m, nodes, v).value
  {
    if i < |cs| - 1 {
      var init := cs[..|cs| - 1];
      assert init[i] == cs[i];
      assert forall a, b :: 0 <= a < b < |init| ==> init[a] == cs[a] && init[b] == cs[b];
      CurrentEntry(init, m, nodes, v, i);
      assert cs[i].id != cs[|cs| - 1].id;
    } else {
      LastCurrentEntry(cs, m, nodes, v);
    }
  }

  /** The last component's entry: no earlier component shares its id. */
  lemma LastCurrentEntry(cs: seq<Component>, m: map<Key, set<Key>>, nodes: seq<set<Key>>, v: seq<Num>)
    requires |v| == |nodes|
    requires forall i, j :: 0 <= i < j < |cs| ==> cs[i].id != cs[j].id
    requires cs != []
    ensures var last := cs[|cs| - 1];
      (last.id in Currents(cs, m, nodes, v).vals <==> Reported(last, m, nodes, v)) &&
      (Reported(last, m, nodes, v) ==> Currents(cs, m, nodes, v).vals[last.id] == Current(last, m, nodes, v).value)
  {
    var init := cs[..|cs| - 1];
    var last := cs[|cs| - 1];
    CurrentsKeys(init, m, nodes, v);
    forall c | c in init
      ensures c.id != last.id
    {
      var j :| 0 <= j < |init| && init[j] == c;
      assert cs[j] == c;
    }
  }

  /** A source with both nodes known is reported at the fixed 0.1
      placeholder; a kind other than resistor, diode, LED and source never
      has an entry. */
  lemma OtherKindsLaw(cs: seq<Component>, m: map<Key, set<Key>>, nodes: seq<set<Key>>, v: seq<Num>, i: nat)
    requires |v| == |nodes|
    requires forall i, j :: 0 <= i < j < |cs| ==> cs[i].id != cs[j].id
    requires i < |cs| && cs[i].kind != Resistor && cs[i].kind != Diode && cs[i].kind != Led
    ensures IsSource(cs[i]) && Current(cs[i], m, nodes, v).Some? ==>
      cs[i].id in Currents(cs, m, nodes, v).vals && Currents(cs, m, nodes, v).vals[cs[i].id] == SourceCurrent
    ensures !IsSource(cs[i]) ==> cs[i].id !in Currents(cs, m, nodes, v).vals
  {
    CurrentEntry(cs, m, nodes, v, i);
  }

  // ---------------------------------------------------------------------
  // Wire currents
  // ---------------------------------------------------------------------

  predicate HasComponent(cs: seq<Component>, id: string) {
    exists c :: c in cs && c.id == id
  }

  /** One wire: it takes the current of its `from` component when that
      component exists and has a non-zero entry. */
  function MarkWire(cs: seq<Component>, d: Dict<real>, w: Wire): (r: Dict<real>)
    requires d.Valid()
    ensures r.Valid()
  {
    var id := w.from.componentId;
    if HasComponent(cs, id) && id in d.vals && d.vals[id] != 0.0 then d.Put(w.id, d.vals[id]) else d
  }

  function MarkWires(cs: seq<Component>, ws: seq<Wire>, d: Dict<real>): (r: Dict<real>)
    requires d.Valid()
    ensures r.Valid()
  {
    if ws == [] then d else MarkWire(cs, MarkWires(cs, ws[..|ws| - 1], d), ws[|ws| - 1])
  }

  method MarkWireCurrents(cs: seq<Component>, ws: seq<Wire>, d0: Dict<real>) returns (d: Dict<real>)
    requires d0.Valid()
    ensures d == MarkWires(cs, ws, d0)
  {
    d := d0;
    for i := 0 to |ws|
      invariant d == MarkWires(cs, ws[..i], d0)
    {
      assert ws[..i + 1][..i] == ws[..i];
      var w := ws[i];
      var id := w.from.componentId;
      if HasComponent(cs, id) && id in d.vals && d.vals[id] != 0.0 {
        d := d.Put(w.id, d.vals[id]);
      }
    }
    assert ws[..|ws|] == ws;
  }

  /** Marking wires keeps every existing entry and adds entries only
      under wire ids. */
  lemma {:induction false} MarkWiresFrame(cs: seq<Component>, ws: seq<Wire>, d: Dict<real>)
    requires d.Valid()
    ensures forall k :: k in d.vals && (forall w :: w in ws ==> w.id != k) ==>
      k in MarkWires(cs, ws, d).vals && MarkWires(cs, ws, d).vals[k] == d.vals[k]
    ensures forall k :: k in MarkWires(cs, ws, d).vals ==> k in d.vals || exists w :: w in ws && w.id == k
  {
    if ws != [] {
      var init := ws[..|ws| - 1];
      var last := ws[|ws| - 1];
      MarkWiresFrame(cs, init, d);
      var d' := MarkWires(cs, init, d);
      forall k | k in MarkWires(cs, ws, d).vals
        ensures k in d.vals || exists w :: w in ws && w.id == k
      {
        if k != last.id {
          assert k in d'.vals;
          if k !in d.vals {
            var w :| w in init && w.id == k;
            assert w in ws;
          }
        }
      }
      forall k | k in d.vals && (forall w :: w in ws ==> w.id != k)
        ensures k in MarkWires(cs, ws, d).vals && MarkWires(cs, ws, d).vals[k] == d.vals[k]
      {
        assert forall w :: w in init ==> w in ws;
        assert last in ws;
      }
    }
  }

  /** When wire ids are distinct and differ from every component id and
      existing key, each wire whose `from` component exists with a
      non-zero entry gets that same signed value, and other wires get none. */
  lemma {:induction false} WireEntries(cs: seq<Component>, ws: seq<Wire>, d: Dict<real>, i: nat)
    requires d.Valid()
    requires forall i, j :: 0 <= i < j < |ws| ==> ws[i].id != ws[j].id
    requires forall w :: w in ws ==> w.id !in d.vals && !HasComponent(cs, w.id)
    requires i < |ws|
    ensures var id := ws[i].from.componentId;
      (ws[i].id in MarkWires(cs, ws, d).vals <==> HasComponent(cs, id) && id in d.vals && d.vals[id] != 0.0) &&
      (ws[i].id in MarkWires(cs, ws, d).vals ==> MarkWires(cs, ws, d).vals[ws[i].id] == d.vals[id])
  {
    if i < |ws| - 1 {
      var init := ws[..|ws| - 1];
      MarkWiresFrame(cs, init, d);
      assert init[i] == ws[i];
      assert forall a, b :: 0 <= a < b < |init| ==> init[a] == ws[a] && init[b] == ws[b];
      assert forall w :: w in init ==> w in ws;
      WireEntries(cs, init, d, i);
    } else {
      LastWireEntry(cs, ws, d);
    }
  }

  /** The last wire marked: nothing before it used its id or its
      component's id. */
  lemma LastWireEntry(cs: seq<Component>, ws: seq<Wire>, d: Dict<real>)
    requires d.Valid()
    requires forall i, j :: 0 <= i < j < |ws| ==> ws[i].id != ws[j].id
    requires forall w :: w in ws ==> w.id !in d.vals && !HasComponent(cs, w.id)
    requires ws != []
    ensures var last, id := ws[|ws| - 1], ws[|ws| - 1].from.componentId;
      (last.id in MarkWires(cs, ws, d).vals <==> HasComponent(cs, id) && id in d.vals && d.vals[id] != 0.0) &&
      (last.id in MarkWires(cs, ws, d).vals ==> MarkWires(cs, ws, d).vals[last.id] == d.vals[id])
  {
    var init := ws[..|ws| - 1];
    var last := ws[|ws| - 1];
    var d' := MarkWires(cs, init, d);
    MarkWiresFrame(cs, init, d);
    forall w | w in init
      ensures w.id != last.id
    {
      var j :| 0 <= j < |init| && init[j] == w;
      assert ws[j] == w;
    }
    assert last.id !in d'.vals;
    var id := last.from.componentId;
    if HasComponent(cs, id) {
      forall w | w in init
        ensures w.id != id
      {
        assert w in ws;
      }
      assert id in d'.vals <==> id in d.vals;
    }
  }

  // ---------------------------------------------------------------------
  // Warnings
  // ---------------------------------------------------------------------

  const VoltageLimit: real := 1000.0
  const CurrentLimit: real := 100.0

  /** One warning per node above 1000 V in absolute value, in node order. */
  function VoltageWarnings(v: seq<Num>): seq<SimWarning> {
    if v == [] then []
    else
      var n := |v| - 1;
      VoltageWarnings(v[..n]) +
        (if v[n].Finite? && Abs(v[n].value) > VoltageLimit then [HighVoltage(n, v[n].value)] else [])
  }

  /** One warning per entry above 100 A in absolute value, in entry order. */
  function CurrentWarnings(es: seq<(string, real)>): seq<SimWarning> {
    if es == [] then []
    else
      var e := es[|es| - 1];
      CurrentWarnings(es[..|es| - 1]) +
        (if Abs(e.1) > CurrentLimit then [HighCurrent(e.0, e.1)] else [])
  }

  method CheckVoltages(v: seq<Num>) returns (warnings: seq<SimWarning>)
    ensures warnings == VoltageWarnings(v)
  {
    warnings := [];
    for n := 0 to |v|
      invariant warnings == VoltageWarnings(v[..n])
    {
      assert v[..n + 1][..n] == v[..n];
      if v[n].Finite? && Abs(v[n].value) > VoltageLimit {
        warnings := warnings + [HighVoltage(n, v[n].value)];
      }
    }
    assert v[..|v|] == v;
  }

  method CheckCurrents(es: seq<(string, real)>) returns (warnings: seq<SimWarning>)
    ensures warnings == CurrentWarnings(es)
  {
    warnings := [];
    for i := 0 to |es|
      invariant warnings == CurrentWarnings(es[..i])
    {
      assert es[..i + 1][..i] == es[..i];
      if Abs(es[i].1) > CurrentLimit {
        warnings := warnings + [HighCurrent(es[i].0, es[i].1)];
      }
    }
    assert es[..|es|] == es;
  }

  /** A high-voltage warning names exactly a node above the limit, with its voltage. */
  lemma {:induction false} VoltageWarningsExact(v: seq<Num>, n: nat, x: real)
    ensures HighVoltage(n, x) in VoltageWarnings(v) <==>
      n < |v| && v[n] == Finite(x) && Abs(x) > VoltageLimit
    ensures forall w :: w in VoltageWarnings(v) ==> w.HighVoltage?
  {
    if v != [] {
      var k := |v| - 1;
      VoltageWarningsExact(v[..k], n, x);
      if n < k {
        assert v[..k][n] == v[n];
      }
    }
  }

  /** A high-current warning names exactly an entry above the limit. */
  lemma {:induction false} CurrentWarningsExact(es: seq<(string, real)>, id: string, x: real)
    ensures HighCurrent(id, x) in CurrentWarnings(es) <==>
      (id, x) in es && Abs(x) > CurrentLimit
    ensures forall w :: w in CurrentWarnings(es) ==> w.HighCurrent?
  {
    if es != [] {
      var k := |es| - 1;
      CurrentWarningsExact(es[..k], id, x);
      assert es == es[..k] + [es[k]];
    }
  }

  // ---------------------------------------------------------------------
  // runSimulation
  // ---------------------------------------------------------------------

  predicate HasSource(cs: seq<Component>) {
    exists c :: c in cs && IsSource(c)
  }

  predicate HasGround(cs: seq<Component>) {
    exists c :: c in cs && IsGround(c)
  }

  /** The empty maps returned with an error. */
  function Failed(errors: seq<SimError>, warnings: seq<SimWarning>): SimResult {
    SimResult([], EmptyDict(), errors, warnings)
  }

  /** `performDCAnalysis`: the node voltages and the currents, or `None`
      when it throws. */
  function DCAnalysis(cs: seq<Component>, ws: seq<Wire>, m: map<Key, set<Key>>, order: seq<Key>): (r: Option<(seq<Num>, Dict<real>)>)
    requires forall k :: k in order ==> k in m
    ensures r.Some? ==> r.value.1.Valid()
  {
    var nodes := Dedup(NodeSets(m, order));
    match ReferenceNode(cs, m, nodes)
    case None => None
    case Some(ref) =>
      var v := Voltages(cs, m, nodes, ref);
      Some((v, MarkWires(cs, ws, Currents(cs, m, nodes, v))))
  }

  method PerformDCAnalysis(cs: seq<Component>, ws: seq<Wire>, m: map<Key, set<Key>>, order: seq<Key>)
    returns (r: Option<(seq<Num>, Dict<real>)>)
    requires forall k :: k in order ==> k in m
    ensures r == DCAnalysis(cs, ws, m, order)
  {
    var nodes := NumberNodes(m, order);
    var ref := ReferenceNode(cs, m, nodes);
    if ref.None? {
      return None;
    }
    var v := ComputeVoltages(cs, m, nodes, ref.value);
    var d := ComputeCurrents(cs, m, nodes, v);
    d := MarkWireCurrents(cs, ws, d);
    r := Some((v, d));
  }

  /** The checks of `runSimulation` around an analysis outcome. */
  function Diagnose(outcome: Option<(seq<Num>, Dict<real>)>, warnings: seq<SimWarning>): SimResult
    requires outcome.Some? ==> outcome.value.1.Valid()
  {
    match outcome
    case None => Failed([Crash(UndefinedIdMessage)], warnings)
    case Some((v, d)) =>
      SimResult(v, d, if |v| == 0 then [Unsolvable] else [],
        warnings + VoltageWarnings(v) + CurrentWarnings(d.Entries()))
  }

  /** The node map the engine must build: each terminal key to its node. */
  ghost function Connectivity(cs: seq<Component>, ws: seq<Wire>): map<Key, set<Key>> {
    map k | k in AllKeys(cs) :: Class(AllKeys(cs), ws, k)
  }

  /** What `runSimulation` returns. */
  ghost function Simulate(cs: seq<Component>, ws: seq<Wire>): SimResult {
    if !HasSource(cs) then Failed([NoSource], [])
    else if AllKeys(cs) == {} then Failed([NoConnections], [])
    else Diagnose(DCAnalysis(cs, ws, Connectivity(cs, ws), Dedup(FlatKeys(cs))),
                  if HasGround(cs) then [] else [MissingGround])
  }

  method RunSimulation(cs: seq<Component>, ws: seq<Wire>) returns (r: SimResult)
    ensures r == Simulate(cs, ws)
  {
    var hasSource := exists c :: c in cs && IsSource(c);
    if !hasSource {
      return Failed([NoSource], []);
    }
    var m, order := BuildNodeMap(cs, ws);
    if |m| == 0 {
      assert AllKeys(cs) == {};
      return Failed([NoConnections], []);
    }
    assert AllKeys(cs) != {};
    assert m == Connectivity(cs, ws);
    var warnings: seq<SimWarning> := [];
    var hasGround := exists c :: c in cs && IsGround(c);
    if !hasGround {
      warnings := warnings + [MissingGround];
    }
    assert warnings == if HasGround(cs) then [] else [MissingGround];
    var outcome := PerformDCAnalysis(cs, ws, m, order);
    ghost var spec := Diagnose(outcome, warnings);
    assert Simulate(cs, ws) == spec;
    if outcome.None? {
      return Failed([Crash(UndefinedIdMessage)], warnings);
    }
    var (v, d) := outcome.value;
    var errors: seq<SimError> := [];
    if |v| == 0 {
      errors := errors + [Unsolvable];
    }
    var voltageWarnings := CheckVoltages(v);
    var currentWarnings := CheckCurrents(d.Entries());
    r := SimResult(v, d, errors, warnings + voltageWarnings + currentWarnings);
  }
}

/** Properties of `runSimulation` as a whole. */
module SimulatorProps {
  import opened Base
  import opened Circuit
  import opened Sequences
  import opened NodeMap
  import opened Simulator

  /** A circuit whose terminals are all known to the node map. */
  predicate Solvable(cs: seq<Component>) {
    HasSource(cs) && AllKeys(cs) != {} &&
    !(FirstGround(cs).Some? && |FirstGround(cs).value.terminals| == 0)
  }

  /** The distinct nodes the engine numbers, `n0, n1, ...`. */
  ghost function Nodes(cs: seq<Component>, ws: seq<Wire>): seq<set<Key>> {
    Dedup(NodeSets(Connectivity(cs, ws), Dedup(FlatKeys(cs))))
  }

  /** The four ways a run can end: no source, no terminal, the exception
      of a terminal-less first ground, or a solution with one voltage per
      node and no error. "Unable to solve circuit" is never reported. */
  lemma {:induction false} SimulateOutcomes(cs: seq<Component>, ws: seq<Wire>)
    ensures !HasSource(cs) ==> Simulate(cs, ws) == Failed([NoSource], [])
    ensures HasSource(cs) && AllKeys(cs) == {} ==> Simulate(cs, ws) == Failed([NoConnections], [])
    ensures HasSource(cs) && AllKeys(cs) != {} && !Solvable(cs) ==>
      Simulate(cs, ws) == Failed([Crash(UndefinedIdMessage)], [])
    ensures Solvable(cs) ==>
      Simulate(cs, ws).errors == [] && 0 < |Simulate(cs, ws).nodeVoltages| == |Nodes(cs, ws)|
    ensures Unsolvable !in Simulate(cs, ws).errors
  {
    if HasSource(cs) && AllKeys(cs) != {} {
      var flat := FlatKeys(cs);
      var k :| k in AllKeys(cs);
      assert k in flat;
      assert |Dedup(flat)| > 0;
      var g := FirstGround(cs);
      if !Solvable(cs) {
        assert HasGround(cs);
      }
    }
  }

  /** The missing-ground warning appears exactly when the run gets past
      the first two checks and no ground component exists. */
  lemma MissingGroundWarning(cs: seq<Component>, ws: seq<Wire>)
    ensures MissingGround in Simulate(cs, ws).warnings <==>
      HasSource(cs) && AllKeys(cs) != {} && !HasGround(cs)
  {
    if HasSource(cs) && AllKeys(cs) != {} {
      DiagnoseKeepsMissing(DCAnalysis(cs, ws, Connectivity(cs, ws), Dedup(FlatKeys(cs))),
        if HasGround(cs) then [] else [MissingGround]);
    }
  }

  /** Diagnosis adds only voltage and current warnings. */
  lemma DiagnoseKeepsMissing(outcome: Option<(seq<Num>, Dict<real>)>, missing: seq<SimWarning>)
    requires outcome.Some? ==> outcome.value.1.Valid()
    ensures MissingGround in Diagnose(outcome, missing).warnings <==> MissingGround in missing
  {
    if outcome.Some? {
      var v, d := outcome.value.0, outcome.value.1;
      VoltageWarningsExact(v, 0, 0.0);
      CurrentWarningsExact(d.Entries(), "", 0.0);
    }
  }
}
