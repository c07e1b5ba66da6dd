/** The circuit editor's store: the component and wire lists, the
    selection, the view settings and the bounded undo/redo history. */
module CircuitStore {
  import opened Base
  import opened Circuit
  import opened Sequences

  datatype Tool = Select | WireTool | Pan

  /** One history entry: copies of the two lists. */
  datatype Snapshot = Snapshot(components: seq<Component>, wires: seq<Wire>)

  /** The history keeps the last 50 snapshots. */
  const HistoryLimit: nat := 50

  const MinZoom: real := 0.25
  const MaxZoom: real := 3.0

  /** The fields a partial update may carry; `None` leaves a field as it is. */
  datatype ComponentUpdate = ComponentUpdate(
    id: Option<string>, kind: Option<Kind>, x: Option<real>, y: Option<real>,
    rotation: Option<real>, props: Option<Properties>, terminals: Option<seq<Terminal>>)

  /** `{ ...c, ...updates }`. */
  function Apply(c: Component, u: ComponentUpdate): (r: Component)
    ensures u == ComponentUpdate(None, None, None, None, None, None, None) ==> r == c
    ensures u.terminals.None? ==> r.terminals == c.terminals
    ensures u.id.Some? ==> r.id == u.id.value
  {
    Component(
      if u.id.Some? then u.id.value else c.id,
      if u.kind.Some? then u.kind.value else c.kind,
      Point(if u.x.Some? then u.x.value else c.pos.x, if u.y.Some? then u.y.value else c.pos.y),
      if u.rotation.Some? then u.rotation.value else c.rotation,
      if u.props.Some? then u.props.value else c.props,
      if u.terminals.Some? then u.terminals.value else c.terminals)
  }

  /** `components.map(c => c.id === id ? { ...c, ...updates } : c)`. */
  function UpdateWhere(cs: seq<Component>, id: string, u: ComponentUpdate): (r: seq<Component>)
    ensures |r| == |cs|
    ensures forall i :: 0 <= i < |cs| ==> r[i] == if cs[i].id == id then Apply(cs[i], u) else cs[i]
  {
    seq(|cs|, i requires 0 <= i < |cs| => if cs[i].id == id then Apply(cs[i], u) else cs[i])
  }

  /** The history after `pushHistory`: entries after the cursor dropped,
      the snapshot appended, only the last 50 kept. */
  function PushedHistory(h: seq<Snapshot>, index: int, s: Snapshot): seq<Snapshot>
    requires -1 <= index < |h|
  {
    var kept := h[..index + 1] + [s];
    if |kept| > HistoryLimit then kept[|kept| - HistoryLimit..] else kept
  }

  /** The pushed snapshot is last; below the limit the entries up to the
      cursor are kept as they were, at the limit the oldest one is dropped. */
  lemma PushedHistoryShape(h: seq<Snapshot>, index: int, s: Snapshot)
    requires -1 <= index < |h| <= HistoryLimit
    ensures var r := PushedHistory(h, index, s);
      && 0 < |r| <= HistoryLimit
      && r[|r| - 1] == s
      && (index + 1 < HistoryLimit ==> |r| == index + 2 && r[..index + 1] == h[..index + 1])
      && (index + 1 == HistoryLimit ==> r == h[1..] + [s])
  {
    var r := PushedHistory(h, index, s);
    if index + 1 < HistoryLimit {
      assert r == h[..index + 1] + [s];
    }
  }

  /** `Math.max(0.25, Math.min(3, zoom))`. */
  function ClampZoom(z: real): real {
    var upper := if 3.0 < z then 3.0 else z;
    if 0.25 > upper then 0.25 else upper
  }

  /** The clamp lands in [0.25, 3] and leaves values inside alone. */
  lemma ClampZoomRange(z: real)
    ensures MinZoom <= ClampZoom(z) <= MaxZoom
    ensures MinZoom <= z <= MaxZoom ==> ClampZoom(z) == z
    ensures z < MinZoom ==> ClampZoom(z) == MinZoom
    ensures z > MaxZoom ==> ClampZoom(z) == MaxZoom
  {
  }

  predicate KeepComponent(id: string, c: Component) {
    c.id != id
  }

  /** A wire survives the deletion of component `id` when neither end is on it. */
  predicate KeepWire(id: string, w: Wire) {
    w.from.componentId != id && w.to.componentId != id
  }

  predicate KeepWireId(id: string, w: Wire) {
    w.id != id
  }

  class Store {
    var components: seq<Component>
    var wires: seq<Wire>
    var selectedComponentId: Option<string>
    var selectedWireId: Option<string>
    var tool: Tool
    var wireStart: Option<Endpoint>
    var zoom: real
    var panOffset: Point
    var gridEnabled: bool
    var simulationResult: Option<SimResult>
    var history: seq<Snapshot>
    var historyIndex: int

    /** The history cursor is -1 or points into a history of at most 50
        entries, and at most one of component and wire is selected. */
    ghost predicate Valid()
      reads this
    {
      -1 <= historyIndex < |history| <= HistoryLimit &&
      (selectedComponentId.None? || selectedWireId.None?)
    }

    constructor ()
      ensures Valid()
      ensures components == [] && wires == []
      ensures selectedComponentId == None && selectedWireId == None
      ensures tool == Select && wireStart == None
      ensures zoom == 1.0 && panOffset == Point(0.0, 0.0) && gridEnabled
      ensures simulationResult == None
      ensures history == [] && historyIndex == -1
    {
      components, wires := [], [];
      selectedComponentId, selectedWireId := None, None;
      tool, wireStart := Select, None;
      zoom, panOffset, gridEnabled := 1.0, Point(0.0, 0.0), true;
      simulationResult := None;
      history, historyIndex := [], -1;
    }

    /** Records the current lists after the cursor and moves the cursor
        onto the new last entry. */
    method PushHistory()
      requires Valid()
      modifies this`history, this`historyIndex
      ensures Valid()
      ensures history == PushedHistory(old(history), old(historyIndex), Snapshot(components, wires))
      ensures historyIndex == |history| - 1
    {
      var kept := history[..historyIndex + 1] + [Snapshot(components, wires)];
      history := if |kept| > HistoryLimit then kept[|kept| - HistoryLimit..] else kept;
      historyIndex := if |kept| - 1 < 49 then |kept| - 1 else 49;
    }

    method AddComponent(c: Component)
      requires Valid()
      modifies this`components, this`history, this`historyIndex
      ensures Valid()
      ensures components == old(components) + [c]
      ensures history == PushedHistory(old(history), old(historyIndex), Snapshot(components, wires))
      ensures historyIndex == |history| - 1
    {
      components := components + [c];
      PushHistory();
    }

    method UpdateComponent(id: string, u: ComponentUpdate)
      requires Valid()
      modifies this`components, this`history, this`historyIndex
      ensures Valid()
      ensures components == UpdateWhere(old(components), id, u)
      ensures history == PushedHistory(old(history), old(historyIndex), Snapshot(components, wires))
      ensures historyIndex == |history| - 1
    {
      components := UpdateWhere(components, id, u);
      PushHistory();
    }

    /** Removes the component and every wire with an end on it. */
    method DeleteComponent(id: string)
      requires Valid()
      modifies this`components, this`wires, this`selectedComponentId, this`history, this`historyIndex
      ensures Valid()
      ensures components == Filter(old(components), c => KeepComponent(id, c))
      ensures wires == Filter(old(wires), w => KeepWire(id, w))
      ensures selectedComponentId == if old(selectedComponentId) == Some(id) then None else old(selectedComponentId)
      ensures history == PushedHistory(old(history), old(historyIndex), Snapshot(components, wires))
      ensures historyIndex == |history| - 1
    {
      components := Filter(components, c => KeepComponent(id, c));
      wires := Filter(wires, w => KeepWire(id, w));
      if selectedComponentId == Some(id) {
        selectedComponentId := None;
      }
      PushHistory();
    }

    method SelectComponent(id: Option<string>)
      requires Valid()
      modifies this`selectedComponentId, this`selectedWireId
      ensures Valid()
      ensures selectedComponentId == id && selectedWireId == None
    {
      selectedComponentId, selectedWireId := id, None;
    }

    method AddWire(w: Wire)
      requires Valid()
      modifies this`wires, this`history, this`historyIndex
      ensures Valid()
      ensures wires == old(wires) + [w]
      ensures history == PushedHistory(old(history), old(historyIndex), Snapshot(components, wires))
      ensures historyIndex == |history| - 1
    {
      wires := wires + [w];
      PushHistory();
    }

    method DeleteWire(id: string)
      requires Valid()
      modifies this`wires, this`selectedWireId, this`history, this`historyIndex
      ensures Valid()
      ensures wires == Filter(old(wires), w => KeepWireId(id, w))
      ensures selectedWireId == if old(selectedWireId) == Some(id) then None else old(selectedWireId)
      ensures history == PushedHistory(old(history), old(historyIndex), Snapshot(components, wires))
      ensures historyIndex == |history| - 1
    {
      wires := Filter(wires, w => KeepWireId(id, w));
      if selectedWireId == Some(id) {
        selectedWireId := None;
      }
      PushHistory();
    }

    method SelectWire(id: Option<string>)
      requires Valid()
      modifies this`selectedComponentId, this`selectedWireId
      ensures Valid()
      ensures selectedWireId == id && selectedComponentId == None
    {
      selectedWireId, selectedComponentId := id, None;
    }

    /** Choosing a tool also drops a half-drawn wire. */
    method SetTool(t: Tool)
      modifies this`tool, this`wireStart
      ensures tool == t && wireStart == None
    {
      tool, wireStart := t, None;
    }

    method SetWireStart(start: Option<Endpoint>)
      modifies this`wireStart
      ensures wireStart == start
    {
      wireStart := start;
    }

    method SetZoom(z: real)
      modifies this`zoom
      ensures zoom == ClampZoom(z)
      ensures MinZoom <= zoom <= MaxZoom
    {
      zoom := ClampZoom(z);
      ClampZoomRange(z);
    }

    method SetPanOffset(offset: Point)
      modifies this`panOffset
      ensures panOffset == offset
    {
      panOffset := offset;
    }

    method ToggleGrid()
      modifies this`gridEnabled
      ensures gridEnabled == !old(gridEnabled)
    {
      gridEnabled := !gridEnabled;
    }

    method SetSimulationResult(result: Option<SimResult>)
      modifies this`simulationResult
      ensures simulationResult == result
    {
      simulationResult := result;
    }

    method ClearCircuit()
      requires Valid()
      modifies this`components, this`wires, this`selectedComponentId, this`selectedWireId,
        this`simulationResult, this`history, this`historyIndex
      ensures Valid()
      ensures components == [] && wires == []
      ensures selectedComponentId == None && selectedWireId == None && simulationResult == None
      ensures history == PushedHistory(old(history), old(historyIndex), Snapshot([], []))
      ensures historyIndex == |history| - 1
    {
      components, wires := [], [];
      selectedComponentId, selectedWireId := None, None;
      simulationResult := None;
      PushHistory();
    }

    method ImportCircuit(cs: seq<Component>, ws: seq<Wire>)
      requires Valid()
      modifies this`components, this`wires, this`selectedComponentId, this`selectedWireId,
        this`history, this`historyIndex
      ensures Valid()
      ensures components == cs && wires == ws
      ensures selectedComponentId == None && selectedWireId == None
      ensures history == PushedHistory(old(history), old(historyIndex), Snapshot(cs, ws))
      ensures historyIndex == |history| - 1
    {
      components, wires := cs, ws;
      selectedComponentId, selectedWireId := None, None;
      PushHistory();
    }

    /** Loading a project replaces the lists and the view without touching
        the history; a missing or zero zoom reads as 1, a missing pan as
        the origin. */
    method LoadProject(cs: seq<Component>, ws: seq<Wire>, z: Option<real>, pan: Option<Point>)
      requires Valid()
      modifies this`components, this`wires, this`selectedComponentId, this`selectedWireId,
        this`zoom, this`panOffset
      ensures Valid()
      ensures components == cs && wires == ws
      ensures selectedComponentId == None && selectedWireId == None
      ensures zoom == if z.Some? && z.value != 0.0 then z.value else 1.0
      ensures panOffset == if pan.Some? then pan.value else Point(0.0, 0.0)
    {
      components, wires := cs, ws;
      selectedComponentId, selectedWireId := None, None;
      zoom := if z.Some? && z.value != 0.0 then z.value else 1.0;
      panOffset := if pan.Some? then pan.value else Point(0.0, 0.0);
    }

    /** Steps the cursor back and restores that snapshot; nothing happens
        at the first entry. */
    method Undo()
      requires Valid()
      modifies this`components, this`wires, this`historyIndex
      ensures Valid()
      ensures old(historyIndex) > 0 ==>
        historyIndex == old(historyIndex) - 1 &&
        components == history[historyIndex].components && wires == history[historyIndex].wires
      ensures old(historyIndex) <= 0 ==>
        historyIndex == old(historyIndex) && components == old(components) && wires == old(wires)
    {
      if historyIndex > 0 {
        var newIndex := historyIndex - 1;
        var state := history[newIndex];
        components, wires, historyIndex := state.components, state.wires, newIndex;
      }
    }

    /** Steps the cursor forward and restores that snapshot; nothing happens
        at the last entry. */
    method Redo()
      requires Valid()
      modifies this`components, this`wires, this`historyIndex
      ensures Valid()
      ensures old(historyIndex) < |history| - 1 ==>
        historyIndex == old(historyIndex) + 1 &&
        components == history[historyIndex].components && wires == history[historyIndex].wires
      ensures old(historyIndex) == |history| - 1 ==>
        historyIndex == old(historyIndex) && components == old(components) && wires == old(wires)
    {
      if historyIndex < |history| - 1 {
        var newIndex := historyIndex + 1;
        var state := history[newIndex];
        components, wires, historyIndex := state.components, state.wires, newIndex;
      }
    }
  }
}

/** Properties of the circuit store that involve several calls or the
    list filters. */
module CircuitStoreProps {
  import opened Base
  import opened Circuit
  import opened Sequences
  import opened CircuitStore

  /** Deleting a component removes it and every wire touching it, keeps
      the rest, and keeps their order. */
  lemma DeleteComponentEffect(cs: seq<Component>, ws: seq<Wire>, id: string, more: seq<Component>)
    ensures forall c :: c in Filter(cs, c => KeepComponent(id, c)) <==> c in cs && c.id != id
    ensures forall w :: w in Filter(ws, w => KeepWire(id, w)) <==>
      w in ws && w.from.componentId != id && w.to.componentId != id
    ensures Filter(cs + more, c => KeepComponent(id, c)) ==
      Filter(cs, c => KeepComponent(id, c)) + Filter(more, c => KeepComponent(id, c))
  {
    FilterAppend(cs, more, c => KeepComponent(id, c));
  }

  /** Deleting an id no component has changes no component. */
  lemma DeleteUnknownComponent(cs: seq<Component>, id: string)
    requires forall c :: c in cs ==> c.id != id
    ensures Filter(cs, c => KeepComponent(id, c)) == cs
  {
    FilterAll(cs, c => KeepComponent(id, c));
  }

  /** An update touches only components with the id and keeps the length;
      an id no component has changes nothing. */
  lemma UpdateOnlyMatching(cs: seq<Component>, id: string, u: ComponentUpdate)
    ensures |UpdateWhere(cs, id, u)| == |cs|
    ensures forall i :: 0 <= i < |cs| && cs[i].id != id ==> UpdateWhere(cs, id, u)[i] == cs[i]
    ensures (forall c :: c in cs ==> c.id != id) ==> UpdateWhere(cs, id, u) == cs
  {
  }

  /** Undo followed by redo returns to the same entry with its snapshot. */
  method UndoThenRedo(s: Store)
    requires s.Valid() && s.historyIndex > 0
    modifies s
    ensures s.Valid()
    ensures s.history == old(s.history) && s.historyIndex == old(s.historyIndex)
    ensures s.components == s.history[s.historyIndex].components
    ensures s.wires == s.history[s.historyIndex].wires
  {
    s.Undo();
    s.Redo();
  }

  /** Redo followed by undo returns to the same entry with its snapshot. */
  method RedoThenUndo(s: Store)
    requires s.Valid() && 0 <= s.historyIndex < |s.history| - 1
    modifies s
    ensures s.Valid()
    ensures s.history == old(s.history) && s.historyIndex == old(s.historyIndex)
    ensures s.components == s.history[s.historyIndex].components
    ensures s.wires == s.history[s.historyIndex].wires
  {
    s.Redo();
    s.Undo();
  }

  /** Below the limit, undoing an edit restores the lists recorded at the
      cursor before the edit. */
  method AddThenUndo(s: Store, c: Component)
    requires s.Valid() && 0 <= s.historyIndex < HistoryLimit - 1
    modifies s
    ensures s.Valid()
    ensures s.historyIndex == old(s.historyIndex)
    ensures s.components == old(s.history[s.historyIndex].components)
    ensures s.wires == old(s.history[s.historyIndex].wires)
  {
    ghost var h, i := s.history, s.historyIndex;
    s.AddComponent(c);
    PushedHistoryShape(h, i, Snapshot(s.components, s.wires));
    assert s.history[i] == h[i];
    s.Undo();
  }
}
