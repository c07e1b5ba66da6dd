/** The learning-mode explanation of a simulation: an ordered list of
    steps, each naming the components and wires it highlights. Only the
    structure of the list is modelled, not the prose of the descriptions. */
module LearningSimulator {
  import opened Base
  import opened Circuit
  import opened Sequences
  import opened LearningStore

  /** A step before it receives its number. */
  datatype Draft = Draft(
    title: string, highlightedComponents: seq<string>, highlightedWires: seq<string>,
    currentFlow: seq<Flow>)

  const OverviewTitle := "Circuit Overview"
  const PowerTitle := "Power Source Initialization"
  const GroundTitle := "Ground Reference"
  const CurrentPathTitle := "Current Path Established"
  const NodeVoltageTitle := "Node Voltage Analysis"
  const SteadyStateTitle := "Steady-State Condition"

  /** The titles that do not depend on a component. */
  predicate FixedTitle(t: string) {
    t == OverviewTitle || t == PowerTitle || t == GroundTitle ||
    t == CurrentPathTitle || t == NodeVoltageTitle || t == SteadyStateTitle
  }

  /** A draft numbered `i`. */
  function At(d: Draft, i: int): Step {
    Step(i, d.title, d.highlightedComponents, d.highlightedWires, d.currentFlow)
  }

  /** Drafts numbered 0, 1, 2, ... in list order. */
  function Numbered(ds: seq<Draft>): (r: seq<Step>)
    ensures |r| == |ds|
  {
    seq(|ds|, i requires 0 <= i < |ds| => At(ds[i], i))
  }

  /** `componentCurrents[id]` is truthy: present and not zero. */
  predicate Carries(currents: Dict<real>, id: string) {
    id in currents.vals && currents.vals[id] != 0.0
  }

  /** A diode or LED counts as conducting above a milliampere. */
  predicate Conducting(currents: Dict<real>, id: string) {
    Carries(currents, id) && Abs(currents.vals[id]) > 0.001
  }

  /** `label || fallback`. */
  function LabelOr(c: Component, fallback: string): string {
    if c.props.labelText == "" then fallback else c.props.labelText
  }

  function Ids(cs: seq<Component>): (r: seq<string>)
    ensures |r| == |cs|
  {
    seq(|cs|, i requires 0 <= i < |cs| => cs[i].id)
  }

  function WireIds(ws: seq<Wire>): (r: seq<string>)
    ensures |r| == |ws|
  {
    seq(|ws|, i requires 0 <= i < |ws| => ws[i].id)
  }

  /** Every wire of `ws`, animated forward. */
  function Forwarded(ws: seq<Wire>): (r: seq<Flow>)
    ensures |r| == |ws|
  {
    seq(|ws|, i requires 0 <= i < |ws| => Flow(ws[i].id, Forward))
  }

  predicate Touches(id: string, w: Wire) {
    w.from.componentId == id || w.to.componentId == id
  }

  /** The ids of the wires with the component at either end, in wire order. */
  function TouchingWires(ws: seq<Wire>, id: string): seq<string> {
    WireIds(Filter(ws, w => Touches(id, w)))
  }

  predicate IsResistor(c: Component) { c.kind == Resistor }
  predicate IsDiode(c: Component) { c.kind == Diode || c.kind == Led }
  predicate IsCapacitor(c: Component) { c.kind == Capacitor }
  predicate IsTransistor(c: Component) { c.kind == TransistorNpn || c.kind == TransistorPnp }

  /** The wires with a truthy current entry, in wire order. */
  function Live(ws: seq<Wire>, res: SimResult): seq<Wire> {
    Filter(ws, (w: Wire) => Carries(res.currents, w.id))
  }

  /** The resistors with a truthy current entry, in component order. */
  function CurrentResistors(cs: seq<Component>, res: SimResult): seq<Component> {
    Filter(Filter(cs, IsResistor), (r: Component) => Carries(res.currents, r.id))
  }

  function Optional(b: bool, d: Draft): seq<Draft> {
    if b then [d] else []
  }

  function ResistorDraft(r: Component, ws: seq<Wire>): Draft {
    Draft("Resistor Analysis: " + LabelOr(r, "R"), [r.id], TouchingWires(ws, r.id), [])
  }

  function DiodeDraft(d: Component, ws: seq<Wire>, res: SimResult): Draft {
    Draft((if d.kind == Led then "LED" else "Diode") + " Analysis: " + LabelOr(d, "D"), [d.id],
      if Conducting(res.currents, d.id) then TouchingWires(ws, d.id) else [], [])
  }

  function CapacitorDraft(c: Component): Draft {
    Draft("Capacitor: " + LabelOr(c, "C"), [c.id], [], [])
  }

  function TransistorDraft(t: Component): Draft {
    Draft("Transistor: " + LabelOr(t, "Q"), [t.id], [], [])
  }

  function ResistorDrafts(rs: seq<Component>, ws: seq<Wire>): (r: seq<Draft>)
    ensures |r| == |rs|
  {
    seq(|rs|, i requires 0 <= i < |rs| => ResistorDraft(rs[i], ws))
  }

  function DiodeDrafts(ds: seq<Component>, ws: seq<Wire>, res: SimResult): (r: seq<Draft>)
    ensures |r| == |ds|
  {
    seq(|ds|, i requires 0 <= i < |ds| => DiodeDraft(ds[i], ws, res))
  }

  function CapacitorDrafts(ks: seq<Component>): (r: seq<Draft>)
    ensures |r| == |ks|
  {
    seq(|ks|, i requires 0 <= i < |ks| => CapacitorDraft(ks[i]))
  }

  function TransistorDrafts(ts: seq<Component>): (r: seq<Draft>)
    ensures |r| == |ts|
  {
    seq(|ts|, i requires 0 <= i < |ts| => TransistorDraft(ts[i]))
  }

  /** The overview, then the power, ground and current-path steps that apply. */
  function Head(cs: seq<Component>, ws: seq<Wire>, res: SimResult): seq<Draft> {
    [Draft(OverviewTitle, [], [], [])]
    + Optional(|Filter(cs, IsSource)| > 0, Draft(PowerTitle, Ids(Filter(cs, IsSource)), [], []))
    + Optional(|Filter(cs, IsGround)| > 0, Draft(GroundTitle, Ids(Filter(cs, IsGround)), [], []))
    + Optional(|Live(ws, res)| > 0, Draft(CurrentPathTitle, [], WireIds(Live(ws, res)), Forwarded(Live(ws, res))))
  }

  /** The node-voltage step when there are node voltages, then the
      steady-state step over every component and every live wire. */
  function Tail(cs: seq<Component>, ws: seq<Wire>, res: SimResult): seq<Draft> {
    Optional(|res.nodeVoltages| > 0, Draft(NodeVoltageTitle, [], [], []))
    + [Draft(SteadyStateTitle, Ids(cs), WireIds(Live(ws, res)), Forwarded(Live(ws, res)))]
  }

  /** All drafts in the order the steps are generated. */
  function Plan(cs: seq<Component>, ws: seq<Wire>, res: SimResult): seq<Draft> {
    Head(cs, ws, res)
    + ResistorDrafts(CurrentResistors(cs, res), ws)
    + DiodeDrafts(Filter(cs, IsDiode), ws, res)
    + CapacitorDrafts(Filter(cs, IsCapacitor))
    + TransistorDrafts(Filter(cs, IsTransistor))
    + Tail(cs, ws, res)
  }

  /** The generated steps. */
  function Steps(cs: seq<Component>, ws: seq<Wire>, res: SimResult): seq<Step> {
    Numbered(Plan(cs, ws, res))
  }

  /** Builds the steps one push at a time, numbering them with a counter. */
  method GenerateSimulationSteps(cs: seq<Component>, ws: seq<Wire>, res: SimResult) returns (steps: seq<Step>)
    ensures steps == Steps(cs, ws, res)
  {
    var stepId, wiresWithCurrent;
    steps, stepId, wiresWithCurrent := PushHead(cs, ws, res);
    ghost var plan := Head(cs, ws, res);

    steps, stepId := PushResistors(steps, stepId, plan, Filter(cs, IsResistor), ws, res);
    plan := plan + ResistorDrafts(CurrentResistors(cs, res), ws);
    steps, stepId := PushDiodes(steps, stepId, plan, Filter(cs, IsDiode), ws, res);
    plan := plan + DiodeDrafts(Filter(cs, IsDiode), ws, res);
    steps, stepId := PushCapacitors(steps, stepId, plan, Filter(cs, IsCapacitor));
    plan := plan + CapacitorDrafts(Filter(cs, IsCapacitor));
    steps, stepId := PushTransistors(steps, stepId, plan, Filter(cs, IsTransistor));
    plan := plan + TransistorDrafts(Filter(cs, IsTransistor));

    if |res.nodeVoltages| > 0 {
      steps, stepId := Push(steps, stepId, plan, Draft(NodeVoltageTitle, [], [], []));
    }
    ghost var last := plan + Optional(|res.nodeVoltages| > 0, Draft(NodeVoltageTitle, [], [], []));
    steps, stepId := Push(steps, stepId, last,
      Draft(SteadyStateTitle, Ids(cs), WireIds(wiresWithCurrent), Forwarded(wiresWithCurrent)));
    assert last + [Draft(SteadyStateTitle, Ids(cs), WireIds(wiresWithCurrent), Forwarded(wiresWithCurrent))]
      == plan + Tail(cs, ws, res);
  }

  /** The overview step, then the power, ground and current-path steps when
      they apply; also hands back the wires with current. */
  method PushHead(cs: seq<Component>, ws: seq<Wire>, res: SimResult)
    returns (steps: seq<Step>, stepId: int, wiresWithCurrent: seq<Wire>)
    ensures steps == Numbered(Head(cs, ws, res)) && stepId == |steps|
    ensures wiresWithCurrent == Live(ws, res)
  {
    steps := [];
    stepId := 0;
    steps, stepId := Push(steps, stepId, [], Draft(OverviewTitle, [], [], []));

    var powerSources := Filter(cs, IsSource);
    if |powerSources| > 0 {
      steps, stepId := Push(steps, stepId, [Draft(OverviewTitle, [], [], [])],
        Draft(PowerTitle, Ids(powerSources), [], []));
    }
    ghost var plan := [Draft(OverviewTitle, [], [], [])]
      + Optional(|powerSources| > 0, Draft(PowerTitle, Ids(powerSources), [], []));

    var grounds := Filter(cs, IsGround);
    if |grounds| > 0 {
      steps, stepId := Push(steps, stepId, plan, Draft(GroundTitle, Ids(grounds), [], []));
    }
    plan := plan + Optional(|grounds| > 0, Draft(GroundTitle, Ids(grounds), [], []));

    wiresWithCurrent := Filter(ws, (w: Wire) => Carries(res.currents, w.id));
    if |wiresWithCurrent| > 0 {
      steps, stepId := Push(steps, stepId, plan,
        Draft(CurrentPathTitle, [], WireIds(wiresWithCurrent), Forwarded(wiresWithCurrent)));
    }
    plan := plan + Optional(|wiresWithCurrent| > 0,
      Draft(CurrentPathTitle, [], WireIds(wiresWithCurrent), Forwarded(wiresWithCurrent)));
    assert plan == Head(cs, ws, res);
  }

  /** `steps.push({ id: stepId++, ... })`. */
  method Push(steps: seq<Step>, stepId: int, ghost plan: seq<Draft>, d: Draft) returns (steps': seq<Step>, stepId': int)
    requires steps == Numbered(plan) && stepId == |steps|
    ensures steps' == Numbered(plan + [d]) && stepId' == |steps'|
  {
    NumberedSnoc(plan, d);
    steps', stepId' := steps + [At(d, stepId)], stepId + 1;
  }

  /** One step for each resistor with a truthy current. */
  method PushResistors(steps: seq<Step>, stepId: int, ghost plan: seq<Draft>,
      resistors: seq<Component>, ws: seq<Wire>, res: SimResult)
    returns (steps': seq<Step>, stepId': int)
    requires steps == Numbered(plan) && stepId == |steps|
    ensures steps' == Numbered(plan + ResistorDrafts(Filter(resistors, (r: Component) => Carries(res.currents, r.id)), ws))
    ensures stepId' == |steps'|
  {
    ghost var carries := (r: Component) => Carries(res.currents, r.id);
    steps', stepId' := steps, stepId;
    var i := 0;
    while i < |resistors|
      invariant 0 <= i <= |resistors|
      invariant stepId' == |steps'|
      invariant steps' == Numbered(plan + ResistorDrafts(Filter(resistors[..i], carries), ws))
    {
      var r := resistors[i];
      ResistorStep(plan, resistors, i, ws, carries);
      if r.id in res.currents.vals && res.currents.vals[r.id] != 0.0 {
        steps', stepId' := Push(steps', stepId', plan + ResistorDrafts(Filter(resistors[..i], carries), ws), ResistorDraft(r, ws));
      }
      i := i + 1;
    }
    assert resistors[..i] == resistors;
  }

  /** One step for each diode or LED; its wires are highlighted only while
      it conducts. */
  method PushDiodes(steps: seq<Step>, stepId: int, ghost plan: seq<Draft>,
      diodes: seq<Component>, ws: seq<Wire>, res: SimResult)
    returns (steps': seq<Step>, stepId': int)
    requires steps == Numbered(plan) && stepId == |steps|
    ensures steps' == Numbered(plan + DiodeDrafts(diodes, ws, res)) && stepId' == |steps'|
  {
    steps', stepId' := steps, stepId;
    var i := 0;
    while i < |diodes|
      invariant 0 <= i <= |diodes|
      invariant stepId' == |steps'|
      invariant steps' == Numbered(plan + DiodeDrafts(diodes[..i], ws, res))
    {
      var diode := diodes[i];
      var isLed := diode.kind == Led;
      var name := if isLed then "LED" else "Diode";
      var d;
      if diode.id in res.currents.vals && res.currents.vals[diode.id] != 0.0
        && Abs(res.currents.vals[diode.id]) > 0.001
      {
        d := Draft(name + " Analysis: " + LabelOr(diode, "D"), [diode.id], TouchingWires(ws, diode.id), []);
      } else {
        d := Draft(name + " Analysis: " + LabelOr(diode, "D"), [diode.id], [], []);
      }
      steps', stepId' := Push(steps', stepId', plan + DiodeDrafts(diodes[..i], ws, res), d);
      assert diodes[..i + 1] == diodes[..i] + [diode];
      assert DiodeDrafts(diodes[..i + 1], ws, res) == DiodeDrafts(diodes[..i], ws, res) + [d];
      assert plan + DiodeDrafts(diodes[..i], ws, res) + [d] == plan + DiodeDrafts(diodes[..i + 1], ws, res);
      i := i + 1;
    }
    assert diodes[..i] == diodes;
  }

  /** One step for each capacitor. */
  method PushCapacitors(steps: seq<Step>, stepId: int, ghost plan: seq<Draft>, capacitors: seq<Component>)
    returns (steps': seq<Step>, stepId': int)
    requires steps == Numbered(plan) && stepId == |steps|
    ensures steps' == Numbered(plan + CapacitorDrafts(capacitors)) && stepId' == |steps'|
  {
    steps', stepId' := steps, stepId;
    var i := 0;
    while i < |capacitors|
      invariant 0 <= i <= |capacitors|
      invariant stepId' == |steps'|
      invariant steps' == Numbered(plan + CapacitorDrafts(capacitors[..i]))
    {
      var d := CapacitorDraft(capacitors[i]);
      steps', stepId' := Push(steps', stepId', plan + CapacitorDrafts(capacitors[..i]), d);
      assert capacitors[..i + 1] == capacitors[..i] + [capacitors[i]];
      assert CapacitorDrafts(capacitors[..i + 1]) == CapacitorDrafts(capacitors[..i]) + [d];
      assert plan + CapacitorDrafts(capacitors[..i]) + [d] == plan + CapacitorDrafts(capacitors[..i + 1]);
      i := i + 1;
    }
    assert capacitors[..i] == capacitors;
  }

  /** One step for each NPN or PNP transistor. */
  method PushTransistors(steps: seq<Step>, stepId: int, ghost plan: seq<Draft>, transistors: seq<Component>)
    returns (steps': seq<Step>, stepId': int)
    requires steps == Numbered(plan) && stepId == |steps|
    ensures steps' == Numbered(plan + TransistorDrafts(transistors)) && stepId' == |steps'|
  {
    steps', stepId' := steps, stepId;
    var i := 0;
    while i < |transistors|
      invariant 0 <= i <= |transistors|
      invariant stepId' == |steps'|
      invariant steps' == Numbered(plan + TransistorDrafts(transistors[..i]))
    {
      var d := TransistorDraft(transistors[i]);
      steps', stepId' := Push(steps', stepId', plan + TransistorDrafts(transistors[..i]), d);
      assert transistors[..i + 1] == transistors[..i] + [transistors[i]];
      assert TransistorDrafts(transistors[..i + 1]) == TransistorDrafts(transistors[..i]) + [d];
      assert plan + TransistorDrafts(transistors[..i]) + [d] == plan + TransistorDrafts(transistors[..i + 1]);
      i := i + 1;
    }
    assert transistors[..i] == transistors;
  }

  /** The resistor drafts of one more resistor. */
  lemma ResistorStep(plan: seq<Draft>, resistors: seq<Component>, i: nat, ws: seq<Wire>, p: Component -> bool)
    requires i < |resistors|
    ensures plan + ResistorDrafts(Filter(resistors[..i + 1], p), ws)
      == plan + ResistorDrafts(Filter(resistors[..i], p), ws) + (if p(resistors[i]) then [ResistorDraft(resistors[i], ws)] else [])
  {
    FilterStep(resistors, i, p);
    var done := Filter(resistors[..i], p);
    if p(resistors[i]) {
      assert ResistorDrafts(done + [resistors[i]], ws) == ResistorDrafts(done, ws) + [ResistorDraft(resistors[i], ws)];
    }
  }

  lemma NumberedSnoc(ds: seq<Draft>, d: Draft)
    ensures Numbered(ds + [d]) == Numbered(ds) + [At(d, |ds|)]
  {
  }

  /** Filtering one more element of a list. */
  lemma FilterStep<T(!new)>(s: seq<T>, i: nat, p: T -> bool)
    requires i < |s|
    ensures Filter(s[..i + 1], p) == Filter(s[..i], p) + (if p(s[i]) then [s[i]] else [])
  {
    assert s[..i + 1][..i] == s[..i];
  }
}

/** What the generated step list promises. */
module LearningSimulatorProps {
  import opened Base
  import opened Circuit
  import opened Sequences
  import opened LearningStore
  import opened LearningSimulator

  /** The list opens with the overview and closes with the steady state,
      which highlights every component and animates the live wires
      forward; step ids count up from 0 in list order. */
  lemma StepsFrame(cs: seq<Component>, ws: seq<Wire>, res: SimResult)
    ensures var s := Steps(cs, ws, res);
      |s| >= 2 &&
      s[0] == Step(0, OverviewTitle, [], [], []) &&
      s[|s| - 1].title == SteadyStateTitle &&
      s[|s| - 1].highlightedComponents == Ids(cs) &&
      s[|s| - 1].highlightedWires == WireIds(Live(ws, res)) &&
      s[|s| - 1].currentFlow == Forwarded(Live(ws, res)) &&
      forall i :: 0 <= i < |s| ==> s[i].id == i
  {
    var p := Plan(cs, ws, res);
    assert p[0] == Head(cs, ws, res)[0];
    assert p[|p| - 1] == Tail(cs, ws, res)[|Tail(cs, ws, res)| - 1];
  }

  /** A title of a per-component step: its first two letters are those of
      "Resistor", "LED", "Diode", "Capacitor" or "Transistor". */
  predicate ComponentTitle(t: string) {
    |t| >= 2 &&
    ((t[0] == 'R' && t[1] == 'e') || (t[0] == 'L' && t[1] == 'E') || (t[0] == 'D' && t[1] == 'i') ||
     (t[0] == 'C' && t[1] == 'a') || (t[0] == 'T' && t[1] == 'r'))
  }

  /** No per-component title is one of the fixed titles. */
  lemma ComponentTitleNotFixed(t: string)
    requires ComponentTitle(t)
    ensures !FixedTitle(t)
  {
    assert OverviewTitle[0] == 'C' && OverviewTitle[1] == 'i';
    assert CurrentPathTitle[0] == 'C' && CurrentPathTitle[1] == 'u';
    assert PowerTitle[0] == 'P' && GroundTitle[0] == 'G';
    assert NodeVoltageTitle[0] == 'N' && SteadyStateTitle[0] == 'S';
  }

  lemma ResistorTitles(rs: seq<Component>, ws: seq<Wire>)
    ensures forall d :: d in ResistorDrafts(rs, ws) ==> ComponentTitle(d.title)
  {
    forall d | d in ResistorDrafts(rs, ws)
      ensures ComponentTitle(d.title)
    {
      var i :| 0 <= i < |rs| && ResistorDrafts(rs, ws)[i] == d;
      var t := "Resistor Analysis: " + LabelOr(rs[i], "R");
      assert t[0] == 'R' && t[1] == 'e';
    }
  }

  lemma DiodeTitles(ds: seq<Component>, ws: seq<Wire>, res: SimResult)
    ensures forall d :: d in DiodeDrafts(ds, ws, res) ==> ComponentTitle(d.title)
  {
    forall d | d in DiodeDrafts(ds, ws, res)
      ensures ComponentTitle(d.title)
    {
      var i :| 0 <= i < |ds| && DiodeDrafts(ds, ws, res)[i] == d;
      var t := (if ds[i].kind == Led then "LED" else "Diode") + " Analysis: " + LabelOr(ds[i], "D");
      assert ds[i].kind == Led ==> t[0] == 'L' && t[1] == 'E';
      assert ds[i].kind != Led ==> t[0] == 'D' && t[1] == 'i';
    }
  }

  lemma CapacitorTitles(ks: seq<Component>)
    ensures forall d :: d in CapacitorDrafts(ks) ==> ComponentTitle(d.title)
  {
    forall d | d in CapacitorDrafts(ks)
      ensures ComponentTitle(d.title)
    {
      var i :| 0 <= i < |ks| && CapacitorDrafts(ks)[i] == d;
      var t := "Capacitor: " + LabelOr(ks[i], "C");
      assert t[0] == 'C' && t[1] == 'a';
    }
  }

  lemma TransistorTitles(ts: seq<Component>)
    ensures forall d :: d in TransistorDrafts(ts) ==> ComponentTitle(d.title)
  {
    forall d | d in TransistorDrafts(ts)
      ensures ComponentTitle(d.title)
    {
      var i :| 0 <= i < |ts| && TransistorDrafts(ts)[i] == d;
      var t := "Transistor: " + LabelOr(ts[i], "Q");
      assert t[0] == 'T' && t[1] == 'r';
    }
  }

  /** Only the opening and closing steps carry fixed titles. */
  lemma ComponentTitlesNotFixed(cs: seq<Component>, ws: seq<Wire>, res: SimResult)
    ensures forall d :: d in Plan(cs, ws, res) && FixedTitle(d.title) ==> d in Head(cs, ws, res) + Tail(cs, ws, res)
  {
    var rs, ds := CurrentResistors(cs, res), Filter(cs, IsDiode);
    var ks, ts := Filter(cs, IsCapacitor), Filter(cs, IsTransistor);
    ResistorTitles(rs, ws);
    DiodeTitles(ds, ws, res);
    CapacitorTitles(ks);
    TransistorTitles(ts);
    forall d | d in Plan(cs, ws, res) && FixedTitle(d.title)
      ensures d in Head(cs, ws, res) + Tail(cs, ws, res)
    {
      if ComponentTitle(d.title) {
        ComponentTitleNotFixed(d.title);
      }
    }
  }

  /** Some step has title `t`. */
  predicate HasTitle(s: seq<Step>, t: string) {
    exists i :: 0 <= i < |s| && s[i].title == t
  }

  lemma HasTitlePlan(cs: seq<Component>, ws: seq<Wire>, res: SimResult, t: string)
    requires FixedTitle(t)
    ensures HasTitle(Steps(cs, ws, res), t) <==>
      exists d :: d in Head(cs, ws, res) + Tail(cs, ws, res) && d.title == t
  {
    var p := Plan(cs, ws, res);
    ComponentTitlesNotFixed(cs, ws, res);
    if HasTitle(Steps(cs, ws, res), t) {
      var i :| 0 <= i < |p| && p[i].title == t;
      assert p[i] in p;
    }
    if exists d :: d in Head(cs, ws, res) + Tail(cs, ws, res) && d.title == t {
      var d :| d in Head(cs, ws, res) + Tail(cs, ws, res) && d.title == t;
      assert d in p;
      var i :| 0 <= i < |p| && p[i] == d;
      assert Steps(cs, ws, res)[i].title == t;
    }
  }

  lemma TitlesDistinct()
    ensures OverviewTitle != PowerTitle && OverviewTitle != GroundTitle && OverviewTitle != CurrentPathTitle
    ensures PowerTitle != GroundTitle && PowerTitle != CurrentPathTitle
    ensures PowerTitle != NodeVoltageTitle && PowerTitle != SteadyStateTitle
    ensures GroundTitle != CurrentPathTitle && GroundTitle != NodeVoltageTitle && GroundTitle != SteadyStateTitle
    ensures CurrentPathTitle != NodeVoltageTitle && CurrentPathTitle != SteadyStateTitle
  {
    assert OverviewTitle[0] != GroundTitle[0];
  }

  /** Which fixed-title steps the opening and closing parts hold, over any
      drafts carrying those titles. */
  lemma AmongOptional(o: Draft, bp: bool, p: Draft, bg: bool, g: Draft, bc: bool, c: Draft,
                      bn: bool, n: Draft, s: Draft, t: string)
    requires o.title == OverviewTitle && p.title == PowerTitle && g.title == GroundTitle
    requires c.title == CurrentPathTitle && n.title == NodeVoltageTitle && s.title == SteadyStateTitle
    requires t == PowerTitle || t == GroundTitle || t == CurrentPathTitle
    ensures (exists d :: d in ([o] + Optional(bp, p) + Optional(bg, g) + Optional(bc, c)) + (Optional(bn, n) + [s]) && d.title == t)
      <==> (if t == PowerTitle then bp else if t == GroundTitle then bg else bc)
    ensures forall d :: (d in ([o] + Optional(bp, p) + Optional(bg, g) + Optional(bc, c)) + (Optional(bn, n) + [s]) &&
      d.title == CurrentPathTitle) ==> d == c
  {
    TitlesDistinct();
    if t == PowerTitle && bp {
      assert p in ([o] + Optional(bp, p) + Optional(bg, g) + Optional(bc, c)) + (Optional(bn, n) + [s]);
    }
    if t == GroundTitle && bg {
      assert g in ([o] + Optional(bp, p) + Optional(bg, g) + Optional(bc, c)) + (Optional(bn, n) + [s]);
    }
    if t == CurrentPathTitle && bc {
      assert c in ([o] + Optional(bp, p) + Optional(bg, g) + Optional(bc, c)) + (Optional(bn, n) + [s]);
    }
  }

  /** A filter is non-empty exactly when some element passes. */
  lemma FilterNonEmpty<T(!new)>(s: seq<T>, p: T -> bool)
    ensures |Filter(s, p)| > 0 <==> exists x :: x in s && p(x)
  {
    if |Filter(s, p)| > 0 {
      assert Filter(s, p)[0] in Filter(s, p);
    }
    if exists x :: x in s && p(x) {
      var x :| x in s && p(x);
      assert x in Filter(s, p);
    }
  }

  /** The power-source step appears exactly when the circuit has a battery
      or an AC source. */
  lemma PowerStep(cs: seq<Component>, ws: seq<Wire>, res: SimResult)
    ensures HasTitle(Steps(cs, ws, res), PowerTitle) <==> exists c :: c in cs && IsSource(c)
  {
    HasTitlePlan(cs, ws, res, PowerTitle);
    HeadTail(cs, ws, res, PowerTitle);
    FilterNonEmpty(cs, IsSource);
  }

  /** The ground step appears exactly when the circuit has a ground. */
  lemma GroundStep(cs: seq<Component>, ws: seq<Wire>, res: SimResult)
    ensures HasTitle(Steps(cs, ws, res), GroundTitle) <==> exists c :: c in cs && IsGround(c)
  {
    HasTitlePlan(cs, ws, res, GroundTitle);
    HeadTail(cs, ws, res, GroundTitle);
    FilterNonEmpty(cs, IsGround);
  }

  lemma HeadTail(cs: seq<Component>, ws: seq<Wire>, res: SimResult, t: string)
    requires t == PowerTitle || t == GroundTitle || t == CurrentPathTitle
    ensures (exists d :: d in Head(cs, ws, res) + Tail(cs, ws, res) && d.title == t) <==>
      if t == PowerTitle then |Filter(cs, IsSource)| > 0
      else if t == GroundTitle then |Filter(cs, IsGround)| > 0
      else |Live(ws, res)| > 0
    ensures forall d :: d in Head(cs, ws, res) + Tail(cs, ws, res) && d.title == CurrentPathTitle ==>
      d.currentFlow == Forwarded(Live(ws, res))
  {
    AmongOptional(Draft(OverviewTitle, [], [], []),
      |Filter(cs, IsSource)| > 0, Draft(PowerTitle, Ids(Filter(cs, IsSource)), [], []),
      |Filter(cs, IsGround)| > 0, Draft(GroundTitle, Ids(Filter(cs, IsGround)), [], []),
      |Live(ws, res)| > 0, Draft(CurrentPathTitle, [], WireIds(Live(ws, res)), Forwarded(Live(ws, res))),
      |res.nodeVoltages| > 0, Draft(NodeVoltageTitle, [], [], []),
      Draft(SteadyStateTitle, Ids(cs), WireIds(Live(ws, res)), Forwarded(Live(ws, res))), t);
  }

  /** The current-path step appears exactly when some wire has a truthy
      current entry, and it animates exactly those wires, in wire order,
      all forward. */
  lemma CurrentPathStep(cs: seq<Component>, ws: seq<Wire>, res: SimResult)
    ensures HasTitle(Steps(cs, ws, res), CurrentPathTitle) <==> exists w :: w in ws && Carries(res.currents, w.id)
    ensures forall i :: 0 <= i < |Steps(cs, ws, res)| && Steps(cs, ws, res)[i].title == CurrentPathTitle ==>
      Steps(cs, ws, res)[i].currentFlow == Forwarded(Live(ws, res))
    ensures forall w :: w in Live(ws, res) <==> w in ws && Carries(res.currents, w.id)
  {
    HasTitlePlan(cs, ws, res, CurrentPathTitle);
    HeadTail(cs, ws, res, CurrentPathTitle);
    FilterNonEmpty(ws, (w: Wire) => Carries(res.currents, w.id));
    CurrentPathFlow(cs, ws, res);
  }

  lemma CurrentPathFlow(cs: seq<Component>, ws: seq<Wire>, res: SimResult)
    ensures forall i :: 0 <= i < |Steps(cs, ws, res)| && Steps(cs, ws, res)[i].title == CurrentPathTitle ==>
      Steps(cs, ws, res)[i].currentFlow == Forwarded(Live(ws, res))
  {
    var p := Plan(cs, ws, res);
    ComponentTitlesNotFixed(cs, ws, res);
    HeadTail(cs, ws, res, CurrentPathTitle);
    forall i | 0 <= i < |p| && p[i].title == CurrentPathTitle
      ensures p[i].currentFlow == Forwarded(Live(ws, res))
    {
      assert p[i] in p;
    }
  }

  /** The node-voltage step appears exactly when there are node voltages. */
  lemma NodeVoltageStep(cs: seq<Component>, ws: seq<Wire>, res: SimResult)
    ensures HasTitle(Steps(cs, ws, res), NodeVoltageTitle) <==> |res.nodeVoltages| > 0
  {
    HasTitlePlan(cs, ws, res, NodeVoltageTitle);
  }

  lemma NumberedAt(ds: seq<Draft>, k: nat)
    requires k < |ds|
    ensures Numbered(ds)[k] == At(ds[k], k)
  {
  }

  /** Where an index of a six-part list falls. */
  lemma Six(a: seq<Draft>, b: seq<Draft>, c: seq<Draft>, d: seq<Draft>, e: seq<Draft>, f: seq<Draft>, k: nat)
    requires |a| <= k < |a| + |b| + |c| + |d| + |e|
    ensures (a + b + c + d + e + f)[k] ==
      if k < |a| + |b| then b[k - |a|]
      else if k < |a| + |b| + |c| then c[k - |a| - |b|]
      else if k < |a| + |b| + |c| + |d| then d[k - |a| - |b| - |c|]
      else e[k - |a| - |b| - |c| - |d|]
  {
  }

  /** The list is the opening steps, one step per resistor with a truthy
      current, one per diode or LED, one per capacitor, one per transistor,
      then the closing steps. */
  lemma StepCount(cs: seq<Component>, ws: seq<Wire>, res: SimResult)
    ensures |Steps(cs, ws, res)| == |Head(cs, ws, res)| + |CurrentResistors(cs, res)| +
      |Filter(cs, IsDiode)| + |Filter(cs, IsCapacitor)| + |Filter(cs, IsTransistor)| + |Tail(cs, ws, res)|
    ensures forall c :: c in CurrentResistors(cs, res) <==> c in cs && c.kind == Resistor && Carries(res.currents, c.id)
  {
  }

  /** Where the resistor steps start: after the opening steps. */
  function ResistorsAt(cs: seq<Component>, ws: seq<Wire>, res: SimResult): nat {
    |Head(cs, ws, res)|
  }

  function DiodesAt(cs: seq<Component>, ws: seq<Wire>, res: SimResult): nat {
    ResistorsAt(cs, ws, res) + |CurrentResistors(cs, res)|
  }

  function CapacitorsAt(cs: seq<Component>, ws: seq<Wire>, res: SimResult): nat {
    DiodesAt(cs, ws, res) + |Filter(cs, IsDiode)|
  }

  function TransistorsAt(cs: seq<Component>, ws: seq<Wire>, res: SimResult): nat {
    CapacitorsAt(cs, ws, res) + |Filter(cs, IsCapacitor)|
  }

  /** Each resistor with a truthy current has its step, highlighting it and
      the wires at its ends. */
  lemma ResistorSteps(cs: seq<Component>, ws: seq<Wire>, res: SimResult, j: nat)
    requires j < |CurrentResistors(cs, res)|
    ensures ResistorsAt(cs, ws, res) + j < |Steps(cs, ws, res)|
    ensures Steps(cs, ws, res)[ResistorsAt(cs, ws, res) + j] ==
      At(ResistorDraft(CurrentResistors(cs, res)[j], ws), ResistorsAt(cs, ws, res) + j)
  {
    ResistorAt(Head(cs, ws, res), CurrentResistors(cs, res), ws, DiodeDrafts(Filter(cs, IsDiode), ws, res),
      CapacitorDrafts(Filter(cs, IsCapacitor)), TransistorDrafts(Filter(cs, IsTransistor)), Tail(cs, ws, res), j,
      Steps(cs, ws, res), ResistorsAt(cs, ws, res));
  }

  lemma ResistorAt(h: seq<Draft>, rs: seq<Component>, ws: seq<Wire>, d: seq<Draft>, k: seq<Draft>, t: seq<Draft>, l: seq<Draft>, j: nat,
    steps: seq<Step>, at: nat)
    requires j < |rs|
    requires steps == Numbered(h + ResistorDrafts(rs, ws) + d + k + t + l) && at == |h|
    ensures at + j < |steps| && steps[at + j] == At(ResistorDraft(rs[j], ws), at + j)
  {
    Six(h, ResistorDrafts(rs, ws), d, k, t, l, |h| + j);
    NumberedAt(h + ResistorDrafts(rs, ws) + d + k + t + l, |h| + j);
  }


  /** Each diode or LED has its step, highlighting it, and its wires only
      when it conducts. */
  lemma DiodeSteps(cs: seq<Component>, ws: seq<Wire>, res: SimResult, j: nat)
    requires j < |Filter(cs, IsDiode)|
    ensures DiodesAt(cs, ws, res) + j < |Steps(cs, ws, res)|
    ensures Steps(cs, ws, res)[DiodesAt(cs, ws, res) + j] ==
      At(DiodeDraft(Filter(cs, IsDiode)[j], ws, res), DiodesAt(cs, ws, res) + j)
  {
    DiodeAt(Head(cs, ws, res), ResistorDrafts(CurrentResistors(cs, res), ws), Filter(cs, IsDiode), ws, res,
      CapacitorDrafts(Filter(cs, IsCapacitor)), TransistorDrafts(Filter(cs, IsTransistor)), Tail(cs, ws, res), j,
      Steps(cs, ws, res), DiodesAt(cs, ws, res));
  }

  lemma DiodeAt(h: seq<Draft>, r: seq<Draft>, ds: seq<Component>, ws: seq<Wire>, res: SimResult,
    k: seq<Draft>, t: seq<Draft>, l: seq<Draft>, j: nat, steps: seq<Step>, at: nat)
    requires j < |ds|
    requires steps == Numbered(h + r + DiodeDrafts(ds, ws, res) + k + t + l) && at == |h| + |r|
    ensures at + j < |steps| && steps[at + j] == At(DiodeDraft(ds[j], ws, res), at + j)
  {
    Six(h, r, DiodeDrafts(ds, ws, res), k, t, l, |h| + |r| + j);
    NumberedAt(h + r + DiodeDrafts(ds, ws, res) + k + t + l, |h| + |r| + j);
  }

  /** Each capacitor has its step, titled by its label or "C", highlighting
      it alone, with no wires and no flow. */
  lemma CapacitorSteps(cs: seq<Component>, ws: seq<Wire>, res: SimResult, j: nat)
    requires j < |Filter(cs, IsCapacitor)|
    ensures CapacitorsAt(cs, ws, res) + j < |Steps(cs, ws, res)|
    ensures Steps(cs, ws, res)[CapacitorsAt(cs, ws, res) + j] ==
      At(CapacitorDraft(Filter(cs, IsCapacitor)[j]), CapacitorsAt(cs, ws, res) + j)
  {
    CapacitorAt(Head(cs, ws, res), ResistorDrafts(CurrentResistors(cs, res), ws), DiodeDrafts(Filter(cs, IsDiode), ws, res),
      Filter(cs, IsCapacitor), TransistorDrafts(Filter(cs, IsTransistor)), Tail(cs, ws, res), j,
      Steps(cs, ws, res), CapacitorsAt(cs, ws, res));
  }

  lemma CapacitorAt(h: seq<Draft>, r: seq<Draft>, d: seq<Draft>, ks: seq<Component>, t: seq<Draft>, l: seq<Draft>, j: nat,
    steps: seq<Step>, at: nat)
    requires j < |ks|
    requires steps == Numbered(h + r + d + CapacitorDrafts(ks) + t + l) && at == |h| + |r| + |d|
    ensures at + j < |steps| && steps[at + j] == At(CapacitorDraft(ks[j]), at + j)
  {
    Six(h, r, d, CapacitorDrafts(ks), t, l, |h| + |r| + |d| + j);
    NumberedAt(h + r + d + CapacitorDrafts(ks) + t + l, |h| + |r| + |d| + j);
  }

  /** Each NPN or PNP transistor has its step, titled by its label or "Q",
      highlighting it alone, with no wires and no flow. */
  lemma TransistorSteps(cs: seq<Component>, ws: seq<Wire>, res: SimResult, j: nat)
    requires j < |Filter(cs, IsTransistor)|
    ensures TransistorsAt(cs, ws, res) + j < |Steps(cs, ws, res)|
    ensures Steps(cs, ws, res)[TransistorsAt(cs, ws, res) + j] ==
      At(TransistorDraft(Filter(cs, IsTransistor)[j]), TransistorsAt(cs, ws, res) + j)
  {
    TransistorAt(Head(cs, ws, res), ResistorDrafts(CurrentResistors(cs, res), ws), DiodeDrafts(Filter(cs, IsDiode), ws, res),
      CapacitorDrafts(Filter(cs, IsCapacitor)), Filter(cs, IsTransistor), Tail(cs, ws, res), j,
      Steps(cs, ws, res), TransistorsAt(cs, ws, res));
  }

  lemma TransistorAt(h: seq<Draft>, r: seq<Draft>, d: seq<Draft>, k: seq<Draft>, ts: seq<Component>, l: seq<Draft>, j: nat,
    steps: seq<Step>, at: nat)
    requires j < |ts|
    requires steps == Numbered(h + r + d + k + TransistorDrafts(ts) + l) && at == |h| + |r| + |d| + |k|
    ensures at + j < |steps| && steps[at + j] == At(TransistorDraft(ts[j]), at + j)
  {
    Six(h, r, d, k, TransistorDrafts(ts), l, |h| + |r| + |d| + |k| + j);
    NumberedAt(h + r + d + k + TransistorDrafts(ts) + l, |h| + |r| + |d| + |k| + j);
  }
}
