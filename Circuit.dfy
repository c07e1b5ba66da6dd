/** The editor's circuit records (the types declared at the top of the
    circuit store) and the simulator's result. */
module Circuit {
  import opened Base

  /** The seventeen component types of the editor. */
  datatype Kind =
    | Resistor | Capacitor | Inductor | Diode | Led
    | Battery | AcSource | TransistorNpn | TransistorPnp | Mosfet
    | SwitchSpst | SwitchSpdt | Ic | Connector | Ground | Label | Text

  /** The type tag as the source spells it. */
  function KindName(k: Kind): string {
    match k
    case Resistor => "resistor"
    case Capacitor => "capacitor"
    case Inductor => "inductor"
    case Diode => "diode"
    case Led => "led"
    case Battery => "battery"
    case AcSource => "ac-source"
    case TransistorNpn => "transistor-npn"
    case TransistorPnp => "transistor-pnp"
    case Mosfet => "mosfet"
    case SwitchSpst => "switch-spst"
    case SwitchSpdt => "switch-spdt"
    case Ic => "ic"
    case Connector => "connector"
    case Ground => "ground"
    case Label => "label"
    case Text => "text"
  }

  datatype Point = Point(x: real, y: real)

  /** A terminal; `offset` is its position relative to the component. */
  datatype Terminal = Terminal(id: string, offset: Point, componentId: string, name: string)

  /** The property bag; an absent `label` (field `labelText`, `label` being a Dafny keyword) or `value` is the empty string
      (both are falsy, which is all the source ever asks of them). */
  datatype Properties = Properties(labelText: string, value: string)

  datatype Component = Component(
    id: string, kind: Kind, pos: Point, rotation: real,
    props: Properties, terminals: seq<Terminal>)

  datatype Endpoint = Endpoint(componentId: string, terminalId: string)

  datatype Wire = Wire(id: string, from: Endpoint, to: Endpoint, points: seq<Point>)

  /** The terminal key `componentId:terminalId`, kept as a pair. */
  datatype Key = Key(componentId: string, terminalId: string)

  function TerminalKey(c: Component, i: nat): Key
    requires i < |c.terminals|
  {
    Key(c.id, c.terminals[i].id)
  }

  function EndpointKey(e: Endpoint): Key {
    Key(e.componentId, e.terminalId)
  }

  predicate IsSource(c: Component) {
    c.kind == Battery || c.kind == AcSource
  }

  predicate IsGround(c: Component) {
    c.kind == Ground
  }

  /** The errors the simulator can report. */
  datatype SimError =
    | NoSource          // no battery or AC source
    | NoConnections     // the terminal map is empty
    | Unsolvable        // no node voltage at all
    | Crash(message: string)  // an exception caught around the analysis

  function ErrorText(e: SimError): string {
    match e
    case NoSource => "No voltage source found in circuit"
    case NoConnections => "No valid circuit connections found"
    case Unsolvable => "Unable to solve circuit - check for open circuits"
    case Crash(m) => "Simulation error: " + m
  }

  /** The warnings; the numbers in the high-value ones are printed with
      `toFixed(2)` in the source, which is not modelled. */
  datatype SimWarning =
    | MissingGround
    | HighVoltage(node: nat, voltage: real)
    | HighCurrent(id: string, current: real)

  /** `nodeVoltages` is keyed `n0, n1, ...` in that order: entry i of the
      sequence is the voltage of node `n<i>`. */
  datatype SimResult = SimResult(
    nodeVoltages: seq<Num>,
    currents: Dict<real>,
    errors: seq<SimError>,
    warnings: seq<SimWarning>)
}
