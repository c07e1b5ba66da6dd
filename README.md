# CircuitDigram core in Dafny

This project models the engine and the state stores of CircuitDigram, a
browser circuit editor with a simplified DC simulator. It covers these parts:

- the simulator (`runSimulation`, `buildNodeMap`, `performDCAnalysis`);
- the component factory and the value parser (`createComponent`,
  `parseComponentValue`);
- the generator of learning-mode explanation steps;
- the sample-circuit templates;
- the five stores that hold the editor's state: circuit, projects,
  learning mode, drawing and reference image.

Layout:

- `Base.dfy` holds `Option`. It also holds `Num`, a JavaScript number that
  may be NaN. And it holds `Dict`, a string-keyed object whose entries are
  listed in insertion order.
- `Circuit.dfy` holds the shared circuit records: kinds, terminals,
  components, wires, terminal keys and simulation results.
- `Sequences.dfy` holds the order-keeping `Filter` and `Dedup` with their
  lemmas.
- Every other file is one source file. It has a module for the code and,
  where there is one, a `…Props` module for properties that span several
  calls.

How the source's forms are modelled:

- The stores are classes whose methods update fields. Each method has a
  `modifies` frame.
- The simulator keeps the source's loops as methods. Each method is
  proved equal to a specification function, and the properties are
  proved about those functions.
- `buildNodeMap` is proved against a connectivity theory. That theory
  defines paths over the wires whose two endpoint keys exist.
- `generateSimulationSteps` pushes numbered steps with a running counter.
  It is proved equal to `Steps`, which numbers a plan of drafts.

## Model

| member | source | states |
|---|---|---|
| NodeMap.BuildNodeMap | src/utils/simulator.ts:80-110 | Every terminal key of every component is a key of the map. The keys are kept in first-insertion order. Each key maps to exactly the keys reachable from it by wires whose two endpoint keys both exist. |
| NodeMap.SingletonNodes | src/utils/simulator.ts:86-92 | Before any wire is read, each terminal key maps to the set holding only itself. The key order is the deduplicated order of first appearance. |
| NodeMap.AddTerminals | src/utils/simulator.ts:88-91 | Adding one component's terminals extends the key order by its new keys in order, without duplicates, and maps each key to itself alone. |
| NodeMap.MergeWire | src/utils/simulator.ts:95-107 | Merging one wire turns a map that was correct for the earlier wires into a map that is correct for the earlier wires plus this one. |
| NodeMap.MergeStep | src/utils/simulator.ts:102-106 | A wire whose two endpoints exist joins the two nodes it touches. Keys outside those two nodes keep their node. |
| NodeMap.IgnoredWire | src/utils/simulator.ts:99-102 | A wire with an endpoint key that is not a terminal changes no node. |
| NodeMap.NoWires | src/utils/simulator.ts:86-92 | With no wires every terminal is its own node. |
| NodeMap.ClassPartition | src/utils/simulator.ts:86-107 | Every key belongs to its own node, and a node contains only terminal keys. Two keys share a node exactly when their nodes are the same set, so the nodes form a partition. |
| NodeMap.ClassIgnoresWireOrder | src/utils/simulator.ts:95-107 | The final nodes do not depend on the order or repetition of the wires. |
| NodeMap.ConnectedSym | src/utils/simulator.ts:95-107 | Wire connectivity is symmetric. |
| NodeMap.ConnectedTrans | src/utils/simulator.ts:95-107 | Wire connectivity is transitive. |
| NodeMap.WireConnects | src/utils/simulator.ts:96-105 | The two endpoints of a wire whose endpoint keys both exist end up in the same node. |
| NodeMap.ClosedSetHoldsClass | src/utils/simulator.ts:95-107 | A key set that no valid wire leaves contains the whole node of each of its members. |
| NodeMap.ComponentKeys | src/utils/simulator.ts:88-90 | A component contributes one key per terminal, in terminal order. |
| Simulator.NumberNodes | src/utils/simulator.ts:120-132 | The numbered nodes are the distinct node sets, deduplicated in map iteration order. Node `n<i>` is the i-th of them. |
| Simulator.NodesNumberEverySet | src/utils/simulator.ts:121-132 | Node numbers are pairwise distinct. Every key's node set receives a number. Every numbered set is the node of some key. |
| Simulator.KeyNodeFound | src/utils/simulator.ts:138-146 | Looking up a terminal key always finds the number of its node set. |
| Simulator.FindNode | src/utils/simulator.ts:140-143 | A set is found exactly when it is numbered. The result is its first position. |
| Simulator.FirstGround | src/utils/simulator.ts:136-137 | The result is absent exactly when no component is a ground. Otherwise it is a ground of the list. |
| Simulator.ReferenceNodeChoice | src/utils/simulator.ts:134-148 | Without grounds the reference is `n0`. The reference is undefined, and the source throws, exactly when the first ground has no terminals. Otherwise the reference is the node of the first ground's first terminal. |
| Simulator.ComputeVoltages | src/utils/simulator.ts:150-191 | The loop over the components computes `Voltages`: every node starts at 0, then the sources write in component order. |
| Simulator.SourceWriteRule | src/utils/simulator.ts:157-187 | For a source `cs[i]` with at least two terminals on numbered nodes, and no later source writing the same node, the computed voltages hold: +value at the node of `terminals[1]` when the node of `terminals[0]` is the reference; otherwise −value at the node of `terminals[0]` when `terminals[1]` is on the reference; otherwise +value at the node of `terminals[1]`. |
| Simulator.UnwrittenNodeIsZero | src/utils/simulator.ts:150-154 | A node that no source writes stays at 0. |
| Simulator.LastWriterWins | src/utils/simulator.ts:157-191 | A node's voltage is the value written by the last source that writes it. |
| Simulator.ReferenceWrites | src/utils/simulator.ts:180-181 | A source writes the reference node exactly when both of its terminals sit on the reference. It then writes its own value there. |
| Simulator.ReferenceStaysZero | src/utils/simulator.ts:150-191 | The reference stays at 0 unless some source has both terminals on it. |
| Simulator.OhmsLaw | src/utils/simulator.ts:223-227 | A resistor with positive resistance R carries I with I·R = ΔV. Zero, negative or NaN resistance gives 0. |
| Simulator.DiodeLaw | src/utils/simulator.ts:228-236 | A diode or LED current is never negative. It is positive exactly when ΔV > 0.7, and then 0.7 + 100·I = ΔV. |
| Simulator.OtherKindsLaw | src/utils/simulator.ts:196-251 | With distinct ids, a battery or AC source whose two terminals are on numbered nodes has an entry of 0.1 in the component currents. A component that is not a resistor, diode, LED or source never has an entry. |
| Simulator.ComputeCurrents | src/utils/simulator.ts:193-251 | The loop over the components computes `Currents`. |
| Simulator.CurrentEntry | src/utils/simulator.ts:196-251 | With distinct component ids, a component has a current entry exactly when it has two terminals on numbered nodes and its current's magnitude exceeds 1e-10. The entry then holds that current. |
| Simulator.CurrentsKeys | src/utils/simulator.ts:194-247 | Only component ids get entries in the current loop. |
| Simulator.MarkWireCurrents | src/utils/simulator.ts:253-259 | The loop over the wires computes `MarkWires`. |
| Simulator.WireEntries | src/utils/simulator.ts:254-259 | Assume wire ids are distinct and clash with no component. Then a wire gets an entry exactly when its `from` component exists and has a nonzero entry, and the entry copies that signed value. |
| Simulator.MarkWiresFrame | src/utils/simulator.ts:254-259 | Wire marking keeps every entry that no wire id names. Every entry it produces is an old entry or a wire id. |
| Simulator.CheckVoltages | src/utils/simulator.ts:57-61 | The loop over the voltages computes `VoltageWarnings`. |
| Simulator.CheckCurrents | src/utils/simulator.ts:63-67 | The loop over the current entries computes `CurrentWarnings`. |
| Simulator.VoltageWarningsExact | src/utils/simulator.ts:57-61 | There is a high-voltage warning for node n with value x exactly when node n has voltage x and \|x\| > 1000. |
| Simulator.CurrentWarningsExact | src/utils/simulator.ts:63-67 | There is a high-current warning for an id and value exactly when that entry exists with magnitude above 100. |
| Simulator.PerformDCAnalysis | src/utils/simulator.ts:112-265 | The method computes `DCAnalysis`: numbering, reference choice, voltages, currents and wire marking. Its result is absent when the reference lookup throws. |
| Simulator.RunSimulation | src/utils/simulator.ts:16-78 | The method computes `Simulate` over the node map that `BuildNodeMap` builds. |
| SimulatorProps.SimulateOutcomes | src/utils/simulator.ts:16-78 | The outcomes are as follows. No source gives exactly the no-source error, with no warnings and empty maps. No terminals give exactly the no-connections error. A first ground without terminals gives exactly the caught "Simulation error:" entry. Otherwise there are no errors and one voltage per distinct node. "Unable to solve circuit" is never reported. |
| SimulatorProps.MissingGroundWarning | src/utils/simulator.ts:24-45 | The missing-ground warning appears exactly when the circuit has a source, has terminals and has no ground. |
| ComponentUtils.Match | src/utils/componentUtils.ts:107-108 | A match yields a non-empty numeral of digits and dots that starts the string, and a unit of unit letters that ends it, the two not overlapping. A string that is empty or does not start with a digit or dot has no match. |
| ComponentUtils.MatchIsPattern | src/utils/componentUtils.ts:107-108 | `Match` returns the numeral and unit exactly when the string has the form `[\d.]+\s*[a-zA-Zµ…Ω]*`. |
| ComponentUtils.FirstPrefix | src/utils/componentUtils.ts:114-129 | The result is the first multiplier-table entry, in table order, whose prefix starts the unit. It is absent when none does. |
| ComponentUtils.ParseFloat | src/utils/componentUtils.ts:110 | `parseFloat` of a numeral is never negative. It is NaN exactly when the numeral is empty, or starts with a dot not followed by a digit. A string of digits reads as the integer it denotes; the decimal case is `ComponentUtilsProps.DecimalValue`. |
| ComponentUtils.Lower | src/utils/componentUtils.ts:111 | `toLowerCase` keeps the length and lower-cases each character: A-Z and Ω map to their lower case, everything else in a unit is unchanged. |
| ComponentUtils.ParseComponentValue | src/utils/componentUtils.ts:104-132 | A parsed value is never negative: the pattern admits no sign and every multiplier is positive. The result is NaN exactly when the string matches and `parseFloat` of its numeral is NaN. |
| ComponentUtilsProps.ParseRejected | src/utils/componentUtils.ts:105-108 | A string that does not match the pattern parses to 0. |
| ComponentUtilsProps.SignedIsZero | src/utils/componentUtils.ts:107-108 | A leading sign makes the pattern fail, so the value is 0. |
| ComponentUtilsProps.ParseAccepted | src/utils/componentUtils.ts:110-131 | A matching string parses to parseFloat of the numeral, times the first multiplier whose prefix starts the lower-cased unit. With no such multiplier it is the bare numeral. |
| ComponentUtilsProps.FirstPrefixByHead | src/utils/componentUtils.ts:114-129 | The multiplier is decided by the unit's first character alone. The `meg` entry is never chosen. |
| ComponentUtilsProps.MegUnreachable | src/utils/componentUtils.ts:111-129 | A unit starting with "meg" gets the milli multiplier 0.001. |
| ComponentUtilsProps.IntegerWithUnit | src/utils/componentUtils.ts:107-131 | A digit string followed by unit letters parses to its decimal value, scaled by the first matching multiplier. |
| ComponentUtilsProps.DecimalValue | src/utils/componentUtils.ts:110 | `parseFloat` of digits `w`, a dot, digits `f` (at least one digit in all) and anything after a second dot is `w` plus the fraction `0.f`. |
| ComponentUtilsProps.NumeralWithUnit | src/utils/componentUtils.ts:107-131 | Any accepted numeral whose `parseFloat` is a number `x`, followed directly by unit letters, parses to `x` times the first matching multiplier, or to `x` when none matches. |
| ComponentUtilsProps.DecimalWithUnit | src/utils/componentUtils.ts:107-131 | A decimal numeral followed directly by unit letters parses to its decimal value times the first matching multiplier, or to the bare value when none matches. |
| ComponentUtilsProps.Parse9V | src/utils/componentUtils.ts:104-131 | "9V" parses to 9. |
| ComponentUtilsProps.Parse220Ohm | src/utils/componentUtils.ts:104-131 | "220Ω" parses to 220. |
| ComponentUtilsProps.Parse1KiloOhm | src/utils/componentUtils.ts:104-131 | "1kΩ" parses to 1000. |
| ComponentUtilsProps.Parse4Point7KiloOhm | src/utils/componentUtils.ts:104-131 | "4.7kΩ" parses to 4700. |
| ComponentUtilsProps.Parse10MicroFarad | src/utils/componentUtils.ts:104-131 | "10µF" parses to 0.00001. |
| ComponentUtilsProps.Parse100MilliHenry | src/utils/componentUtils.ts:104-131 | "100mH" parses to 0.1. |
| ComponentUtilsProps.Parse1MegIsMilli | src/utils/componentUtils.ts:111-129 | "1meg" and "1M" both parse to 0.001, not 10⁶: lower-casing turns "M" into "m", and "m" is tried before "meg". |
| ComponentUtils.CreateComponent | src/utils/componentUtils.ts:3-91 | A new component has the requested kind and position, rotation 0, an empty label and the given default value. Its id starts with the kind name. It has the kind's terminal count: 2, 3, 6, 1 or 0. Every terminal names the component and has an id prefixed by the component's id. Terminal ids are pairwise distinct. |
| CircuitStore.Store.constructor | src/store/circuitStore.ts:86-98 | The editor starts empty, with nothing selected, the select tool, zoom 1, grid on, no result and an empty history at index −1. |
| CircuitStore.PushedHistoryShape | src/store/circuitStore.ts:204-212 | A push drops the entries after the index and appends the snapshot. It keeps at most 50 entries, dropping the oldest one when full. |
| CircuitStore.Store.PushHistory | src/store/circuitStore.ts:204-212 | The history becomes the pushed history and the index points at its last entry. The invariant −1 ≤ index < length is kept. |
| CircuitStore.Store.AddComponent | src/store/circuitStore.ts:100-105 | The component is appended, then the new circuit is pushed onto the history. |
| CircuitStore.Store.UpdateComponent | src/store/circuitStore.ts:107-114 | Each component with the id gets the update, and all others are unchanged. Then the circuit is pushed. |
| CircuitStore.UpdateWhere | src/store/circuitStore.ts:107-114 | The length is kept, and only entries with the matching id change. |
| CircuitStoreProps.UpdateOnlyMatching | src/store/circuitStore.ts:107-114 | Components with other ids are unchanged. An unknown id changes nothing. |
| CircuitStore.Store.DeleteComponent | src/store/circuitStore.ts:116-125 | The component and every wire touching it go. The component selection clears only if it was that id. Then the circuit is pushed. |
| CircuitStoreProps.DeleteComponentEffect | src/store/circuitStore.ts:116-125 | Exactly the components with other ids survive, and exactly the wires with that id at neither end. Order is kept. |
| CircuitStoreProps.DeleteUnknownComponent | src/store/circuitStore.ts:118 | Deleting an id no component has keeps every component. |
| CircuitStore.Store.SelectComponent | src/store/circuitStore.ts:127-129 | Selecting a component clears the wire selection. |
| CircuitStore.Store.AddWire | src/store/circuitStore.ts:131-134 | The wire is appended, then the circuit is pushed. |
| CircuitStore.Store.DeleteWire | src/store/circuitStore.ts:136-142 | Exactly the wires with other ids stay. The wire selection clears only if it was that id. Then the circuit is pushed. |
| CircuitStore.Store.SelectWire | src/store/circuitStore.ts:144-146 | Selecting a wire clears the component selection. |
| CircuitStore.Store.SetTool | src/store/circuitStore.ts:148-150 | Changing the tool drops any pending wire start. |
| CircuitStore.Store.SetWireStart | src/store/circuitStore.ts:152-154 | The pending wire start becomes the given endpoint. |
| CircuitStore.Store.SetZoom | src/store/circuitStore.ts:156-158 | Zoom is clamped into [0.25, 3]. |
| CircuitStore.ClampZoomRange | src/store/circuitStore.ts:156-158 | The clamped zoom lies in [0.25, 3]. It is the input when the input is in range, and the nearer bound otherwise. |
| CircuitStore.Store.SetPanOffset | src/store/circuitStore.ts:160-162 | The pan offset becomes the given one. |
| CircuitStore.Store.ToggleGrid | src/store/circuitStore.ts:164-166 | The grid flag flips. |
| CircuitStore.Store.SetSimulationResult | src/store/circuitStore.ts:168-170 | The stored result becomes the given one. |
| CircuitStore.Store.ClearCircuit | src/store/circuitStore.ts:172-181 | The circuit, both selections and the result are emptied. Then the empty circuit is pushed. |
| CircuitStore.Store.ImportCircuit | src/store/circuitStore.ts:183-191 | The circuit becomes the imported one and both selections clear. Then it is pushed. |
| CircuitStore.Store.LoadProject | src/store/circuitStore.ts:193-202 | The circuit is replaced and both selections clear. Zoom is the given nonzero zoom, else 1. Pan is the given pan, else (0, 0). The history is not touched. |
| CircuitStore.Store.Undo | src/store/circuitStore.ts:214-225 | Above index 0, undo steps the index back and restores that snapshot. At 0 or −1 it changes nothing. The history itself never changes. |
| CircuitStore.Store.Redo | src/store/circuitStore.ts:227-238 | Below the last entry, redo steps forward and restores that snapshot. At the last entry it changes nothing. |
| CircuitStoreProps.UndoThenRedo | src/store/circuitStore.ts:214-238 | Undo then redo returns to the same index, with the circuit equal to that snapshot. |
| CircuitStoreProps.RedoThenUndo | src/store/circuitStore.ts:214-238 | Redo then undo returns to the same index, with the circuit equal to that snapshot. |
| CircuitStoreProps.AddThenUndo | src/store/circuitStore.ts:100-105 | Below the 50-entry limit (history index below 49), adding a component and then undoing returns to the same index and restores the circuit recorded there. |
| LearningSimulator.GenerateSimulationSteps | src/utils/learningSimulator.ts:5-201 | The pushes with the running `stepId` produce exactly `Steps`: the plan of drafts, numbered in order. |
| LearningSimulator.PushHead | src/utils/learningSimulator.ts:11-71 | The first pushes are the overview, then power sources, grounds and the current path when each is present, numbered from 0; the wires with current are exactly those with a truthy entry. |
| LearningSimulator.Push | src/utils/learningSimulator.ts:14-15 | Pushing a step with `id: stepId++` appends it numbered by its position and keeps the counter equal to the number of steps. |
| LearningSimulator.PushResistors | src/utils/learningSimulator.ts:74-98 | One step is pushed per resistor with a truthy current, in component order. |
| LearningSimulator.PushDiodes | src/utils/learningSimulator.ts:100-135 | One step is pushed per diode or LED, in component order. |
| LearningSimulator.PushCapacitors | src/utils/learningSimulator.ts:137-149 | One step is pushed per capacitor. |
| LearningSimulator.PushTransistors | src/utils/learningSimulator.ts:151-165 | One step is pushed per NPN or PNP transistor. |
| LearningSimulatorProps.StepsFrame | src/utils/learningSimulator.ts:11-198 | There are at least two steps. The first is the empty "Circuit Overview" step. The last is "Steady-State Condition"; it highlights every component and the wires with current, all flowing forward. Step ids are 0, 1, 2, … in list order. |
| LearningSimulatorProps.PowerStep | src/utils/learningSimulator.ts:24-39 | A "Power Source Initialization" step appears exactly when a battery or AC source exists. |
| LearningSimulatorProps.GroundStep | src/utils/learningSimulator.ts:42-52 | A "Ground Reference" step appears exactly when a ground exists. |
| LearningSimulatorProps.CurrentPathStep | src/utils/learningSimulator.ts:55-71 | A "Current Path Established" step appears exactly when some wire has a truthy current entry. Its flow lists exactly those wires, in wire order, forward. |
| LearningSimulatorProps.NodeVoltageStep | src/utils/learningSimulator.ts:168-181 | A "Node Voltage Analysis" step appears exactly when there are node voltages. |
| LearningSimulatorProps.StepCount | src/utils/learningSimulator.ts:74-165 | The step count is the fixed steps, plus one per resistor with current, one per diode or LED, one per capacitor and one per transistor. |
| LearningSimulatorProps.ResistorSteps | src/utils/learningSimulator.ts:76-96 | The j-th current-carrying resistor's step is at a fixed position. It is titled by the label, else "R". It highlights that resistor and the wires touching it. |
| LearningSimulatorProps.DiodeSteps | src/utils/learningSimulator.ts:102-133 | The j-th diode's step is at a fixed position. It is titled "LED" or "Diode" with the label, else "D". It highlights the touching wires only when \|I\| > 0.001. |
| LearningSimulatorProps.CapacitorSteps | src/utils/learningSimulator.ts:139-148 | The j-th capacitor's step is at a fixed position and has that position as its id. It is titled "Capacitor: " with the label, else "C". It highlights that capacitor alone, with no wires and no current flow. |
| LearningSimulatorProps.TransistorSteps | src/utils/learningSimulator.ts:155-164 | The j-th NPN or PNP transistor's step is at a fixed position and has that position as its id. It is titled "Transistor: " with the label, else "Q". It highlights that transistor alone, with no wires and no current flow. |
| LearningSimulatorProps.HasTitlePlan | src/utils/learningSimulator.ts:14-198 | A fixed title (overview, power, ground, current path, node voltages, steady state) occurs in the steps exactly when one of the fixed, non-component drafts carries it. |
| Templates.Find | src/utils/templates.ts:67 | The result is absent exactly when no template has the id. Otherwise it is the first template with the id. |
| Templates.TableIds | src/utils/templates.ts:12-63 | The table has the four templates "simple-led", "voltage-divider", "rc-filter" and "transistor-switch", in order, and their ids are distinct. |
| Templates.TableUnwired | src/utils/templates.ts:12-63 | No template in the table has wires. |
| Templates.SimpleLedParts | src/utils/templates.ts:13-24 | "simple-led" holds a battery, a resistor, an LED and a ground, in that order. They have 2, 2, 2 and 1 terminals, and the terminal ids within each part are distinct. |
| Templates.GetTemplateWithWires | src/utils/templates.ts:66-133 | An unknown id gives nothing. A known id gives that template with the same components. Only "simple-led" gets wires, exactly its four wires; every other template gets none. |
| Templates.Lookup | src/utils/templates.ts:67-132 | Over any table laid out as the templates are: an unknown id gives nothing; a known id gives a template with that id whose unwired form is in the table. "simple-led" keeps its components and gets exactly its four wires; every other template gets none. |
| Templates.WireSimpleLed | src/utils/templates.ts:77-127 | The four pushes produce battery T2→resistor T1, resistor T2→LED T1, LED T2→ground and ground→battery T1. |
| TemplatesProps.WireIdsDistinct | src/utils/templates.ts:83-127 | The four wire ids (lines 85, 95, 106 and 119) are pairwise distinct for any clock readings. |
| TemplatesProps.SampleWires | src/utils/templates.ts:83-126 | Each wire's endpoint keys are the terminals named above. |
| TemplatesProps.ThreeNodes | src/utils/templates.ts:83-126 | Through the connectivity theory the wiring has three nodes: {battery T1, LED T2, ground}, {battery T2, resistor T1} and {resistor T2, LED T1}. |
| TemplatesProps.SimpleLedNodeMap | src/utils/templates.ts:66-133 | Running `BuildNodeMap` on the wired "simple-led" template gives exactly those three pairwise disjoint nodes. |
| ProjectStore.Store.constructor | src/store/projectStore.ts:29-43 | There is one project, "default", named "Untitled Circuit 1", with an empty circuit, created and updated at two separate clock readings. It is active. |
| ProjectStore.Store.CreateProject | src/store/projectStore.ts:45-62 | One empty project is appended and made active. It has zoom 1 and pan (0, 0), its creation and update times are the two clock readings, and its name defaults to "Untitled Circuit N+1". The list stays non-empty with distinct ids. |
| ProjectStore.Store.DeleteProject | src/store/projectStore.ts:64-80 | With one project nothing happens. Otherwise exactly the projects with other ids stay. A deleted active project hands over to the first remaining one. The list stays non-empty. |
| ProjectStore.RemoveOneKeepsSome | src/store/projectStore.ts:71-73 | Filtering one id out of two or more distinct ids leaves a non-empty list with distinct ids. |
| ProjectStoreProps.DeleteRemovesOnlyThatId | src/store/projectStore.ts:71 | Exactly the projects with other ids survive. |
| ProjectStore.Store.SetActiveProject | src/store/projectStore.ts:82-84 | The active id becomes the given id, whether or not a project has it. |
| ProjectStore.Store.RenameProject | src/store/projectStore.ts:86-92 | Only projects with the id get the new name and update time. All others are untouched. |
| ProjectStore.Store.UpdateProjectData | src/store/projectStore.ts:94-100 | Only projects with the id get the given fields and a new update time. All others are untouched. |
| ProjectStore.Update | src/store/projectStore.ts:97 | An update keeps the project's id and creation time and stamps the update time. |
| ProjectStore.Store.GetActiveProject | src/store/projectStore.ts:102-105 | The result is the first project with the active id, as `find` returns it. It is absent exactly when no project has that id. |
| ProjectStoreProps.ActiveMayBeMissing | src/store/projectStore.ts:82-105 | Activating an id no project has makes `GetActiveProject` return nothing. |
| ProjectStoreProps.CreateThenActive | src/store/projectStore.ts:45-62 | After a create, the active project (the getter at lines 102-105) is the new, empty one. |
| ProjectStore.FindProject | src/store/projectStore.ts:109 | The result is absent exactly when no project has the id. Otherwise it is the first project with the id: no earlier project has it. |
| ProjectStore.Store.DuplicateProject | src/store/projectStore.ts:107-124 | An unknown id changes nothing. Otherwise a copy named "<name> (Copy)" with the new id, and with creation and update times from two separate clock readings, is appended and made active. All other fields are the original's. |
| LearningStore.Store.constructor | src/store/learningStore.ts:45-52 | Learning starts off, at speed 1, step 0, with no steps or particles, paused and with empty notes. |
| LearningStore.Store.SetLearningMode | src/store/learningStore.ts:54 | Only the learning flag changes, to the given value. |
| LearningStore.Store.SetSimulationSpeed | src/store/learningStore.ts:56 | Only the speed changes, to the given value. |
| LearningStore.Store.ClearParticles | src/store/learningStore.ts:87 | Only the particles change: none are left. |
| LearningStore.Store.SetIsPlaying | src/store/learningStore.ts:89 | Only the playing flag changes, to the given value. |
| LearningStore.Store.SetUserNotes | src/store/learningStore.ts:91 | Only the notes change, to the given text. |
| LearningStore.Store.SetCurrentStep | src/store/learningStore.ts:58-63 | The cursor moves only to an existing step. It stays 0 or inside the steps. |
| LearningStore.Store.SetSimulationSteps | src/store/learningStore.ts:65 | New steps reset the cursor to 0. |
| LearningStore.Store.AddParticle | src/store/learningStore.ts:67-71 | Exactly one particle is appended at the end. |
| LearningStore.Store.UpdateParticles | src/store/learningStore.ts:73-85 | Paused, nothing changes. Playing, every particle advances by speed × simulation speed × 0.01, and those past 1 are dropped. |
| LearningStore.TickKeepsOnWire | src/store/learningStore.ts:76-84 | After a tick every particle has progress ≤ 1 and is an earlier particle, advanced. |
| LearningStore.TickKeepsOrder | src/store/learningStore.ts:76-84 | A tick keeps the order of the particles. |
| LearningStore.TickDropsNone | src/store/learningStore.ts:83 | When nothing passes 1, a tick only advances the particles. |
| LearningStore.Store.NextStep | src/store/learningStore.ts:93-98 | The cursor advances only below the last step. |
| LearningStore.Store.PreviousStep | src/store/learningStore.ts:100-105 | The cursor goes back only above 0. |
| LearningStore.Store.Reset | src/store/learningStore.ts:107-113 | The cursor is 0, there are no particles, and playback is paused. Steps, notes and speed stay. |
| LearningStoreProps.NextThenPrevious | src/store/learningStore.ts:93-105 | Below the last step, next then previous returns to the same step. |
| LearningStoreProps.NoStepsNoMove | src/store/learningStore.ts:58-105 | With no steps the cursor stays at 0 through a next, a previous and a set-current-step call. |
| DrawingStore.Store.constructor | src/store/drawingStore.ts:58-69 | Drawing starts with the pencil, colour #3b82f6, width 3, opacity 1, no fill, nothing drawn or in progress, and tools hidden. |
| DrawingStore.Store.SetDrawingTool | src/store/drawingStore.ts:71 | Only the tool changes, to the given one. |
| DrawingStore.Store.SetDrawingColor | src/store/drawingStore.ts:72 | Only the colour changes, to the given one. |
| DrawingStore.Store.SetDrawingWidth | src/store/drawingStore.ts:73 | Only the width changes, to the given one. |
| DrawingStore.Store.SetDrawingOpacity | src/store/drawingStore.ts:74 | Only the drawing opacity changes, to the given value, unclamped. |
| DrawingStore.Store.SetFillShapes | src/store/drawingStore.ts:75 | Only the fill flag changes, to the given value. |
| DrawingStore.Store.SetShowDrawingTools | src/store/drawingStore.ts:152 | Only the tools flag changes, to the given value. |
| DrawingStore.NewPath | src/store/drawingStore.ts:82-89 | A new path holds only its start point. The eraser paints opaque white. The highlighter doubles the width at opacity 0.3. The pencil uses the current colour, width and opacity. |
| DrawingStore.Store.StartDrawing | src/store/drawingStore.ts:77-104 | Freehand tools start a path. Shape tools start a shape whose start and end are the point, with the fill setting. "select" changes nothing. |
| DrawingStore.Store.ContinueDrawing | src/store/drawingStore.ts:106-123 | Outside a gesture nothing changes. Otherwise the point is appended to the path in progress, or else becomes the end of the shape in progress. |
| DrawingStore.Store.EndDrawing | src/store/drawingStore.ts:125-142 | Outside a gesture, or with nothing in progress, nothing changes. Otherwise the path in progress is filed, or else the shape, that item is cleared and the gesture ends. |
| DrawingStoreProps.FreehandGesture | src/store/drawingStore.ts:77-142 | A freehand start, continues and end from idle add exactly one path. Its points are the start followed by the moves in order. |
| DrawingStoreProps.ShapeGesture | src/store/drawingStore.ts:77-142 | A shape start, continues and end from idle add exactly one shape, ending at the last move or else at the start. |
| DrawingStore.Store.AddPath | src/store/drawingStore.ts:144 | The path is appended. |
| DrawingStore.Store.AddShape | src/store/drawingStore.ts:145 | The shape is appended. |
| DrawingStore.Store.RemovePath | src/store/drawingStore.ts:146 | Exactly the paths with other ids stay, in order. |
| DrawingStore.Store.RemoveShape | src/store/drawingStore.ts:147 | Exactly the shapes with other ids stay, in order. |
| DrawingStore.RemoveOnlyThatId | src/store/drawingStore.ts:146-147 | Removal keeps exactly the entries with other ids and keeps their order. |
| DrawingStore.Store.ClearDrawings | src/store/drawingStore.ts:149 | Paths, shapes and both items in progress are emptied. A gesture under way stays under way. |
| DrawingStore.Store.ToggleDrawingTools | src/store/drawingStore.ts:151 | The tools flag flips. |
| ReferenceImageStore.Store.constructor | src/store/referenceImageStore.ts:46-60 | The panel starts with no image, position (100, 100), size 400×300, opacity 0.7, every flag off and the default original size. |
| ReferenceImageStore.Store.SetPosition | src/store/referenceImageStore.ts:108 | Only the position changes, to the given point. |
| ReferenceImageStore.Store.SetSize | src/store/referenceImageStore.ts:109 | Only the size changes, to the given size. |
| ReferenceImageStore.Store.RemoveImage | src/store/referenceImageStore.ts:94-106 | Every field returns to its initial value. |
| ReferenceImageStore.ClampOpacity | src/store/referenceImageStore.ts:110 | The result lies in [0, 1]. It is the input when the input is in range, and the nearer bound otherwise. |
| ReferenceImageStore.Store.SetOpacity | src/store/referenceImageStore.ts:110 | Opacity becomes the clamped request and stays in [0, 1]. |
| ReferenceImageStore.Store.IncreaseOpacity | src/store/referenceImageStore.ts:112-115 | Opacity rises by 0.1, capped at 1. It never falls and never exceeds 1. |
| ReferenceImageStore.Store.DecreaseOpacity | src/store/referenceImageStore.ts:117-120 | Opacity falls by 0.1, floored at 0. It never rises and never goes below 0. |
| ReferenceImageStore.Store.ToggleFullscreen | src/store/referenceImageStore.ts:122 | Only the fullscreen flag flips. |
| ReferenceImageStore.Store.ToggleOverlay | src/store/referenceImageStore.ts:123 | Only the overlay flag flips. |
| ReferenceImageStore.Store.TogglePin | src/store/referenceImageStore.ts:124 | Only the pin flag flips. |
| ReferenceImageStore.Store.TogglePanel | src/store/referenceImageStore.ts:125 | Only the panel flag flips. |
| ReferenceImageStoreProps.ToggleTwice | src/store/referenceImageStore.ts:122-125 | Toggling each flag twice restores every flag. |
| ReferenceImageStore.Store.ResetTransform | src/store/referenceImageStore.ts:127-134 | Position, size and opacity return to their defaults, and fullscreen and overlay turn off. Image, pin, panel and original size stay. |
| ReferenceImageStore.Store.SetOriginalSize | src/store/referenceImageStore.ts:136 | The original size becomes the given one. |
| ReferenceImageStore.Store.ExportState | src/store/referenceImageStore.ts:138-163 | The image travels only when the url is a non-empty string, as that url with the file's name. The seven display fields are copied unchanged. |
| ReferenceImageStoreProps.RemoveThenExport | src/store/referenceImageStore.ts:94-150 | After removal (lines 94-106) the export (lines 138-150) carries no image and the default display. |
| ReferenceImageStoreProps.TenStepsToOpaque | src/store/referenceImageStore.ts:110-115 | From opacity 0, ten increases reach exactly 1. |

## Left out

Clocks, randomness and the browser:
- Ids and times that come from `Date.now()` and `Math.random()` are parameters: `now`, `created`, `updated`, `random`, `newId`, `id`, `stamp` and `clock`.
  - Where the source calls `Date.now()` twice for `createdAt` and `updatedAt`, the two readings are two parameters, `created` and `updated`.
  - In the templates, each `createComponent` call gets its own stamp, and each wire gets its own clock reading.
- `getTerminalPosition` is geometry and is not modelled.
- `setImage` is not modelled: it waits on a browser `Image` load and fits the aspect ratio in floating point.
- `importState` is not modelled: it awaits `fetch` and builds a `File`.
- `generateCurrentFlowExplanation` is not modelled. Neither is the prose `description` of each learning step: it is `toFixed` formatting, and it includes the resistor's voltage drop. Steps keep their titles, highlights and flows.
- React components, rendering, persistence and themes are not modelled.

Numbers:
- Every JavaScript number is a mathematical real, not an IEEE-754 double: voltages and currents, and also opacity, zoom, particle progress and speed, and drawing widths. Rounding, overflow and infinities are not modelled.
- `Dict` entries are listed in insertion order. JavaScript lists keys that read as array indices ("0", "17") first, in ascending numeric order. Component ids of that form would reorder the high-current warnings in the source; the model keeps insertion order.
- NaN is modelled where the code can produce it: `parseFloat` of "." and the `x || 0` fallback. Elsewhere it is not; for example a NaN opacity sent to `setOpacity`, or a NaN zoom.

Keys, nodes and simulation errors:
- Terminal keys are pairs (component id, terminal id). The source joins them as the string `${componentId}:${terminalId}`, and two different pairs can collide when an id contains ':'. That collision is not modelled.
- Node names `n<i>` are modelled as the index `i`. The nodes are ordered as JavaScript `Map` iteration orders them, which is first-insertion order.
- A ground with no terminals makes `performDCAnalysis` throw a TypeError, which `runSimulation` catches. The modelled message text is the V8 engine's wording for that TypeError.
- The unit prefix `meg` appears in the multiplier table after `m`. The code checks `m` first, so "1meg" and "1M" both give 0.001. The model follows the code; `MegUnreachable` and `Parse1MegIsMilli` state this.

Weaker contracts and extra preconditions:
- ReferenceImageStoreProps.TenStepsToOpaque: holds in real arithmetic only. In IEEE-754 doubles, ten steps of `Math.min(1, x + 0.1)` from 0 end at 0.9999999999999999, not 1.
- ProjectStore.Store.CreateProject: requires that `newId` is not already used. The source's `project-${Date.now()}` is never checked against existing ids; the requirement keeps ids distinct.
- ProjectStore.Store.DuplicateProject: requires a fresh `newId`, for the same reason as `CreateProject`.
- ProjectStore.Update: the update record cannot carry `id`, `createdAt` or `updatedAt`. In the source, a `Partial<Project>` could overwrite `id` and `createdAt`.
- LearningStore.Store.SetCurrentStep: the source's `step` is a JavaScript number. The model takes an integer, so fractional steps are not modelled.
- DrawingStore.Store.EndDrawing: ending a freehand gesture does not clear a shape left in progress. The model keeps that stale shape, as the source does, so the store invariant says nothing about shapes in progress.
