# A verified model of a discrete-event simulation kernel

This project models the kernel of a C++ discrete-event simulation engine (`DESimulator`) and
proves what the code promises about it. The engine has these parts:

- a singleton simulator, holding:
  - a priority queue of future events, ordered by occurrence time;
  - a clock;
  - a processed-module marker;
  - a simulation pattern, under which either modules or events carry the behaviour;
  - a stage machine Out → Initialization → Events → PostProcessing → Out;
- events (`SimulationEvent`), of two concrete classes:
  - `ModuleTimer`, owned by a module;
  - `MovingParticle`, which travels between modules;
- simulation modules (`SimulationModule`), with:
  - guarded hooks;
  - a set of captured particles;
  - neighbour vectors taken from the simulation graph;
- a generic directed graph (`cGenericGraph`), with a GraphML export;
- fixed-point simulation time (`SimulationTime`);
- named objects (`BaseObject`);
- a generator of unique identifiers (`UniqueIDGenerator`).

## Layout

| file | module | models |
|---|---|---|
| `common.dfy` | `Common` | integer widths, identifiers, sentinels, handles, `Option`/`Result`/`Outcome`, the exceptions |
| `stages.dfy` | `Stages` | the two enumerations of `DESimulator.h` |
| `ordered_sets.dfy` | `OrderedSets` | the order in which a `std::set` of identifiers is visited |
| `simulation_time.dfy` | `SimTime` | `SimulationTime` as a value; a `TimeVariable` class for `=`, `+=` and `-=` |
| `base_object.dfy` | `BaseObjects` | `BaseObject` as a value; a `BaseObjectVar` class for its setters and `operator=` |
| `unique_id_generator.dfy` | `UniqueIds` | the generator, as a class with 64-bit wrap-around |
| `graph_core.dfy` | `GraphCore` | the graph's two maps as values, and the arc bookkeeping lemmas |
| `generic_graph.dfy` | `Graphs` | `cGenericGraph` as a class: every `add`, `remove`, lookup, probe, count and `save` |
| `graphml.dfy` | `GraphML` | the text that `save` writes |
| `simulation_event.dfy` | `Events` | events as values (with a closed kind `Timer | Particle`), their constructors, comparisons and guards |
| `simulation_module.dfy` | `Modules` | modules as values, their guards, particle set and neighbour vectors |
| `event_queue.dfy` | `EventQueue` | the queue ordering, `pop`, and the two queue loops of cancel and clean-up |
| `kernel.dfy` | `Kernel` | every operation that reads or changes the simulator, as a transition of a state value |
| `kernel_props.dfy` | `KernelProps` | what those transitions do, as lemmas |
| `desimulator.dfy` | `Simulator` | class `DESimulator`: the source's loops, each method proved equal to its `Kernel` transition |

### How the model is built

Everything is proved in two layers:

1. `Kernel` states each source operation as a pure transition of a `SimState`, and `KernelProps` proves what those transitions do.
2. Class `DESimulator` implements the same operations with the source's `while` and `for` loops over its own fields, and each method's `ensures` ties its outcome and new state to the `Kernel` transition.

**Errors.** A C++ exception becomes an `Outcome` or `Result` error. Whatever the code changed before it threw is kept: the state after a failure is the state at the throw.

**Objects.**
- Heap objects (events, modules) live in arenas, which are maps from handles to values inside the state.
- A deleted event's handle simply leaves its arena.
- Using a handle that is no longer in the arena gives the model-only error `DanglingPointer`.

**User code.**
- The virtual hooks are driven by a trace of `Reaction`s, one consumed per hook call:
  - `Inherited` runs the base-class body;
  - `Override` runs a list of `Command`s: the calls a subclass can make on events, timers and particles, the departure, and capturing and releasing particles. The public calls left out are listed under "Left out".
- Every hook call is logged with the module being processed when it ran.
- A command that C++ would not compile, such as a timer operation on a particle, gives the model-only error `IllTypedCommand`.

**Time.** `SimulationTime` is the exact signed 64-bit raw count. `+` and `-` require the result to stay in range, because signed overflow is undefined.

## Model

| member | source | states |
|---|---|---|
| SimTime.SimulationTime.Eq | src/simulationtime.h:104-107 | `==` holds exactly for equal raw counts |
| SimTime.SimulationTime.Ne | src/simulationtime.h:112-115 | `!=` is the negation of `==` |
| SimTime.SimulationTime.Lt | src/simulationtime.h:120-123 | `<` is irreflexive and asymmetric |
| SimTime.SimulationTime.Le | src/simulationtime.h:128-131 | `== \|\| <` is exactly `raw <= other.raw` |
| SimTime.SimulationTime.Gt | src/simulationtime.h:136-139 | `>` is the converse of `<` |
| SimTime.SimulationTime.Ge | src/simulationtime.h:144-147 | `== \|\| >` is the converse of `<=` |
| SimTime.SimulationTime.Plus | src/simulationtime.cpp:231-236 | the raw sum; subtracting the right operand from it gives the left one |
| SimTime.SimulationTime.Minus | src/simulationtime.cpp:238-243 | the raw difference; adding the right operand back gives the left one |
| SimTime.FromZero | src/simulationtime.cpp:28-32 | the time built from 0 is at or before exactly the non-negative times |
| SimTime.Trichotomy | src/simulationtime.h:104-147 | exactly one of `<`, `==` and `>` holds; `<=`, `>=` and `!=` are their negations and unions |
| SimTime.LtTransitive | src/simulationtime.h:120-123 | `<` is transitive and asymmetric |
| SimTime.PlusMinusRoundTrip | src/simulationtime.cpp:207-217 | `(a + b) - b == a` whenever `a + b` is in range |
| SimTime.MinusPlusRoundTrip | src/simulationtime.cpp:207-217 | `(a - b) + b == a` whenever `a - b` is in range |
| SimTime.PlusMonotone | src/simulationtime.cpp:207-211 | adding the same delay keeps `<=`; a non-negative delay never moves a time back |
| SimTime.TimeVariable.constructor | src/simulationtime.cpp:22-26 | the copy holds the initial time |
| SimTime.TimeVariable.Assign | src/simulationtime.h:94-99 | assignment copies the raw value, self-assignment included |
| SimTime.TimeVariable.AddAssign | src/simulationtime.cpp:207-211 | `+=` leaves the old value plus the operand |
| SimTime.TimeVariable.SubAssign | src/simulationtime.cpp:213-217 | `-=` leaves the old value minus the operand |
| SimTime.Sum | src/simulationtime.cpp:231-236 | `+` works on a copy, so it returns `a.Plus(b)` and changes neither operand |
| SimTime.Difference | src/simulationtime.cpp:238-243 | `-` works on a copy, so it returns `a.Minus(b)` and changes neither operand |
| BaseObjects.FromCString | lib/BaseObject.cpp:14-20 | kind 0; a null name gives the empty name, any other name is copied |
| BaseObjects.FromString | lib/BaseObject.cpp:22-27 | kind 0 with the given name; the same as the `const char*` constructor on a non-null name |
| BaseObjects.Equals | lib/BaseObject.cpp:48-51 | `==` (kind and name) holds exactly for equal objects |
| BaseObjects.NotEquals | lib/BaseObject.cpp:53-56 | `!=` is the negation of `==` |
| BaseObjects.WithName | lib/BaseObject.cpp:58-64 | the kind is kept; a null name clears the name |
| BaseObjects.WithNameString | lib/BaseObject.cpp:66-69 | the kind is kept and the name replaced; it agrees with the `const char*` setter |
| BaseObjects.WithKind | lib/BaseObject.cpp:81-84 | the name is kept and the kind replaced, so `kind()` returns the last value set |
| BaseObjects.SettersCommute | lib/BaseObject.cpp:58-84 | setting a name and a kind in either order gives the object with both |
| BaseObjects.BaseObjectVar.FromPointer | lib/BaseObject.cpp:14-20 | the new object is the `const char*` construction |
| BaseObjects.BaseObjectVar.Copy | lib/BaseObject.cpp:29-33 | the copy equals the original |
| BaseObjects.BaseObjectVar.Assign | lib/BaseObject.cpp:39-46 | assignment copies name and kind, self-assignment included |
| BaseObjects.BaseObjectVar.SetName | lib/BaseObject.cpp:58-64 | the object becomes `WithName` of its old value |
| BaseObjects.BaseObjectVar.SetNameString | lib/BaseObject.cpp:66-69 | the object becomes `WithNameString` of its old value |
| BaseObjects.BaseObjectVar.SetKind | lib/BaseObject.cpp:81-84 | the object becomes `WithKind` of its old value |
| UniqueIds.IdAt | src/uniqueidgenerator.h:16-20 | the i-th identifier handed out is i, below 2^64 |
| UniqueIds.UniqueIdGenerator.constructor | src/uniqueidgenerator.h:64-67 | a fresh generator has handed out nothing |
| UniqueIds.UniqueIdGenerator.NewId | src/uniqueidgenerator.h:16-20 | returns the counter before incrementing it; both counters go up by one, modulo 2^64; the history grows by the returned identifier |
| UniqueIds.UniqueIdGenerator.PreviousId | src/uniqueidgenerator.h:25-28 | the identifier last handed out, or all ones before the first |
| UniqueIds.UniqueIdGenerator.IdNumber | src/uniqueidgenerator.h:33-36 | the number of identifiers handed out since the last reset, modulo 2^64 |
| UniqueIds.UniqueIdGenerator.Reset | src/uniqueidgenerator.h:41-45 | both counters go back to 0, and the history restarts |
| UniqueIds.IssuedAreUnique | src/uniqueidgenerator.h:16-20 | below 2^64 requests, the identifiers handed out are strictly increasing, hence unique |
| UniqueIds.WrapsAround | src/uniqueidgenerator.h:16-20 | the 2^64-th request after a reset gives the first identifier again |
| OrderedSets.AscendingEnumerates | src/genericgraph.h:761-767 | the visiting order of a set of identifiers lists each member once, in increasing order |
| GraphCore.MapInsert | src/genericgraph.h:542-579 | `std::map::insert` adds a pair only under an absent key |
| GraphCore.ArcSetMembership | src/genericgraph.h:770-777 | an arc is stored iff its head is among its tail's successors |
| GraphCore.ArcExistsIff | src/genericgraph.h:936-947 | an arc exists iff its head is a successor of its tail and its tail a predecessor of its head |
| GraphCore.ArcsFromAreArcs | src/genericgraph.h:780-788 | the arcs of a vertex are the stored arcs with that tail |
| GraphCore.ArcsFromCard | src/genericgraph.h:863-866 | a vertex has as many outgoing arcs as successors |
| GraphCore.ArcsIntoStored | src/genericgraph.h:820-827 | the stored predecessors of a vertex are the tails of the arcs into it |
| GraphCore.ArcsIntoCard | src/genericgraph.h:875-878 | a vertex has as many incoming arcs as stored predecessors |
| GraphCore.AddIsolatedKeepsArcs | src/genericgraph.h:542-579 | adding a vertex under a new identifier adds no arc |
| GraphCore.RebindKeepsArcs | src/genericgraph.h:887-898 | rebinding a vertex's payload changes no arc |
| GraphCore.LinkArcEffect | src/genericgraph.h:643-649 | linking adds exactly the arc tail → head and keeps both sides in agreement |
| GraphCore.WithEndpointsKeepsArcs | src/genericgraph.h:623-640 | inserting missing endpoints adds no arc and keeps every stored vertex |
| GraphCore.AddArcEffect | src/genericgraph.h:621-650 | add(id1, id2, arc, true) adds exactly the arc id1 → id2, keeps every stored payload and gives new endpoints the default payload |
| GraphCore.UnlinkArcEffect | src/genericgraph.h:1019-1041 | unlinking removes exactly the arc tail → head and keeps both sides in agreement |
| GraphCore.DetachEffect | src/genericgraph.h:961-988 | removing a vertex removes exactly its incident arcs, and no vertex names it any more |
| GraphCore.IncidentCard | src/genericgraph.h:961-988 | a vertex has as many incident arcs as predecessors plus successors other than itself |
| GraphCore.DetachCard | src/genericgraph.h:961-988 | removing a vertex lowers the number of stored arcs by its in-degree plus its out-degree, a self-loop counted once |
| GraphCore.DetachInSteps | src/genericgraph.h:966-983 | the two passes of `remove(id)` produce the detached map |
| GraphCore.DetachKeepsValid | src/genericgraph.h:961-988 | after removing a vertex the counter still bounds the stored arcs |
| Graphs.GenericGraph.constructor | src/genericgraph.h:454-462 | an empty graph with the given name, no arcs and no dangling vertex |
| Graphs.GenericGraph.SetName | src/genericgraph.h:483-493 | only the name changes |
| Graphs.GenericGraph.Clear | src/genericgraph.h:519-530 | no vertex, no arc, no dangling vertex, a zero counter; the name stays |
| Graphs.GenericGraph.AddVertex | src/genericgraph.h:542-579 | without an identifier, a known payload returns its identifier and nothing changes, and a new one gets the next generated identifier; with an unused identifier the vertex is inserted there, and a payload already stored leaves it sharing that payload's entry; with a used identifier its payload is rebound as by `setVertex`, which for a dangling vertex is a dangling pointer that changes nothing; no arc changes |
| Graphs.GenericGraph.AddGenerated | src/genericgraph.h:544-559 | a new payload is stored under the next generated identifier, with no arcs |
| Graphs.GenericGraph.InsertVertexAt | src/genericgraph.h:561-577 | the vertex is stored under an unused identifier, with no arcs |
| Graphs.GenericGraph.SetVertex | src/genericgraph.h:887-898 | an unknown identifier changes nothing, and a dangling vertex is a dangling pointer that changes nothing; otherwise the old payload entry is erased, the vertex is rebound to the new payload, and exactly the other live vertices that shared the erased entry become dangling; no arc changes |
| Graphs.GenericGraph.AddArc | src/genericgraph.h:621-650 | a missing endpoint without `addVertexIfMissing` returns `IllegalArcID` and changes nothing; otherwise it returns (id1, id2), the arc is stored on both sides and the counter goes up by one, even when the arc was already there |
| Graphs.GenericGraph.StoreEndpoints | src/genericgraph.h:623-640 | the missing endpoints are inserted with the default payload |
| Graphs.GenericGraph.LinkStored | src/genericgraph.h:643-649 | both insertions of the arc, and the counter up by one |
| Graphs.GenericGraph.AddArcByPayload | src/genericgraph.h:589-611 | without `addVertexIfMissing`, an unknown payload returns `IllegalArcID` and changes nothing; otherwise each missing payload becomes a vertex under a freshly issued identifier, earlier vertices stay, and when both identifiers are vertices the arc is linked on both sides, its identifier pair is returned and the arc count rises by one |
| Graphs.GenericGraph.RemoveVertex | src/genericgraph.h:961-988 | returns true iff the vertex exists and is not dangling; a dangling one is a dangling pointer that changes nothing; after a removal the vertex and its incident arcs are gone, the counter drops by its degree, no other vertex names it, and exactly the other live vertices that shared its payload entry become dangling |
| Graphs.GenericGraph.RemoveVertexByPayload | src/genericgraph.h:951-958 | removes the vertex of a stored payload, with the same effect and the same dangling-pointer case; an unknown payload returns false and changes nothing |
| Graphs.GenericGraph.RemoveArcBetween | src/genericgraph.h:1019-1041 | returns true iff the arc existed; it is then removed from both sides and the counter drops by exactly one; otherwise nothing changes |
| Graphs.GenericGraph.RemoveArc | src/genericgraph.h:991-1002 | the same for an `ArcID` |
| Graphs.GenericGraph.RemoveArcByPayloads | src/genericgraph.h:1005-1016 | corrected: removes the arc between the identifiers of two stored payloads, with the same effect |
| Graphs.GenericGraph.VertexIdOf | src/genericgraph.h:666-673 | the identifier of a stored payload, otherwise `IllegalVertexID` |
| Graphs.GenericGraph.VertexOf | src/genericgraph.h:676-686 | the payload of a live vertex, which is a stored payload; an unknown identifier throws `invalid_argument`, and a dangling vertex is a dangling pointer |
| Graphs.SharersIn | src/genericgraph.h:570-575 | the vertices that share a payload entry with a vertex are live, are vertices, and exclude the vertex itself |
| Graphs.DetachKeepsLive | src/genericgraph.h:983-985 | erasing a live vertex with its payload entry leaves every live vertex outside the entry's sharers naming a stored payload |
| Graphs.RebindKeepsLive | src/genericgraph.h:893-897 | erasing and reinserting a live vertex's entry leaves every live vertex naming a stored payload once the old entry's sharers are dangling |
| Graphs.GenericGraph.ArcBetween | src/genericgraph.h:703-718 | the arc (id1, id2) if it is stored, otherwise `IllegalArcID` |
| Graphs.GenericGraph.ArcBetweenPayloads | src/genericgraph.h:689-700 | the stored arc between the identifiers of two payloads, otherwise `IllegalArcID` |
| Graphs.GenericGraph.ArcData | src/genericgraph.h:721-746 | the data of a stored arc, otherwise `invalid_argument` |
| Graphs.GenericGraph.PredecessorsOf | src/genericgraph.h:820-827 | exactly the tails of the arcs into the vertex; empty for an unknown vertex |
| Graphs.GenericGraph.PredecessorsOfPayload | src/genericgraph.h:830-836 | the same for a payload; empty for an unknown payload |
| Graphs.GenericGraph.IsEmpty | src/genericgraph.h:906-909 | an empty graph stores no arc |
| Graphs.GenericGraph.ExistsPayload | src/genericgraph.h:912-915 | agrees with the payload lookup |
| Graphs.GenericGraph.ExistsId | src/genericgraph.h:918-921 | holds iff the lookup of the identifier does not throw `invalid_argument`, so a dangling vertex exists |
| Graphs.GenericGraph.ExistsArcBetween | src/genericgraph.h:930-933 | holds iff the arc is stored and is not `IllegalArcID` |
| Graphs.GenericGraph.ExistsArcPayloads | src/genericgraph.h:924-927 | holds iff both payloads are stored and the arc between their identifiers is |
| Graphs.GenericGraph.ExistsArc | src/genericgraph.h:936-947 | holds iff the arc is stored |
| Graphs.GenericGraph.VerticesNb | src/genericgraph.h:839-842 | the number of stored payloads |
| Graphs.GenericGraph.ArcsNb | src/genericgraph.h:845-848 | never below the number of stored arcs; equal to it when no arc was ever added twice |
| Graphs.GenericGraph.SuccessorsNb | src/genericgraph.h:863-866 | the number of arcs leaving the vertex |
| Graphs.GenericGraph.ArcsNbFrom | src/genericgraph.h:851-854 | the same count as `successorsNb` |
| Graphs.GenericGraph.PredecessorsNb | src/genericgraph.h:875-878 | the number of stored arcs into the vertex |
| Graphs.GenericGraph.Vertices | src/genericgraph.h:761-767 | the set of stored identifiers |
| Graphs.GenericGraph.ArcsOf | src/genericgraph.h:780-788 | the arcs leaving the vertex; empty for an unknown vertex |
| Graphs.GenericGraph.Arcs | src/genericgraph.h:770-777 | every stored arc |
| Graphs.GenericGraph.ArcsOfPayload | src/genericgraph.h:791-797 | the arcs leaving the payload's vertex; empty for an unknown payload |
| Graphs.GenericGraph.SuccessorsOf | src/genericgraph.h:800-808 | exactly the heads of the arcs leaving the vertex |
| Graphs.GenericGraph.SuccessorsOfPayload | src/genericgraph.h:811-817 | the same for a payload; empty for an unknown payload |
| Graphs.GenericGraph.Save | src/genericgraph.h:1072-1120 | the lines and text written are those of the graph's document (see `GraphML.DocumentOrder`) |
| Graphs.DetachVertex | src/genericgraph.h:961-988 | the two loops and erasures of `remove(id)` give the detached map, and return the two degrees subtracted from the counter |
| Graphs.EraseSuccessor | src/genericgraph.h:968-970 | the loop over the predecessors removes the vertex from each of their successor maps |
| Graphs.ErasePredecessor | src/genericgraph.h:976-978 | the loop over the successors removes the vertex from each of their predecessor sets |
| Graphs.CollectArcs | src/genericgraph.h:785-786 | the loop builds one arc per successor |
| Graphs.WriteNodes | src/genericgraph.h:1100-1102 | one node line per vertex, by ascending identifier |
| Graphs.WriteEdgesOf | src/genericgraph.h:1106-1109 | the edge lines of one vertex, by ascending head |
| Graphs.WriteEdges | src/genericgraph.h:1105-1109 | the edge lines of every vertex, by tail and then head |
| Graphs.RemoveArcByPayloadsAsWritten | src/genericgraph.h:1005-1016 | as written: an unknown payload returns false |
| Graphs.RemoveArcByPayloadsNeverReturns | src/genericgraph.h:1005-1016 | as written, with both payloads present, the call re-enters itself and never returns |
| GraphML.DigitChar | src/genericgraph.h:1102 | a decimal digit character for each digit value |
| GraphML.DigitValue | src/genericgraph.h:1102 | reading a digit character inverts `DigitChar` |
| GraphML.DecimalRoundTrip | src/genericgraph.h:1102 | an identifier is written in decimal with no leading zero, and reads back as itself |
| GraphML.NodeTextRoundTrip | src/genericgraph.h:1101-1102 | the identifier inside a node line reads back as the vertex identifier |
| GraphML.OrderedArcsEnumerate | src/genericgraph.h:1105-1109 | the edges written are exactly the stored arcs, once each, in increasing (tail, head) order |
| GraphML.ArcsOfTailsFacts | src/genericgraph.h:1105-1109 | the edges of a run of tails are the arcs leaving them, in increasing order |
| GraphML.LinesLayout | src/genericgraph.h:1084-1117 | the document has the four-line header, the `<graph>` line with the name or `_NONAME_`, one line per node, one per edge, then `</graph>` and `</graphml>` |
| GraphML.DocumentOrder | src/genericgraph.h:1095-1117 | every vertex is written once, by ascending identifier, and every arc once, by tail and then head |
| Events.NewEvent | src/simulationevent.cpp:6-13 | a new event is unscheduled at time 0, created now by the given module, with the given name |
| Events.NewTimer | lib/ModuleTimer.cpp:7-12 | a new timer is owned and created by the processed module, unscheduled, with no attached data |
| Events.NewParticle | src/movingparticle.cpp:13-20 | corrected: a new particle has no previous module, and its next module and creator are the processed module; a null name gives the empty name |
| Events.NewParticleAsWritten | src/movingparticle.cpp:13-20 | as written: a null name fails |
| Events.DefaultParticleName | src/movingparticle.cpp:13-20 | constructing with the default name fails as written and gives the empty name once corrected; the two agree on every given name |
| Events.EventEquals | src/simulationevent.cpp:42-49 | `==` compares name and kind, the flag and the occurrence time |
| Events.ParticleEquals | src/movingparticle.cpp:45-50 | the event comparison plus identifier, next and previous modules, and previous arrival time |
| Events.EventEqualsIgnoresCreation | src/simulationevent.cpp:42-49 | equality ignores when and by whom an event was created |
| Events.EqualsIsEquivalence | src/simulationevent.cpp:42-49 | both equalities are reflexive, symmetric and transitive |
| Events.TriggerTime | lib/ModuleTimer.cpp:36-39 | equals the occurrence time |
| Events.NextArrivalTime | src/movingparticle.cpp:67-70 | equals the occurrence time |
| Events.PreviousArrivalTime | src/movingparticle.cpp:72-75 | the stored previous arrival time, which `send` leaves alone |
| Events.EventHandlerGuard | lib/ModuleTimer.cpp:83-88 | an event's own handler runs only under the particles' pattern |
| Events.CopyParticleFields | src/movingparticle.cpp:37-40 | the particle's fields are copied from the source |
| Events.AssignParticleAsWritten | src/movingparticle.cpp:32-43 | as written, each assignment copies the fields and then runs the copy constructor, which assigns again; the depth is a fuel bound on those nested calls (its property is `Events.AssignParticleNeverReturns`) |
| Events.AssignParticleNeverReturns | src/movingparticle.cpp:32-43 | as written, particle assignment returns by value through the copy constructor, which assigns again, so it never returns |
| Modules.NewModule | lib/SimulationModule.cpp:4-9 | a fresh identifier from the shared generator, the given kind and name, no particles and no neighbours |
| Modules.Capture | lib/SimulationModule.cpp:43-46 | the particle joins the set; nothing else changes |
| Modules.Release | lib/SimulationModule.cpp:48-51 | the particle leaves the set; nothing else changes |
| Modules.CaptureRelease | lib/SimulationModule.cpp:43-51 | releasing a newly captured particle restores the module; capturing is idempotent |
| Modules.ModuleHandlerGuard | lib/SimulationModule.cpp:17-41 | the module handlers run only under the modules' pattern |
| Modules.GetReadyGuard | lib/SimulationModule.cpp:68-74 | `sim_getReady` runs only in the initialization stage |
| Modules.TerminateGuard | lib/SimulationModule.cpp:81-87 | `sim_terminate` runs only in the post-processing stage |
| Modules.NeighbourAt | lib/SimulationModule.cpp:122-139 | element `index` when it is in range, otherwise `invalidModuleId` |
| Modules.NeighbourSourceOfParticlesId | lib/SimulationModule.cpp:122-127 | the bounds-checked lookup among the sources |
| Modules.NeighbourDestinationForParticlesId | lib/SimulationModule.cpp:134-139 | the bounds-checked lookup among the destinations |
| Modules.NeighbourSourceOfParticlesNb | lib/SimulationModule.cpp:129-132 | the number of sources, truncated to 32 bits |
| Modules.NeighbourDestinationForParticlesNb | lib/SimulationModule.cpp:141-144 | the number of destinations, truncated to 32 bits |
| Modules.NeighbourLookups | lib/SimulationModule.cpp:107-144 | after `sim_setNeighbours`, the lookups by index list the given set in increasing order, and nothing past its size |
| Modules.FillNeighbours | lib/SimulationModule.cpp:111-119 | the resize-and-fill loop stores the set's elements in increasing order |
| Modules.SetNeighbours | lib/SimulationModule.cpp:107-120 | both vectors are replaced by the ascending enumeration of the given sets; nothing else changes |
| Modules.ModuleLess | lib/SimulationModule.cpp:94-97 | modules are ordered by identifier |
| Modules.ModuleLessIsStrictOrder | lib/SimulationModule.cpp:94-97 | that order is a strict weak order whose equivalence is equal identifiers |
| Modules.ModulePtrLess | lib/SimulationModule.cpp:99-105 | the pointer comparator throws on a null pointer and otherwise compares identifiers |
| EventQueue.Later | lib/DESimulator.h:20-25 | the comparator holds when the first event occurs strictly after the second |
| EventQueue.PopIndex | lib/DESimulator.h:20-25 | the top of the queue: no queued event occurs before it |
| EventQueue.Remove | lib/DESimulator.cpp:125-126 | `pop` removes exactly that one entry and keeps the others in order |
| EventQueue.CancelScanEffect | lib/DESimulator.cpp:292-302 | the scan finds the event iff it is queued, and loses no entry but that one |
| EventQueue.RefillEffect | lib/DESimulator.cpp:304-307 | the refill pushes every entry of the temporary queue back |
| EventQueue.CancelQueue | lib/DESimulator.cpp:290-307 | the scan-and-refill loses at most one entry (see `EventQueue.CancelQueueEffect`) |
| EventQueue.DrainQueue | lib/DESimulator.cpp:256-260 | emptying the queue deletes only existing events; a normal end leaves the queue empty, and the only way to fail is a dangling entry |
| EventQueue.CancelQueueEffect | lib/DESimulator.cpp:290-307 | cancelling removes exactly one entry for the event if there is one, and keeps every other entry |
| EventQueue.DrainQueueEffect | lib/DESimulator.cpp:256-260 | emptying the queue succeeds iff every entry is live and occurs once, and then deletes exactly the queued events |
| Kernel.Initial | lib/DESimulator.cpp:8-16 | the new simulator follows the modules' behaviours, is out of simulation at time 0, processes no module, has no graph, and its queue and log are empty |
| Kernel.ScheduleFutureEvent | lib/DESimulator.cpp:268-277 | pushing succeeds iff simulating, and then appends the event; otherwise the call throws and nothing changes |
| Kernel.CancelFutureEvent | lib/DESimulator.cpp:279-308 | only the queue changes, and it never grows (see `EventQueue.CancelQueueEffect`) |
| Kernel.InheritedOutcome | lib/SimulationModule.cpp:53-92 | of the base bodies of the hooks a trace drives, only `handleParticleArrival` throws; `handleTimerTriggering`, `getReady`, `terminate` and the events' own handlers do nothing (the departure hook is modelled apart) |
| Kernel.VertexModule | src/genericgraph.h:676-686 | a vertex lookup succeeds iff there is a graph and the vertex's module is live |
| Kernel.MakeStep | lib/DESimulator.cpp:114-197 | an iteration that goes on has consumed a hook reaction, or has shrunk the queue; one that stops has consumed no more reactions than it had |
| Kernel.EventScheduleAt | src/simulationevent.cpp:61-66 | scheduling changes only the events and the queue, and the event stays (see `KernelProps.ScheduleAtEffect`) |
| Kernel.ScheduleAt | lib/ModuleTimer.cpp:61-67 | the virtual `scheduleAt` changes only the events and the queue, for a timer and a particle alike |
| Kernel.TimerScheduleAtOwner | lib/ModuleTimer.cpp:69-73 | changes only the events and the queue (see `KernelProps.TimerScheduleAtOwnerEffect`) |
| Kernel.TimerScheduleAtModule | lib/ModuleTimer.cpp:75-81 | changes only the events and the queue (see `KernelProps.TimerScheduleAtModuleEffect`) |
| Kernel.ParticleSend | src/movingparticle.cpp:82-92 | sending changes only the events and the queue (see `KernelProps.ParticleSendEffect`) |
| Kernel.EventSetOccurrenceTime | src/simulationevent.cpp:56-59 | only that event's time becomes the new one; its flag, its other fields, the queue and every other event stay, so a queued event is not reordered |
| Kernel.EventSetName | lib/BaseObject.cpp:58-69 | only the event's name changes, to the given one or to the empty name for a null pointer; its kind, its flag, the queue and every other event stay |
| Kernel.EventSetKind | lib/BaseObject.cpp:81-84 | only the event's kind tag changes; its name, its flag, the queue and every other event stay |
| Kernel.TimerSetOwner | lib/ModuleTimer.cpp:51-54 | the timer's owner, and hence the module it is dispatched to, becomes the new one; its data, its flag, the queue and every other event stay |
| Kernel.TimerSetData | lib/ModuleTimer.cpp:56-59 | only the timer's attached data changes; its owner, its flag, the queue and every other event stay |
| Kernel.ParticleSetId | src/movingparticle.cpp:77-80 | only the particle's identifier changes; its modules, its arrival time, its flag, the queue and every other event stay |
| Kernel.EventCancelScheduling | src/simulationevent.cpp:73-77 | cancelling changes only the events and the queue, and the queue never grows (see `KernelProps.CancelSchedulingEffect`) |
| Kernel.EventDestroy | src/simulationevent.cpp:24-29 | the destructor changes only the events and the queue (see `KernelProps.DestroyEffect`) |
| Kernel.EventAssign | src/simulationevent.cpp:31-40 | assignment changes only the events and the queue, and the target stays (see `KernelProps.AssignEffect`) |
| Kernel.TimerCreate | lib/ModuleTimer.cpp:7-12 | creating a timer changes only the events and the next handle |
| Kernel.TimerCopy | lib/ModuleTimer.cpp:14-20 | a copy whose `operator=` throws is freed, so the new handle is not in the arena; only the events and the queue change (see `KernelProps.TimerCopyEffect`) |
| Kernel.ParticleCreate | src/movingparticle.cpp:13-20 | creating a particle changes only the events and the next handle |
| Kernel.RunHook | lib/SimulationModule.cpp:53-66 | a base body changes nothing but the call log (see `KernelProps.RunHookEffect`) |
| Kernel.ModuleTimerHandler | lib/SimulationModule.cpp:35-41 | the base body changes nothing but the call log |
| Kernel.ModuleArrivalHandler | lib/SimulationModule.cpp:17-24 | the base body changes nothing but the call log and the modules |
| Kernel.ModuleDepartureHandler | lib/SimulationModule.cpp:26-33 | under the particles' pattern it throws and changes nothing; under the modules' pattern the particle leaves the module and no other module changes, and it ends normally iff the hook is overridden, otherwise the base body throws |
| Kernel.TimerHandler | lib/ModuleTimer.cpp:83-88 | the base body changes nothing but the call log |
| Kernel.ParticleHandler | src/movingparticle.cpp:94-99 | the base body changes nothing but the call log |
| Kernel.StageHandler | lib/SimulationModule.cpp:68-87 | a stage hook outside its stage throws and changes nothing; inside it, it is an ordinary hook call |
| Kernel.Dispatch | lib/DESimulator.cpp:148-192 | a dispatch to a base body leaves the events and the queue alone (see `KernelProps.DispatchEffect`) |
| Kernel.Make | lib/DESimulator.cpp:112-199 | the loop consumes the reactions of the trace and never invents any (see `KernelProps.MakeEffect`) |
| Kernel.VisitModules | lib/DESimulator.cpp:85-88 | a normal end has consumed one reaction per vertex (see `KernelProps.VisitModulesEffect`) |
| Kernel.Prepare | lib/DESimulator.cpp:68-89 | without a graph it throws; a normal end had a graph and was in the initialisation stage (see `KernelProps.PrepareEffect`) |
| Kernel.PostProcess | lib/DESimulator.cpp:91-110 | without a graph it throws and changes nothing; a normal end had a graph and was in the post-processing stage |
| Kernel.OneRun | lib/DESimulator.cpp:48-65 | without a graph it throws; a normal run ends out of simulation with no processed module (see `KernelProps.OneRunEffect`) |
| Kernel.Runs | lib/DESimulator.cpp:41-66 | zero runs change nothing; a normal end of at least one run is out of simulation with no processed module |
| Kernel.Simulate | lib/DESimulator.cpp:41-66 | without a graph it throws and changes nothing; a normal end is out of simulation with no processed module |
| Kernel.Cleanup | lib/DESimulator.cpp:248-266 | it throws while simulating and changes nothing; it never changes the stage, pattern or modules; a normal end has no graph and the clock at 0 |
| Kernel.SetAllNeighbours | lib/DESimulator.cpp:237-241 | the graph and the set of modules stay; a normal end found every visited vertex in the graph and not dangling |
| Kernel.Initiate | lib/DESimulator.cpp:231-246 | it throws while simulating and changes nothing; a normal end holds the given graph, out of simulation at time 0 |
| Kernel.GrowsKeepsFresh | lib/ModuleTimer.cpp:7-12 | transitions that only allocate keep every event and module handle below its counter, so the next allocation names nothing that exists |
| KernelProps.ScheduleAtEffect | src/simulationevent.cpp:61-66 | an unowned timer throws before anything changes; out of simulation, the time is set and the flag is kept when the push throws; otherwise one more entry is pushed and the event is scheduled at the new time |
| KernelProps.ScheduledTwiceIsQueuedTwice | src/simulationevent.cpp:61-66 | scheduling a scheduled event queues it a second time, both entries at the latest time |
| KernelProps.TimerScheduleAtOwnerEffect | lib/ModuleTimer.cpp:69-73 | the owner is set before the check: an invalid owner throws and stays set; a valid one schedules the timer iff simulating |
| KernelProps.TimerScheduleAtModuleEffect | lib/ModuleTimer.cpp:75-81 | a null module throws before anything changes; otherwise the timer is scheduled for that module's identifier |
| KernelProps.ParticleSendEffect | src/movingparticle.cpp:82-92 | an unspecified destination throws before anything changes; otherwise the previous module becomes the old next module and the next module the destination, and the particle is scheduled iff simulating |
| KernelProps.CancelSchedulingEffect | src/simulationevent.cpp:73-77 | out of simulation it throws and nothing changes; otherwise one entry of a scheduled event is removed, and the flag is cleared |
| KernelProps.ScheduleKeepsWellQueued | src/simulationevent.cpp:61-66 | scheduling an unscheduled event keeps the flag equal to queue membership, with no repeated entry |
| KernelProps.CancelKeepsWellQueued | src/simulationevent.cpp:73-77 | cancelling keeps that protocol, and the event is no longer queued |
| KernelProps.RetouchKeepsWellQueued | lib/ModuleTimer.cpp:51-59 | the field setters keep the protocol between the events' flags and the queue |
| KernelProps.ReownRedirectsDispatch | lib/ModuleTimer.cpp:51-54 | after a new owner is set on a queued timer the queue is unchanged, and the timer's dispatch runs and logs its hook with the new owner as the processed module |
| KernelProps.DestroyEffect | src/simulationevent.cpp:24-29 | the event is gone in any case; the destructor throws iff the event is still scheduled during a simulation |
| KernelProps.AssignEffect | src/simulationevent.cpp:31-40 | from an unscheduled source, only name, kind and class fields are copied; a scheduled source also schedules the target at its time, which an unowned target timer refuses after its name is copied |
| KernelProps.AssignMakesEqual | src/simulationevent.cpp:31-49 | after assigning from a scheduled source the target compares equal to it |
| KernelProps.TimerCopyEffect | lib/ModuleTimer.cpp:14-20 | from a state whose handles are fresh, the copy is a new timer at an unused handle, created by the processed module, with the source's name, owner and data, scheduled like the source, and every earlier event stays; it throws iff the source is scheduled and the processed module is invalid or the simulator is not simulating, and then the half-built timer is freed and the queue is unchanged |
| KernelProps.ApplyAllKeeps | lib/DESimulator.h:151-163 | user code in a hook cannot change the pattern, stage, clock, processed module, graph or log, whether it throws or not |
| KernelProps.RunHookEffect | lib/SimulationModule.cpp:53-66 | a hook call is logged once, with the processed module; the base bodies change nothing else |
| KernelProps.DispatchEffect | lib/DESimulator.cpp:148-192 | under the modules' pattern, the module's handler runs; under the particles' pattern, the event's own; the processed module is the timer's owner or the particle's next module, and is reset iff the handler returns normally |
| KernelProps.MakeStepEffect | lib/DESimulator.cpp:114-146 | an iteration stops normally exactly when the queue is empty or a non-zero limit lies before its top, and then changes nothing; when it goes on, the clock has moved forward to the top's time and no module is processed; a dangling entry, an unscheduled top (whose entry is removed) and a top before the clock (after `cancelScheduling`) each throw |
| KernelProps.MakeStepKeepsWellQueued | lib/DESimulator.cpp:114-146 | while the scheduled flags match queue membership, an iteration pops the top, clears its flag and removes exactly its one entry, keeping the match; it then throws for an event in the past or dispatches it, and a base-body dispatch leaves a state that keeps the match |
| KernelProps.PopKeepsWellQueued | lib/DESimulator.cpp:125-141 | popping the top of a queue that keeps the protocol and cancelling it removes exactly that event's entry, clears only its flag and keeps the protocol |
| KernelProps.MakeStepInherited | lib/DESimulator.cpp:125-134 | when the event goes to a base body, the pop and `cancelScheduling` remove its entry and at most one duplicate from the queue, and it ends unscheduled with no other event changed |
| KernelProps.MakeEffect | lib/DESimulator.cpp:112-199 | the clock never goes back; pattern, stage, graph and modules stay; calls are only appended; a normal end is at the stop condition |
| KernelProps.StageHandlerEffect | lib/SimulationModule.cpp:68-87 | the stage hooks throw outside their stage; a normal return logs one call |
| KernelProps.VisitModulesEffect | lib/DESimulator.cpp:85-88 | a normal end has called the stage hook once per vertex, in order, with that vertex's module as the processed one |
| KernelProps.PrepareEffect | lib/DESimulator.cpp:68-89 | no graph and the wrong stage throw; a normal end has called `sim_getReady` on every vertex's module, in increasing vertex order |
| KernelProps.PostProcessEffect | lib/DESimulator.cpp:91-110 | the same with `sim_terminate` and the post-processing stage |
| KernelProps.OneRunEffect | lib/DESimulator.cpp:48-65 | a normal run ends out of simulation with no processed module, having logged `sim_getReady` for every module first and `sim_terminate` for every module last |
| KernelProps.OneRunResetsClock | lib/DESimulator.cpp:48-49 | each run starts at time 0, so its outcome does not depend on the time the previous run ended at |
| KernelProps.RunsEffect | lib/DESimulator.cpp:48-65 | the runs keep the graph, the pattern and the modules' identities; zero runs change nothing; a normal end is out of simulation with no processed module |
| KernelProps.SimulateEffect | lib/DESimulator.cpp:41-66 | without a graph it throws and changes nothing; a normal end is out of simulation with no processed module and the same graph |
| KernelProps.CleanupEffect | lib/DESimulator.cpp:248-266 | it throws while simulating; otherwise it succeeds iff every queued entry is live and occurs once, and then deletes exactly the queued events, empties the queue, drops the graph and resets the clock |
| KernelProps.SetAllNeighboursEffect | lib/DESimulator.cpp:237-241 | the loop succeeds iff every vertex is not dangling and carries a live module, which then has its vertex's neighbours; other modules stay |
| KernelProps.SetAllNeighboursFrame | lib/DESimulator.cpp:237-241 | the loop changes only modules |
| KernelProps.NeighboursOverKeys | lib/DESimulator.cpp:237-241 | the loop over the vertices in ascending order succeeds iff no vertex is dangling and every vertex's module is live, and then neighbours every vertex's module |
| KernelProps.InitiateEffect | lib/DESimulator.cpp:231-246 | it throws while simulating; a normal end has cleaned up and taken the graph, out of simulation at time 0 |
| KernelProps.InitiateNeighbours | lib/DESimulator.cpp:231-246 | when distinct vertices carry distinct modules, it ends normally iff clean-up does, no vertex is dangling and every vertex's module is live; each module then has the ascending predecessors and successors of its vertex as sources and destinations |
| Simulator.DESimulator.constructor | lib/DESimulator.cpp:8-16 | the simulator starts in the initial state |
| Simulator.DESimulator.IsCurrentlySimulating | lib/DESimulator.cpp:226-229 | true in every stage but Out |
| Simulator.DESimulator.SetSimulationPattern | lib/DESimulator.cpp:206-219 | the pattern becomes the given one |
| Simulator.DESimulator.AddModule | lib/SimulationModule.cpp:4-9 | a new module at the next handle, with a fresh identifier from the shared generator and no particles or neighbours; no other module changes; with fresh handles the new handle names no earlier module, and handles stay fresh |
| Simulator.DESimulator.ScheduleFutureEvent | lib/DESimulator.cpp:268-277 | equals `Kernel.ScheduleFutureEvent` |
| Simulator.DESimulator.CancelFutureEvent | lib/DESimulator.cpp:279-308 | equals `Kernel.CancelFutureEvent` |
| Simulator.DESimulator.PopUntil | lib/DESimulator.cpp:292-302 | the first loop stops where the scan `EventQueue.CancelScan` does |
| Simulator.DESimulator.PushBack | lib/DESimulator.cpp:304-307 | the second loop leaves the queue `EventQueue.Refill` describes |
| Simulator.DESimulator.EventScheduleAt | src/simulationevent.cpp:61-66 | equals `Kernel.EventScheduleAt` |
| Simulator.DESimulator.ScheduleAt | lib/ModuleTimer.cpp:61-67 | equals `Kernel.ScheduleAt` |
| Simulator.DESimulator.TimerScheduleAtOwner | lib/ModuleTimer.cpp:69-73 | equals `Kernel.TimerScheduleAtOwner` |
| Simulator.DESimulator.TimerScheduleAtModule | lib/ModuleTimer.cpp:75-81 | equals `Kernel.TimerScheduleAtModule` |
| Simulator.DESimulator.ParticleSend | src/movingparticle.cpp:82-92 | equals `Kernel.ParticleSend` |
| Simulator.DESimulator.SetOccurrenceTime | src/simulationevent.cpp:56-59 | equals `Kernel.EventSetOccurrenceTime`: only the time changes, and the queue is not told |
| Simulator.DESimulator.SetEventName | lib/BaseObject.cpp:58-69 | equals `Kernel.EventSetName` |
| Simulator.DESimulator.SetEventKind | lib/BaseObject.cpp:81-84 | equals `Kernel.EventSetKind` |
| Simulator.DESimulator.SetTimerOwner | lib/ModuleTimer.cpp:51-54 | equals `Kernel.TimerSetOwner` |
| Simulator.DESimulator.SetTimerData | lib/ModuleTimer.cpp:56-59 | equals `Kernel.TimerSetData` |
| Simulator.DESimulator.SetParticleId | src/movingparticle.cpp:77-80 | equals `Kernel.ParticleSetId` |
| Simulator.DESimulator.CancelScheduling | src/simulationevent.cpp:73-77 | equals `Kernel.EventCancelScheduling` |
| Simulator.DESimulator.DestroyEvent | src/simulationevent.cpp:24-29 | equals `Kernel.EventDestroy` |
| Simulator.DESimulator.AssignEvent | src/simulationevent.cpp:31-40 | equals `Kernel.EventAssign` |
| Simulator.DESimulator.CreateTimer | lib/ModuleTimer.cpp:7-12 | the new timer gets the next handle; equals `Kernel.TimerCreate` |
| Simulator.DESimulator.CopyTimer | lib/ModuleTimer.cpp:14-20 | equals `Kernel.TimerCopy`: a copy whose assignment throws is freed |
| Simulator.DESimulator.CreateParticle | src/movingparticle.cpp:13-20 | equals `Kernel.ParticleCreate` |
| Simulator.DESimulator.RunHook | lib/SimulationModule.cpp:53-66 | equals `Kernel.RunHook` |
| Simulator.DESimulator.ModuleTimerHandler | lib/SimulationModule.cpp:35-41 | equals `Kernel.ModuleTimerHandler` |
| Simulator.DESimulator.ModuleArrivalHandler | lib/SimulationModule.cpp:17-24 | equals `Kernel.ModuleArrivalHandler`: guard, capture, then the hook |
| Simulator.DESimulator.ModuleDepartureHandler | lib/SimulationModule.cpp:26-33 | equals `Kernel.ModuleDepartureHandler`: guard, release, then the hook |
| Simulator.DESimulator.TimerHandler | lib/ModuleTimer.cpp:83-88 | equals `Kernel.TimerHandler` |
| Simulator.DESimulator.ParticleHandler | src/movingparticle.cpp:94-99 | equals `Kernel.ParticleHandler` |
| Simulator.DESimulator.StageHandler | lib/SimulationModule.cpp:68-87 | equals `Kernel.StageHandler` |
| Simulator.DESimulator.Dispatch | lib/DESimulator.cpp:148-192 | equals `Kernel.Dispatch` |
| Simulator.DESimulator.MakeOneStep | lib/DESimulator.cpp:114-197 | one pass of the loop body is `Kernel.MakeStep` |
| Simulator.DESimulator.MakeSimulation | lib/DESimulator.cpp:112-199 | the loop ends where `Kernel.Make` does |
| Simulator.DESimulator.VisitAll | lib/DESimulator.cpp:85-88 | the loop over the vertices is `Kernel.VisitModules` over the ascending vertex identifiers |
| Simulator.DESimulator.PrepareSimulation | lib/DESimulator.cpp:68-89 | equals `Kernel.Prepare` |
| Simulator.DESimulator.PostProcessSimulation | lib/DESimulator.cpp:91-110 | equals `Kernel.PostProcess` |
| Simulator.DESimulator.OneSimulation | lib/DESimulator.cpp:48-65 | one iteration of `simulate`'s loop is `Kernel.OneRun` |
| Simulator.DESimulator.Simulate | lib/DESimulator.cpp:41-66 | equals `Kernel.Simulate` |
| Simulator.DESimulator.SimulationRuns | lib/DESimulator.cpp:48-65 | the loop over the runs equals `Kernel.Runs` |
| Simulator.DESimulator.CleanupSimulator | lib/DESimulator.cpp:248-266 | equals `Kernel.Cleanup` |
| Simulator.DESimulator.DeleteQueued | lib/DESimulator.cpp:256-260 | the pop-and-delete loop ends where `EventQueue.DrainQueue` does |
| Simulator.DESimulator.InitiateSimulator | lib/DESimulator.cpp:231-246 | equals `Kernel.Initiate` with the graph's dangling vertices |
| Simulator.DESimulator.NeighbourModules | lib/DESimulator.cpp:237-241 | the loop over the vertices is `Kernel.SetAllNeighbours` over the ascending identifiers |
| Simulator.DESimulator.NeighbourModule | lib/DESimulator.cpp:238-240 | an unknown vertex throws, a dangling vertex or a vertex whose module is gone is a dangling pointer, and otherwise the module gets the vertex's ascending predecessors and successors |

## Left out

- Random numbers and random variables, and every floating-point conversion of `SimulationTime` (`fromDbl`, `toDbl`, `toInt`, `fromInt`, `toStr`, `fromStr`, `*`, `/`): floating point. Drawn intervals are plain `SimulationTime` inputs.
- SimTime.SimulationTime.Plus: requires the sum to fit in 64 bits, because signed overflow is undefined in C++.
- SimTime.SimulationTime.Minus: requires the difference to fit in 64 bits, for the same reason.
- Graphs.GenericGraph.AddArc: requires that a missing endpoint to be added is not `IllegalVertexID`. On that input `add(v, IllegalVertexID)` files the new vertex under a generated identifier, and the code then dereferences the end iterator.
- Hooks in the model cannot call `setSimulationPattern`, `initiateSimulator`, `cleanupSimulator` or `simulate`, although the source makes them public. Nor can they call `setName`/`setKind` on a module, `sim_setNeighbours`, a module's `sim_` handlers directly, or create and delete modules. The commands are the event, timer and particle operations (creation, scheduling, `send`, `setOccurenceTime`, `cancelScheduling`, assignment, deletion, `setName`, `setKind`, `setOwnerModuleId`, `setAttachedData`, `setId`), the departure, and `captureParticle`/`releaseParticle` on any module.
- Kernel.Initiate: an initiation that fails on a dangling vertex keeps the graph, which lib/DESimulator.cpp:235 stores before the loop. The dangling vertices are not part of the simulator state. So a later `vertex(id)` lookup (lib/DESimulator.cpp:86-87, 107-108, 155, 178) reads the stale module handle of such a vertex as if it were live. In the source, the program is already undefined from the failed dereference on. After a successful initiation no vertex dangles (`KernelProps.InitiateNeighbours`).
- Graphs.GenericGraph.Save: drops the `bool` result of `save(std::ostream&)`, which is always `true` (src/genericgraph.h:1119).
- `save(const char*)`: file I/O. The text written to the stream by `save(std::ostream&)` is modelled.
- `serialize()` and the `operator<<` functions: logging only.
- `shortestPath` and `load`: commented out in the source.
- Graph copy constructor, `operator=` and `dup`: not part of this model.
- `setArc`: its body is empty.
- `m_directed`: unused.
- The graph identifier generator is named `cUniqueIDGenerator` in `src/genericgraph.h`. The model shares the one generator that modules use, since both identifier types are `unsigned long`.
- Singletons (`theSimulator()`, `Generator()`): passed as explicit objects.
- The static getters `simTime`, `processedModule`, `simulationPattern` and `simulationStage`: fields of the state.
- Memory ownership: `delete` of events is removal from the event arena. `delete` of the graph is dropping it from the state.
- Simulator.DESimulator.InitiateSimulator: keeps a value snapshot of the graph, where lib/DESimulator.cpp:236 keeps the caller's pointer. Later changes the caller makes to the graph, which `prepareSimulation` would see, are lost, and so is the aliasing. `cleanupSimulator` deletes the caller's object (lib/DESimulator.cpp:261-264); the model only drops the graph. test/TestDESimulator.cpp:14,34,46-52,64 hands over a graph on the stack, which that deletion makes undefined behaviour; the model has no notion of storage duration, so it cannot express this.
- The priority queue: an ideal heap. `pop` takes the first-pushed entry among those with the smallest current occurrence time. The source leaves the order among equal times unspecified; the model fixes one.
- The queue is not re-heapified when a queued event's time changes. The model reads current times, as a heap that stays consistent would.
- `dynamic_cast` dispatch: a closed event kind (`Timer | Particle`). The "unknown event type" branch of `makeSimulation` cannot arise.
- The `default:` branches on an unknown simulation pattern cannot arise, because the pattern is a closed enumeration.
- User subclasses' hook bodies: a trace of reactions. An override of the departure handler issues no commands and is not logged.
- The `maxSimTime` and `simulationsNumber` default arguments of `simulate`: callers pass both.
- The unsigned `simulationsNumber`: a `nat`.
- `m_timersInModule`: never populated.
- The timer's attached data: an opaque optional value.
- The copy constructor of `SimulationEvent` leaves `m_creationModule` uninitialised. The model takes the processed module.
- The particle copy constructor: it calls `operator=`, which never returns (see Findings).
- `DanglingPointer` and `IllTypedCommand`: model-only errors. They stand for undefined behaviour and for code that would not compile.
- The `src/` copies of the simulator, module, timer and base-object files have the same line numbers as the `lib/` ones, with renamed class and type prefixes (`cBaseObject`, `tModuleId`). Only the `lib/` lines of those four files are cited.
- KernelProps.InitiateNeighbours: requires that distinct vertices carry distinct modules (`Injective`). The source breaks this when two vertices share one payload entry, which `std::map::insert` allows because it does not overwrite (src/genericgraph.h:570-575, 893-897). Then `sim_setNeighbours` runs once per vertex on the same module and the last call wins. `Kernel.SetAllNeighbours` models that case; the lemmas do not describe its result.
- KernelProps.SetAllNeighboursEffect: requires `Injective` for the same reason as `KernelProps.InitiateNeighbours`.
- KernelProps.NeighboursOverKeys: requires `Injective` for the same reason as `KernelProps.InitiateNeighbours`.

## Findings

| source | as written | input that shows it | evidently intended | confidence | as-written member | corrected member |
|---|---|---|---|---|---|---|
| src/movingparticle.cpp:13-20 | the default name argument is a null `const char*`, which is passed on to a `std::string` parameter | `MovingParticle(id)` with the default name | a null name gives the empty name, as `BaseObject` does | not executed | Events.NewParticleAsWritten | Events.NewParticle |
| src/genericgraph.h:1005-1016 | `remove(v1, v2)` passes `->first` (the payloads), not `->second` (the identifiers), so it calls itself | any two stored payloads | remove the arc between the two vertices' identifiers | not executed | Graphs.RemoveArcByPayloadsNeverReturns | Graphs.GenericGraph.RemoveArcByPayloads |
| src/movingparticle.cpp:32-43 | `operator=` returns `MovingParticle` by value; the copy constructor calls `operator=` again | any assignment between two distinct particles | return a reference, so the assignment copies the fields and returns | not executed | Events.AssignParticleNeverReturns | Kernel.EventAssign |
