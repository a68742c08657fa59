// The value of a simulation module: its identifier, the particles it holds,
// and the identifiers of its neighbours in the simulation graph. The
// handlers that involve the simulator are in the Kernel module.
module Modules {
  import opened Common
  import opened Stages
  import opened BaseObjects
  import opened OrderedSets
  import opened UniqueIds

  const UINT32_MODULUS: int := 0x1_0000_0000

  datatype Module = Module(
    base: BaseObject,
    id: ModuleId,
    particles: set<EventRef>,
    sources: seq<ModuleId>,
    destinations: seq<ModuleId>)

  /** SimulationModule(kind, name): a fresh identifier from the shared generator, no particles,
      no neighbours yet. */
  method NewModule(kind: int32, name: string, gen: UniqueIdGenerator) returns (m: Module)
    requires gen.Valid()
    modifies gen
    ensures gen.Valid() && gen.issued == old(gen.issued) + [m.id] && m.id == old(gen.nextId)
    ensures m.base == BaseObject(name, kind)
    ensures m.particles == {} && m.sources == [] && m.destinations == []
  {
    var id := gen.NewId();
    m := Module(WithKind(FromString(name), kind), id, {}, [], []);
  }

  /** captureParticle: the particle joins the set of particles in the module. */
  function Capture(m: Module, p: EventRef): (r: Module)
    ensures r.particles == m.particles + {p}
    ensures r == m.(particles := r.particles)
  {
    m.(particles := m.particles + {p})
  }

  /** releaseParticle: the particle leaves it (erasing an absent particle does nothing). */
  function Release(m: Module, p: EventRef): (r: Module)
    ensures r.particles == m.particles - {p}
    ensures r == m.(particles := r.particles)
  {
    m.(particles := m.particles - {p})
  }

  /** Releasing a captured particle restores the module; capturing twice is capturing once. */
  lemma CaptureRelease(m: Module, p: EventRef)
    ensures p !in m.particles ==> Release(Capture(m, p), p) == m
    ensures Capture(Capture(m, p), p) == Capture(m, p)
    ensures p in Capture(m, p).particles && p !in Release(m, p).particles
  {
  }

  /** The guard of sim_handleParticleArrival, sim_handleParticleDeparture and
      sim_handleTimerTriggering: modules handle events only when the simulation is based on
      the modules' behaviours. */
  function ModuleHandlerGuard(pattern: SimulationPattern): (o: Outcome)
    ensures o.Pass? <==> pattern == BasedOnModulesBehaviours
    ensures o.Fail? ==> o.error == PatternMismatch
  {
    if pattern.BasedOnParticlesBehaviours? then Fail(PatternMismatch) else Pass
  }

  /** The guard of sim_getReady. */
  function GetReadyGuard(stage: SimulationStage): (o: Outcome)
    ensures o.Pass? <==> stage == InitializationStage
    ensures o.Fail? ==> o.error == StageMismatch
  {
    if stage != InitializationStage then Fail(StageMismatch) else Pass
  }

  /** The guard of sim_terminate. */
  function TerminateGuard(stage: SimulationStage): (o: Outcome)
    ensures o.Pass? <==> stage == PostProcessingStage
    ensures o.Fail? ==> o.error == StageMismatch
  {
    if stage != PostProcessingStage then Fail(StageMismatch) else Pass
  }

  /** The lookup of neighbour number `index`: invalidModuleId past the end. */
  function NeighbourAt(neighbours: seq<ModuleId>, index: nat): (id: ModuleId)
    ensures index < |neighbours| ==> id == neighbours[index]
    ensures index >= |neighbours| ==> id == InvalidModuleId
  {
    if index >= |neighbours| then InvalidModuleId else neighbours[index]
  }

  function NeighbourSourceOfParticlesId(m: Module, index: nat): (id: ModuleId)
    ensures id == NeighbourAt(m.sources, index)
  {
    NeighbourAt(m.sources, index)
  }

  function NeighbourDestinationForParticlesId(m: Module, index: nat): (id: ModuleId)
    ensures id == NeighbourAt(m.destinations, index)
  {
    NeighbourAt(m.destinations, index)
  }

  /** The counts return a vector size as `unsigned`, which keeps its low 32 bits. */
  function NeighbourSourceOfParticlesNb(m: Module): (n: nat)
    ensures n < UINT32_MODULUS
    ensures |m.sources| < UINT32_MODULUS ==> n == |m.sources|
  {
    |m.sources| % UINT32_MODULUS
  }

  function NeighbourDestinationForParticlesNb(m: Module): (n: nat)
    ensures n < UINT32_MODULUS
    ensures |m.destinations| < UINT32_MODULUS ==> n == |m.destinations|
  {
    |m.destinations| % UINT32_MODULUS
  }

  /** When the neighbours are the ascending enumeration of a set, the lookups by index list
      exactly the members of that set, in increasing order, and nothing past the count. */
  lemma NeighbourLookups(neighbours: seq<ModuleId>, ids: set<ModuleId>)
    requires neighbours == Ascending(ids)
    ensures forall x :: x in ids <==> exists i :: 0 <= i < |ids| && NeighbourAt(neighbours, i) == x
    ensures forall i, j :: 0 <= i < j < |ids| ==> NeighbourAt(neighbours, i) < NeighbourAt(neighbours, j)
    ensures forall i :: i >= |ids| ==> NeighbourAt(neighbours, i) == InvalidModuleId
  {
    AscendingEnumerates(ids);
    forall x | x in ids
      ensures exists i :: 0 <= i < |ids| && NeighbourAt(neighbours, i) == x
    {
      var i :| 0 <= i < |neighbours| && neighbours[i] == x;
      assert NeighbourAt(neighbours, i) == x;
    }
  }

  /** The vector filling of sim_setNeighbours: resize to the size of the set, then store its
      elements as its iterator visits them, at increasing indices. */
  method FillNeighbours(ids: set<ModuleId>) returns (v: seq<ModuleId>)
    ensures v == Ascending(ids)
    ensures |v| == |ids|
  {
    var a := new ModuleId[|ids|];
    var index := 0;
    var rest := ids;
    ghost var done: seq<ModuleId> := [];
    while rest != {}
      invariant index + |rest| == |ids| && |done| == index
      invariant forall k :: 0 <= k < index ==> a[k] == done[k]
      invariant done + Ascending(rest) == Ascending(ids)
      decreases |rest|
    {
      LeastExists(rest);
      var m :| IsLeast(m, rest);
      AscendingLoopStep(ids, done, rest, m);
      a[index] := m;
      done := done + [m];
      index := index + 1;
      rest := rest - {m};
    }
    AscendingEmpty();
    assert a[..] == done;
    v := a[..];
  }

  /** sim_setNeighbours: both vectors are replaced by the ascending enumeration of the given
      sets; nothing else of the module changes. */
  method SetNeighbours(m: Module, sources: set<ModuleId>, dests: set<ModuleId>) returns (r: Module)
    ensures r.sources == Ascending(sources) && r.destinations == Ascending(dests)
    ensures r.base == m.base && r.id == m.id && r.particles == m.particles
  {
    var s := FillNeighbours(sources);
    var d := FillNeighbours(dests);
    r := m.(sources := s, destinations := d);
  }

  /** operator< on modules: by identifier. */
  predicate ModuleLess(a: Module, b: Module)
    ensures ModuleLess(a, b) <==> a.id < b.id
  {
    a.id < b.id
  }

  /** The comparator is a strict weak order: modules with equal identifiers are equivalent. */
  lemma ModuleLessIsStrictOrder(a: Module, b: Module, c: Module)
    ensures !ModuleLess(a, a)
    ensures ModuleLess(a, b) ==> !ModuleLess(b, a)
    ensures ModuleLess(a, b) && ModuleLess(b, c) ==> ModuleLess(a, c)
    ensures !ModuleLess(a, b) && !ModuleLess(b, a) <==> a.id == b.id
  {
  }

  /** SimulationModulePtrCmp: a null pointer (None) on either side throws. */
  function ModulePtrLess(a: Option<Module>, b: Option<Module>): (r: Result<bool>)
    ensures r.Err? <==> a.None? || b.None?
    ensures r.Err? ==> r.error == NullModule
    ensures r.Ok? ==> r.value == ModuleLess(a.value, b.value)
  {
    if a.None? || b.None? then Err(NullModule) else Ok(ModuleLess(a.value, b.value))
  }
}
