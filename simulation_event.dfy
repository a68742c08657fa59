// The values of the two kinds of simulation event: module timers and moving
// particles. Both share the SimulationEvent part (occurrence time, scheduled
// flag, creation time and creator). The operations that touch the simulator's
// queue are in the Kernel module; this module holds the event values, their
// constructors, comparisons, getters and the guards of their handlers.
module Events {
  import opened Common
  import opened Stages
  import opened SimTime
  import opened BaseObjects

  /** The concrete class of an event, which the simulator finds with dynamic_cast. */
  datatype EventKind =
    | Timer(owner: ModuleId, attachedData: Option<nat>)
    | Particle(id: ParticleId, previous: ModuleId, next: ModuleId, previousArrival: SimulationTime)

  /** A SimulationEvent together with the fields of its concrete class. */
  datatype Event = Event(
    base: BaseObject,
    occurrence: SimulationTime,
    scheduled: bool,
    creationTime: SimulationTime,
    creationModule: ModuleId,
    kind: EventKind)

  /** SimulationEvent(creatorId, name): not scheduled, occurring at time 0, created now by `creator`. */
  function NewEvent(creator: ModuleId, name: string, now: SimulationTime, kind: EventKind): (e: Event)
    ensures !e.scheduled && e.occurrence == Zero
    ensures e.creationTime == now && e.creationModule == creator
    ensures e.base == FromString(name) && e.kind == kind
  {
    Event(FromString(name), Zero, false, now, creator, kind)
  }

  /** ModuleTimer(name): owned and created by the module being processed; no attached data. */
  function NewTimer(name: string, processed: ModuleId, now: SimulationTime): (e: Event)
    ensures e.kind == Timer(processed, None)
    ensures e.creationModule == e.kind.owner && !e.scheduled && e.creationTime == now
    ensures e.base.name == name && e.base.kind == 0
  {
    NewEvent(processed, name, now, Timer(processed, None))
  }

  /** MovingParticle(id, name) as it is evidently meant: a null name gives the empty name,
      as it does for BaseObject. The particle comes from nowhere, is headed for the module
      being processed, which also created it. */
  function NewParticle(id: ParticleId, name: Option<string>, processed: ModuleId, now: SimulationTime): (e: Event)
    ensures e.kind.Particle? && e.kind.id == id
    ensures e.kind.previous == InvalidModuleId && e.kind.next == processed && e.creationModule == processed
    ensures e.kind.previousArrival == Zero && !e.scheduled && e.creationTime == now
    ensures e.base == FromCString(name)
  {
    NewEvent(processed, if name.Some? then name.value else [], now, Particle(id, InvalidModuleId, processed, Zero))
  }

  /** MovingParticle(id, name) as written: the name goes to a std::string constructor, which
      does not accept a null `const char*`; the default argument of `name` is that null. */
  function NewParticleAsWritten(id: ParticleId, name: Option<string>, processed: ModuleId, now: SimulationTime): (r: Result<Event>)
    ensures r.Err? <==> name.None?
    ensures r.Err? ==> r.error == NullString
  {
    if name.None? then Err(NullString) else Ok(NewParticle(id, name, processed, now))
  }

  /** The particle constructor called with its default name fails as written; the corrected
      constructor gives the empty name, and the two agree whenever a name is given. */
  lemma DefaultParticleName(id: ParticleId, name: string, processed: ModuleId, now: SimulationTime)
    ensures NewParticleAsWritten(id, None, processed, now) == Err(NullString)
    ensures NewParticle(id, None, processed, now).base.name == []
    ensures NewParticleAsWritten(id, Some(name), processed, now) == Ok(NewParticle(id, Some(name), processed, now))
  {
  }

  /** SimulationEvent::operator==: same name and kind, same flag, same occurrence time. */
  predicate EventEquals(a: Event, b: Event)
    ensures EventEquals(a, b) <==> a.base == b.base && a.scheduled == b.scheduled && a.occurrence == b.occurrence
  {
    Equals(a.base, b.base) && a.scheduled == b.scheduled && a.occurrence.Eq(b.occurrence)
  }

  /** MovingParticle::operator==: the event part and the four particle fields. */
  predicate ParticleEquals(a: Event, b: Event)
    requires a.kind.Particle? && b.kind.Particle?
    ensures ParticleEquals(a, b) <==> EventEquals(a, b) && a.kind == b.kind
  {
    EventEquals(a, b)
      && a.kind.id == b.kind.id
      && a.kind.next == b.kind.next
      && a.kind.previous == b.kind.previous
      && a.kind.previousArrival.Eq(b.kind.previousArrival)
  }

  /** Equality of events ignores when and by whom they were created. */
  lemma EventEqualsIgnoresCreation(a: Event, now: SimulationTime, creator: ModuleId)
    ensures EventEquals(a, a.(creationTime := now, creationModule := creator))
    ensures a.kind.Particle? ==> ParticleEquals(a, a.(creationTime := now, creationModule := creator))
  {
  }

  /** Both equalities are equivalence relations. */
  lemma EqualsIsEquivalence(a: Event, b: Event, c: Event)
    ensures EventEquals(a, a)
    ensures EventEquals(a, b) ==> EventEquals(b, a)
    ensures EventEquals(a, b) && EventEquals(b, c) ==> EventEquals(a, c)
    ensures a.kind.Particle? && b.kind.Particle? && c.kind.Particle? ==>
      ParticleEquals(a, a) && (ParticleEquals(a, b) && ParticleEquals(b, c) ==> ParticleEquals(a, c))
  {
  }

  /** ModuleTimer::triggerTime and MovingParticle::nextArrivalTime are the occurrence time. */
  function TriggerTime(e: Event): (t: SimulationTime)
    requires e.kind.Timer?
    ensures t == e.occurrence
  {
    e.occurrence
  }

  function NextArrivalTime(e: Event): (t: SimulationTime)
    requires e.kind.Particle?
    ensures t == e.occurrence
  {
    e.occurrence
  }

  /** MovingParticle::previousArrivalTime: only the constructor and assignment set it. */
  function PreviousArrivalTime(e: Event): (t: SimulationTime)
    requires e.kind.Particle?
    ensures t == e.kind.previousArrival
  {
    e.kind.previousArrival
  }

  /** The guard of ModuleTimer::sim_handleTriggering and of
      MovingParticle::sim_handleArrivalAtModule: events handle themselves only when the
      simulation is based on the particles' behaviours. */
  function EventHandlerGuard(pattern: SimulationPattern): (o: Outcome)
    ensures o.Pass? <==> pattern == BasedOnParticlesBehaviours
    ensures o.Fail? ==> o.error == PatternMismatch
  {
    if pattern.BasedOnModulesBehaviours? then Fail(PatternMismatch) else Pass
  }

  // ------------------------------------------------------------ particle assignment as written

  /** The field copies of MovingParticle::operator= (the event part is left aside here). */
  function CopyParticleFields(target: Event, source: Event): (r: Event)
    requires target.kind.Particle? && source.kind.Particle?
    ensures r.base == source.base && r.kind == source.kind
  {
    target.(base := source.base, kind := source.kind)
  }

  /** MovingParticle::operator= as written. It returns `*this` by value, so returning runs the
      copy constructor on `*this`, and that constructor calls operator= again; `depth` bounds
      how many of these nested calls are followed, and None means the assignment has not
      returned after that many. Non-termination is thus modelled as a fuel bound: the result
      is None at every depth, which AssignParticleNeverReturns proves. The copy constructor starts from a particle with no identifier,
      coming from nowhere and headed for the processed module. */
  function AssignParticleAsWritten(target: Event, source: Event, processed: ModuleId, now: SimulationTime, depth: nat): (r: Option<Event>)
    requires target.kind.Particle? && source.kind.Particle?
    decreases depth
  {
    if depth == 0 then None
    else
      var copied := CopyParticleFields(target, source);
      var copy := NewEvent(processed, [], now, Particle(InvalidParticleId, InvalidModuleId, processed, Zero));
      AssignParticleAsWritten(copy, copied, processed, now, depth - 1)
  }

  /** The assignment never returns, however deep the calls are followed. */
  lemma {:induction false} AssignParticleNeverReturns(target: Event, source: Event, processed: ModuleId, now: SimulationTime, depth: nat)
    requires target.kind.Particle? && source.kind.Particle?
    ensures AssignParticleAsWritten(target, source, processed, now, depth) == None
    decreases depth
  {
    if depth > 0 {
      var copied := CopyParticleFields(target, source);
      var copy := NewEvent(processed, [], now, Particle(InvalidParticleId, InvalidModuleId, processed, Zero));
      AssignParticleNeverReturns(copy, copied, processed, now, depth - 1);
    }
  }
}
