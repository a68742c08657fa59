// The simulation kernel as state transitions: the simulator's fields, the
// heap of events and modules it works on, and every operation of
// DESimulator, SimulationEvent, ModuleTimer, MovingParticle and
// SimulationModule that reads or changes them. Each transition returns the new
// state together with Pass, or with the exception the source throws (and the
// changes it made before throwing). User code is a trace of Reactions, one
// consumed per hook call; the class in desimulator.dfy implements these
// transitions with the source's loops.
module Kernel {
  import opened Common
  import opened Stages
  import opened SimTime
  import opened BaseObjects
  import opened OrderedSets
  import opened GraphCore
  import opened Events
  import opened Modules
  import opened EventQueue

  /** GenericGraph<SimulationModule*, int>, as its vertex map; payloads are module handles. */
  type SimulationGraph = VertexMap<ModuleRef, int>

  /** The virtual hooks that user subclasses override. */
  datatype HookKind =
    | GetReady                // SimulationModule::getReady
    | Terminate               // SimulationModule::terminate
    | ModuleTimerTriggering   // SimulationModule::handleTimerTriggering
    | ModuleParticleArrival   // SimulationModule::handleParticleArrival
    | TimerTriggering         // ModuleTimer::handleTriggering
    | ParticleArrival         // MovingParticle::handleArrivalAtModule

  /** One hook call: which hook, the processed module when it ran, and its event argument. */
  datatype HookCall = HookCall(hook: HookKind, processed: ModuleId, event: Option<EventRef>)

  /** What user code may do from inside a hook. Handles of events created by the
      commands are predictable: they are allocated in increasing order. */
  datatype Command =
    | MakeTimer(name: string)                                          // new ModuleTimer(name)
    | CloneTimer(source: EventRef)                                     // new ModuleTimer(*source)
    | MakeParticle(particleId: ParticleId, particleName: Option<string>) // new MovingParticle(id, name)
    | Schedule(event: EventRef, time: SimulationTime)                  // event->scheduleAt(time)
    | ScheduleFor(event: EventRef, time: SimulationTime, owner: ModuleId)
    | ScheduleWith(event: EventRef, time: SimulationTime, ownerModule: Option<ModuleRef>)
    | SendTo(event: EventRef, destination: ModuleId, time: SimulationTime)
    | Retime(event: EventRef, time: SimulationTime)                    // setOccurenceTime
    | Rename(event: EventRef, newName: Option<string>)                 // setName
    | Retag(event: EventRef, tag: int32)                               // setKind
    | Reown(event: EventRef, newOwner: ModuleId)                       // setOwnerModuleId
    | Attach(event: EventRef, data: Option<nat>)                       // setAttachedData
    | Renumber(event: EventRef, newId: ParticleId)                     // setId
    | Cancel(event: EventRef)                                          // cancelScheduling
    | AssignFrom(target: EventRef, source: EventRef)                   // *target = *source
    | Delete(event: EventRef)                                          // delete event
    | Depart(from: ModuleRef, particle: EventRef, overridden: bool)  // sim_handleParticleDeparture
    | CaptureIn(into: ModuleRef, particle: EventRef)                   // captureParticle
    | ReleaseFrom(from: ModuleRef, particle: EventRef)                 // releaseParticle
    | Throw                                                            // the hook throws

  /** The behaviour of one hook call: the base-class body, or an override running commands. */
  datatype Reaction = Inherited | Override(commands: seq<Command>)

  datatype SimState = SimState(
    pattern: SimulationPattern,
    stage: SimulationStage,
    clock: SimulationTime,
    processed: ModuleId,
    graph: Option<SimulationGraph>,
    queue: seq<EventRef>,
    events: map<EventRef, Event>,
    nextEvent: EventRef,
    modules: map<ModuleRef, Module>,
    nextModule: ModuleRef,
    calls: seq<HookCall>)

  /** The result of an operation: the new state, and Pass or the exception thrown. */
  datatype Step = Step(state: SimState, outcome: Outcome)

  /** The result of an operation that consumes hook reactions: also the reactions left. */
  datatype Run = Run(state: SimState, outcome: Outcome, trace: seq<Reaction>)

  /** DESimulator(): modules' behaviours, out of simulation, clock 0, nothing processed, no graph. */
  function Initial(): (s: SimState)
    ensures FreshHandles(s)
    ensures !IsSimulating(s.stage) && s.pattern == BasedOnModulesBehaviours
    ensures s.clock == Zero && s.processed == InvalidModuleId && s.graph.None?
    ensures s.queue == [] && s.events == map[] && s.calls == []
  {
    SimState(BasedOnModulesBehaviours, OutOfSimulationStage, Zero, InvalidModuleId, None, [], map[], 0, map[], 0, [])
  }

  function WithEvent(s: SimState, e: EventRef, ev: Event): SimState
  {
    s.(events := s.events[e := ev])
  }

  /** The reaction for the next hook call; once the trace is used up the base-class bodies run. */
  function Head(trace: seq<Reaction>): Reaction
  {
    if |trace| == 0 then Inherited else trace[0]
  }

  function Tail(trace: seq<Reaction>): (rest: seq<Reaction>)
    ensures |trace| > 0 ==> |rest| < |trace|
    ensures |trace| == 0 ==> rest == [] && Head(trace) == Inherited
  {
    if |trace| == 0 then [] else trace[1..]
  }

  /** Every event and module handle lies below its counter: a handle the next allocation hands
      out names nothing yet. */
  ghost predicate FreshHandles(s: SimState)
  {
    && (forall e :: e in s.events ==> e < s.nextEvent)
    && (forall m :: m in s.modules ==> m < s.nextModule)
  }

  /** From `a` to `b` the handle counters never go back, and every event or module of `b` is
      one of `a`'s or was allocated in between. */
  ghost predicate Grows(a: SimState, b: SimState)
  {
    && a.nextEvent <= b.nextEvent && a.nextModule <= b.nextModule
    && (forall e :: e in b.events ==> e in a.events || a.nextEvent <= e < b.nextEvent)
    && (forall m :: m in b.modules ==> m in a.modules || a.nextModule <= m < b.nextModule)
  }

  /** A state reached from one with fresh handles by transitions that only allocate still has
      fresh handles: the next allocation names no existing event or module. */
  lemma GrowsKeepsFresh(a: SimState, b: SimState)
    requires FreshHandles(a) && Grows(a, b)
    ensures FreshHandles(b) && b.nextEvent !in b.events && b.nextModule !in b.modules
  {
  }

  lemma GrowsTrans(a: SimState, b: SimState, c: SimState)
    requires Grows(a, b) && Grows(b, c)
    ensures Grows(a, c)
  {
  }

  /** `b` differs from `a` at most in the events, the queue and the next event handle. */
  predicate EventsOnly(a: SimState, b: SimState)
  {
    b == a.(events := b.events, queue := b.queue, nextEvent := b.nextEvent)
  }

  // ------------------------------------------------------------ the queue, guarded by the stage

  /** scheduleFutureEvent: pushing is allowed only while simulating. */
  function ScheduleFutureEvent(s: SimState, e: EventRef): (r: Step)
    ensures Grows(s, r.state)
    ensures r.outcome.Pass? <==> IsSimulating(s.stage)
    ensures r.outcome.Fail? ==> r.outcome.error == NotSimulating && r.state == s
    ensures r.outcome.Pass? ==> r.state == s.(queue := s.queue + [e])
  {
    if !IsSimulating(s.stage) then Step(s, Fail(NotSimulating))
    else Step(s.(queue := s.queue + [e]), Pass)
  }

  /** cancelFutureEvent: allowed only while simulating; nothing to do for an unscheduled event;
      otherwise the scan-and-rebuild of the queue. Only the queue changes. */
  function CancelFutureEvent(s: SimState, e: EventRef): (r: Step)
    ensures Grows(s, r.state)
    ensures r.state == s.(queue := r.state.queue)
    ensures |r.state.queue| <= |s.queue|
  {
    if !IsSimulating(s.stage) then Step(s, Fail(NotSimulating))
    else if e !in s.events then Step(s, Fail(DanglingPointer))
    else if !s.events[e].scheduled then Step(s, Pass)
    else if !Live(s.events, s.queue) then Step(s, Fail(DanglingPointer))
    else
      CancelQueueEffect(s.events, s.queue, e);
      Step(s.(queue := CancelQueue(s.events, s.queue, e)), Pass)
  }

  // ------------------------------------------------------------ events

  /** SimulationEvent::scheduleAt: set the time, push, and only then set the flag. */
  function EventScheduleAt(s: SimState, e: EventRef, t: SimulationTime): (r: Step)
    ensures Grows(s, r.state)
    requires e in s.events
    ensures e in r.state.events
    ensures EventsOnly(s, r.state)
  {
    var s1 := WithEvent(s, e, s.events[e].(occurrence := t));
    var push := ScheduleFutureEvent(s1, e);
    if push.outcome.Fail? then push
    else Step(WithEvent(push.state, e, push.state.events[e].(scheduled := true)), Pass)
  }

  /** A timer attached to no module. */
  predicate Unowned(ev: Event)
  {
    ev.kind.Timer? && ev.kind.owner == InvalidModuleId
  }

  /** The virtual scheduleAt(t): a timer first checks that it has an owner. */
  function ScheduleAt(s: SimState, e: EventRef, t: SimulationTime): (r: Step)
    ensures Grows(s, r.state)
    requires e in s.events
    ensures e in r.state.events
    ensures EventsOnly(s, r.state)
  {
    if Unowned(s.events[e]) then Step(s, Fail(TimerWithoutOwner))
    else EventScheduleAt(s, e, t)
  }

  /** ModuleTimer::scheduleAt(t, owner): the owner is set before the check. */
  function TimerScheduleAtOwner(s: SimState, e: EventRef, t: SimulationTime, owner: ModuleId): (r: Step)
    ensures Grows(s, r.state)
    requires e in s.events && s.events[e].kind.Timer?
    ensures e in r.state.events
    ensures EventsOnly(s, r.state)
  {
    var ev := s.events[e];
    ScheduleAt(WithEvent(s, e, ev.(kind := ev.kind.(owner := owner))), e, t)
  }

  /** ModuleTimer::scheduleAt(t, module): a null module throws before anything changes. */
  function TimerScheduleAtModule(s: SimState, e: EventRef, t: SimulationTime, m: Option<ModuleRef>): (r: Step)
    ensures Grows(s, r.state)
    requires e in s.events && s.events[e].kind.Timer?
    ensures e in r.state.events
    ensures EventsOnly(s, r.state)
  {
    if m.None? then Step(s, Fail(NullModule))
    else if m.value !in s.modules then Step(s, Fail(DanglingPointer))
    else TimerScheduleAtOwner(s, e, t, s.modules[m.value].id)
  }

  /** MovingParticle::send: an unspecified destination throws before anything changes;
      otherwise the particle leaves its next module for the destination and is scheduled. */
  function ParticleSend(s: SimState, e: EventRef, dest: ModuleId, t: SimulationTime): (r: Step)
    ensures Grows(s, r.state)
    requires e in s.events && s.events[e].kind.Particle?
    ensures e in r.state.events
    ensures EventsOnly(s, r.state)
  {
    var ev := s.events[e];
    if dest == InvalidModuleId then Step(s, Fail(UnspecifiedDestination))
    else EventScheduleAt(WithEvent(s, e, ev.(kind := ev.kind.(previous := ev.kind.next, next := dest))), e, t)
  }

  /** SimulationEvent::setOccurenceTime: the time only; the queue is not told. */
  function EventSetOccurrenceTime(s: SimState, e: EventRef, t: SimulationTime): (r: Step)
    ensures Grows(s, r.state)
    requires e in s.events
    ensures e in r.state.events
    ensures EventsOnly(s, r.state)
    ensures r.outcome.Pass? && Retouched(s, r.state, e)
    ensures r.state.events[e].occurrence == t
    ensures r.state.events[e].(occurrence := s.events[e].occurrence) == s.events[e]
  {
    Step(WithEvent(s, e, s.events[e].(occurrence := t)), Pass)
  }

  /** Only the event `e` changes, and it keeps its flag: the queue, the other events and
      everything else stay. */
  predicate Retouched(a: SimState, b: SimState, e: EventRef)
  {
    && b == a.(events := b.events)
    && e in a.events && b.events.Keys == a.events.Keys
    && b.events[e].scheduled == a.events[e].scheduled
    && forall x :: x in a.events && x != e ==> b.events[x] == a.events[x]
  }

  /** BaseObject::setName on an event (either overload; a null `const char*` clears the name). */
  function EventSetName(s: SimState, e: EventRef, name: Option<string>): (r: Step)
    requires e in s.events
    ensures Grows(s, r.state)
    ensures r.outcome.Pass? && Retouched(s, r.state, e)
    ensures r.state.events[e].base.name == FromCString(name).name
    ensures r.state.events[e].base.kind == s.events[e].base.kind
    ensures r.state.events[e].(base := s.events[e].base) == s.events[e]
  {
    Step(WithEvent(s, e, s.events[e].(base := WithName(s.events[e].base, name))), Pass)
  }

  /** BaseObject::setKind on an event. */
  function EventSetKind(s: SimState, e: EventRef, tag: int32): (r: Step)
    requires e in s.events
    ensures Grows(s, r.state)
    ensures r.outcome.Pass? && Retouched(s, r.state, e)
    ensures r.state.events[e].base.kind == tag
    ensures r.state.events[e].base.name == s.events[e].base.name
    ensures r.state.events[e].(base := s.events[e].base) == s.events[e]
  {
    Step(WithEvent(s, e, s.events[e].(base := WithKind(s.events[e].base, tag))), Pass)
  }

  /** ModuleTimer::setOwnerModuleId: the owner only; a queued timer stays queued, and is
      dispatched to its new owner. */
  function TimerSetOwner(s: SimState, e: EventRef, owner: ModuleId): (r: Step)
    requires e in s.events && s.events[e].kind.Timer?
    ensures Grows(s, r.state)
    ensures r.outcome.Pass? && Retouched(s, r.state, e)
    ensures r.state.events[e].kind.Timer? && Target(r.state.events[e]) == owner
    ensures r.state.events[e].kind.attachedData == s.events[e].kind.attachedData
    ensures r.state.events[e].(kind := s.events[e].kind) == s.events[e]
  {
    var ev := s.events[e];
    Step(WithEvent(s, e, ev.(kind := ev.kind.(owner := owner))), Pass)
  }

  /** ModuleTimer::setAttachedData. */
  function TimerSetData(s: SimState, e: EventRef, data: Option<nat>): (r: Step)
    requires e in s.events && s.events[e].kind.Timer?
    ensures Grows(s, r.state)
    ensures r.outcome.Pass? && Retouched(s, r.state, e)
    ensures r.state.events[e].kind.Timer? && r.state.events[e].kind.attachedData == data
    ensures Target(r.state.events[e]) == Target(s.events[e])
    ensures r.state.events[e].(kind := s.events[e].kind) == s.events[e]
  {
    var ev := s.events[e];
    Step(WithEvent(s, e, ev.(kind := ev.kind.(attachedData := data))), Pass)
  }

  /** MovingParticle::setId. */
  function ParticleSetId(s: SimState, e: EventRef, id: ParticleId): (r: Step)
    requires e in s.events && s.events[e].kind.Particle?
    ensures Grows(s, r.state)
    ensures r.outcome.Pass? && Retouched(s, r.state, e)
    ensures r.state.events[e].kind.Particle? && r.state.events[e].kind.id == id
    ensures Target(r.state.events[e]) == Target(s.events[e])
    ensures r.state.events[e].kind.(id := s.events[e].kind.id) == s.events[e].kind
    ensures r.state.events[e].(kind := s.events[e].kind) == s.events[e]
  {
    var ev := s.events[e];
    Step(WithEvent(s, e, ev.(kind := ev.kind.(id := id))), Pass)
  }

  /** SimulationEvent::cancelScheduling: ask the simulator, then clear the flag. */
  function EventCancelScheduling(s: SimState, e: EventRef): (r: Step)
    ensures Grows(s, r.state)
    requires e in s.events
    ensures e in r.state.events && |r.state.queue| <= |s.queue|
    ensures EventsOnly(s, r.state)
  {
    var c := CancelFutureEvent(s, e);
    if c.outcome.Fail? then c
    else Step(WithEvent(c.state, e, c.state.events[e].(scheduled := false)), Pass)
  }

  /** delete event: the destructor throws for a scheduled event during a simulation; the
      memory is released all the same. */
  function EventDestroy(s: SimState, e: EventRef): (r: Step)
    ensures Grows(s, r.state)
    requires e in s.events
    ensures EventsOnly(s, r.state)
  {
    var s1 := s.(events := s.events - {e});
    if s.events[e].scheduled && IsSimulating(s.stage) then Step(s1, Fail(PendingEventDestroyed))
    else Step(s1, Pass)
  }

  /** operator= between two events of the same class: the name and kind are copied; a
      scheduled source schedules the target at its time through the target's virtual
      scheduleAt; then the class's own fields are copied. For particles this is the assignment
      as it is evidently meant (AssignParticleAsWritten is the code as written). */
  function EventAssign(s: SimState, dst: EventRef, src: EventRef): (r: Step)
    ensures Grows(s, r.state)
    requires dst in s.events && src in s.events
    requires s.events[dst].kind.Timer? == s.events[src].kind.Timer?
    ensures dst in r.state.events
    ensures EventsOnly(s, r.state)
  {
    if dst == src then Step(s, Pass)
    else
      var source := s.events[src];
      var s1 := WithEvent(s, dst, s.events[dst].(base := source.base));
      var st := if source.scheduled then ScheduleAt(s1, dst, source.occurrence) else Step(s1, Pass);
      if st.outcome.Fail? then st
      else Step(WithEvent(st.state, dst, st.state.events[dst].(kind := source.kind)), Pass)
  }

  /** new ModuleTimer(name): the event gets the next handle. */
  function TimerCreate(s: SimState, name: string): (r: Step)
    ensures Grows(s, r.state)
    ensures EventsOnly(s, r.state)
  {
    Step(WithEvent(s, s.nextEvent, NewTimer(name, s.processed, s.clock)).(nextEvent := s.nextEvent + 1), Pass)
  }

  /** new ModuleTimer(*src): a timer of the same name owned by the processed module, then
      operator= from the source. When operator= throws, the half-built timer is destroyed and
      its memory released: its flag is still clear, so its destructor does not throw, and no
      queue entry refers to it. */
  function TimerCopy(s: SimState, src: EventRef): (r: Step)
    ensures Grows(s, r.state)
    requires src in s.events && s.events[src].kind.Timer?
    ensures EventsOnly(s, r.state)
    ensures r.outcome.Fail? ==> s.nextEvent !in r.state.events
  {
    var e := s.nextEvent;
    var s1 := TimerCreate(s, s.events[src].base.name).state;
    var a := EventAssign(s1, e, src);
    if a.outcome.Fail? then Step(a.state.(events := a.state.events - {e}), a.outcome) else a
  }

  /** new MovingParticle(id, name). */
  function ParticleCreate(s: SimState, id: ParticleId, name: Option<string>): (r: Step)
    ensures Grows(s, r.state)
    ensures EventsOnly(s, r.state)
  {
    Step(WithEvent(s, s.nextEvent, NewParticle(id, name, s.processed, s.clock)).(nextEvent := s.nextEvent + 1), Pass)
  }

  // ------------------------------------------------------------ hooks and their guards

  /** The outcome of the base-class body of a hook. */
  function InheritedOutcome(h: HookKind): (o: Outcome)
    ensures o.Fail? <==> h == ModuleParticleArrival
    ensures o.Fail? ==> o.error == AbstractHandler
  {
    if h == ModuleParticleArrival then Fail(AbstractHandler) else Pass
  }

  /** A hook call: recorded with the processed module, then the reaction runs. */
  function RunHook(s: SimState, hook: HookKind, event: Option<EventRef>, r: Reaction): (st: Step)
    ensures Grows(s, st.state)
    ensures r.Inherited? ==> st.state == s.(calls := st.state.calls)
  {
    var s1 := s.(calls := s.calls + [HookCall(hook, s.processed, event)]);
    match r
    case Inherited => Step(s1, InheritedOutcome(hook))
    case Override(cmds) => ApplyAll(s1, cmds)
  }

  /** sim_handleTimerTriggering of a module. */
  function ModuleTimerHandler(s: SimState, e: EventRef, r: Reaction): (st: Step)
    ensures Grows(s, st.state)
    ensures r.Inherited? ==> st.state == s.(calls := st.state.calls)
  {
    var g := ModuleHandlerGuard(s.pattern);
    if g.Fail? then Step(s, g) else RunHook(s, ModuleTimerTriggering, Some(e), r)
  }

  /** sim_handleParticleArrival of module `m`: the particle is captured before the hook runs. */
  function ModuleArrivalHandler(s: SimState, m: ModuleRef, p: EventRef, r: Reaction): (st: Step)
    ensures Grows(s, st.state)
    requires m in s.modules
    ensures r.Inherited? ==> st.state == s.(calls := st.state.calls, modules := st.state.modules)
  {
    var g := ModuleHandlerGuard(s.pattern);
    if g.Fail? then Step(s, g)
    else RunHook(s.(modules := s.modules[m := Capture(s.modules[m], p)]), ModuleParticleArrival, Some(p), r)
  }

  /** sim_handleParticleDeparture of module `m`: the particle is released, then the hook runs; an
      override returns normally (it issues no commands), the base body throws. */
  function ModuleDepartureHandler(s: SimState, m: ModuleRef, p: EventRef, overridden: bool): (st: Step)
    ensures Grows(s, st.state)
    requires m in s.modules
    ensures s.pattern.BasedOnParticlesBehaviours? ==> st == Step(s, Fail(PatternMismatch))
    ensures s.pattern.BasedOnModulesBehaviours? ==>
      && (st.outcome.Pass? <==> overridden)
      && (st.outcome.Fail? ==> st.outcome.error == AbstractHandler)
      && st.state == s.(modules := st.state.modules) && st.state.modules.Keys == s.modules.Keys
      && st.state.modules[m] == s.modules[m].(particles := s.modules[m].particles - {p})
      && forall x :: x in s.modules && x != m ==> st.state.modules[x] == s.modules[x]
  {
    var g := ModuleHandlerGuard(s.pattern);
    if g.Fail? then Step(s, g)
    else Step(s.(modules := s.modules[m := Release(s.modules[m], p)]), if overridden then Pass else Fail(AbstractHandler))
  }

  /** ModuleTimer::sim_handleTriggering. */
  function TimerHandler(s: SimState, e: EventRef, r: Reaction): (st: Step)
    ensures Grows(s, st.state)
    ensures r.Inherited? ==> st.state == s.(calls := st.state.calls)
  {
    var g := EventHandlerGuard(s.pattern);
    if g.Fail? then Step(s, g) else RunHook(s, TimerTriggering, Some(e), r)
  }

  /** MovingParticle::sim_handleArrivalAtModule. */
  function ParticleHandler(s: SimState, e: EventRef, r: Reaction): (st: Step)
    ensures Grows(s, st.state)
    ensures r.Inherited? ==> st.state == s.(calls := st.state.calls)
  {
    var g := EventHandlerGuard(s.pattern);
    if g.Fail? then Step(s, g) else RunHook(s, ParticleArrival, Some(e), r)
  }

  /** sim_getReady and sim_terminate: each runs only in its own stage. */
  function StageHandler(s: SimState, hook: HookKind, r: Reaction): (st: Step)
    ensures Grows(s, st.state)
    requires hook == GetReady || hook == Terminate
    ensures hook == GetReady && s.stage != InitializationStage ==> st == Step(s, Fail(StageMismatch))
    ensures hook == Terminate && s.stage != PostProcessingStage ==> st == Step(s, Fail(StageMismatch))
    ensures (hook == GetReady && s.stage == InitializationStage) || (hook == Terminate && s.stage == PostProcessingStage) ==>
      st == RunHook(s, hook, None, r)
  {
    var g := if hook == GetReady then GetReadyGuard(s.stage) else TerminateGuard(s.stage);
    if g.Fail? then Step(s, g) else RunHook(s, hook, None, r)
  }

  // ------------------------------------------------------------ user commands

  /** One command of user code; handles of destroyed events are dangling pointers, and
      commands that C++ would not compile (a timer operation on a particle) are ill-typed. */
  function Apply(s: SimState, c: Command): (st: Step)
    ensures Grows(s, st.state)
  {
    match c
    case MakeTimer(name) => TimerCreate(s, name)
    case CloneTimer(src) =>
      if src !in s.events then Step(s, Fail(DanglingPointer))
      else if !s.events[src].kind.Timer? then Step(s, Fail(IllTypedCommand))
      else TimerCopy(s, src)
    case MakeParticle(id, name) => ParticleCreate(s, id, name)
    case Schedule(e, t) =>
      if e !in s.events then Step(s, Fail(DanglingPointer)) else ScheduleAt(s, e, t)
    case ScheduleFor(e, t, owner) =>
      if e !in s.events then Step(s, Fail(DanglingPointer))
      else if !s.events[e].kind.Timer? then Step(s, Fail(IllTypedCommand))
      else TimerScheduleAtOwner(s, e, t, owner)
    case ScheduleWith(e, t, m) =>
      if e !in s.events then Step(s, Fail(DanglingPointer))
      else if !s.events[e].kind.Timer? then Step(s, Fail(IllTypedCommand))
      else TimerScheduleAtModule(s, e, t, m)
    case SendTo(e, dest, t) =>
      if e !in s.events then Step(s, Fail(DanglingPointer))
      else if !s.events[e].kind.Particle? then Step(s, Fail(IllTypedCommand))
      else ParticleSend(s, e, dest, t)
    case Retime(e, t) =>
      if e !in s.events then Step(s, Fail(DanglingPointer)) else EventSetOccurrenceTime(s, e, t)
    case Rename(e, name) =>
      if e !in s.events then Step(s, Fail(DanglingPointer)) else EventSetName(s, e, name)
    case Retag(e, tag) =>
      if e !in s.events then Step(s, Fail(DanglingPointer)) else EventSetKind(s, e, tag)
    case Reown(e, owner) =>
      if e !in s.events then Step(s, Fail(DanglingPointer))
      else if !s.events[e].kind.Timer? then Step(s, Fail(IllTypedCommand))
      else TimerSetOwner(s, e, owner)
    case Attach(e, data) =>
      if e !in s.events then Step(s, Fail(DanglingPointer))
      else if !s.events[e].kind.Timer? then Step(s, Fail(IllTypedCommand))
      else TimerSetData(s, e, data)
    case Renumber(e, id) =>
      if e !in s.events then Step(s, Fail(DanglingPointer))
      else if !s.events[e].kind.Particle? then Step(s, Fail(IllTypedCommand))
      else ParticleSetId(s, e, id)
    case Cancel(e) =>
      if e !in s.events then Step(s, Fail(DanglingPointer)) else EventCancelScheduling(s, e)
    case AssignFrom(dst, src) =>
      if dst !in s.events || src !in s.events then Step(s, Fail(DanglingPointer))
      else if s.events[dst].kind.Timer? != s.events[src].kind.Timer? then Step(s, Fail(IllTypedCommand))
      else EventAssign(s, dst, src)
    case Delete(e) =>
      if e !in s.events then Step(s, Fail(DanglingPointer)) else EventDestroy(s, e)
    case Depart(m, p, overridden) =>
      if m !in s.modules then Step(s, Fail(DanglingPointer)) else ModuleDepartureHandler(s, m, p, overridden)
    case CaptureIn(m, p) =>
      if m !in s.modules then Step(s, Fail(DanglingPointer))
      else Step(s.(modules := s.modules[m := Capture(s.modules[m], p)]), Pass)
    case ReleaseFrom(m, p) =>
      if m !in s.modules then Step(s, Fail(DanglingPointer))
      else Step(s.(modules := s.modules[m := Release(s.modules[m], p)]), Pass)
    case Throw => Step(s, Fail(HandlerRaised))
  }

  /** The commands of an override, in order, up to the first exception. */
  function ApplyAll(s: SimState, cmds: seq<Command>): (st: Step)
    ensures Grows(s, st.state)
    decreases |cmds|
  {
    if |cmds| == 0 then Step(s, Pass)
    else
      var st := Apply(s, cmds[0]);
      if st.outcome.Fail? then st else ApplyAll(st.state, cmds[1..])
  }

  // ------------------------------------------------------------ the event loop

  /** `m_simulationGraph->vertex(id)`: the module of a vertex; an unknown vertex throws. */
  function VertexModule(s: SimState, id: VertexId): (r: Result<ModuleRef>)
    ensures r.Ok? ==> r.value in s.modules
    ensures r.Ok? <==> s.graph.Some? && id in s.graph.value && s.graph.value[id].vertexRef in s.modules
  {
    if s.graph.None? then Err(DanglingPointer)
    else if id !in s.graph.value then Err(NotFound)
    else if s.graph.value[id].vertexRef !in s.modules then Err(DanglingPointer)
    else Ok(s.graph.value[id].vertexRef)
  }

  /** The module an event is processed in: a timer's owner, a particle's next module. */
  function Target(ev: Event): ModuleId
  {
    if ev.kind.Timer? then ev.kind.owner else ev.kind.next
  }

  /** Step 4 and 5 of makeSimulation: the processed module becomes the timer's owner or the
      particle's next module, the handler of the current pattern runs, and the processed
      module is reset unless the handler threw. */
  function Dispatch(s: SimState, e: EventRef, r: Reaction): (d: Step)
    ensures Grows(s, d.state)
    requires e in s.events
    ensures r.Inherited? ==> d.state.queue == s.queue && d.state.events == s.events
  {
    var ev := s.events[e];
    var target := Target(ev);
    var s1 := s.(processed := target);
    var h :=
      if s.pattern.BasedOnModulesBehaviours? then
        match VertexModule(s1, target)
        case Err(err) => Step(s1, Fail(err))
        case Ok(m) => if ev.kind.Timer? then ModuleTimerHandler(s1, e, r) else ModuleArrivalHandler(s1, m, e, r)
      else if ev.kind.Timer? then TimerHandler(s1, e, r)
      else ParticleHandler(s1, e, r);
    if h.outcome.Fail? then h else Step(h.state.(processed := InvalidModuleId), Pass)
  }

  /** How an iteration of the event loop ends: it goes on, or the loop stops. */
  datatype Turn = Continue(state: SimState, trace: seq<Reaction>) | Halt(run: Run)

  /** One iteration of makeSimulation. With an empty trace every hook runs its base body,
      which pushes nothing, so the loop always progresses on the trace or on the queue. */
  function MakeStep(s: SimState, max: SimulationTime, trace: seq<Reaction>): (t: Turn)
    ensures Grows(s, if t.Continue? then t.state else t.run.state)
    ensures t.Continue? ==> |t.trace| < |trace| || (t.trace == trace && |t.state.queue| < |s.queue|)
    ensures t.Halt? ==> |t.run.trace| <= |trace|
  {
    if |s.queue| == 0 then Halt(Run(s, Pass, trace))
    else if !Live(s.events, s.queue) then Halt(Run(s, Fail(DanglingPointer), trace))
    else
      var i := PopIndex(s.events, s.queue);
      var e := s.queue[i];
      var ev := s.events[e];
      if max.raw != 0 && ev.occurrence.Gt(max) then Halt(Run(s, Pass, trace))
      else
        var s1 := s.(queue := Remove(s.queue, i));
        if !ev.scheduled then Halt(Run(s1, Fail(UnscheduledEventInQueue), trace))
        else
          var c := EventCancelScheduling(s1, e);
          if c.outcome.Fail? then Halt(Run(c.state, c.outcome, trace))
          else if s.clock.Gt(ev.occurrence) then Halt(Run(c.state, Fail(EventInThePast), trace))
          else
            var d := Dispatch(c.state.(clock := ev.occurrence), e, Head(trace));
            GrowsTrans(s, c.state.(clock := ev.occurrence), d.state);
            if d.outcome.Fail? then Halt(Run(d.state, d.outcome, Tail(trace)))
            else Continue(d.state, Tail(trace))
  }

  /** makeSimulation: iterate until the loop stops. */
  function Make(s: SimState, max: SimulationTime, trace: seq<Reaction>): (r: Run)
    ensures Grows(s, r.state)
    ensures |r.trace| <= |trace|
    decreases |trace|, |s.queue|
  {
    match MakeStep(s, max, trace)
    case Halt(run) => run
    case Continue(s1, rest) => Make(s1, max, rest)
  }

  // ------------------------------------------------------------ preparation and post-processing

  /** The loop of prepareSimulation (GetReady) or postProcessSimulation (Terminate) over the
      vertices `ids`: the processed module becomes the vertex's module, then its handler runs. */
  function VisitModules(s: SimState, ids: seq<VertexId>, hook: HookKind, trace: seq<Reaction>): (r: Run)
    ensures Grows(s, r.state)
    requires hook == GetReady || hook == Terminate
    ensures |r.trace| <= |trace|
    ensures r.outcome.Pass? ==> |r.trace| == if |trace| <= |ids| then 0 else |trace| - |ids|
    decreases |ids|
  {
    if |ids| == 0 then Run(s, Pass, trace)
    else match VertexModule(s, ids[0])
      case Err(err) => Run(s, Fail(err), trace)
      case Ok(m) =>
        var st := StageHandler(s.(processed := s.modules[m].id), hook, Head(trace));
        if st.outcome.Fail? then Run(st.state, st.outcome, Tail(trace))
        else VisitModules(st.state, ids[1..], hook, Tail(trace))
  }

  /** prepareSimulation: reset the processed module, check the graph and the stage, then call
      sim_getReady on every vertex in ascending identifier order. */
  ghost function Prepare(s: SimState, trace: seq<Reaction>): (r: Run)
    ensures Grows(s, r.state)
    ensures s.graph.None? ==> r.outcome == Fail(NoGraph)
    ensures r.outcome.Pass? ==> s.graph.Some? && s.stage == InitializationStage
  {
    var s1 := s.(processed := InvalidModuleId);
    if s1.graph.None? then Run(s1, Fail(NoGraph), trace)
    else if s1.stage != InitializationStage then Run(s1, Fail(WrongStage), trace)
    else VisitModules(s1, Ascending(s1.graph.value.Keys), GetReady, trace)
  }

  /** postProcessSimulation: the same with sim_terminate, without resetting the processed module. */
  ghost function PostProcess(s: SimState, trace: seq<Reaction>): (r: Run)
    ensures Grows(s, r.state)
    ensures s.graph.None? ==> r == Run(s, Fail(NoGraph), trace)
    ensures r.outcome.Pass? ==> s.graph.Some? && s.stage == PostProcessingStage
  {
    if s.graph.None? then Run(s, Fail(NoGraph), trace)
    else if s.stage != PostProcessingStage then Run(s, Fail(WrongStage), trace)
    else VisitModules(s, Ascending(s.graph.value.Keys), Terminate, trace)
  }

  /** The body of the loop of simulate: one run through the three stages and back out. */
  ghost function OneRun(s: SimState, max: SimulationTime, trace: seq<Reaction>): (r: Run)
    ensures Grows(s, r.state)
    ensures s.graph.None? ==> r.outcome == Fail(NoGraph)
    ensures r.outcome.Pass? ==> r.state.stage == OutOfSimulationStage && r.state.processed == InvalidModuleId
  {
    var p := Prepare(s.(clock := Zero, processed := InvalidModuleId, stage := InitializationStage), trace);
    if p.outcome.Fail? then p
    else
      var m := Make(p.state.(processed := InvalidModuleId, stage := EventsSimulationStage), max, p.trace);
      if m.outcome.Fail? then m
      else
        var q := PostProcess(m.state.(processed := InvalidModuleId, stage := PostProcessingStage), m.trace);
        if q.outcome.Fail? then q
        else Run(q.state.(processed := InvalidModuleId, stage := OutOfSimulationStage), Pass, q.trace)
  }

  ghost function Runs(s: SimState, max: SimulationTime, n: nat, trace: seq<Reaction>): (r: Run)
    ensures Grows(s, r.state)
    ensures n == 0 ==> r == Run(s, Pass, trace)
    ensures n > 0 && r.outcome.Pass? ==> r.state.stage == OutOfSimulationStage && r.state.processed == InvalidModuleId
    decreases n
  {
    if n == 0 then Run(s, Pass, trace)
    else
      var r := OneRun(s, max, trace);
      if r.outcome.Fail? then r else Runs(r.state, max, n - 1, r.trace)
  }

  /** simulate(maxSimTime, simulationsNumber): no graph throws; otherwise `n` runs. */
  ghost function Simulate(s: SimState, max: SimulationTime, n: nat, trace: seq<Reaction>): (r: Run)
    ensures Grows(s, r.state)
    ensures s.graph.None? ==> r == Run(s, Fail(NoGraph), trace)
    ensures r.outcome.Pass? ==> r.state.stage == OutOfSimulationStage && r.state.processed == InvalidModuleId
  {
    if s.graph.None? then Run(s, Fail(NoGraph), trace)
    else Runs(s.(processed := InvalidModuleId, stage := OutOfSimulationStage), max, n, trace)
  }

  // ------------------------------------------------------------ set-up and tear-down

  /** cleanupSimulator: refused while simulating; otherwise delete every queued event, drop the
      graph and reset the clock. */
  function Cleanup(s: SimState): (r: Step)
    ensures Grows(s, r.state)
    ensures IsSimulating(s.stage) ==> r == Step(s, Fail(CleanupWhileSimulating))
    ensures r.state.stage == s.stage && r.state.pattern == s.pattern && r.state.modules == s.modules
    ensures r.outcome.Pass? ==> r.state.graph.None? && r.state.clock == Zero
  {
    if IsSimulating(s.stage) then Step(s, Fail(CleanupWhileSimulating))
    else
      var d := DrainQueue(s.events, s.queue);
      var s1 := s.(events := d.events, queue := d.queue);
      if d.outcome.Fail? then Step(s1, d.outcome)
      else Step(s1.(graph := None, clock := Zero), Pass)
  }

  /** The loop of initiateSimulator over the vertices `ids`: each vertex's module gets the
      ascending predecessors and successors of the vertex as its neighbours. Reading the module
      of a vertex in `erased`, whose payload entry is gone, is a dangling pointer. */
  ghost function SetAllNeighbours(s: SimState, g: SimulationGraph, erased: set<VertexId>, ids: seq<VertexId>): (r: Step)
    ensures Grows(s, r.state)
    ensures r.state.graph == s.graph && r.state.modules.Keys == s.modules.Keys
    ensures r.outcome.Pass? ==> forall k :: 0 <= k < |ids| ==> ids[k] in g && ids[k] !in erased
    decreases |ids|
  {
    if |ids| == 0 then Step(s, Pass)
    else if ids[0] !in g then Step(s, Fail(NotFound))
    else if ids[0] in erased then Step(s, Fail(DanglingPointer))
    else
      var v := g[ids[0]];
      if v.vertexRef !in s.modules then Step(s, Fail(DanglingPointer))
      else
        var m := s.modules[v.vertexRef].(sources := Ascending(v.predecessors), destinations := Ascending(v.successors.Keys));
        SetAllNeighbours(s.(modules := s.modules[v.vertexRef := m]), g, erased, ids[1..])
  }

  /** initiateSimulator(graph): clean up; take the graph and set every module's neighbours;
      end out of simulation at time 0. `erased` lists the graph's dangling vertices. */
  ghost function Initiate(s: SimState, g: Option<SimulationGraph>, erased: set<VertexId>): (r: Step)
    ensures Grows(s, r.state)
    ensures IsSimulating(s.stage) ==> r == Step(s, Fail(CleanupWhileSimulating))
    ensures r.outcome.Pass? ==> r.state.stage == OutOfSimulationStage && r.state.clock == Zero && r.state.graph == g
  {
    var c := Cleanup(s);
    if c.outcome.Fail? then c
    else if g.None? then Step(c.state.(stage := OutOfSimulationStage, clock := Zero), Pass)
    else
      var n := SetAllNeighbours(c.state.(graph := g), g.value, erased, Ascending(g.value.Keys));
      if n.outcome.Fail? then n
      else Step(n.state.(stage := OutOfSimulationStage, clock := Zero), Pass)
  }
}
