// The simulator object: the fields of DESimulator and of the heap it works on,
// and its operations together with those of the events and modules, each
// carried out step by step as the source does it. Every method is proved to
// make exactly the transition of the Kernel function of the same name, whose
// properties the KernelProps lemmas state.
module Simulator {
  import opened Common
  import opened Stages
  import opened SimTime
  import opened BaseObjects
  import opened OrderedSets
  import opened GraphCore
  import opened Events
  import opened Modules
  import opened EventQueue
  import opened Kernel
  import opened Graphs
  import opened UniqueIds
  import KernelProps

  class DESimulator {
    var pattern: SimulationPattern
    var stage: SimulationStage
    var clock: SimulationTime
    var processed: ModuleId
    var graph: Option<SimulationGraph>
    /** The queue of future events, in push order. */
    var queue: seq<EventRef>
    /** The live events, by handle. */
    var events: map<EventRef, Event>
    var nextEvent: EventRef
    /** The live modules, by handle. */
    var modules: map<ModuleRef, Module>
    var nextModule: ModuleRef
    /** The hook calls made so far. */
    var calls: seq<HookCall>

    /** The simulator's fields as a kernel state. */
    function State(): SimState
      reads this
    {
      SimState(pattern, stage, clock, processed, graph, queue, events, nextEvent, modules, nextModule, calls)
    }

    /** DESimulator(). */
    constructor ()
      ensures State() == Initial()
    {
      pattern := BasedOnModulesBehaviours;
      clock := Zero;
      processed := InvalidModuleId;
      queue := [];
      graph := None;
      stage := OutOfSimulationStage;
      events := map[];
      nextEvent := 0;
      modules := map[];
      nextModule := 0;
      calls := [];
    }

    /** isCurrentlySimulating: any stage but OutOfSimulationStage. */
    function IsCurrentlySimulating(): (b: bool)
      reads this
      ensures b <==> stage != OutOfSimulationStage
    {
      IsSimulating(stage)
    }

    /** setSimulationPattern. */
    method SetSimulationPattern(p: SimulationPattern)
      modifies this`pattern
      ensures pattern == p
    {
      pattern := p;
    }

    /** new SimulationModule(kind, name): the module gets the next handle and a fresh identifier. */
    method AddModule(kind: int32, name: string, gen: UniqueIdGenerator) returns (m: ModuleRef)
      requires gen.Valid()
      modifies this`modules, this`nextModule, gen
      ensures m == old(nextModule) && nextModule == old(nextModule) + 1
      ensures m in modules && modules == old(modules)[m := modules[m]]
      ensures modules[m].id == old(gen.nextId) && modules[m].base == BaseObject(name, kind)
      ensures modules[m].particles == {} && modules[m].sources == [] && modules[m].destinations == []
      ensures gen.Valid() && gen.issued == old(gen.issued) + [modules[m].id]
      ensures FreshHandles(old(State())) ==> m !in old(modules) && FreshHandles(State())
    {
      var created := NewModule(kind, name, gen);
      m := nextModule;
      modules := modules[m := created];
      nextModule := nextModule + 1;
    }

    // ---------------------------------------------------------- the queue

    /** scheduleFutureEvent. */
    method ScheduleFutureEvent(e: EventRef) returns (o: Outcome)
      modifies this`queue
      ensures Step(State(), o) == Kernel.ScheduleFutureEvent(old(State()), e)
    {
      if !IsCurrentlySimulating() {
        o := Fail(NotSimulating);
        return;
      }
      queue := queue + [e];
      o := Pass;
    }

    /** cancelFutureEvent: pop into a temporary queue until the event comes out, then push the
        temporary queue back. */
    method CancelFutureEvent(e: EventRef) returns (o: Outcome)
      modifies this`queue
      ensures Step(State(), o) == Kernel.CancelFutureEvent(old(State()), e)
    {
      if !IsCurrentlySimulating() {
        o := Fail(NotSimulating);
        return;
      }
      if e !in events {
        o := Fail(DanglingPointer);
        return;
      }
      if !events[e].scheduled {
        o := Pass;
        return;
      }
      if !Live(events, queue) {
        o := Fail(DanglingPointer);
        return;
      }
      ghost var s0 := State();
      var tmp := PopUntil(e);
      PushBack(tmp);
      assert queue == CancelQueue(events, s0.queue, e);
      assert Kernel.CancelFutureEvent(s0, e) == Step(s0.(queue := queue), Pass);
      o := Pass;
    }

    /** The first loop of cancelFutureEvent. */
    method PopUntil(e: EventRef) returns (tmp: seq<EventRef>)
      requires Live(events, queue)
      modifies this`queue
      ensures Live(events, tmp)
      ensures queue == CancelScan(events, old(queue), [], e).rest && tmp == CancelScan(events, old(queue), [], e).popped
    {
      tmp := [];
      var searching := true;
      while searching
        invariant Live(events, queue) && Live(events, tmp)
        invariant searching ==> CancelScan(events, queue, tmp, e) == CancelScan(events, old(queue), [], e)
        invariant !searching ==> queue == CancelScan(events, old(queue), [], e).rest && tmp == CancelScan(events, old(queue), [], e).popped
        decreases |queue|, searching
      {
        if |queue| == 0 {
          searching := false;
        } else {
          var i := PopIndex(events, queue);
          var top := queue[i];
          var rest := Remove(queue, i);
          LiveByMultiset(events, rest, queue);
          assert CancelScan(events, queue, tmp, e) == if top == e then Scan(rest, tmp, true) else CancelScan(events, rest, tmp + [top], e);
          queue := rest;
          if top == e {
            searching := false;
          } else {
            tmp := tmp + [top];
          }
        }
      }
    }

    /** The second loop of cancelFutureEvent. */
    method PushBack(tmp: seq<EventRef>)
      requires Live(events, tmp)
      modifies this`queue
      ensures queue == Refill(events, old(queue), tmp)
    {
      var t := tmp;
      while |t| > 0
        invariant Live(events, t)
        invariant Refill(events, queue, t) == Refill(events, old(queue), tmp)
        decreases |t|
      {
        var i := PopIndex(events, t);
        LiveByMultiset(events, Remove(t, i), t);
        queue := queue + [t[i]];
        t := Remove(t, i);
      }
    }

    // ---------------------------------------------------------- events

    /** SimulationEvent::scheduleAt. */
    method EventScheduleAt(e: EventRef, t: SimulationTime) returns (o: Outcome)
      requires e in events
      modifies this`events, this`queue
      ensures Step(State(), o) == Kernel.EventScheduleAt(old(State()), e, t)
    {
      events := events[e := events[e].(occurrence := t)];
      o := ScheduleFutureEvent(e);
      if o.Pass? {
        events := events[e := events[e].(scheduled := true)];
      }
    }

    /** The virtual scheduleAt(t). */
    method ScheduleAt(e: EventRef, t: SimulationTime) returns (o: Outcome)
      requires e in events
      modifies this`events, this`queue
      ensures Step(State(), o) == Kernel.ScheduleAt(old(State()), e, t)
    {
      if Unowned(events[e]) {
        o := Fail(TimerWithoutOwner);
        return;
      }
      o := EventScheduleAt(e, t);
    }

    /** ModuleTimer::scheduleAt(t, owner). */
    method TimerScheduleAtOwner(e: EventRef, t: SimulationTime, owner: ModuleId) returns (o: Outcome)
      requires e in events && events[e].kind.Timer?
      modifies this`events, this`queue
      ensures Step(State(), o) == Kernel.TimerScheduleAtOwner(old(State()), e, t, owner)
    {
      events := events[e := events[e].(kind := events[e].kind.(owner := owner))];
      o := ScheduleAt(e, t);
    }

    /** ModuleTimer::scheduleAt(t, module). */
    method TimerScheduleAtModule(e: EventRef, t: SimulationTime, m: Option<ModuleRef>) returns (o: Outcome)
      requires e in events && events[e].kind.Timer?
      modifies this`events, this`queue
      ensures Step(State(), o) == Kernel.TimerScheduleAtModule(old(State()), e, t, m)
    {
      if m.None? {
        o := Fail(NullModule);
        return;
      }
      if m.value !in modules {
        o := Fail(DanglingPointer);
        return;
      }
      o := TimerScheduleAtOwner(e, t, modules[m.value].id);
    }

    /** MovingParticle::send. */
    method ParticleSend(e: EventRef, dest: ModuleId, t: SimulationTime) returns (o: Outcome)
      requires e in events && events[e].kind.Particle?
      modifies this`events, this`queue
      ensures Step(State(), o) == Kernel.ParticleSend(old(State()), e, dest, t)
    {
      if dest == InvalidModuleId {
        o := Fail(UnspecifiedDestination);
        return;
      }
      var k := events[e].kind;
      events := events[e := events[e].(kind := k.(previous := k.next, next := dest))];
      o := EventScheduleAt(e, t);
    }

    /** SimulationEvent::setOccurenceTime. */
    method SetOccurrenceTime(e: EventRef, t: SimulationTime)
      requires e in events
      modifies this`events
      ensures Step(State(), Pass) == EventSetOccurrenceTime(old(State()), e, t)
    {
      events := events[e := events[e].(occurrence := t)];
    }

    /** BaseObject::setName on an event. */
    method SetEventName(e: EventRef, name: Option<string>)
      requires e in events
      modifies this`events
      ensures Step(State(), Pass) == EventSetName(old(State()), e, name)
    {
      events := events[e := events[e].(base := WithName(events[e].base, name))];
    }

    /** BaseObject::setKind on an event. */
    method SetEventKind(e: EventRef, tag: int32)
      requires e in events
      modifies this`events
      ensures Step(State(), Pass) == EventSetKind(old(State()), e, tag)
    {
      events := events[e := events[e].(base := WithKind(events[e].base, tag))];
    }

    /** ModuleTimer::setOwnerModuleId. */
    method SetTimerOwner(e: EventRef, owner: ModuleId)
      requires e in events && events[e].kind.Timer?
      modifies this`events
      ensures Step(State(), Pass) == TimerSetOwner(old(State()), e, owner)
    {
      events := events[e := events[e].(kind := events[e].kind.(owner := owner))];
    }

    /** ModuleTimer::setAttachedData. */
    method SetTimerData(e: EventRef, data: Option<nat>)
      requires e in events && events[e].kind.Timer?
      modifies this`events
      ensures Step(State(), Pass) == TimerSetData(old(State()), e, data)
    {
      events := events[e := events[e].(kind := events[e].kind.(attachedData := data))];
    }

    /** MovingParticle::setId. */
    method SetParticleId(e: EventRef, id: ParticleId)
      requires e in events && events[e].kind.Particle?
      modifies this`events
      ensures Step(State(), Pass) == ParticleSetId(old(State()), e, id)
    {
      events := events[e := events[e].(kind := events[e].kind.(id := id))];
    }

    /** SimulationEvent::cancelScheduling. */
    method CancelScheduling(e: EventRef) returns (o: Outcome)
      requires e in events
      modifies this`events, this`queue
      ensures Step(State(), o) == EventCancelScheduling(old(State()), e)
    {
      o := CancelFutureEvent(e);
      if o.Pass? {
        events := events[e := events[e].(scheduled := false)];
      }
    }

    /** delete event. */
    method DestroyEvent(e: EventRef) returns (o: Outcome)
      requires e in events
      modifies this`events
      ensures Step(State(), o) == EventDestroy(old(State()), e)
    {
      var pending := events[e].scheduled && IsCurrentlySimulating();
      events := events - {e};
      o := if pending then Fail(PendingEventDestroyed) else Pass;
    }

    /** operator= between events of the same class. */
    method AssignEvent(dst: EventRef, src: EventRef) returns (o: Outcome)
      requires dst in events && src in events
      requires events[dst].kind.Timer? == events[src].kind.Timer?
      modifies this`events, this`queue
      ensures Step(State(), o) == EventAssign(old(State()), dst, src)
    {
      if dst == src {
        o := Pass;
        return;
      }
      var source := events[src];
      events := events[dst := events[dst].(base := source.base)];
      if source.scheduled {
        o := ScheduleAt(dst, source.occurrence);
        if o.Fail? {
          return;
        }
      }
      events := events[dst := events[dst].(kind := source.kind)];
      o := Pass;
    }

    /** new ModuleTimer(name). */
    method CreateTimer(name: string) returns (e: EventRef)
      modifies this`events, this`nextEvent
      ensures e == old(nextEvent) && Step(State(), Pass) == TimerCreate(old(State()), name)
    {
      e := nextEvent;
      events := events[e := NewTimer(name, processed, clock)];
      nextEvent := nextEvent + 1;
    }

    /** new ModuleTimer(*src). */
    method CopyTimer(src: EventRef) returns (e: EventRef, o: Outcome)
      requires src in events && events[src].kind.Timer?
      modifies this`events, this`queue, this`nextEvent
      ensures e == old(nextEvent) && Step(State(), o) == TimerCopy(old(State()), src)
    {
      e := CreateTimer(events[src].base.name);
      o := AssignEvent(e, src);
      if o.Fail? {
        events := events - {e};
      }
    }

    /** new MovingParticle(id, name). */
    method CreateParticle(id: ParticleId, name: Option<string>) returns (e: EventRef)
      modifies this`events, this`nextEvent
      ensures e == old(nextEvent) && Step(State(), Pass) == ParticleCreate(old(State()), id, name)
    {
      e := nextEvent;
      events := events[e := NewParticle(id, name, processed, clock)];
      nextEvent := nextEvent + 1;
    }

    // ---------------------------------------------------------- hooks

    /** One command of user code. */
    method ApplyCommand(c: Command) returns (o: Outcome)
      modifies this
      ensures Step(State(), o) == Apply(old(State()), c)
    {
      match c {
        case MakeTimer(name) =>
          var _ := CreateTimer(name);
          o := Pass;
        case CloneTimer(src) =>
          if src !in events {
            o := Fail(DanglingPointer);
          } else if !events[src].kind.Timer? {
            o := Fail(IllTypedCommand);
          } else {
            var _, r := CopyTimer(src);
            o := r;
          }
        case MakeParticle(id, name) =>
          var _ := CreateParticle(id, name);
          o := Pass;
        case Schedule(e, t) =>
          if e !in events {
            o := Fail(DanglingPointer);
          } else {
            o := ScheduleAt(e, t);
          }
        case ScheduleFor(e, t, owner) =>
          if e !in events {
            o := Fail(DanglingPointer);
          } else if !events[e].kind.Timer? {
            o := Fail(IllTypedCommand);
          } else {
            o := TimerScheduleAtOwner(e, t, owner);
          }
        case ScheduleWith(e, t, m) =>
          if e !in events {
            o := Fail(DanglingPointer);
          } else if !events[e].kind.Timer? {
            o := Fail(IllTypedCommand);
          } else {
            o := TimerScheduleAtModule(e, t, m);
          }
        case SendTo(e, dest, t) =>
          if e !in events {
            o := Fail(DanglingPointer);
          } else if !events[e].kind.Particle? {
            o := Fail(IllTypedCommand);
          } else {
            o := ParticleSend(e, dest, t);
          }
        case Retime(e, t) =>
          if e !in events {
            o := Fail(DanglingPointer);
          } else {
            SetOccurrenceTime(e, t);
            o := Pass;
          }
        case Rename(e, name) =>
          if e !in events {
            o := Fail(DanglingPointer);
          } else {
            SetEventName(e, name);
            o := Pass;
          }
        case Retag(e, tag) =>
          if e !in events {
            o := Fail(DanglingPointer);
          } else {
            SetEventKind(e, tag);
            o := Pass;
          }
        case Reown(e, owner) =>
          if e !in events {
            o := Fail(DanglingPointer);
          } else if !events[e].kind.Timer? {
            o := Fail(IllTypedCommand);
          } else {
            SetTimerOwner(e, owner);
            o := Pass;
          }
        case Attach(e, data) =>
          if e !in events {
            o := Fail(DanglingPointer);
          } else if !events[e].kind.Timer? {
            o := Fail(IllTypedCommand);
          } else {
            SetTimerData(e, data);
            o := Pass;
          }
        case Renumber(e, id) =>
          if e !in events {
            o := Fail(DanglingPointer);
          } else if !events[e].kind.Particle? {
            o := Fail(IllTypedCommand);
          } else {
            SetParticleId(e, id);
            o := Pass;
          }
        case Cancel(e) =>
          if e !in events {
            o := Fail(DanglingPointer);
          } else {
            o := CancelScheduling(e);
          }
        case AssignFrom(dst, src) =>
          if dst !in events || src !in events {
            o := Fail(DanglingPointer);
          } else if events[dst].kind.Timer? != events[src].kind.Timer? {
            o := Fail(IllTypedCommand);
          } else {
            o := AssignEvent(dst, src);
          }
        case Delete(e) =>
          if e !in events {
            o := Fail(DanglingPointer);
          } else {
            o := DestroyEvent(e);
          }
        case Depart(m, p, overridden) =>
          if m !in modules {
            o := Fail(DanglingPointer);
          } else {
            o := ModuleDepartureHandler(m, p, overridden);
          }
        case CaptureIn(m, p) =>
          if m !in modules {
            o := Fail(DanglingPointer);
          } else {
            modules := modules[m := Capture(modules[m], p)];
            o := Pass;
          }
        case ReleaseFrom(m, p) =>
          if m !in modules {
            o := Fail(DanglingPointer);
          } else {
            modules := modules[m := Release(modules[m], p)];
            o := Pass;
          }
        case Throw =>
          o := Fail(HandlerRaised);
      }
    }

    /** The commands of an override, in order, up to the first exception. */
    method RunCommands(cmds: seq<Command>) returns (o: Outcome)
      modifies this
      ensures Step(State(), o) == ApplyAll(old(State()), cmds)
    {
      var k := 0;
      o := Pass;
      while k < |cmds| && o.Pass?
        invariant 0 <= k <= |cmds|
        invariant o.Pass? ==> ApplyAll(State(), cmds[k..]) == ApplyAll(old(State()), cmds)
        invariant o.Fail? ==> Step(State(), o) == ApplyAll(old(State()), cmds)
        decreases |cmds| - k
      {
        assert cmds[k..][0] == cmds[k] && cmds[k..][1..] == cmds[k + 1..];
        o := ApplyCommand(cmds[k]);
        k := k + 1;
      }
    }

    /** A hook call: logged, then the base body or the override runs. */
    method RunHook(hook: HookKind, event: Option<EventRef>, r: Reaction) returns (o: Outcome)
      modifies this
      ensures Step(State(), o) == Kernel.RunHook(old(State()), hook, event, r)
    {
      calls := calls + [HookCall(hook, processed, event)];
      match r {
        case Inherited =>
          o := InheritedOutcome(hook);
        case Override(cmds) =>
          o := RunCommands(cmds);
      }
    }

    /** SimulationModule::sim_handleTimerTriggering. */
    method ModuleTimerHandler(e: EventRef, r: Reaction) returns (o: Outcome)
      modifies this
      ensures Step(State(), o) == Kernel.ModuleTimerHandler(old(State()), e, r)
    {
      o := ModuleHandlerGuard(pattern);
      if o.Pass? {
        o := RunHook(ModuleTimerTriggering, Some(e), r);
      }
    }

    /** SimulationModule::sim_handleParticleArrival. */
    method ModuleArrivalHandler(m: ModuleRef, p: EventRef, r: Reaction) returns (o: Outcome)
      requires m in modules
      modifies this
      ensures Step(State(), o) == Kernel.ModuleArrivalHandler(old(State()), m, p, r)
    {
      o := ModuleHandlerGuard(pattern);
      if o.Pass? {
        modules := modules[m := Capture(modules[m], p)];
        o := RunHook(ModuleParticleArrival, Some(p), r);
      }
    }

    /** SimulationModule::sim_handleParticleDeparture. */
    method ModuleDepartureHandler(m: ModuleRef, p: EventRef, overridden: bool) returns (o: Outcome)
      requires m in modules
      modifies this`modules
      ensures Step(State(), o) == Kernel.ModuleDepartureHandler(old(State()), m, p, overridden)
    {
      o := ModuleHandlerGuard(pattern);
      if o.Pass? {
        modules := modules[m := Release(modules[m], p)];
        o := if overridden then Pass else Fail(AbstractHandler);
      }
    }

    /** ModuleTimer::sim_handleTriggering. */
    method TimerHandler(e: EventRef, r: Reaction) returns (o: Outcome)
      modifies this
      ensures Step(State(), o) == Kernel.TimerHandler(old(State()), e, r)
    {
      o := EventHandlerGuard(pattern);
      if o.Pass? {
        o := RunHook(TimerTriggering, Some(e), r);
      }
    }

    /** MovingParticle::sim_handleArrivalAtModule. */
    method ParticleHandler(e: EventRef, r: Reaction) returns (o: Outcome)
      modifies this
      ensures Step(State(), o) == Kernel.ParticleHandler(old(State()), e, r)
    {
      o := EventHandlerGuard(pattern);
      if o.Pass? {
        o := RunHook(ParticleArrival, Some(e), r);
      }
    }

    /** SimulationModule::sim_getReady and sim_terminate. */
    method StageHandler(hook: HookKind, r: Reaction) returns (o: Outcome)
      requires hook == GetReady || hook == Terminate
      modifies this
      ensures Step(State(), o) == Kernel.StageHandler(old(State()), hook, r)
    {
      o := if hook == GetReady then GetReadyGuard(stage) else TerminateGuard(stage);
      if o.Pass? {
        o := RunHook(hook, None, r);
      }
    }

    // ---------------------------------------------------------- the event loop

    /** Steps 4 and 5 of makeSimulation. */
    method Dispatch(e: EventRef, r: Reaction) returns (o: Outcome)
      requires e in events
      modifies this
      ensures Step(State(), o) == Kernel.Dispatch(old(State()), e, r)
    {
      var ev := events[e];
      processed := Target(ev);
      if pattern.BasedOnModulesBehaviours? {
        match VertexModule(State(), Target(ev)) {
          case Err(err) =>
            o := Fail(err);
          case Ok(m) =>
            if ev.kind.Timer? {
              o := ModuleTimerHandler(e, r);
            } else {
              o := ModuleArrivalHandler(m, e, r);
            }
        }
      } else if ev.kind.Timer? {
        o := TimerHandler(e, r);
      } else {
        o := ParticleHandler(e, r);
      }
      if o.Pass? {
        processed := InvalidModuleId;
      }
    }

    /** One iteration of the loop of makeSimulation. */
    method MakeOneStep(max: SimulationTime, trace: seq<Reaction>) returns (halted: bool, o: Outcome, rest: seq<Reaction>)
      modifies this
      ensures MakeStep(old(State()), max, trace) == if halted then Halt(Run(State(), o, rest)) else Continue(State(), rest)
    {
      halted, o, rest := true, Pass, trace;
      if |queue| == 0 {
        return;
      }
      if !Live(events, queue) {
        o := Fail(DanglingPointer);
        return;
      }
      var i := PopIndex(events, queue);
      var e := queue[i];
      var ev := events[e];
      if max.raw != 0 && ev.occurrence.Gt(max) {
        return;
      }
      queue := Remove(queue, i);
      if !ev.scheduled {
        o := Fail(UnscheduledEventInQueue);
        return;
      }
      o := CancelScheduling(e);
      if o.Fail? {
        return;
      }
      if clock.Gt(ev.occurrence) {
        o := Fail(EventInThePast);
        return;
      }
      clock := ev.occurrence;
      o := Dispatch(e, Head(trace));
      rest := Tail(trace);
      halted := o.Fail?;
    }

    /** makeSimulation. */
    method MakeSimulation(max: SimulationTime, trace: seq<Reaction>) returns (o: Outcome, rest: seq<Reaction>)
      modifies this
      ensures Run(State(), o, rest) == Make(old(State()), max, trace)
    {
      var halted := false;
      o, rest := Pass, trace;
      while !halted
        invariant !halted ==> Make(State(), max, rest) == Make(old(State()), max, trace)
        invariant halted ==> Run(State(), o, rest) == Make(old(State()), max, trace)
        decreases !halted, |rest|, |queue|
      {
        halted, o, rest := MakeOneStep(max, rest);
      }
    }

    /** The loops of prepareSimulation and postProcessSimulation: for every vertex in ascending
        order, make its module the processed one and call its stage hook. */
    method VisitAll(hook: HookKind, trace: seq<Reaction>) returns (o: Outcome, rest: seq<Reaction>)
      requires hook == GetReady || hook == Terminate
      requires graph.Some?
      modifies this
      ensures Run(State(), o, rest) == VisitModules(old(State()), Ascending(old(graph).value.Keys), hook, trace)
    {
      var remaining := graph.value.Keys;
      o, rest := Pass, trace;
      while remaining != {} && o.Pass?
        invariant graph == old(graph)
        invariant o.Pass? ==> VisitModules(State(), Ascending(remaining), hook, rest)
                              == VisitModules(old(State()), Ascending(old(graph).value.Keys), hook, trace)
        invariant o.Fail? ==> Run(State(), o, rest) == VisitModules(old(State()), Ascending(old(graph).value.Keys), hook, trace)
        decreases |remaining|
      {
        LeastExists(remaining);
        var id :| IsLeast(id, remaining);
        AscendingStep(remaining, id);
        remaining := remaining - {id};
        match VertexModule(State(), id) {
          case Err(err) =>
            o := Fail(err);
          case Ok(m) =>
            processed := modules[m].id;
            ghost var before := State();
            o := StageHandler(hook, Head(rest));
            KernelProps.StageHandlerEffect(before, hook, Head(rest));
            rest := Tail(rest);
        }
      }
      if o.Pass? {
        AscendingEmpty();
      }
    }

    /** prepareSimulation. */
    method PrepareSimulation(trace: seq<Reaction>) returns (o: Outcome, rest: seq<Reaction>)
      modifies this
      ensures Run(State(), o, rest) == Prepare(old(State()), trace)
    {
      processed := InvalidModuleId;
      if graph.None? {
        o, rest := Fail(NoGraph), trace;
        return;
      }
      if stage != InitializationStage {
        o, rest := Fail(WrongStage), trace;
        return;
      }
      o, rest := VisitAll(GetReady, trace);
    }

    /** postProcessSimulation. */
    method PostProcessSimulation(trace: seq<Reaction>) returns (o: Outcome, rest: seq<Reaction>)
      modifies this
      ensures Run(State(), o, rest) == PostProcess(old(State()), trace)
    {
      if graph.None? {
        o, rest := Fail(NoGraph), trace;
        return;
      }
      if stage != PostProcessingStage {
        o, rest := Fail(WrongStage), trace;
        return;
      }
      o, rest := VisitAll(Terminate, trace);
    }

    /** The body of the loop of simulate. */
    method OneSimulation(max: SimulationTime, trace: seq<Reaction>) returns (o: Outcome, rest: seq<Reaction>)
      modifies this
      ensures Run(State(), o, rest) == OneRun(old(State()), max, trace)
    {
      clock := Zero;
      processed := InvalidModuleId;
      stage := InitializationStage;
      o, rest := PrepareSimulation(trace);
      if o.Fail? {
        return;
      }
      processed := InvalidModuleId;
      stage := EventsSimulationStage;
      o, rest := MakeSimulation(max, rest);
      if o.Fail? {
        return;
      }
      processed := InvalidModuleId;
      stage := PostProcessingStage;
      o, rest := PostProcessSimulation(rest);
      if o.Fail? {
        return;
      }
      processed := InvalidModuleId;
      stage := OutOfSimulationStage;
    }

    /** simulate(maxSimTime, simulationsNumber). */
    method Simulate(max: SimulationTime, n: nat, trace: seq<Reaction>) returns (o: Outcome, rest: seq<Reaction>)
      modifies this
      ensures Run(State(), o, rest) == Kernel.Simulate(old(State()), max, n, trace)
    {
      if graph.None? {
        o, rest := Fail(NoGraph), trace;
        return;
      }
      processed := InvalidModuleId;
      stage := OutOfSimulationStage;
      o, rest := SimulationRuns(max, n, trace);
    }

    /** The loop of simulate over the runs. */
    method SimulationRuns(max: SimulationTime, n: nat, trace: seq<Reaction>) returns (o: Outcome, rest: seq<Reaction>)
      modifies this
      ensures Run(State(), o, rest) == Runs(old(State()), max, n, trace)
    {
      ghost var s0 := State();
      var i := 0;
      o, rest := Pass, trace;
      while i < n && o.Pass?
        invariant 0 <= i <= n
        invariant o.Pass? ==> Runs(State(), max, n - i, rest) == Runs(s0, max, n, trace)
        invariant o.Fail? ==> Run(State(), o, rest) == Runs(s0, max, n, trace)
        decreases n - i
      {
        ghost var before, trace0 := State(), rest;
        RunsUnfold(before, max, n - i, trace0);
        o, rest := OneSimulation(max, rest);
        i := i + 1;
      }
    }

    // ---------------------------------------------------------- set-up and tear-down

    /** cleanupSimulator: refused while simulating; otherwise empty the queue, then drop the graph. */
    method CleanupSimulator() returns (o: Outcome)
      modifies this`events, this`queue, this`graph, this`clock
      ensures Step(State(), o) == Cleanup(old(State()))
    {
      if IsCurrentlySimulating() {
        o := Fail(CleanupWhileSimulating);
        return;
      }
      o := DeleteQueued();
      if o.Pass? {
        graph := None;
        clock := Zero;
      }
    }

    /** The loop of cleanupSimulator: pop the top and delete its event until the queue is empty. */
    method DeleteQueued() returns (o: Outcome)
      modifies this`events, this`queue
      ensures Drain(events, queue, o) == DrainQueue(old(events), old(queue))
    {
      o := Pass;
      while |queue| > 0 && o.Pass?
        invariant o.Pass? ==> DrainQueue(events, queue) == DrainQueue(old(events), old(queue))
        invariant o.Fail? ==> Drain(events, queue, o) == DrainQueue(old(events), old(queue))
        decreases |queue|, if o.Pass? then 1 else 0
      {
        if !Live(events, queue) {
          o := Fail(DanglingPointer);
        } else {
          var i := PopIndex(events, queue);
          var top := queue[i];
          queue := Remove(queue, i);
          events := events - {top};
        }
      }
    }

    /** initiateSimulator(graph): a null graph is None. */
    method InitiateSimulator(g: GenericGraph?<ModuleRef, int>) returns (o: Outcome)
      requires g != null ==> g.Valid()
      modifies this
      ensures Step(State(), o) == Initiate(old(State()), if g == null then None else Some(g.verticesArcs), if g == null then {} else g.erased)
    {
      o := CleanupSimulator();
      if o.Fail? {
        return;
      }
      if g != null {
        graph := Some(g.verticesArcs);
        o := NeighbourModules(g);
        if o.Fail? {
          return;
        }
      }
      stage := OutOfSimulationStage;
      clock := Zero;
    }

    /** The loop of initiateSimulator over the vertices of the graph, in ascending order. */
    method NeighbourModules(g: GenericGraph<ModuleRef, int>) returns (o: Outcome)
      requires g.Valid()
      modifies this`modules
      ensures Step(State(), o) == SetAllNeighbours(old(State()), g.verticesArcs, g.erased, Ascending(g.verticesArcs.Keys))
    {
      var ids := g.Vertices();
      var remaining := ids;
      o := Pass;
      while remaining != {} && o.Pass?
        invariant o.Pass? ==> SetAllNeighbours(State(), g.verticesArcs, g.erased, Ascending(remaining))
                              == SetAllNeighbours(old(State()), g.verticesArcs, g.erased, Ascending(ids))
        invariant o.Fail? ==> Step(State(), o) == SetAllNeighbours(old(State()), g.verticesArcs, g.erased, Ascending(ids))
        decreases |remaining|
      {
        LeastExists(remaining);
        var id :| IsLeast(id, remaining);
        AscendingStep(remaining, id);
        ghost var s := State();
        ghost var ids' := Ascending(remaining);
        assert ids'[0] == id;
        o := NeighbourModule(g, id);
        remaining := remaining - {id};
        assert ids'[1..] == Ascending(remaining);
      }
      if o.Pass? {
        AscendingEmpty();
      }
    }

    /** One iteration: the module of vertex `id` gets its ascending predecessors and successors. */
    method NeighbourModule(g: GenericGraph<ModuleRef, int>, id: VertexId) returns (o: Outcome)
      requires g.Valid()
      modifies this`modules
      ensures id !in g.verticesArcs ==> o == Fail(NotFound) && modules == old(modules)
      ensures id in g.verticesArcs && (id in g.erased || g.verticesArcs[id].vertexRef !in old(modules)) ==>
        o == Fail(DanglingPointer) && modules == old(modules)
      ensures id in g.verticesArcs && id !in g.erased && g.verticesArcs[id].vertexRef in old(modules) ==>
        var v := g.verticesArcs[id];
        o == Pass && modules == old(modules)[v.vertexRef :=
          old(modules)[v.vertexRef].(sources := Ascending(v.predecessors), destinations := Ascending(v.successors.Keys))]
    {
      match g.VertexOf(id) {
        case Err(err) =>
          o := Fail(err);
        case Ok(ref) =>
          if ref !in modules {
            o := Fail(DanglingPointer);
          } else {
            var preds := g.PredecessorsOf(id);
            var succs := g.SuccessorsOf(id);
            SuccessorKeys(g.verticesArcs, id, succs);
            var m := SetNeighbours(modules[ref], preds, succs);
            modules := modules[ref := m];
            o := Pass;
          }
      }
    }
  }

  /** One more run of simulate's loop. */
  lemma RunsUnfold(s: SimState, max: SimulationTime, n: nat, trace: seq<Reaction>)
    requires n > 0
    ensures Runs(s, max, n, trace) ==
      var r := OneRun(s, max, trace); if r.outcome.Fail? then r else Runs(r.state, max, n - 1, r.trace)
  {
  }

  /** The successor set read off the arc set is the key set of the vertex's successor map. */
  lemma SuccessorKeys<V, A>(va: VertexMap<V, A>, id: VertexId, succs: set<VertexId>)
    requires id in va
    requires forall h :: h in succs <==> ArcId(id, h) in ArcSet(va)
    ensures succs == va[id].successors.Keys
  {
    forall h
      ensures h in succs <==> h in va[id].successors.Keys
    {
      ArcSetMembership(va, ArcId(id, h));
    }
  }
}
