// What the kernel's transitions do, stated against their inputs: the
// scheduling protocol between events and the queue, the effect of the
// handlers, the event loop, and the set-up and run of a whole simulation.
module KernelProps {
  import opened Common
  import opened Stages
  import opened SimTime
  import opened BaseObjects
  import opened OrderedSets
  import opened GraphCore
  import opened Events
  import opened Modules
  import opened EventQueue
  import opened Kernel

  // ------------------------------------------------------------ scheduling

  /** scheduleAt: an unowned timer throws before anything changes; out of simulation the time
      is already set when the push throws, and the flag stays as it was; otherwise the event
      is pushed once more and marked scheduled at the new time. */
  lemma ScheduleAtEffect(s: SimState, e: EventRef, t: SimulationTime)
    requires e in s.events
    ensures var ev := s.events[e]; var r := ScheduleAt(s, e, t);
      && (Unowned(ev) ==> r == Step(s, Fail(TimerWithoutOwner)))
      && (!Unowned(ev) && !IsSimulating(s.stage) ==>
            r == Step(WithEvent(s, e, ev.(occurrence := t)), Fail(NotSimulating)))
      && (!Unowned(ev) && IsSimulating(s.stage) ==>
            r == Step(WithEvent(s.(queue := s.queue + [e]), e, ev.(occurrence := t, scheduled := true)), Pass))
  {
  }

  /** Scheduling an event that is already scheduled queues it a second time: the queue then
      holds two entries for it, both at its latest time. */
  lemma ScheduledTwiceIsQueuedTwice(s: SimState, e: EventRef, t1: SimulationTime, t2: SimulationTime)
    requires e in s.events && !Unowned(s.events[e]) && IsSimulating(s.stage) && e !in s.queue
    ensures var r1 := ScheduleAt(s, e, t1); var r2 := ScheduleAt(r1.state, e, t2);
      && r1.outcome.Pass? && r2.outcome.Pass?
      && multiset(r2.state.queue)[e] == 2 && !Distinct(r2.state.queue)
      && r2.state.events[e].occurrence == t2 && r2.state.events[e].scheduled
  {
    ScheduleAtEffect(s, e, t1);
    var r1 := ScheduleAt(s, e, t1);
    ScheduleAtEffect(r1.state, e, t2);
    assert multiset(s.queue)[e] == 0 by {
      assert e in s.queue <==> e in multiset(s.queue);
    }
    assert r1.state.queue + [e] == s.queue + [e, e];
  }

  /** scheduleAt(t, owner): the owner is set first, so an invalid owner throws with the owner
      already changed; a valid one schedules the timer exactly when simulating. */
  lemma TimerScheduleAtOwnerEffect(s: SimState, e: EventRef, t: SimulationTime, owner: ModuleId)
    requires e in s.events && s.events[e].kind.Timer?
    ensures var ev := s.events[e]; var r := TimerScheduleAtOwner(s, e, t, owner);
      && (owner == InvalidModuleId ==>
            r == Step(WithEvent(s, e, ev.(kind := ev.kind.(owner := owner))), Fail(TimerWithoutOwner)))
      && (owner != InvalidModuleId ==> (r.outcome.Pass? <==> IsSimulating(s.stage)))
      && (owner != InvalidModuleId && IsSimulating(s.stage) ==>
            r.state == WithEvent(s.(queue := s.queue + [e]), e,
              ev.(kind := ev.kind.(owner := owner), occurrence := t, scheduled := true)))
  {
  }

  /** scheduleAt(t, module): a null module throws before anything changes; otherwise the timer
      is scheduled for the module's identifier. */
  lemma TimerScheduleAtModuleEffect(s: SimState, e: EventRef, t: SimulationTime, m: Option<ModuleRef>)
    requires e in s.events && s.events[e].kind.Timer?
    ensures m.None? ==> TimerScheduleAtModule(s, e, t, m) == Step(s, Fail(NullModule))
    ensures m.Some? && m.value in s.modules ==>
      TimerScheduleAtModule(s, e, t, m) == TimerScheduleAtOwner(s, e, t, s.modules[m.value].id)
    ensures m.Some? && m.value in s.modules && s.modules[m.value].id != InvalidModuleId && IsSimulating(s.stage) ==>
      var r := TimerScheduleAtModule(s, e, t, m);
      r.outcome.Pass? && r.state.events[e].kind.owner == s.modules[m.value].id && r.state.queue == s.queue + [e]
  {
    if m.Some? && m.value in s.modules {
      TimerScheduleAtOwnerEffect(s, e, t, s.modules[m.value].id);
    }
  }

  /** send: an unspecified destination throws before anything changes; otherwise the particle's
      previous module becomes its old next module and its next module the destination (these
      stay changed when the push throws), and it is scheduled exactly when simulating. */
  lemma ParticleSendEffect(s: SimState, e: EventRef, dest: ModuleId, t: SimulationTime)
    requires e in s.events && s.events[e].kind.Particle?
    ensures var ev := s.events[e]; var r := ParticleSend(s, e, dest, t);
      var moved := ev.(kind := ev.kind.(previous := ev.kind.next, next := dest), occurrence := t);
      && (dest == InvalidModuleId ==> r == Step(s, Fail(UnspecifiedDestination)))
      && (dest != InvalidModuleId && !IsSimulating(s.stage) ==> r == Step(WithEvent(s, e, moved), Fail(NotSimulating)))
      && (dest != InvalidModuleId && IsSimulating(s.stage) ==>
            r == Step(WithEvent(s.(queue := s.queue + [e]), e, moved.(scheduled := true)), Pass))
  {
  }

  /** cancelScheduling: refused out of simulation with nothing changed; otherwise one queue entry
      of a scheduled event is removed (the queue must then be readable), and the flag cleared. */
  lemma CancelSchedulingEffect(s: SimState, e: EventRef)
    requires e in s.events
    ensures var ev := s.events[e]; var r := EventCancelScheduling(s, e);
      && (r.outcome.Pass? <==> IsSimulating(s.stage) && (ev.scheduled ==> Live(s.events, s.queue)))
      && (r.outcome.Fail? ==> r.state == s)
      && (r.outcome.Pass? ==>
            && r.state == s.(events := s.events[e := ev.(scheduled := false)], queue := r.state.queue)
            && multiset(r.state.queue) == multiset(s.queue) - (if ev.scheduled then multiset{e} else multiset{})
            && (Live(s.events, s.queue) ==> Live(r.state.events, r.state.queue)))
  {
    if IsSimulating(s.stage) && s.events[e].scheduled && Live(s.events, s.queue) {
      CancelQueueEffect(s.events, s.queue, e);
    }
  }

  /** The protocol between events and the queue: the queue is readable, holds each event at most
      once, and holds exactly the events whose flag is set. */
  ghost predicate WellQueued(s: SimState)
  {
    && Live(s.events, s.queue)
    && Distinct(s.queue)
    && forall x :: x in s.events ==> (s.events[x].scheduled <==> x in s.queue)
  }

  /** Scheduling an unscheduled event keeps the protocol. */
  lemma ScheduleKeepsWellQueued(s: SimState, e: EventRef, t: SimulationTime)
    requires WellQueued(s) && e in s.events && !s.events[e].scheduled
    requires !Unowned(s.events[e]) && IsSimulating(s.stage)
    ensures ScheduleAt(s, e, t).outcome.Pass? && WellQueued(ScheduleAt(s, e, t).state)
  {
    ScheduleAtEffect(s, e, t);
    var r := ScheduleAt(s, e, t).state;
    assert multiset(r.queue) == multiset(s.queue) + multiset{e};
    assert multiset(s.queue)[e] == 0 by {
      assert e in s.queue <==> e in multiset(s.queue);
    }
    forall x ensures multiset(r.queue)[x] <= 1 {
      assert multiset(r.queue)[x] == multiset(s.queue)[x] + (if x == e then 1 else 0);
    }
  }

  /** Removing at most one entry for `e` from a queue without repetitions leaves one without
      repetitions that lacks `e` and keeps every other entry. */
  lemma RemovedOnce(q: seq<EventRef>, r: seq<EventRef>, e: EventRef, removed: multiset<EventRef>)
    requires Distinct(q) && multiset(r) == multiset(q) - removed && (removed == multiset{} || removed == multiset{e})
    requires removed == multiset{} ==> e !in q
    ensures Distinct(r) && e !in r
    ensures forall x :: x in r <==> x in q && x != e
  {
    forall x ensures multiset(r)[x] <= 1 {
      assert multiset(r)[x] <= multiset(q)[x];
    }
    forall x ensures x in r <==> x in q && x != e {
      assert x in r <==> x in multiset(r);
      assert x in q <==> x in multiset(q);
    }
  }

  /** Cancelling keeps the protocol, and afterwards the event is no longer queued. */
  lemma CancelKeepsWellQueued(s: SimState, e: EventRef)
    requires WellQueued(s) && e in s.events && IsSimulating(s.stage)
    ensures var r := EventCancelScheduling(s, e);
      r.outcome.Pass? && WellQueued(r.state) && e !in r.state.queue
  {
    CancelSchedulingEffect(s, e);
    var r := EventCancelScheduling(s, e).state;
    RemovedOnce(s.queue, r.queue, e, if s.events[e].scheduled then multiset{e} else multiset{});
  }

  /** The field setters of events, timers and particles keep the protocol: they leave the
      queue, the flag and every other event alone. */
  lemma RetouchKeepsWellQueued(s: SimState, t: SimState, e: EventRef)
    requires WellQueued(s) && Retouched(s, t, e)
    ensures WellQueued(t)
  {
    forall x | x in t.events
      ensures t.events[x].scheduled <==> x in t.queue
    {
      assert x in s.events;
      if x != e {
        assert t.events[x] == s.events[x];
      }
    }
  }

  /** setOwnerModuleId on a queued timer: the queue does not change, and the next dispatch of
      the timer runs with its new owner as the processed module and logs that owner. */
  lemma ReownRedirectsDispatch(s: SimState, e: EventRef, owner: ModuleId, r: Reaction)
    requires e in s.events && s.events[e].kind.Timer?
    ensures var t := TimerSetOwner(s, e, owner).state; var d := Dispatch(t, e, r);
      && t.queue == s.queue
      && (d.outcome.Pass? ==>
            && d.state.calls == s.calls + [HookCall(DispatchedHook(s.pattern, s.events[e]), owner, Some(e))]
            && (s.pattern.BasedOnModulesBehaviours? ==> VertexModule(s, owner).Ok?))
      && (d.outcome.Fail? ==> d.state.processed == owner)
  {
    var t := TimerSetOwner(s, e, owner).state;
    DispatchEffect(t, e, r);
    assert DispatchedHook(t.pattern, t.events[e]) == DispatchedHook(s.pattern, s.events[e]);
    assert VertexModule(t, owner) == VertexModule(s, owner);
  }

  /** delete: the event is gone in any case; the destructor throws exactly for an event still
      scheduled during a simulation. Deleting an unscheduled event keeps the protocol. */
  lemma DestroyEffect(s: SimState, e: EventRef)
    requires e in s.events
    ensures var r := EventDestroy(s, e);
      && r.state == s.(events := s.events - {e})
      && (r.outcome.Fail? <==> s.events[e].scheduled && IsSimulating(s.stage))
      && (WellQueued(s) && !s.events[e].scheduled ==> WellQueued(r.state))
  {
  }

  // ------------------------------------------------------------ assignment and copies

  /** operator= between distinct events of the same class: an unscheduled source copies only the
      name, kind and class fields; a scheduled one also schedules the target at its time, which
      an unowned target timer refuses after its name has been copied. */
  lemma AssignEffect(s: SimState, dst: EventRef, src: EventRef)
    requires dst in s.events && src in s.events && dst != src
    requires s.events[dst].kind.Timer? == s.events[src].kind.Timer?
    ensures var r := EventAssign(s, dst, src); var source := s.events[src]; var target := s.events[dst];
      && (!source.scheduled ==>
            r == Step(WithEvent(s, dst, target.(base := source.base, kind := source.kind)), Pass))
      && (source.scheduled && Unowned(target) ==>
            r == Step(WithEvent(s, dst, target.(base := source.base)), Fail(TimerWithoutOwner)))
      && (source.scheduled && !Unowned(target) && !IsSimulating(s.stage) ==> r.outcome == Fail(NotSimulating))
      && (source.scheduled && !Unowned(target) && IsSimulating(s.stage) ==>
            r == Step(WithEvent(s.(queue := s.queue + [dst]), dst,
              target.(base := source.base, occurrence := source.occurrence, scheduled := true, kind := source.kind)), Pass))
  {
    ScheduleAtEffect(WithEvent(s, dst, s.events[dst].(base := s.events[src].base)), dst, s.events[src].occurrence);
  }

  /** After a successful assignment the target compares equal to a scheduled source; from an
      unscheduled source it does so only if it was unscheduled at the same time already, since
      the occurrence time is copied only through scheduling. */
  lemma AssignMakesEqual(s: SimState, dst: EventRef, src: EventRef)
    requires dst in s.events && src in s.events && dst != src
    requires s.events[dst].kind.Timer? == s.events[src].kind.Timer?
    requires EventAssign(s, dst, src).outcome.Pass?
    ensures var r := EventAssign(s, dst, src).state; var source := s.events[src]; var target := s.events[dst];
      && r.events[dst].kind == source.kind
      && (source.scheduled ==> EventEquals(r.events[dst], source))
      && (!source.scheduled ==>
            (EventEquals(r.events[dst], source) <==> !target.scheduled && target.occurrence == source.occurrence))
  {
    AssignEffect(s, dst, src);
  }

  /** new ModuleTimer(*src): a new timer at the next handle, created by the processed module,
      with the source's name, owner and data; it is scheduled like the source. Its owner is the
      processed module when operator= schedules it, so copying a scheduled timer while no
      module is processed, or out of simulation, throws; the new timer is then gone again and
      the queue and every other event are as they were. */
  lemma TimerCopyEffect(s: SimState, src: EventRef)
    requires src in s.events && s.events[src].kind.Timer? && FreshHandles(s)
    ensures var r := TimerCopy(s, src); var source := s.events[src]; var e := s.nextEvent;
      && r.state.nextEvent == s.nextEvent + 1 && e !in s.events
      && (forall x :: x in s.events ==> x in r.state.events && r.state.events[x] == s.events[x])
      && (r.outcome.Fail? <==> source.scheduled && (s.processed == InvalidModuleId || !IsSimulating(s.stage)))
      && (r.outcome.Fail? ==> e !in r.state.events && r.state.queue == s.queue)
      && (r.outcome.Pass? ==>
            && e in r.state.events && r.state.events[e].base == source.base
            && r.state.events[e].creationModule == s.processed && r.state.events[e].creationTime == s.clock
            && r.state.events[e].kind == source.kind && r.state.events[e].scheduled == source.scheduled)
      && (r.outcome.Pass? && source.scheduled ==>
            r.state.events[e].occurrence == source.occurrence && r.state.queue == s.queue + [e])
  {
    var s1 := TimerCreate(s, s.events[src].base.name).state;
    AssignEffect(s1, s.nextEvent, src);
  }

  // ------------------------------------------------------------ hooks

  /** Each module keeps its handle and its identifier. */
  predicate SameModules(a: SimState, b: SimState)
  {
    a.modules.Keys == b.modules.Keys && forall m :: m in a.modules ==> b.modules[m].id == a.modules[m].id
  }

  /** What user code cannot change from inside a hook: the simulator's pattern, stage, clock,
      processed module and graph, the log of hook calls, and the modules' identities. */
  predicate Kept(a: SimState, b: SimState)
  {
    && b.pattern == a.pattern && b.stage == a.stage && b.clock == a.clock
    && b.processed == a.processed && b.graph == a.graph && b.calls == a.calls
    && SameModules(a, b)
  }

  lemma ApplyKeeps(s: SimState, c: Command)
    ensures Kept(s, Apply(s, c).state)
  {
  }

  /** An override's commands leave the simulator's own fields alone, whether they throw or not. */
  lemma {:induction false} ApplyAllKeeps(s: SimState, cmds: seq<Command>)
    ensures Kept(s, ApplyAll(s, cmds).state)
    decreases |cmds|
  {
    if |cmds| > 0 {
      ApplyKeeps(s, cmds[0]);
      var st := Apply(s, cmds[0]);
      if st.outcome.Pass? {
        ApplyAllKeeps(st.state, cmds[1..]);
      }
    }
  }

  /** A hook call is logged once, with the processed module; the base bodies change nothing else. */
  lemma RunHookEffect(s: SimState, hook: HookKind, event: Option<EventRef>, r: Reaction)
    ensures var logged := s.(calls := s.calls + [HookCall(hook, s.processed, event)]);
      && Kept(logged, RunHook(s, hook, event, r).state)
      && (r.Inherited? ==> RunHook(s, hook, event, r) == Step(logged, InheritedOutcome(hook)))
  {
    if r.Override? {
      ApplyAllKeeps(s.(calls := s.calls + [HookCall(hook, s.processed, event)]), r.commands);
    }
  }

  /** The hook an event is dispatched to, under each pattern. */
  function DispatchedHook(pattern: SimulationPattern, ev: Event): HookKind
  {
    if pattern.BasedOnModulesBehaviours? then
      (if ev.kind.Timer? then ModuleTimerTriggering else ModuleParticleArrival)
    else if ev.kind.Timer? then TimerTriggering
    else ParticleArrival
  }

  /** Dispatching an event: under the modules' pattern its module's handler runs, under the
      particles' pattern the event's own; the handler sees the event's module as the processed
      one, which is reset to none only when the handler returns normally. */
  lemma DispatchEffect(s: SimState, e: EventRef, r: Reaction)
    requires e in s.events
    ensures var d := Dispatch(s, e, r); var ev := s.events[e];
      && d.state.pattern == s.pattern && d.state.stage == s.stage && d.state.clock == s.clock
      && d.state.graph == s.graph && SameModules(s, d.state) && s.calls <= d.state.calls
      && (d.outcome.Pass? ==>
            && d.state.processed == InvalidModuleId
            && d.state.calls == s.calls + [HookCall(DispatchedHook(s.pattern, ev), Target(ev), Some(e))]
            && (s.pattern.BasedOnModulesBehaviours? ==> VertexModule(s, Target(ev)).Ok?))
      && (d.outcome.Fail? ==> d.state.processed == Target(ev))
  {
    var ev := s.events[e];
    var s1 := s.(processed := Target(ev));
    if s.pattern.BasedOnModulesBehaviours? {
      match VertexModule(s1, Target(ev)) {
        case Err(_) =>
        case Ok(m) =>
          if ev.kind.Timer? {
            RunHookEffect(s1, ModuleTimerTriggering, Some(e), r);
          } else {
            RunHookEffect(s1.(modules := s1.modules[m := Capture(s1.modules[m], e)]), ModuleParticleArrival, Some(e), r);
          }
      }
    } else if ev.kind.Timer? {
      RunHookEffect(s1, TimerTriggering, Some(e), r);
    } else {
      RunHookEffect(s1, ParticleArrival, Some(e), r);
    }
  }

  // ------------------------------------------------------------ the event loop

  /** The stop condition of makeSimulation: no event left, or a non-zero limit that the top of
      the queue lies beyond. */
  predicate Exhausted(s: SimState, max: SimulationTime)
  {
    || |s.queue| == 0
    || (Live(s.events, s.queue) && max.raw != 0 && s.events[s.queue[PopIndex(s.events, s.queue)]].occurrence.Gt(max))
  }

  /** One iteration: it stops normally exactly at the stop condition, and changes nothing then;
      a queue with a dangling entry throws; a popped event whose flag is clear throws with its
      entry gone; a popped event earlier than the clock throws once cancelScheduling has
      cleared its flag and removed a duplicate entry. When it goes on, the clock has jumped to
      the time of the top of the queue, which is not in the past, and no module is processed.
      The pattern, stage, graph and modules stay. */
  lemma MakeStepEffect(s: SimState, max: SimulationTime, trace: seq<Reaction>)
    ensures var t := MakeStep(s, max, trace);
      && (t.Halt? && t.run.outcome.Pass? <==> Exhausted(s, max))
      && (t.Halt? && t.run.outcome.Pass? ==> t.run.state == s && t.run.trace == trace)
      && (|s.queue| > 0 && !Live(s.events, s.queue) ==> t == Halt(Run(s, Fail(DanglingPointer), trace)))
      && (|s.queue| > 0 && Live(s.events, s.queue) && !Exhausted(s, max) ==>
            var i := PopIndex(s.events, s.queue); var e := s.queue[i]; var ev := s.events[e];
            && (!ev.scheduled ==>
                  t == Halt(Run(s.(queue := Remove(s.queue, i)), Fail(UnscheduledEventInQueue), trace)))
            && (ev.scheduled && IsSimulating(s.stage) && s.clock.Gt(ev.occurrence) ==>
                  && t.Halt? && t.run.outcome == Fail(EventInThePast) && t.run.trace == trace
                  && t.run.state == s.(events := s.events[e := ev.(scheduled := false)], queue := t.run.state.queue)
                  && multiset(t.run.state.queue) == multiset(s.queue) - multiset{e, e}))
      && (t.Continue? ==>
            && Live(s.events, s.queue) && |s.queue| > 0 && t.trace == Tail(trace)
            && t.state.clock == s.events[s.queue[PopIndex(s.events, s.queue)]].occurrence
            && t.state.processed == InvalidModuleId)
      && var st := if t.Halt? then t.run.state else t.state;
         && s.clock.Le(st.clock) && st.pattern == s.pattern && st.stage == s.stage && st.graph == s.graph
         && SameModules(s, st) && s.calls <= st.calls
  {
    if |s.queue| > 0 && Live(s.events, s.queue) {
      var i := PopIndex(s.events, s.queue);
      var e := s.queue[i];
      var ev := s.events[e];
      var s1 := s.(queue := Remove(s.queue, i));
      if !(max.raw != 0 && ev.occurrence.Gt(max)) && ev.scheduled {
        CancelSchedulingEffect(s1, e);
        var c := EventCancelScheduling(s1, e);
        if c.outcome.Pass? && !s.clock.Gt(ev.occurrence) {
          DispatchEffect(c.state.(clock := ev.occurrence), e, Head(trace));
        }
        if c.outcome.Pass? {
          PopThenRemove(s.queue, i, c.state.queue);
        }
      }
    }
  }

  /** One iteration from a queue that keeps the protocol, while simulating: the two sanity
      checks of the loop cannot throw. The popped event leaves the queue with its flag clear,
      the state then keeps the protocol, and it is this state, at the event's time, that is
      handed to the dispatch, unless the event lies before the clock. When the hook runs its
      base body, the next iteration starts from a state that keeps the protocol again. */
  lemma MakeStepKeepsWellQueued(s: SimState, max: SimulationTime, trace: seq<Reaction>)
    requires WellQueued(s) && IsSimulating(s.stage) && !Exhausted(s, max)
    ensures |s.queue| > 0
    ensures var i := PopIndex(s.events, s.queue); var e := s.queue[i]; var ev := s.events[e];
      var c := EventCancelScheduling(s.(queue := Remove(s.queue, i)), e);
      && ev.scheduled && c.outcome.Pass? && WellQueued(c.state)
      && e in c.state.events && !c.state.events[e].scheduled && e !in c.state.queue
      && c.state == s.(events := s.events[e := ev.(scheduled := false)], queue := c.state.queue)
      && multiset(c.state.queue) == multiset(s.queue) - multiset{e}
      && (s.clock.Gt(ev.occurrence) ==> MakeStep(s, max, trace) == Halt(Run(c.state, Fail(EventInThePast), trace)))
      && (!s.clock.Gt(ev.occurrence) ==>
            var d := Dispatch(c.state.(clock := ev.occurrence), e, Head(trace));
            MakeStep(s, max, trace) == if d.outcome.Fail? then Halt(Run(d.state, d.outcome, Tail(trace))) else Continue(d.state, Tail(trace)))
      && (Head(trace) == Inherited && MakeStep(s, max, trace).Continue? ==> WellQueued(MakeStep(s, max, trace).state))
  {
    var i := PopIndex(s.events, s.queue);
    var e := s.queue[i];
    PopKeepsWellQueued(s, i);
    var c := EventCancelScheduling(s.(queue := Remove(s.queue, i)), e);
    var ev := s.events[e];
    if !s.clock.Gt(ev.occurrence) {
      var d := Dispatch(c.state.(clock := ev.occurrence), e, Head(trace));
      if Head(trace) == Inherited && d.outcome.Pass? {
        assert d.state.queue == c.state.queue && d.state.events == c.state.events;
      }
    }
  }

  /** Popping an entry of a queue that keeps the protocol, then cancelling the popped event,
      keeps the protocol: the event's only entry is gone and its flag is clear. */
  lemma PopKeepsWellQueued(s: SimState, i: nat)
    requires WellQueued(s) && IsSimulating(s.stage) && i < |s.queue|
    ensures var e := s.queue[i]; var ev := s.events[e];
      var c := EventCancelScheduling(s.(queue := Remove(s.queue, i)), e);
      && ev.scheduled && c.outcome.Pass? && WellQueued(c.state)
      && e in c.state.events && !c.state.events[e].scheduled && e !in c.state.queue
      && c.state == s.(events := s.events[e := ev.(scheduled := false)], queue := c.state.queue)
      && multiset(c.state.queue) == multiset(s.queue) - multiset{e}
  {
    var e := s.queue[i];
    assert e in s.queue;
    var s1 := s.(queue := Remove(s.queue, i));
    RemoveDistinct(s.queue, i);
    LiveByMultiset(s.events, s1.queue, s.queue);
    CancelSchedulingEffect(s1, e);
    var c := EventCancelScheduling(s1, e);
    RemovedOnce(s1.queue, c.state.queue, e, multiset{e});
    assert multiset(s1.queue) == multiset(s.queue) - multiset{e};
    forall x | x in c.state.events ensures c.state.events[x].scheduled <==> x in c.state.queue {
      assert x in s1.queue <==> x in s.queue && x != e;
    }
  }

  /** Taking one entry for `e` out of a queue at a position where it occurs, then at most one more. */
  lemma PopThenRemove(q: seq<EventRef>, i: nat, r: seq<EventRef>)
    requires i < |q| && multiset(r) == multiset(Remove(q, i)) - multiset{q[i]}
    ensures multiset(r) == multiset(q) - multiset{q[i], q[i]}
  {
    var e := q[i];
    assert multiset(Remove(q, i)) == multiset(q) - multiset{e};
    MinusTwice(multiset(q), e);
  }

  lemma MinusTwice(m: multiset<EventRef>, e: EventRef)
    ensures (m - multiset{e}) - multiset{e} == m - multiset{e, e}
  {
    forall x ensures ((m - multiset{e}) - multiset{e})[x] == (m - multiset{e, e})[x] {
      if x == e {
        assert (m - multiset{e, e})[x] == if m[x] >= 2 then m[x] - 2 else 0;
      }
    }
  }

  /** A pop dispatched to a base body removes the popped event from the queue twice over: the
      pop takes one entry, cancelScheduling another one if there is one. The event ends
      unscheduled and no other event changes. */
  lemma MakeStepInherited(s: SimState, max: SimulationTime, trace: seq<Reaction>)
    requires Head(trace) == Inherited && MakeStep(s, max, trace).Continue?
    ensures Live(s.events, s.queue) && |s.queue| > 0
    ensures var e := s.queue[PopIndex(s.events, s.queue)]; var t := MakeStep(s, max, trace);
      && multiset(t.state.queue) == multiset(s.queue) - multiset{e, e}
      && t.state.events == s.events[e := s.events[e].(scheduled := false)]
  {
    var i := PopIndex(s.events, s.queue);
    var e := s.queue[i];
    var ev := s.events[e];
    var s1 := s.(queue := Remove(s.queue, i));
    var c := EventCancelScheduling(s1, e);
    var d := Dispatch(c.state.(clock := ev.occurrence), e, Inherited);
    assert MakeStep(s, max, trace) == Continue(d.state, Tail(trace));
    CancelSchedulingEffect(s1, e);
    assert c.state.events == s.events[e := ev.(scheduled := false)];
    PopThenRemove(s.queue, i, c.state.queue);
  }

  /** makeSimulation: the clock never goes back, the pattern, stage, graph and modules stay,
      calls are only appended, and a normal end is at the stop condition. */
  lemma {:induction false} MakeEffect(s: SimState, max: SimulationTime, trace: seq<Reaction>)
    ensures var r := Make(s, max, trace);
      && s.clock.Le(r.state.clock) && r.state.pattern == s.pattern && r.state.stage == s.stage
      && r.state.graph == s.graph && SameModules(s, r.state) && s.calls <= r.state.calls
      && (r.outcome.Pass? ==> Exhausted(r.state, max))
    decreases |trace|, |s.queue|
  {
    MakeStepEffect(s, max, trace);
    match MakeStep(s, max, trace) {
      case Halt(_) =>
      case Continue(s1, rest) =>
        MakeEffect(s1, max, rest);
    }
  }

  // ------------------------------------------------------------ preparation and post-processing

  /** The identifier of a vertex's module: the processed module while its stage hook runs. */
  function VertexModuleId(s: SimState, id: VertexId): ModuleId
  {
    match VertexModule(s, id)
    case Ok(m) => s.modules[m].id
    case Err(_) => InvalidModuleId
  }

  /** The calls a visit of the vertices `ids` logs, one per vertex and in that order. */
  function VisitCalls(s: SimState, ids: seq<VertexId>, hook: HookKind): (c: seq<HookCall>)
    ensures |c| == |ids|
    ensures forall k :: 0 <= k < |ids| ==> c[k] == HookCall(hook, VertexModuleId(s, ids[k]), None)
    decreases |ids|
  {
    if |ids| == 0 then [] else [HookCall(hook, VertexModuleId(s, ids[0]), None)] + VisitCalls(s, ids[1..], hook)
  }

  /** Vertex lookups depend only on the graph and the modules' handles. */
  lemma VertexModuleFrame(a: SimState, b: SimState, id: VertexId)
    requires a.graph == b.graph && SameModules(a, b)
    ensures VertexModule(a, id) == VertexModule(b, id) && VertexModuleId(a, id) == VertexModuleId(b, id)
  {
  }

  lemma VisitCallsFrame(a: SimState, b: SimState, ids: seq<VertexId>, hook: HookKind)
    requires a.graph == b.graph && SameModules(a, b)
    ensures VisitCalls(a, ids, hook) == VisitCalls(b, ids, hook)
  {
    forall k | 0 <= k < |ids| ensures VisitCalls(a, ids, hook)[k] == VisitCalls(b, ids, hook)[k] {
      VertexModuleFrame(a, b, ids[k]);
    }
  }

  /** What the stage hooks and the event loop leave alone: the graph, stage, pattern and the
      modules' identities; the log only grows. */
  predicate Steady(a: SimState, b: SimState)
  {
    b.graph == a.graph && b.stage == a.stage && b.pattern == a.pattern && SameModules(a, b) && a.calls <= b.calls
  }

  /** sim_getReady and sim_terminate: refused out of their stage; a normal return logs one call. */
  lemma StageHandlerEffect(s: SimState, hook: HookKind, r: Reaction)
    requires hook == GetReady || hook == Terminate
    ensures var st := StageHandler(s, hook, r);
      && (hook == GetReady && s.stage != InitializationStage ==> st == Step(s, Fail(StageMismatch)))
      && (hook == Terminate && s.stage != PostProcessingStage ==> st == Step(s, Fail(StageMismatch)))
      && Steady(s, st.state) && st.state.clock == s.clock
      && (st.outcome.Pass? ==> st.state.calls == s.calls + [HookCall(hook, s.processed, None)])
  {
    RunHookEffect(s, hook, None, r);
  }

  lemma {:induction false} VisitModulesFrame(s: SimState, ids: seq<VertexId>, hook: HookKind, trace: seq<Reaction>)
    requires hook == GetReady || hook == Terminate
    ensures Steady(s, VisitModules(s, ids, hook, trace).state)
    ensures VisitModules(s, ids, hook, trace).state.clock == s.clock
    decreases |ids|
  {
    if |ids| > 0 && VertexModule(s, ids[0]).Ok? {
      var m := VertexModule(s, ids[0]).value;
      var s1 := s.(processed := s.modules[m].id);
      StageHandlerEffect(s1, hook, Head(trace));
      var st := StageHandler(s1, hook, Head(trace));
      if st.outcome.Pass? {
        VisitModulesFrame(st.state, ids[1..], hook, Tail(trace));
      }
    }
  }

  /** Every vertex of `ids` carries a live module. */
  predicate AllLive(s: SimState, ids: seq<VertexId>)
  {
    forall k :: 0 <= k < |ids| ==> VertexModule(s, ids[k]).Ok?
  }

  lemma VisitCallsStep(s: SimState, ids: seq<VertexId>, hook: HookKind)
    requires |ids| > 0
    ensures VisitCalls(s, ids, hook) == [HookCall(hook, VertexModuleId(s, ids[0]), None)] + VisitCalls(s, ids[1..], hook)
  {
  }

  lemma AllLiveStep(s: SimState, t: SimState, ids: seq<VertexId>)
    requires |ids| > 0 && VertexModule(s, ids[0]).Ok? && AllLive(t, ids[1..])
    requires t.graph == s.graph && SameModules(s, t)
    ensures AllLive(s, ids)
  {
    forall k | 1 <= k < |ids| ensures VertexModule(s, ids[k]).Ok? {
      assert ids[1..][k - 1] == ids[k];
      VertexModuleFrame(s, t, ids[k]);
    }
  }

  /** The visit of the vertices `ids`: a normal end has called the stage hook once per vertex,
      in the order of `ids`, each with that vertex's module as the processed one; every vertex
      then carried a live module. */
  lemma {:induction false} VisitModulesEffect(s: SimState, ids: seq<VertexId>, hook: HookKind, trace: seq<Reaction>)
    requires hook == GetReady || hook == Terminate
    ensures var r := VisitModules(s, ids, hook, trace);
      r.outcome.Pass? ==> r.state.calls == s.calls + VisitCalls(s, ids, hook) && AllLive(s, ids)
    decreases |ids|
  {
    if |ids| > 0 && VertexModule(s, ids[0]).Ok? {
      var m := VertexModule(s, ids[0]).value;
      var s1 := s.(processed := s.modules[m].id);
      StageHandlerEffect(s1, hook, Head(trace));
      var st := StageHandler(s1, hook, Head(trace));
      if st.outcome.Pass? {
        var rest := ids[1..];
        var r := VisitModules(st.state, rest, hook, Tail(trace));
        assert VisitModules(s, ids, hook, trace) == r;
        VisitModulesEffect(st.state, rest, hook, Tail(trace));
        if r.outcome.Pass? {
          VisitPassStep(s, st.state, ids, hook, r.state.calls);
        }
      }
    }
  }

  /** One visited vertex followed by a visit of the rest that logged `calls`. */
  lemma VisitPassStep(s: SimState, t: SimState, ids: seq<VertexId>, hook: HookKind, calls: seq<HookCall>)
    requires |ids| > 0 && VertexModule(s, ids[0]).Ok?
    requires t.graph == s.graph && SameModules(s, t)
    requires t.calls == s.calls + [HookCall(hook, VertexModuleId(s, ids[0]), None)]
    requires calls == t.calls + VisitCalls(t, ids[1..], hook) && AllLive(t, ids[1..])
    ensures calls == s.calls + VisitCalls(s, ids, hook) && AllLive(s, ids)
  {
    var rest := VisitCalls(s, ids[1..], hook);
    VisitCallsFrame(s, t, ids[1..], hook);
    VisitCallsStep(s, ids, hook);
    AppendAssoc(s.calls, [HookCall(hook, VertexModuleId(s, ids[0]), None)], rest);
    AllLiveStep(s, t, ids);
  }

  lemma AppendAssoc<T>(a: seq<T>, b: seq<T>, c: seq<T>)
    ensures (a + b) + c == a + (b + c)
  {
  }

  /** prepareSimulation: no graph and the wrong stage throw with nothing changed but the
      processed module; a normal end has called sim_getReady on every vertex's module, in
      increasing vertex order. */
  lemma PrepareEffect(s: SimState, trace: seq<Reaction>)
    ensures var r := Prepare(s, trace);
      && (s.graph.None? ==> r == Run(s.(processed := InvalidModuleId), Fail(NoGraph), trace))
      && (s.graph.Some? && s.stage != InitializationStage ==>
            r == Run(s.(processed := InvalidModuleId), Fail(WrongStage), trace))
      && Steady(s, r.state) && r.state.clock == s.clock
      && (r.outcome.Pass? ==>
            s.graph.Some? && r.state.calls == s.calls + VisitCalls(s, Ascending(s.graph.value.Keys), GetReady))
  {
    var s1 := s.(processed := InvalidModuleId);
    if s.graph.Some? && s.stage == InitializationStage {
      VisitModulesFrame(s1, Ascending(s.graph.value.Keys), GetReady, trace);
      VisitModulesEffect(s1, Ascending(s.graph.value.Keys), GetReady, trace);
      VisitCallsFrame(s, s1, Ascending(s.graph.value.Keys), GetReady);
    }
  }

  /** postProcessSimulation: the same with sim_terminate; the processed module is not reset. */
  lemma PostProcessEffect(s: SimState, trace: seq<Reaction>)
    ensures var r := PostProcess(s, trace);
      && (s.graph.None? ==> r == Run(s, Fail(NoGraph), trace))
      && (s.graph.Some? && s.stage != PostProcessingStage ==> r == Run(s, Fail(WrongStage), trace))
      && Steady(s, r.state) && r.state.clock == s.clock
      && (r.outcome.Pass? ==>
            s.graph.Some? && r.state.calls == s.calls + VisitCalls(s, Ascending(s.graph.value.Keys), Terminate))
  {
    if s.graph.Some? && s.stage == PostProcessingStage {
      VisitModulesFrame(s, Ascending(s.graph.value.Keys), Terminate, trace);
      VisitModulesEffect(s, Ascending(s.graph.value.Keys), Terminate, trace);
    }
  }

  // ------------------------------------------------------------ whole runs

  /** One run of simulate's loop: a normal end is out of simulation with no processed module; it
      logged sim_getReady for every module in vertex order first and sim_terminate for every
      module in vertex order last, with the events' hooks in between. */
  lemma OneRunEffect(s: SimState, max: SimulationTime, trace: seq<Reaction>)
    ensures var r := OneRun(s, max, trace);
      && r.state.graph == s.graph && r.state.pattern == s.pattern && SameModules(s, r.state)
      && (r.outcome.Pass? ==>
            && s.graph.Some? && r.state.stage == OutOfSimulationStage && r.state.processed == InvalidModuleId
            && var ids := Ascending(s.graph.value.Keys);
               exists mid :: r.state.calls == s.calls + VisitCalls(s, ids, GetReady) + mid + VisitCalls(s, ids, Terminate))
  {
    var s0 := s.(clock := Zero, processed := InvalidModuleId, stage := InitializationStage);
    PrepareEffect(s0, trace);
    var p := Prepare(s0, trace);
    if p.outcome.Pass? {
      var s2 := p.state.(processed := InvalidModuleId, stage := EventsSimulationStage);
      MakeEffect(s2, max, p.trace);
      var m := Make(s2, max, p.trace);
      if m.outcome.Pass? {
        var s3 := m.state.(processed := InvalidModuleId, stage := PostProcessingStage);
        PostProcessEffect(s3, m.trace);
        var q := PostProcess(s3, m.trace);
        if q.outcome.Pass? {
          assert OneRun(s, max, trace) == Run(q.state.(processed := InvalidModuleId, stage := OutOfSimulationStage), Pass, q.trace);
          var ids := Ascending(s.graph.value.Keys);
          VisitCallsFrame(s, s0, ids, GetReady);
          VisitCallsFrame(s, s3, ids, Terminate);
          ThreeStages(s.calls, VisitCalls(s, ids, GetReady), p.state.calls, m.state.calls, VisitCalls(s, ids, Terminate), q.state.calls);
        }
      }
    }
  }

  /** Each run sets the clock back to 0 before it prepares, so what a run does does not depend
      on the time the previous run ended at. */
  lemma OneRunResetsClock(s: SimState, c: SimulationTime, max: SimulationTime, trace: seq<Reaction>)
    ensures OneRun(s.(clock := c), max, trace) == OneRun(s, max, trace)
  {
  }

  /** The log of a whole run: the preparation's calls, then the event loop's, then the post-processing's. */
  lemma ThreeStages(c0: seq<HookCall>, ready: seq<HookCall>, c1: seq<HookCall>, c2: seq<HookCall>, done: seq<HookCall>, c3: seq<HookCall>)
    requires c1 == c0 + ready && c1 <= c2 && c3 == c2 + done
    ensures exists mid :: c3 == c0 + ready + mid + done
  {
    var mid := c2[|c1|..];
    assert c2 == c1 + mid;
  }

  lemma {:induction false} RunsEffect(s: SimState, max: SimulationTime, n: nat, trace: seq<Reaction>)
    ensures var r := Runs(s, max, n, trace);
      && r.state.graph == s.graph && r.state.pattern == s.pattern && SameModules(s, r.state)
      && (n == 0 ==> r == Run(s, Pass, trace))
      && (n > 0 && r.outcome.Pass? ==> r.state.stage == OutOfSimulationStage && r.state.processed == InvalidModuleId)
    decreases n
  {
    if n > 0 {
      OneRunEffect(s, max, trace);
      var r := OneRun(s, max, trace);
      if r.outcome.Pass? {
        RunsEffect(r.state, max, n - 1, r.trace);
      }
    }
  }

  /** simulate: without a graph it throws and changes nothing; a normal end, even after no run,
      is out of simulation with no processed module and the same graph. */
  lemma SimulateEffect(s: SimState, max: SimulationTime, n: nat, trace: seq<Reaction>)
    ensures var r := Simulate(s, max, n, trace);
      && (s.graph.None? ==> r == Run(s, Fail(NoGraph), trace))
      && r.state.graph == s.graph && r.state.pattern == s.pattern
      && (r.outcome.Pass? ==> r.state.stage == OutOfSimulationStage && r.state.processed == InvalidModuleId)
  {
    if s.graph.Some? {
      RunsEffect(s.(processed := InvalidModuleId, stage := OutOfSimulationStage), max, n, trace);
    }
  }

  // ------------------------------------------------------------ set-up and tear-down

  /** cleanupSimulator: refused while simulating; otherwise it succeeds exactly when the queue is
      readable and holds each event once, and then deletes exactly the queued events, empties
      the queue, drops the graph and resets the clock. */
  lemma CleanupEffect(s: SimState)
    ensures var r := Cleanup(s);
      && (IsSimulating(s.stage) ==> r == Step(s, Fail(CleanupWhileSimulating)))
      && (!IsSimulating(s.stage) ==> (r.outcome.Pass? <==> Live(s.events, s.queue) && Distinct(s.queue)))
      && (r.outcome.Pass? ==>
            r.state == s.(events := s.events - (set x | x in s.queue), queue := [], graph := None, clock := Zero))
      && r.state.stage == s.stage && r.state.modules == s.modules && r.state.pattern == s.pattern
  {
    if !IsSimulating(s.stage) {
      DrainQueueEffect(s.events, s.queue);
    }
  }

  /** Distinct vertices carry distinct modules. */
  ghost predicate Injective(g: SimulationGraph)
  {
    forall i, j :: i in g && j in g && g[i].vertexRef == g[j].vertexRef ==> i == j
  }

  /** A module whose neighbours are the ascending predecessors and successors of its vertex. */
  ghost predicate Neighboured(m: Module, v: VertexData<ModuleRef, int>)
  {
    m.sources == Ascending(v.predecessors) && m.destinations == Ascending(v.successors.Keys)
  }

  /** Some vertex of `ids` carries module `m`. */
  ghost predicate Touched(g: SimulationGraph, ids: seq<VertexId>, m: ModuleRef)
  {
    exists k :: 0 <= k < |ids| && ids[k] in g && g[ids[k]].vertexRef == m
  }

  lemma TouchedTail(g: SimulationGraph, ids: seq<VertexId>, m: ModuleRef)
    requires |ids| > 0 && Touched(g, ids[1..], m)
    ensures Touched(g, ids, m)
    ensures exists k :: 1 <= k < |ids| && ids[k] in g && g[ids[k]].vertexRef == m
  {
    var j :| 0 <= j < |ids[1..]| && ids[1..][j] in g && g[ids[1..][j]].vertexRef == m;
    assert ids[j + 1] == ids[1..][j];
  }

  /** The loop of initiateSimulator: it succeeds exactly when every vertex of `ids` carries a
      live module; each such module then has its vertex's neighbours, and the other modules
      are left as they were. Only modules change. */
  lemma {:induction false} SetAllNeighboursEffect(s: SimState, g: SimulationGraph, erased: set<VertexId>, ids: seq<VertexId>)
    requires Injective(g)
    ensures var r := SetAllNeighbours(s, g, erased, ids);
      && r.state == s.(modules := r.state.modules) && r.state.modules.Keys == s.modules.Keys
      && (r.outcome.Pass? <==> forall k :: 0 <= k < |ids| ==> ids[k] in g && ids[k] !in erased && g[ids[k]].vertexRef in s.modules)
      && (r.outcome.Pass? ==> forall k :: 0 <= k < |ids| ==> Neighboured(r.state.modules[g[ids[k]].vertexRef], g[ids[k]]))
      && (r.outcome.Pass? ==> forall x :: x in s.modules && !Touched(g, ids, x) ==> r.state.modules[x] == s.modules[x])
    decreases |ids|
  {
    if |ids| > 0 && ids[0] in g && ids[0] !in erased && g[ids[0]].vertexRef in s.modules {
      var v := g[ids[0]];
      var m := s.modules[v.vertexRef].(sources := Ascending(v.predecessors), destinations := Ascending(v.successors.Keys));
      var s1 := s.(modules := s.modules[v.vertexRef := m]);
      var rest := ids[1..];
      SetAllNeighboursEffect(s1, g, erased, rest);
      var r := SetAllNeighbours(s1, g, erased, rest);
      assert SetAllNeighbours(s, g, erased, ids) == r;
      assert forall k :: 1 <= k < |ids| ==> rest[k - 1] == ids[k];
      if r.outcome.Pass? {
        forall k | 0 <= k < |ids| ensures Neighboured(r.state.modules[g[ids[k]].vertexRef], g[ids[k]]) {
          if k == 0 && Touched(g, rest, v.vertexRef) {
            TouchedTail(g, ids, v.vertexRef);
            var j :| 1 <= j < |ids| && ids[j] in g && g[ids[j]].vertexRef == v.vertexRef;
            assert ids[j] == ids[0];
          }
        }
        forall x | x in s.modules && !Touched(g, ids, x) ensures r.state.modules[x] == s.modules[x] {
          if Touched(g, rest, x) {
            TouchedTail(g, ids, x);
          }
        }
      }
    }
  }

  /** initiateSimulator: refused while simulating; a normal end has cleaned up and taken the
      graph, out of simulation at time 0. */
  lemma InitiateEffect(s: SimState, g: Option<SimulationGraph>, erased: set<VertexId>)
    ensures var r := Initiate(s, g, erased);
      && (IsSimulating(s.stage) ==> r == Step(s, Fail(CleanupWhileSimulating)))
      && (r.outcome.Pass? ==>
            && Cleanup(s).outcome.Pass?
            && r.state.stage == OutOfSimulationStage && r.state.clock == Zero && r.state.queue == []
            && r.state.graph == g && r.state.pattern == s.pattern
            && r.state.events == s.events - (set x | x in s.queue))
  {
    CleanupEffect(s);
    var c := Cleanup(s);
    if c.outcome.Pass? && g.Some? {
      var ids := Ascending(g.value.Keys);
      var n := SetAllNeighbours(c.state.(graph := g), g.value, erased, ids);
      SetAllNeighboursFrame(c.state.(graph := g), g.value, erased, ids);
      assert Initiate(s, g, erased) == if n.outcome.Fail? then n else Step(n.state.(stage := OutOfSimulationStage, clock := Zero), Pass);
    }
  }

  /** The neighbour loop changes only modules. */
  lemma {:induction false} SetAllNeighboursFrame(s: SimState, g: SimulationGraph, erased: set<VertexId>, ids: seq<VertexId>)
    ensures SetAllNeighbours(s, g, erased, ids).state == s.(modules := SetAllNeighbours(s, g, erased, ids).state.modules)
    decreases |ids|
  {
    if |ids| > 0 && ids[0] in g && ids[0] !in erased && g[ids[0]].vertexRef in s.modules {
      var v := g[ids[0]];
      var m := s.modules[v.vertexRef].(sources := Ascending(v.predecessors), destinations := Ascending(v.successors.Keys));
      SetAllNeighboursFrame(s.(modules := s.modules[v.vertexRef := m]), g, erased, ids[1..]);
    }
  }

  /** The ascending enumeration of the vertices lists exactly the vertices. */
  lemma KeysIndexed(g: SimulationGraph, ids: seq<VertexId>)
    requires ids == Ascending(g.Keys)
    ensures forall k :: 0 <= k < |ids| ==> ids[k] in g
    ensures forall id :: id in g ==> exists k :: 0 <= k < |ids| && ids[k] == id
  {
    AscendingMembers(g.Keys);
    forall id | id in g
      ensures exists k :: 0 <= k < |ids| && ids[k] == id
    {
      assert id in ids;
    }
  }

  /** The loop of initiateSimulator over all the vertices in ascending order. */
  lemma NeighboursOverKeys(s: SimState, g: SimulationGraph, erased: set<VertexId>)
    requires Injective(g)
    ensures var r := SetAllNeighbours(s, g, erased, Ascending(g.Keys));
      && (r.outcome.Pass? <==> forall id :: id in g ==> id !in erased && g[id].vertexRef in s.modules)
      && (r.outcome.Pass? ==> forall id :: id in g ==>
            g[id].vertexRef in r.state.modules && Neighboured(r.state.modules[g[id].vertexRef], g[id]))
  {
    var ids := Ascending(g.Keys);
    KeysIndexed(g, ids);
    SetAllNeighboursEffect(s, g, erased, ids);
  }

  /** initiateSimulator with a graph whose vertices carry distinct modules: it ends normally
      exactly when cleaning up does and every vertex carries a live module, and every vertex's
      module then has the ascending predecessors and successors of the vertex as its sources
      and destinations. */
  lemma InitiateNeighbours(s: SimState, g: SimulationGraph, erased: set<VertexId>)
    requires Injective(g)
    ensures var r := Initiate(s, Some(g), erased);
      && (r.outcome.Pass? <==> Cleanup(s).outcome.Pass? && forall id :: id in g ==> id !in erased && g[id].vertexRef in s.modules)
      && (r.outcome.Pass? ==> forall id :: id in g ==>
            g[id].vertexRef in r.state.modules && Neighboured(r.state.modules[g[id].vertexRef], g[id]))
  {
    CleanupEffect(s);
    var c := Cleanup(s);
    if c.outcome.Pass? {
      var s1 := c.state.(graph := Some(g));
      NeighboursOverKeys(s1, g, erased);
      var n := SetAllNeighbours(s1, g, erased, Ascending(g.Keys));
      assert Initiate(s, Some(g), erased) == if n.outcome.Fail? then n else Step(n.state.(stage := OutOfSimulationStage, clock := Zero), Pass);
    }
  }
}
