// The simulator's queue of future events: a priority queue of event handles
// ordered by SimulationEventCmp, and the two loops over it in the kernel (the
// scan-and-rebuild of cancelFutureEvent and the emptying of cleanupSimulator).
// The queue is a sequence in push order; its top is the first entry with the
// smallest current occurrence time.
module EventQueue {
  import opened Common
  import opened SimTime
  import opened Events

  type Arena = map<EventRef, Event>

  /** Every queued handle designates a live event: the queue reads each entry's time. */
  predicate Live(events: Arena, q: seq<EventRef>)
  {
    forall k :: 0 <= k < |q| ==> q[k] in events
  }

  /** Each handle occurs at most once in the queue. */
  ghost predicate Distinct(q: seq<EventRef>)
  {
    forall x :: multiset(q)[x] <= 1
  }

  /** SimulationEventCmp(pr1, pr2): pr1 occurs later than pr2, so pr2 is nearer the top. */
  predicate Later(a: Event, b: Event)
    ensures Later(a, b) <==> b.occurrence.Lt(a.occurrence)
  {
    a.occurrence.Gt(b.occurrence)
  }

  /** The position of the top of the queue: no entry occurs before it, and every entry pushed
      before it occurs strictly later. */
  function PopIndex(events: Arena, q: seq<EventRef>): (i: nat)
    requires |q| > 0 && Live(events, q)
    ensures i < |q|
    ensures forall k :: 0 <= k < |q| ==> !Later(events[q[i]], events[q[k]])
    ensures forall k :: 0 <= k < i ==> Later(events[q[k]], events[q[i]])
    decreases |q|
  {
    if |q| == 1 then 0
    else
      var front := q[..|q| - 1];
      assert forall k :: 0 <= k < |front| ==> front[k] == q[k];
      var j := PopIndex(events, front);
      if Later(events[q[j]], events[q[|q| - 1]]) then |q| - 1 else j
  }

  /** pop: the entry at position i leaves the queue; the others keep their order. */
  function Remove(q: seq<EventRef>, i: nat): (r: seq<EventRef>)
    requires i < |q|
    ensures |r| == |q| - 1
    ensures multiset(r) + multiset{q[i]} == multiset(q)
    ensures forall k :: 0 <= k < i ==> r[k] == q[k]
    ensures forall k :: i <= k < |r| ==> r[k] == q[k + 1]
  {
    assert q == q[..i] + [q[i]] + q[i + 1..];
    q[..i] + q[i + 1..]
  }

  /** Entries taken from a live queue are live. */
  lemma LiveByMultiset(events: Arena, r: seq<EventRef>, q: seq<EventRef>)
    requires Live(events, q) && multiset(r) <= multiset(q)
    ensures Live(events, r)
  {
    forall k | 0 <= k < |r|
      ensures r[k] in events
    {
      assert r[k] in multiset(r);
      assert r[k] in multiset(q);
    }
  }

  /** The state of the first loop of cancelFutureEvent when it stops. */
  datatype Scan = Scan(rest: seq<EventRef>, popped: seq<EventRef>, found: bool)

  /** The first loop of cancelFutureEvent: pop entries into the temporary queue until the
      event itself comes out (it is not kept) or the queue is empty. */
  function CancelScan(events: Arena, q: seq<EventRef>, popped: seq<EventRef>, e: EventRef): (r: Scan)
    requires Live(events, q) && Live(events, popped)
    ensures Live(events, r.rest) && Live(events, r.popped)
    ensures |r.rest| + |r.popped| + (if r.found then 1 else 0) == |q| + |popped|
    decreases |q|
  {
    if |q| == 0 then Scan(q, popped, false)
    else
      var i := PopIndex(events, q);
      var rest := Remove(q, i);
      assert Live(events, rest);
      if q[i] == e then Scan(rest, popped, true)
      else CancelScan(events, rest, popped + [q[i]], e)
  }

  /** The scan finds the event exactly when it is queued, and loses nothing but that one entry. */
  lemma {:induction false} CancelScanEffect(events: Arena, q: seq<EventRef>, popped: seq<EventRef>, e: EventRef)
    requires Live(events, q) && Live(events, popped)
    ensures CancelScan(events, q, popped, e).found <==> e in q
    ensures var r := CancelScan(events, q, popped, e);
      multiset(r.rest) + multiset(r.popped) + (if r.found then multiset{e} else multiset{}) == multiset(q) + multiset(popped)
    decreases |q|
  {
    if |q| > 0 {
      var i := PopIndex(events, q);
      var rest := Remove(q, i);
      if q[i] != e {
        assert Live(events, rest) && Live(events, popped + [q[i]]);
        CancelScanEffect(events, rest, popped + [q[i]], e);
        PopOther(q, i, e);
      } else {
        assert q[i] in multiset(q);
      }
    }
  }

  /** Popping an entry other than `e` keeps `e` queued exactly as before. */
  lemma PopOther(q: seq<EventRef>, i: nat, e: EventRef)
    requires i < |q| && q[i] != e
    ensures e in q <==> e in Remove(q, i)
  {
    assert e in q <==> e in multiset(q);
    assert e in Remove(q, i) <==> e in multiset(Remove(q, i));
  }

  /** The second loop of cancelFutureEvent: move the temporary queue back, top first. */
  function Refill(events: Arena, q: seq<EventRef>, tmp: seq<EventRef>): (r: seq<EventRef>)
    requires Live(events, tmp)
    ensures |r| == |q| + |tmp| && r[..|q|] == q
    decreases |tmp|
  {
    if |tmp| == 0 then q
    else
      var i := PopIndex(events, tmp);
      LiveByMultiset(events, Remove(tmp, i), tmp);
      var r := Refill(events, q + [tmp[i]], Remove(tmp, i));
      assert r[..|q|] == r[..|q| + 1][..|q|] == (q + [tmp[i]])[..|q|];
      r
  }

  /** Refilling pushes every temporary entry back. */
  lemma {:induction false} RefillEffect(events: Arena, q: seq<EventRef>, tmp: seq<EventRef>)
    requires Live(events, tmp)
    ensures multiset(Refill(events, q, tmp)) == multiset(q) + multiset(tmp)
    decreases |tmp|
  {
    if |tmp| > 0 {
      var i := PopIndex(events, tmp);
      LiveByMultiset(events, Remove(tmp, i), tmp);
      RefillEffect(events, q + [tmp[i]], Remove(tmp, i));
    }
  }

  /** The queue after cancelFutureEvent has scanned for `e` and rebuilt itself. */
  function CancelQueue(events: Arena, q: seq<EventRef>, e: EventRef): (r: seq<EventRef>)
    requires Live(events, q)
    ensures |q| - 1 <= |r| <= |q|
  {
    var sc := CancelScan(events, q, [], e);
    Refill(events, sc.rest, sc.popped)
  }

  /** Cancelling removes exactly one entry for `e` when there is one, and keeps every other. */
  lemma CancelQueueEffect(events: Arena, q: seq<EventRef>, e: EventRef)
    requires Live(events, q)
    ensures multiset(CancelQueue(events, q, e)) == multiset(q) - multiset{e}
    ensures |CancelQueue(events, q, e)| == if e in q then |q| - 1 else |q|
    ensures Live(events, CancelQueue(events, q, e))
  {
    var sc := CancelScan(events, q, [], e);
    CancelScanEffect(events, q, [], e);
    RefillEffect(events, sc.rest, sc.popped);
    var r := Refill(events, sc.rest, sc.popped);
    assert multiset(r) + (if sc.found then multiset{e} else multiset{}) == multiset(q);
    assert e in q <==> e in multiset(q);
    assert |multiset(r)| == |r| && |multiset(q)| == |q|;
    LiveByMultiset(events, r, q);
  }

  /** The state of the loop of cleanupSimulator when it stops. */
  datatype Drain = Drain(events: Arena, queue: seq<EventRef>, outcome: Outcome)

  /** The loop of cleanupSimulator: pop the top and delete its event until the queue is empty.
      Comparing with, or deleting, an event that was already deleted (one that was queued
      twice, say) is a use of a dangling pointer. */
  function DrainQueue(events: Arena, q: seq<EventRef>): (r: Drain)
    ensures r.events.Keys <= events.Keys
    ensures r.outcome.Pass? ==> r.queue == []
    ensures r.outcome.Fail? ==> r.outcome.error == DanglingPointer
    decreases |q|
  {
    if |q| == 0 then Drain(events, q, Pass)
    else if !Live(events, q) then Drain(events, q, Fail(DanglingPointer))
    else
      var i := PopIndex(events, q);
      DrainQueue(events - {q[i]}, Remove(q, i))
  }

  /** After a pop, the rest is live without the popped event iff that event was queued once. */
  lemma RemoveLive(events: Arena, q: seq<EventRef>, i: nat)
    requires Live(events, q) && i < |q|
    ensures Live(events - {q[i]}, Remove(q, i)) <==> q[i] !in Remove(q, i)
  {
    var rest := Remove(q, i);
    if q[i] !in rest {
      forall k | 0 <= k < |rest| ensures rest[k] in events - {q[i]} {
        assert rest[k] == if k < i then q[k] else q[k + 1];
      }
    }
  }

  /** A queue has no repeated entry iff the rest after a pop has none and lacks the popped one. */
  lemma RemoveDistinct(q: seq<EventRef>, i: nat)
    requires i < |q|
    ensures Distinct(q) <==> Distinct(Remove(q, i)) && q[i] !in Remove(q, i)
    ensures (set y | y in q) == (set y | y in Remove(q, i)) + {q[i]}
  {
    var x, rest := q[i], Remove(q, i);
    assert multiset(q) == multiset(rest) + multiset{x};
    assert x in rest <==> x in multiset(rest);
    if Distinct(q) {
      forall y ensures multiset(rest)[y] <= 1 {
        assert multiset(rest)[y] <= multiset(q)[y];
      }
      assert multiset(q)[x] == multiset(rest)[x] + 1;
      assert multiset(rest)[x] == 0;
    }
    if Distinct(rest) && x !in rest {
      forall y ensures multiset(q)[y] <= 1 {
        assert multiset(q)[y] == multiset(rest)[y] + (if y == x then 1 else 0);
      }
    }
    forall y ensures y in q <==> y in rest || y == x {
      assert y in q <==> y in multiset(q);
      assert y in rest <==> y in multiset(rest);
    }
  }

  /** Emptying the queue succeeds exactly when every entry is live and occurs once; it then
      deletes exactly the queued events. */
  lemma {:induction false} DrainQueueEffect(events: Arena, q: seq<EventRef>)
    ensures DrainQueue(events, q).outcome.Pass? <==> Live(events, q) && Distinct(q)
    ensures DrainQueue(events, q).outcome.Pass? ==>
      DrainQueue(events, q).queue == [] && DrainQueue(events, q).events == events - (set x | x in q)
    decreases |q|
  {
    if |q| == 0 {
      assert (set y | y in q) == {};
      assert multiset(q) == multiset{};
    } else if Live(events, q) {
      var i := PopIndex(events, q);
      DrainQueueEffect(events - {q[i]}, Remove(q, i));
      RemoveLive(events, q, i);
      RemoveDistinct(q, i);
    }
  }
}
