// The adjacency structure of the generic directed graph, as values: vertex
// identifiers mapped to a payload reference, a successor map (head -> arc
// payload) and a predecessor set. The graph class updates a VertexMap in
// place; the functions and lemmas here say what its updates do to the arcs.
module GraphCore {
  import opened Common

  type VertexId = u64

  /** `IllegalVertexID` is `~0`. */
  const IllegalVertexId: VertexId := U64_MAX

  datatype ArcId = ArcId(tail: VertexId, head: VertexId)

  /** `IllegalArcID` pairs two illegal vertex identifiers. */
  const IllegalArcId: ArcId := ArcId(IllegalVertexId, IllegalVertexId)

  /** The payload reference is modelled by the payload itself (the key it points at). */
  datatype VertexData<V, A> = VertexData(vertexRef: V, successors: map<VertexId, A>, predecessors: set<VertexId>)

  type VertexMap<V, A> = map<VertexId, VertexData<V, A>>

  /** A vertex with no arcs. */
  function Isolated<V, A>(v: V): VertexData<V, A>
  {
    VertexData(v, map[], {})
  }

  /** std::map::insert: adds the pair only when the key is absent. */
  function MapInsert<K, T>(m: map<K, T>, k: K, x: T): (r: map<K, T>)
    ensures r.Keys == m.Keys + {k}
    ensures k in m ==> r == m
    ensures k !in m ==> r[k] == x && forall j :: j in m ==> r[j] == m[j]
  {
    if k in m then m else m[k := x]
  }

  /** The arcs stored in the successor maps. */
  function ArcSet<V, A>(va: VertexMap<V, A>): set<ArcId>
  {
    set t, h | t in va && h in va[t].successors :: ArcId(t, h)
  }

  lemma ArcSetMembership<V, A>(va: VertexMap<V, A>, a: ArcId)
    ensures a in ArcSet(va) <==> a.tail in va && a.head in va[a.tail].successors
  {
    if a.tail in va && a.head in va[a.tail].successors {
      assert ArcId(a.tail, a.head) in ArcSet(va);
    }
  }

  /** The two sides of every arc agree and only name stored vertices. */
  ghost predicate Linked<V, A>(va: VertexMap<V, A>)
  {
    && (forall t, h :: t in va && h in va[t].successors ==> h in va && t in va[h].predecessors)
    && (forall h, t :: h in va && t in va[h].predecessors ==> t in va && h in va[t].successors)
  }

  /** An arc exists iff its head is a successor of its tail and its tail a predecessor of its head. */
  lemma ArcExistsIff<V, A>(va: VertexMap<V, A>, t: VertexId, h: VertexId)
    requires Linked(va)
    ensures ArcId(t, h) in ArcSet(va) <==> (t in va && h in va && h in va[t].successors && t in va[h].predecessors)
    ensures ArcId(t, h) in ArcSet(va) <==> (h in va && t in va[h].predecessors)
  {
    ArcSetMembership(va, ArcId(t, h));
  }

  /** The arcs with a given tail. */
  function ArcsFrom<V, A>(va: VertexMap<V, A>, t: VertexId): set<ArcId>
  {
    if t in va then set h | h in va[t].successors :: ArcId(t, h) else {}
  }

  lemma ArcsFromAreArcs<V, A>(va: VertexMap<V, A>, t: VertexId)
    ensures ArcsFrom(va, t) == set a | a in ArcSet(va) && a.tail == t
  {
    forall a | a in ArcSet(va) && a.tail == t ensures a in ArcsFrom(va, t) {
      ArcSetMembership(va, a);
    }
  }

  /** Arcs with a fixed head, one per tail in a set, are as many as the tails. */
  lemma {:induction false} IntoCard(tails: set<VertexId>, h: VertexId)
    ensures |set t | t in tails :: ArcId(t, h)| == |tails|
    decreases |tails|
  {
    if tails != {} {
      var x :| x in tails;
      IntoCard(tails - {x}, h);
      assert (set t | t in tails :: ArcId(t, h)) == (set t | t in tails - {x} :: ArcId(t, h)) + {ArcId(x, h)};
    }
  }

  /** Arcs with a fixed tail, one per head in a set, are as many as the heads. */
  lemma {:induction false} OutOfCard(t: VertexId, heads: set<VertexId>)
    ensures |set h | h in heads :: ArcId(t, h)| == |heads|
    decreases |heads|
  {
    if heads != {} {
      var x :| x in heads;
      OutOfCard(t, heads - {x});
      assert (set h | h in heads :: ArcId(t, h)) == (set h | h in heads - {x} :: ArcId(t, h)) + {ArcId(t, x)};
    }
  }

  /** A vertex has as many outgoing arcs as successors. */
  lemma ArcsFromCard<V, A>(va: VertexMap<V, A>, t: VertexId)
    requires t in va
    ensures |ArcsFrom(va, t)| == |va[t].successors.Keys|
  {
    OutOfCard(t, va[t].successors.Keys);
    assert ArcsFrom(va, t) == set h | h in va[t].successors.Keys :: ArcId(t, h);
  }

  /** The stored predecessors of a vertex are the tails of the arcs into it. */
  lemma ArcsIntoStored<V, A>(va: VertexMap<V, A>, h: VertexId)
    requires Linked(va)
    ensures forall t :: t in (if h in va then va[h].predecessors else {}) <==> ArcId(t, h) in ArcSet(va)
  {
    forall t ensures t in (if h in va then va[h].predecessors else {}) <==> ArcId(t, h) in ArcSet(va) {
      ArcExistsIff(va, t, h);
    }
  }

  /** A vertex has as many incoming arcs as stored predecessors. */
  lemma ArcsIntoCard<V, A>(va: VertexMap<V, A>, h: VertexId)
    requires Linked(va)
    ensures |if h in va then va[h].predecessors else {}| == |set a | a in ArcSet(va) && a.head == h|
  {
    var preds := if h in va then va[h].predecessors else {};
    ArcsIntoStored(va, h);
    IntoCard(preds, h);
    assert (set a | a in ArcSet(va) && a.head == h) == set t | t in preds :: ArcId(t, h);
  }

  lemma ArcSetEmpty<V, A>(va: VertexMap<V, A>)
    ensures va == map[] ==> ArcSet(va) == {}
  {
  }

  // ---------------------------------------------------------------- vertex updates

  /** Adding a vertex with no arcs under a new identifier adds no arc and keeps the links. */
  lemma AddIsolatedKeepsArcs<V, A>(va: VertexMap<V, A>, id: VertexId, v: V)
    requires Linked(va) && id !in va
    ensures Linked(va[id := Isolated(v)])
    ensures ArcSet(va[id := Isolated(v)]) == ArcSet(va)
  {
    var vb := va[id := Isolated(v)];
    forall a | a in ArcSet(vb) ensures a in ArcSet(va) {
      ArcSetMembership(vb, a);
      ArcSetMembership(va, a);
    }
    forall a | a in ArcSet(va) ensures a in ArcSet(vb) {
      ArcSetMembership(vb, a);
      ArcSetMembership(va, a);
    }
  }

  /** Rebinding the payload of a vertex changes no arc and keeps the links. */
  lemma RebindKeepsArcs<V, A>(va: VertexMap<V, A>, id: VertexId, v: V)
    requires Linked(va) && id in va
    ensures Linked(va[id := va[id].(vertexRef := v)])
    ensures ArcSet(va[id := va[id].(vertexRef := v)]) == ArcSet(va)
  {
    var vb := va[id := va[id].(vertexRef := v)];
    forall a | a in ArcSet(vb) ensures a in ArcSet(va) {
      ArcSetMembership(vb, a);
      ArcSetMembership(va, a);
    }
    forall a | a in ArcSet(va) ensures a in ArcSet(vb) {
      ArcSetMembership(vb, a);
      ArcSetMembership(va, a);
    }
  }

  // ---------------------------------------------------------------- arc updates

  /** The two insertions made by a successful `add(id1, id2, arc)`. */
  function LinkArc<V, A>(va: VertexMap<V, A>, t: VertexId, h: VertexId, a: A): (r: VertexMap<V, A>)
    requires t in va && h in va
    ensures r.Keys == va.Keys
  {
    var v1 := va[t := va[t].(successors := MapInsert(va[t].successors, h, a))];
    v1[h := v1[h].(predecessors := v1[h].predecessors + {t})]
  }

  lemma LinkArcKeepsLinked<V, A>(va: VertexMap<V, A>, t: VertexId, h: VertexId, a: A)
    requires Linked(va) && t in va && h in va
    ensures Linked(LinkArc(va, t, h, a))
    ensures forall k :: k in va ==> LinkArc(va, t, h, a)[k].vertexRef == va[k].vertexRef
  {
    var vb := LinkArc(va, t, h, a);
    forall x, y | x in vb && y in vb[x].successors ensures y in vb && x in vb[y].predecessors {
      if !(x == t && y == h) {
        assert y in va[x].successors;
      }
    }
    forall y, x | y in vb && x in vb[y].predecessors ensures x in vb && y in vb[x].successors {
      if !(x == t && y == h) {
        assert x in va[y].predecessors;
      }
    }
  }

  lemma LinkArcEffect<V, A>(va: VertexMap<V, A>, t: VertexId, h: VertexId, a: A)
    requires Linked(va) && t in va && h in va
    ensures Linked(LinkArc(va, t, h, a))
    ensures ArcSet(LinkArc(va, t, h, a)) == ArcSet(va) + {ArcId(t, h)}
    ensures |ArcSet(LinkArc(va, t, h, a))| == |ArcSet(va)| + (if ArcId(t, h) in ArcSet(va) then 0 else 1)
    ensures forall k :: k in va ==> LinkArc(va, t, h, a)[k].vertexRef == va[k].vertexRef
  {
    LinkArcKeepsLinked(va, t, h, a);
    var vb := LinkArc(va, t, h, a);
    forall x | x in ArcSet(vb) ensures x in ArcSet(va) + {ArcId(t, h)} {
      ArcSetMembership(vb, x);
      ArcSetMembership(va, x);
    }
    forall x | x in ArcSet(va) + {ArcId(t, h)} ensures x in ArcSet(vb) {
      ArcSetMembership(vb, x);
      ArcSetMembership(va, x);
    }
  }

  /** The vertex map once add(id1, id2, arc, true) has inserted its missing endpoints, each
      as an isolated vertex holding the default payload `v`. */
  function WithEndpoints<V, A>(va: VertexMap<V, A>, id1: VertexId, id2: VertexId, v: V): (r: VertexMap<V, A>)
    ensures r.Keys == va.Keys + {id1, id2}
  {
    MapInsert(MapInsert(va, id1, Isolated(v)), id2, Isolated(v))
  }

  /** The vertex map once add(v) has run for a payload that is missing from `vd`: an isolated
      vertex under the generated identifier `id`, which `std::map::insert` does not put over a
      vertex already stored there. A payload already present changes nothing. */
  function WithPayload<V, A>(va: VertexMap<V, A>, vd: map<V, VertexId>, v: V, id: VertexId): (r: VertexMap<V, A>)
    ensures v !in vd ==> r.Keys == va.Keys + {id}
    ensures v in vd ==> r == va
  {
    if v in vd then va else MapInsert(va, id, Isolated(v))
  }

  /** The payload table after the same insertions: `std::map::insert` of the default payload
      for each missing endpoint, the first one winning. */
  function EndpointsData<V>(vd: map<V, VertexId>, stored: set<VertexId>, id1: VertexId, id2: VertexId, v: V): (r: map<V, VertexId>)
    ensures r.Keys == vd.Keys + (if id1 in stored && id2 in stored then {} else {v})
    ensures v in vd ==> r == vd
  {
    var vd1 := if id1 in stored then vd else MapInsert(vd, v, id1);
    if id2 in stored + {id1} then vd1 else MapInsert(vd1, v, id2)
  }

  /** Inserting the missing endpoints adds no arc and keeps the links and the stored payloads. */
  lemma WithEndpointsKeepsArcs<V, A>(va: VertexMap<V, A>, id1: VertexId, id2: VertexId, v: V)
    requires Linked(va)
    ensures Linked(WithEndpoints(va, id1, id2, v))
    ensures ArcSet(WithEndpoints(va, id1, id2, v)) == ArcSet(va)
    ensures forall k :: k in va ==> WithEndpoints(va, id1, id2, v)[k] == va[k]
    ensures forall k :: k in WithEndpoints(va, id1, id2, v) && k !in va ==> WithEndpoints(va, id1, id2, v)[k] == Isolated(v)
  {
    var v1 := MapInsert(va, id1, Isolated(v));
    if id1 !in va {
      AddIsolatedKeepsArcs(va, id1, v);
    }
    if id2 !in v1 {
      AddIsolatedKeepsArcs(v1, id2, v);
    }
  }

  /** add(id1, id2, arc, true) adds exactly the arc id1 -> id2, keeps every stored vertex with its
      payload, and adds the missing endpoints with the default payload. */
  lemma AddArcEffect<V, A>(va: VertexMap<V, A>, id1: VertexId, id2: VertexId, a: A, v: V, vb: VertexMap<V, A>)
    requires Linked(va)
    requires vb == LinkArc(WithEndpoints(va, id1, id2, v), id1, id2, a)
    ensures Linked(vb)
    ensures vb.Keys == va.Keys + {id1, id2}
    ensures ArcSet(vb) == ArcSet(va) + {ArcId(id1, id2)}
    ensures forall k :: k in va ==> vb[k].vertexRef == va[k].vertexRef
    ensures forall k :: k in vb && k !in va ==> vb[k].vertexRef == v
  {
    var w := WithEndpoints(va, id1, id2, v);
    WithEndpointsKeepsArcs(va, id1, id2, v);
    LinkArcEffect(w, id1, id2, a);
    forall k | k in vb && k !in va ensures vb[k].vertexRef == v {
      assert vb[k].vertexRef == w[k].vertexRef;
    }
  }

  /** The two erasures made by a successful `remove(id1, id2)`. */
  function UnlinkArc<V, A>(va: VertexMap<V, A>, t: VertexId, h: VertexId): (r: VertexMap<V, A>)
    requires t in va && h in va
    ensures r.Keys == va.Keys
  {
    var v1 := va[t := va[t].(successors := va[t].successors - {h})];
    v1[h := v1[h].(predecessors := v1[h].predecessors - {t})]
  }

  lemma UnlinkArcKeepsLinked<V, A>(va: VertexMap<V, A>, t: VertexId, h: VertexId)
    requires Linked(va) && t in va && h in va
    ensures Linked(UnlinkArc(va, t, h))
    ensures forall k :: k in va ==> UnlinkArc(va, t, h)[k].vertexRef == va[k].vertexRef
  {
    var vb := UnlinkArc(va, t, h);
    forall x, y | x in vb && y in vb[x].successors ensures y in vb && x in vb[y].predecessors {
      assert y in va[x].successors;
    }
    forall y, x | y in vb && x in vb[y].predecessors ensures x in vb && y in vb[x].successors {
      assert x in va[y].predecessors;
    }
  }

  lemma UnlinkArcEffect<V, A>(va: VertexMap<V, A>, t: VertexId, h: VertexId)
    requires Linked(va) && t in va && h in va
    ensures Linked(UnlinkArc(va, t, h))
    ensures ArcSet(UnlinkArc(va, t, h)) == ArcSet(va) - {ArcId(t, h)}
    ensures |ArcSet(UnlinkArc(va, t, h))| == |ArcSet(va)| - (if ArcId(t, h) in ArcSet(va) then 1 else 0)
    ensures forall k :: k in va ==> UnlinkArc(va, t, h)[k].vertexRef == va[k].vertexRef
  {
    UnlinkArcKeepsLinked(va, t, h);
    var vb := UnlinkArc(va, t, h);
    forall x | x in ArcSet(vb) ensures x in ArcSet(va) - {ArcId(t, h)} {
      ArcSetMembership(vb, x);
      ArcSetMembership(va, x);
    }
    forall x | x in ArcSet(va) - {ArcId(t, h)} ensures x in ArcSet(vb) {
      ArcSetMembership(vb, x);
      ArcSetMembership(va, x);
    }
  }

  // ---------------------------------------------------------------- vertex removal

  /** The result of `remove(vertexId)`: the vertex is gone and no arc mentions it. */
  function Detach<V, A>(va: VertexMap<V, A>, v: VertexId): (r: VertexMap<V, A>)
    ensures r.Keys == va.Keys - {v}
  {
    map k | k in va && k != v :: va[k].(successors := va[k].successors - {v}, predecessors := va[k].predecessors - {v})
  }

  /** The arcs that start or end at a vertex. */
  function Incident<V, A>(va: VertexMap<V, A>, v: VertexId): set<ArcId>
  {
    set a | a in ArcSet(va) && (a.tail == v || a.head == v)
  }

  lemma DetachEffect<V, A>(va: VertexMap<V, A>, v: VertexId)
    requires Linked(va)
    ensures Linked(Detach(va, v))
    ensures ArcSet(Detach(va, v)) == ArcSet(va) - Incident(va, v)
    ensures forall k :: k in Detach(va, v) ==> v !in Detach(va, v)[k].successors && v !in Detach(va, v)[k].predecessors
    ensures forall k :: k in Detach(va, v) ==> Detach(va, v)[k].vertexRef == va[k].vertexRef
  {
    var vb := Detach(va, v);
    forall x | x in ArcSet(vb) ensures x in ArcSet(va) - Incident(va, v) {
      ArcSetMembership(vb, x);
      ArcSetMembership(va, x);
    }
    forall x | x in ArcSet(va) - Incident(va, v) ensures x in ArcSet(vb) {
      ArcSetMembership(vb, x);
      ArcSetMembership(va, x);
    }
  }

  /** A vertex is incident to as many arcs as it has predecessors plus successors other than itself. */
  lemma IncidentCard<V, A>(va: VertexMap<V, A>, v: VertexId)
    requires Linked(va) && v in va
    ensures |Incident(va, v)| == |va[v].predecessors| + |va[v].successors.Keys - {v}|
  {
    var preds := va[v].predecessors;
    var others := va[v].successors.Keys - {v};
    var ins := set t | t in preds :: ArcId(t, v);
    var outs := set h | h in others :: ArcId(v, h);
    forall a | a in Incident(va, v) ensures a in ins + outs {
      ArcSetMembership(va, a);
      if a.head == v {
        assert a == ArcId(a.tail, v);
      } else {
        assert a == ArcId(v, a.head);
      }
    }
    forall a | a in ins + outs ensures a in Incident(va, v) {
      ArcSetMembership(va, a);
    }
    assert Incident(va, v) == ins + outs;
    assert ins * outs == {};
    IntoCard(preds, v);
    OutOfCard(v, others);
  }

  /** Removing a vertex removes exactly its incident arcs from the count of stored arcs. */
  lemma DetachCard<V, A>(va: VertexMap<V, A>, v: VertexId)
    requires Linked(va) && v in va
    ensures |ArcSet(Detach(va, v))| == |ArcSet(va)| - |va[v].predecessors| - |va[v].successors.Keys - {v}|
  {
    DetachEffect(va, v);
    IncidentCard(va, v);
    var inc := Incident(va, v);
    assert ArcSet(va) * inc == inc;
  }

  // ---------------------------------------------------------------- vertex removal, step by step

  /** The vertices in `from` no longer have `v` among their successors. */
  function DropSuccessor<V, A>(va: VertexMap<V, A>, v: VertexId, from: set<VertexId>): (r: VertexMap<V, A>)
    ensures r.Keys == va.Keys
  {
    map k | k in va :: if k in from then va[k].(successors := va[k].successors - {v}) else va[k]
  }

  /** The vertices in `from` no longer have `v` among their predecessors. */
  function DropPredecessor<V, A>(va: VertexMap<V, A>, v: VertexId, from: set<VertexId>): (r: VertexMap<V, A>)
    ensures r.Keys == va.Keys
  {
    map k | k in va :: if k in from then va[k].(predecessors := va[k].predecessors - {v}) else va[k]
  }

  lemma DropSuccessorStep<V, A>(va: VertexMap<V, A>, v: VertexId, from: set<VertexId>, p: VertexId)
    requires p in va && p !in from
    ensures DropSuccessor(va, v, from + {p}) == DropSuccessor(va, v, from)[p := va[p].(successors := va[p].successors - {v})]
  {
  }

  lemma DropPredecessorStep<V, A>(va: VertexMap<V, A>, v: VertexId, from: set<VertexId>, p: VertexId)
    requires p in va && p !in from
    ensures DropPredecessor(va, v, from + {p}) == DropPredecessor(va, v, from)[p := va[p].(predecessors := va[p].predecessors - {v})]
  {
  }

  /** Every predecessor and every successor of a stored vertex is stored. */
  lemma NeighboursStored<V, A>(va: VertexMap<V, A>, v: VertexId)
    requires Linked(va) && v in va
    ensures va[v].predecessors <= va.Keys && va[v].successors.Keys <= va.Keys
  {
  }

  /** One vertex other than `v` through the two passes: dropping `v` from its successors when it
      is a predecessor of `v`, and from its predecessors when it is a successor of `v`, drops
      `v` from both, because the other vertices do not mention `v` at all. */
  lemma DetachEntry<V, A>(va: VertexMap<V, A>, v: VertexId, k: VertexId)
    requires Linked(va) && v in va && k in va && k != v
    ensures var d1 := if k in va[v].predecessors then va[k].(successors := va[k].successors - {v}) else va[k];
      (if k in va[v].successors.Keys - {v} then d1.(predecessors := d1.predecessors - {v}) else d1)
        == va[k].(successors := va[k].successors - {v}, predecessors := va[k].predecessors - {v})
  {
    if k !in va[v].predecessors {
      assert v !in va[k].successors;
    }
    if k !in va[v].successors {
      assert v !in va[k].predecessors;
    }
  }

  /** The two passes of `remove(vertexId)`, over the predecessors and then over the successors
      left after the first pass, followed by erasing the vertex, detach it. The first pass
      already removes a self-loop, so the second sees the successors other than the vertex. */
  lemma DetachInSteps<V, A>(va: VertexMap<V, A>, v: VertexId, va1: VertexMap<V, A>, va2: VertexMap<V, A>)
    requires Linked(va) && v in va
    requires va1 == DropSuccessor(va, v, va[v].predecessors)
    requires va2 == va1[v := va1[v].(predecessors := {})]
    ensures va2[v].successors.Keys == va[v].successors.Keys - {v}
    ensures DropPredecessor(va2, v, va2[v].successors.Keys) - {v} == Detach(va, v)
  {
    var succs := va2[v].successors.Keys;
    assert succs == va[v].successors.Keys - {v};
    var va3 := DropPredecessor(va2, v, succs);
    forall k | k in va && k != v ensures va3[k] == Detach(va, v)[k] {
      DetachEntry(va, v, k);
      assert va2[k] == va1[k];
    }
    assert (va3 - {v}).Keys == Detach(va, v).Keys;
  }

  /** Removing a vertex keeps the two sides of every arc in agreement, and a counter that was not
      below the number of arcs is not below it after dropping by the arcs incident to the vertex. */
  lemma DetachKeepsValid<V, A>(va: VertexMap<V, A>, v: VertexId, n: int)
    requires Linked(va) && v in va && n >= |ArcSet(va)|
    ensures Linked(Detach(va, v))
    ensures n - |va[v].predecessors| - |va[v].successors.Keys - {v}| >= |ArcSet(Detach(va, v))|
    ensures |va[v].predecessors| + |va[v].successors.Keys - {v}| <= n
  {
    DetachEffect(va, v);
    DetachCard(va, v);
  }
}
