// The generic directed graph: a payload -> identifier map, an identifier ->
// {payload reference, successor map, predecessor set} map and an arc counter,
// all updated in place by the add / remove / setVertex operations.
module Graphs {
  import opened Common
  import opened OrderedSets
  import opened GraphCore
  import opened GraphML
  import opened UniqueIds

  class GenericGraph<V(==), A> {
    /** `m_graphName`; None is the null pointer. */
    var name: Option<string>
    /** `m_arcsNumber`. */
    var arcsNumber: nat
    /** `m_verticesData`: payload -> vertex identifier. */
    var verticesData: map<V, VertexId>
    /** `m_verticesArcs`: vertex identifier -> payload reference and adjacency. */
    var verticesArcs: VertexMap<V, A>
    /** Model only: the vertices whose `vertexRef` iterator points at an entry of
        `m_verticesData` that has been erased. Two vertices share one entry when a payload
        already stored is inserted again for another identifier, since `std::map::insert` then
        returns the existing entry; erasing it through either vertex leaves the other dangling. */
    var erased: set<VertexId>

    /** Both sides of every arc agree, the counter is never below the number of stored arcs
        (it can exceed it: adding an arc that is already there still counts it), and every
        vertex that is not dangling refers to a stored payload. */
    ghost predicate Valid()
      reads this
    {
      Linked(verticesArcs) && arcsNumber >= |ArcSet(verticesArcs)| && RefsLive()
    }

    ghost predicate RefsLive()
      reads this
    {
      RefsLiveIn(verticesArcs, verticesData, erased)
    }

    /** The other live vertices that refer to the same entry of `m_verticesData` as vertex `id`. */
    function Sharers(id: VertexId): (r: set<VertexId>)
      reads this
      requires id in verticesArcs
      ensures r <= verticesArcs.Keys - erased - {id}
    {
      SharersIn(verticesArcs, erased, id)
    }

    /** The counter equals the number of stored arcs. */
    ghost predicate Exact()
      reads this
    {
      arcsNumber == |ArcSet(verticesArcs)|
    }

    constructor (graphName: Option<string>)
      ensures Valid() && Exact()
      ensures name == graphName && arcsNumber == 0 && verticesData == map[] && verticesArcs == map[] && erased == {}
    {
      arcsNumber := 0;
      verticesData := map[];
      verticesArcs := map[];
      erased := {};
      name := graphName;
    }

    method SetName(graphName: Option<string>)
      modifies this
      ensures name == graphName
      ensures arcsNumber == old(arcsNumber) && verticesData == old(verticesData) && verticesArcs == old(verticesArcs)
      ensures erased == old(erased)
    {
      name := graphName;
    }

    /** clear: no vertex, no arc, counter 0; the name is kept. */
    method Clear()
      modifies this
      ensures Valid() && Exact()
      ensures verticesData == map[] && verticesArcs == map[] && erased == {} && arcsNumber == 0 && name == old(name)
    {
      verticesData := map[];
      verticesArcs := map[];
      erased := {};
      arcsNumber := 0;
    }

    // ------------------------------------------------------------ adding

    /** add(v, id). With the illegal identifier: a payload already present keeps its identifier
        and nothing changes; otherwise it gets the next identifier of the generator. With a legal
        identifier already in use: setVertex rebinds that identifier, which is undefined
        behaviour for a dangling vertex. With an unused one: the vertex is inserted under exactly
        that identifier. `std::map::insert` never overwrites, so a payload that is already stored
        leaves the new vertex sharing its entry with the payload's vertex. */
    method AddVertex(v: V, newId: VertexId, gen: UniqueIdGenerator) returns (id: VertexId, o: Outcome)
      requires Valid() && gen.Valid()
      modifies this`verticesData, this`verticesArcs, this`erased, gen
      ensures Valid() && gen.Valid() && arcsNumber == old(arcsNumber)
      ensures o.Fail? <==> newId != IllegalVertexId && newId in old(erased)
      ensures o.Fail? ==> o.error == DanglingPointer && verticesData == old(verticesData) && verticesArcs == old(verticesArcs)
      ensures newId != IllegalVertexId && newId in old(verticesArcs) && newId !in old(erased) ==>
        erased == old(erased) + old(Sharers(newId))
      ensures newId == IllegalVertexId || newId !in old(verticesArcs) ==> erased == old(erased)
      ensures ArcSet(verticesArcs) == old(ArcSet(verticesArcs))
      ensures verticesArcs.Keys == old(verticesArcs.Keys) + (if newId == IllegalVertexId && v in old(verticesData) then {} else {id})
      ensures newId == IllegalVertexId && v in old(verticesData) ==>
        id == old(verticesData)[v] && verticesData == old(verticesData) && verticesArcs == old(verticesArcs)
          && gen.issued == old(gen.issued)
      ensures newId == IllegalVertexId && v !in old(verticesData) ==>
        && gen.issued == old(gen.issued) + [id] && id == old(gen.nextId)
        && verticesData == old(verticesData)[v := id]
        && verticesArcs == MapInsert(old(verticesArcs), id, Isolated(v))
      ensures newId != IllegalVertexId ==> id == newId && gen.issued == old(gen.issued)
      ensures newId != IllegalVertexId && newId in old(verticesArcs) && newId !in old(erased) ==>
        && verticesData == MapInsert(old(verticesData) - {old(verticesArcs)[newId].vertexRef}, v, newId)
        && verticesArcs == old(verticesArcs)[newId := old(verticesArcs)[newId].(vertexRef := v)]
      ensures newId != IllegalVertexId && newId !in old(verticesArcs) ==>
        && verticesData == MapInsert(old(verticesData), v, newId)
        && verticesArcs == old(verticesArcs)[newId := Isolated(v)]
    {
      o := Pass;
      if newId == IllegalVertexId {
        if v in verticesData {
          id := verticesData[v];
        } else {
          id := AddGenerated(v, gen);
        }
      } else if newId in verticesArcs {
        o := SetVertex(newId, v);
        id := newId;
      } else {
        InsertVertexAt(v, newId);
        id := newId;
      }
    }

    /** The branch of add(v, id) for the illegal identifier and a new payload: the generator
        supplies the identifier; `std::map::insert` leaves a vertex already stored under it as it is. */
    method AddGenerated(v: V, gen: UniqueIdGenerator) returns (id: VertexId)
      requires Valid() && gen.Valid() && v !in verticesData
      modifies this`verticesData, this`verticesArcs, gen
      ensures Valid() && gen.Valid()
      ensures gen.issued == old(gen.issued) + [id] && id == old(gen.nextId)
      ensures verticesData == old(verticesData)[v := id]
      ensures verticesArcs == MapInsert(old(verticesArcs), id, Isolated(v))
      ensures ArcSet(verticesArcs) == old(ArcSet(verticesArcs))
    {
      id := gen.NewId();
      verticesData := verticesData[v := id];
      if id !in verticesArcs {
        AddIsolatedKeepsArcs(verticesArcs, id, v);
      }
      verticesArcs := MapInsert(verticesArcs, id, Isolated(v));
    }

    /** The branch of add(v, id) for an unused legal identifier: an isolated vertex under `id`. */
    method InsertVertexAt(v: V, id: VertexId)
      requires Valid() && id !in verticesArcs
      modifies this`verticesData, this`verticesArcs
      ensures Valid() && arcsNumber == old(arcsNumber)
      ensures ArcSet(verticesArcs) == old(ArcSet(verticesArcs))
      ensures verticesData == MapInsert(old(verticesData), v, id)
      ensures verticesArcs == old(verticesArcs)[id := Isolated(v)]
    {
      AddIsolatedKeepsArcs(verticesArcs, id, v);
      verticesData := MapInsert(verticesData, v, id);
      verticesArcs := verticesArcs[id := Isolated(v)];
    }
  
    /** setVertex: an unknown identifier is ignored. Otherwise the old payload's entry is erased
        and the new payload is inserted for this identifier (unless that payload is already
        present, in which case its entry is kept); the vertex now refers to the new payload. */
    method SetVertex(id: VertexId, v: V) returns (o: Outcome)
      requires Valid()
      modifies this`verticesData, this`verticesArcs, this`erased
      ensures Valid() && arcsNumber == old(arcsNumber)
      ensures ArcSet(verticesArcs) == old(ArcSet(verticesArcs))
      ensures o.Fail? <==> id in old(erased)
      ensures o.Fail? ==> o.error == DanglingPointer
      ensures id !in old(verticesArcs) || id in old(erased) ==>
        verticesData == old(verticesData) && verticesArcs == old(verticesArcs) && erased == old(erased)
      ensures id in old(verticesArcs) && id !in old(erased) ==>
        && verticesData == MapInsert(old(verticesData) - {old(verticesArcs)[id].vertexRef}, v, id)
        && verticesArcs == old(verticesArcs)[id := old(verticesArcs)[id].(vertexRef := v)]
        && erased == old(erased) + old(Sharers(id))
    {
      if id in erased {
        // erasing through an iterator whose entry is gone
        return Fail(DanglingPointer);
      }
      o := Pass;
      if id in verticesArcs {
        RebindKeepsArcs(verticesArcs, id, v);
        RebindKeepsLive(verticesArcs, verticesData, erased, id, v);
        erased := erased + Sharers(id);
        verticesData := MapInsert(verticesData - {verticesArcs[id].vertexRef}, v, id);
        verticesArcs := verticesArcs[id := verticesArcs[id].(vertexRef := v)];
      }
    }

    /** add(id1, id2, a, addVertexIfMissing). A missing endpoint is either inserted with the
        default payload under its own identifier, or makes the call return IllegalArcID with
        nothing changed. Then the arc is inserted on both sides (an existing arc keeps its
        payload) and the counter is incremented, even when the arc was already there. `ifMissing`
        is the default payload when vertices may be added and None when they may not. */
    method AddArc(id1: VertexId, id2: VertexId, a: A, ifMissing: Option<V>) returns (r: ArcId)
      requires Valid()
      // inserting the default payload under the illegal identifier leaves nothing at that
      // identifier, and the arc insertion then dereferences the map's end
      requires ifMissing.Some? && id1 !in verticesArcs ==> id1 != IllegalVertexId
      requires ifMissing.Some? && id2 !in verticesArcs ==> id2 != IllegalVertexId
      modifies this`arcsNumber, this`verticesData, this`verticesArcs
      ensures Valid()
      ensures ifMissing.None? && (id1 !in old(verticesArcs) || id2 !in old(verticesArcs)) ==>
        && r == IllegalArcId
        && verticesArcs == old(verticesArcs) && verticesData == old(verticesData) && arcsNumber == old(arcsNumber)
      ensures ifMissing.None? && id1 in old(verticesArcs) && id2 in old(verticesArcs) ==>
        && r == ArcId(id1, id2)
        && verticesArcs == LinkArc(old(verticesArcs), id1, id2, a)
        && verticesData == old(verticesData) && arcsNumber == old(arcsNumber) + 1
      ensures ifMissing.Some? ==>
        && r == ArcId(id1, id2)
        && verticesArcs == LinkArc(WithEndpoints(old(verticesArcs), id1, id2, ifMissing.value), id1, id2, a)
        && verticesData == EndpointsData(old(verticesData), old(verticesArcs.Keys), id1, id2, ifMissing.value)
        && arcsNumber == old(arcsNumber) + 1
    {
      // giving up at the first or at the second endpoint leaves the graph as it was
      if ifMissing.None? && (id1 !in verticesArcs || id2 !in verticesArcs) {
        return IllegalArcId;
      }
      if ifMissing.Some? {
        StoreEndpoints(id1, id2, ifMissing.value);
      }
      r := LinkStored(id1, id2, a);
    }

    /** The first half of add(id1, id2, a, true): add(defaultVertex, id) for each missing
        endpoint, which takes the unused-identifier branch. */
    method StoreEndpoints(id1: VertexId, id2: VertexId, v: V)
      requires Valid()
      requires id1 !in verticesArcs ==> id1 != IllegalVertexId
      requires id2 !in verticesArcs ==> id2 != IllegalVertexId
      modifies this`verticesData, this`verticesArcs
      ensures Valid() && arcsNumber == old(arcsNumber)
      ensures verticesArcs == WithEndpoints(old(verticesArcs), id1, id2, v)
      ensures verticesData == EndpointsData(old(verticesData), old(verticesArcs.Keys), id1, id2, v)
    {
      ghost var va0 := verticesArcs;
      if id1 !in verticesArcs {
        InsertVertexAt(v, id1);
      }
      assert verticesArcs == MapInsert(va0, id1, Isolated(v));
      if id2 !in verticesArcs {
        InsertVertexAt(v, id2);
      }
    }

    /** The end of add(id1, id2, a, ...), once both endpoints are stored. */
    method LinkStored(id1: VertexId, id2: VertexId, a: A) returns (r: ArcId)
      requires Valid() && id1 in verticesArcs && id2 in verticesArcs
      modifies this`arcsNumber, this`verticesArcs
      ensures Valid()
      ensures r == ArcId(id1, id2)
      ensures verticesArcs == LinkArc(old(verticesArcs), id1, id2, a)
      ensures arcsNumber == old(arcsNumber) + 1
    {
      var linked := LinkArc(verticesArcs, id1, id2, a);
      LinkArcEffect(verticesArcs, id1, id2, a);
      SameRefsKeepLive(verticesArcs, linked, verticesData, erased);
      verticesArcs := linked;
      arcsNumber := arcsNumber + 1;
      assert RefsLiveIn(verticesArcs, verticesData, erased);
      r := ArcId(id1, id2);
    }

    /** add(v1, v2, a, addVertexIfMissing): a missing payload is either added with a generated
        identifier or makes the call return IllegalArcID; then the arc is added between the
        identifiers of the two payloads, which fails only for a payload whose identifier names
        no stored vertex. A payload added here always names a stored vertex, so when both are
        new the arc is always added. */
    method AddArcByPayload(v1: V, v2: V, a: A, addVertexIfMissing: bool, gen: UniqueIdGenerator) returns (r: ArcId)
      requires Valid() && gen.Valid()
      modifies this`arcsNumber, this`verticesData, this`verticesArcs, gen
      ensures Valid() && gen.Valid()
      ensures !addVertexIfMissing && (v1 !in old(verticesData) || v2 !in old(verticesData)) ==>
        && r == IllegalArcId && gen.issued == old(gen.issued)
        && verticesArcs == old(verticesArcs) && verticesData == old(verticesData) && arcsNumber == old(arcsNumber)
      ensures addVertexIfMissing || (v1 in old(verticesData) && v2 in old(verticesData)) ==>
        && v1 in verticesData && v2 in verticesData
        && var id1, id2 := verticesData[v1], verticesData[v2];
           var data1 := old(verticesData)[v1 := id1];
           var stored := WithPayload(WithPayload(old(verticesArcs), old(verticesData), v1, id1), data1, v2, id2);
           && verticesData == data1[v2 := id2]
           && gen.issued == old(gen.issued) + (if v1 in old(verticesData) then [] else [id1])
                                            + (if v2 in data1 then [] else [id2])
           && (v1 !in old(verticesData) ==> id1 in stored)
           && (v2 !in data1 ==> id2 in stored)
           && if id1 in stored && id2 in stored then
                && r == ArcId(id1, id2)
                && verticesArcs == LinkArc(stored, id1, id2, a)
                && arcsNumber == old(arcsNumber) + 1
              else
                && r == IllegalArcId
                && verticesArcs == stored && arcsNumber == old(arcsNumber)
    {
      ghost var vd0, va0, issued0 := verticesData, verticesArcs, gen.issued;
      var id1, id2;
      if v1 !in verticesData {
        if !addVertexIfMissing {
          return IllegalArcId;
        }
        // add(vertex1) takes the generated-identifier branch
        id1 := AddGenerated(v1, gen);
      } else {
        id1 := verticesData[v1];
      }
      ghost var data1, stored1 := vd0[v1 := id1], WithPayload(va0, vd0, v1, id1);
      ghost var issued1 := issued0 + (if v1 in vd0 then [] else [id1]);
      assert verticesData == data1 && verticesArcs == stored1 && gen.issued == issued1;
      if v2 !in verticesData {
        if !addVertexIfMissing {
          return IllegalArcId;
        }
        id2 := AddGenerated(v2, gen);
      } else {
        id2 := verticesData[v2];
      }
      ghost var stored := WithPayload(stored1, data1, v2, id2);
      assert verticesData == data1[v2 := id2] && verticesArcs == stored;
      assert gen.issued == issued1 + (if v2 in data1 then [] else [id2]);
      r := AddArc(id1, id2, a, None);
    }

    // ------------------------------------------------------------ removing

    /** remove(vertexId): an unknown identifier gives false. Otherwise the vertex is taken out of
        the successors of each predecessor, the counter drops by the number of predecessors, the
        vertex is taken out of the predecessors of each remaining successor, the counter drops by
        the number of those successors, and the vertex and its payload entry are erased; the
        vertices that shared that entry are left dangling. Erasing the entry of a dangling
        vertex is undefined behaviour, and the model then changes nothing. */
    method RemoveVertex(id: VertexId) returns (removed: bool, o: Outcome)
      requires Valid()
      modifies this`arcsNumber, this`verticesData, this`verticesArcs, this`erased
      ensures Valid()
      ensures removed <==> id in old(verticesArcs) && id !in old(erased)
      ensures o.Fail? <==> id in old(erased)
      ensures o.Fail? ==> o.error == DanglingPointer
      ensures !removed ==>
        && verticesArcs == old(verticesArcs) && verticesData == old(verticesData)
        && arcsNumber == old(arcsNumber) && erased == old(erased)
      ensures removed ==>
        && verticesArcs == Detach(old(verticesArcs), id)
        && verticesData == old(verticesData) - {old(verticesArcs)[id].vertexRef}
        && erased == old(erased) + old(Sharers(id))
        && arcsNumber == old(arcsNumber) - |old(verticesArcs)[id].predecessors| - |old(verticesArcs)[id].successors.Keys - {id}|
    {
      if id in erased {
        // erasing through an iterator whose entry is gone
        return false, Fail(DanglingPointer);
      }
      o := Pass;
      if id !in verticesArcs {
        return false, o;
      }
      DetachKeepsValid(verticesArcs, id, arcsNumber);
      DetachKeepsLive(verticesArcs, verticesData, erased, id);
      var ref := verticesArcs[id].vertexRef;
      erased := erased + Sharers(id);
      var arcs, predsNb, succsNb := DetachVertex(verticesArcs, id);
      arcsNumber := arcsNumber - predsNb;
      arcsNumber := arcsNumber - succsNb;
      verticesData := verticesData - {ref};
      verticesArcs := arcs;
      removed := true;
    }

    /** remove(vertex): an unknown payload gives false; otherwise the vertex of its
        identifier is removed. */
    method RemoveVertexByPayload(v: V) returns (removed: bool, o: Outcome)
      requires Valid()
      modifies this`arcsNumber, this`verticesData, this`verticesArcs, this`erased
      ensures Valid()
      ensures removed <==> v in old(verticesData) && old(verticesData)[v] in old(verticesArcs) && old(verticesData)[v] !in old(erased)
      ensures o.Fail? <==> v in old(verticesData) && old(verticesData)[v] in old(erased)
      ensures o.Fail? ==> o.error == DanglingPointer
      ensures !removed ==>
        && verticesArcs == old(verticesArcs) && verticesData == old(verticesData)
        && arcsNumber == old(arcsNumber) && erased == old(erased)
      ensures removed ==>
        var id := old(verticesData)[v];
        && verticesArcs == Detach(old(verticesArcs), id)
        && verticesData == old(verticesData) - {old(verticesArcs)[id].vertexRef}
        && erased == old(erased) + old(Sharers(id))
        && arcsNumber == old(arcsNumber) - |old(verticesArcs)[id].predecessors| - |old(verticesArcs)[id].successors.Keys - {id}|
    {
      if v !in verticesData {
        return false, Pass;
      }
      removed, o := RemoveVertex(verticesData[v]);
    }

    /** remove(id1, id2): false when either vertex or the arc is missing; otherwise the arc is
        erased on both sides and the counter drops by one. */
    method RemoveArcBetween(id1: VertexId, id2: VertexId) returns (removed: bool)
      requires Valid()
      modifies this`arcsNumber, this`verticesArcs
      ensures Valid()
      ensures removed <==> ArcId(id1, id2) in old(ArcSet(verticesArcs))
      ensures !removed ==> verticesArcs == old(verticesArcs) && arcsNumber == old(arcsNumber)
      ensures removed ==>
        && id1 in old(verticesArcs) && id2 in old(verticesArcs)
        && verticesArcs == UnlinkArc(old(verticesArcs), id1, id2)
        && arcsNumber == old(arcsNumber) - 1
    {
      ArcExistsIff(verticesArcs, id1, id2);
      if id1 !in verticesArcs || id2 !in verticesArcs {
        return false;
      }
      if id2 !in verticesArcs[id1].successors {
        return false;
      }
      UnlinkArcEffect(verticesArcs, id1, id2);
      SameRefsKeepLive(verticesArcs, UnlinkArc(verticesArcs, id1, id2), verticesData, erased);
      verticesArcs := UnlinkArc(verticesArcs, id1, id2);
      arcsNumber := arcsNumber - 1;
      removed := true;
    }

    /** remove(arcId): false when an endpoint is missing; otherwise remove(tail, head). */
    method RemoveArc(arc: ArcId) returns (removed: bool)
      requires Valid()
      modifies this`arcsNumber, this`verticesArcs
      ensures Valid()
      ensures removed <==> arc in old(ArcSet(verticesArcs))
      ensures !removed ==> verticesArcs == old(verticesArcs) && arcsNumber == old(arcsNumber)
      ensures removed ==> verticesArcs == UnlinkArc(old(verticesArcs), arc.tail, arc.head) && arcsNumber == old(arcsNumber) - 1
    {
      ArcSetMembership(verticesArcs, arc);
      if arc.tail !in verticesArcs || arc.head !in verticesArcs {
        return false;
      }
      removed := RemoveArcBetween(arc.tail, arc.head);
    }

    /** remove(vertex1, vertex2) as it is evidently meant: look both payloads up and remove the
        arc between their identifiers (RemoveArcByPayloadsAsWritten is the code as written). */
    method RemoveArcByPayloads(v1: V, v2: V) returns (removed: bool)
      requires Valid()
      modifies this`arcsNumber, this`verticesArcs
      ensures Valid()
      ensures removed <==> v1 in verticesData && v2 in verticesData && ArcId(verticesData[v1], verticesData[v2]) in old(ArcSet(verticesArcs))
      ensures !removed ==> verticesArcs == old(verticesArcs) && arcsNumber == old(arcsNumber)
      ensures removed ==> verticesArcs == UnlinkArc(old(verticesArcs), verticesData[v1], verticesData[v2]) && arcsNumber == old(arcsNumber) - 1
    {
      if v1 !in verticesData || v2 !in verticesData {
        return false;
      }
      removed := RemoveArcBetween(verticesData[v1], verticesData[v2]);
    }

    // ------------------------------------------------------------ lookups

    /** vertex(v): the identifier of a payload, IllegalVertexID when it is absent. */
    function VertexIdOf(v: V): (id: VertexId)
      reads this
      ensures v in verticesData ==> id == verticesData[v]
      ensures v !in verticesData ==> id == IllegalVertexId
    {
      if v in verticesData then verticesData[v] else IllegalVertexId
    }

    /** vertex(id): the payload of a vertex; an unknown identifier throws invalid_argument, and
        dereferencing the iterator of a dangling vertex is undefined behaviour. */
    function VertexOf(id: VertexId): (r: Result<V>)
      reads this
      requires Valid()
      ensures r.Ok? <==> id in verticesArcs && id !in erased
      ensures r.Ok? ==> r.value == verticesArcs[id].vertexRef && r.value in verticesData
      ensures r.Err? ==> r.error == (if id in verticesArcs then DanglingPointer else NotFound)
    {
      if id !in verticesArcs then Err(NotFound)
      else if id in erased then Err(DanglingPointer)
      else Ok(verticesArcs[id].vertexRef)
    }

    /** arc(id1, id2): the arc identifier when the arc is stored, IllegalArcID otherwise. */
    function ArcBetween(id1: VertexId, id2: VertexId): (r: ArcId)
      reads this
      requires Valid()
      ensures ArcId(id1, id2) in ArcSet(verticesArcs) ==> r == ArcId(id1, id2)
      ensures ArcId(id1, id2) !in ArcSet(verticesArcs) ==> r == IllegalArcId
    {
      ArcExistsIff(verticesArcs, id1, id2);
      if id1 !in verticesArcs || id2 !in verticesArcs then IllegalArcId
      else if id2 !in verticesArcs[id1].successors then IllegalArcId
      else ArcId(id1, id2)
    }

    /** arc(v1, v2): IllegalArcID when a payload is absent, otherwise arc(id1, id2). */
    function ArcBetweenPayloads(v1: V, v2: V): (r: ArcId)
      reads this
      requires Valid()
      ensures r != IllegalArcId ==> v1 in verticesData && v2 in verticesData && r == ArcId(verticesData[v1], verticesData[v2]) && r in ArcSet(verticesArcs)
      ensures (v1 in verticesData && v2 in verticesData && ArcId(verticesData[v1], verticesData[v2]) in ArcSet(verticesArcs)) ==> r == ArcId(verticesData[v1], verticesData[v2])
    {
      if v1 !in verticesData || v2 !in verticesData then IllegalArcId
      else ArcBetween(verticesData[v1], verticesData[v2])
    }

    /** arc(arcId): the payload of a stored arc; each missing part throws invalid_argument. */
    function ArcData(arc: ArcId): (r: Result<A>)
      reads this
      requires Valid()
      ensures r.Ok? <==> arc in ArcSet(verticesArcs)
      ensures r.Ok? ==> r.value == verticesArcs[arc.tail].successors[arc.head]
      ensures r.Err? ==> r.error == NotFound
    {
      ArcSetMembership(verticesArcs, arc);
      if arc.tail !in verticesArcs || arc.head !in verticesArcs then Err(NotFound)
      else if arc.head !in verticesArcs[arc.tail].successors then Err(NotFound)
      else Ok(verticesArcs[arc.tail].successors[arc.head])
    }

    /** predecessors(id): a copy of the predecessor set, empty for an unknown identifier. */
    function PredecessorsOf(id: VertexId): (r: set<VertexId>)
      reads this
      requires Valid()
      ensures forall t :: t in r <==> ArcId(t, id) in ArcSet(verticesArcs)
    {
      ArcsIntoStored(verticesArcs, id);
      if id in verticesArcs then verticesArcs[id].predecessors else {}
    }

    /** predecessors(v): an unknown payload has no predecessors. */
    function PredecessorsOfPayload(v: V): (r: set<VertexId>)
      reads this
      requires Valid()
      ensures v !in verticesData ==> r == {}
      ensures v in verticesData ==> forall t :: t in r <==> ArcId(t, verticesData[v]) in ArcSet(verticesArcs)
    {
      if v in verticesData then PredecessorsOf(verticesData[v]) else {}
    }

    // ------------------------------------------------------------ probes and counts

    /** isEmpty: no vertex is stored. */
    predicate IsEmpty()
      reads this
      ensures IsEmpty() ==> ArcSet(verticesArcs) == {}
    {
      ArcSetEmpty(verticesArcs);
      verticesArcs == map[]
    }

    /** exists(v): the payload is in the payload table. */
    predicate ExistsPayload(v: V)
      reads this
      ensures !ExistsPayload(v) ==> VertexIdOf(v) == IllegalVertexId
      ensures ExistsPayload(v) ==> VertexIdOf(v) == verticesData[v]
    {
      v in verticesData
    }

    /** exists(id): a vertex is stored under the identifier. */
    predicate ExistsId(id: VertexId)
      reads this
      requires Valid()
      ensures ExistsId(id) <==> VertexOf(id) != Err(NotFound)
    {
      id in verticesArcs
    }

    /** exists(id1, id2) is `arc(id1, id2) != IllegalArcID`: it answers false for a stored arc
        between two vertices whose identifier is the illegal one. */
    predicate ExistsArcBetween(id1: VertexId, id2: VertexId)
      reads this
      requires Valid()
      ensures ExistsArcBetween(id1, id2) <==> ArcId(id1, id2) in ArcSet(verticesArcs) && ArcId(id1, id2) != IllegalArcId
    {
      ArcBetween(id1, id2) != IllegalArcId
    }

    /** exists(v1, v2) is `arc(v1, v2) != IllegalArcID`. */
    predicate ExistsArcPayloads(v1: V, v2: V)
      reads this
      requires Valid()
      ensures ExistsArcPayloads(v1, v2) ==> v1 in verticesData && v2 in verticesData
      ensures (v1 in verticesData && v2 in verticesData) ==>
        (ExistsArcPayloads(v1, v2) <==> var a := ArcId(verticesData[v1], verticesData[v2]); a in ArcSet(verticesArcs) && a != IllegalArcId)
    {
      ArcBetweenPayloads(v1, v2) != IllegalArcId
    }

    /** exists(arcId): both endpoints are stored and the head is a successor of the tail. */
    predicate ExistsArc(arc: ArcId)
      reads this
      requires Valid()
      ensures ExistsArc(arc) <==> arc in ArcSet(verticesArcs)
    {
      ArcExistsIff(verticesArcs, arc.tail, arc.head);
      arc.tail in verticesArcs && arc.head in verticesArcs && arc.head in verticesArcs[arc.tail].successors
    }

    /** verticesNb: the size of the payload table. Rebinding a vertex to a payload that is
        already present makes it smaller than the number of vertices. */
    function VerticesNb(): (n: nat)
      reads this
      ensures n == |verticesData.Keys|
    {
      |verticesData|
    }

    /** arcsNb(): the counter, equal to the number of stored arcs while no arc was added twice. */
    function ArcsNb(): (n: nat)
      reads this
      requires Valid()
      ensures n >= |ArcSet(verticesArcs)|
      ensures Exact() ==> n == |ArcSet(verticesArcs)|
    {
      arcsNumber
    }

    /** successorsNb(id): the number of successors, 0 for an unknown identifier. */
    function SuccessorsNb(id: VertexId): (n: nat)
      reads this
      ensures n == |ArcsFrom(verticesArcs, id)|
    {
      if id in verticesArcs then
        ArcsFromCard(verticesArcs, id);
        |verticesArcs[id].successors.Keys|
      else 0
    }

    /** arcsNb(id) is the size of arcs(id), which has one arc per successor. */
    function ArcsNbFrom(id: VertexId): (n: nat)
      reads this
      ensures n == |ArcsFrom(verticesArcs, id)|
      ensures n == SuccessorsNb(id)
    {
      SuccessorsNb(id)
    }

    /** predecessorsNb(id): the number of predecessors, 0 for an unknown identifier. */
    function PredecessorsNb(id: VertexId): (n: nat)
      reads this
      requires Valid()
      ensures n == |set a | a in ArcSet(verticesArcs) && a.head == id|
    {
      ArcsIntoCard(verticesArcs, id);
      |PredecessorsOf(id)|
    }

    // ------------------------------------------------------------ enumerations

    /** vertices(): every stored identifier, collected one by one. */
    method Vertices() returns (ids: set<VertexId>)
      ensures ids == verticesArcs.Keys
    {
      ids := {};
      var rest := verticesArcs.Keys;
      while rest != {}
        invariant ids + rest == verticesArcs.Keys && ids !! rest
        decreases |rest|
      {
        var id :| id in rest;
        ids := ids + {id};
        rest := rest - {id};
      }
    }

    /** arcs(id): one arc per successor of the vertex, none for an unknown identifier. */
    method ArcsOf(id: VertexId) returns (arcs: set<ArcId>)
      ensures arcs == ArcsFrom(verticesArcs, id)
    {
      arcs := {};
      if id in verticesArcs {
        arcs := CollectArcs(id, verticesArcs[id].successors.Keys);
      }
    }

    /** arcs(): the arcs of every vertex, gathered vertex by vertex. */
    method Arcs() returns (arcs: set<ArcId>)
      ensures arcs == ArcSet(verticesArcs)
    {
      arcs := {};
      var rest := verticesArcs.Keys;
      while rest != {}
        invariant rest <= verticesArcs.Keys
        invariant arcs == set a | a in ArcSet(verticesArcs) && a.tail !in rest
        decreases |rest|
      {
        var t :| t in rest;
        var out := CollectArcs(t, verticesArcs[t].successors.Keys);
        ArcsFromAreArcs(verticesArcs, t);
        arcs := arcs + out;
        rest := rest - {t};
      }
    }

    /** arcs(v): the arcs of the payload's vertex, none for an unknown payload. */
    method ArcsOfPayload(v: V) returns (arcs: set<ArcId>)
      ensures v !in verticesData ==> arcs == {}
      ensures v in verticesData ==> arcs == ArcsFrom(verticesArcs, verticesData[v])
    {
      arcs := {};
      if v in verticesData {
        arcs := ArcsOf(verticesData[v]);
      }
    }

    /** successors(id): the heads of the arcs leaving the vertex, empty for an unknown one. */
    method SuccessorsOf(id: VertexId) returns (ids: set<VertexId>)
      requires Valid()
      ensures forall h :: h in ids <==> ArcId(id, h) in ArcSet(verticesArcs)
    {
      ids := {};
      if id in verticesArcs {
        var rest := verticesArcs[id].successors.Keys;
        while rest != {}
          invariant ids + rest == verticesArcs[id].successors.Keys && ids !! rest
          decreases |rest|
        {
          var h :| h in rest;
          ids := ids + {h};
          rest := rest - {h};
        }
      }
      forall h ensures h in ids <==> ArcId(id, h) in ArcSet(verticesArcs) {
        ArcSetMembership(verticesArcs, ArcId(id, h));
      }
    }

    /** successors(v): an unknown payload has no successors. */
    method SuccessorsOfPayload(v: V) returns (ids: set<VertexId>)
      requires Valid()
      ensures v !in verticesData ==> ids == {}
      ensures v in verticesData ==> forall h :: h in ids <==> ArcId(verticesData[v], h) in ArcSet(verticesArcs)
    {
      ids := {};
      if v in verticesData {
        ids := SuccessorsOf(verticesData[v]);
      }
    }

    // ------------------------------------------------------------ GraphML export

    /** save(stream): the header, one node line per vertex by ascending identifier, one edge
        line per arc by tail then head, and the closing tags; `written` is the sequence of
        lines and `text` the characters sent to the stream. */
    method Save() returns (written: seq<Line>, text: string)
      ensures written == Lines(name, Ascending(verticesArcs.Keys), OrderedArcs(verticesArcs))
      ensures text == Document(name, verticesArcs)
    {
      var nodes := WriteNodes(verticesArcs.Keys);
      var edges := WriteEdges(verticesArcs);
      written := Prologue(name) + nodes + edges + Epilogue();
      text := Concat(Texts(written));
    }
  }

  /** Only vertices can dangle, and a live reference names a key of `m_verticesData`. */
  ghost predicate RefsLiveIn<V, A>(va: VertexMap<V, A>, vd: map<V, VertexId>, erased: set<VertexId>)
  {
    && erased <= va.Keys
    && forall id :: id in va && id !in erased ==> va[id].vertexRef in vd
  }

  /** The live vertices other than `id` that refer to the same entry as `id`. Live references
      to one payload all name its single entry, so comparing payloads is comparing entries. */
  function SharersIn<V(==), A>(va: VertexMap<V, A>, erased: set<VertexId>, id: VertexId): (r: set<VertexId>)
    requires id in va
    ensures r <= va.Keys - erased - {id}
  {
    set x | x in va && x != id && x !in erased && va[x].vertexRef == va[id].vertexRef
  }

  /** A change of the adjacency that keeps every vertex and its reference keeps the references live. */
  lemma SameRefsKeepLive<V, A>(va: VertexMap<V, A>, vb: VertexMap<V, A>, vd: map<V, VertexId>, erased: set<VertexId>)
    requires RefsLiveIn(va, vd, erased)
    requires vb.Keys == va.Keys && forall k :: k in va ==> vb[k].vertexRef == va[k].vertexRef
    ensures RefsLiveIn(vb, vd, erased)
  {
  }

  /** Erasing the entry of a live vertex together with the vertex leaves exactly the vertices that
      shared the entry dangling; every other live vertex still names a stored payload. */
  lemma DetachKeepsLive<V, A>(va: VertexMap<V, A>, vd: map<V, VertexId>, erased: set<VertexId>, id: VertexId)
    requires RefsLiveIn(va, vd, erased) && id in va && id !in erased
    ensures RefsLiveIn(Detach(va, id), vd - {va[id].vertexRef}, erased + SharersIn(va, erased, id))
  {
    var vb := Detach(va, id);
    forall x | x in vb && x !in erased + SharersIn(va, erased, id)
      ensures vb[x].vertexRef in vd - {va[id].vertexRef}
    {
      assert vb[x].vertexRef == va[x].vertexRef != va[id].vertexRef;
    }
  }

  /** Rebinding a live vertex to a payload leaves the vertices that shared its old entry dangling;
      the vertex itself names the new payload's entry. */
  lemma RebindKeepsLive<V, A>(va: VertexMap<V, A>, vd: map<V, VertexId>, erased: set<VertexId>, id: VertexId, v: V)
    requires RefsLiveIn(va, vd, erased) && id in va && id !in erased
    ensures RefsLiveIn(va[id := va[id].(vertexRef := v)], MapInsert(vd - {va[id].vertexRef}, v, id), erased + SharersIn(va, erased, id))
  {
    var vb := va[id := va[id].(vertexRef := v)];
    var e := erased + SharersIn(va, erased, id);
    forall x | x in vb && x !in e
      ensures vb[x].vertexRef in MapInsert(vd - {va[id].vertexRef}, v, id)
    {
      if x != id {
        assert va[x].vertexRef != va[id].vertexRef;
      }
    }
  }

  /** The adjacency updates of `remove(vertexId)`: every predecessor loses its arc towards the
      vertex, then every successor left loses its arc from it, then the vertex is erased. The
      counts are the sizes of the two sets visited, by which the arc counter drops. */
  method DetachVertex<V, A>(va: VertexMap<V, A>, id: VertexId) returns (r: VertexMap<V, A>, predsNb: nat, succsNb: nat)
    requires Linked(va) && id in va
    ensures r == Detach(va, id)
    ensures predsNb == |va[id].predecessors| && succsNb == |va[id].successors.Keys - {id}|
  {
    NeighboursStored(va, id);
    var preds := va[id].predecessors;
    var arcs := EraseSuccessor(va, id, preds);
    predsNb := |preds|;
    ghost var va1 := arcs;
    arcs := arcs[id := arcs[id].(predecessors := {})];
    DetachInSteps(va, id, va1, arcs);
    var succs := arcs[id].successors.Keys;
    arcs := ErasePredecessor(arcs, id, succs);
    succsNb := |succs|;
    r := arcs - {id};
  }

  /** The loop of `remove(vertexId)` over the predecessors: each one in turn loses `v` from its
      successors. */
  method EraseSuccessor<V, A>(va: VertexMap<V, A>, v: VertexId, from: set<VertexId>) returns (r: VertexMap<V, A>)
    requires from <= va.Keys
    ensures r == DropSuccessor(va, v, from)
  {
    r := va;
    var rest := from;
    while rest != {}
      invariant rest <= from
      invariant r == DropSuccessor(va, v, from - rest)
      decreases |rest|
    {
      var p :| p in rest;
      DropSuccessorStep(va, v, from - rest, p);
      assert from - (rest - {p}) == (from - rest) + {p};
      r := r[p := r[p].(successors := r[p].successors - {v})];
      rest := rest - {p};
    }
    assert from - rest == from;
  }

  /** The loop of `remove(vertexId)` over the successors: each one in turn loses `v` from its
      predecessors. */
  method ErasePredecessor<V, A>(va: VertexMap<V, A>, v: VertexId, from: set<VertexId>) returns (r: VertexMap<V, A>)
    requires from <= va.Keys
    ensures r == DropPredecessor(va, v, from)
  {
    r := va;
    var rest := from;
    while rest != {}
      invariant rest <= from
      invariant r == DropPredecessor(va, v, from - rest)
      decreases |rest|
    {
      var p :| p in rest;
      DropPredecessorStep(va, v, from - rest, p);
      assert from - (rest - {p}) == (from - rest) + {p};
      r := r[p := r[p].(predecessors := r[p].predecessors - {v})];
      rest := rest - {p};
    }
    assert from - rest == from;
  }

  /** The arcs from `t` to each of `heads`, inserted one by one. */
  method CollectArcs(t: VertexId, heads: set<VertexId>) returns (arcs: set<ArcId>)
    ensures arcs == set h | h in heads :: ArcId(t, h)
  {
    arcs := {};
    var rest := heads;
    while rest != {}
      invariant rest <= heads
      invariant arcs == set h | h in heads - rest :: ArcId(t, h)
      decreases |rest|
    {
      var h :| h in rest;
      assert heads - (rest - {h}) == (heads - rest) + {h};
      arcs := arcs + {ArcId(t, h)};
      rest := rest - {h};
    }
    assert heads - rest == heads;
  }

  /** The node lines of `save`, one per identifier, smallest first. */
  method WriteNodes(ids: set<VertexId>) returns (lines: seq<Line>)
    ensures lines == NodeLines(Ascending(ids))
  {
    lines := [];
    var rest := ids;
    ghost var done: seq<VertexId> := [];
    while rest != {}
      invariant Ascending(ids) == done + Ascending(rest)
      invariant lines == NodeLines(done)
      decreases |rest|
    {
      LeastExists(rest);
      var m :| IsLeast(m, rest);
      AscendingLoopStep(ids, done, rest, m);
      NodeLinesSnoc(done, m);
      lines := lines + [Node(m)];
      done := done + [m];
      rest := rest - {m};
    }
    AscendingEmpty();
    assert done == Ascending(ids);
  }

  /** The edge lines for the arcs leaving `t`, by ascending head. */
  method WriteEdgesOf(t: VertexId, heads: set<VertexId>) returns (lines: seq<Line>)
    ensures lines == EdgeLines(ArcsToHeads(t, Ascending(heads)))
  {
    lines := [];
    var rest := heads;
    ghost var done: seq<VertexId> := [];
    while rest != {}
      invariant Ascending(heads) == done + Ascending(rest)
      invariant lines == EdgeLines(ArcsToHeads(t, done))
      decreases |rest|
    {
      LeastExists(rest);
      var m :| IsLeast(m, rest);
      AscendingLoopStep(heads, done, rest, m);
      HeadLinesSnoc(t, done, m);
      lines := lines + [Edge(ArcId(t, m))];
      done := done + [m];
      rest := rest - {m};
    }
    AscendingEmpty();
    assert done == Ascending(heads);
  }

  /** The edge lines of `save`: for each vertex by ascending identifier, its arcs by ascending head. */
  method WriteEdges<V, A>(va: VertexMap<V, A>) returns (lines: seq<Line>)
    ensures lines == EdgeLines(OrderedArcs(va))
  {
    lines := [];
    var rest := va.Keys;
    ghost var done: seq<VertexId> := [];
    while rest != {}
      invariant rest <= va.Keys
      invariant Ascending(va.Keys) == done + Ascending(rest)
      invariant lines == EdgeLines(ArcsOfTails(va, done))
      decreases |rest|
    {
      LeastExists(rest);
      var t :| IsLeast(t, rest);
      AscendingLoopStep(va.Keys, done, rest, t);
      var out := WriteEdgesOf(t, va[t].successors.Keys);
      ArcsOfTailsSnoc(va, done, t);
      EdgeLinesAppend(ArcsOfTails(va, done), ArcsOfTail(va, t));
      lines := lines + out;
      done := done + [t];
      rest := rest - {t};
    }
    AscendingEmpty();
    assert done == Ascending(va.Keys);
  }

  // ------------------------------------------------------------ remove(V, V) as written

  /** remove(vertex1, vertex2) as written: when both payloads are found it calls remove again
      with the two payloads (the keys of the payload map) instead of their identifiers, which
      selects the same overload. `depth` bounds how many nested calls are followed; None
      means the call has not returned after that many. */
  function RemoveArcByPayloadsAsWritten<V>(vd: map<V, VertexId>, v1: V, v2: V, depth: nat): (r: Option<bool>)
    ensures v1 !in vd || v2 !in vd ==> r == Some(false)
    decreases depth
  {
    if v1 !in vd then Some(false)
    else if v2 !in vd then Some(false)
    else if depth == 0 then None
    else RemoveArcByPayloadsAsWritten(vd, v1, v2, depth - 1)
  }

  /** With both payloads present the call never returns, however deep it is followed. */
  lemma {:induction false} RemoveArcByPayloadsNeverReturns<V>(vd: map<V, VertexId>, v1: V, v2: V, depth: nat)
    requires v1 in vd && v2 in vd
    ensures RemoveArcByPayloadsAsWritten(vd, v1, v2, depth) == None
    decreases depth
  {
    if depth > 0 {
      RemoveArcByPayloadsNeverReturns(vd, v1, v2, depth - 1);
    }
  }
}
