// The GraphML 1.0 text that the graph writes to a stream: an XML header, one
// <node> element per vertex in ascending identifier order, then one <edge>
// element per arc ordered by tail and then by head.
module GraphML {
  import opened Common
  import opened OrderedSets
  import opened GraphCore

  // ---------------------------------------------------------------- decimal numbers

  predicate IsDigit(c: char)
  {
    '0' <= c <= '9'
  }

  function DigitChar(d: nat): (c: char)
    requires d < 10
    ensures IsDigit(c) && c as int - '0' as int == d
  {
    ('0' as int + d) as char
  }

  /** `ost << n` for an unsigned integer: its decimal digits, most significant first. */
  function Decimal(n: nat): string
    decreases n
  {
    if n < 10 then [DigitChar(n)] else Decimal(n / 10) + [DigitChar(n % 10)]
  }

  function DigitValue(c: char): (d: nat)
    requires IsDigit(c)
    ensures d < 10 && DigitChar(d) == c
  {
    c as int - '0' as int
  }

  function ParseDecimal(s: string): nat
    requires forall i :: 0 <= i < |s| ==> IsDigit(s[i])
    decreases |s|
  {
    if s == [] then 0 else ParseDecimal(s[..|s| - 1]) * 10 + DigitValue(s[|s| - 1])
  }

  /** The decimal form is made of digits, has no leading zero, and reads back as the number. */
  lemma {:induction false} DecimalRoundTrip(n: nat)
    ensures |Decimal(n)| > 0 && forall i :: 0 <= i < |Decimal(n)| ==> IsDigit(Decimal(n)[i])
    ensures |Decimal(n)| > 1 ==> Decimal(n)[0] != '0'
    ensures ParseDecimal(Decimal(n)) == n
    decreases n
  {
    if n >= 10 {
      DecimalRoundTrip(n / 10);
      var s := Decimal(n);
      assert s[..|s| - 1] == Decimal(n / 10);
    }
  }

  // ---------------------------------------------------------------- arcs in output order

  predicate ArcLess(a: ArcId, b: ArcId)
  {
    a.tail < b.tail || (a.tail == b.tail && a.head < b.head)
  }

  predicate ArcsIncreasing(arcs: seq<ArcId>)
  {
    forall i, j :: 0 <= i < j < |arcs| ==> ArcLess(arcs[i], arcs[j])
  }

  /** The arcs leaving `t` towards the given heads, in the order of the heads. */
  function ArcsToHeads(t: VertexId, heads: seq<VertexId>): (r: seq<ArcId>)
    ensures |r| == |heads|
    ensures forall i :: 0 <= i < |heads| ==> r[i] == ArcId(t, heads[i])
    decreases |heads|
  {
    if heads == [] then [] else ArcsToHeads(t, heads[..|heads| - 1]) + [ArcId(t, heads[|heads| - 1])]
  }

  /** The arcs leaving a stored vertex, by ascending head. */
  ghost function ArcsOfTail<V, A>(va: VertexMap<V, A>, t: VertexId): seq<ArcId>
  {
    if t in va then ArcsToHeads(t, Ascending(va[t].successors.Keys)) else []
  }

  /** The arcs leaving each of the given tails, tail after tail. */
  ghost function ArcsOfTails<V, A>(va: VertexMap<V, A>, tails: seq<VertexId>): seq<ArcId>
    decreases |tails|
  {
    if tails == [] then [] else ArcsOfTails(va, tails[..|tails| - 1]) + ArcsOfTail(va, tails[|tails| - 1])
  }

  /** Every stored arc, ordered by tail and then by head. */
  ghost function OrderedArcs<V, A>(va: VertexMap<V, A>): seq<ArcId>
  {
    ArcsOfTails(va, Ascending(va.Keys))
  }

  lemma ArcsOfTailFacts<V, A>(va: VertexMap<V, A>, t: VertexId)
    ensures forall a :: a in ArcsOfTail(va, t) <==> (t in va && a.tail == t && a.head in va[t].successors)
    ensures ArcsIncreasing(ArcsOfTail(va, t))
  {
    if t in va {
      var heads := Ascending(va[t].successors.Keys);
      AscendingEnumerates(va[t].successors.Keys);
      var r := ArcsOfTail(va, t);
      forall a: ArcId | a in r ensures a.tail == t && a.head in va[t].successors {
        var i :| 0 <= i < |r| && r[i] == a;
        assert heads[i] in heads;
      }
      forall a: ArcId | t in va && a.tail == t && a.head in va[t].successors ensures a in r {
        var i :| 0 <= i < |heads| && heads[i] == a.head;
        assert r[i] == a;
      }
    }
  }

  lemma {:induction false} ArcsOfTailsFacts<V, A>(va: VertexMap<V, A>, tails: seq<VertexId>)
    requires StrictlyIncreasing(tails)
    ensures forall a :: a in ArcsOfTails(va, tails) <==> (a.tail in tails && a.tail in va && a.head in va[a.tail].successors)
    ensures ArcsIncreasing(ArcsOfTails(va, tails))
    decreases |tails|
  {
    if tails != [] {
      var init := tails[..|tails| - 1];
      var last := tails[|tails| - 1];
      assert StrictlyIncreasing(init);
      ArcsOfTailsFacts(va, init);
      ArcsOfTailFacts(va, last);
      var p := ArcsOfTails(va, init);
      var q := ArcsOfTail(va, last);
      assert ArcsOfTails(va, tails) == p + q;
      forall a: ArcId | a.tail in tails ensures a.tail in init || a.tail == last {
        var i :| 0 <= i < |tails| && tails[i] == a.tail;
        if i < |tails| - 1 {
          assert init[i] == a.tail;
        }
      }
      forall x | x in init ensures x < last {
        var i :| 0 <= i < |init| && init[i] == x;
        assert tails[i] == x;
      }
      forall i, j | 0 <= i < j < |p + q| ensures ArcLess((p + q)[i], (p + q)[j]) {
        if i < |p| && j >= |p| {
          assert p[i] in p;
          assert q[j - |p|] in q;
        }
      }
    }
  }

  /** The edges are written once each, exactly the stored arcs, in increasing (tail, head) order. */
  lemma OrderedArcsEnumerate<V, A>(va: VertexMap<V, A>)
    ensures forall a :: a in OrderedArcs(va) <==> a in ArcSet(va)
    ensures ArcsIncreasing(OrderedArcs(va))
    ensures |OrderedArcs(va)| == |ArcSet(va)|
  {
    AscendingEnumerates(va.Keys);
    ArcsOfTailsFacts(va, Ascending(va.Keys));
    forall a ensures a in OrderedArcs(va) <==> a in ArcSet(va) {
      ArcSetMembership(va, a);
    }
    IncreasingArcsCard(OrderedArcs(va));
    assert (set a | a in OrderedArcs(va)) == ArcSet(va);
  }

  /** A strictly increasing sequence has as many elements as its set of elements. */
  lemma {:induction false} IncreasingArcsCard(arcs: seq<ArcId>)
    requires ArcsIncreasing(arcs)
    ensures |set a | a in arcs| == |arcs|
    decreases |arcs|
  {
    if arcs != [] {
      var init := arcs[..|arcs| - 1];
      var last := arcs[|arcs| - 1];
      IncreasingArcsCard(init);
      forall a | a in init ensures ArcLess(a, last) {
        var i :| 0 <= i < |init| && init[i] == a;
        assert arcs[i] == a;
      }
      assert (set a | a in arcs) == (set a | a in init) + {last};
    }
  }

  // ---------------------------------------------------------------- lines of the document

  /** The kinds of line the writer emits, one string each (see Text). */
  datatype Line =
    | XmlDeclaration
    | GraphmlOpen
    | XsiNamespace
    | SchemaLocation
    | GraphOpen(name: Option<string>)
    | Node(id: VertexId)
    | Edge(arc: ArcId)
    | GraphClose
    | GraphmlClose

  /** The characters written for a line, its final newline included. */
  function Text(l: Line): string
  {
    match l
    case XmlDeclaration => "<?xml version=\"1.0\" encoding=\"UTF-8\"?>\n"
    case GraphmlOpen => "<graphml    xmlns=\"http://graphml.graphdrawing.org/xmlns\"\n"
    case XsiNamespace => "            xmlns:xsi=\"http://www.w3.org/2001/XMLSchema-instance\"\n"
    case SchemaLocation =>
      "            xsi:schemaLocation=\"http://graphml.graphdrawing.org/xmlns http://graphml.graphdrawing.org/xmlns/1.0/graphml.xsd\">\n"
    // a graph without a name is written as `_NONAME_`
    case GraphOpen(name) =>
      "\t<graph id=\"" + (if name.Some? then name.value else "_NONAME_") + "\" edgedefault=\"directed\">\n"
    case Node(id) => "\t\t<node id=\"" + Decimal(id) + "\"/>\n"
    case Edge(a) => "\t\t<edge source=\"" + Decimal(a.tail) + "\" target=\"" + Decimal(a.head) + "\"/>\n"
    case GraphClose => "\t</graph>\n"
    case GraphmlClose => "</graphml>\n"
  }

  /** The identifier written in a node line is the vertex identifier. */
  lemma NodeTextRoundTrip(id: VertexId)
    ensures var prefix := "\t\t<node id=\"";
      && |Text(Node(id))| >= |prefix| + 4
      && Text(Node(id))[..|prefix|] == prefix
      && var digits := Text(Node(id))[|prefix|..|Text(Node(id))| - 4];
      && (forall i :: 0 <= i < |digits| ==> IsDigit(digits[i]))
      && ParseDecimal(digits) == id
  {
    DecimalRoundTrip(id);
    var prefix := "\t\t<node id=\"";
    var t := Text(Node(id));
    assert t == prefix + Decimal(id) + "\"/>\n";
    assert t[|prefix|..|t| - 4] == Decimal(id);
  }

  function NodeLines(nodes: seq<VertexId>): (r: seq<Line>)
    ensures |r| == |nodes|
    ensures forall i :: 0 <= i < |nodes| ==> r[i] == Node(nodes[i])
    decreases |nodes|
  {
    if nodes == [] then [] else NodeLines(nodes[..|nodes| - 1]) + [Node(nodes[|nodes| - 1])]
  }

  function EdgeLines(arcs: seq<ArcId>): (r: seq<Line>)
    ensures |r| == |arcs|
    ensures forall i :: 0 <= i < |arcs| ==> r[i] == Edge(arcs[i])
    decreases |arcs|
  {
    if arcs == [] then [] else EdgeLines(arcs[..|arcs| - 1]) + [Edge(arcs[|arcs| - 1])]
  }

  lemma NodeLinesSnoc(nodes: seq<VertexId>, id: VertexId)
    ensures NodeLines(nodes + [id]) == NodeLines(nodes) + [Node(id)]
  {
  }

  lemma EdgeLinesSnoc(arcs: seq<ArcId>, a: ArcId)
    ensures EdgeLines(arcs + [a]) == EdgeLines(arcs) + [Edge(a)]
  {
  }

  lemma EdgeLinesAppend(a: seq<ArcId>, b: seq<ArcId>)
    ensures EdgeLines(a + b) == EdgeLines(a) + EdgeLines(b)
  {
  }

  lemma HeadLinesSnoc(t: VertexId, heads: seq<VertexId>, h: VertexId)
    ensures EdgeLines(ArcsToHeads(t, heads + [h])) == EdgeLines(ArcsToHeads(t, heads)) + [Edge(ArcId(t, h))]
  {
    ArcsToHeadsSnoc(t, heads, h);
    EdgeLinesSnoc(ArcsToHeads(t, heads), ArcId(t, h));
  }

  lemma ArcsToHeadsSnoc(t: VertexId, heads: seq<VertexId>, h: VertexId)
    ensures ArcsToHeads(t, heads + [h]) == ArcsToHeads(t, heads) + [ArcId(t, h)]
  {
  }

  lemma ArcsOfTailsSnoc<V, A>(va: VertexMap<V, A>, tails: seq<VertexId>, t: VertexId)
    ensures ArcsOfTails(va, tails + [t]) == ArcsOfTails(va, tails) + ArcsOfTail(va, t)
  {
    assert (tails + [t])[..|tails|] == tails;
  }

  /** The five lines before the first node. */
  function Prologue(name: Option<string>): seq<Line>
  {
    [XmlDeclaration, GraphmlOpen, XsiNamespace, SchemaLocation, GraphOpen(name)]
  }

  function Epilogue(): seq<Line>
  {
    [GraphClose, GraphmlClose]
  }

  /** The lines of the document written for a graph with the given vertices and arcs. */
  function Lines(name: Option<string>, nodes: seq<VertexId>, arcs: seq<ArcId>): seq<Line>
  {
    Prologue(name) + NodeLines(nodes) + EdgeLines(arcs) + Epilogue()
  }

  /** The strings written for a sequence of lines. */
  function Texts(lines: seq<Line>): (r: seq<string>)
    ensures |r| == |lines|
    ensures forall i :: 0 <= i < |lines| ==> r[i] == Text(lines[i])
  {
    seq(|lines|, i requires 0 <= i < |lines| => Text(lines[i]))
  }

  lemma TextsAppend(a: seq<Line>, b: seq<Line>)
    ensures Texts(a + b) == Texts(a) + Texts(b)
  {
  }

  /** Writing strings one after the other. */
  function Concat(parts: seq<string>): string
    decreases |parts|
  {
    if parts == [] then "" else Concat(parts[..|parts| - 1]) + parts[|parts| - 1]
  }

  lemma {:induction false} ConcatAppend(a: seq<string>, b: seq<string>)
    ensures Concat(a + b) == Concat(a) + Concat(b)
    decreases |b|
  {
    if b == [] {
      assert a + b == a;
    } else {
      var init, last := b[..|b| - 1], b[|b| - 1];
      ConcatAppend(a, init);
      assert (a + b)[..|a + b| - 1] == a + init;
      assert (a + b)[|a + b| - 1] == last;
      assert Concat(a + b) == Concat(a) + Concat(init) + last;
      assert Concat(b) == Concat(init) + last;
    }
  }

  /** The whole document for a graph. */
  ghost function Document<V, A>(name: Option<string>, va: VertexMap<V, A>): string
  {
    Concat(Texts(Lines(name, Ascending(va.Keys), OrderedArcs(va))))
  }

  /** The document opens with the four header lines and the `<graph>` line, has one line per
      node and then one per arc, and closes with the two closing tags. */
  lemma LinesLayout(name: Option<string>, nodes: seq<VertexId>, arcs: seq<ArcId>)
    ensures var lines := Lines(name, nodes, arcs);
      && |lines| == 7 + |nodes| + |arcs|
      && lines[..5] == [XmlDeclaration, GraphmlOpen, XsiNamespace, SchemaLocation, GraphOpen(name)]
      && (forall i :: 0 <= i < |nodes| ==> lines[5 + i] == Node(nodes[i]))
      && (forall i :: 0 <= i < |arcs| ==> lines[5 + |nodes| + i] == Edge(arcs[i]))
      && lines[5 + |nodes| + |arcs|..] == [GraphClose, GraphmlClose]
  {
    var lines := Lines(name, nodes, arcs);
    var pre := Prologue(name);
    var nl := NodeLines(nodes);
    var el := EdgeLines(arcs);
    forall i | 0 <= i < |nodes| ensures lines[5 + i] == Node(nodes[i]) {
      assert lines[5 + i] == nl[i];
    }
    forall i | 0 <= i < |arcs| ensures lines[5 + |nodes| + i] == Edge(arcs[i]) {
      assert lines[5 + |nodes| + i] == el[i];
    }
  }

  /** The document lists every vertex once, by ascending identifier, and every stored arc
      once, by tail then head. */
  lemma DocumentOrder<V, A>(va: VertexMap<V, A>)
    ensures |Ascending(va.Keys)| == |va| && |OrderedArcs(va)| == |ArcSet(va)|
    ensures forall id :: id in Ascending(va.Keys) <==> id in va
    ensures StrictlyIncreasing(Ascending(va.Keys))
    ensures forall a :: a in OrderedArcs(va) <==> a in ArcSet(va)
    ensures ArcsIncreasing(OrderedArcs(va))
  {
    AscendingEnumerates(va.Keys);
    assert |va.Keys| == |va|;
    OrderedArcsEnumerate(va);
  }
}
