/** The code graph: typed nodes and edges (internal/graph). */
module CodeGraph {
  import opened Ordering

  datatype NodeKind =
    | Route | Entry | Page | HtmxCall | StaticAsset | Template | Handler | Func | Method | InterfaceCall
    | SinkSQL | SinkFile | SinkHTTP | SinkSMTP | SinkExec | SinkEnv
    | TypeNode | SQLTable | SQLColumn
    | NoKind // the zero value ""

  datatype EdgeKind =
    | NavigatesTo | Requests | Loads | HandledBy | Calls | Implements | DispatchesTo | Renders | UsesType
    | Queries | HasColumn | FK | GuardedBy | Runs
    | NoEdgeKind // the zero value ""

  type Attrs = map<string, string>

  datatype Pos = Pos(file: string, startLine: nat)

  datatype Node = Node(id: string, kind: NodeKind, name: string, pkg: string, detail: string, pos: Pos, attrs: Attrs)

  datatype Edge = Edge(id: nat, from: string, to: string, kind: EdgeKind, attrs: Attrs)

  datatype Neighbor = Neighbor(edge: Edge, node: Node)

  /** Indexing a Go map: the zero value for a missing key. */
  function Attr(attrs: Attrs, key: string): string {
    if key in attrs then attrs[key] else ""
  }

  /** Kinds that start with "sink.". */
  predicate IsSink(n: Node) {
    n.kind in {SinkSQL, SinkFile, SinkHTTP, SinkSMTP, SinkExec, SinkEnv}
  }

  /** A populated graph; `edges` are listed in call-site order, as every query returns them. */
  datatype Graph = Graph(nodes: map<string, Node>, edges: seq<Edge>) {

    /** What the writer and the schema enforce: non-empty unique IDs, edges between known nodes, distinct edge IDs. */
    ghost predicate Valid() {
      && (forall id :: id in nodes ==> id != "" && nodes[id].id == id)
      && (forall e :: e in edges ==> e.from in nodes && e.to in nodes)
      && (forall i, j :: 0 <= i < j < |edges| ==> edges[i].id != edges[j].id)
    }

    /** The nodes that edges of the given kinds lead to from `id`, in call-site order. */
    function Out(id: string, kinds: set<EdgeKind>): (nbs: seq<Neighbor>)
      requires Valid()
      ensures forall nb :: nb in nbs <==>
        nb.edge in edges && nb.edge.from == id && nb.edge.kind in kinds && nb.node == nodes[nb.edge.to]
    {
      Matching(edges, id, kinds)
    }

    function Matching(es: seq<Edge>, id: string, kinds: set<EdgeKind>): (nbs: seq<Neighbor>)
      requires forall e :: e in es ==> e.to in nodes
      ensures forall nb :: nb in nbs <==>
        nb.edge in es && nb.edge.from == id && nb.edge.kind in kinds && nb.node == nodes[nb.edge.to]
    {
      if es == [] then []
      else
        assert forall e :: e in es <==> e == es[0] || e in es[1..];
        var rest := Matching(es[1..], id, kinds);
        if es[0].from == id && es[0].kind in kinds then [Neighbor(es[0], nodes[es[0].to])] + rest else rest
    }
  }

  function EdgeOf(): Neighbor -> Edge { (nb: Neighbor) => nb.edge }

  function Leaves(id: string, kinds: set<EdgeKind>): Edge -> bool { (e: Edge) => e.from == id && e.kind in kinds }

  lemma {:induction false} MatchingInOrder(g: Graph, es: seq<Edge>, id: string, kinds: set<EdgeKind>)
    requires forall e :: e in es ==> e.to in g.nodes
    ensures Map(g.Matching(es, id, kinds), EdgeOf()) == Filter(es, Leaves(id, kinds))
  {
    if es != [] {
      MatchingInOrder(g, es[1..], id, kinds);
      var rest := g.Matching(es[1..], id, kinds);
      MapPrepend(Neighbor(es[0], g.nodes[es[0].to]), rest, EdgeOf());
    }
  }

  /** Each edge that leaves `id` gives one neighbour, in call-site order. */
  lemma OutInOrder(g: Graph, id: string, kinds: set<EdgeKind>)
    requires g.Valid()
    ensures Map(g.Out(id, kinds), EdgeOf()) == Filter(g.edges, Leaves(id, kinds))
    ensures forall nb :: nb in g.Out(id, kinds) ==> nb.node == g.nodes[nb.edge.to]
  {
    MatchingInOrder(g, g.edges, id, kinds);
  }
}
