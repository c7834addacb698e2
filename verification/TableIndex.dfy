/** The routes whose flows touch each table (internal/views/views.go). */
module TableIndex {
  import opened CodeGraph
  import opened FlowTree
  import opened Ordering
  import opened Flow
  import opened FlowBuild
  import Text

  datatype TableRoute = TableRoute(route: string, op: string)

  type Index = map<string, seq<TableRoute>>

  function Entries(out: Index, table: string): seq<TableRoute> { if table in out then out[table] else [] }

  function Op(s: Step): string { Attr(s.edge.attrs, "op") }

  predicate IsTable(s: Step) { s.node.kind == SQLTable }

  /** The steps in the order `flow.Walk` visits them. */
  function Preorder(s: Step): seq<Step>
    decreases s, 1
  {
    [s] + PreorderAll(s.children)
  }

  function PreorderAll(cs: seq<Step>): seq<Step>
    decreases cs, 0
  {
    if cs == [] then [] else PreorderAll(cs[..|cs| - 1]) + Preorder(cs[|cs| - 1])
  }

  /** The operations after one more step. */
  function OpsAfter(before: seq<string>, s: Step, t: string): seq<string> {
    if IsTable(s) && s.node.name == t && Op(s) !in before then before + [Op(s)] else before
  }

  /** The distinct operations on `table` in a list of steps, in order of first occurrence. */
  function Ops(steps: seq<Step>, table: string): seq<string> {
    if steps == [] then []
    else
      OpsAfter(Ops(steps[..|steps| - 1], table), steps[|steps| - 1], table)
  }

  function Block(route: string, ops: seq<string>): seq<TableRoute> {
    seq(|ops|, i requires 0 <= i < |ops| => TableRoute(route, ops[i]))
  }

  /** What the index lists under `table`: one block per route, in route order. */
  function Listed(trees: seq<Step>, table: string): seq<TableRoute> {
    if trees == [] then []
    else
      var last := trees[|trees| - 1];
      Listed(trees[..|trees| - 1], table) + Block(last.node.name, Ops(Preorder(last), table))
  }

  // ---- The indexing pass ----

  /** Entries after `steps` of a route's tree, starting from `out` with nothing seen. */
  ghost predicate Indexed(out: Index, seen: set<(string, string)>, before: Index, steps: seq<Step>, route: string) {
    && (forall t :: Entries(out, t) == Entries(before, t) + Block(route, Ops(steps, t)))
    && SeenOps(seen, steps)
  }

  ghost predicate SeenOps(seen: set<(string, string)>, steps: seq<Step>) {
    forall t, op :: (t, op) in seen <==> op in Ops(steps, t)
  }

  lemma IndexSkip(out: Index, seen: set<(string, string)>, before: Index, steps: seq<Step>, route: string, s: Step)
    requires Indexed(out, seen, before, steps, route) && (IsTable(s) ==> (s.node.name, Op(s)) in seen)
    ensures Indexed(out, seen, before, steps + [s], route)
  {
    assert (steps + [s])[..|steps|] == steps;
    forall t ensures Ops(steps + [s], t) == Ops(steps, t) {
      if IsTable(s) && s.node.name == t { assert (t, Op(s)) in seen; }
    }
  }

  lemma OpsNext(steps: seq<Step>, s: Step, t: string)
    requires IsTable(s) && Op(s) !in Ops(steps, s.node.name)
    ensures Ops(steps + [s], t) == if t == s.node.name then Ops(steps, t) + [Op(s)] else Ops(steps, t)
  {
    OpsPush(steps, s, t);
  }

  lemma OpsPush(steps: seq<Step>, s: Step, t: string)
    ensures Ops(steps + [s], t) == OpsAfter(Ops(steps, t), s, t)
  {
    var more := steps + [s];
    assert more[..|more| - 1] == steps && more[|more| - 1] == s;
  }

  lemma IndexAdd(out: Index, seen: set<(string, string)>, before: Index, steps: seq<Step>, route: string, s: Step)
    requires Indexed(out, seen, before, steps, route) && IsTable(s) && (s.node.name, Op(s)) !in seen
    ensures Indexed(out[s.node.name := Entries(out, s.node.name) + [TableRoute(route, Op(s))]],
                    seen + {(s.node.name, Op(s))}, before, steps + [s], route)
  {
    var t := s.node.name;
    var out' := out[t := Entries(out, t) + [TableRoute(route, Op(s))]];
    forall u ensures Entries(out', u) == Entries(before, u) + Block(route, Ops(steps + [s], u)) {
      OpsNext(steps, s, u);
      if u == t {
        assert Block(route, Ops(steps, t) + [Op(s)]) == Block(route, Ops(steps, t)) + [TableRoute(route, Op(s))];
        ConcatAssoc(Entries(before, t), Block(route, Ops(steps, t)), [TableRoute(route, Op(s))]);
      } else {
        assert Entries(out', u) == Entries(out, u);
      }
    }
    SeenNext(seen, steps, s);
  }

  lemma SeenNext(seen: set<(string, string)>, steps: seq<Step>, s: Step)
    requires SeenOps(seen, steps) && IsTable(s) && (s.node.name, Op(s)) !in seen
    ensures SeenOps(seen + {(s.node.name, Op(s))}, steps + [s])
  {
    forall u ensures Ops(steps + [s], u) == if u == s.node.name then Ops(steps, u) + [Op(s)] else Ops(steps, u) {
      OpsNext(steps, s, u);
    }
  }

  class Indexer {
    var out: Index
    var seen: set<(string, string)>

    constructor ()
      ensures out == map[] && seen == {}
    {
      out, seen := map[], {};
    }

    /** `flow.Walk` with the callback of `TableRoutes`; `done` are the steps visited before. */
    method Walk(s: Step, route: string, ghost before: Index, ghost done: seq<Step>)
      requires Indexed(out, seen, before, done, route)
      modifies this
      ensures Indexed(out, seen, before, done + Preorder(s), route)
      decreases s
    {
      Visit(s, route, before, done);
      ghost var visited := done + [s];
      for i := 0 to |s.children|
        invariant Indexed(out, seen, before, visited, route)
        invariant visited == done + [s] + PreorderAll(s.children[..i])
      {
        NextPrefix(s.children, i);
        Walk(s.children[i], route, before, visited);
        visited := visited + Preorder(s.children[i]);
        VisitedNext(done, s, i);
      }
      WholePrefix(s.children);
      ConcatAssoc(done, [s], PreorderAll(s.children));
    }

    /** The callback: a table step that was not seen yet is listed. */
    method Visit(s: Step, route: string, ghost before: Index, ghost done: seq<Step>)
      requires Indexed(out, seen, before, done, route)
      modifies this
      ensures Indexed(out, seen, before, done + [s], route)
    {
      if s.node.kind != SQLTable {
        IndexSkip(out, seen, before, done, route, s);
        return;
      }
      var key := (s.node.name, Op(s));
      if key in seen {
        IndexSkip(out, seen, before, done, route, s);
      } else {
        IndexAdd(out, seen, before, done, route, s);
        seen := seen + {key};
        out := out[s.node.name := Entries(out, s.node.name) + [TableRoute(route, Op(s))]];
      }
    }
  }

  lemma VisitedNext(done: seq<Step>, s: Step, i: nat)
    requires i < |s.children|
    ensures done + [s] + PreorderAll(s.children[..i]) + Preorder(s.children[i])
            == done + [s] + PreorderAll(s.children[..i + 1])
  {
    assert s.children[..i + 1][..i] == s.children[..i];
    ConcatAssoc(done + [s], PreorderAll(s.children[..i]), Preorder(s.children[i]));
  }

  // ---- Route order ----

  /** By file, line and ID. */
  predicate RouteBefore(a: Node, b: Node) {
    if a.pos.file != b.pos.file then Text.Le(a.pos.file, b.pos.file)
    else if a.pos.startLine != b.pos.startLine then a.pos.startLine < b.pos.startLine
    else Text.Le(a.id, b.id)
  }

  function ByPosition(): (Node, Node) -> bool { (a: Node, b: Node) => RouteBefore(a, b) }

  lemma RoutesAreOrdered()
    ensures TotalPreorder(ByPosition())
  {
    forall a, b ensures RouteBefore(a, b) || RouteBefore(b, a) {
      Text.LeTotal(a.pos.file, b.pos.file);
      Text.LeTotal(a.id, b.id);
    }
    forall a, b, c | RouteBefore(a, b) && RouteBefore(b, c) ensures RouteBefore(a, c) {
      Text.LeTotal(a.pos.file, b.pos.file);
      if a.pos.file == b.pos.file == c.pos.file {
        if a.pos.startLine == b.pos.startLine == c.pos.startLine { Text.LeTransitive(a.id, b.id, c.id); }
      } else {
        if Text.Le(a.pos.file, b.pos.file) && Text.Le(b.pos.file, c.pos.file) {
          Text.LeTransitive(a.pos.file, b.pos.file, c.pos.file);
        }
        Text.LeTotal(b.pos.file, c.pos.file);
      }
    }
  }

  /** The route nodes, in registration order. */
  method Routes(g: Graph) returns (routes: seq<Node>)
    requires g.Valid()
    ensures forall n :: n in routes <==> n.id in g.nodes && n == g.nodes[n.id] && n.kind == Route
    ensures Distinct(routes) && SortedBy(routes, ByPosition())
  {
    var found: seq<Node> := [];
    var left := g.nodes.Keys;
    while left != {}
      invariant left <= g.nodes.Keys
      invariant forall n :: n in found <==> n.id in g.nodes && n.id !in left && n == g.nodes[n.id] && n.kind == Route
      invariant Distinct(found)
      decreases left
    {
      var id :| id in left;
      left := left - {id};
      if g.nodes[id].kind == Route { found := found + [g.nodes[id]]; }
    }
    routes := Sort(found, ByPosition());
    RoutesAreOrdered();
    SortSorts(found, ByPosition());
    SortPermutes(found, ByPosition());
    SameElements(routes, found);
    PermutedDistinct(found, routes);
  }

  // ---- What the index lists ----

  /** The documented edge kinds: only `queries` edges lead to tables. */
  ghost predicate CallsLeadToCode(g: Graph)
    requires g.Valid()
  {
    forall e :: e in g.edges && (IsCallKind(e.kind) || e.kind == HandledBy) ==> g.nodes[e.to].kind != SQLTable
  }

  /** Sink `s` has a `queries` edge of operation `op` to the table. */
  ghost predicate QueriesTable(g: Graph, s: string, table: string, op: string)
    requires g.Valid()
  {
    exists e :: QueryEdge(g, e, s, table, op)
  }

  ghost predicate QueryEdge(g: Graph, e: Edge, s: string, table: string, op: string)
    requires g.Valid()
  {
    e in g.edges && e.from == s && e.kind == Queries && g.nodes[e.to].kind == SQLTable &&
      g.nodes[e.to].name == table && Attr(e.attrs, "op") == op
  }

  /** The route reaches a sink that performs `op` on the table. */
  ghost predicate Touches(q: Query, table: string, op: string)
    requires q.Valid()
  {
    exists s :: q.FlowReaches(s) && QueriesTable(q.g, s, table, op)
  }

  ghost predicate Shows(s: Step, table: string, op: string) {
    IsTable(s) && s.node.name == table && Op(s) == op
  }

  ghost predicate AnyShows(steps: seq<Step>, table: string, op: string) {
    exists s :: s in steps && Shows(s, table, op)
  }

  lemma AnyShowsConcat(a: seq<Step>, b: seq<Step>, table: string, op: string)
    ensures AnyShows(a + b, table, op) <==> AnyShows(a, table, op) || AnyShows(b, table, op)
  {
    assert forall s :: s in a + b <==> s in a || s in b;
    if s :| s in a && Shows(s, table, op) { assert s in a + b; }
    if s :| s in b && Shows(s, table, op) { assert s in a + b; }
  }

  lemma AnyShowsOne(s: Step, table: string, op: string)
    ensures AnyShows([s], table, op) <==> Shows(s, table, op)
  {
    assert s in [s];
  }

  lemma {:induction false} OpsMembers(steps: seq<Step>, table: string, op: string)
    ensures op in Ops(steps, table) <==> AnyShows(steps, table, op)
  {
    if steps != [] {
      var (front, last) := (steps[..|steps| - 1], steps[|steps| - 1]);
      OpsMembers(front, table, op);
      assert steps == front + [last];
      AnyShowsConcat(front, [last], table, op);
      AnyShowsOne(last, table, op);
    }
  }

  lemma {:induction false} OpsDistinct(steps: seq<Step>, table: string)
    ensures Distinct(Ops(steps, table))
  {
    if steps != [] { OpsDistinct(steps[..|steps| - 1], table); }
  }

  /** A tree shows the operation on the table under some sink. */
  ghost predicate SinkQueries(q: Query, tags: multiset<Tag>, table: string, op: string)
    requires q.Valid()
  {
    exists x :: Sink(x) in tags && QueriesTable(q.g, x, table, op)
  }

  lemma SinkQueriesUnion(q: Query, s: multiset<Tag>, t: multiset<Tag>, table: string, op: string)
    requires q.Valid()
    ensures SinkQueries(q, s + t, table, op) <==> SinkQueries(q, s, table, op) || SinkQueries(q, t, table, op)
  {
    if x :| Sink(x) in s && QueriesTable(q.g, x, table, op) { assert Sink(x) in s + t; }
    if x :| Sink(x) in t && QueriesTable(q.g, x, table, op) { assert Sink(x) in s + t; }
  }

  lemma RowsShown(q: Query, x: string, table: string, op: string)
    requires q.Valid()
    ensures AnyShows(q.Tables(x), table, op) <==> QueriesTable(q.g, x, table, op)
  {
    if AnyShows(q.Tables(x), table, op) { RowIsQueried(q, x, table, op); }
    if QueriesTable(q.g, x, table, op) { QueriedIsRow(q, x, table, op); }
  }

  lemma RowIsQueried(q: Query, x: string, table: string, op: string)
    requires q.Valid() && AnyShows(q.Tables(x), table, op)
    ensures QueriesTable(q.g, x, table, op)
  {
    var s :| s in q.Tables(x) && Shows(s, table, op);
    var i :| 0 <= i < |q.Tables(x)| && q.Tables(x)[i] == s;
    TableRow(q, x, i);
    assert QueryEdge(q.g, s.edge, x, table, op);
  }

  lemma QueriedIsRow(q: Query, x: string, table: string, op: string)
    requires q.Valid() && QueriesTable(q.g, x, table, op)
    ensures AnyShows(q.Tables(x), table, op)
  {
    var e :| QueryEdge(q.g, e, x, table, op);
    var i := RowOf(q, x, e);
    assert Shows(q.Tables(x)[i], table, op);
  }

  lemma TableRow(q: Query, x: string, i: nat)
    requires q.Valid() && i < |q.Tables(x)|
    ensures var s := q.Tables(x)[i];
      s.edge in q.g.edges && s.edge.from == x && s.edge.kind == Queries && s.node == q.g.nodes[s.edge.to]
  {
    NextPrefix(q.g.Out(x, {Queries}), i);
  }

  lemma RowOf(q: Query, x: string, e: Edge) returns (i: nat)
    requires q.Valid() && e in q.g.edges && e.from == x && e.kind == Queries
    ensures i < |q.Tables(x)| && q.Tables(x)[i] == NewStep(q.g.nodes[e.to], e) && q.Tables(x)[i] in q.Tables(x)
  {
    var nbs := q.g.Out(x, {Queries});
    assert Neighbor(e, q.g.nodes[e.to]) in nbs;
    i :| 0 <= i < |nbs| && nbs[i] == Neighbor(e, q.g.nodes[e.to]);
  }

  /** The rows of a sink have no children of their own. */
  lemma {:induction false} PreorderRows(cs: seq<Step>)
    requires forall c :: c in cs ==> c.children == []
    ensures PreorderAll(cs) == cs
  {
    if cs != [] {
      PreorderRows(cs[..|cs| - 1]);
      assert Preorder(cs[|cs| - 1]) == [cs[|cs| - 1]];
      assert cs == cs[..|cs| - 1] + [cs[|cs| - 1]];
    }
  }

  /** Table steps appear exactly under the sinks a tree shows. */
  lemma {:induction false} TreeShows(q: Query, s: Step, path: seq<string>, table: string, op: string)
    requires q.Valid() && CallsLeadToCode(q.g) && WellFormed(q, s, path) && !IsTable(s)
    ensures AnyShows(Preorder(s), table, op) <==> SinkQueries(q, Tags(s), table, op)
    decreases s
  {
    AnyShowsConcat([s], PreorderAll(s.children), table, op);
    AnyShowsOne(s, table, op);
    SinkQueriesUnion(q, multiset{Own(s)}, Below(s), table, op);
    if Own(s).Sink? {
      SinkShows(q, s, table, op);
    } else if Own(s).Body? {
      CodeChildren(q, s, path);
      ForestShows(q, s.children, path + [s.node.id], table, op);
    }
  }

  /** A sink shows the tables it queries. */
  lemma SinkShows(q: Query, s: Step, table: string, op: string)
    requires q.Valid() && Own(s) == Sink(s.node.id) && s.children == q.Tables(s.node.id)
    ensures AnyShows(PreorderAll(s.children), table, op) <==> QueriesTable(q.g, s.node.id, table, op)
    ensures SinkQueries(q, multiset{Own(s)}, table, op) <==> QueriesTable(q.g, s.node.id, table, op)
    ensures !SinkQueries(q, RowTags(s.children), table, op)
  {
    PreorderRows(s.children);
    RowsShown(q, s.node.id, table, op);
    OneSinkQueries(q, s.node.id, table, op);
    RowTagsAreRows(s.children);
  }

  lemma OneSinkQueries(q: Query, x: string, table: string, op: string)
    requires q.Valid()
    ensures SinkQueries(q, multiset{Sink(x)}, table, op) <==> QueriesTable(q.g, x, table, op)
  {
    assert Sink(x) in multiset{Sink(x)};
  }

  /** What a function calls is no table. */
  lemma CodeChildren(q: Query, s: Step, path: seq<string>)
    requires q.Valid() && CallsLeadToCode(q.g) && WellFormed(q, s, path) && Own(s).Body?
    ensures forall c :: c in s.children ==> !IsTable(c) && WellFormed(q, c, path + [s.node.id])
  {
    forall c | c in s.children ensures !IsTable(c) && WellFormed(q, c, path + [s.node.id]) {
      assert CallStep(q, s.node.id, c);
    }
  }

  function Below(s: Step): multiset<Tag> {
    if IsSink(s.node) then RowTags(s.children) else TagsOf(s.children)
  }

  lemma {:induction false} ForestShows(q: Query, cs: seq<Step>, path: seq<string>, table: string, op: string)
    requires q.Valid() && CallsLeadToCode(q.g)
    requires forall c :: c in cs ==> WellFormed(q, c, path) && !IsTable(c)
    ensures AnyShows(PreorderAll(cs), table, op) <==> SinkQueries(q, TagsOf(cs), table, op)
    decreases cs
  {
    if cs != [] {
      var (front, last) := (cs[..|cs| - 1], cs[|cs| - 1]);
      assert cs == front + [last];
      ForestShows(q, front, path, table, op);
      TreeShows(q, last, path, table, op);
      TagsOfConcat(front, [last]);
      assert TagsOf([last]) == Tags(last);
      AnyShowsConcat(PreorderAll(front), Preorder(last), table, op);
      SinkQueriesUnion(q, TagsOf(front), Tags(last), table, op);
    }
  }

  /** The index of one route lists exactly the operations its flow performs on a table, each once. */
  lemma RouteOps(q: Query, root: Step, cut: bool, table: string, op: string)
    requires q.Valid() && CallsLeadToCode(q.g) && Faithful(q, root.children, cut) && !IsTable(root)
    ensures Distinct(Ops(Preorder(root), table))
    ensures op in Ops(Preorder(root), table) ==> Touches(q, table, op)
    ensures !cut ==> (op in Ops(Preorder(root), table) <==> Touches(q, table, op))
  {
    OpsDistinct(Preorder(root), table);
    OpsMembers(Preorder(root), table, op);
    forall c | c in root.children ensures WellFormed(q, c, [q.root]) && !IsTable(c) {
      assert HandlerStep(q, c);
    }
    ForestShows(q, root.children, [q.root], table, op);
    AnyShowsConcat([root], PreorderAll(root.children), table, op);
    AnyShowsOne(root, table, op);
  }

  /** `root` is the flow of `route` with the default options; graphs of up to 16 nodes are never cut. */
  ghost predicate TreeOf(g: Graph, route: Node, root: Step, cut: bool)
    requires g.Valid()
  {
    && route.id in g.nodes && g.nodes[route.id] == route && root.node == route && route.kind == Route
    && Faithful(DefaultQuery(g, route), root.children, cut)
    && (|g.nodes| <= 16 ==> !cut)
  }

  ghost predicate TreesOf(g: Graph, routes: seq<Node>, trees: seq<Step>, cuts: seq<bool>)
    requires g.Valid()
  {
    |trees| == |cuts| <= |routes| && forall i :: 0 <= i < |trees| ==> TreeOf(g, routes[i], trees[i], cuts[i])
  }

  lemma TreesNext(g: Graph, routes: seq<Node>, trees: seq<Step>, cuts: seq<bool>, tree: Step, cut: bool)
    requires g.Valid() && TreesOf(g, routes, trees, cuts) && |trees| < |routes| && TreeOf(g, routes[|trees|], tree, cut)
    ensures TreesOf(g, routes, trees + [tree], cuts + [cut])
  {
    forall i | 0 <= i < |trees| + 1 ensures TreeOf(g, routes[i], (trees + [tree])[i], (cuts + [cut])[i]) {
      assert i < |trees| ==> TreeOf(g, routes[i], trees[i], cuts[i]);
    }
  }

  function DefaultQuery(g: Graph, route: Node): Query
    requires route.id in g.nodes
  {
    QueryFor(g, route.id, Options("", 0, PruneSinks))
  }

  ghost predicate Lists(out: Index, trees: seq<Step>) {
    forall t :: Entries(out, t) == Listed(trees, t)
  }

  lemma BlockMembers(route: string, ops: seq<string>, r: TableRoute)
    ensures r in Block(route, ops) <==> r.route == route && r.op in ops
  {
    if r.route == route && r.op in ops {
      var k :| 0 <= k < |ops| && ops[k] == r.op;
      assert Block(route, ops)[k] == r;
    }
  }

  ghost predicate ListedBy(trees: seq<Step>, i: int, table: string, r: TableRoute) {
    0 <= i < |trees| && trees[i].node.name == r.route && r.op in Ops(Preorder(trees[i]), table)
  }

  lemma {:induction false} ListedMembers(trees: seq<Step>, table: string, r: TableRoute)
    ensures r in Listed(trees, table) <==> exists i :: ListedBy(trees, i, table, r)
  {
    if trees != [] {
      var k := |trees| - 1;
      ListedMembers(trees[..k], table, r);
      BlockMembers(trees[k].node.name, Ops(Preorder(trees[k]), table), r);
      ListedFront(trees, table, r);
    }
  }

  lemma ListedFront(trees: seq<Step>, table: string, r: TableRoute)
    requires trees != []
    ensures var k := |trees| - 1;
            (exists i :: ListedBy(trees, i, table, r)) <==>
            (exists i :: ListedBy(trees[..k], i, table, r)) || ListedBy(trees, k, table, r)
  {
    var k := |trees| - 1;
    if i :| ListedBy(trees[..k], i, table, r) { assert ListedBy(trees, i, table, r); }
    if i :| ListedBy(trees, i, table, r) { assert i < k ==> ListedBy(trees[..k], i, table, r); }
  }

  lemma RouteListed(g: Graph, route: Node, tree: Step, cut: bool, table: string, op: string)
    requires g.Valid() && CallsLeadToCode(g) && TreeOf(g, route, tree, cut)
    ensures tree.node == route && Distinct(Ops(Preorder(tree), table))
    ensures op in Ops(Preorder(tree), table) ==> RouteTouches(g, route, table, op)
    ensures !cut ==> (op in Ops(Preorder(tree), table) <==> RouteTouches(g, route, table, op))
  {
    RouteOps(DefaultQuery(g, route), tree, cut, table, op);
  }

  /** The i-th route has that name and performs that operation on the table. */
  ghost predicate PerformedBy(g: Graph, routes: seq<Node>, i: int, table: string, r: TableRoute)
    requires g.Valid()
  {
    0 <= i < |routes| && routes[i].name == r.route && RouteTouches(g, routes[i], table, r.op)
  }

  lemma ListedIfPerformed(g: Graph, routes: seq<Node>, trees: seq<Step>, cuts: seq<bool>, i: nat, table: string,
                          r: TableRoute)
    requires g.Valid() && CallsLeadToCode(g) && TreesOf(g, routes, trees, cuts) && i < |trees|
    ensures ListedBy(trees, i, table, r) ==> PerformedBy(g, routes, i, table, r)
    ensures !cuts[i] && PerformedBy(g, routes, i, table, r) ==> ListedBy(trees, i, table, r)
  {
    RouteListed(g, routes[i], trees[i], cuts[i], table, r.op);
  }

  /** A route is listed under a table with an operation exactly when its flow performs it there. */
  lemma IndexExact(g: Graph, routes: seq<Node>, trees: seq<Step>, cuts: seq<bool>, out: Index, table: string,
                   r: TableRoute)
    requires g.Valid() && CallsLeadToCode(g) && |trees| == |routes| && TreesOf(g, routes, trees, cuts) &&
             Lists(out, trees)
    requires forall i :: 0 <= i < |cuts| ==> !cuts[i]
    ensures r in Entries(out, table) <==> exists i :: PerformedBy(g, routes, i, table, r)
  {
    ListedMembers(trees, table, r);
    if i :| ListedBy(trees, i, table, r) { ListedIfPerformed(g, routes, trees, cuts, i, table, r); }
    if i :| PerformedBy(g, routes, i, table, r) { ListedIfPerformed(g, routes, trees, cuts, i, table, r); }
  }

  /** Nothing is listed that no route performs, even when flows were cut. */
  lemma IndexSound(g: Graph, routes: seq<Node>, trees: seq<Step>, cuts: seq<bool>, out: Index, table: string,
                   r: TableRoute)
    requires g.Valid() && CallsLeadToCode(g) && |trees| == |routes| && TreesOf(g, routes, trees, cuts) &&
             Lists(out, trees)
    requires r in Entries(out, table)
    ensures exists i :: PerformedBy(g, routes, i, table, r)
  {
    ListedMembers(trees, table, r);
    var i :| ListedBy(trees, i, table, r);
    ListedIfPerformed(g, routes, trees, cuts, i, table, r);
  }

  /** Some route of that name performs the operation on the table. */
  ghost predicate Performed(g: Graph, table: string, r: TableRoute)
    requires g.Valid()
  {
    exists n: Node :: n.kind == Route && n.name == r.route && RouteTouches(g, n, table, r.op)
  }

  ghost predicate AllRoutes(g: Graph, routes: seq<Node>) {
    forall n :: n in routes <==> n.id in g.nodes && n == g.nodes[n.id] && n.kind == Route
  }

  lemma IndexSays(g: Graph, routes: seq<Node>, trees: seq<Step>, cuts: seq<bool>, out: Index, table: string,
                  r: TableRoute)
    requires g.Valid() && CallsLeadToCode(g) && |trees| == |routes| && TreesOf(g, routes, trees, cuts) &&
             Lists(out, trees)
    requires AllRoutes(g, routes)
    ensures r in Entries(out, table) ==> Performed(g, table, r)
    ensures (forall i :: 0 <= i < |cuts| ==> !cuts[i]) && Performed(g, table, r) ==> r in Entries(out, table)
  {
    if r in Entries(out, table) {
      IndexSound(g, routes, trees, cuts, out, table, r);
      var i :| PerformedBy(g, routes, i, table, r);
      assert routes[i] in routes;
    }
    if (forall i :: 0 <= i < |cuts| ==> !cuts[i]) && Performed(g, table, r) {
      IndexExact(g, routes, trees, cuts, out, table, r);
      var n: Node :| n.kind == Route && n.name == r.route && RouteTouches(g, n, table, r.op);
      assert n in routes;
      var i :| 0 <= i < |routes| && routes[i] == n;
      assert PerformedBy(g, routes, i, table, r);
    }
  }

  ghost predicate DistinctNames(trees: seq<Step>) {
    forall i, j :: 0 <= i < j < |trees| ==> trees[i].node.name != trees[j].node.name
  }

  /** With distinct route names, nothing is listed twice. */
  lemma {:induction false} ListedOnce(trees: seq<Step>, table: string)
    requires DistinctNames(trees)
    ensures Distinct(Listed(trees, table))
  {
    if trees != [] {
      var (front, last) := (trees[..|trees| - 1], trees[|trees| - 1]);
      ListedOnce(front, table);
      OpsDistinct(Preorder(last), table);
      var before, block := Listed(front, table), Block(last.node.name, Ops(Preorder(last), table));
      forall r | r in before ensures r !in block {
        ListedMembers(front, table, r);
        BlockMembers(last.node.name, Ops(Preorder(last), table), r);
      }
      DistinctConcat(before, block);
    }
  }

  ghost predicate RouteTouches(g: Graph, route: Node, table: string, op: string)
    requires g.Valid()
  {
    route.id in g.nodes && route == g.nodes[route.id] && IsRoute(route) && Touches(DefaultQuery(g, route), table, op)
  }

  /** `TableRoutes`; `trees` are the flows of the routes, and `cuts` whether the depth limit cut them. */
  method TableRoutes(g: Graph)
    returns (out: Index, ghost routes: seq<Node>, ghost trees: seq<Step>, ghost cuts: seq<bool>)
    requires g.Valid()
    ensures AllRoutes(g, routes) && Distinct(routes) && SortedBy(routes, ByPosition())
    ensures |trees| == |routes| && TreesOf(g, routes, trees, cuts)
    ensures Lists(out, trees)
    ensures CallsLeadToCode(g) ==> forall t, r :: r in Entries(out, t) ==> Performed(g, t, r)
    ensures CallsLeadToCode(g) && (|g.nodes| <= 16 || forall i :: 0 <= i < |cuts| ==> !cuts[i]) ==>
              forall t, r :: Performed(g, t, r) ==> r in Entries(out, t)
  {
    var nodes := Routes(g);
    routes, trees, cuts := nodes, [], [];
    var indexer := new Indexer();
    for i := 0 to |nodes|
      invariant fresh(indexer) && |trees| == i && TreesOf(g, nodes, trees, cuts)
      invariant Lists(indexer.out, trees)
    {
      NextPrefix(nodes, i);
      ghost var tree, cut := IndexRoute(g, nodes[i], indexer, trees);
      TreesNext(g, nodes, trees, cuts, tree, cut);
      trees, cuts := trees + [tree], cuts + [cut];
    }
    out := indexer.out;
    if CallsLeadToCode(g) {
      forall t, r ensures r in Entries(out, t) ==> Performed(g, t, r)
                  ensures (|g.nodes| <= 16 || forall i :: 0 <= i < |cuts| ==> !cuts[i]) && Performed(g, t, r) ==>
                          r in Entries(out, t)
      {
        IndexSays(g, routes, trees, cuts, out, t, r);
      }
    }
  }

  /** The loop body of `TableRoutes`. */
  method IndexRoute(g: Graph, route: Node, indexer: Indexer, ghost trees: seq<Step>)
    returns (ghost tree: Step, ghost cut: bool)
    requires g.Valid() && route.id in g.nodes && g.nodes[route.id] == route && route.kind == Route
    requires Lists(indexer.out, trees)
    modifies indexer
    ensures TreeOf(g, route, tree, cut) && Lists(indexer.out, trees + [tree])
  {
    var r, cut' := Build(g, route.id, Options("", 0, PruneSinks));
    tree, cut := r.root, cut';
    ghost var before := indexer.out;
    indexer.seen := {};
    NothingIndexed(before, route.name);
    indexer.Walk(r.root, route.name, before, []);
    assert [] + Preorder(tree) == Preorder(tree);
    ListedNext(indexer.out, indexer.seen, before, trees, tree);
  }

  lemma ListedNext(out: Index, seen: set<(string, string)>, before: Index, trees: seq<Step>, tree: Step)
    requires Lists(before, trees) && Indexed(out, seen, before, Preorder(tree), tree.node.name)
    ensures Lists(out, trees + [tree])
  {
    assert (trees + [tree])[..|trees|] == trees;
  }

  lemma NothingIndexed(before: Index, route: string)
    ensures Indexed(before, {}, before, [], route)
  {
    forall t ensures Entries(before, t) == Entries(before, t) + Block(route, Ops([], t)) {
      assert Block(route, []) == [];
    }
  }
}
