/** The tables of an ER diagram (internal/views/views.go): a breadth-first search over foreign keys. */
module SchemaView {
  import opened CodeGraph
  import opened Ordering

  datatype Table = Table(node: Node, columns: seq<Node>)

  datatype Result = Drawn(tables: seq<Table>, keys: seq<Edge>) | NotFound

  /** Two nodes joined by a foreign key, either way. */
  predicate Joined(g: Graph, a: string, b: string) {
    exists e :: e in g.edges && e.kind == FK && ((e.from == a && e.to == b) || (e.from == b && e.to == a))
  }

  /** The ends of the foreign keys at `id`: those it has, then those on it. */
  function Neighbors(es: seq<Edge>, id: string): seq<string> {
    Targets(es, id) + Origins(es, id)
  }

  function Targets(es: seq<Edge>, id: string): (ids: seq<string>)
    ensures forall x :: x in ids <==> exists e :: e in es && e.kind == FK && e.from == id && e.to == x
  {
    if es == [] then [] else
    var e := es[0];
    assert forall d :: d in es <==> d == e || d in es[1..];
    (if e.kind == FK && e.from == id then [e.to] else []) + Targets(es[1..], id)
  }

  function Origins(es: seq<Edge>, id: string): (ids: seq<string>)
    ensures forall x :: x in ids <==> exists e :: e in es && e.kind == FK && e.to == id && e.from == x
  {
    if es == [] then [] else
    var e := es[0];
    assert forall d :: d in es <==> d == e || d in es[1..];
    (if e.kind == FK && e.to == id then [e.from] else []) + Origins(es[1..], id)
  }

  lemma NeighborsAreJoined(g: Graph, id: string, x: string)
    ensures x in Neighbors(g.edges, id) <==> Joined(g, id, x)
  {
  }

  // ---- Distance ----

  /** A chain of foreign keys from `start` to `x`. */
  ghost predicate Chain(g: Graph, p: seq<string>, start: string, x: string) {
    |p| > 0 && p[0] == start && p[|p| - 1] == x && forall i :: 0 <= i < |p| - 1 ==> Joined(g, p[i], p[i + 1])
  }

  /** `x` is at most `d` foreign keys away from `start`. */
  ghost predicate Within(g: Graph, start: string, d: nat, x: string) {
    exists p :: Chain(g, p, start, x) && |p| <= d + 1
  }

  lemma WithinZero(g: Graph, start: string, x: string)
    ensures Within(g, start, 0, x) <==> x == start
  {
    assert Chain(g, [start], start, start);
  }

  lemma WithinStep(g: Graph, start: string, d: nat, x: string)
    ensures Within(g, start, d + 1, x) <==>
            Within(g, start, d, x) || exists y :: Within(g, start, d, y) && Joined(g, y, x)
  {
    if Within(g, start, d + 1, x) && !Within(g, start, d, x) {
      var p :| Chain(g, p, start, x) && |p| <= d + 2;
      var n := |p| - 1;
      if n > 0 {
        assert Joined(g, p[n - 1], p[n - 1 + 1]);
        assert Chain(g, p[..n], start, p[n - 1]);
        assert Within(g, start, d, p[n - 1]);
      }
    }
    if y :| Within(g, start, d, y) && Joined(g, y, x) {
      var p :| Chain(g, p, start, y) && |p| <= d + 1;
      assert Chain(g, p + [x], start, x);
    }
  }

  // ---- The search ----

  /** What has been included after `d` rounds, and the nodes among them still to be expanded. */
  ghost predicate Searched(g: Graph, start: string, d: nat, included: set<string>, frontier: seq<string>) {
    && (forall x :: x in included <==> Within(g, start, d, x))
    && (forall x :: x in frontier ==> x in included)
    && (forall x, y :: x in included && x !in frontier && Joined(g, x, y) ==> y in included)
  }

  lemma NextRound(g: Graph, start: string, d: nat, included: set<string>, frontier: seq<string>,
                  included': set<string>, next: seq<string>)
    requires Searched(g, start, d, included, frontier)
    requires forall x :: x in included' <==> x in included || x in next
    requires forall y :: y in next ==> exists x :: x in frontier && Joined(g, x, y)
    requires forall x, y :: x in frontier && Joined(g, x, y) ==> y in included'
    ensures Searched(g, start, d + 1, included', next)
  {
    forall x ensures x in included' <==> Within(g, start, d + 1, x) { WithinStep(g, start, d, x); }
  }

  /** One round: every neighbour of the frontier not included yet. */
  method Round(g: Graph, included: set<string>, frontier: seq<string>)
    returns (included': set<string>, next: seq<string>)
    ensures forall x :: x in included' <==> x in included || x in next
    ensures forall y :: y in next ==> y !in included && exists x :: x in frontier && Joined(g, x, y)
    ensures forall x, y :: x in frontier && Joined(g, x, y) ==> y in included'
  {
    included', next := included, [];
    for i := 0 to |frontier|
      invariant forall x :: x in included' <==> x in included || x in next
      invariant forall y :: y in next ==> y !in included && exists x :: x in frontier && Joined(g, x, y)
      invariant forall k, y :: 0 <= k < i && Joined(g, frontier[k], y) ==> y in included'
    {
      included', next := Expand(g, frontier, i, included, included', next);
    }
  }

  /** The loop over the neighbours of one node. */
  method Expand(g: Graph, frontier: seq<string>, i: nat, ghost included: set<string>, included0: set<string>,
                next0: seq<string>)
      returns (included': set<string>, next: seq<string>)
    requires i < |frontier| && forall x :: x in included0 <==> x in included || x in next0
    requires forall y :: y in next0 ==> y !in included && exists x :: x in frontier && Joined(g, x, y)
    ensures forall x :: x in included' <==> x in included || x in next
    ensures forall y :: y in next ==> y !in included && exists x :: x in frontier && Joined(g, x, y)
    ensures included0 <= included' && forall y :: Joined(g, frontier[i], y) ==> y in included'
  {
    var nbs := Neighbors(g.edges, frontier[i]);
    included', next := included0, next0;
    for j := 0 to |nbs|
      invariant included0 <= included' && forall x :: x in included' <==> x in included || x in next
      invariant forall y :: y in next ==> y !in included && exists x :: x in frontier && Joined(g, x, y)
      invariant forall k :: 0 <= k < j ==> nbs[k] in included'
    {
      NextPrefix(nbs, j);
      NeighborsAreJoined(g, frontier[i], nbs[j]);
      if nbs[j] !in included' {
        included' := included' + {nbs[j]};
        next := next + [nbs[j]];
      }
    }
    forall y | Joined(g, frontier[i], y) ensures y in included' { NeighborsAreJoined(g, frontier[i], y); }
  }

  /** The search: the nodes at most `depth` foreign keys away; a negative depth is none. */
  method Include(g: Graph, start: string, depth: int) returns (included: set<string>)
    ensures forall x :: x in included <==> Within(g, start, if depth < 0 then 0 else depth, x)
  {
    included := {start};
    var frontier := [start];
    forall x ensures Within(g, start, 0, x) <==> x == start { WithinZero(g, start, x); }
    var rounds := if depth < 0 then 0 else depth;
    for d := 0 to rounds
      invariant Searched(g, start, d, included, frontier)
    {
      var included', next := Round(g, included, frontier);
      NextRound(g, start, d, included, frontier, included', next);
      included, frontier := included', next;
    }
  }

  // ---- The diagram's tables and keys ----

  function Kept(included: set<string>): Node -> bool { (n: Node) => n.id in included }

  /** The foreign keys of `id`, in order, that lead to an included table. */
  function KeysFrom(es: seq<Edge>, id: string, included: set<string>): seq<Edge> {
    Filter(es, (e: Edge) => e.kind == FK && e.from == id && e.to in included)
  }

  function KeysOf(g: Graph, tables: seq<Node>, included: set<string>): seq<Edge> {
    if tables == [] then []
    else KeysOf(g, tables[..|tables| - 1], included) + KeysFrom(g.edges, tables[|tables| - 1].id, included)
  }

  lemma {:induction false} KeysMembers(g: Graph, tables: seq<Node>, included: set<string>, e: Edge)
    ensures e in KeysOf(g, tables, included) <==>
            e in g.edges && e.kind == FK && e.to in included && exists t :: t in tables && t.id == e.from
  {
    if tables != [] {
      var n := |tables| - 1;
      KeysMembers(g, tables[..n], included, e);
      FilterMembers(g.edges, (d: Edge) => d.kind == FK && d.from == tables[n].id && d.to in included, e);
      assert tables == tables[..n] + [tables[n]];
    }
  }

  lemma {:induction false} KeysDistinct(g: Graph, tables: seq<Node>, included: set<string>)
    requires g.Valid() && forall i, j :: 0 <= i < j < |tables| ==> tables[i].id != tables[j].id
    ensures Distinct(KeysOf(g, tables, included))
  {
    if tables != [] {
      var n := |tables| - 1;
      var before, last := KeysOf(g, tables[..n], included), KeysFrom(g.edges, tables[n].id, included);
      KeysDistinct(g, tables[..n], included);
      FilterDistinct(g.edges, (e: Edge) => e.kind == FK && e.from == tables[n].id && e.to in included);
      forall e ensures !(e in before && e in last) {
        KeysMembers(g, tables[..n], included, e);
        FilterMembers(g.edges, (d: Edge) => d.kind == FK && d.from == tables[n].id && d.to in included, e);
      }
      assert forall i :: 0 <= i < |before| ==> before[i] in before;
      assert forall i :: 0 <= i < |last| ==> last[i] in last;
    }
  }

  lemma Shown(g: Graph, all: seq<Node>, included: set<string>)
    ensures var tables := Filter(all, Kept(included));
            && (forall n :: n in tables <==> n in all && n.id in included)
            && forall e :: e in KeysOf(g, tables, included) <==>
                 e in g.edges && e.kind == FK && e.to in included && exists t :: t in tables && t.id == e.from
  {
    var tables := Filter(all, Kept(included));
    forall n ensures n in tables <==> n in all && n.id in included { FilterMembers(all, Kept(included), n); }
    forall e ensures e in KeysOf(g, tables, included) <==>
                     e in g.edges && e.kind == FK && e.to in included && exists t :: t in tables && t.id == e.from {
      KeysMembers(g, tables, included, e);
    }
  }

  /** A table with its columns, in the order of their edges. */
  function TableOf(g: Graph, n: Node): Table
    requires g.Valid()
  {
    Table(n, NodesOf(g.Out(n.id, {HasColumn})))
  }

  function NodesOf(nbs: seq<Neighbor>): seq<Node> { seq(|nbs|, i requires 0 <= i < |nbs| => nbs[i].node) }

  function TablesOf(g: Graph, ns: seq<Node>): seq<Table>
    requires g.Valid()
  {
    seq(|ns|, i requires 0 <= i < |ns| => TableOf(g, ns[i]))
  }

  /** The tables asked for: all, or those near the given one. */
  ghost function Wanted(g: Graph, table: string, depth: int): Node -> bool {
    (n: Node) => table == "" || Within(g, table, if depth < 0 then 0 else depth, n.id)
  }

  /** `ER`, given the tables of the graph in the order they are listed; "" stands for the whole schema. */
  method ER(g: Graph, all: seq<Node>, table: string, depth: int) returns (r: Result)
    requires g.Valid()
    requires forall n :: n in all <==> n.id in g.nodes && g.nodes[n.id] == n && n.kind == SQLTable
    requires forall i, j :: 0 <= i < j < |all| ==> all[i].id != all[j].id
    ensures r.NotFound? <==> table != "" && table !in g.nodes
    ensures r.Drawn? ==> r.tables == TablesOf(g, Filter(all, Wanted(g, table, depth)))
    ensures r.Drawn? ==> exists included :: r.keys == KeysOf(g, Filter(all, Wanted(g, table, depth)), included)
    ensures r.Drawn? ==> Distinct(r.keys) && forall e :: e in r.keys <==>
              e in g.edges && e.kind == FK && (exists n :: n in Filter(all, Wanted(g, table, depth)) && n.id == e.from)
              && if table == "" then (exists n :: n in all && n.id == e.to)
                 else Within(g, table, if depth < 0 then 0 else depth, e.to)
  {
    var included: set<string>;
    if table != "" {
      if table !in g.nodes { return NotFound; }
      included := Include(g, table, depth);
    } else {
      included := set n | n in all :: n.id;
    }
    var tables, keys := Draw(g, all, included);
    FilterSame(all, Kept(included), Wanted(g, table, depth));
    Shown(g, all, included);
    r := Drawn(tables, keys);
  }

  /** The loop over the tables. */
  method Draw(g: Graph, all: seq<Node>, included: set<string>) returns (tables: seq<Table>, keys: seq<Edge>)
    requires g.Valid() && forall i, j :: 0 <= i < j < |all| ==> all[i].id != all[j].id
    ensures var shown := Filter(all, Kept(included));
            tables == TablesOf(g, shown) && keys == KeysOf(g, shown, included) && Distinct(keys)
  {
    tables, keys := [], [];
    ghost var shown: seq<Node> := [];
    for i := 0 to |all|
      invariant shown == Filter(all[..i], Kept(included))
      invariant tables == TablesOf(g, shown) && keys == KeysOf(g, shown, included)
      invariant forall j, k :: 0 <= j < k < |shown| ==> shown[j].id != shown[k].id
    {
      NextPrefix(all, i);
      PushTable(all, i, included);
      if all[i].id !in included { continue; }
      assert (shown + [all[i]])[..|shown|] == shown;
      var columns := Columns(g, all[i]);
      tables := tables + [Table(all[i], columns)];
      keys := keys + KeysFrom(g.edges, all[i].id, included);
      shown := shown + [all[i]];
    }
    WholePrefix(all);
    KeysDistinct(g, shown, included);
  }

  /** The loop over the columns of a table. */
  method Columns(g: Graph, n: Node) returns (columns: seq<Node>)
    requires g.Valid()
    ensures Table(n, columns) == TableOf(g, n)
  {
    var cols := g.Out(n.id, {HasColumn});
    columns := [];
    for i := 0 to |cols|
      invariant columns == NodesOf(cols[..i])
    {
      columns := columns + [cols[i].node];
    }
    WholePrefix(cols);
  }

  lemma PushTable(all: seq<Node>, i: nat, included: set<string>)
    requires i < |all| && forall j, k :: 0 <= j < k < |all| ==> all[j].id != all[k].id
    ensures Filter(all[..i + 1], Kept(included)) ==
            Filter(all[..i], Kept(included)) + if all[i].id in included then [all[i]] else []
    ensures forall n :: n in Filter(all[..i], Kept(included)) ==> n.id != all[i].id
  {
    assert all[..i + 1] == all[..i] + [all[i]];
    FilterAppend(all[..i], [all[i]], Kept(included));
    assert [all[i]][1..] == [] && Filter([all[i]][1..], Kept(included)) == [];
    forall n | n in Filter(all[..i], Kept(included)) ensures n.id != all[i].id {
      FilterMembers(all[..i], Kept(included), n);
    }
  }
}
