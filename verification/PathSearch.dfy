/** `Graph.Paths`: running the query, decoding its ID strings and resolving the edges (internal/graph/query.go). */
module PathSearch {
  import opened CodeGraph
  import opened Ordering
  import opened Text
  import opened Paths

  datatype PathOptions = PathOptions(edgeKinds: set<EdgeKind>, maxDepth: int, limit: int)

  datatype PathsResult = Ok(paths: seq<Path>) | ParseError

  /** The query after the defaults. */
  function QueryOf(g: Graph, from: string, to: string, opts: PathOptions): PathQuery {
    PathQuery(g.edges, from, to, opts.edgeKinds, if opts.maxDepth <= 0 then 10 else opts.maxDepth)
  }

  function LimitOf(opts: PathOptions): nat { if opts.limit <= 0 then 10 else opts.limit }

  function IdsOf(p: Path): seq<int> { seq(|p|, i requires 0 <= i < |p| => p[i].id) }

  function Parts(p: Path): seq<string> { seq(|p|, i requires 0 <= i < |p| => Itoa(p[i].id)) }

  /** SQLite row IDs are int64. */
  ghost predicate SmallIds(p: Path) { forall i :: 0 <= i < |p| ==> p[i].id < 0x8000_0000_0000_0000 }

  lemma {:induction false} IdStringJoins(p: Path)
    requires p != []
    ensures IdString(p) == Join(Parts(p), ',') + ","
  {
    var (front, last) := (p[..|p| - 1], p[|p| - 1]);
    assert Parts(p) == Parts(front) + [Itoa(last.id)];
    if front != [] {
      IdStringJoins(front);
      JoinAppend(Parts(front), Itoa(last.id), ',');
    }
  }

  lemma DecodedParts(p: Path)
    requires p != []
    ensures Split(TrimSuffix(IdString(p), ","), ',') == Parts(p)
  {
    IdStringJoins(p);
    var joined := Join(Parts(p), ',');
    assert (joined + ",")[|joined|..] == ",";
    assert (joined + ",")[..|joined|] == joined;
    forall i | 0 <= i < |p| ensures ',' !in Parts(p)[i] {
      assert !IsDigit(',') && forall c :: c in Itoa(p[i].id) ==> IsDigit(c);
    }
    SplitJoin(Parts(p), ',');
  }

  /** Decoding one row: the comma-separated edge IDs come back. */
  method DecodeRow(s: string, ghost p: Path) returns (ok: bool, ids: seq<int>)
    requires p != [] && SmallIds(p) && s == IdString(p)
    ensures ok && ids == IdsOf(p)
  {
    DecodedParts(p);
    var parts := Split(TrimSuffix(s, ","), ',');
    ids := [];
    for i := 0 to |parts|
      invariant ids == IdsOf(p)[..i]
    {
      AtoiItoa(p[i].id);
      match Atoi(parts[i]) {
        case Num(id) => ids := ids + [id];
        case NotANumber => return false, ids;
      }
    }
    ok := true;
  }

  method DecodeRows(rows: seq<string>, ghost ps: seq<Path>) returns (ok: bool, idPaths: seq<seq<int>>)
    requires |rows| == |ps|
    requires forall i :: 0 <= i < |ps| ==> ps[i] != [] && SmallIds(ps[i]) && rows[i] == IdString(ps[i])
    ensures ok && |idPaths| == |ps| && forall i :: 0 <= i < |ps| ==> idPaths[i] == IdsOf(ps[i])
  {
    idPaths := [];
    for i := 0 to |rows|
      invariant |idPaths| == i
      invariant forall k :: 0 <= k < i ==> idPaths[k] == IdsOf(ps[k])
    {
      var decoded, ids := DecodeRow(rows[i], ps[i]);
      if !decoded { return false, idPaths; }
      idPaths := idPaths + [ids];
    }
    ok := true;
  }

  /** `SELECT ... FROM edges WHERE id IN (...)`. */
  function EdgesIn(es: seq<Edge>, ids: seq<int>): seq<Edge> {
    Filter(es, (e: Edge) => e.id in ids)
  }

  ghost predicate UniqueIds(es: seq<Edge>) {
    forall i, j :: 0 <= i < j < |es| ==> es[i].id != es[j].id
  }

  /** `resolvePaths`: collects the IDs once, fetches the edges and puts them back in place. */
  method ResolvePaths(es: seq<Edge>, idPaths: seq<seq<int>>, ghost ps: seq<Path>) returns (paths: seq<Path>)
    requires UniqueIds(es) && |idPaths| == |ps|
    requires forall i :: 0 <= i < |ps| ==> idPaths[i] == IdsOf(ps[i]) && ps[i] != []
    requires forall i, j :: 0 <= i < |ps| && 0 <= j < |ps[i]| ==> ps[i][j] in es
    ensures paths == ps
  {
    var ids := DistinctIds(idPaths);
    assert ps != [] ==> idPaths[0][0] in ids;
    if |ids| == 0 {
      return [];
    }
    var edges := EdgesIn(es, ids);
    var byId: map<int, Edge> := map[];
    for k := 0 to |edges|
      invariant forall j :: 0 <= j < k ==> edges[j].id in byId
      invariant forall id :: id in byId ==> byId[id] in es && byId[id].id == id
    {
      NextPrefix(edges, k);
      FilterMembers(es, (e: Edge) => e.id in ids, edges[k]);
      byId := byId[edges[k].id := edges[k]];
    }
    paths := [];
    for i := 0 to |idPaths|
      invariant paths == ps[..i]
    {
      forall j | 0 <= j < |idPaths[i]| ensures idPaths[i][j] in byId && byId[idPaths[i][j]] == ps[i][j] {
        var e := ps[i][j];
        assert e in es && idPaths[i][j] == e.id && e.id in ids;
        FilterMembers(es, (f: Edge) => f.id in ids, e);
        var k :| 0 <= k < |edges| && edges[k] == e;
      }
      var path: Path := seq(|idPaths[i]|, j requires 0 <= j < |idPaths[i]| => byId[idPaths[i][j]]);
      assert path == ps[i];
      paths := paths + [path];
    }
    WholePrefix(ps);
  }

  /** The distinct IDs of all paths, in order of first occurrence. */
  method DistinctIds(idPaths: seq<seq<int>>) returns (ids: seq<int>)
    ensures forall i, j :: 0 <= i < |idPaths| && 0 <= j < |idPaths[i]| ==> idPaths[i][j] in ids
    ensures forall id :: id in ids ==> exists i :: 0 <= i < |idPaths| && id in idPaths[i]
    ensures Distinct(ids)
  {
    var seen: set<int> := {};
    ids := [];
    for i := 0 to |idPaths|
      invariant forall id :: id in seen <==> id in ids
      invariant Distinct(ids)
      invariant forall k, j :: 0 <= k < i && 0 <= j < |idPaths[k]| ==> idPaths[k][j] in ids
      invariant forall id :: id in ids ==> exists k :: 0 <= k < |idPaths| && id in idPaths[k]
    {
      for j := 0 to |idPaths[i]|
        invariant forall id :: id in seen <==> id in ids
        invariant Distinct(ids)
        invariant forall k, m :: 0 <= k < i && 0 <= m < |idPaths[k]| ==> idPaths[k][m] in ids
        invariant forall m :: 0 <= m < j ==> idPaths[i][m] in ids
        invariant forall id :: id in ids ==> exists k :: 0 <= k < |idPaths| && id in idPaths[k]
      {
        var id := idPaths[i][j];
        if id !in seen {
          assert id in idPaths[i];
          seen := seen + {id};
          ids := ids + [id];
        }
      }
    }
  }

  lemma {:induction false} ChainedEdges(q: PathQuery, p: Path)
    requires q.Chained(p)
    ensures forall i :: 0 <= i < |p| ==> p[i] in q.edges
  {
    if p != [] { ChainedEdges(q, p[..|p| - 1]); }
  }

  /**
   * `Paths`: up to `limit` acyclic paths, shortest first, each once. A path is left out exactly when the string
   * test hides it or for the limit, and then no returned path is longer; IDs without the separator hide none.
   */
  method FindPaths(g: Graph, from: string, to: string, opts: PathOptions) returns (r: PathsResult)
    requires g.Valid() && SmallIds(g.edges)
    ensures r.Ok? && |r.paths| <= LimitOf(opts)
    ensures Distinct(r.paths)
    ensures forall p :: p in r.paths ==>
      QueryOf(g, from, to, opts).Simple(p) && Unhidden(QueryOf(g, from, to, opts), p)
    ensures forall i, j :: 0 <= i < j < |r.paths| ==> |r.paths[i]| <= |r.paths[j]|
    ensures forall p :: QueryOf(g, from, to, opts).Simple(p) && p !in r.paths ==>
      || !Unhidden(QueryOf(g, from, to, opts), p)
      || (|r.paths| == LimitOf(opts) && forall s :: s in r.paths ==> |s| <= |p|)
    ensures PlainIds(QueryOf(g, from, to, opts)) ==>
      forall p :: QueryOf(g, from, to, opts).Simple(p) ==> Unhidden(QueryOf(g, from, to, opts), p)
  {
    var q := QueryOf(g, from, to, opts);
    var limit := LimitOf(opts);
    var rows := q.Answers(limit);
    AnswersAreFound(q, limit);
    ghost var ps := Take(q.Found(), limit);
    KeptPaths(q, limit);
    if PlainIds(q) {
      forall p | q.Simple(p) ensures Unhidden(q, p) { PlainIsUnhidden(q, p); }
    }
    var ok, idPaths := DecodeRows(rows, ps);
    if !ok { return ParseError; }
    var paths := ResolvePaths(g.edges, idPaths, ps);
    return Ok(paths);
  }

  /** What the limit keeps of the paths found. */
  lemma KeptPaths(q: PathQuery, limit: nat)
    requires Distinct(q.edges) && SmallIds(q.edges)
    ensures var ps := Take(q.Found(), limit);
      && |ps| <= limit && Distinct(ps)
      && (forall i :: 0 <= i < |ps| ==> q.Simple(ps[i]) && Unhidden(q, ps[i]) && ps[i] != [] && SmallIds(ps[i]))
      && (forall i, j :: 0 <= i < |ps| && 0 <= j < |ps[i]| ==> ps[i][j] in q.edges)
      && (forall i, j :: 0 <= i < j < |ps| ==> |ps[i]| <= |ps[j]|)
      && (forall p :: q.Simple(p) && p !in ps && Unhidden(q, p) ==> |ps| == limit && forall s :: s in ps ==> |s| <= |p|)
  {
    FoundPaths(q);
    OmittedAreLonger(q.Found(), limit);
    var ps := Take(q.Found(), limit);
    forall i | 0 <= i < |ps|
      ensures q.Simple(ps[i]) && Unhidden(q, ps[i]) && ps[i] != [] && SmallIds(ps[i]) &&
              forall j :: 0 <= j < |ps[i]| ==> ps[i][j] in q.edges
    {
      assert ps[i] == q.Found()[i];
      assert q.Found()[i] in q.Found();
      ChainedEdges(q, ps[i]);
    }
  }

  /** Keeping the first of some paths in order of length omits none shorter than one kept. */
  lemma OmittedAreLonger(all: seq<Path>, limit: nat)
    requires forall i, j :: 0 <= i < j < |all| ==> |all[i]| <= |all[j]|
    ensures forall p :: p in all && p !in Take(all, limit) ==>
      |Take(all, limit)| == limit && forall s :: s in Take(all, limit) ==> |s| <= |p|
  {
    var kept := Take(all, limit);
    forall p | p in all && p !in kept ensures |kept| == limit && forall s :: s in kept ==> |s| <= |p| {
      var j :| 0 <= j < |all| && all[j] == p;
      assert |all| > limit && kept == all[..limit];
      forall k | 0 <= k < limit ensures all[k] in kept { assert kept[k] == all[k]; }
    }
  }
}
