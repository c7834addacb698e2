/** Bounded path search (internal/graph/query.go): the recursive query, its string encodings and their decoding. */
module Paths {
  import opened CodeGraph
  import opened Ordering
  import opened Text
  import opened Wrappers

  const SEP: char := 31 as char // char(31), which separates the IDs in the visited string

  type Path = seq<Edge>

  /** The parameters of the query, after the defaults. */
  datatype PathQuery = PathQuery(edges: seq<Edge>, from: string, to: string, kinds: set<EdgeKind>, maxDepth: nat) {

    predicate Allowed(e: Edge) { kinds == {} || e.kind in kinds }

    // ---- back and near: distances to `to`, walking backwards ----

    function BackAt(d: nat): set<string> {
      if d == 0 then {to} else set e | e in edges && Allowed(e) && e.to in BackAt(d - 1) :: e.from
    }

    function NearFrom(n: string, d: nat): (r: Option<nat>)
      ensures r.Some? ==> d <= r.value <= maxDepth && n in BackAt(r.value)
      ensures forall k :: d <= k <= maxDepth && n in BackAt(k) ==> r.Some? && r.value <= k
      decreases maxDepth + 1 - d
    {
      if d > maxDepth then None
      else if n in BackAt(d) then Some(d)
      else NearFrom(n, d + 1)
    }

    /** `near`: the least distance from `n` to `to` within the depth. */
    function Near(n: string): Option<nat> { NearFrom(n, 0) }

    // ---- walk: the rows of the recursive query ----

    /** The join condition and the WHERE clause of the recursive part of `walk`. */
    predicate Joins(w: Row, e: Edge) {
      && e.from == w.node && Allowed(e) && Near(e.to).Some?
      && w.node != to && w.depth + 1 + Near(e.to).value <= maxDepth
      && !Contains(w.visited, [SEP] + e.to + [SEP])
    }

    function Next(w: Row, e: Edge): Row {
      Row(e.to, w.depth + 1, w.visited + e.to + [SEP], w.edgeIds + Itoa(e.id) + ",")
    }

    function ExtendRow(w: Row, es: seq<Edge>): seq<Row> {
      if es == [] then []
      else
        var rest := ExtendRow(w, es[..|es| - 1]);
        var e := es[|es| - 1];
        if Joins(w, e) then rest + [Next(w, e)] else rest
    }

    function ExtendRows(ws: seq<Row>): seq<Row> {
      if ws == [] then [] else ExtendRows(ws[..|ws| - 1]) + ExtendRow(ws[|ws| - 1], edges)
    }

    function RowsAt(depth: nat): seq<Row> {
      if depth == 0 then [Row(from, 0, [SEP] + from + [SEP], "")] else ExtendRows(RowsAt(depth - 1))
    }

    /** All rows of depth at most `depth`; no row is deeper than `maxDepth`. */
    function RowsUpTo(depth: nat): seq<Row> {
      if depth == 0 then RowsAt(0) else RowsUpTo(depth - 1) + RowsAt(depth)
    }

    function IsAnswer(): Row -> bool { (w: Row) => w.node == to && w.depth > 0 }

    /** The whole query: the edge-ID strings of at most `limit` answers, by depth and then by string. */
    function Answers(limit: nat): seq<string> {
      var sorted := Sort(Filter(RowsUpTo(maxDepth), IsAnswer()), ByDepth());
      var kept := if |sorted| <= limit then sorted else sorted[..limit];
      seq(|kept|, i requires 0 <= i < |kept| => kept[i].edgeIds)
    }

    // ---- The paths that rows stand for ----

    function EndOf(p: Path): string { if p == [] then from else p[|p| - 1].to }

    /** The nodes along a path. */
    function NodesOf(p: Path): seq<string> {
      if p == [] then [from] else NodesOf(p[..|p| - 1]) + [p[|p| - 1].to]
    }

    function RowOf(p: Path): Row { Row(EndOf(p), |p|, VisitedString(NodesOf(p)), IdString(p)) }

    ghost predicate Chained(p: Path) {
      p == [] || (Chained(p[..|p| - 1]) && p[|p| - 1] in edges && Allowed(p[|p| - 1]) &&
        p[|p| - 1].from == EndOf(p[..|p| - 1]))
    }

    /** What `Paths` promises: an acyclic path of 1 to `maxDepth` allowed edges between the two nodes. */
    ghost predicate Simple(p: Path) {
      1 <= |p| <= maxDepth && Chained(p) && EndOf(p) == to && Distinct(NodesOf(p))
    }

    function ExtendPath(p: Path, es: seq<Edge>): seq<Path> {
      if es == [] then []
      else
        var rest := ExtendPath(p, es[..|es| - 1]);
        var e := es[|es| - 1];
        if Joins(RowOf(p), e) then rest + [p + [e]] else rest
    }

    function ExtendPaths(ps: seq<Path>): seq<Path> {
      if ps == [] then [] else ExtendPaths(ps[..|ps| - 1]) + ExtendPath(ps[|ps| - 1], edges)
    }

    function PathsAt(depth: nat): seq<Path> {
      if depth == 0 then [[]] else ExtendPaths(PathsAt(depth - 1))
    }

    function PathsUpTo(depth: nat): seq<Path> {
      if depth == 0 then PathsAt(0) else PathsUpTo(depth - 1) + PathsAt(depth)
    }

    function RowsOf(ps: seq<Path>): seq<Row> { seq(|ps|, i requires 0 <= i < |ps| => RowOf(ps[i])) }

    function Reaches(): Path -> bool { (p: Path) => EndOf(p) == to && |p| > 0 }

    function ByLength(): (Path, Path) -> bool { (p: Path, r: Path) => RowBefore(RowOf(p), RowOf(r)) }

    /** The paths behind the answers, in answer order. */
    function Found(): seq<Path> { Sort(Filter(PathsUpTo(maxDepth), Reaches()), ByLength()) }
  }

  datatype Row = Row(node: string, depth: nat, visited: string, edgeIds: string)

  predicate RowBefore(a: Row, b: Row) {
    a.depth < b.depth || (a.depth == b.depth && Le(a.edgeIds, b.edgeIds))
  }

  function ByDepth(): (Row, Row) -> bool { (a: Row, b: Row) => RowBefore(a, b) }

  /** The IDs wrapped in separators. */
  function VisitedString(ns: seq<string>): string {
    if ns == [] then [SEP] else VisitedString(ns[..|ns| - 1]) + ns[|ns| - 1] + [SEP]
  }

  /** The edge IDs, each followed by a comma. */
  function IdString(p: Path): string {
    if p == [] then "" else IdString(p[..|p| - 1]) + Itoa(p[|p| - 1].id) + ","
  }

  // ---- Rows and paths correspond ----

  lemma {:induction false} ExtendRowIsPath(q: PathQuery, p: Path, es: seq<Edge>)
    ensures q.ExtendRow(q.RowOf(p), es) == q.RowsOf(q.ExtendPath(p, es))
  {
    if es != [] {
      ExtendRowIsPath(q, p, es[..|es| - 1]);
      var e := es[|es| - 1];
      assert (p + [e])[..|p|] == p;
      assert q.RowOf(p + [e]) == q.Next(q.RowOf(p), e);
    }
  }

  lemma RowsOfConcat(q: PathQuery, a: seq<Path>, b: seq<Path>)
    ensures q.RowsOf(a + b) == q.RowsOf(a) + q.RowsOf(b)
  {
  }

  lemma {:induction false} ExtendRowsArePaths(q: PathQuery, ps: seq<Path>)
    ensures q.ExtendRows(q.RowsOf(ps)) == q.RowsOf(q.ExtendPaths(ps))
  {
    if ps != [] {
      var (front, last) := (ps[..|ps| - 1], ps[|ps| - 1]);
      assert q.RowsOf(ps)[..|ps| - 1] == q.RowsOf(front);
      ExtendRowsArePaths(q, front);
      ExtendRowIsPath(q, last, q.edges);
      RowsOfConcat(q, q.ExtendPaths(front), q.ExtendPath(last, q.edges));
    }
  }

  lemma {:induction false} RowsAtArePaths(q: PathQuery, depth: nat)
    ensures q.RowsAt(depth) == q.RowsOf(q.PathsAt(depth))
  {
    if depth == 0 {
      assert VisitedString([q.from]) == [SEP] + q.from + [SEP] by {
        assert [q.from][..0] == [];
      }
    } else {
      RowsAtArePaths(q, depth - 1);
      ExtendRowsArePaths(q, q.PathsAt(depth - 1));
    }
  }

  lemma {:induction false} RowsUpToArePaths(q: PathQuery, depth: nat)
    ensures q.RowsUpTo(depth) == q.RowsOf(q.PathsUpTo(depth))
  {
    RowsAtArePaths(q, depth);
    if depth > 0 {
      RowsUpToArePaths(q, depth - 1);
      RowsOfConcat(q, q.PathsUpTo(depth - 1), q.PathsAt(depth));
    }
  }

  function Take<T>(s: seq<T>, n: nat): seq<T> { if |s| <= n then s else s[..n] }

  /** The query returns the ID strings of the first paths found. */
  lemma AnswersAreFound(q: PathQuery, limit: nat)
    ensures |q.Answers(limit)| == |Take(q.Found(), limit)|
    ensures forall i :: 0 <= i < |q.Answers(limit)| ==> q.Answers(limit)[i] == IdString(Take(q.Found(), limit)[i])
  {
    var row := (p: Path) => q.RowOf(p);
    var all := q.PathsUpTo(q.maxDepth);
    RowsUpToArePaths(q, q.maxDepth);
    assert q.RowsOf(all) == Map(all, row);
    FilterMap(all, row, q.Reaches(), q.IsAnswer());
    SortMap(Filter(all, q.Reaches()), row, q.ByLength(), ByDepth());
  }

  // ---- The visited string ----

  predicate Plain(s: string) { SEP !in s }

  ghost predicate AllPlain(ns: seq<string>) { forall i :: 0 <= i < |ns| ==> Plain(ns[i]) }

  predicate Marked(ns: seq<string>, x: string) { Contains(VisitedString(ns), [SEP] + x + [SEP]) }

  /** The IDs, cut wherever one of them contains the separator. */
  function Pieces(ns: seq<string>): seq<string> {
    if ns == [] then [] else Pieces(ns[..|ns| - 1]) + Split(ns[|ns| - 1], SEP)
  }

  predicate RunsAt(ps: seq<string>, run: seq<string>, i: nat) { i + |run| <= |ps| && ps[i..i + |run|] == run }

  /** The pieces `run` are found in a row among `ps`. */
  ghost predicate RunsIn(ps: seq<string>, run: seq<string>) { exists i: nat :: RunsAt(ps, run, i) }

  lemma SameFront(a: seq<string>, b: seq<string>, x: string)
    requires a + [x] == b + [x]
    ensures a == b
  {
    assert a == (a + [x])[..|a|];
  }

  lemma SplitNext(u: string, ps: seq<string>, last: string)
    requires Split(u + [SEP], SEP) == [""] + ps + [""]
    ensures Split(u + [SEP] + (last + [SEP]), SEP) == [""] + (ps + Split(last, SEP)) + [""]
  {
    SplitEnd(u);
    SplitEnd(last);
    SameFront(Split(u, SEP), [""] + ps, "");
    SplitAt(u, SEP, last + [SEP]);
    Regroup([""], ps, Split(last, SEP), [""]);
  }

  lemma Regroup(a: seq<string>, b: seq<string>, c: seq<string>, d: seq<string>)
    ensures a + b + (c + d) == a + (b + c) + d
  {
  }

  lemma SplitEnd(u: string)
    ensures Split(u + [SEP], SEP) == Split(u, SEP) + [""]
  {
    SplitAt(u, SEP, "");
    assert u + [SEP] == u + [SEP] + "";
  }

  /** The separators at both ends give an empty piece each. */
  lemma {:induction false} SplitVisited(ns: seq<string>)
    ensures Split(VisitedString(ns), SEP) == [""] + Pieces(ns) + [""]
  {
    if ns == [] {
      SplitAt("", SEP, "");
      assert [SEP] == "" + [SEP] + "";
    } else {
      SplitVisited(ns[..|ns| - 1]);
      var (v, last) := (VisitedString(ns[..|ns| - 1]), ns[|ns| - 1]);
      var u := v[..|v| - 1];
      assert v == u + [SEP] && v + last + [SEP] == u + [SEP] + (last + [SEP]);
      SplitNext(u, Pieces(ns[..|ns| - 1]), last);
    }
  }

  lemma MarkedRuns(ns: seq<string>, x: string) returns (i: nat)
    requires Marked(ns, x)
    ensures RunsAt(Pieces(ns), Split(x, SEP), i)
  {
    var v := VisitedString(ns);
    var mark := [SEP] + x + [SEP];
    var k :| 0 <= k <= |v| - |mark| && OccursAt(v, mark, k);
    var (a, b) := (v[..k], v[k + |mark|..]);
    assert v == a + [SEP] + (x + [SEP] + b);
    SplitAt(a, SEP, x + [SEP] + b);
    SplitAt(x, SEP, b);
    SplitVisited(ns);
    var (before, run, after) := (Split(a, SEP), Split(x, SEP), Split(b, SEP));
    i := |before| - 1;
    RunInside(Pieces(ns), before, run, after);
  }

  lemma RunInside(ps: seq<string>, before: seq<string>, run: seq<string>, after: seq<string>)
    requires before != [] && after != [] && [""] + ps + [""] == before + (run + after)
    ensures RunsAt(ps, run, |before| - 1)
  {
    var all := [""] + ps + [""];
    assert all[|before|..|before| + |run|] == run;
    assert all[1..|all| - 1] == ps;
  }

  lemma RunsMarked(ns: seq<string>, x: string, i: nat)
    requires RunsAt(Pieces(ns), Split(x, SEP), i)
    ensures Marked(ns, x)
  {
    SplitVisited(ns);
    JoinSplit(VisitedString(ns), SEP);
    JoinSplit(x, SEP);
    RunOccurs(Pieces(ns), Split(x, SEP), i);
  }

  lemma RunOccurs(ps: seq<string>, run: seq<string>, i: nat)
    requires run != [] && RunsAt(ps, run, i)
    ensures Contains(Join([""] + ps + [""], SEP), [SEP] + Join(run, SEP) + [SEP])
  {
    var (before, after) := ([""] + ps[..i], ps[i + |run|..] + [""]);
    assert [""] + ps + [""] == before + (run + after);
    JoinParts(before, run + after, SEP);
    JoinParts(run, after, SEP);
    OccursBetween(Join(before, SEP), Join(run, SEP), Join(after, SEP));
  }

  lemma OccursBetween(a: string, x: string, b: string)
    ensures Contains(a + [SEP] + (x + [SEP] + b), [SEP] + x + [SEP])
  {
    var (s, mark) := (a + [SEP] + (x + [SEP] + b), [SEP] + x + [SEP]);
    assert s[|a|..|a| + |mark|] == mark;
    assert OccursAt(s, mark, |a|);
  }

  /** What the string test really tests: the pieces of `x` are found in a row among those of the IDs. */
  lemma MarkedExactly(ns: seq<string>, x: string)
    ensures Marked(ns, x) <==> RunsIn(Pieces(ns), Split(x, SEP))
  {
    if Marked(ns, x) { var i := MarkedRuns(ns, x); }
    if RunsIn(Pieces(ns), Split(x, SEP)) {
      var i: nat :| RunsAt(Pieces(ns), Split(x, SEP), i);
      RunsMarked(ns, x, i);
    }
  }

  lemma {:induction false} MemberRuns(ns: seq<string>, x: string) returns (i: nat)
    requires x in ns
    ensures RunsAt(Pieces(ns), Split(x, SEP), i)
  {
    var (front, last) := (ns[..|ns| - 1], ns[|ns| - 1]);
    var (ps, run) := (Pieces(front), Split(last, SEP));
    if last == x {
      i := |ps|;
      assert (ps + run)[i..i + |run|] == run;
    } else {
      i := MemberRuns(front, x);
      assert (ps + run)[i..i + |Split(x, SEP)|] == ps[i..i + |Split(x, SEP)|];
    }
  }

  /** A visited node is always found in the string. */
  lemma MemberMarked(ns: seq<string>, x: string)
    requires x in ns
    ensures Marked(ns, x)
  {
    var i := MemberRuns(ns, x);
    RunsMarked(ns, x, i);
  }

  lemma {:induction false} PlainPieces(ns: seq<string>)
    requires AllPlain(ns)
    ensures Pieces(ns) == ns
  {
    if ns != [] {
      PlainPieces(ns[..|ns| - 1]);
      SplitWhole(ns[|ns| - 1], SEP);
    }
  }

  /** Without separators inside IDs, only visited nodes are found. */
  lemma MarkedMember(ns: seq<string>, x: string)
    requires AllPlain(ns) && Plain(x) && Marked(ns, x)
    ensures x in ns
  {
    var i := MarkedRuns(ns, x);
    PlainPieces(ns);
    SplitWhole(x, SEP);
    assert ns[i] == ns[i..i + 1][0];
  }

  /** On lists of IDs without a separator, the test is membership for exactly the IDs without one. */
  lemma MarkIsMembership(x: string)
    ensures Plain(x) <==> forall ns :: AllPlain(ns) ==> (Marked(ns, x) <==> x in ns)
  {
    if Plain(x) {
      forall ns | AllPlain(ns) ensures Marked(ns, x) <==> x in ns {
        if x in ns { MemberMarked(ns, x); }
        if Marked(ns, x) { MarkedMember(ns, x); }
      }
    } else {
      var ns := Split(x, SEP);
      JoinSplit(x, SEP);
      PlainPieces(ns);
      RunsMarked(ns, x, 0);
      assert AllPlain(ns) && Marked(ns, x) && x !in ns;
    }
  }

  // ---- Which paths are found ----

  /** Each edge joins the row of the path before it. */
  ghost predicate Walked(q: PathQuery, p: Path) {
    p == [] || (Walked(q, p[..|p| - 1]) && p[|p| - 1] in q.edges && q.Joins(q.RowOf(p[..|p| - 1]), p[|p| - 1]))
  }

  ghost predicate ExtensionOf(q: PathQuery, p: Path, es: seq<Edge>, r: Path) {
    r != [] && r[..|r| - 1] == p && r[|r| - 1] in es && q.Joins(q.RowOf(p), r[|r| - 1])
  }

  lemma {:induction false} ExtendPathMembers(q: PathQuery, p: Path, es: seq<Edge>, r: Path)
    ensures r in q.ExtendPath(p, es) <==> ExtensionOf(q, p, es, r)
  {
    if es != [] {
      var (front, e) := (es[..|es| - 1], es[|es| - 1]);
      ExtendPathMembers(q, p, front, r);
      assert es == front + [e];
      assert (p + [e])[..|p|] == p;
      if r != [] { assert r == r[..|r| - 1] + [r[|r| - 1]]; }
    }
  }

  lemma {:induction false} ExtendPathsMembers(q: PathQuery, ps: seq<Path>, r: Path)
    ensures r in q.ExtendPaths(ps) <==> r != [] && r[..|r| - 1] in ps && ExtensionOf(q, r[..|r| - 1], q.edges, r)
  {
    if ps != [] {
      var (front, last) := (ps[..|ps| - 1], ps[|ps| - 1]);
      ExtendPathsMembers(q, front, r);
      ExtendPathMembers(q, last, q.edges, r);
      assert ps == front + [last];
    }
  }

  lemma {:induction false} PathsAtMembers(q: PathQuery, depth: nat, p: Path)
    ensures p in q.PathsAt(depth) <==> |p| == depth && Walked(q, p)
  {
    if depth > 0 {
      ExtendPathsMembers(q, q.PathsAt(depth - 1), p);
      if p != [] { PathsAtMembers(q, depth - 1, p[..|p| - 1]); }
    }
  }

  lemma {:induction false} PathsUpToMembers(q: PathQuery, depth: nat, p: Path)
    ensures p in q.PathsUpTo(depth) <==> |p| <= depth && Walked(q, p)
  {
    PathsAtMembers(q, depth, p);
    if depth > 0 { PathsUpToMembers(q, depth - 1, p); }
  }

  lemma {:induction false} ExtendPathDistinct(q: PathQuery, p: Path, es: seq<Edge>)
    requires Distinct(es)
    ensures Distinct(q.ExtendPath(p, es))
  {
    if es != [] {
      var (front, e) := (es[..|es| - 1], es[|es| - 1]);
      ExtendPathDistinct(q, p, front);
      ExtendPathMembers(q, p, front, p + [e]);
      assert e !in front;
    }
  }

  lemma {:induction false} ExtendPathsDistinct(q: PathQuery, ps: seq<Path>)
    requires Distinct(ps) && Distinct(q.edges)
    ensures Distinct(q.ExtendPaths(ps))
  {
    if ps != [] {
      var (front, last) := (ps[..|ps| - 1], ps[|ps| - 1]);
      ExtendPathsDistinct(q, front);
      ExtendPathDistinct(q, last, q.edges);
      forall r | r in q.ExtendPaths(front) ensures r !in q.ExtendPath(last, q.edges) {
        ExtendPathsMembers(q, front, r);
        ExtendPathMembers(q, last, q.edges, r);
      }
      DistinctConcat(q.ExtendPaths(front), q.ExtendPath(last, q.edges));
    }
  }

  lemma DepthsDiffer(q: PathQuery, depth: nat, p: Path)
    requires depth > 0 && p in q.PathsUpTo(depth - 1)
    ensures p !in q.PathsAt(depth)
  {
    PathsUpToMembers(q, depth - 1, p);
    PathsAtMembers(q, depth, p);
  }

  lemma {:induction false} PathsUpToDistinct(q: PathQuery, depth: nat)
    requires Distinct(q.edges)
    ensures Distinct(q.PathsAt(depth)) && Distinct(q.PathsUpTo(depth))
  {
    if depth > 0 {
      PathsUpToDistinct(q, depth - 1);
      ExtendPathsDistinct(q, q.PathsAt(depth - 1));
      forall p | p in q.PathsUpTo(depth - 1) ensures p !in q.PathsAt(depth) { DepthsDiffer(q, depth, p); }
      DistinctConcat(q.PathsUpTo(depth - 1), q.PathsAt(depth));
    }
  }

  // ---- Pruning changes nothing ----

  lemma {:induction false} NodesOfShape(q: PathQuery, p: Path)
    ensures |q.NodesOf(p)| == |p| + 1 && q.NodesOf(p)[0] == q.from && q.NodesOf(p)[|p|] == q.EndOf(p)
  {
    if p != [] { NodesOfShape(q, p[..|p| - 1]); }
  }

  /** Soundness: a walked path is acyclic, because visited nodes are always found in the string. */
  lemma {:induction false} WalkedIsSimple(q: PathQuery, p: Path)
    requires Walked(q, p)
    ensures q.Chained(p) && Distinct(q.NodesOf(p)) && |p| <= q.maxDepth
  {
    if p != [] {
      var (front, e) := (p[..|p| - 1], p[|p| - 1]);
      WalkedIsSimple(q, front);
      if e.to in q.NodesOf(front) { MemberMarked(q.NodesOf(front), e.to); }
      DistinctConcat(q.NodesOf(front), [e.to]);
    }
  }

  lemma {:induction false} PrefixFacts(q: PathQuery, p: Path, i: nat)
    requires i <= |p| && q.Chained(p)
    ensures q.Chained(p[..i]) && |q.NodesOf(p)| == |p| + 1 && q.NodesOf(p[..i]) == q.NodesOf(p)[..i + 1]
    ensures q.EndOf(p[..i]) == q.NodesOf(p)[i]
    ensures i < |p| ==>
              && p[i] in q.edges && q.Allowed(p[i])
              && p[i].from == q.NodesOf(p)[i] && p[i].to == q.NodesOf(p)[i + 1]
  {
    NodesOfShape(q, p);
    if i == |p| {
      assert p[..i] == p;
    } else {
      var front := p[..|p| - 1];
      PrefixFacts(q, front, i);
      assert front[..i] == p[..i];
      NodesOfShape(q, front);
    }
  }

  /** From node `i` of a path to `to`, the rest of the path leads there. */
  lemma {:induction false} SuffixDistance(q: PathQuery, p: Path, i: nat)
    requires i <= |p| && q.Chained(p) && q.EndOf(p) == q.to
    ensures |q.NodesOf(p)| == |p| + 1 && q.NodesOf(p)[i] in q.BackAt(|p| - i)
    decreases |p| - i
  {
    NodesOfShape(q, p);
    if i < |p| {
      SuffixDistance(q, p, i + 1);
      PrefixFacts(q, p, i);
      assert q.BackAt(|p| - i) == set e | e in q.edges && q.Allowed(e) && e.to in q.BackAt(|p| - i - 1) :: e.from;
    }
  }

  ghost predicate PlainIds(q: PathQuery) {
    Plain(q.from) && forall e :: e in q.edges ==> Plain(e.to)
  }

  lemma {:induction false} NodesPlain(q: PathQuery, p: Path)
    requires PlainIds(q) && q.Chained(p)
    ensures AllPlain(q.NodesOf(p))
  {
    if p != [] { NodesPlain(q, p[..|p| - 1]); }
  }

  /** No node on the path passes for visited when the path gets to it. */
  ghost predicate Unhidden(q: PathQuery, p: Path) {
    forall k :: 0 <= k < |p| ==> !Marked(q.NodesOf(p[..k]), p[k].to)
  }

  /** Plain IDs hide nothing. */
  lemma PlainIsUnhidden(q: PathQuery, p: Path)
    requires PlainIds(q) && q.Simple(p)
    ensures Unhidden(q, p)
  {
    forall k | 0 <= k < |p| ensures !Marked(q.NodesOf(p[..k]), p[k].to) {
      PrefixFacts(q, p, k);
      NodesPlain(q, p[..k]);
      if Marked(q.NodesOf(p[..k]), p[k].to) { MarkedMember(q.NodesOf(p[..k]), p[k].to); }
    }
  }

  lemma SimpleJoins(q: PathQuery, p: Path, k: nat)
    requires q.Simple(p) && k < |p| && !Marked(q.NodesOf(p[..k]), p[k].to)
    ensures p[k] in q.edges && q.Joins(q.RowOf(p[..k]), p[k])
  {
    PrefixFacts(q, p, k);
    SuffixDistance(q, p, k + 1);
    NodesOfShape(q, p);
    assert q.Near(p[k].to).Some? && q.Near(p[k].to).value <= |p| - k - 1;
  }

  /** Completeness: no prefix of a simple path is pruned that does not pass for cyclic. */
  lemma {:induction false} SimpleIsWalked(q: PathQuery, p: Path, i: nat)
    requires q.Simple(p) && Unhidden(q, p) && i <= |p|
    ensures Walked(q, p[..i])
  {
    if i > 0 {
      SimpleIsWalked(q, p, i - 1);
      assert p[..i][..i - 1] == p[..i - 1];
      SimpleJoins(q, p, i - 1);
    }
  }

  lemma {:induction false} WalkedIsUnhidden(q: PathQuery, p: Path)
    requires Walked(q, p)
    ensures Unhidden(q, p)
  {
    if p != [] {
      var front := p[..|p| - 1];
      WalkedIsUnhidden(q, front);
      forall k | 0 <= k < |p| ensures !Marked(q.NodesOf(p[..k]), p[k].to) {
        assert k < |front| ==> front[..k] == p[..k] && front[k] == p[k];
      }
    }
  }

  lemma LengthOrder(q: PathQuery)
    ensures TotalPreorder(q.ByLength())
  {
    var le := q.ByLength();
    forall a, b ensures le(a, b) || le(b, a) { LeTotal(IdString(a), IdString(b)); }
    forall a, b, c | le(a, b) && le(b, c) ensures le(a, c) {
      if |a| == |b| == |c| { LeTransitive(IdString(a), IdString(b), IdString(c)); }
    }
  }

  lemma FoundMembers(q: PathQuery, p: Path)
    ensures p in q.Found() <==> q.EndOf(p) == q.to && 0 < |p| <= q.maxDepth && Walked(q, p)
  {
    var hits := Filter(q.PathsUpTo(q.maxDepth), q.Reaches());
    SortPermutes(hits, q.ByLength());
    SameElements(q.Found(), hits);
    FilterMembers(q.PathsUpTo(q.maxDepth), q.Reaches(), p);
    PathsUpToMembers(q, q.maxDepth, p);
  }

  /** Exactly when an acyclic path in range is found: the string test hides none of its nodes. */
  lemma FoundExactly(q: PathQuery, p: Path)
    ensures p in q.Found() <==> q.Simple(p) && Unhidden(q, p)
  {
    FoundMembers(q, p);
    if p in q.Found() {
      WalkedIsSimple(q, p);
      WalkedIsUnhidden(q, p);
    }
    if q.Simple(p) && Unhidden(q, p) {
      SimpleIsWalked(q, p, |p|);
      assert p[..|p|] == p;
    }
  }

  /** The query finds all of them exactly when none is hidden; without separators in IDs none is. */
  lemma AllFoundExactly(q: PathQuery)
    ensures (forall p :: q.Simple(p) ==> p in q.Found()) <==> (forall p :: q.Simple(p) ==> Unhidden(q, p))
    ensures PlainIds(q) ==> forall p :: q.Simple(p) ==> p in q.Found()
  {
    forall p ensures p in q.Found() <==> q.Simple(p) && Unhidden(q, p) { FoundExactly(q, p); }
    if PlainIds(q) {
      forall p | q.Simple(p) ensures Unhidden(q, p) { PlainIsUnhidden(q, p); }
    }
  }

  /**
   * The query finds the simple paths that the string test does not hide, each once and shortest first;
   * and all of them, so that pruning by backward distances changes nothing, when no ID contains the separator.
   */
  lemma FoundPaths(q: PathQuery)
    requires Distinct(q.edges)
    ensures Distinct(q.Found())
    ensures forall i, j :: 0 <= i < j < |q.Found()| ==> |q.Found()[i]| <= |q.Found()[j]|
    ensures forall p :: p in q.Found() <==> q.Simple(p) && Unhidden(q, p)
    ensures PlainIds(q) ==> forall p :: q.Simple(p) ==> p in q.Found()
  {
    var all := q.PathsUpTo(q.maxDepth);
    var hits := Filter(all, q.Reaches());
    PathsUpToDistinct(q, q.maxDepth);
    FilterDistinct(all, q.Reaches());
    SortPermutes(hits, q.ByLength());
    PermutedDistinct(hits, q.Found());
    LengthOrder(q);
    SortSorts(hits, q.ByLength());
    forall p ensures p in q.Found() <==> q.Simple(p) && Unhidden(q, p) { FoundExactly(q, p); }
    AllFoundExactly(q);
  }

  /** The recursion of `walk` stops by itself: there are no rows beyond the depth limit. */
  lemma NoDeeperRows(q: PathQuery, depth: nat)
    requires depth > q.maxDepth
    ensures q.RowsAt(depth) == []
  {
    RowsAtArePaths(q, depth);
    if q.PathsAt(depth) != [] {
      var p := q.PathsAt(depth)[0];
      PathsAtMembers(q, depth, p);
      WalkedIsSimple(q, p);
    }
  }

  /** An ID that contains the separator can hide a path: the node "b" passes for visited. */
  lemma SeparatorHidesPath() returns (q: PathQuery, p: Path)
    ensures Distinct(q.edges) && q.Simple(p) && p !in q.Found()
  {
    var from := "a" + [SEP] + "b";
    var e := Edge(1, from, "b", Calls, map[]);
    q := PathQuery([e], from, "b", {}, 10);
    p := [e];
    HiddenPathIsSimple(q, p);
    HiddenIsMarked();
    assert p[..0] == [] && q.NodesOf([]) == [from];
    assert Marked(q.NodesOf(p[..0]), p[0].to);
    FoundExactly(q, p);
  }

  lemma HiddenIsMarked()
    ensures Marked(["a" + [SEP] + "b"], "b")
  {
    var ns := ["a" + [SEP] + "b"];
    SplitAt("a", SEP, "b");
    SplitWhole("a", SEP);
    SplitWhole("b", SEP);
    assert ns[..0] == [] && Pieces([]) == [];
    assert Pieces(ns) == ["a"] + ["b"];
    RunsMarked(ns, "b", 1);
  }

  lemma HiddenPathIsSimple(q: PathQuery, p: Path)
    requires |p| == 1 && p == q.edges && q.kinds == {} && p[0].from == q.from && p[0].to == q.to != q.from &&
             q.maxDepth == 10
    ensures q.Simple(p)
  {
    assert p[..|p| - 1] == [] && q.EndOf([]) == q.from && q.NodesOf([]) == [q.from];
    assert q.Chained([]);
    assert p[0] in q.edges && q.Chained(p);
    assert q.NodesOf(p) == [q.from] + [q.to];
  }
}
