/** Flow extraction (internal/flow/flow.go): depth-first expansion with memo, pruning and call merging. */
module Flow {
  import opened CodeGraph
  import opened FlowTree
  import opened Ordering
  import opened Wrappers
  import Text

  datatype Prune = PruneSinks | PruneModule | PruneNone

  /** Whether a call edge executes for request method `verb`, given the methods its caller branches on. */
  predicate RunsFor(verb: string, caller: Node, e: Edge) {
    var methods := Attr(e.attrs, "methods");
    methods == "" || verb == "" || verb == "ANY" ||
    var list := Text.Split(methods, ',');
    verb in list || ("*" in list && verb !in Text.Split(Attr(caller.attrs, "methodBranches"), ','))
  }

  /** Code outside the module, which is never looked into. */
  predicate External(n: Node) {
    Attr(n.attrs, "external") == "true" && n.kind != InterfaceCall
  }

  predicate IsCallKind(k: EdgeKind) { k == Calls || k == DispatchesTo }

  /** One flow extraction: the graph, the route it starts at and its options. */
  datatype Query = Query(g: Graph, root: string, verb: string, maxDepth: nat, prune: Prune) {

    ghost predicate Valid() {
      g.Valid() && root in g.nodes && !IsSink(g.nodes[root])
    }

    ghost predicate IsCall(from: string, e: Edge)
      requires Valid()
    {
      e in g.edges && e.from == from && IsCallKind(e.kind) && RunsFor(verb, g.nodes[from], e)
    }

    ghost predicate Executes(a: string, b: string)
      requires Valid()
    {
      exists e :: IsCall(a, e) && e.to == b
    }

    /** Functions of the module other than the start node: those whose calls are followed. */
    ghost predicate Expandable(x: string) {
      x in g.nodes && x != root && !IsSink(g.nodes[x]) && !External(g.nodes[x])
    }

    /** A call path: every node but the last is followed, and calls the next one. */
    ghost predicate Chain(p: seq<string>)
      requires Valid()
    {
      && |p| > 0
      && (forall i :: 0 <= i < |p| ==> p[i] in g.nodes)
      && (forall i :: 0 <= i < |p| - 1 ==> Expandable(p[i]) && Executes(p[i], p[i + 1]))
    }

    ghost predicate ChainTo(p: seq<string>, a: string, s: string)
      requires Valid()
    {
      Chain(p) && p[0] == a && p[|p| - 1] == s && IsSink(g.nodes[s])
    }

    /** `a` reaches the sink `s` by executing calls. */
    ghost predicate Reaches(a: string, s: string)
      requires Valid()
    {
      exists p :: ChainTo(p, a, s)
    }

    ghost predicate ReachesSink(a: string)
      requires Valid()
    {
      exists s :: Reaches(a, s)
    }

    ghost predicate HandlerReaches(e: Edge, s: string)
      requires Valid()
    {
      e in g.edges && e.from == root && e.kind == HandledBy && Reaches(e.to, s)
    }

    /** The route reaches the sink `s`: plain reachability, with none of the builder's shortcuts. */
    ghost predicate FlowReaches(s: string)
      requires Valid()
    {
      exists e :: HandlerReaches(e, s)
    }

    /** Following calls leads from `a` to `b`. */
    ghost predicate Follows(a: string, b: string)
      requires Valid()
    {
      exists p :: Chain(p) && p[0] == a && p[|p| - 1] == b
    }

    /** `x` can call itself again. */
    ghost predicate OnCycle(x: string)
      requires Valid()
    {
      exists p :: Chain(p) && |p| > 1 && p[0] == x && p[|p| - 1] == x
    }

    /** `y` reaches a sink, and following its calls never leads into a cycle. */
    ghost predicate LeadsPlainly(y: string)
      requires Valid()
    {
      ReachesSink(y) && forall z :: Follows(y, z) ==> !OnCycle(z)
    }

    /** The level of pruning keeps every call of `y`, wherever it stands. */
    ghost predicate Keeps(y: string) {
      && y in g.nodes
      && match prune
         case PruneNone => true
         case PruneModule => IsSink(g.nodes[y]) || !External(g.nodes[y])
         case PruneSinks => IsSink(g.nodes[y])
    }

    function Callees(x: string): seq<Neighbor>
      requires g.Valid()
    {
      g.Out(x, {Calls, DispatchesTo})
    }

    /** Executing call sites in the first `i` neighbours of `x` that lead to `y`. */
    function Sites(x: string, nbs: seq<Neighbor>, y: string): nat
      requires x in g.nodes
    {
      if nbs == [] then 0
      else
        var last := nbs[|nbs| - 1];
        Sites(x, nbs[..|nbs| - 1], y) + if RunsFor(verb, g.nodes[x], last.edge) && last.node.id == y then 1 else 0
    }

    function Tables(x: string): seq<Step>
      requires g.Valid()
    {
      TableSteps(g.Out(x, {Queries}))
    }
  }

  function TableSteps(nbs: seq<Neighbor>): seq<Step> {
    seq(|nbs|, i requires 0 <= i < |nbs| => NewStep(nbs[i].node, nbs[i].edge))
  }

  // ---- What a tree shows ----

  /** What one step shows; `Row` is a table listed under a SQL sink. */
  datatype Tag =
    | Body(id: string) | Ref(id: string) | Cycle(id: string) | Cut(id: string) | Leaf(id: string)
    | Sink(id: string) | Row(id: string, op: string)

  function Own(s: Step): Tag {
    var id := s.node.id;
    if s.cycle then Cycle(id)
    else if IsSink(s.node) then Sink(id)
    else if External(s.node) then Leaf(id)
    else if s.ref then Ref(id)
    else if s.truncated then Cut(id)
    else Body(id)
  }

  function Tags(s: Step): multiset<Tag>
    decreases s, 1
  {
    multiset{Own(s)} + if IsSink(s.node) then RowTags(s.children) else TagsOf(s.children)
  }

  function TagsOf(cs: seq<Step>): multiset<Tag>
    decreases cs, 0
  {
    if cs == [] then multiset{} else Tags(cs[0]) + TagsOf(cs[1..])
  }

  function RowTags(cs: seq<Step>): multiset<Tag> {
    if cs == [] then multiset{} else multiset{Row(cs[0].node.id, Attr(cs[0].edge.attrs, "op"))} + RowTags(cs[1..])
  }

  function OptTags(r: Option<Step>): multiset<Tag> {
    if r.Some? then Tags(r.value) else multiset{}
  }

  lemma {:induction false} RowTagsAreRows(cs: seq<Step>)
    ensures forall t :: t in RowTags(cs) ==> t.Row?
  {
    if cs != [] { RowTagsAreRows(cs[1..]); }
  }

  lemma {:induction false} TagsOfConcat(a: seq<Step>, b: seq<Step>)
    ensures TagsOf(a + b) == TagsOf(a) + TagsOf(b)
  {
    if a == [] {
      assert a + b == b;
    } else {
      assert (a + b)[1..] == a[1..] + b;
      TagsOfConcat(a[1..], b);
    }
  }

  lemma TagsOfSplit(cs: seq<Step>, i: nat)
    requires i < |cs|
    ensures TagsOf(cs) == TagsOf(cs[..i]) + Tags(cs[i]) + TagsOf(cs[i + 1..])
  {
    assert cs == cs[..i] + cs[i..];
    TagsOfConcat(cs[..i], cs[i..]);
    assert cs[i..][1..] == cs[i + 1..];
  }

  lemma TagsOfUpdate(cs: seq<Step>, i: nat, c: Step)
    requires i < |cs| && Tags(c) == Tags(cs[i])
    ensures TagsOf(cs[i := c]) == TagsOf(cs)
  {
    TagsOfSplit(cs, i);
    TagsOfSplit(cs[i := c], i);
    assert cs[i := c][..i] == cs[..i] && cs[i := c][i + 1..] == cs[i + 1..];
  }

  /** The order of siblings does not matter to what a tree shows. */
  lemma {:induction false} TagsOfPermuted(a: seq<Step>, b: seq<Step>)
    requires multiset(a) == multiset(b)
    ensures TagsOf(a) == TagsOf(b)
  {
    if a == [] {
      assert |b| == |multiset(b)| == 0;
    } else {
      var i := SomeIndex(a, b);
      TagsOfPermuted(a[1..], b[..i] + b[i + 1..]);
      TagsOfWithout(b, i);
    }
  }

  lemma SomeIndex(a: seq<Step>, b: seq<Step>) returns (i: nat)
    requires a != [] && multiset(a) == multiset(b)
    ensures i < |b| && b[i] == a[0] && multiset(a[1..]) == multiset(b[..i] + b[i + 1..])
  {
    assert a[0] in multiset(b);
    i :| 0 <= i < |b| && b[i] == a[0];
    WithoutElement(b, i);
    assert a == [a[0]] + a[1..];
  }

  lemma TagsOfWithout(b: seq<Step>, i: nat)
    requires i < |b|
    ensures TagsOf(b) == Tags(b[i]) + TagsOf(b[..i] + b[i + 1..])
  {
    TagsOfSplit(b, i);
    TagsOfConcat(b[..i], b[i + 1..]);
  }

  lemma WithoutElement(a: seq<Step>, i: nat)
    requires i < |a|
    ensures multiset(a[..i] + a[i + 1..]) == multiset(a) - multiset{a[i]}
  {
    assert a == a[..i] + [a[i]] + a[i + 1..];
  }

  // ---- The shape of a tree ----

  ghost predicate DistinctIds(cs: seq<Step>) {
    forall i, j :: 0 <= i < j < |cs| ==> cs[i].node.id != cs[j].node.id
  }

  function Times(c: Step): nat { if c.calls == 0 then 1 else c.calls }

  /** `c` stands for the calls from `x`: an executing edge, and `calls` counts all its sites. */
  ghost predicate CallStep(q: Query, x: string, c: Step)
    requires q.Valid() && x in q.g.nodes
  {
    q.IsCall(x, c.edge) && c.edge.to == c.node.id && q.Sites(x, q.Callees(x), c.node.id) == Times(c) && c.calls != 1
  }

  /** Where among the neighbours `nbs` of `x` the first executing call of `y` is; the end when there is none. */
  function FirstSite(q: Query, x: string, nbs: seq<Neighbor>, y: string): (i: nat)
    requires x in q.g.nodes
    ensures i <= |nbs| && (q.Sites(x, nbs, y) == 0 <==> i == |nbs|)
  {
    if nbs == [] then 0
    else
      var k := |nbs| - 1;
      var i := FirstSite(q, x, nbs[..k], y);
      if i < k || (RunsFor(q.verb, q.g.nodes[x], nbs[k].edge) && nbs[k].node.id == y) then i else k + 1
  }

  /** Steps for calls of `x`, each with the edge of its first site, in the order of these. */
  ghost predicate InCallOrder(q: Query, x: string, nbs: seq<Neighbor>, cs: seq<Step>)
    requires x in q.g.nodes
  {
    && (forall i :: 0 <= i < |cs| ==> AtFirstSite(q, x, nbs, cs[i]))
    && (forall i, j :: 0 <= i < j < |cs| ==> FirstSite(q, x, nbs, cs[i].node.id) < FirstSite(q, x, nbs, cs[j].node.id))
  }

  ghost predicate AtFirstSite(q: Query, x: string, nbs: seq<Neighbor>, c: Step)
    requires x in q.g.nodes
  {
    var i := FirstSite(q, x, nbs, c.node.id);
    i < |nbs| && nbs[i].edge == c.edge
  }

  /** The children of `x` are in call-site order, but for the grouping of parallel calls. */
  ghost predicate CallsInOrder(q: Query, x: string, children: seq<Step>)
    requires q.Valid() && x in q.g.nodes
  {
    exists cs :: children == Grouped(cs) && InCallOrder(q, x, q.Callees(x), cs)
  }

  lemma FirstSiteNext(q: Query, x: string, nbs: seq<Neighbor>, nb: Neighbor, y: string)
    requires x in q.g.nodes
    ensures FirstSite(q, x, nbs, y) < |nbs| ==> FirstSite(q, x, nbs + [nb], y) == FirstSite(q, x, nbs, y)
    ensures FirstSite(q, x, nbs, y) == |nbs| && RunsFor(q.verb, q.g.nodes[x], nb.edge) && nb.node.id == y
            ==> FirstSite(q, x, nbs + [nb], y) == |nbs|
  {
    assert (nbs + [nb])[..|nbs|] == nbs;
  }

  /** Further neighbours do not change the order of the steps there are. */
  lemma OrderKept(q: Query, x: string, nbs: seq<Neighbor>, nb: Neighbor, cs: seq<Step>)
    requires x in q.g.nodes && InCallOrder(q, x, nbs, cs)
    ensures InCallOrder(q, x, nbs + [nb], cs)
  {
    forall i | 0 <= i < |cs|
      ensures AtFirstSite(q, x, nbs + [nb], cs[i])
      ensures FirstSite(q, x, nbs + [nb], cs[i].node.id) == FirstSite(q, x, nbs, cs[i].node.id)
    {
      assert AtFirstSite(q, x, nbs, cs[i]);
      FirstSiteNext(q, x, nbs, nb, cs[i].node.id);
    }
  }

  lemma OrderAppended(q: Query, x: string, nbs: seq<Neighbor>, nb: Neighbor, cs: seq<Step>, r: Option<Step>)
    requires x in q.g.nodes && InCallOrder(q, x, nbs, cs)
    requires RunsFor(q.verb, q.g.nodes[x], nb.edge) && (r.Some? ==> q.Sites(x, nbs, nb.node.id) == 0)
    requires r.Some? ==> r.value.node == nb.node && r.value.edge == nb.edge
    ensures InCallOrder(q, x, nbs + [nb], Appended(cs, r))
  {
    OrderKept(q, x, nbs, nb, cs);
    if r.Some? {
      FirstSiteNext(q, x, nbs, nb, nb.node.id);
      forall i | 0 <= i < |cs| ensures FirstSite(q, x, nbs + [nb], cs[i].node.id) < |nbs| {
        assert AtFirstSite(q, x, nbs, cs[i]);
        FirstSiteNext(q, x, nbs, nb, cs[i].node.id);
      }
    }
  }

  predicate HasChild(cs: seq<Step>, id: string) {
    exists c :: c in cs && c.node.id == id
  }

  /** The calls of `x` that the level of pruning keeps are all shown. */
  ghost predicate ShowsCalls(q: Query, x: string, children: seq<Step>)
    requires q.Valid()
  {
    forall y :: q.Executes(x, y) && q.Keeps(y) ==> HasChild(children, y)
  }

  /** A faithful tree below the ancestors `path`. */
  ghost predicate WellFormed(q: Query, s: Step, path: seq<string>)
    requires q.Valid()
    decreases s
  {
    var id := s.node.id;
    && id in q.g.nodes && s.node == q.g.nodes[id]
    && match Own(s)
       case Cycle(_) => id in path && s.children == []
       case Sink(_) => s.children == q.Tables(id)
       case Body(_) =>
         && q.Expandable(id) && id !in path && |path| < q.maxDepth && DistinctIds(s.children)
         && Blocks(s.children) && CallsInOrder(q, id, s.children) && ShowsCalls(q, id, s.children)
         && (forall c :: c in s.children ==> CallStep(q, id, c) && WellFormed(q, c, path + [id]))
       case Cut(_) => |path| >= q.maxDepth && s.children == []
       case _ => s.children == []
  }

  lemma {:induction false} TagsOfWitness(cs: seq<Step>, t: Tag) returns (c: Step)
    requires t in TagsOf(cs)
    ensures c in cs && t in Tags(c)
  {
    if t in Tags(cs[0]) { c := cs[0]; } else { c := TagsOfWitness(cs[1..], t); }
  }

  lemma ReachesStep(q: Query, a: string, b: string, s: string)
    requires q.Valid() && q.Expandable(a) && q.Executes(a, b) && q.Reaches(b, s)
    ensures q.Reaches(a, s)
  {
    var p :| q.ChainTo(p, b, s);
    assert q.ChainTo([a] + p, a, s);
  }

  lemma SinkReachesItself(q: Query, s: string)
    requires q.Valid() && s in q.g.nodes && IsSink(q.g.nodes[s])
    ensures q.Reaches(s, s)
  {
    assert q.ChainTo([s], s, s);
  }

  /** No sink is invented: whatever a tree shows is reached by executing calls. */
  lemma {:induction false} TreeSinksReached(q: Query, step: Step, path: seq<string>, s: string)
    requires q.Valid() && WellFormed(q, step, path) && Sink(s) in Tags(step)
    ensures q.Reaches(step.node.id, s)
    decreases step
  {
    if IsSink(step.node) {
      RowTagsAreRows(step.children);
      if !step.cycle {
        SinkReachesItself(q, s);
      } else {
        assert false;
      }
    } else {
      var c := TagsOfWitness(step.children, Sink(s));
      TreeSinksReached(q, c, path + [step.node.id], s);
      assert q.Executes(step.node.id, c.node.id) by { assert q.IsCall(step.node.id, c.edge); }
      ReachesStep(q, step.node.id, c.node.id, s);
    }
  }

  lemma PermutedDistinctIds(a: seq<Step>, b: seq<Step>)
    requires DistinctIds(a) && multiset(a) == multiset(b)
    ensures DistinctIds(b)
  {
    forall i, j | 0 <= i < j < |b| ensures b[i].node.id != b[j].node.id {
      if b[i] == b[j] {
        assert b == b[..i] + [b[i]] + b[i + 1..j] + [b[j]] + b[j + 1..];
        assert multiset(a)[b[i]] >= 2;
        Twice(a, b[i]);
        assert false;
      } else {
        assert b[i] in multiset(a) && b[j] in multiset(a);
      }
    }
  }

  lemma {:induction false} Twice(a: seq<Step>, x: Step)
    requires multiset(a)[x] >= 2
    ensures exists i, j :: 0 <= i < j < |a| && a[i] == a[j] == x
  {
    assert a == [a[0]] + a[1..];
    if a[0] == x {
      assert x in multiset(a[1..]);
      var j :| 0 <= j < |a[1..]| && a[1..][j] == x;
      assert a[0] == a[j + 1] == x;
    } else {
      Twice(a[1..], x);
      var i, j :| 0 <= i < j < |a[1..]| && a[1..][i] == a[1..][j] == x;
      assert a[i + 1] == a[j + 1] == x;
    }
  }

  // ---- What the builder's memo guarantees ----

  /** The builder's maps; `cut` records whether the depth limit ever stopped an expansion. */
  datatype Memo = Memo(expanded: set<string>, leads: set<string>, cut: bool)

  ghost predicate MemoOk(q: Query, m: Memo)
    requires q.Valid()
  {
    match m
    case Memo(expanded, leads, _) =>
      && leads <= expanded
      && (forall x :: x in expanded ==> q.Expandable(x))
      && (forall x :: x in leads ==> q.ReachesSink(x))
  }

  /** Under `PruneSinks` only nodes that lead to a sink stay. */
  ghost predicate Kept(q: Query, m: Memo, x: string) { q.prune == PruneSinks ==> x in m.leads }

  /** Everything `x` calls has been dealt with, and `x` itself is shown if it is kept. */
  ghost predicate Explored(q: Query, b: Memo, tags: multiset<Tag>, x: string)
    requires q.Valid()
  {
    && q.Expandable(x)
    && (Kept(q, b, x) ==> Body(x) in tags)
    && (forall s :: q.Executes(x, s) ==> Covered(q, b, tags, s))
  }

  /** A call to `s` is accounted for: a sink is shown, a function expanded. */
  ghost predicate Covered(q: Query, b: Memo, tags: multiset<Tag>, s: string) {
    && s in q.g.nodes
    && (IsSink(q.g.nodes[s]) ==> Sink(s) in tags)
    && (q.Expandable(s) && !b.cut ==> s in b.expanded)
  }

  ghost predicate TagOk(q: Query, a: Memo, b: Memo, t: Tag) {
    match t
    case Body(x) => x in b.expanded - a.expanded && Kept(q, b, x)
    case Ref(x) => x in b.expanded && Kept(q, b, x)
    case Cycle(_) => q.prune != PruneSinks
    case Leaf(_) => q.prune == PruneNone
    case Cut(_) => b.cut
    case Sink(_) => true
    case Row(_, _) => true
  }

  /** Going from memo `a` to memo `b` produced steps showing `tags`; `open` are nodes still being expanded. */
  ghost predicate Progress(q: Query, open: set<string>, a: Memo, b: Memo, tags: multiset<Tag>)
    requires q.Valid()
  {
    && a.expanded <= b.expanded && a.leads <= b.leads && (a.cut ==> b.cut)
    && (forall x :: x in b.leads && x !in a.leads ==> x in open || (x in b.expanded && x !in a.expanded))
    && (forall x :: x in b.expanded - a.expanded ==> Explored(q, b, tags, x))
    && (forall t :: t in tags ==> TagOk(q, a, b, t))
    && (forall x :: tags[Body(x)] <= 1)
    && (b.cut && !a.cut && q.prune != PruneSinks ==> ShowsCut(tags))
  }

  /** Some step is marked as cut off by the depth limit. */
  ghost predicate ShowsCut(tags: multiset<Tag>) { exists x :: Cut(x) in tags }

  lemma ProgressTrans(q: Query, open: set<string>, a: Memo, b: Memo, c: Memo, s: multiset<Tag>, t: multiset<Tag>)
    requires q.Valid() && Progress(q, open, a, b, s) && Progress(q, {}, b, c, t) && MemoOk(q, b)
    ensures Progress(q, open, a, c, s + t)
  {
    forall x | x in c.expanded - a.expanded ensures Explored(q, c, s + t, x) {
      if x in b.expanded {
        assert Explored(q, b, s, x);
        forall y | q.Executes(x, y) ensures Covered(q, c, s + t, y) { assert Covered(q, b, s, y); }
        if Kept(q, c, x) {
          assert Kept(q, b, x);
        }
      } else {
        assert Explored(q, c, t, x);
        forall y | q.Executes(x, y) ensures Covered(q, c, s + t, y) { assert Covered(q, c, t, y); }
      }
    }
    forall u | u in s + t ensures TagOk(q, a, c, u) {
      if u in s { assert TagOk(q, a, b, u); } else { assert TagOk(q, b, c, u); }
    }
    forall x ensures Body(x) in s ==> x in b.expanded { if Body(x) in s { assert TagOk(q, a, b, Body(x)); } }
    forall x | Cut(x) in s || Cut(x) in t ensures Cut(x) in s + t {}
    forall x ensures Body(x) in t ==> x !in b.expanded { if Body(x) in t { assert TagOk(q, b, c, Body(x)); } }
  }

  /** `leads[n] = true` while `n` is open. */
  lemma ProgressLead(q: Query, n: string, a: Memo, b: Memo, tags: multiset<Tag>)
    requires q.Valid() && Progress(q, {n}, a, b, tags) && n in a.expanded
    ensures Progress(q, {n}, a, b.(leads := b.leads + {n}), tags)
  {
    var c := b.(leads := b.leads + {n});
    forall x | x in c.expanded - a.expanded ensures Explored(q, c, tags, x) {
      assert Explored(q, b, tags, x);
      forall y | q.Executes(x, y) ensures Covered(q, c, tags, y) { assert Covered(q, b, tags, y); }
    }
    forall t | t in tags ensures TagOk(q, a, c, t) { assert TagOk(q, a, b, t); }
  }

  // ---- One expansion ----

  /** Calls to `s` leave no step, now and from now on. */
  ghost predicate Dropped(q: Query, m: Memo, path: seq<string>, s: string) {
    s in q.g.nodes &&
    if s in path then q.prune == PruneSinks
    else if IsSink(q.g.nodes[s]) then false
    else if External(q.g.nodes[s]) then q.prune != PruneNone
    else q.prune == PruneSinks && s in m.expanded && s !in m.leads
  }

  /** A step in the making among the children of `n`, after the neighbours `nbs`. */
  ghost predicate ChildOk(q: Query, n: string, path: seq<string>, seen: set<string>, nbs: seq<Neighbor>, c: Step)
    requires q.Valid() && n in q.g.nodes
  {
    && c.node.id in seen && WellFormed(q, c, path)
    && q.IsCall(n, c.edge) && c.edge.to == c.node.id
    && q.Sites(n, nbs, c.node.id) == Times(c) && c.calls != 1
  }

  ghost predicate Handled(q: Query, path: seq<string>, b: Memo, cs: seq<Step>, seen: set<string>) {
    forall s :: s in seen ==> Covered(q, b, TagsOf(cs), s) && (HasChild(cs, s) || Dropped(q, b, path, s))
  }

  /** The loop of `expand` for node `n`: calls to `seen` are handled, `nbs` were looked at. */
  ghost predicate Partial(q: Query, n: string, path: seq<string>, a: Memo, b: Memo, cs: seq<Step>, seen: set<string>,
                          nbs: seq<Neighbor>)
    requires q.Valid() && n in q.g.nodes
  {
    match b
    case Memo(_, leads, _) =>
    && Progress(q, {n}, a, b, TagsOf(cs))
    && Handled(q, path, b, cs, seen)
    && (forall s :: s !in seen ==> q.Sites(n, nbs, s) == 0)
    && DistinctIds(cs) && InCallOrder(q, n, nbs, cs)
    && (forall c :: c in cs ==> ChildOk(q, n, path, seen, nbs, c))
    && (q.prune == PruneSinks && n !in leads ==> forall t :: t in TagsOf(cs) ==> t.Cut?)
  }

  lemma SitesNext(q: Query, n: string, nbs: seq<Neighbor>, nb: Neighbor, y: string)
    requires n in q.g.nodes
    ensures q.Sites(n, nbs + [nb], y) ==
            q.Sites(n, nbs, y) + if RunsFor(q.verb, q.g.nodes[n], nb.edge) && nb.node.id == y then 1 else 0
  {
    assert (nbs + [nb])[..|nbs|] == nbs;
  }

  lemma {:induction false} SitesFound(q: Query, n: string, nbs: seq<Neighbor>, nb: Neighbor)
    requires n in q.g.nodes && nb in nbs && RunsFor(q.verb, q.g.nodes[n], nb.edge)
    ensures q.Sites(n, nbs, nb.node.id) > 0
  {
    if nb != nbs[|nbs| - 1] { SitesFound(q, n, nbs[..|nbs| - 1], nb); }
  }

  lemma AllSeen(q: Query, n: string, seen: set<string>)
    requires q.Valid() && n in q.g.nodes && forall s :: s !in seen ==> q.Sites(n, q.Callees(n), s) == 0
    ensures forall s :: q.Executes(n, s) ==> s in seen
  {
    forall s | q.Executes(n, s) ensures s in seen {
      var c :| q.IsCall(n, c) && c.to == s;
      SitesFound(q, n, q.Callees(n), Neighbor(c, q.g.nodes[s]));
    }
  }

  lemma NothingYet(q: Query, n: string, path: seq<string>, m: Memo)
    requires q.Valid() && n in q.g.nodes
    ensures Partial(q, n, path, m, m, [], {}, [])
  {
  }

  /** A call edge that does not execute changes nothing. */
  lemma SkipCall(q: Query, n: string, path: seq<string>, a: Memo, b: Memo, cs: seq<Step>, seen: set<string>,
                 nbs: seq<Neighbor>, nb: Neighbor)
    requires q.Valid() && n in q.g.nodes && Partial(q, n, path, a, b, cs, seen, nbs)
    requires !RunsFor(q.verb, q.g.nodes[n], nb.edge)
    ensures Partial(q, n, path, a, b, cs, seen, nbs + [nb])
  {
    forall y ensures q.Sites(n, nbs + [nb], y) == q.Sites(n, nbs, y) { SitesNext(q, n, nbs, nb, y); }
    OrderKept(q, n, nbs, nb, cs);
    forall c | c in cs ensures ChildOk(q, n, path, seen, nbs + [nb], c) { assert ChildOk(q, n, path, seen, nbs, c); }
  }

  function Merged(c: Step): Step { c.(calls := Times(c) + 1) }

  lemma MergedChild(q: Query, c: Step, path: seq<string>)
    requires q.Valid() && WellFormed(q, c, path)
    ensures WellFormed(q, Merged(c), path) && Tags(Merged(c)) == Tags(c)
  {
    assert Own(Merged(c)) == Own(c);
  }

  /** A further call of the same node is counted on the step it already has. */
  lemma MergeCall(q: Query, n: string, path: seq<string>, a: Memo, b: Memo, cs: seq<Step>, seen: set<string>,
                  nbs: seq<Neighbor>, nb: Neighbor, i: nat)
    requires q.Valid() && n in q.g.nodes && Partial(q, n, path, a, b, cs, seen, nbs)
    requires RunsFor(q.verb, q.g.nodes[n], nb.edge)
    requires i < |cs| && cs[i].node.id == nb.node.id
    ensures Partial(q, n, path, a, b, cs[i := Merged(cs[i])], seen, nbs + [nb])
  {
    assert cs[i] in cs;
    assert ChildOk(q, n, path, seen, nbs, cs[i]);
    MergedChild(q, cs[i], path);
    TagsOfUpdate(cs, i, Merged(cs[i]));
    MergedChildren(q, n, path, cs, seen, nbs, nb, i);
    MergedOrder(q, n, nbs, nb, cs, i);
    MergedHandled(q, path, b, cs, seen, i);
    forall s | s !in seen ensures q.Sites(n, nbs + [nb], s) == 0 { SitesNext(q, n, nbs, nb, s); }
  }

  lemma MergedHandled(q: Query, path: seq<string>, b: Memo, cs: seq<Step>, seen: set<string>, i: nat)
    requires q.Valid() && i < |cs| && Handled(q, path, b, cs, seen)
    requires TagsOf(cs[i := Merged(cs[i])]) == TagsOf(cs)
    ensures Handled(q, path, b, cs[i := Merged(cs[i])], seen)
  {
    forall s | HasChild(cs, s) ensures HasChild(cs[i := Merged(cs[i])], s) { MergedHasChild(cs, i, s); }
  }

  lemma MergedHasChild(cs: seq<Step>, i: nat, s: string)
    requires i < |cs| && HasChild(cs, s)
    ensures HasChild(cs[i := Merged(cs[i])], s)
  {
    var d :| d in cs && d.node.id == s;
    var j :| 0 <= j < |cs| && cs[j] == d;
    assert cs[i := Merged(cs[i])][j] in cs[i := Merged(cs[i])] && cs[i := Merged(cs[i])][j].node.id == s;
  }

  lemma MergedOrder(q: Query, n: string, nbs: seq<Neighbor>, nb: Neighbor, cs: seq<Step>, i: nat)
    requires n in q.g.nodes && InCallOrder(q, n, nbs, cs) && i < |cs|
    ensures InCallOrder(q, n, nbs + [nb], cs[i := Merged(cs[i])])
  {
    OrderKept(q, n, nbs, nb, cs);
    var cs' := cs[i := Merged(cs[i])];
    forall j | 0 <= j < |cs'| ensures AtFirstSite(q, n, nbs + [nb], cs'[j]) && cs'[j].node.id == cs[j].node.id {
      assert AtFirstSite(q, n, nbs + [nb], cs[j]);
    }
  }

  lemma MergedChildren(q: Query, n: string, path: seq<string>, cs: seq<Step>, seen: set<string>, nbs: seq<Neighbor>,
                       nb: Neighbor, i: nat)
    requires q.Valid() && n in q.g.nodes && RunsFor(q.verb, q.g.nodes[n], nb.edge)
    requires i < |cs| && cs[i].node.id == nb.node.id && WellFormed(q, Merged(cs[i]), path)
    requires DistinctIds(cs) && forall c :: c in cs ==> ChildOk(q, n, path, seen, nbs, c)
    ensures var cs' := cs[i := Merged(cs[i])];
      DistinctIds(cs') && forall c :: c in cs' ==> ChildOk(q, n, path, seen, nbs + [nb], c)
  {
    var cs' := cs[i := Merged(cs[i])];
    forall c | c in cs' ensures ChildOk(q, n, path, seen, nbs + [nb], c) {
      var j :| 0 <= j < |cs'| && cs'[j] == c;
      assert cs[j] in cs;
      assert ChildOk(q, n, path, seen, nbs, cs[j]);
      SitesNext(q, n, nbs, nb, c.node.id);
    }
  }

  /** What `expand` promises its caller about a call to `nb` with result `r`, going from memo `b` to `c`. */
  ghost predicate Expansion(q: Query, path: seq<string>, b: Memo, c: Memo, nb: Neighbor, r: Option<Step>)
    requires q.Valid()
  {
    var s := nb.node.id;
    && Progress(q, {}, b, c, OptTags(r))
    && Covered(q, c, OptTags(r), s)
    && (q.Expandable(s) && |path| < q.maxDepth ==> s in c.expanded)
    && (Dropped(q, b, path, s) ==> r.None?)
    && (r.None? ==> Dropped(q, c, path, s))
    && (r.Some? ==>
          && WellFormed(q, r.value, path)
          && r.value.node == nb.node && r.value.edge == nb.edge && r.value.calls == 0)
    && (q.prune == PruneSinks && r.Some? ==>
          IsSink(nb.node) || s in c.leads || forall t :: t in Tags(r.value) ==> t.Cut?)
  }

  predicate Leads(c: Memo, nb: Neighbor, r: Option<Step>) {
    r.Some? && (IsSink(nb.node) || nb.node.id in c.leads)
  }

  /** `leads` after a call of `n` that gave `r`. */
  function NextMemo(n: string, c: Memo, nb: Neighbor, r: Option<Step>): Memo {
    if Leads(c, nb, r) then c.(leads := c.leads + {n}) else c
  }

  function Appended(cs: seq<Step>, r: Option<Step>): seq<Step> { if r.Some? then cs + [r.value] else cs }

  lemma AppendedTags(cs: seq<Step>, r: Option<Step>)
    ensures TagsOf(Appended(cs, r)) == TagsOf(cs) + OptTags(r)
  {
    if r.Some? {
      TagsOfConcat(cs, [r.value]);
      assert TagsOf([r.value]) == Tags(r.value);
    }
  }

  lemma AddedProgress(q: Query, n: string, path: seq<string>, a: Memo, b: Memo, c: Memo, tags: multiset<Tag>,
                      nb: Neighbor, r: Option<Step>)
    requires q.Valid() && n in a.expanded && Progress(q, {n}, a, b, tags) && MemoOk(q, b) &&
             Expansion(q, path, b, c, nb, r)
    requires q.prune == PruneSinks && n !in b.leads ==> forall t :: t in tags ==> t.Cut?
    ensures var c' := NextMemo(n, c, nb, r);
      && Progress(q, {n}, a, c', tags + OptTags(r))
      && (q.prune == PruneSinks && n !in c'.leads ==> forall t :: t in tags + OptTags(r) ==> t.Cut?)
  {
    ProgressTrans(q, {n}, a, b, c, tags, OptTags(r));
    if Leads(c, nb, r) { ProgressLead(q, n, a, c, tags + OptTags(r)); }
    forall t | t in tags + OptTags(r) ensures t in tags || t in OptTags(r) {}
  }

  /** Expanding the callee gave `r`; it is appended when there is something to show. */
  lemma AddCall(q: Query, n: string, path: seq<string>, a: Memo, b: Memo, c: Memo, cs: seq<Step>, seen: set<string>,
                nbs: seq<Neighbor>, nb: Neighbor, r: Option<Step>)
    requires q.Valid() && n in path && n in q.g.nodes && n in a.expanded && Partial(q, n, path, a, b, cs, seen, nbs)
    requires RunsFor(q.verb, q.g.nodes[n], nb.edge) && q.IsCall(n, nb.edge) && nb.edge.to == nb.node.id
    requires MemoOk(q, b) && Expansion(q, path, b, c, nb, r) && !HasChild(cs, nb.node.id)
    ensures Partial(q, n, path, a, NextMemo(n, c, nb, r), Appended(cs, r), seen + {nb.node.id}, nbs + [nb])
  {
    var c' := NextMemo(n, c, nb, r);
    AppendedTags(cs, r);
    AddedProgress(q, n, path, a, b, c, TagsOf(cs), nb, r);
    AddedHandled(q, n, path, b, c, c', cs, seen, nb, r);
    AddedChildren(q, n, path, cs, seen, nbs, nb, r);
    OrderAppended(q, n, nbs, nb, cs, r);
  }

  lemma AddedChildren(q: Query, n: string, path: seq<string>, cs: seq<Step>, seen: set<string>, nbs: seq<Neighbor>,
                      nb: Neighbor, r: Option<Step>)
    requires q.Valid() && n in q.g.nodes && RunsFor(q.verb, q.g.nodes[n], nb.edge)
    requires q.IsCall(n, nb.edge) && nb.edge.to == nb.node.id
    requires DistinctIds(cs) && !HasChild(cs, nb.node.id) && (r.Some? ==> nb.node.id !in seen)
    requires forall s :: s !in seen ==> q.Sites(n, nbs, s) == 0
    requires forall c :: c in cs ==> ChildOk(q, n, path, seen, nbs, c)
    requires r.Some? ==>
               && WellFormed(q, r.value, path)
               && r.value.node == nb.node && r.value.edge == nb.edge && r.value.calls == 0
    ensures DistinctIds(Appended(cs, r))
    ensures forall s :: s !in seen + {nb.node.id} ==> q.Sites(n, nbs + [nb], s) == 0
    ensures forall c :: c in Appended(cs, r) ==> ChildOk(q, n, path, seen + {nb.node.id}, nbs + [nb], c)
  {
    var s := nb.node.id;
    var cs' := Appended(cs, r);
    forall y | y !in seen + {s} ensures q.Sites(n, nbs + [nb], y) == 0 { SitesNext(q, n, nbs, nb, y); }
    forall d | d in cs' ensures ChildOk(q, n, path, seen + {s}, nbs + [nb], d) {
      SitesNext(q, n, nbs, nb, d.node.id);
      if d in cs { assert ChildOk(q, n, path, seen, nbs, d); }
    }
    forall i, j | 0 <= i < j < |cs'| ensures cs'[i].node.id != cs'[j].node.id {
      assert cs[i] in cs;
    }
  }

  lemma AddedHandled(q: Query, n: string, path: seq<string>, b: Memo, c: Memo, c': Memo, cs: seq<Step>,
                     seen: set<string>, nb: Neighbor, r: Option<Step>)
    requires q.Valid() && n in path && Handled(q, path, b, cs, seen)
    requires Expansion(q, path, b, c, nb, r) && !HasChild(cs, nb.node.id)
    requires c' == c || c' == c.(leads := c.leads + {n})
    requires TagsOf(Appended(cs, r)) == TagsOf(cs) + OptTags(r)
    ensures Handled(q, path, c', Appended(cs, r), seen + {nb.node.id})
    ensures r.Some? ==> nb.node.id !in seen
  {
    var s := nb.node.id;
    var cs' := Appended(cs, r);
    assert forall d :: d in cs ==> d in cs';
    if r.Some? { assert r.value in cs'; }
    forall x | x in seen + {s}
      ensures Covered(q, c', TagsOf(cs'), x) && (HasChild(cs', x) || Dropped(q, c', path, x))
    {
      if x in seen {
        assert Covered(q, b, TagsOf(cs), x);
        if HasChild(cs, x) {
          var d :| d in cs && d.node.id == x;
          assert d in cs';
        } else {
          assert Dropped(q, b, path, x);
        }
      } else {
        assert Covered(q, c, OptTags(r), x);
      }
    }
  }

  /** The children of `n` are complete and `n` is kept. */
  lemma FinishKept(q: Query, n: string, path: seq<string>, a0: Memo, b: Memo, cs: seq<Step>, seen: set<string>,
                   nb: Neighbor)
    requires q.Valid() && q.Expandable(n) && n !in path && n !in a0.expanded && MemoOk(q, a0)
    requires nb.node == q.g.nodes[n] && nb.node.id == n
    requires Partial(q, n, path + [n], a0.(expanded := a0.expanded + {n}), b, cs, seen, q.Callees(n))
    requires forall s :: q.Executes(n, s) ==> s in seen
    requires MemoOk(q, b) && PathOk(q, b, path + [n])
    requires Kept(q, b, n) && |path| < q.maxDepth
    ensures Expansion(q, path, a0, b, nb, Some(NewStep(nb.node, nb.edge).(children := Grouped(cs))))
  {
    var step := NewStep(nb.node, nb.edge).(children := Grouped(cs));
    GroupedPermutes(cs);
    SameElements(cs, Grouped(cs));
    TagsOfPermuted(cs, Grouped(cs));
    PermutedDistinctIds(cs, Grouped(cs));
    GroupedBlocks(cs);
    assert CallsInOrder(q, n, step.children);
    assert Own(step) == Body(n);
    KeptCallsShown(q, n, path + [n], b, cs, seen);
    KeptProgress(q, n, path, a0, b, cs, seen);
    forall c | c in step.children ensures CallStep(q, n, c) && WellFormed(q, c, path + [n]) {
      assert ChildOk(q, n, path + [n], seen, q.Callees(n), c);
    }
  }

  lemma KeptCallsShown(q: Query, n: string, path: seq<string>, b: Memo, cs: seq<Step>, seen: set<string>)
    requires q.Valid() && MemoOk(q, b) && PathOk(q, b, path) && Handled(q, path, b, cs, seen)
    requires forall s :: q.Executes(n, s) ==> s in seen
    ensures ShowsCalls(q, n, Grouped(cs))
  {
    GroupedPermutes(cs);
    SameElements(cs, Grouped(cs));
    forall y | q.Executes(n, y) && q.Keeps(y) ensures HasChild(Grouped(cs), y) {
      OnPath(q, path, b, y);
      assert HasChild(cs, y);
    }
  }

  lemma KeptProgress(q: Query, n: string, path: seq<string>, a0: Memo, b: Memo, cs: seq<Step>, seen: set<string>)
    requires q.Valid() && q.Expandable(n) && n !in a0.expanded && MemoOk(q, a0)
    requires Progress(q, {n}, a0.(expanded := a0.expanded + {n}), b, TagsOf(cs)) && Handled(q, path + [n], b, cs, seen)
    requires forall s :: q.Executes(n, s) ==> s in seen
    requires Kept(q, b, n)
    ensures Progress(q, {}, a0, b, multiset{Body(n)} + TagsOf(cs))
  {
    var a := a0.(expanded := a0.expanded + {n});
    var tags := multiset{Body(n)} + TagsOf(cs);
    forall x | x in b.expanded - a0.expanded ensures Explored(q, b, tags, x) {
      if x != n { assert Explored(q, b, TagsOf(cs), x); }
      forall y | q.Executes(x, y) ensures Covered(q, b, tags, y) { assert Covered(q, b, TagsOf(cs), y); }
    }
    forall t | t in tags ensures TagOk(q, a0, b, t) {
      if t in TagsOf(cs) { assert TagOk(q, a, b, t); }
    }
    assert Body(n) in TagsOf(cs) ==> TagOk(q, a, b, Body(n));
  }

  /** Under `PruneSinks` nothing below `n` leads to a sink: the whole subtree goes, and loses no sink. */
  lemma FinishDropped(q: Query, n: string, path: seq<string>, a0: Memo, b: Memo, cs: seq<Step>, seen: set<string>,
                      nb: Neighbor)
    requires q.Valid() && q.Expandable(n) && n !in path && n !in a0.expanded && MemoOk(q, a0)
    requires nb.node == q.g.nodes[n] && nb.node.id == n
    requires Partial(q, n, path + [n], a0.(expanded := a0.expanded + {n}), b, cs, seen, q.Callees(n))
    requires forall s :: q.Executes(n, s) ==> s in seen
    requires !Kept(q, b, n)
    ensures Expansion(q, path, a0, b, nb, None)
  {
    var none: multiset<Tag> := multiset{};
    forall x | x in b.expanded - a0.expanded ensures Explored(q, b, none, x) {
      if x != n {
        assert Explored(q, b, TagsOf(cs), x);
        forall y | q.Executes(x, y) ensures Covered(q, b, none, y) { assert Covered(q, b, TagsOf(cs), y); }
      } else {
        forall y | q.Executes(x, y) ensures Covered(q, b, none, y) { assert Covered(q, b, TagsOf(cs), y); }
      }
    }
  }

  /** The ancestors of a step: the route, then nodes being expanded, each called by the one before. */
  ghost predicate PathOk(q: Query, m: Memo, path: seq<string>)
    requires q.Valid()
  {
    && |path| > 0 && path[0] == q.root
    && (forall i :: 0 < i < |path| ==> path[i] in m.expanded)
    && (forall i, j :: 0 <= i < j < |path| ==> path[i] != path[j])
    && (forall i :: 0 < i < |path| - 1 ==> q.Executes(path[i], path[i + 1]))
  }

  /** What the last of the ancestors calls. */
  ghost predicate CalledFrom(q: Query, path: seq<string>, x: string)
    requires q.Valid()
  {
    |path| > 1 ==> q.Executes(path[|path| - 1], x)
  }

  lemma PathExtends(q: Query, path: seq<string>, m: Memo, x: string)
    requires q.Valid() && PathOk(q, m, path) && CalledFrom(q, path, x) && x !in path
    ensures PathOk(q, m.(expanded := m.expanded + {x}), path + [x])
  {
  }

  lemma PathGrows(q: Query, path: seq<string>, m: Memo, m': Memo)
    requires q.Valid() && PathOk(q, m, path) && m.expanded <= m'.expanded
    ensures PathOk(q, m', path)
  {
  }

  // ---- What leads to no sink ----

  /** `x` was expanded without finding a sink. */
  ghost predicate GivenUp(m: Memo, path: seq<string>, x: string) { x in m.expanded && x !in m.leads && x !in path }

  /** `x` calls no sink, and only functions given up as well, unless it is on a call cycle. */
  ghost predicate LeadsNowhere(q: Query, m: Memo, path: seq<string>, x: string)
    requires q.Valid()
  {
    forall y :: q.Executes(x, y) ==>
      !IsSink(q.g.nodes[y]) && (q.Expandable(y) && !m.cut ==> q.OnCycle(x) || GivenUp(m, path, y))
  }

  ghost predicate Settled(q: Query, m: Memo, path: seq<string>)
    requires q.Valid()
  {
    q.prune == PruneSinks ==> forall x :: GivenUp(m, path, x) ==> LeadsNowhere(q, m, path, x)
  }

  lemma SettledOpens(q: Query, m: Memo, path: seq<string>, n: string)
    requires q.Valid() && Settled(q, m, path) && n !in m.expanded
    ensures Settled(q, m.(expanded := m.expanded + {n}), path + [n])
  {
    var m' := m.(expanded := m.expanded + {n});
    forall x | GivenUp(m', path + [n], x) && q.prune == PruneSinks ensures LeadsNowhere(q, m', path + [n], x) {
      assert GivenUp(m, path, x) && LeadsNowhere(q, m, path, x);
    }
  }

  /** The limit, and leads of functions being expanded, do not matter. */
  lemma SettledStays(q: Query, m: Memo, m': Memo, path: seq<string>)
    requires q.Valid() && Settled(q, m, path) && m'.expanded == m.expanded && m.leads <= m'.leads
    requires forall x :: x in m'.leads - m.leads ==> x in path
    requires m.cut ==> m'.cut
    ensures Settled(q, m', path)
  {
    forall x | GivenUp(m', path, x) && q.prune == PruneSinks ensures LeadsNowhere(q, m', path, x) {
      assert GivenUp(m, path, x) && LeadsNowhere(q, m, path, x);
    }
  }

  /** An ancestor that is called again is on a cycle with the caller. */
  lemma AncestorsCycle(q: Query, m: Memo, path: seq<string>, y: string)
    requires q.Valid() && MemoOk(q, m) && PathOk(q, m, path) && |path| > 1
    requires y in path && y != q.root && q.Executes(path[|path| - 1], y)
    ensures q.OnCycle(y) && q.OnCycle(path[|path| - 1])
  {
    var i :| 0 <= i < |path| && path[i] == y;
    var p := path[i..];
    AncestorsChain(q, m, path, i);
    ChainAppend(q, p, y);
    ChainPrepend(q, path[|path| - 1], p);
    assert (p + [y])[0] == y && ([path[|path| - 1]] + p)[|p|] == path[|path| - 1];
  }

  lemma AncestorsChain(q: Query, m: Memo, path: seq<string>, i: nat)
    requires q.Valid() && MemoOk(q, m) && PathOk(q, m, path) && 0 < i < |path|
    ensures q.Chain(path[i..]) && q.Expandable(path[|path| - 1])
  {
    var p := path[i..];
    forall j | 0 <= j < |p| ensures q.Expandable(p[j]) { assert p[j] == path[i + j]; }
    forall j | 0 <= j < |p| - 1 ensures q.Executes(p[j], p[j + 1]) {
      assert p[j] == path[i + j] && p[j + 1] == path[i + j + 1];
    }
  }

  lemma ChainAppend(q: Query, p: seq<string>, y: string)
    requires q.Valid() && q.Chain(p) && q.Expandable(p[|p| - 1]) && q.Executes(p[|p| - 1], y)
    ensures q.Chain(p + [y])
  {
  }

  lemma ChainPrepend(q: Query, x: string, p: seq<string>)
    requires q.Valid() && q.Chain(p) && q.Expandable(x) && q.Executes(x, p[0])
    ensures q.Chain([x] + p)
  {
  }

  lemma CallsNowhere(q: Query, n: string, path: seq<string>, a: Memo, b: Memo, cs: seq<Step>, seen: set<string>,
                     y: string)
    requires q.Valid() && MemoOk(q, b) && PathOk(q, b, path) && |path| > 1 && path[|path| - 1] == n
    requires n in q.g.nodes && q.prune == PruneSinks && n !in b.leads &&
             Partial(q, n, path, a, b, cs, seen, q.Callees(n))
    requires q.Executes(n, y) && y in seen
    ensures !IsSink(q.g.nodes[y]) && (q.Expandable(y) && !b.cut ==> q.OnCycle(n) || GivenUp(b, path, y))
  {
    assert Covered(q, b, TagsOf(cs), y);
    assert Sink(y) !in TagsOf(cs);
    if q.Expandable(y) && !b.cut {
      if cs != [] { NoTagsNoSteps(q, a, b, cs); }
      if y in path { AncestorsCycle(q, b, path, y); }
    }
  }

  lemma FirstIsShown(cs: seq<Step>)
    requires cs != []
    ensures Own(cs[0]) in TagsOf(cs)
  {
  }

  /** Only cut off steps lead nowhere and are shown. */
  lemma NoTagsNoSteps(q: Query, a: Memo, b: Memo, cs: seq<Step>)
    requires q.Valid() && !b.cut && forall t :: t in TagsOf(cs) ==> t.Cut? && TagOk(q, a, b, t)
    ensures cs == []
  {
    if cs != [] { FirstIsShown(cs); }
  }

  /** The calls of `n` are done: it is given up, or leads to a sink. */
  lemma SettledCloses(q: Query, n: string, path: seq<string>, a: Memo, b: Memo, cs: seq<Step>, seen: set<string>)
    requires q.Valid() && MemoOk(q, b) && PathOk(q, b, path + [n]) && path != [] && n in q.g.nodes
    requires Partial(q, n, path + [n], a, b, cs, seen, q.Callees(n))
    requires forall s :: q.Executes(n, s) ==> s in seen
    requires Settled(q, b, path + [n])
    ensures Settled(q, b, path)
  {
    forall x | GivenUp(b, path, x) && q.prune == PruneSinks ensures LeadsNowhere(q, b, path, x) {
      if x == n {
        forall y | q.Executes(n, y)
          ensures !IsSink(q.g.nodes[y]) && (q.Expandable(y) && !b.cut ==> q.OnCycle(n) || GivenUp(b, path, y))
        {
          CallsNowhere(q, n, path + [n], a, b, cs, seen, y);
        }
      } else {
        assert GivenUp(b, path + [n], x) && LeadsNowhere(q, b, path + [n], x);
      }
    }
  }

  /** A function given up reaches a sink only by way of a cycle. */
  lemma {:induction false} GivenUpLeadsNowhere(q: Query, m: Memo, path: seq<string>, x: string, p: seq<string>)
    requires q.Valid() && q.prune == PruneSinks && Settled(q, m, path) && !m.cut && GivenUp(m, path, x)
    requires q.Expandable(x) && q.Chain(p) && p[0] == x && IsSink(q.g.nodes[p[|p| - 1]])
    requires forall z :: q.Follows(x, z) ==> !q.OnCycle(z)
    ensures false
    decreases |p|
  {
    assert q.Chain([x]);
    var y := p[1];
    assert LeadsNowhere(q, m, path, x);
    forall z | q.Follows(y, z) ensures q.Follows(x, z) {
      var r :| q.Chain(r) && r[0] == y && r[|r| - 1] == z;
      assert q.Chain([x] + r);
    }
    assert q.Chain(p[1..]);
    if |p| > 2 { GivenUpLeadsNowhere(q, m, path, y, p[1..]); }
  }

  /** The calls of `x` that lead to a sink without cycles are shown. */
  ghost predicate ShowsLeads(q: Query, x: string, children: seq<Step>)
    requires q.Valid()
  {
    forall y :: q.Executes(x, y) && q.LeadsPlainly(y) ==> HasChild(children, y)
  }

  /** In the whole tree. */
  ghost predicate Complete(q: Query, s: Step)
    requires q.Valid()
    decreases s
  {
    Own(s).Body? ==> ShowsLeads(q, s.node.id, s.children) && forall c :: c in s.children ==> Complete(q, c)
  }

  ghost predicate AllComplete(q: Query, m: Memo, cs: seq<Step>)
    requires q.Valid()
  {
    !m.cut ==> forall c :: c in cs ==> Complete(q, c)
  }

  lemma MergedComplete(q: Query, m: Memo, cs: seq<Step>, i: nat)
    requires q.Valid() && AllComplete(q, m, cs) && i < |cs|
    ensures AllComplete(q, m, cs[i := Merged(cs[i])])
  {
    assert cs[i] in cs && Own(Merged(cs[i])) == Own(cs[i]);
  }

  /** A call of `n` gave `r`. */
  lemma AddComplete(q: Query, n: string, path: seq<string>, b: Memo, c: Memo, cs: seq<Step>, nb: Neighbor,
                    r: Option<Step>)
    requires q.Valid() && n in path && Settled(q, c, path) && AllComplete(q, b, cs) && (b.cut ==> c.cut)
    requires r.Some? && !c.cut ==> Complete(q, r.value)
    ensures Settled(q, NextMemo(n, c, nb, r), path)
    ensures AllComplete(q, NextMemo(n, c, nb, r), Appended(cs, r))
  {
    SettledStays(q, c, NextMemo(n, c, nb, r), path);
  }

  /** What the loop of `expand` keeps. */
  ghost predicate Going(q: Query, n: string, path: seq<string>, a: Memo, m: Memo, cs: seq<Step>, seen: set<string>,
                        nbs: seq<Neighbor>)
    requires q.Valid() && n in q.g.nodes
  {
    match m
    case Memo(expanded, _, _) =>
      && MemoOk(q, m) && a.expanded <= expanded
      && Partial(q, n, path, a, m, cs, seen, nbs)
      && Settled(q, m, path) && AllComplete(q, m, cs)
  }

  lemma AddResult(q: Query, n: string, path: seq<string>, a: Memo, b: Memo, c: Memo, cs: seq<Step>, seen: set<string>,
                  nbs: seq<Neighbor>, nb: Neighbor, r: Option<Step>)
    requires q.Valid() && n in path && q.Expandable(n) && n in a.expanded && Going(q, n, path, a, b, cs, seen, nbs)
    requires RunsFor(q.verb, q.g.nodes[n], nb.edge) && q.IsCall(n, nb.edge) && nb.edge.to == nb.node.id
    requires nb.node.id in q.g.nodes && nb.node == q.g.nodes[nb.node.id] && !HasChild(cs, nb.node.id)
    requires MemoOk(q, c) && Expansion(q, path, b, c, nb, r)
    requires Settled(q, c, path) && (r.Some? && !c.cut ==> Complete(q, r.value))
    ensures Going(q, n, path, a, NextMemo(n, c, nb, r), Appended(cs, r), seen + {nb.node.id}, nbs + [nb])
    ensures r.Some? ==> r.value.node == nb.node
  {
    AddCall(q, n, path, a, b, c, cs, seen, nbs, nb, r);
    AddLead(q, n, path, b, c, nb, r);
    AddComplete(q, n, path, b, c, cs, nb, r);
  }

  /** A call that leads to a sink is not dropped. */
  lemma LeadIsKept(q: Query, path: seq<string>, m: Memo, y: string)
    requires q.Valid() && MemoOk(q, m) && PathOk(q, m, path) && Settled(q, m, path) && !m.cut
    requires q.LeadsPlainly(y) && (y in path ==> y != q.root ==> q.OnCycle(y))
    ensures !Dropped(q, m, path, y)
  {
    var s :| q.Reaches(y, s);
    var p :| q.ChainTo(p, y, s);
    assert q.Chain([y]) && q.Follows(y, y);
    if q.Expandable(y) && q.prune == PruneSinks && GivenUp(m, path, y) { GivenUpLeadsNowhere(q, m, path, y, p); }
  }

  lemma CompleteFinished(q: Query, n: string, path: seq<string>, b: Memo, cs: seq<Step>, seen: set<string>, s: Step)
    requires q.Valid() && MemoOk(q, b) && PathOk(q, b, path) && |path| > 1 && path[|path| - 1] == n
    requires Settled(q, b, path) && Handled(q, path, b, cs, seen)
    requires forall y :: q.Executes(n, y) ==> y in seen
    requires AllComplete(q, b, cs) && !b.cut && s.node.id == n && s.children == Grouped(cs)
    ensures Complete(q, s)
  {
    GroupedPermutes(cs);
    SameElements(cs, Grouped(cs));
    forall y | q.Executes(n, y) && q.LeadsPlainly(y) ensures HasChild(Grouped(cs), y) {
      if y in path && y != q.root { AncestorsCycle(q, b, path, y); }
      LeadIsKept(q, path, b, y);
      assert HasChild(cs, y);
    }
  }

  /** The calls of a function are done: it stays or goes. */
  lemma Finish(q: Query, nb: Neighbor, path: seq<string>, a0: Memo, b: Memo, cs: seq<Step>, seen: set<string>)
    requires q.Valid() && MemoOk(q, a0) && q.Expandable(nb.node.id) && nb.node == q.g.nodes[nb.node.id]
    requires nb.node.id !in path && nb.node.id !in a0.expanded && 0 < |path| < q.maxDepth
    requires Partial(q, nb.node.id, path + [nb.node.id], a0.(expanded := a0.expanded + {nb.node.id}), b, cs, seen,
                     q.Callees(nb.node.id))
    requires forall s :: q.Executes(nb.node.id, s) ==> s in seen
    requires MemoOk(q, b) && PathOk(q, b, path + [nb.node.id]) && Settled(q, b, path + [nb.node.id])
    requires AllComplete(q, b, cs)
    ensures Settled(q, b, path)
    ensures !Kept(q, b, nb.node.id) ==> Expansion(q, path, a0, b, nb, None)
    ensures var s := NewStep(nb.node, nb.edge).(children := Grouped(cs));
            Kept(q, b, nb.node.id) ==> Expansion(q, path, a0, b, nb, Some(s)) && (!b.cut ==> Complete(q, s))
    ensures forall s :: s in cs ==> s.node.id != ""
  {
    var n := nb.node.id;
    SettledCloses(q, n, path, a0.(expanded := a0.expanded + {n}), b, cs, seen);
    if Kept(q, b, n) {
      FinishKept(q, n, path, a0, b, cs, seen, nb);
      if !b.cut {
        CompleteFinished(q, n, path + [n], b, cs, seen, NewStep(nb.node, nb.edge).(children := Grouped(cs)));
      }
    } else {
      FinishDropped(q, n, path, a0, b, cs, seen, nb);
    }
    forall s | s in cs ensures s.node.id != "" { assert ChildOk(q, n, path + [n], seen, q.Callees(n), s); }
  }

  lemma {:induction false} DistinctFit(p: seq<string>, s: set<string>)
    requires forall i :: 0 <= i < |p| ==> p[i] in s
    requires forall i, j :: 0 <= i < j < |p| ==> p[i] != p[j]
    ensures |p| <= |s|
  {
    if p != [] {
      var last := p[|p| - 1];
      DistinctFit(p[..|p| - 1], s - {last});
    }
  }

  /** The cases of `expand` that look no further. */
  ghost predicate Shortcut(q: Query, path: seq<string>, m: Memo, m': Memo, nb: Neighbor, r: Option<Step>)
    requires q.g.Valid()
  {
    var step := NewStep(nb.node, nb.edge);
    if nb.node.id in path then m' == m && r == if q.prune == PruneSinks then None else Some(step.(cycle := true))
    else if IsSink(nb.node) then m' == m && r == Some(step.(children := q.Tables(nb.node.id)))
    else if External(nb.node) then m' == m && r == if q.prune != PruneNone then None else Some(step)
    else if nb.node.id in m.expanded then
      m' == m && r == if q.prune == PruneSinks && nb.node.id !in m.leads then None else Some(step.(ref := true))
    else |path| >= q.maxDepth && m' == m.(cut := true) && r == Some(step.(truncated := true))
  }

  lemma ShortcutOk(q: Query, path: seq<string>, m: Memo, m': Memo, nb: Neighbor, r: Option<Step>)
    requires q.Valid() && MemoOk(q, m) && PathOk(q, m, path)
    requires nb.node.id in q.g.nodes && nb.node == q.g.nodes[nb.node.id]
    requires Shortcut(q, path, m, m', nb, r)
    ensures Expansion(q, path, m, m', nb, r)
  {
    OnPath(q, path, m, nb.node.id);
    if r.Some? { ShortcutTags(r.value); }
    forall t | t in OptTags(r) ensures !t.Body? && TagOk(q, m, m', t) {
      if t.Row? {
      } else {
        assert t == Own(r.value);
      }
    }
    NothingExpanded(q, m, m', OptTags(r));
    assert m'.cut && !m.cut ==> Cut(nb.node.id) in OptTags(r);
  }

  lemma ShortcutTags(s: Step)
    requires IsSink(s.node) || s.children == []
    ensures Tags(s) == multiset{Own(s)} + if IsSink(s.node) then RowTags(s.children) else multiset{}
    ensures IsSink(s.node) ==> forall t :: t in RowTags(s.children) ==> t.Row?
  {
    RowTagsAreRows(s.children);
    assert TagsOf([]) == multiset{};
  }

  lemma OnPath(q: Query, path: seq<string>, m: Memo, x: string)
    requires q.Valid() && MemoOk(q, m) && PathOk(q, m, path)
    ensures x in path ==> !IsSink(q.g.nodes[x]) && (q.Expandable(x) ==> x in m.expanded)
  {
    if x in path {
      var i :| 0 <= i < |path| && path[i] == x;
      assert i > 0 ==> path[i] in m.expanded;
    }
  }

  lemma NothingExpanded(q: Query, m: Memo, m': Memo, tags: multiset<Tag>)
    requires q.Valid() && m'.expanded == m.expanded && m'.leads == m.leads && (m.cut ==> m'.cut)
    requires forall t :: t in tags ==> !t.Body? && TagOk(q, m, m', t)
    requires m'.cut && !m.cut ==> ShowsCut(tags)
    ensures Progress(q, {}, m, m', tags)
  {
    forall x ensures tags[Body(x)] <= 1 { assert Body(x) !in tags; }
  }

  function FindChild(cs: seq<Step>, id: string): (i: nat)
    ensures i <= |cs|
    ensures i < |cs| ==> cs[i].node.id == id
    ensures HasChild(cs, id) <==> i < |cs|
  {
    if cs == [] then 0
    else if cs[0].node.id == id then 0
    else
      assert forall c :: c in cs <==> c == cs[0] || c in cs[1..];
      1 + FindChild(cs[1..], id)
  }

  /** `addTables`. */
  method AddTables(q: Query, s: Step) returns (r: Step)
    requires q.Valid() && s.children == []
    ensures r == s.(children := q.Tables(s.node.id))
  {
    var nbs := q.g.Out(s.node.id, {Queries});
    r := s;
    for i := 0 to |nbs|
      invariant r == s.(children := TableSteps(nbs[..i]))
    {
      assert TableSteps(nbs[..i + 1]) == TableSteps(nbs[..i]) + [NewStep(nbs[i].node, nbs[i].edge)];
      r := r.(children := r.children + [NewStep(nbs[i].node, nbs[i].edge)]);
    }
    assert nbs[..|nbs|] == nbs;
  }

  class Builder {
    const q: Query
    var expanded: set<string>
    /** Expanded nodes whose subtree reaches a sink. */
    var leads: set<string>
    ghost var cut: bool

    constructor (q: Query)
      ensures this.q == q && expanded == {} && leads == {} && !cut
    {
      this.q := q;
      expanded, leads, cut := {}, {}, false;
    }

    ghost function Now(): Memo
      reads this
    {
      Memo(expanded, leads, cut)
    }

    /** `expand`. It terminates because every expansion uses up an unexpanded node, whatever the depth limit. */
    method Expand(n: Node, e: Edge, path: seq<string>, depth: nat) returns (r: Option<Step>)
      requires q.Valid() && MemoOk(q, Now()) && PathOk(q, Now(), path) && depth == |path|
      requires n.id in q.g.nodes && n == q.g.nodes[n.id] && CalledFrom(q, path, n.id)
      requires Settled(q, Now(), path)
      modifies this
      ensures MemoOk(q, Now()) && Settled(q, Now(), path)
      ensures Expansion(q, path, old(Now()), Now(), Neighbor(e, n), r)
      ensures r.Some? && !cut ==> Complete(q, r.value)
      ensures |q.g.nodes| <= q.maxDepth && !old(cut) ==> !cut
      decreases q.g.nodes.Keys - expanded, 1
    {
      var step := NewStep(n, e);
      if n.id in path {
        ShortcutOk(q, path, Now(), Now(), Neighbor(e, n),
                   if q.prune == PruneSinks then None else Some(step.(cycle := true)));
        if q.prune == PruneSinks { return None; }
        return Some(step.(cycle := true));
      }
      if IsSink(n) {
        step := AddTables(q, step);
        ShortcutOk(q, path, Now(), Now(), Neighbor(e, n), Some(step));
        return Some(step);
      }
      if External(n) {
        ShortcutOk(q, path, Now(), Now(), Neighbor(e, n), if q.prune != PruneNone then None else Some(step));
        if q.prune != PruneNone { return None; }
        return Some(step);
      }
      if n.id in expanded {
        step := step.(ref := true);
        ShortcutOk(q, path, Now(), Now(), Neighbor(e, n),
                   if q.prune == PruneSinks && n.id !in leads then None else Some(step));
        if q.prune == PruneSinks && n.id !in leads { return None; }
        return Some(step);
      }
      if depth >= q.maxDepth {
        cut := true;
        assert |q.g.nodes| > q.maxDepth by {
          DistinctFit(path + [n.id], q.g.nodes.Keys);
        }
        step := step.(truncated := true);
        SettledStays(q, old(Now()), Now(), path);
        ShortcutOk(q, path, old(Now()), Now(), Neighbor(e, n), Some(step));
        return Some(step);
      }
      r := ExpandBody(n, e, path, depth);
    }

    /** A function that is looked into. */
    method ExpandBody(n: Node, e: Edge, path: seq<string>, depth: nat) returns (r: Option<Step>)
      requires q.Valid() && MemoOk(q, Now()) && PathOk(q, Now(), path) && depth == |path| < q.maxDepth
      requires q.Expandable(n.id) && n == q.g.nodes[n.id] && n.id !in path && n.id !in expanded
      requires CalledFrom(q, path, n.id) && Settled(q, Now(), path)
      modifies this
      ensures MemoOk(q, Now()) && Settled(q, Now(), path)
      ensures Expansion(q, path, old(Now()), Now(), Neighbor(e, n), r)
      ensures r.Some? && !cut ==> Complete(q, r.value)
      ensures |q.g.nodes| <= q.maxDepth && !old(cut) ==> !cut
      decreases q.g.nodes.Keys - expanded, 0
    {
      var step := NewStep(n, e);
      ghost var before := Now();
      expanded := expanded + {n.id};
      ghost var start := Now();
      SettledOpens(q, before, path, n.id);
      PathExtends(q, path, before, n.id);
      var below := path + [n.id];
      var children, seen := ExpandCalls(n, below, depth);
      PathGrows(q, below, start, Now());
      Finish(q, Neighbor(e, n), path, before, Now(), children, seen);
      if q.prune == PruneSinks && n.id !in leads { return None; }
      children := GroupParallel(children);
      return Some(step.(children := children));
    }

    /** The loop of `expand` over what `n` calls; `path` ends in `n`. */
    method ExpandCalls(n: Node, path: seq<string>, depth: nat) returns (children: seq<Step>, ghost seen: set<string>)
      requires q.Valid() && MemoOk(q, Now()) && PathOk(q, Now(), path) && |path| == depth + 1
      requires q.Expandable(n.id) && n == q.g.nodes[n.id] && n.id == path[depth] && n.id in expanded
      requires Settled(q, Now(), path)
      modifies this
      ensures MemoOk(q, Now()) && Settled(q, Now(), path) && AllComplete(q, Now(), children)
      ensures Partial(q, n.id, path, old(Now()), Now(), children, seen, q.Callees(n.id))
      ensures forall s :: q.Executes(n.id, s) ==> s in seen
      ensures |q.g.nodes| <= q.maxDepth && !old(cut) ==> !cut
      decreases q.g.nodes.Keys - expanded, 4
    {
      var nbs := q.Callees(n.id);
      ghost var start := Now();
      children, seen := [], {};
      NothingYet(q, n.id, path, start);
      for i := 0 to |nbs|
        invariant Going(q, n.id, path, start, Now(), children, seen, nbs[..i])
        invariant |q.g.nodes| <= q.maxDepth && !start.cut ==> !cut
      {
        NextPrefix(nbs, i);
        PathGrows(q, path, start, Now());
        children, seen := ExpandCall(n, nbs[i], path, depth, children, start, seen, nbs[..i]);
      }
      WholePrefix(nbs);
      AllSeen(q, n.id, seen);
    }

    /** The loop body of `expand`: one neighbour `nb` of `n`, after the neighbours `nbs`. */
    method ExpandCall(n: Node, nb: Neighbor, path: seq<string>, depth: nat, cs: seq<Step>,
                      ghost start: Memo, ghost seen: set<string>, ghost nbs: seq<Neighbor>)
      returns (children: seq<Step>, ghost seen': set<string>)
      requires q.Valid() && PathOk(q, Now(), path) && |path| == depth + 1
      requires q.Expandable(n.id) && n == q.g.nodes[n.id] && n.id == path[depth] && n.id in start.expanded
      requires nb in q.Callees(n.id)
      requires Going(q, n.id, path, start, Now(), cs, seen, nbs)
      modifies this
      ensures Going(q, n.id, path, start, Now(), children, seen', nbs + [nb])
      ensures |q.g.nodes| <= q.maxDepth && !old(cut) ==> !cut
      decreases q.g.nodes.Keys - expanded, 3
    {
      children, seen' := cs, seen;
      if !RunsFor(q.verb, n, nb.edge) {
        SkipCall(q, n.id, path, start, Now(), children, seen, nbs, nb);
        return;
      }
      var k := FindChild(children, nb.node.id);
      if k < |children| {
        assert ChildOk(q, n.id, path, seen, nbs, children[k]);
        MergeCall(q, n.id, path, start, Now(), children, seen, nbs, nb, k);
        MergedComplete(q, Now(), children, k);
        children := children[k := Merged(children[k])];
        return;
      }
      children, seen' := ExpandNew(n, nb, path, depth, children, start, seen, nbs);
    }

    /** A call of a node that is no child of `n` yet. */
    method ExpandNew(n: Node, nb: Neighbor, path: seq<string>, depth: nat, cs: seq<Step>,
                     ghost start: Memo, ghost seen: set<string>, ghost nbs: seq<Neighbor>)
      returns (children: seq<Step>, ghost seen': set<string>)
      requires q.Valid() && PathOk(q, Now(), path) && |path| == depth + 1
      requires q.Expandable(n.id) && n == q.g.nodes[n.id] && n.id == path[depth] && n.id in start.expanded
      requires nb in q.Callees(n.id) && RunsFor(q.verb, n, nb.edge) && !HasChild(cs, nb.node.id)
      requires Going(q, n.id, path, start, Now(), cs, seen, nbs)
      modifies this
      ensures Going(q, n.id, path, start, Now(), children, seen', nbs + [nb])
      ensures |q.g.nodes| <= q.maxDepth && !old(cut) ==> !cut
      decreases q.g.nodes.Keys - expanded, 2
    {
      CalleeIsCalled(q, n.id, path, nb);
      var child := Expand(nb.node, nb.edge, path, depth + 1);
      ghost var after := Now();
      AddResult(q, n.id, path, start, old(Now()), after, cs, seen, nbs, nb, child);
      children := AppendChild(n, nb, cs, child);
      seen' := seen + {nb.node.id};
    }

    /** Appends what a call of `n` gave, and notes whether it leads to a sink. */
    method AppendChild(n: Node, nb: Neighbor, cs: seq<Step>, child: Option<Step>) returns (children: seq<Step>)
      requires child.Some? ==> child.value.node == nb.node
      modifies this`leads
      ensures children == Appended(cs, child) && Now() == NextMemo(n.id, old(Now()), nb, child)
    {
      children := cs;
      if child.Some? {
        children := children + [child.value];
        if IsSink(child.value.node) || child.value.node.id in leads { leads := leads + {n.id}; }
      }
    }
  }

  lemma CalleeIsCalled(q: Query, n: string, path: seq<string>, nb: Neighbor)
    requires q.Valid() && n in q.g.nodes && path != [] && path[|path| - 1] == n
    requires nb in q.Callees(n) && RunsFor(q.verb, q.g.nodes[n], nb.edge)
    ensures q.IsCall(n, nb.edge) && nb.edge.to == nb.node.id && CalledFrom(q, path, nb.node.id)
    ensures nb.node.id in q.g.nodes && nb.node == q.g.nodes[nb.node.id]
  {
    assert q.IsCall(n, nb.edge);
  }

  lemma AddLead(q: Query, n: string, path: seq<string>, b: Memo, c: Memo, nb: Neighbor, r: Option<Step>)
    requires q.Valid() && Expansion(q, path, b, c, nb, r) && MemoOk(q, c) && q.Expandable(n) && n in b.expanded
    requires q.IsCall(n, nb.edge) && nb.edge.to == nb.node.id && nb.node.id in q.g.nodes &&
             nb.node == q.g.nodes[nb.node.id]
    ensures MemoOk(q, NextMemo(n, c, nb, r)) && (r.Some? ==> r.value.node == nb.node)
  {
    if Leads(c, nb, r) { LeadsOn(q, n, nb, c); }
  }

  lemma LeadsOn(q: Query, n: string, nb: Neighbor, m: Memo)
    requires q.Valid() && q.Expandable(n) && n in m.expanded && MemoOk(q, m) && q.IsCall(n, nb.edge) &&
             nb.edge.to == nb.node.id
    requires nb.node.id in q.g.nodes && nb.node == q.g.nodes[nb.node.id]
    requires IsSink(nb.node) || nb.node.id in m.leads
    ensures MemoOk(q, m.(leads := m.leads + {n}))
  {
    var s := nb.node.id;
    assert q.Executes(n, s);
    if IsSink(nb.node) { SinkReachesItself(q, s); }
    var t :| q.Reaches(s, t);
    ReachesStep(q, n, s, t);
  }
}
