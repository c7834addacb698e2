/** `Build`: the flow tree of a route, and what it shows (internal/flow/flow.go). */
module FlowBuild {
  import opened CodeGraph
  import opened FlowTree
  import opened Ordering
  import opened Flow
  import opened Wrappers

  datatype Options = Options(verb: string, maxDepth: int, prune: Prune)

  datatype BuildResult = Built(root: Step) | NotFound | NotRoute

  predicate IsRoute(n: Node) { n.kind == Route || n.kind == Entry }

  /** The defaults: the route's own method, and a depth of 16. */
  function QueryFor(g: Graph, id: string, opts: Options): Query
    requires id in g.nodes
  {
    Query(g, id, if opts.verb == "" then Attr(g.nodes[id].attrs, "method") else opts.verb,
          if opts.maxDepth <= 0 then 16 else opts.maxDepth, opts.prune)
  }

  ghost predicate HandlerStep(q: Query, c: Step)
    requires q.Valid()
  {
    && c.edge in q.g.edges && c.edge.from == q.root && c.edge.kind == HandledBy && c.edge.to == c.node.id
    && WellFormed(q, c, [q.root])
  }

  /** The steps follow the order of the first `i` handlers. */
  ghost predicate InHandlerOrder(hs: seq<Neighbor>, i: nat, children: seq<Step>) {
    exists at: seq<nat> :: PlacedAt(hs, i, children, at)
  }

  ghost predicate PlacedAt(hs: seq<Neighbor>, i: nat, children: seq<Step>, at: seq<nat>) {
    && |at| == |children|
    && (forall k :: 0 <= k < |at| ==> at[k] < i <= |hs| && hs[at[k]].edge == children[k].edge)
    && (forall j, k :: 0 <= j < k < |at| ==> at[j] < at[k])
  }

  lemma NextInOrder(hs: seq<Neighbor>, i: nat, children: seq<Step>, r: Option<Step>)
    requires i < |hs| && InHandlerOrder(hs, i, children) && (r.Some? ==> r.value.edge == hs[i].edge)
    ensures InHandlerOrder(hs, i + 1, Appended(children, r))
  {
    var at :| PlacedAt(hs, i, children, at);
    assert PlacedAt(hs, i + 1, Appended(children, r), if r.Some? then at + [i] else at);
  }

  /** What a flow tree shows, compared with plain reachability; `cut` tells whether the depth limit was hit. */
  ghost predicate Faithful(q: Query, children: seq<Step>, cut: bool)
    requires q.Valid()
  {
    var tags := TagsOf(children);
    // The shape: real executing edges, every call site counted, cycles name ancestors.
    && (forall c :: c in children ==> HandlerStep(q, c))
    && InHandlerOrder(q.g.Out(q.root, {HandledBy}), |q.g.Out(q.root, {HandledBy})|, children)
    // The handlers and calls that the level of pruning keeps are shown.
    && (forall e :: e in q.g.edges && e.from == q.root && e.kind == HandledBy ==> HandlerKept(q, e, children, cut))
    && (!cut ==> forall c :: c in children ==> Complete(q, c))
    // No sink is invented, and none is lost.
    && (forall s :: Sink(s) in tags ==> q.FlowReaches(s))
    && (!cut ==> forall s :: q.FlowReaches(s) ==> Sink(s) in tags)
    // Even when cut, a function shown shows the sinks it calls, and so does a handler, shown or not.
    && (forall x :: Body(x) in tags ==> SinksCalled(q, x, tags))
    && (forall e :: e in q.g.edges && e.from == q.root && e.kind == HandledBy ==> HandlerShown(q, e.to, tags))
    // Every function has at most one body, and every reference has its body in the tree.
    && (forall x :: tags[Body(x)] <= 1)
    && (forall x :: Ref(x) in tags ==> Body(x) in tags)
    // Pruning keeps only functions with an executing path to a sink.
    && (q.prune == PruneSinks ==> forall t :: t in tags ==> PrunedTag(q, t))
    && (q.prune == PruneModule ==> forall x :: Leaf(x) !in tags)
    // Except under PruneSinks, hitting the limit is visible in the tree.
    && (cut && q.prune != PruneSinks ==> ShowsCut(tags))
    && (ShowsCut(tags) ==> cut)
  }

  /** A handler has a step of its own, unless it is pruned. */
  ghost predicate HandlerKept(q: Query, e: Edge, children: seq<Step>, cut: bool)
    requires q.Valid()
  {
    q.Keeps(e.to) || (!cut && q.LeadsPlainly(e.to)) ==> HasStep(children, e)
  }

  ghost predicate HasStep(cs: seq<Step>, e: Edge) { exists c :: c in cs && c.edge == e }

  /** The sinks that `x` calls are shown. */
  ghost predicate SinksCalled(q: Query, x: string, tags: multiset<Tag>)
    requires q.Valid()
  {
    forall s :: q.Executes(x, s) && IsSink(q.g.nodes[s]) ==> Sink(s) in tags
  }

  ghost predicate HandlerShown(q: Query, h: string, tags: multiset<Tag>)
    requires q.Valid()
  {
    && (h in q.g.nodes && IsSink(q.g.nodes[h]) ==> Sink(h) in tags)
    && (q.Expandable(h) && q.maxDepth > 1 ==> SinksCalled(q, h, tags))
  }

  ghost predicate PrunedTag(q: Query, t: Tag)
    requires q.Valid()
  {
    match t
    case Body(x) => q.ReachesSink(x)
    case Ref(x) => q.ReachesSink(x)
    case Cycle(_) => false
    case Leaf(_) => false
    case _ => true
  }

  const FRESH := Memo({}, {}, false)

  /** An expanded node's callees are expanded, so a whole chain is. */
  lemma {:induction false} ChainExpanded(q: Query, m: Memo, tags: multiset<Tag>, p: seq<string>, i: nat)
    requires q.Valid() && Progress(q, {}, FRESH, m, tags) && !m.cut
    requires q.Chain(p) && i < |p| && (|p| > 1 ==> p[0] in m.expanded)
    ensures i < |p| - 1 ==> p[i] in m.expanded
  {
    if 0 < i < |p| - 1 {
      ChainExpanded(q, m, tags, p, i - 1);
      assert Explored(q, m, tags, p[i - 1]);
      assert Covered(q, m, tags, p[i]);
    }
  }

  /** Completeness: the memo, the cycle cut, call merging and pruning lose no sink. */
  lemma SinkShown(q: Query, m: Memo, tags: multiset<Tag>, p: seq<string>, h: string, s: string)
    requires q.Valid() && Progress(q, {}, FRESH, m, tags) && !m.cut
    requires q.ChainTo(p, h, s) && Covered(q, m, tags, h)
    ensures Sink(s) in tags
  {
    if |p| > 1 {
      var x := p[|p| - 2];
      ChainExpanded(q, m, tags, p, |p| - 2);
      assert Explored(q, m, tags, x);
      assert q.Executes(x, s);
      assert Covered(q, m, tags, s);
    }
  }

  lemma SinksExact(q: Query, m: Memo, children: seq<Step>)
    requires q.Valid() && Progress(q, {}, FRESH, m, TagsOf(children))
    requires forall c :: c in children ==> HandlerStep(q, c)
    requires forall e :: e in q.g.edges && e.from == q.root && e.kind == HandledBy ==>
             Covered(q, m, TagsOf(children), e.to)
    ensures forall s :: Sink(s) in TagsOf(children) ==> q.FlowReaches(s)
    ensures !m.cut ==> forall s :: q.FlowReaches(s) ==> Sink(s) in TagsOf(children)
  {
    forall s | Sink(s) in TagsOf(children) ensures q.FlowReaches(s) {
      var c := TagsOfWitness(children, Sink(s));
      TreeSinksReached(q, c, [q.root], s);
      assert q.HandlerReaches(c.edge, s);
    }
    if !m.cut {
      forall s | q.FlowReaches(s) ensures Sink(s) in TagsOf(children) {
        var e :| q.HandlerReaches(e, s);
        var p :| q.ChainTo(p, e.to, s);
        SinkShown(q, m, TagsOf(children), p, e.to, s);
      }
    }
  }

  lemma StepsJustified(q: Query, m: Memo, tags: multiset<Tag>)
    requires q.Valid() && MemoOk(q, m) && Progress(q, {}, FRESH, m, tags)
    ensures forall x :: Ref(x) in tags ==> Body(x) in tags
    ensures q.prune == PruneSinks ==> forall t :: t in tags ==> PrunedTag(q, t)
    ensures q.prune == PruneModule ==> forall x :: Leaf(x) !in tags
    ensures ShowsCut(tags) ==> m.cut
  {
    forall x | Ref(x) in tags ensures Body(x) in tags {
      assert TagOk(q, FRESH, m, Ref(x));
      assert Explored(q, m, tags, x);
    }
    forall t | t in tags ensures q.prune == PruneSinks ==> PrunedTag(q, t) {
      assert TagOk(q, FRESH, m, t);
    }
    forall x ensures q.prune == PruneModule ==> Leaf(x) !in tags {
      assert Leaf(x) in tags ==> TagOk(q, FRESH, m, Leaf(x));
    }
    if ShowsCut(tags) {
      var x :| Cut(x) in tags;
      assert TagOk(q, FRESH, m, Cut(x));
    }
  }

  /** An expanded function's sinks are shown. */
  lemma ExpandedShows(q: Query, m: Memo, tags: multiset<Tag>, x: string)
    requires q.Valid() && Progress(q, {}, FRESH, m, tags) && x in m.expanded
    ensures SinksCalled(q, x, tags)
  {
    assert Explored(q, m, tags, x);
    forall s | q.Executes(x, s) && IsSink(q.g.nodes[s]) ensures Sink(s) in tags { assert Covered(q, m, tags, s); }
  }

  /** What a flow shows whatever the depth limit: the sinks called by its functions and by its handlers. */
  lemma CutFlowShows(q: Query, m: Memo, children: seq<Step>, hs: seq<Neighbor>)
    requires q.Valid() && hs == q.g.Out(q.root, {HandledBy}) && HandlersDone(q, m, children, hs, |hs|)
    ensures forall x :: Body(x) in TagsOf(children) ==> SinksCalled(q, x, TagsOf(children))
    ensures forall e :: e in q.g.edges && e.from == q.root && e.kind == HandledBy ==>
            HandlerShown(q, e.to, TagsOf(children))
  {
    var tags := TagsOf(children);
    forall x | Body(x) in tags ensures SinksCalled(q, x, tags) {
      assert TagOk(q, FRESH, m, Body(x));
      ExpandedShows(q, m, tags, x);
    }
    forall e | e in q.g.edges && e.from == q.root && e.kind == HandledBy ensures HandlerShown(q, e.to, tags) {
      var nb := Neighbor(e, q.g.nodes[e.to]);
      assert nb in hs;
      var j :| 0 <= j < |hs| && hs[j] == nb;
      assert Covered(q, m, tags, hs[j].node.id);
      if q.Expandable(e.to) && q.maxDepth > 1 { ExpandedShows(q, m, tags, e.to); }
    }
  }

  /** Handlers stand at the first level, where only a limit of one cuts them. */
  ghost predicate ExpandedUpTo(q: Query, m: Memo, hs: seq<Neighbor>, i: nat) {
    q.maxDepth > 1 ==> forall j :: 0 <= j < i <= |hs| && q.Expandable(hs[j].node.id) ==> hs[j].node.id in m.expanded
  }

  ghost predicate HandlerSteps(q: Query, children: seq<Step>)
    requires q.Valid()
  {
    forall c :: c in children ==> HandlerStep(q, c)
  }

  ghost predicate CoveredUpTo(q: Query, m: Memo, tags: multiset<Tag>, hs: seq<Neighbor>, i: nat) {
    forall j :: 0 <= j < i <= |hs| ==> Covered(q, m, tags, hs[j].node.id)
  }

  /** The loop of `Build`: the first `i` handlers are expanded. */
  ghost predicate HandlersDone(q: Query, m: Memo, children: seq<Step>, hs: seq<Neighbor>, i: nat)
    requires q.Valid() && i <= |hs|
  {
    match m
    case Memo(_, _, _) =>
      && MemoOk(q, m)
      && Progress(q, {}, FRESH, m, TagsOf(children))
      && HandlerSteps(q, children)
      && CoveredUpTo(q, m, TagsOf(children), hs, i)
      && ExpandedUpTo(q, m, hs, i)
      && InHandlerOrder(hs, i, children)
      && NothingDropped(q, m, children, hs, i)
  }

  /** What need not be dropped is not. */
  ghost predicate NothingDropped(q: Query, m: Memo, children: seq<Step>, hs: seq<Neighbor>, i: nat)
    requires q.Valid()
  {
    match m
    case Memo(_, _, _) =>
      Settled(q, m, [q.root]) && AllComplete(q, m, children) && KeptUpTo(q, m, children, hs, i)
  }

  ghost predicate KeptUpTo(q: Query, m: Memo, children: seq<Step>, hs: seq<Neighbor>, i: nat)
    requires q.Valid()
  {
    forall j :: 0 <= j < i <= |hs| ==> HandlerKept(q, hs[j].edge, children, m.cut)
  }

  lemma NextKept(q: Query, m: Memo, m': Memo, children: seq<Step>, hs: seq<Neighbor>, i: nat, r: Option<Step>)
    requires q.Valid() && i < |hs| && NothingDropped(q, m, children, hs, i) && (m.cut ==> m'.cut)
    requires MemoOk(q, m') && Settled(q, m', [q.root]) && Expansion(q, [q.root], m, m', hs[i], r)
    requires hs[i].edge.to == hs[i].node.id && (r.Some? && !m'.cut ==> Complete(q, r.value))
    ensures NothingDropped(q, m', Appended(children, r), hs, i + 1)
  {
    var y := hs[i].edge.to;
    if r.None? {
      if !m'.cut && q.LeadsPlainly(y) { LeadIsKept(q, [q.root], m', y); }
    } else {
      assert r.value in Appended(children, r);
    }
    forall j | 0 <= j < i + 1 ensures HandlerKept(q, hs[j].edge, Appended(children, r), m'.cut) {
      if j < i {
        assert HandlerKept(q, hs[j].edge, children, m.cut);
        assert forall c :: c in children ==> c in Appended(children, r);
      }
    }
  }

  lemma NoHandlerYet(q: Query, hs: seq<Neighbor>)
    requires q.Valid()
    ensures HandlersDone(q, FRESH, [], hs, 0)
  {
    assert PlacedAt(hs, 0, [], []);
  }

  lemma NextCovered(q: Query, m: Memo, m': Memo, s: multiset<Tag>, t: multiset<Tag>, hs: seq<Neighbor>, i: nat)
    requires q.Valid() && i < |hs| && CoveredUpTo(q, m, s, hs, i) && Covered(q, m', t, hs[i].node.id)
    requires m.expanded <= m'.expanded && (m.cut ==> m'.cut)
    ensures CoveredUpTo(q, m', s + t, hs, i + 1)
  {
    forall j | 0 <= j < i + 1 ensures Covered(q, m', s + t, hs[j].node.id) {
      assert j < i ==> Covered(q, m, s, hs[j].node.id);
    }
  }

  lemma NextHandlerStep(q: Query, children: seq<Step>, hs: seq<Neighbor>, i: nat, r: Option<Step>)
    requires q.Valid() && i < |hs| && hs == q.g.Out(q.root, {HandledBy}) && HandlerSteps(q, children)
    requires r.Some? ==> WellFormed(q, r.value, [q.root]) && r.value.node == hs[i].node && r.value.edge == hs[i].edge
    ensures HandlerSteps(q, Appended(children, r))
  {
    assert hs[i] in hs;
    assert r.Some? ==> HandlerStep(q, r.value);
  }

  lemma NextHandler(q: Query, m: Memo, m': Memo, children: seq<Step>, hs: seq<Neighbor>, i: nat, r: Option<Step>)
    requires q.Valid() && i < |hs| && hs == q.g.Out(q.root, {HandledBy}) && HandlersDone(q, m, children, hs, i)
    requires MemoOk(q, m') && Expansion(q, [q.root], m, m', hs[i], r) && Settled(q, m', [q.root])
    requires r.Some? && !m'.cut ==> Complete(q, r.value)
    ensures HandlersDone(q, m', Appended(children, r), hs, i + 1)
  {
    ProgressTrans(q, {}, FRESH, m, m', TagsOf(children), OptTags(r));
    AppendedTags(children, r);
    NextCovered(q, m, m', TagsOf(children), OptTags(r), hs, i);
    NextHandlerStep(q, children, hs, i, r);
    NextInOrder(hs, i, children, r);
    assert hs[i] in hs;
    NextKept(q, m, m', children, hs, i, r);
  }

  lemma AllHandlers(q: Query, m: Memo, children: seq<Step>, hs: seq<Neighbor>)
    requires q.Valid() && hs == q.g.Out(q.root, {HandledBy}) && HandlersDone(q, m, children, hs, |hs|)
    ensures Faithful(q, children, m.cut)
  {
    forall e | e in q.g.edges && e.from == q.root && e.kind == HandledBy ensures Covered(q, m, TagsOf(children), e.to) {
      assert Neighbor(e, q.g.nodes[e.to]) in hs;
    }
    forall e | e in q.g.edges && e.from == q.root && e.kind == HandledBy ensures HandlerKept(q, e, children, m.cut) {
      var nb := Neighbor(e, q.g.nodes[e.to]);
      assert nb in hs;
      var j :| 0 <= j < |hs| && hs[j] == nb;
      assert NothingDropped(q, m, children, hs, |hs|) && HandlerKept(q, hs[j].edge, children, m.cut);
    }
    SinksExact(q, m, children);
    StepsJustified(q, m, TagsOf(children));
    CutFlowShows(q, m, children, hs);
  }

  // ---- Which calls have a step ----

  /** `t` is a function whose calls are listed in the tree of `s`. */
  ghost predicate FunctionIn(s: Step, t: Step)
    decreases s
  {
    Own(s).Body? && (t == s || exists c :: c in s.children && FunctionIn(c, t))
  }

  lemma {:induction false} FunctionShows(q: Query, s: Step, path: seq<string>, t: Step)
    requires q.Valid() && WellFormed(q, s, path) && FunctionIn(s, t)
    ensures ShowsCalls(q, t.node.id, t.children) && (Complete(q, s) ==> ShowsLeads(q, t.node.id, t.children))
    ensures forall c :: c in t.children ==> q.Executes(t.node.id, c.node.id) && Own(c) in Tags(s)
    decreases s
  {
    if t == s {
      BodyShows(q, s, path);
    } else {
      var d :| d in s.children && FunctionIn(d, t);
      ChildOfBody(q, s, path, d);
      FunctionShows(q, d, path + [s.node.id], t);
    }
  }

  lemma ChildOfBody(q: Query, s: Step, path: seq<string>, d: Step)
    requires q.Valid() && WellFormed(q, s, path) && Own(s).Body? && d in s.children
    ensures WellFormed(q, d, path + [s.node.id]) && Tags(d) <= Tags(s) && (Complete(q, s) ==> Complete(q, d))
  {
    TagsOfMember(s.children, d);
  }

  lemma BodyShows(q: Query, s: Step, path: seq<string>)
    requires q.Valid() && WellFormed(q, s, path) && Own(s).Body?
    ensures ShowsCalls(q, s.node.id, s.children) && (Complete(q, s) ==> ShowsLeads(q, s.node.id, s.children))
    ensures forall c :: c in s.children ==> q.Executes(s.node.id, c.node.id) && Own(c) in Tags(s)
  {
    forall c | c in s.children ensures q.Executes(s.node.id, c.node.id) && Own(c) in Tags(s) {
      assert CallStep(q, s.node.id, c) && q.IsCall(s.node.id, c.edge);
      TagsOfMember(s.children, c);
    }
  }

  lemma {:induction false} TagsOfMember(cs: seq<Step>, c: Step)
    requires c in cs
    ensures Tags(c) <= TagsOf(cs) && Own(c) in Tags(c)
  {
    if c != cs[0] { TagsOfMember(cs[1..], c); }
  }

  /**
   * The steps below a function are its calls: all of them with `PruneNone`, those of module code and sinks with
   * `PruneModule`, and with `PruneSinks` those that reach a sink; there a call can be missing only when a call cycle
   * can be reached by it or the flow is cut, and never when it is a sink itself.
   */
  lemma CallsAreShown(q: Query, children: seq<Step>, cut: bool, t: Step, y: string)
    requires q.Valid() && Faithful(q, children, cut) && (exists c :: c in children && FunctionIn(c, t))
    requires y in q.g.nodes
    ensures q.prune == PruneNone ==> (HasChild(t.children, y) <==> q.Executes(t.node.id, y))
    ensures q.prune == PruneModule && !External(q.g.nodes[y]) ==>
              (HasChild(t.children, y) <==> q.Executes(t.node.id, y))
    ensures IsSink(q.g.nodes[y]) ==> (HasChild(t.children, y) <==> q.Executes(t.node.id, y))
    ensures q.prune == PruneSinks && !cut && (forall z :: q.Follows(y, z) ==> !q.OnCycle(z)) ==>
              (HasChild(t.children, y) <==> q.Executes(t.node.id, y) && q.ReachesSink(y))
  {
    InFlow(q, children, cut, t);
    if q.prune == PruneSinks && !cut && HasChild(t.children, y) { PrunedCallLeads(q, children, cut, t, y); }
  }

  lemma InFlow(q: Query, children: seq<Step>, cut: bool, t: Step)
    requires q.Valid() && Faithful(q, children, cut) && exists c :: c in children && FunctionIn(c, t)
    ensures ShowsCalls(q, t.node.id, t.children) && (!cut ==> ShowsLeads(q, t.node.id, t.children))
    ensures forall c :: c in t.children ==> StepOf(q, t, c) && Own(c) in TagsOf(children)
  {
    var s :| s in children && FunctionIn(s, t);
    assert HandlerStep(q, s);
    FunctionShows(q, s, [q.root], t);
    TagsOfMember(children, s);
    forall c | c in t.children ensures StepOf(q, t, c) { ChildNode(q, s, [q.root], t, c); }
  }

  ghost predicate StepOf(q: Query, t: Step, c: Step)
    requires q.Valid()
  {
    c.node.id in q.g.nodes && c.node == q.g.nodes[c.node.id] && q.Executes(t.node.id, c.node.id)
  }

  /** Under `PruneSinks`, what is shown and not cut off reaches a sink. */
  lemma PrunedCallLeads(q: Query, children: seq<Step>, cut: bool, t: Step, y: string)
    requires q.Valid() && Faithful(q, children, cut) && (exists c :: c in children && FunctionIn(c, t))
    requires q.prune == PruneSinks && !cut && HasChild(t.children, y)
    ensures q.ReachesSink(y)
  {
    InFlow(q, children, false, t);
    var c :| c in t.children && c.node.id == y;
    TagIsPruned(q, children, Own(c));
    PrunedStepLeads(q, c);
  }

  lemma TagIsPruned(q: Query, children: seq<Step>, t: Tag)
    requires q.Valid() && q.prune == PruneSinks && Faithful(q, children, false) && t in TagsOf(children)
    ensures PrunedTag(q, t) && !t.Cut?
  {
    assert t.Cut? ==> ShowsCut(TagsOf(children));
  }

  lemma PrunedStepLeads(q: Query, c: Step)
    requires q.Valid() && c.node.id in q.g.nodes && c.node == q.g.nodes[c.node.id]
    requires PrunedTag(q, Own(c)) && !Own(c).Cut?
    ensures q.ReachesSink(c.node.id)
  {
    if IsSink(c.node) { SinkReachesItself(q, c.node.id); }
  }

  lemma {:induction false} ChildNode(q: Query, s: Step, path: seq<string>, t: Step, c: Step)
    requires q.Valid() && WellFormed(q, s, path) && FunctionIn(s, t) && c in t.children
    ensures c.node.id in q.g.nodes && c.node == q.g.nodes[c.node.id]
    decreases s
  {
    if t != s {
      var d :| d in s.children && FunctionIn(d, t);
      ChildNode(q, d, path + [s.node.id], t, c);
    }
  }

  /** The loop of `Build`. */
  method ExpandHandlers(q: Query) returns (children: seq<Step>, ghost cut: bool)
    requires q.Valid()
    ensures Faithful(q, children, cut)
    ensures |q.g.nodes| <= q.maxDepth ==> !cut
  {
    var b := new Builder(q);
    children := [];
    var handlers := q.g.Out(q.root, {HandledBy});
    NoHandlerYet(q, handlers);
    for i := 0 to |handlers|
      invariant b.q == q && fresh(b)
      invariant HandlersDone(q, b.Now(), children, handlers, i)
      invariant |q.g.nodes| <= q.maxDepth ==> !b.cut
    {
      var h := handlers[i];
      NextPrefix(handlers, i);
      ghost var before := b.Now();
      var child := b.Expand(h.node, h.edge, [q.root], 1);
      NextHandler(q, before, b.Now(), children, handlers, i, child);
      if child.Some? { children := children + [child.value]; }
    }
    cut := b.cut;
    AllHandlers(q, b.Now(), children, handlers);
  }

  /**
   * `Build`. With a depth limit above the number of nodes nothing is ever cut off, so then
   * the sinks in the tree are exactly those the route reaches, at every prune level.
   */
  method Build(g: Graph, id: string, opts: Options) returns (r: BuildResult, ghost cut: bool)
    requires g.Valid()
    ensures r.NotFound? <==> id !in g.nodes
    ensures r.NotRoute? <==> id in g.nodes && !IsRoute(g.nodes[id])
    ensures r.Built? ==> r.root == NewStep(g.nodes[id], NO_EDGE).(children := r.root.children)
    ensures r.Built? ==> Faithful(QueryFor(g, id, opts), r.root.children, cut)
    ensures r.Built? && |g.nodes| <= QueryFor(g, id, opts).maxDepth ==> !cut
  {
    cut := false;
    if id !in g.nodes { return NotFound, cut; }
    var route := g.nodes[id];
    if !IsRoute(route) { return NotRoute, cut; }
    var q := QueryFor(g, id, opts);
    var children;
    children, cut := ExpandHandlers(q);
    return Built(NewStep(route, NO_EDGE).(children := children)), cut;
  }
}
