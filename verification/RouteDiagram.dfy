/** The sequence diagram of a route's flow: parallel calls in the trees `Build` returns. */
module RouteDiagram {
  import opened CodeGraph
  import opened FlowTree
  import opened Flow
  import opened FlowBuild
  import opened Ordering
  import opened SequenceDiagram
  import opened ParBlocks

  /** `t` occurs in the tree of `s`. */
  ghost predicate Below(s: Step, t: Step)
    decreases s
  {
    t == s || exists c :: c in s.children && Below(c, t)
  }

  /** Every function body in a flow tree is faithful where it stands. */
  lemma {:induction false} BodyIsWellFormed(q: Query, s: Step, path: seq<string>, t: Step)
    returns (ancestors: seq<string>)
    requires q.Valid() && WellFormed(q, s, path) && Below(s, t) && Own(t).Body? && t.children != []
    ensures WellFormed(q, t, ancestors)
    decreases s
  {
    ancestors := path;
    if t != s {
      var c :| c in s.children && Below(c, t);
      if Own(s).Body? {
        BodyChild(q, s, path, c);
        ancestors := BodyIsWellFormed(q, c, path + [s.node.id], t);
      } else {
        RowsAreLeaves(q, s, path, c, t);
      }
    }
  }

  /** Below a sink there are only the tables it queries. */
  lemma RowsAreLeaves(q: Query, s: Step, path: seq<string>, c: Step, t: Step)
    requires q.Valid() && WellFormed(q, s, path) && !Own(s).Body? && c in s.children && Below(c, t)
    ensures t.children == []
  {
    if Own(s).Sink? {
      var i :| 0 <= i < |q.Tables(s.node.id)| && q.Tables(s.node.id)[i] == c;
    }
  }

  lemma BodyChild(q: Query, s: Step, path: seq<string>, c: Step)
    requires q.Valid() && WellFormed(q, s, path) && Own(s).Body? && c in s.children
    ensures WellFormed(q, c, path + [s.node.id])
  {
  }

  // ---- Which steps are walked ----

  /** The lines `part` are printed as a whole among `lines`. */
  ghost predicate Within(part: seq<Line>, lines: seq<Line>) { exists a, b :: lines == a + part + b }

  lemma WithinPart(part: seq<Line>, lines: seq<Line>, before: seq<Line>, after: seq<Line>)
    requires Within(part, lines)
    ensures Within(part, before + lines + after)
  {
    var a, b :| lines == a + part + b;
    assert before + lines + after == (before + a) + part + (b + after);
  }

  lemma WithinMiddle(a: seq<Line>, b: seq<Line>, part: seq<Line>, d: seq<Line>, all: seq<Line>)
    requires all == a + (b + part) + d
    ensures Within(part, all)
  {
    assert all == (a + b) + part + d;
  }

  /** A child's lines are among those of its parent. */
  lemma ChildIsPrinted(s: Step, c: Step, part: seq<Line>)
    requires c in s.children && Within(part, ChildLines(Lane(LaneTitle(s.node)), c))
    ensures Within(part, WalkLines(s))
  {
    var i :| 0 <= i < |s.children| && s.children[i] == c;
    ChildStands(s, i);
    WithinMiddle(LinesBefore(s, i), OpeningAt(s.children, i), ChildOf(s, i), CallsFrom(s, i + 1), WalkLines(s));
    WithinTwice(part, ChildOf(s, i), WalkLines(s));
  }

  lemma {:induction false} AlternativeIsPrinted(from: Who, c: Step, i: nat, k: nat)
    requires i <= k < |c.children|
    ensures Within(CalledLines(from, c.children[k]), Alternatives(from, c, i))
    decreases k - i
  {
    var (called, rest) := (CalledLines(from, c.children[i]), Alternatives(from, c, i + 1));
    AlternativesStep(from, c, i);
    if i == k {
      assert [AlternativeLine(c, i)] + called + rest == [AlternativeLine(c, i)] + called + rest;
    } else {
      AlternativeIsPrinted(from, c, i + 1, k);
      WithinPart(CalledLines(from, c.children[k]), rest, [AlternativeLine(c, i)] + called, []);
      assert [AlternativeLine(c, i)] + called + rest + [] == Alternatives(from, c, i);
    }
  }

  /** A called step is walked. */
  lemma CalledIsWalked(from: Who, c: Step, part: seq<Line>)
    requires Within(part, WalkLines(c))
    ensures Within(part, CalledLines(from, c))
  {
    WithinPart(part, WalkLines(c), [MessageTo(from, c)], []);
    assert [MessageTo(from, c)] + WalkLines(c) + [] == CalledLines(from, c);
  }

  /**
   * The bodies below a walked step are walked, but for interface calls: these are printed as calls of what they
   * dispatch to.
   */
  lemma {:induction false} BodyIsWalked(q: Query, s: Step, path: seq<string>, t: Step)
    requires q.Valid() && WellFormed(q, s, path) && Below(s, t)
    requires Own(t).Body? && t.children != [] && t.node.kind != InterfaceCall
    ensures Within(WalkLines(t), WalkLines(s))
    decreases s, 1
  {
    if t == s {
      assert WalkLines(s) == [] + WalkLines(t) + [];
    } else {
      var c :| c in s.children && Below(c, t);
      if Own(s).Body? {
        BodyChild(q, s, path, c);
        BodyIsPrinted(q, Lane(LaneTitle(s.node)), c, path + [s.node.id], t);
        ChildIsPrinted(s, c, WalkLines(t));
      } else {
        RowsAreLeaves(q, s, path, c, t);
      }
    }
  }

  lemma WithinTwice(part: seq<Line>, more: seq<Line>, all: seq<Line>)
    requires Within(part, more) && Within(more, all)
    ensures Within(part, all)
  {
    var a, b :| all == a + more + b;
    WithinPart(part, more, a, b);
  }

  lemma {:induction false} BodyIsPrinted(q: Query, from: Who, c: Step, path: seq<string>, t: Step)
    requires q.Valid() && WellFormed(q, c, path) && Below(c, t)
    requires Own(t).Body? && t.children != [] && t.node.kind != InterfaceCall
    ensures Within(WalkLines(t), ChildLines(from, c))
    decreases c, 2
  {
    if c.node.kind != InterfaceCall {
      if IsSink(c.node) {
        if t != c {
          var d :| d in c.children && Below(d, t);
          RowsAreLeaves(q, c, path, d, t);
        }
      } else {
        BodyIsWalked(q, c, path, t);
        CalledIsWalked(from, c, WalkLines(t));
      }
    } else {
      var d :| d in c.children && Below(d, t);
      if Own(c).Body? {
        BodyChild(q, c, path, d);
        BodyIsWalked(q, d, path + [c.node.id], t);
        ImplementationIsPrinted(from, c, d, WalkLines(t));
      } else {
        RowsAreLeaves(q, c, path, d, t);
      }
    }
  }

  lemma ImplementationIsPrinted(from: Who, c: Step, d: Step, part: seq<Line>)
    requires c.node.kind == InterfaceCall && d in c.children && Within(part, WalkLines(d))
    ensures Within(part, ChildLines(from, c))
  {
    var k :| 0 <= k < |c.children| && c.children[k] == d;
    CalledIsWalked(from, d, part);
    if |c.children| > 1 {
      AlternativeIsPrinted(from, c, 0, k);
      WithinTwice(part, CalledLines(from, d), Alternatives(from, c, 0));
    }
  }

  lemma {:induction false} HandlerIsPrinted(root: Step, i: nat, k: nat)
    requires k < i <= |root.children|
    ensures Within(CalledLines(Actor(Starter(root.node)), root.children[k]), RootLines(root, i))
  {
    var actor := Actor(Starter(root.node));
    RootStep(root, i - 1);
    var called := CalledLines(actor, root.children[i - 1]);
    if k == i - 1 {
      assert RootLines(root, i) == RootLines(root, i - 1) + called + [];
    } else {
      HandlerIsPrinted(root, i - 1, k);
      WithinPart(CalledLines(actor, root.children[k]), RootLines(root, i - 1), [], called);
      assert [] + RootLines(root, i - 1) + called == RootLines(root, i);
    }
  }

  // ---- The diagram of a built flow ----

  /** A function body in a flow tree whose calls the diagram shows as such. */
  ghost predicate Shown(root: Step, t: Step) {
    && (exists c :: c in root.children && Below(c, t))
    && Own(t).Body? && t.children != [] && t.node.kind != InterfaceCall
  }

  lemma ShownIsWalked(q: Query, root: Step, cut: bool, t: Step)
    requires q.Valid() && Faithful(q, root.children, cut) && Shown(root, t)
    ensures Within(WalkLines(t), RootLines(root, |root.children|)) && Blocks(t.children)
  {
    var c :| c in root.children && Below(c, t);
    assert HandlerStep(q, c);
    var ancestors := BodyIsWellFormed(q, c, [q.root], t);
    BodyIsWalked(q, c, [q.root], t);
    HandlerIsWalked(root, c, WalkLines(t));
  }

  lemma HandlerIsWalked(root: Step, c: Step, part: seq<Line>)
    requires c in root.children && Within(part, WalkLines(c))
    ensures Within(part, RootLines(root, |root.children|))
  {
    var actor := Actor(Starter(root.node));
    CalledIsWalked(actor, c, part);
    var k :| 0 <= k < |root.children| && root.children[k] == c;
    HandlerIsPrinted(root, |root.children|, k);
    WithinTwice(part, CalledLines(actor, c), RootLines(root, |root.children|));
  }

  /**
   * In the diagram of a built flow, a step prints exactly one par line per group of its calls, at the group's first
   * member.
   */
  lemma FlowGroupsOpenOnce(q: Query, root: Step, cut: bool, t: Step)
    requires q.Valid() && Faithful(q, root.children, cut) && Shown(root, t)
    ensures Within(WalkLines(t), RootLines(root, |root.children|))
    ensures Pars(OwnLines(t.children, |t.children|)) == |Groups(t.children)|
    ensures forall g :: g in Groups(t.children) ==> exists i :: OpensOnce(t.children, g, i)
  {
    var cs := t.children;
    ShownIsWalked(q, root, cut, t);
    OneParPerGroup(cs);
    forall g | g in Groups(cs) ensures exists i :: OpensOnce(cs, g, i) { EachGroupOpens(cs, g); }
  }

  /**
   * And one line per branch exactly when the labels are canonical: the par line, then an and line for each further
   * branch.
   */
  lemma FlowBranchesShareSection(q: Query, root: Step, cut: bool, t: Step)
    requires q.Valid() && Faithful(q, root.children, cut) && Shown(root, t)
    ensures Within(WalkLines(t), RootLines(root, |root.children|))
    ensures Canonical(t.children) <==> OneSection(t.children)
    ensures Canonical(t.children) ==>
      var own := OwnLines(t.children, |t.children|); Pars(own) + Ands(own) == |Sections(t.children)|
  {
    var cs := t.children;
    ShownIsWalked(q, root, cut, t);
    SectionsExactly(cs);
    if Canonical(cs) { OneLinePerBranch(cs); }
  }

  // ---- The sinks in a diagram ----

  ghost predicate Shows(calls: seq<Call>, s: string) { exists call :: call in calls && call.step.node.id == s }

  lemma ShowsWider(a: seq<Call>, b: seq<Call>, c: seq<Call>, s: string)
    requires Shows(b, s)
    ensures Shows(a + b, s) && Shows(a + b + c, s)
  {
    var call :| call in b && call.step.node.id == s;
    assert call in a + b && call in a + b + c;
  }

  /** The calls of a function that is called. */
  function Made(from: Who, c: Step): seq<Call> { [Call(from, c, ToFunction)] + CallsBelow(c) }

  /** What the first of `cs` adds, whatever it is called as. */
  lemma FirstMade(from: Who, cs: seq<Step>, first: Callee, s: string)
    requires cs != []
    ensures Shows(CallsMade(from, cs, first), s) <==>
            Shows(Made(from, cs[0]), s) || Shows(CallsMade(from, cs[1..], NextCallee(first)), s)
  {
    var head, below := Call(from, cs[0], first), CallsBelow(cs[0]);
    var rest, all := CallsMade(from, cs[1..], NextCallee(first)), CallsMade(from, cs, first);
    assert all == [head] + below + rest;
    assert forall call :: call in all <==> call == head || call in below || call in rest;
    assert forall call :: call in Made(from, cs[0]) <==> call == Call(from, cs[0], ToFunction) || call in below;
    if Shows(Made(from, cs[0]), s) && cs[0].node.id == s { assert head in all; }
  }

  lemma {:induction false} ShowsOfAll(from: Who, cs: seq<Step>, c: Step, s: string)
    requires c in cs && Shows(CallsOf(from, c), s)
    ensures Shows(CallsOfAll(from, cs), s)
  {
    if c == cs[0] {
      ShowsWider([], CallsOf(from, c), CallsOfAll(from, cs[1..]), s);
      assert [] + CallsOf(from, c) == CallsOf(from, c);
    } else {
      ShowsOfAll(from, cs[1..], c, s);
      ShowsWider(CallsOf(from, cs[0]), CallsOfAll(from, cs[1..]), [], s);
    }
  }

  lemma {:induction false} ShowsMade(from: Who, cs: seq<Step>, first: Callee, c: Step, s: string)
    requires c in cs && Shows(Made(from, c), s)
    ensures Shows(CallsMade(from, cs, first), s)
  {
    FirstMade(from, cs, first, s);
    if c != cs[0] { ShowsMade(from, cs[1..], NextCallee(first), c, s); }
  }

  lemma {:induction false} SinkIsMade(q: Query, from: Who, c: Step, path: seq<string>, s: string)
    requires q.Valid() && WellFormed(q, c, path) && Sink(s) in Tags(c)
    ensures Shows(Made(from, c), s)
    decreases c, 0
  {
    if IsSink(c.node) {
      RowTagsAreRows(c.children);
      assert Call(from, c, ToFunction) in Made(from, c);
    } else {
      var d := TagsOfWitness(c.children, Sink(s));
      var lane := Lane(LaneTitle(c.node));
      SinkIsCalled(q, lane, d, path + [c.node.id], s);
      ShowsOfAll(lane, c.children, d, s);
      ShowsWider([Call(from, c, ToFunction)], CallsBelow(c), [], s);
    }
  }

  lemma {:induction false} SinkIsCalled(q: Query, from: Who, c: Step, path: seq<string>, s: string)
    requires q.Valid() && WellFormed(q, c, path) && Sink(s) in Tags(c)
    ensures Shows(CallsOf(from, c), s)
    decreases c, 1
  {
    if c.node.kind == InterfaceCall && c.children != [] {
      var d := TagsOfWitness(c.children, Sink(s));
      SinkIsMade(q, from, d, path + [c.node.id], s);
      ShowsMade(from, c.children, if |c.children| > 1 then FirstChoice else ToFunction, d, s);
    } else if IsSink(c.node) {
      RowTagsAreRows(c.children);
      assert Call(from, c, ToSystem) in CallsOf(from, c);
    } else {
      SinkIsMade(q, from, c, path, s);
    }
  }

  /** Sinks query tables, not sinks. */
  ghost predicate TablesAreNoSinks(g: Graph)
    requires g.Valid()
  {
    forall e :: e in g.edges && e.kind == Queries ==> !IsSink(g.nodes[e.to])
  }

  ghost predicate NoSinkOn(q: Query, path: seq<string>) {
    forall x :: x in path ==> x in q.g.nodes && !IsSink(q.g.nodes[x])
  }

  /** Only steps for sinks show them. */
  ghost predicate OnlyTagged(q: Query, calls: seq<Call>, tags: multiset<Tag>) {
    forall s :: Shows(calls, s) && SinkId(q, s) ==> Sink(s) in tags
  }

  ghost predicate SinkId(q: Query, id: string) { id in q.g.nodes && IsSink(q.g.nodes[id]) }

  lemma {:induction false} CalledAreTagged(q: Query, from: Who, c: Step, path: seq<string>)
    requires q.Valid() && TablesAreNoSinks(q.g) && WellFormed(q, c, path) && NoSinkOn(q, path)
    ensures OnlyTagged(q, CallsOf(from, c), Tags(c)) && OnlyTagged(q, Made(from, c), Tags(c))
    decreases c, 0
  {
    if IsSink(c.node) {
      RowsAreTagged(q, from, c);
    } else {
      forall d | d in c.children
        ensures OnlyTagged(q, CallsOf(Lane(LaneTitle(c.node)), d), TagsOf(c.children))
        ensures OnlyTagged(q, Made(from, d), TagsOf(c.children))
      {
        ChildTagged(q, Lane(LaneTitle(c.node)), c, d, path);
        ChildTagged(q, from, c, d, path);
      }
      AllTagged(q, Lane(LaneTitle(c.node)), c.children, TagsOf(c.children));
      MadeTagged(q, from, c.children, if |c.children| > 1 then FirstChoice else ToFunction, TagsOf(c.children));
      FunctionTagged(q, from, c);
    }
  }

  lemma FunctionTagged(q: Query, from: Who, c: Step)
    requires c.node.id in q.g.nodes && c.node == q.g.nodes[c.node.id] && !IsSink(c.node)
    requires OnlyTagged(q, CallsBelow(c), TagsOf(c.children))
    requires OnlyTagged(q, CallsMade(from, c.children, if |c.children| > 1 then FirstChoice else ToFunction),
                        TagsOf(c.children))
    ensures OnlyTagged(q, CallsOf(from, c), Tags(c)) && OnlyTagged(q, Made(from, c), Tags(c))
  {
  }

  lemma {:induction false} ChildTagged(q: Query, from: Who, c: Step, d: Step, path: seq<string>)
    requires q.Valid() && TablesAreNoSinks(q.g) && WellFormed(q, c, path) && NoSinkOn(q, path)
    requires Own(c).Body? && d in c.children
    ensures OnlyTagged(q, CallsOf(from, d), TagsOf(c.children)) && OnlyTagged(q, Made(from, d), TagsOf(c.children))
    decreases d, 1
  {
    BodyChild(q, c, path, d);
    BodyPath(q, c, path);
    CalledAreTagged(q, from, d, path + [c.node.id]);
    TagsOfMember(c.children, d);
  }

  lemma BodyPath(q: Query, c: Step, path: seq<string>)
    requires q.Valid() && WellFormed(q, c, path) && NoSinkOn(q, path) && Own(c).Body?
    ensures NoSinkOn(q, path + [c.node.id])
  {
  }

  lemma {:induction false} AllTagged(q: Query, from: Who, cs: seq<Step>, tags: multiset<Tag>)
    requires forall d :: d in cs ==> OnlyTagged(q, CallsOf(from, d), tags)
    ensures OnlyTagged(q, CallsOfAll(from, cs), tags)
  {
    if cs != [] { AllTagged(q, from, cs[1..], tags); }
  }

  lemma {:induction false} MadeTagged(q: Query, from: Who, cs: seq<Step>, first: Callee, tags: multiset<Tag>)
    requires forall d :: d in cs ==> OnlyTagged(q, Made(from, d), tags)
    ensures OnlyTagged(q, CallsMade(from, cs, first), tags)
  {
    if cs != [] {
      MadeTagged(q, from, cs[1..], NextCallee(first), tags);
      forall s | Shows(CallsMade(from, cs, first), s) && SinkId(q, s) ensures Sink(s) in tags {
        FirstMade(from, cs, first, s);
        assert OnlyTagged(q, Made(from, cs[0]), tags);
      }
    }
  }

  /** A sink's tables are no sinks. */
  lemma RowsAreTagged(q: Query, from: Who, c: Step)
    requires q.Valid() && TablesAreNoSinks(q.g) && Own(c).Sink? && c.node.id in q.g.nodes &&
             c.children == q.Tables(c.node.id)
    requires c.node == q.g.nodes[c.node.id]
    ensures OnlyTagged(q, CallsOf(from, c), Tags(c)) && OnlyTagged(q, Made(from, c), Tags(c))
  {
    forall r | r in c.children ensures !SinkId(q, r.node.id) && r.children == [] {
      var i :| 0 <= i < |c.children| && c.children[i] == r;
      assert q.g.Out(c.node.id, {Queries})[i] in q.g.Out(c.node.id, {Queries});
    }
    LeavesTagged(q, Lane(LaneTitle(c.node)), c.children, Tags(c));
  }

  lemma {:induction false} LeavesTagged(q: Query, from: Who, cs: seq<Step>, tags: multiset<Tag>)
    requires forall r :: r in cs ==> !SinkId(q, r.node.id) && r.children == []
    ensures OnlyTagged(q, CallsOfAll(from, cs), tags)
  {
    if cs != [] {
      LeavesTagged(q, from, cs[1..], tags);
      assert CallsBelow(cs[0]) == [];
    }
  }

  lemma SinkIsDrawn(q: Query, root: Step, cut: bool, s: string)
    requires q.Valid() && Faithful(q, root.children, cut) && Sink(s) in TagsOf(root.children)
    ensures s in Map(FlowCalls(root), Called())
  {
    var actor, calls := Actor(Starter(root.node)), FlowCalls(root);
    var c := TagsOfWitness(root.children, Sink(s));
    assert HandlerStep(q, c);
    SinkIsMade(q, actor, c, [q.root], s);
    ShowsMade(actor, root.children, ToFunction, c, s);
    ShownIsCalled(calls, s);
  }

  lemma ShownIsCalled(calls: seq<Call>, s: string)
    requires Shows(calls, s)
    ensures s in Map(calls, Called())
  {
    var call :| call in calls && call.step.node.id == s;
    var i :| 0 <= i < |calls| && calls[i] == call;
    assert Map(calls, Called())[i] == s;
  }

  lemma FlowCallsTagged(q: Query, root: Step, cut: bool)
    requires q.Valid() && TablesAreNoSinks(q.g) && Faithful(q, root.children, cut)
    ensures OnlyTagged(q, FlowCalls(root), TagsOf(root.children))
  {
    var actor := Actor(Starter(root.node));
    forall c | c in root.children ensures OnlyTagged(q, Made(actor, c), TagsOf(root.children)) {
      assert HandlerStep(q, c);
      CalledAreTagged(q, actor, c, [q.root]);
      TagsOfMember(root.children, c);
    }
    MadeTagged(q, actor, root.children, ToFunction, TagsOf(root.children));
  }

  /** The diagram of a flow that was not cut has a message for exactly the sinks that the route reaches. */
  lemma SinksAreDrawn(q: Query, root: Step, s: string)
    requires q.Valid() && TablesAreNoSinks(q.g) && Faithful(q, root.children, false) && SinkId(q, s)
    ensures q.FlowReaches(s) <==> s in Map(FlowCalls(root), Called())
  {
    var calls := FlowCalls(root);
    if q.FlowReaches(s) { SinkIsDrawn(q, root, false, s); }
    if i :| 0 <= i < |calls| && Map(calls, Called())[i] == s {
      FlowCallsTagged(q, root, false);
      assert calls[i] in calls;
    }
  }
}
