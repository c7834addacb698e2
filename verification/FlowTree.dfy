/** Flow trees and the grouping of calls that run in parallel (internal/flow/flow.go). */
module FlowTree {
  import opened CodeGraph
  import opened Ordering
  import Text

  /** One node of a flow tree; the fields mirror the Go struct. */
  datatype Step = Step(node: Node, edge: Edge, children: seq<Step>, cycle: bool, ref: bool, truncated: bool, calls: nat)

  const NO_POS := Pos("", 0)
  const NO_NODE := Node("", NoKind, "", "", "", NO_POS, map[])
  const NO_EDGE := Edge(0, "", "", NoEdgeKind, map[])

  function NewStep(n: Node, e: Edge): Step { Step(n, e, [], false, false, false, 0) }

  /** The parallel group a step belongs to ("" when it runs in sequence) and its branch there. */
  function Group(s: Step): string { Attr(s.edge.attrs, "parallel") }

  function Branch(s: Step): string { Attr(s.edge.attrs, "branch") }

  /** Numbered branches first, by number, then the others by name. */
  function CompareBranch(a: string, b: string): int {
    match (Text.Atoi(a), Text.Atoi(b))
    case (Num(x), Num(y)) => if x < y then -1 else if x == y then 0 else 1
    case (Num(_), _) => -1
    case (_, Num(_)) => 1
    case _ => if a == b then 0 else if Text.Le(a, b) then -1 else 1
  }

  function ByBranch(): (Step, Step) -> bool {
    (a: Step, b: Step) => CompareBranch(Branch(a), Branch(b)) <= 0
  }

  lemma BranchesAreOrdered()
    ensures TotalPreorder(ByBranch())
  {
    var le := ByBranch();
    forall a, b ensures le(a, b) || le(b, a) {
      Text.LeTotal(Branch(a), Branch(b));
    }
    forall a, b, c | le(a, b) && le(b, c) ensures le(a, c) {
      var (x, y, z) := (Branch(a), Branch(b), Branch(c));
      Text.LeTotal(x, y);
      Text.LeTotal(y, z);
      if Text.Atoi(x).NotANumber? && Text.Atoi(z).NotANumber? {
        Text.LeTransitive(x, y, z);
      }
    }
  }

  /** "1" comes before "2", and every number before "each". */
  lemma NumbersComeFirst(m: nat, n: nat)
    requires m < 0x8000_0000_0000_0000 && n < 0x8000_0000_0000_0000
    ensures CompareBranch(Text.Itoa(m), Text.Itoa(n)) < 0 <==> m < n
    ensures CompareBranch(Text.Itoa(m), Text.Itoa(n)) == 0 <==> m == n
    ensures CompareBranch(Text.Itoa(m), "each") < 0 < CompareBranch("each", Text.Itoa(m))
  {
    Text.AtoiItoa(m);
    Text.AtoiItoa(n);
    Text.NoNumber("each");
  }

  function In(g: string): Step -> bool { (s: Step) => Group(s) == g }

  function NotIn(gs: set<string>): Step -> bool { (s: Step) => Group(s) !in gs }

  /** Each parallel group is pulled together at its first member and sorted by branch. */
  function Grouped(steps: seq<Step>): seq<Step>
    decreases |steps|
  {
    if steps == [] then []
    else
      var g := Group(steps[0]);
      if g == "" then [steps[0]] + Grouped(steps[1..])
      else
        FilterShorter(steps[1..], NotIn({g}));
        Sort(Filter(steps, In(g)), ByBranch()) + Grouped(Filter(steps[1..], NotIn({g})))
  }

  lemma {:induction false} FilterShorter<T>(s: seq<T>, keep: T -> bool)
    ensures |Filter(s, keep)| <= |s|
  {
    if s != [] { FilterShorter(s[1..], keep); }
  }

  lemma {:induction false} FilterFilter<T>(s: seq<T>, p: T -> bool, q: T -> bool, both: T -> bool)
    requires forall x :: x in s ==> (both(x) <==> p(x) && q(x))
    ensures Filter(Filter(s, p), q) == Filter(s, both)
  {
    if s != [] {
      FilterFilter(s[1..], p, q, both);
      FilterAppend([s[0]], Filter(s[1..], p), q);
    }
  }

  lemma {:induction false} FilterAll<T>(s: seq<T>, keep: T -> bool)
    requires forall x :: x in s ==> keep(x)
    ensures Filter(s, keep) == s
  {
    if s != [] { FilterAll(s[1..], keep); }
  }

  lemma {:induction false} FilterNone<T>(s: seq<T>, keep: T -> bool)
    requires forall x :: x in s ==> !keep(x)
    ensures Filter(s, keep) == []
  {
    if s != [] { FilterNone(s[1..], keep); }
  }

  lemma {:induction false} FilterSplits<T>(s: seq<T>, p: T -> bool, rest: T -> bool)
    requires forall x :: x in s ==> (rest(x) <==> !p(x))
    ensures multiset(Filter(s, p)) + multiset(Filter(s, rest)) == multiset(s)
  {
    if s != [] {
      FilterSplits(s[1..], p, rest);
      assert s == [s[0]] + s[1..];
    }
  }

  /** Grouping loses and invents no step. */
  lemma {:induction false} GroupedPermutes(steps: seq<Step>)
    ensures multiset(Grouped(steps)) == multiset(steps)
    decreases |steps|
  {
    if steps != [] {
      var g := Group(steps[0]);
      if g == "" {
        GroupedPermutes(steps[1..]);
        assert steps == [steps[0]] + steps[1..];
      } else {
        FilterShorter(steps[1..], NotIn({g}));
        GroupedPermutes(Filter(steps[1..], NotIn({g})));
        SortPermutes(Filter(steps, In(g)), ByBranch());
        FilterSplits(steps, In(g), NotIn({g}));
      }
    }
  }

  /** In a grouped list every group is one block, and the branches of a group come in order. */
  ghost predicate Blocks(steps: seq<Step>) {
    && (forall i, j, k :: 0 <= i < j < k < |steps| && Group(steps[i]) == Group(steps[k]) != "" ==>
       Group(steps[j]) == Group(steps[i]))
    && (forall i, j :: 0 <= i < j < |steps| && Group(steps[i]) == Group(steps[j]) != "" ==>
          CompareBranch(Branch(steps[i]), Branch(steps[j])) <= 0)
  }

  lemma BlocksPrepend(block: seq<Step>, g: string, rest: seq<Step>)
    requires Blocks(rest) && forall s :: s in block ==> Group(s) == g
    requires forall s :: s in rest ==> Group(s) != g || g == ""
    requires g == "" ==> |block| == 1
    requires SortedBy(block, ByBranch())
    ensures Blocks(block + rest)
  {
    var all := block + rest;
    forall i | 0 <= i < |all| ensures i < |block| ==> Group(all[i]) == g {
      assert i < |block| ==> all[i] in block;
    }
    forall i | |block| <= i < |all| ensures Group(all[i]) != g || g == "" {
      assert all[i] in rest;
    }
  }

  lemma {:induction false} GroupedBlocks(steps: seq<Step>)
    ensures Blocks(Grouped(steps))
    decreases |steps|
  {
    if steps != [] {
      var g := Group(steps[0]);
      if g == "" {
        GroupedBlocks(steps[1..]);
        BlocksPrepend([steps[0]], g, Grouped(steps[1..]));
      } else {
        FilterShorter(steps[1..], NotIn({g}));
        var rest := Filter(steps[1..], NotIn({g}));
        var members := Filter(steps, In(g));
        GroupedBlocks(rest);
        BranchesAreOrdered();
        SortSorts(members, ByBranch());
        GroupMembers(steps, g);
        BlocksPrepend(Sort(members, ByBranch()), g, Grouped(rest));
      }
    }
  }

  lemma GroupMembers(steps: seq<Step>, g: string)
    requires steps != []
    ensures forall s :: s in Sort(Filter(steps, In(g)), ByBranch()) ==> Group(s) == g
    ensures forall s :: s in Grouped(Filter(steps[1..], NotIn({g}))) ==> Group(s) != g
  {
    var (members, rest) := (Filter(steps, In(g)), Filter(steps[1..], NotIn({g})));
    SortPermutes(members, ByBranch());
    SameElements(Sort(members, ByBranch()), members);
    GroupedPermutes(rest);
    SameElements(Grouped(rest), rest);
    forall s ensures s in members ==> Group(s) == g { FilterMembers(steps, In(g), s); }
    forall s ensures s in rest ==> Group(s) != g { FilterMembers(steps[1..], NotIn({g}), s); }
  }

  /** In a group, branches 1, 2, ... stand in this order, and "each" behind them. */
  lemma NumberedInOrder(calls: seq<Step>, i: nat, j: nat, m: nat, n: nat)
    requires i < j < |Grouped(calls)| && Group(Grouped(calls)[i]) == Group(Grouped(calls)[j]) != ""
    requires m < 0x8000_0000_0000_0000 && n < 0x8000_0000_0000_0000 && Branch(Grouped(calls)[j]) == Text.Itoa(n)
    ensures Branch(Grouped(calls)[i]) != "each"
    ensures Branch(Grouped(calls)[i]) == Text.Itoa(m) ==> m <= n
  {
    GroupedBlocks(calls);
    NumbersComeFirst(m, n);
    NumbersComeFirst(n, m);
  }

  /** Steps of group `g` on a branch that compares equal to that of `k`. */
  function SameBranch(g: string, k: Step): Step -> bool {
    (s: Step) => Group(s) == g && (g == "" || (ByBranch()(k, s) && ByBranch()(s, k)))
  }

  /** Grouping is stable: sequential steps, and the steps of one branch, keep their order. */
  lemma {:induction false} GroupedStable(steps: seq<Step>, g: string, k: Step)
    ensures Filter(Grouped(steps), SameBranch(g, k)) == Filter(steps, SameBranch(g, k))
    decreases |steps|
  {
    var same := SameBranch(g, k);
    if steps != [] {
      var h := Group(steps[0]);
      if h == "" {
        GroupedStable(steps[1..], g, k);
        FilterAppend([steps[0]], Grouped(steps[1..]), same);
      } else {
        FilterShorter(steps[1..], NotIn({h}));
        var rest := Filter(steps[1..], NotIn({h}));
        var members := Filter(steps, In(h));
        var block := Sort(members, ByBranch());
        GroupedStable(rest, g, k);
        FilterAppend(block, Grouped(rest), same);
        GroupMembers(steps, h);
        if g == h {
          BranchesAreOrdered();
          SortStable(members, ByBranch(), k);
          forall x | x in rest ensures !same(x) { FilterMembers(steps[1..], NotIn({h}), x); }
          FilterAll(block, In(h));
          FilterFilter(block, In(h), Peers(k, ByBranch()), same);
          FilterFilter(steps, In(h), Peers(k, ByBranch()), same);
          FilterNone(rest, same);
        } else {
          FilterNone(block, same);
          FilterFilter(steps[1..], NotIn({h}), same, same);
        }
      }
    }
  }

  /** What the first loop of `groupParallel` leaves: steps in sequence, and one slot per group. */
  datatype Slot = One(step: Step) | Block(group: string)

  function Outline(steps: seq<Step>, seen: set<string>): seq<Slot> {
    if steps == [] then []
    else
      var g := Group(steps[0]);
      if g == "" then [One(steps[0])] + Outline(steps[1..], seen)
      else if g in seen then Outline(steps[1..], seen)
      else [Block(g)] + Outline(steps[1..], seen + {g})
  }

  function Groups(steps: seq<Step>): set<string> {
    set s | s in steps && Group(s) != "" :: Group(s)
  }

  lemma GroupsConcat(a: seq<Step>, b: seq<Step>)
    ensures Groups(a + b) == Groups(a) + Groups(b)
  {
    assert forall x :: x in a + b <==> x in a || x in b;
  }

  lemma GroupsOne(s: Step)
    ensures Groups([s]) == if Group(s) == "" then {} else {Group(s)}
  {
    assert s in [s];
  }

  lemma {:induction false} OutlineAppend(steps: seq<Step>, s: Step, seen: set<string>)
    ensures Outline(steps + [s], seen) ==
            if Group(s) == "" then Outline(steps, seen) + [One(s)]
            else if Group(s) in Groups(steps) || Group(s) in seen then Outline(steps, seen)
            else Outline(steps, seen) + [Block(Group(s))]
  {
    if steps == [] {
      assert ([] + [s])[1..] == [];
    } else {
      var g := Group(steps[0]);
      assert (steps + [s])[1..] == steps[1..] + [s];
      GroupsConcat([steps[0]], steps[1..]);
      GroupsOne(steps[0]);
      assert [steps[0]] + steps[1..] == steps;
      if g == "" {
        OutlineAppend(steps[1..], s, seen);
      } else if g in seen {
        OutlineAppend(steps[1..], s, seen);
      } else {
        OutlineAppend(steps[1..], s, seen + {g});
      }
    }
  }

  function Render(slots: seq<Slot>, all: seq<Step>): seq<Step> {
    if slots == [] then []
    else Place(slots[0], all) + Render(slots[1..], all)
  }

  function Place(slot: Slot, all: seq<Step>): seq<Step> {
    match slot
    case One(s) => [s]
    case Block(g) => Sort(Filter(all, In(g)), ByBranch())
  }

  lemma {:induction false} RenderAppend(slots: seq<Slot>, slot: Slot, all: seq<Step>)
    ensures Render(slots + [slot], all) == Render(slots, all) + Place(slot, all)
  {
    if slots == [] {
      assert [] + [slot] == [slot] && [slot][1..] == [];
      assert Place(slot, all) + [] == [] + Place(slot, all);
    } else {
      assert (slots + [slot])[1..] == slots[1..] + [slot];
      RenderAppend(slots[1..], slot, all);
      ConcatAssoc(Place(slots[0], all), Render(slots[1..], all), Place(slot, all));
    }
  }

  /** Rendering the outline of `rest` gives the grouping of the steps whose group has no slot yet. */
  lemma {:induction false} OutlineRenders(rest: seq<Step>, seen: set<string>, all: seq<Step>)
    requires "" !in seen
    requires forall g :: g !in seen && g != "" ==> Filter(all, In(g)) == Filter(rest, In(g))
    ensures Render(Outline(rest, seen), all) == Grouped(Filter(rest, NotIn(seen)))
  {
    if rest != [] {
      var tail := rest[1..];
      var g := Group(rest[0]);
      var later := Filter(tail, NotIn(seen));
      if g == "" {
        OutlineRenders(tail, seen, all);
        assert Filter(rest, NotIn(seen)) == [rest[0]] + later;
      } else if g in seen {
        OutlineRenders(tail, seen, all);
      } else {
        OutlineRenders(tail, seen + {g}, all);
        assert Filter(rest, NotIn(seen)) == [rest[0]] + later;
        FilterFilter(rest, NotIn(seen), In(g), In(g));
        FilterFilter(tail, NotIn(seen), NotIn({g}), NotIn(seen + {g}));
      }
    }
  }

  function Placeholder(g: string): Step { NewStep(NO_NODE, NO_EDGE.(attrs := map["parallel" := g])) }

  /** The first loop of `groupParallel` has handled the steps `done`. */
  ghost predicate Scanned(done: seq<Step>, out: seq<Step>, groups: map<string, seq<Step>>) {
    && |out| == |Outline(done, {})|
    && (forall j :: 0 <= j < |out| ==> Placed(out[j], Outline(done, {})[j]))
    && groups.Keys == Groups(done)
    && (forall g :: g in groups ==> groups[g] == Filter(done, In(g)))
  }

  lemma ScanSequential(done: seq<Step>, s: Step, out: seq<Step>, groups: map<string, seq<Step>>)
    requires Scanned(done, out, groups) && s.node.id != "" && Group(s) == ""
    ensures Scanned(done + [s], out + [s], groups)
  {
    OutlineAppend(done, s, {});
    GroupsConcat(done, [s]);
    GroupsOne(s);
    forall h | h in groups ensures Filter(done + [s], In(h)) == groups[h] { AppendMember(done, s, h); }
  }

  lemma ScanMember(done: seq<Step>, s: Step, out: seq<Step>, groups: map<string, seq<Step>>)
    requires Scanned(done, out, groups) && Group(s) != "" && Group(s) in groups
    ensures Scanned(done + [s], out, groups[Group(s) := groups[Group(s)] + [s]])
  {
    var g := Group(s);
    OutlineAppend(done, s, {});
    GroupsConcat(done, [s]);
    GroupsOne(s);
    assert Groups(done + [s]) == Groups(done);
    var groups' := groups[g := groups[g] + [s]];
    forall h | h in groups' ensures groups'[h] == Filter(done + [s], In(h)) { AppendMember(done, s, h); }
  }

  lemma ScanNewGroup(done: seq<Step>, s: Step, out: seq<Step>, groups: map<string, seq<Step>>)
    requires Scanned(done, out, groups) && Group(s) != "" && Group(s) !in groups
    ensures Scanned(done + [s], out + [Placeholder(Group(s))], groups[Group(s) := [s]])
  {
    var g := Group(s);
    OutlineAppend(done, s, {});
    GroupsConcat(done, [s]);
    GroupsOne(s);
    var groups' := groups[g := [s]];
    assert groups'.Keys == groups.Keys + {g};
    forall x | x in done ensures !In(g)(x) {
      assert Group(x) == g ==> Group(x) in Groups(done);
    }
    FilterNone(done, In(g));
    forall h | h in groups' ensures groups'[h] == Filter(done + [s], In(h)) { AppendMember(done, s, h); }
  }

  lemma AppendMember(done: seq<Step>, s: Step, h: string)
    ensures Filter(done + [s], In(h)) == if Group(s) == h then Filter(done, In(h)) + [s] else Filter(done, In(h))
  {
    FilterAppend(done, [s], In(h));
  }

  /** `groupParallel`: the two passes over maps and slices compute exactly `Grouped`. */
  method GroupParallel(steps: seq<Step>) returns (grouped: seq<Step>)
    requires forall s :: s in steps ==> s.node.id != ""
    ensures grouped == Grouped(steps)
  {
    var out: seq<Step> := [];
    var groups: map<string, seq<Step>> := map[];
    for i := 0 to |steps|
      invariant Scanned(steps[..i], out, groups)
    {
      var s := steps[i];
      var g := Group(s);
      NextPrefix(steps, i);
      if g == "" {
        ScanSequential(steps[..i], s, out, groups);
        out := out + [s];
        continue;
      }
      if g !in groups {
        ScanNewGroup(steps[..i], s, out, groups);
        out := out + [Placeholder(g)];
        groups := groups[g := [s]];
      } else {
        ScanMember(steps[..i], s, out, groups);
        groups := groups[g := groups[g] + [s]];
      }
    }
    WholePrefix(steps);
    if |groups| == 0 {
      forall s | s in steps ensures Group(s) == "" {
        assert Group(s) != "" ==> Group(s) in Groups(steps);
      }
      OutlineWithoutGroups(steps);
      return steps;
    }
    grouped := PlaceGroups(steps, out, groups);
  }

  /** The second loop of `groupParallel`: placeholders become their sorted groups. */
  method PlaceGroups(steps: seq<Step>, out: seq<Step>, groups: map<string, seq<Step>>) returns (grouped: seq<Step>)
    requires Scanned(steps, out, groups)
    ensures grouped == Grouped(steps)
  {
    ghost var slots := Outline(steps, {});
    OutlineGroups(steps, {});
    grouped := [];
    for i := 0 to |out|
      invariant grouped == Render(slots[..i], steps)
    {
      var s := out[i];
      RenderNext(slots, i, steps);
      assert Placed(s, slots[i]);
      if s.node.id != "" {
        grouped := grouped + [s];
        continue;
      }
      assert slots[i] in slots;
      var members := Sort(groups[Attr(s.edge.attrs, "parallel")], ByBranch());
      grouped := grouped + members;
    }
    WholePrefix(slots);
    OutlineRenders(steps, {}, steps);
    FilterAll(steps, NotIn({}));
  }

  lemma RenderNext(slots: seq<Slot>, i: nat, all: seq<Step>)
    requires i < |slots|
    ensures Render(slots[..i + 1], all) == Render(slots[..i], all) + Place(slots[i], all)
  {
    assert slots[..i + 1] == slots[..i] + [slots[i]];
    RenderAppend(slots[..i], slots[i], all);
  }

  lemma {:induction false} OutlineGroups(steps: seq<Step>, seen: set<string>)
    ensures forall slot :: slot in Outline(steps, seen) && slot.Block? ==> slot.group in Groups(steps)
  {
    if steps != [] {
      var g := Group(steps[0]);
      OutlineGroups(steps[1..], if g == "" || g in seen then seen else seen + {g});
      assert forall x :: x in steps <==> x == steps[0] || x in steps[1..];
    }
  }

  ghost predicate Placed(s: Step, slot: Slot) {
    match slot
    case One(step) => s == step && s.node.id != ""
    case Block(g) => s.node.id == "" && Group(s) == g
  }

  lemma {:induction false} OutlineWithoutGroups(steps: seq<Step>)
    requires forall s :: s in steps ==> Group(s) == ""
    ensures Grouped(steps) == steps
  {
    if steps != [] {
      OutlineWithoutGroups(steps[1..]);
    }
  }
}
