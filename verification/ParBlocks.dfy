/**
 * The par blocks of sequence diagrams: one per group of siblings, one section per branch
 * (internal/mermaid/sequence.go).
 */
module ParBlocks {
  import opened CodeGraph
  import opened FlowTree
  import opened Ordering
  import opened SequenceDiagram
  import Text

  /** The i-th of some siblings opens a par block. */
  predicate OpensBlock(cs: seq<Step>, i: nat)
    requires i < |cs|
  {
    Group(cs[i]) != "" && (i == 0 || Group(cs[i - 1]) != Group(cs[i]))
  }

  /** The i-th of some siblings starts a section, the first of a par block or a further one. */
  predicate StartsSection(cs: seq<Step>, i: nat)
    requires i < |cs|
  {
    OpensBlock(cs, i) || (Group(cs[i]) != "" && i > 0 && Branch(cs[i - 1]) != Branch(cs[i]))
  }

  /** What is printed before the i-th child says just that. */
  lemma OpeningSays(cs: seq<Step>, i: nat)
    requires i < |cs|
    ensures var (group, branch) := if i == 0 then ("", "") else (Group(cs[i - 1]), Branch(cs[i - 1]));
            var opening := Opening(group, branch, Group(cs[i]), Branch(cs[i]));
            && (OpensBlock(cs, i) <==> Par(BranchTitle(Branch(cs[i]))) in opening)
            && (StartsSection(cs, i) && !OpensBlock(cs, i) <==> opening == [And(BranchTitle(Branch(cs[i])))])
            && (End in opening <==> i > 0 && Group(cs[i - 1]) != "" && Group(cs[i]) != Group(cs[i - 1]))
  {
    var (group, branch) := if i == 0 then ("", "") else (Group(cs[i - 1]), Branch(cs[i - 1]));
    var opening := Opening(group, branch, Group(cs[i]), Branch(cs[i]));
    var par, and := Par(BranchTitle(Branch(cs[i]))), And(BranchTitle(Branch(cs[i])));
    assert par in [par] && End in [End] && and in [and];
    assert and !in [End] && and !in [par] && and !in [End] + [par];
  }

  /** Group `g` opens one par block among some siblings, at its first member. */
  ghost predicate OpensOnce(cs: seq<Step>, g: string, i: nat) {
    && i < |cs| && Group(cs[i]) == g && OpensBlock(cs, i)
    && forall j :: 0 <= j < |cs| && Group(cs[j]) == g ==> i <= j && (OpensBlock(cs, j) ==> j == i)
  }

  lemma BlockOpensOnce(cs: seq<Step>, g: string, k: nat) returns (i: nat)
    requires Blocks(cs) && k < |cs| && Group(cs[k]) == g != ""
    ensures OpensOnce(cs, g, i)
  {
    i := FirstOf(cs, g, k);
    forall j | i < j < |cs| && Group(cs[j]) == g ensures !OpensBlock(cs, j) { LaterDoesNotOpen(cs, i, j); }
  }

  lemma LaterDoesNotOpen(cs: seq<Step>, i: nat, j: nat)
    requires Blocks(cs) && i < j < |cs| && Group(cs[i]) == Group(cs[j]) != ""
    ensures !OpensBlock(cs, j)
  {
    var before := j - 1;
    assert i < before ==> Group(cs[before]) == Group(cs[i]);
  }

  lemma EachGroupOpens(cs: seq<Step>, g: string)
    requires Blocks(cs) && g in Groups(cs)
    ensures exists i :: OpensOnce(cs, g, i)
  {
    var s :| s in cs && Group(s) == g;
    var k :| 0 <= k < |cs| && cs[k] == s;
    var i := BlockOpensOnce(cs, g, k);
  }

  lemma GroupOpensOnce(calls: seq<Step>, g: string)
    requires g != "" && exists s :: s in calls && Group(s) == g
    ensures exists i :: OpensOnce(Grouped(calls), g, i)
  {
    GroupedBlocks(calls);
    GroupedPermutes(calls);
    SameElements(Grouped(calls), calls);
    EachGroupOpens(Grouped(calls), g);
  }

  lemma FirstOf(cs: seq<Step>, g: string, k: nat) returns (i: nat)
    requires k < |cs| && Group(cs[k]) == g
    ensures i <= k && Group(cs[i]) == g && forall j :: 0 <= j < i ==> Group(cs[j]) != g
  {
    i := 0;
    while Group(cs[i]) != g
      invariant i <= k && forall j :: 0 <= j < i ==> Group(cs[j]) != g
      decreases k - i
    {
      i := i + 1;
    }
  }

  // ---- Sections ----

  /** Members of one group whose labels compare equal: one branch. */
  predicate OneBranch(s: Step, t: Step) {
    Group(s) == Group(t) != "" && CompareBranch(Branch(s), Branch(t)) == 0
  }

  /** No two labels stand for the same branch, as "1" and "01" do. */
  ghost predicate Canonical(calls: seq<Step>) {
    forall s, t :: s in calls && t in calls && OneBranch(s, t) ==> Branch(s) == Branch(t)
  }

  /** Only the first member of a branch starts a section. */
  ghost predicate OneSection(cs: seq<Step>) {
    forall i, j :: 0 <= i < j < |cs| && OneBranch(cs[i], cs[j]) ==> !StartsSection(cs, j)
  }

  lemma CompareSwaps(a: string, b: string)
    ensures CompareBranch(a, b) == -CompareBranch(b, a)
  {
    Text.LeTotal(a, b);
  }

  /** Between two members of a branch there are only members of it. */
  lemma BranchIsContiguous(cs: seq<Step>, i: nat, k: nat, j: nat)
    requires Blocks(cs) && i <= k < j < |cs| && OneBranch(cs[i], cs[j])
    ensures OneBranch(cs[i], cs[k]) && OneBranch(cs[k], cs[j])
  {
    BranchesAreOrdered();
    CompareSwaps(Branch(cs[i]), Branch(cs[k]));
    CompareSwaps(Branch(cs[k]), Branch(cs[j]));
    CompareSwaps(Branch(cs[i]), Branch(cs[j]));
    if i < k {
      assert Group(cs[k]) == Group(cs[i]);
      assert ByBranch()(cs[i], cs[k]) && ByBranch()(cs[k], cs[j]) && ByBranch()(cs[j], cs[i]);
    } else {
      CompareSwaps(Branch(cs[i]), Branch(cs[i]));
    }
  }

  lemma CanonicalShares(cs: seq<Step>, i: nat, j: nat)
    requires Blocks(cs) && Canonical(cs) && i < j < |cs| && OneBranch(cs[i], cs[j])
    ensures !StartsSection(cs, j)
  {
    var k := j - 1;
    BranchIsContiguous(cs, i, k, j);
    assert cs[k] in cs && cs[j] in cs;
  }

  lemma {:induction false} SectionHasOneLabel(cs: seq<Step>, i: nat, j: nat)
    requires Blocks(cs) && OneSection(cs) && i <= j < |cs| && OneBranch(cs[i], cs[j])
    ensures Branch(cs[i]) == Branch(cs[j])
    decreases j - i
  {
    if i < j {
      var k := j - 1;
      BranchIsContiguous(cs, i, k, j);
      SectionHasOneLabel(cs, i, k);
      assert !StartsSection(cs, j);
    }
  }

  /** Siblings in blocks have one section per branch exactly when their labels are canonical. */
  lemma SectionsExactly(cs: seq<Step>)
    requires Blocks(cs)
    ensures Canonical(cs) <==> OneSection(cs)
  {
    if Canonical(cs) {
      forall i, j | 0 <= i < j < |cs| && OneBranch(cs[i], cs[j]) ensures !StartsSection(cs, j) {
        CanonicalShares(cs, i, j);
      }
    }
    if OneSection(cs) {
      forall s, t | s in cs && t in cs && OneBranch(s, t) ensures Branch(s) == Branch(t) {
        var i :| 0 <= i < |cs| && cs[i] == s;
        var j :| 0 <= j < |cs| && cs[j] == t;
        CompareSwaps(Branch(s), Branch(t));
        if i <= j { SectionHasOneLabel(cs, i, j); } else { SectionHasOneLabel(cs, j, i); }
      }
    }
  }

  /** A grouped list has one section per branch exactly when the labels of the calls are canonical. */
  lemma BranchHasOneSection(calls: seq<Step>)
    ensures Canonical(calls) <==> OneSection(Grouped(calls))
  {
    GroupedBlocks(calls);
    GroupedPermutes(calls);
    SameElements(Grouped(calls), calls);
    SectionsExactly(Grouped(calls));
    assert Canonical(calls) <==> Canonical(Grouped(calls));
  }

  /** The labels the extractors write: numbers, and "each". */
  predicate Written(branch: string, n: nat) {
    branch == "each" || (n < 0x8000_0000_0000_0000 && branch == Text.Itoa(n))
  }

  lemma WrittenAreDistinct(a: string, m: nat, b: string, n: nat)
    requires Written(a, m) && Written(b, n) && CompareBranch(a, b) == 0
    ensures a == b
  {
    Text.NoNumber("each");
    if a != "each" { Text.AtoiItoa(m); }
    if b != "each" { Text.AtoiItoa(n); }
    assert a == "each" <==> Text.Atoi(a) == Text.NotANumber;
    assert b == "each" <==> Text.Atoi(b) == Text.NotANumber;
  }

  /** They are canonical, so written labels never split a branch. */
  lemma WrittenAreCanonical(calls: seq<Step>)
    requires forall s :: s in calls ==> exists n: nat :: Written(Branch(s), n)
    ensures Canonical(calls) && OneSection(Grouped(calls))
  {
    forall s, t | s in calls && t in calls && OneBranch(s, t) ensures Branch(s) == Branch(t) {
      var m: nat :| Written(Branch(s), m);
      var n: nat :| Written(Branch(t), n);
      WrittenAreDistinct(Branch(s), m, Branch(t), n);
    }
    BranchHasOneSection(calls);
  }

  function Labelled(id: string, branch: string): Step {
    NewStep(NO_NODE.(id := id), NO_EDGE.(attrs := map["parallel" := "g", "branch" := branch]))
  }

  /** Labels that are not can: calls of three functions in branches "1", "01" and "1" make three sections. */
  lemma LabelsCanSplit()
    ensures var calls := [Labelled("a", "1"), Labelled("b", "01"), Labelled("c", "1")];
            Grouped(calls) == calls && !Canonical(calls)
            && Branch(calls[0]) == Branch(calls[2]) && StartsSection(calls, 1) && StartsSection(calls, 2)
  {
    var (s, t, u) := (Labelled("a", "1"), Labelled("b", "01"), Labelled("c", "1"));
    var calls := [s, t, u];
    SameNumber();
    var le := ByBranch();
    assert le(s, t) && le(t, u) && Sort([], le) == [];
    assert [u][1..] == [] && [t, u][1..] == [u] && calls[1..] == [t, u];
    assert Sort([u], le) == [u];
    assert Sort([t, u], le) == [t, u];
    assert Sort(calls, le) == calls;
    FilterAll(calls, In("g"));
    FilterNone(calls[1..], NotIn({"g"}));
    assert Grouped([]) == [];
    assert Grouped(calls) == calls;
    assert s in calls && t in calls && OneBranch(s, t);
  }

  lemma SameNumber()
    ensures CompareBranch("1", "01") == 0 && CompareBranch("01", "1") == 0 && CompareBranch("1", "1") == 0
  {
    assert Text.DigitsValue("1") == 1 by { assert "1"[..0] == ""; }
    assert Text.DigitsValue("01") == 1 by {
      assert "01"[..1] == "0" && "0"[..0] == "";
      assert Text.DigitsValue("0") == 0;
    }
  }

  // ---- The lines of a step itself ----

  /** What is printed before the i-th of some siblings. */
  function OpeningAt(cs: seq<Step>, i: nat): seq<Line>
    requires i < |cs|
  {
    var (group, branch) := Before(cs, i);
    Opening(group, branch, Group(cs[i]), Branch(cs[i]))
  }

  /** The group and branch the i-th of some siblings comes after. */
  function Before(cs: seq<Step>, i: nat): (string, string)
    requires i <= |cs|
  {
    if i == 0 then ("", "") else (Group(cs[i - 1]), Branch(cs[i - 1]))
  }

  /** The lines `walk` prints itself before the k-th child. */
  function OwnLines(cs: seq<Step>, k: nat): seq<Line>
    requires k <= |cs|
  {
    if k == 0 then [] else OwnLines(cs, k - 1) + OpeningAt(cs, k - 1)
  }

  /** The same with those of the children. */
  function LinesBefore(s: Step, k: nat): seq<Line>
    requires k <= |s.children|
  {
    if k == 0 then []
    else LinesBefore(s, k - 1) + (OpeningAt(s.children, k - 1) + ChildOf(s, k - 1))
  }

  /** A step's lines are its own, each child's lines behind what opens it, and the end of the last group. */
  lemma WalkIsOwnAndChildren(s: Step, k: nat)
    requires k <= |s.children|
    ensures WalkLines(s) == LinesBefore(s, k) + CallsFrom(s, k)
  {
    CallsSplit(s, k, CallsFrom(s, 0));
  }

  lemma {:induction false} CallsSplit(s: Step, k: nat, all: seq<Line>)
    requires k <= |s.children| && all == CallsFrom(s, 0)
    ensures all == LinesBefore(s, k) + CallsFrom(s, k)
  {
    if k > 0 {
      CallsSplit(s, k - 1, all);
      CallLinesStep(s, k - 1);
      Shift(all, LinesBefore(s, k - 1), OpeningAt(s.children, k - 1) + ChildOf(s, k - 1), CallsFrom(s, k));
    }
  }

  function ChildOf(s: Step, k: nat): seq<Line>
    requires k < |s.children|
  {
    ChildLines(Lane(LaneTitle(s.node)), s.children[k])
  }

  /** The lines from the k-th child on. */
  function CallsFrom(s: Step, k: nat): seq<Line>
    requires k <= |s.children|
  {
    CallLines(s, k, Before(s.children, k).0, Before(s.children, k).1)
  }

  lemma Shift(whole: seq<Line>, a: seq<Line>, b: seq<Line>, c: seq<Line>)
    requires whole == a + (b + c)
    ensures whole == (a + b) + c
  {
  }

  /** Where a child's lines stand. */
  lemma ChildStands(s: Step, k: nat)
    requires k < |s.children|
    ensures WalkLines(s) == LinesBefore(s, k) + (OpeningAt(s.children, k) + ChildOf(s, k)) + CallsFrom(s, k + 1)
  {
    WalkIsOwnAndChildren(s, k);
    CallLinesStep(s, k);
    Shift(WalkLines(s), LinesBefore(s, k), OpeningAt(s.children, k) + ChildOf(s, k), CallsFrom(s, k + 1));
  }

  lemma CallLinesStep(s: Step, k: nat)
    requires k < |s.children|
    ensures CallsFrom(s, k) == OpeningAt(s.children, k) + ChildOf(s, k) + CallsFrom(s, k + 1)
  {
  }

  function Pars(lines: seq<Line>): nat {
    if lines == [] then 0 else Pars(lines[..|lines| - 1]) + if lines[|lines| - 1].Par? then 1 else 0
  }

  function Ands(lines: seq<Line>): nat {
    if lines == [] then 0 else Ands(lines[..|lines| - 1]) + if lines[|lines| - 1].And? then 1 else 0
  }

  lemma {:induction false} CountsAdd(a: seq<Line>, b: seq<Line>)
    ensures Pars(a + b) == Pars(a) + Pars(b) && Ands(a + b) == Ands(a) + Ands(b)
    decreases |b|
  {
    if b == [] {
      assert a + b == a;
    } else {
      assert (a + b)[..|a + b| - 1] == a + b[..|b| - 1];
      CountsAdd(a, b[..|b| - 1]);
    }
  }

  lemma CountsOne(l: Line)
    ensures Pars([l]) == (if l.Par? then 1 else 0) && Ands([l]) == if l.And? then 1 else 0
  {
    assert [l][..0] == [] && Pars([]) == 0 && Ands([]) == 0;
  }

  lemma OpeningCounts(cs: seq<Step>, i: nat)
    requires i < |cs|
    ensures Pars(OpeningAt(cs, i)) == if OpensBlock(cs, i) then 1 else 0
    ensures Ands(OpeningAt(cs, i)) == if StartsSection(cs, i) && !OpensBlock(cs, i) then 1 else 0
  {
    var br := Branch(cs[i]);
    CountsOne(End);
    CountsOne(Par(BranchTitle(br)));
    CountsOne(And(BranchTitle(br)));
    CountsAdd([End], [Par(BranchTitle(br))]);
    assert [End] + [] == [End] && [] + [Par(BranchTitle(br))] == [Par(BranchTitle(br))];
    assert Pars([]) == 0 && Ands([]) == 0;
  }

  /** The groups of some siblings with their branches. */
  function Sections(cs: seq<Step>): set<(string, string)> {
    set s | s in cs && Group(s) != "" :: (Group(s), Branch(s))
  }

  lemma SectionsPush(cs: seq<Step>, k: nat)
    requires k < |cs|
    ensures Groups(cs[..k + 1]) == Groups(cs[..k]) + if Group(cs[k]) == "" then {} else {Group(cs[k])}
    ensures Sections(cs[..k + 1]) ==
            Sections(cs[..k]) + if Group(cs[k]) == "" then {} else {(Group(cs[k]), Branch(cs[k]))}
  {
    assert cs[..k + 1] == cs[..k] + [cs[k]];
    assert forall s :: s in cs[..k + 1] <==> s in cs[..k] || s == cs[k];
  }

  lemma GroupIsNew(cs: seq<Step>, k: nat)
    requires Blocks(cs) && k < |cs| && Group(cs[k]) != ""
    ensures OpensBlock(cs, k) <==> Group(cs[k]) !in Groups(cs[..k])
  {
    if Group(cs[k]) in Groups(cs[..k]) {
      var s :| s in cs[..k] && Group(s) == Group(cs[k]);
      var i :| 0 <= i < k && cs[i] == s;
      LaterDoesNotOpen(cs, i, k);
    }
    if !OpensBlock(cs, k) {
      assert cs[..k][k - 1] == cs[k - 1] && cs[k - 1] in cs[..k];
    }
  }

  lemma GroupsGrow(cs: seq<Step>, k: nat)
    requires Blocks(cs) && k < |cs|
    ensures |Groups(cs[..k + 1])| == |Groups(cs[..k])| + if OpensBlock(cs, k) then 1 else 0
  {
    SectionsPush(cs, k);
    if Group(cs[k]) != "" {
      GroupIsNew(cs, k);
      CountAdded(Groups(cs[..k]), Group(cs[k]));
    }
  }

  lemma SectionIsNew(cs: seq<Step>, k: nat)
    requires OneSection(cs) && k < |cs| && Group(cs[k]) != ""
    ensures StartsSection(cs, k) <==> (Group(cs[k]), Branch(cs[k])) !in Sections(cs[..k])
  {
    if (Group(cs[k]), Branch(cs[k])) in Sections(cs[..k]) {
      var s :| s in cs[..k] && Group(s) == Group(cs[k]) && Branch(s) == Branch(cs[k]);
      var i :| 0 <= i < k && cs[i] == s;
      CompareSwaps(Branch(s), Branch(s));
      assert OneBranch(cs[i], cs[k]);
    }
    if !StartsSection(cs, k) {
      assert cs[..k][k - 1] == cs[k - 1] && cs[k - 1] in cs[..k];
    }
  }

  lemma SectionsGrow(cs: seq<Step>, k: nat)
    requires OneSection(cs) && k < |cs|
    ensures |Sections(cs[..k + 1])| == |Sections(cs[..k])| + if StartsSection(cs, k) then 1 else 0
  {
    SectionsPush(cs, k);
    if Group(cs[k]) != "" {
      SectionIsNew(cs, k);
      CountAdded(Sections(cs[..k]), (Group(cs[k]), Branch(cs[k])));
    }
  }

  lemma CountAdded<T>(s: set<T>, x: T)
    ensures |s + {x}| == |s| + if x in s then 0 else 1
  {
    assert x in s ==> s + {x} == s;
  }

  /** How many of the first `k` open a block, and how many start a section. */
  function Opens(cs: seq<Step>, k: nat): nat
    requires k <= |cs|
  {
    if k == 0 then 0 else Opens(cs, k - 1) + if OpensBlock(cs, k - 1) then 1 else 0
  }

  function Starts(cs: seq<Step>, k: nat): nat
    requires k <= |cs|
  {
    if k == 0 then 0 else Starts(cs, k - 1) + if StartsSection(cs, k - 1) then 1 else 0
  }

  lemma CountsAfter(own: seq<Line>, opening: seq<Line>, all: seq<Line>, opens: nat, starts: nat, o: nat, t: nat)
    requires all == own + opening && Pars(own) == opens && Pars(own) + Ands(own) == starts
    requires Pars(opening) == o && Pars(opening) + Ands(opening) == t
    ensures Pars(all) == opens + o && Pars(all) + Ands(all) == starts + t
  {
    CountsAdd(own, opening);
  }

  lemma {:induction false} OwnLinesCount(cs: seq<Step>, k: nat)
    requires k <= |cs|
    ensures Pars(OwnLines(cs, k)) == Opens(cs, k) && Pars(OwnLines(cs, k)) + Ands(OwnLines(cs, k)) == Starts(cs, k)
  {
    if k > 0 {
      OwnLinesCount(cs, k - 1);
      OpeningCounts(cs, k - 1);
      CountsAfter(OwnLines(cs, k - 1), OpeningAt(cs, k - 1), OwnLines(cs, k), Opens(cs, k - 1), Starts(cs, k - 1),
                  if OpensBlock(cs, k - 1) then 1 else 0, if StartsSection(cs, k - 1) then 1 else 0);
    }
  }

  lemma {:induction false} OpensPerGroup(cs: seq<Step>, k: nat)
    requires Blocks(cs) && k <= |cs|
    ensures Opens(cs, k) == |Groups(cs[..k])|
  {
    if k > 0 {
      OpensPerGroup(cs, k - 1);
      GroupsGrow(cs, k - 1);
    }
  }

  lemma {:induction false} StartsPerBranch(cs: seq<Step>, k: nat)
    requires OneSection(cs) && k <= |cs|
    ensures Starts(cs, k) == |Sections(cs[..k])|
  {
    if k > 0 {
      StartsPerBranch(cs, k - 1);
      SectionsGrow(cs, k - 1);
    }
  }

  /** A step prints one par line per group of its calls. */
  lemma OneParPerGroup(cs: seq<Step>)
    requires Blocks(cs)
    ensures Pars(OwnLines(cs, |cs|)) == |Groups(cs)|
  {
    OwnLinesCount(cs, |cs|);
    OpensPerGroup(cs, |cs|);
    assert cs[..|cs|] == cs;
  }

  /** And one line, par or and, per branch of a group, when no branch has two sections. */
  lemma OneLinePerBranch(cs: seq<Step>)
    requires OneSection(cs)
    ensures Pars(OwnLines(cs, |cs|)) + Ands(OwnLines(cs, |cs|)) == |Sections(cs)|
  {
    OwnLinesCount(cs, |cs|);
    StartsPerBranch(cs, |cs|);
    assert cs[..|cs|] == cs;
  }
}
