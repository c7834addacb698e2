/** Enforced guards: the region analysis of internal/analysis/auth.go against every run of a handler. */
module Guards {
  import opened Ordering
  import opened Reachability
  import opened MethodScopes
  import opened Roles
  import opened Wrappers

  /** The functions that are guards, and those that can reach a sink. */
  datatype Classes = Classes(guards: set<FuncId>, work: set<FuncId>)

  /** A call in a function. */
  datatype Site = Site(block: nat, index: nat)

  ghost predicate SiteIn(fn: Fn, s: Site) {
    s.block < |fn.blocks| && s.index < |fn.blocks[s.block].instrs|
  }

  function Raw(fn: Fn): Succ {
    (b: nat) => if b < |fn.blocks| then fn.blocks[b].succs else []
  }

  ghost predicate RawRun(fn: Fn, p: seq<nat>) { Path(Raw(fn), p) && fn.Root(p[0]) }

  /** `g` dominates `b`: every path from where executions start to `b` passes `g`. */
  ghost predicate Dominates(fn: Fn, g: nat, b: nat) {
    forall p :: RawRun(fn, p) && p[|p| - 1] == b ==> g in p
  }

  /** The dominator tree, given as pairs of blocks. */
  ghost predicate DominatorsOf(fn: Fn, dom: set<(nat, nat)>) {
    forall g: nat, b: nat :: (g, b) in dom <==> g < |fn.blocks| && b < |fn.blocks| && Dominates(fn, g, b)
  }

  /** A call that can reach a sink without being a call of a guard. */
  predicate IsWork(c: Classes, instr: Instr) {
    instr.Call? && exists f :: f in instr.callees && f !in c.guards && f in c.work
  }

  ghost predicate WorkAt(fn: Fn, c: Classes, s: Site) {
    SiteIn(fn, s) && IsWork(c, fn.blocks[s.block].instrs[s.index])
  }

  // ---- The test of a guard's result ----

  /** `denySuccessor`: the branch taken when `ok` reports failure, if the condition tests it. */
  function DenySuccessor(test: Cond, ok: ValueId): Option<nat> {
    match test
    case Not(v) => if v == ok then Some(0) else None
    case NilTest(v, equal) => if v == ok then Some(if equal then 1 else 0) else None
    case Plain(v) => if v == ok then Some(1) else None
    case _ => None
  }

  /** Whether a condition on a guard's result holds: a failed guard gives false, or a non-nil error. */
  function Holds(test: Cond, failed: bool): bool {
    match test
    case Not(_) => failed
    case NilTest(_, equal) => equal != failed
    case _ => !failed
  }

  /** The denial branch is the one taken exactly when the guard failed. */
  lemma DenialMeansFailure(test: Cond, ok: ValueId, failed: bool)
    requires DenySuccessor(test, ok).Some?
    ensures failed <==> (if Holds(test, failed) then 0 else 1) == DenySuccessor(test, ok).value
  {
    match test
    case Not(_) =>
    case NilTest(_, _) =>
    case Plain(_) =>
  }

  // ---- exitRegion ----

  class RegionWalker {
    const succ: Succ
    const allowed: set<nat>
    var seen: set<nat>
    var region: seq<nat>

    constructor (succ: Succ, allowed: set<nat>)
      ensures this.succ == succ && this.allowed == allowed && seen == {} && region == []
    {
      this.succ, this.allowed := succ, allowed;
      seen, region := {}, [];
    }

    ghost predicate Valid()
      reads this
    {
      (forall x :: x in seen <==> x in region) && Distinct(region) && seen !! allowed
    }

    /** Collects what `b` reaches; gives up as soon as it meets an allowed block. */
    method Visit(b: nat, ghost all: set<nat>) returns (exits: bool)
      requires Valid() && b in all && seen <= all
      requires forall x, y :: x in all && y in succ(x) ==> y in all
      modifies this
      ensures Valid() && old(seen) <= seen <= all
      ensures forall x :: x in seen && x !in old(seen) ==> Reaches(succ, {}, b, x)
      ensures exits ==> b in seen && ClosedSince(succ, {}, old(seen), seen)
      ensures !exits ==> exists x :: x in allowed && Reaches(succ, {}, b, x)
      decreases all - seen
    {
      ReachesItself(succ, {}, b);
      if b in allowed { return false; }
      if b in seen { return true; }
      ghost var before := seen;
      seen := seen + {b};
      region := region + [b];
      var next := succ(b);
      for i := 0 to |next|
        invariant Valid() && before + {b} <= seen <= all
        invariant forall j :: 0 <= j < i ==> next[j] in seen
        invariant ClosedSince(succ, {}, before + {b}, seen)
        invariant forall x :: x in seen && x !in before ==> Reaches(succ, {}, b, x)
      {
        NextPrefix(next, i);
        ghost var earlier := seen;
        var ok := Visit(next[i], all);
        forall x | Reaches(succ, {}, next[i], x) ensures Reaches(succ, {}, b, x) {
          ReachesOn(succ, {}, b, next[i], x);
        }
        if !ok { return false; }
        ClosedTrans(succ, {}, before + {b}, earlier, seen);
      }
      return true;
    }
  }

  /** The blocks of the allowed path, followed up to the denial. */
  ghost predicate AllowedPath(fn: Fn, start: nat, allow: nat, b: nat) {
    Reaches(Raw(fn), {start}, allow, b)
  }

  ghost predicate InRegion(fn: Fn, start: nat, b: nat) { Reaches(Raw(fn), {}, start, b) }

  /** `exitRegion`: everything reachable from the denial, unless that rejoins the allowed path. */
  method ExitRegion(fn: Fn, start: nat, allow: nat) returns (region: seq<nat>, exits: bool)
    requires fn.Valid() && start < |fn.blocks| && allow < |fn.blocks|
    ensures exits <==> forall b :: InRegion(fn, start, b) ==> !AllowedPath(fn, start, allow, b)
    ensures exits ==> Distinct(region) && forall b: nat :: b in region <==> InRegion(fn, start, b)
  {
    var succ := Raw(fn);
    RawInRange(fn);
    var marker := new Marker(succ, {start});
    marker.Visit(allow, fn.Indexes());
    MarkedIsReachable(succ, {start}, allow, marker.seen);
    var walker := new RegionWalker(succ, marker.seen);
    exits := walker.Visit(start, fn.Indexes());
    region := walker.region;
    if exits {
      MarkedIsReachable(succ, {}, start, walker.seen);
    } else {
      ghost var x :| x in marker.seen && Reaches(succ, {}, start, x);
      assert InRegion(fn, start, x) && AllowedPath(fn, start, allow, x);
    }
  }

  lemma RawInRange(fn: Fn)
    requires fn.Valid()
    ensures forall x, y :: x in fn.Indexes() && y in Raw(fn)(x) ==> y in fn.Indexes()
  {
  }

  // ---- hasWork and dominatesWork ----

  /** `hasWork`. */
  method HasWork(fn: Fn, c: Classes, region: seq<nat>) returns (found: bool)
    requires forall b :: b in region ==> b < |fn.blocks|
    ensures found <==> exists s :: WorkAt(fn, c, s) && s.block in region
  {
    for k := 0 to |region|
      invariant forall s :: WorkAt(fn, c, s) ==> s.block !in region[..k]
    {
      NextPrefix(region, k);
      var instrs := fn.blocks[region[k]].instrs;
      for i := 0 to |instrs|
        invariant forall j :: 0 <= j < i ==> !IsWork(c, instrs[j])
      {
        if IsWork(c, instrs[i]) {
          assert WorkAt(fn, c, Site(region[k], i));
          return true;
        }
      }
    }
    WholePrefix(region);
    return false;
  }

  /** Work at `s` runs after the guard call: later in its block, or in a block it dominates. */
  predicate After(dom: set<(nat, nat)>, guard: Site, s: Site) {
    if s.block == guard.block then s.index > guard.index else (guard.block, s.block) in dom
  }

  /** `dominatesWork`. */
  method DominatesWork(fn: Fn, c: Classes, dom: set<(nat, nat)>, blocks: seq<nat>, guard: Site,
                       exclude: seq<nat>) returns (ok: bool)
    requires forall b :: b in blocks ==> b < |fn.blocks|
    ensures ok <==> forall s :: WorkAt(fn, c, s) && s.block in blocks && s.block !in exclude && s != guard ==>
            After(dom, guard, s)
  {
    for k := 0 to |blocks|
      invariant forall s :: WorkAt(fn, c, s) && s.block in blocks[..k] && s.block !in exclude && s != guard ==>
                After(dom, guard, s)
    {
      NextPrefix(blocks, k);
      var b := blocks[k];
      if b in exclude { continue; }
      var instrs := fn.blocks[b].instrs;
      for i := 0 to |instrs|
        invariant forall j :: 0 <= j < i && IsWork(c, instrs[j]) && Site(b, j) != guard ==>
                  After(dom, guard, Site(b, j))
      {
        if !IsWork(c, instrs[i]) || Site(b, i) == guard { continue; }
        if !After(dom, guard, Site(b, i)) {
          assert WorkAt(fn, c, Site(b, i));
          return false;
        }
      }
    }
    WholePrefix(blocks);
    return true;
  }

  // ---- guardEnforced ----

  /** Block `t` tests the guard's result, and its failing branch `deny` denies the request without doing any work. */
  ghost predicate Enforces(fn: Fn, c: Classes, dom: set<(nat, nat)>, blocks: seq<nat>, denial: seq<nat> -> bool,
                           guard: Site, ok: ValueId, t: nat, region: seq<nat>)
    requires fn.Valid()
  {
    && t in blocks && t < |fn.blocks| && fn.blocks[t].test.Some?
    && DenySuccessor(fn.blocks[t].test.value, ok).Some?
    && (forall b :: InRegion(fn, DenyBlock(fn, t, ok), b) ==>
          !AllowedPath(fn, DenyBlock(fn, t, ok), AllowBlock(fn, t, ok), b))
    && (forall b: nat :: b in region <==> InRegion(fn, DenyBlock(fn, t, ok), b))
    && denial(region)
    && (forall s :: WorkAt(fn, c, s) ==> s.block !in region)
    && (forall s :: WorkAt(fn, c, s) && s.block in blocks && s != guard ==> After(dom, guard, s))
  }

  function DenyBlock(fn: Fn, t: nat, ok: ValueId): (b: nat)
    requires fn.Valid() && t < |fn.blocks| && fn.blocks[t].test.Some? &&
             DenySuccessor(fn.blocks[t].test.value, ok).Some?
    ensures b in fn.blocks[t].succs
  {
    fn.blocks[t].succs[DenySuccessor(fn.blocks[t].test.value, ok).value]
  }

  function AllowBlock(fn: Fn, t: nat, ok: ValueId): (b: nat)
    requires fn.Valid() && t < |fn.blocks| && fn.blocks[t].test.Some? &&
             DenySuccessor(fn.blocks[t].test.value, ok).Some?
    ensures b in fn.blocks[t].succs
  {
    fn.blocks[t].succs[1 - DenySuccessor(fn.blocks[t].test.value, ok).value]
  }

  /** Block `b` ends in a condition that can lead to `deny`. */
  predicate LeadsTo(fn: Fn, b: nat, deny: nat) {
    b < |fn.blocks| && fn.blocks[b].test.Some? && deny in fn.blocks[b].succs
  }

  /** `role` is the strongest of the guard's own and those checked by the conditions that lead to the denial. */
  ghost predicate Strongest(fn: Fn, blocks: seq<nat>, deny: nat, own: string, checked: nat -> string, role: string) {
    && (role == own || exists b :: b in blocks && LeadsTo(fn, b, deny) && role == checked(b))
    && Rank(own) <= Rank(role)
    && forall b :: b in blocks && LeadsTo(fn, b, deny) ==> Rank(checked(b)) <= Rank(role)
  }

  /** The loop over the other conditions in `guardEnforced`. */
  method DeniedRole(fn: Fn, blocks: seq<nat>, deny: nat, own: string, checked: nat -> string) returns (role: string)
    ensures Strongest(fn, blocks, deny, own, checked, role)
  {
    role := own;
    for k := 0 to |blocks|
      invariant Strongest(fn, blocks[..k], deny, own, checked, role)
    {
      NextPrefix(blocks, k);
      if LeadsTo(fn, blocks[k], deny) { role := Stronger(role, checked(blocks[k])); }
    }
    WholePrefix(blocks);
  }

  /**
   * `guardEnforced`; `denial` is the heuristic that recognizes a denial, and `checked` the one that
   * tells which role the condition of a block checks.
   */
  method GuardEnforced(fn: Fn, c: Classes, dom: set<(nat, nat)>, blocks: seq<nat>, denial: seq<nat> -> bool,
                       checked: nat -> string, own: string, guard: Site, okVal: Option<ValueId>)
    returns (enforced: bool, role: string, test: nat, region: seq<nat>)
    requires fn.Valid() && forall b :: b in blocks ==> b < |fn.blocks|
    ensures okVal.None? ==> !enforced
    ensures enforced ==> okVal.Some? && Enforces(fn, c, dom, blocks, denial, guard, okVal.value, test, region)
    ensures enforced ==> Strongest(fn, blocks, DenyBlock(fn, test, okVal.value), own, checked, role)
    ensures enforced ==> exists k :: FirstTaken(fn, c, dom, blocks, denial, guard, okVal.value, test, k)
    ensures !enforced && okVal.Some? ==> forall t :: t in blocks ==>
            Rejected(fn, c, dom, blocks, denial, guard, okVal.value, t)
  {
    enforced, role, test, region := false, "", 0, [];
    if okVal.None? { return; }
    var ok := okVal.value;
    for k := 0 to |blocks|
      invariant forall j :: 0 <= j < k ==> Rejected(fn, c, dom, blocks, denial, guard, ok, blocks[j])
    {
      NextPrefix(blocks, k);
      var t := blocks[k];
      if fn.blocks[t].test.None? || DenySuccessor(fn.blocks[t].test.value, ok).None? { continue; }
      var deny, allow := DenyBlock(fn, t, ok), AllowBlock(fn, t, ok);
      var r, exits := ExitRegion(fn, deny, allow);
      if !exits || !denial(r) { continue; }
      RegionInRange(fn, deny, r);
      var work := HasWork(fn, c, r);
      if work { continue; }
      var dominated := DominatesWork(fn, c, dom, blocks, guard, r);
      if !dominated { continue; }
      var strongest := DeniedRole(fn, blocks, deny, own, checked);
      assert FirstTaken(fn, c, dom, blocks, denial, guard, ok, t, k);
      return true, strongest, t, r;
    }
  }

  lemma RegionInRange(fn: Fn, start: nat, region: seq<nat>)
    requires fn.Valid() && start < |fn.blocks| && forall b: nat :: b in region <==> InRegion(fn, start, b)
    ensures forall b :: b in region ==> b < |fn.blocks|
  {
    RawInRange(fn);
    forall b | b in region ensures b < |fn.blocks| {
      var p :| PathFrom(Raw(fn), {}, p, start, b);
      ClosedContains(Raw(fn), {}, fn.Indexes(), p, |p| - 1);
    }
  }

  /** Why a test is passed over; the denial heuristic may depend on the order of the region. */
  ghost predicate Rejected(fn: Fn, c: Classes, dom: set<(nat, nat)>, blocks: seq<nat>, denial: seq<nat> -> bool,
                           guard: Site, ok: ValueId, t: nat)
    requires fn.Valid()
  {
    || t >= |fn.blocks| || fn.blocks[t].test.None?
    || DenySuccessor(fn.blocks[t].test.value, ok).None?
    || (exists b ::
          InRegion(fn, DenyBlock(fn, t, ok), b) && AllowedPath(fn, DenyBlock(fn, t, ok), AllowBlock(fn, t, ok), b))
    || (exists r: seq<nat> :: RegionList(fn, DenyBlock(fn, t, ok), r) && !denial(r))
    || (exists s :: WorkAt(fn, c, s) &&
          (InRegion(fn, DenyBlock(fn, t, ok), s.block) || (s.block in blocks && s != guard && !After(dom, guard, s))))
  }

  /** Test `t` is the k-th block, and those before are passed over. */
  ghost predicate FirstTaken(fn: Fn, c: Classes, dom: set<(nat, nat)>, blocks: seq<nat>, denial: seq<nat> -> bool,
                             guard: Site, ok: ValueId, t: nat, k: int)
    requires fn.Valid()
  {
    && 0 <= k < |blocks| && blocks[k] == t
    && forall j :: 0 <= j < k ==> Rejected(fn, c, dom, blocks, denial, guard, ok, blocks[j])
  }

  ghost predicate RegionList(fn: Fn, start: nat, r: seq<nat>) {
    Distinct(r) && forall b: nat :: b in r <==> InRegion(fn, start, b)
  }

  // ---- What enforcement means for every run ----

  lemma TakenIsRaw(fn: Fn, m: string, p: seq<nat>)
    requires fn.Valid() && Path(fn.Taken(m), p)
    ensures Path(Raw(fn), p)
  {
    forall i | 0 <= i < |p| - 1 ensures p[i + 1] in Raw(fn)(p[i]) {
      assert p[i + 1] in fn.Taken(m)(p[i]);
    }
  }

  /** On a run for method `m`, the guard call was executed before position `k`, instruction `i`. */
  ghost predicate GuardedBefore(p: seq<nat>, guard: Site, k: nat, i: nat) {
    exists j :: 0 <= j < |p| && p[j] == guard.block && (j < k || (j == k && guard.index < i))
  }

  lemma PrefixRuns(fn: Fn, m: string, p: seq<nat>, k: nat)
    requires fn.Valid() && fn.Run(m, p) && k < |p|
    ensures fn.RunTo(m, p[..k + 1], p[k]) && fn.Executes(m, p[k])
  {
    var q := p[..k + 1];
    forall j | 0 <= j < |q| - 1 ensures q[j + 1] in fn.Taken(m)(q[j]) {
      assert p[j + 1] in fn.Taken(m)(p[j]);
    }
    assert fn.RunTo(m, q, p[k]);
  }

  /** Every call that can reach a sink comes after the guard call, on every run for the method. */
  lemma WorkComesAfterGuard(fn: Fn, c: Classes, dom: set<(nat, nat)>, blocks: seq<nat>, denial: seq<nat> -> bool,
                            guard: Site, ok: ValueId, t: nat, region: seq<nat>, m: string, p: seq<nat>, k: nat, i: nat)
    requires fn.Valid() && DominatorsOf(fn, dom) && (forall b: nat :: fn.Executes(m, b) ==> b in blocks)
    requires Enforces(fn, c, dom, blocks, denial, guard, ok, t, region)
    requires fn.Run(m, p) && k < |p| && WorkAt(fn, c, Site(p[k], i)) && Site(p[k], i) != guard
    ensures GuardedBefore(p, guard, k, i)
  {
    var q := p[..k + 1];
    PrefixRuns(fn, m, p, k);
    assert After(dom, guard, Site(p[k], i));
    if p[k] != guard.block {
      TakenIsRaw(fn, m, q);
      assert RawRun(fn, q) && guard.block in q;
      var j :| 0 <= j < |q| && q[j] == guard.block;
      assert p[j] == guard.block && j < k;
    }
  }

  /** Once the failing branch is taken, no call that can reach a sink is executed any more. */
  lemma NoWorkAfterDenial(fn: Fn, c: Classes, dom: set<(nat, nat)>, blocks: seq<nat>, denial: seq<nat> -> bool,
                          guard: Site, ok: ValueId, t: nat, region: seq<nat>, m: string, p: seq<nat>, j: nat,
                          k: nat, i: nat)
    requires fn.Valid() && Enforces(fn, c, dom, blocks, denial, guard, ok, t, region)
    requires fn.Run(m, p) && j + 1 < |p| && p[j] == t && p[j + 1] == DenyBlock(fn, t, ok)
    requires j + 1 <= k < |p|
    ensures !WorkAt(fn, c, Site(p[k], i))
  {
    TakenIsRaw(fn, m, p);
    var q := p[j + 1..k + 1];
    assert PathFrom(Raw(fn), {}, q, DenyBlock(fn, t, ok), p[k]) by {
      forall n | 0 <= n < |q| - 1 ensures q[n + 1] in Raw(fn)(q[n]) {
        assert q[n + 1] == p[j + 1 + n + 1] && q[n] == p[j + 1 + n];
      }
    }
    assert p[k] in region;
  }

  /** All calls that can reach a sink come after the guard, and none after block `t` tests its result and it fails. */
  ghost predicate GuardsEveryRun(fn: Fn, c: Classes, guard: Site, ok: ValueId, m: string, t: nat)
    requires fn.Valid()
  {
    && (forall p, k: nat, i :: fn.Run(m, p) && k < |p| && WorkAt(fn, c, Site(p[k], i)) && Site(p[k], i) != guard
          ==> GuardedBefore(p, guard, k, i))
    && TestsGuard(fn, ok, t) && DeniesAllWork(fn, c, ok, m, t)
  }

  ghost predicate TestsGuard(fn: Fn, ok: ValueId, t: nat)
    requires fn.Valid()
  {
    t < |fn.blocks| && fn.blocks[t].test.Some? && DenySuccessor(fn.blocks[t].test.value, ok).Some?
  }

  ghost predicate DeniesAllWork(fn: Fn, c: Classes, ok: ValueId, m: string, t: nat)
    requires fn.Valid() && TestsGuard(fn, ok, t)
  {
    forall p, j, k: nat, i :: fn.Run(m, p) && 0 <= j < k < |p| && p[j] == t && p[j + 1] == DenyBlock(fn, t, ok)
      ==> !WorkAt(fn, c, Site(p[k], i))
  }

  /** The blocks that run for the method, in order. */
  ghost predicate RunningBlocks(fn: Fn, scope: Option<Scope>, m: string, blocks: seq<nat>)
    requires fn.Valid()
  {
    Increasing(blocks) && forall b: nat :: b in blocks <==> RunsUnder(fn, scope, m, b)
  }

  /**
   * The guard case of `required`: the first test of the guard's result, among the blocks that run for the method, that
   * is not passed over. When there is none, every block is.
   */
  method GuardRequired(fn: Fn, c: Classes, dom: set<(nat, nat)>, denial: seq<nat> -> bool, checked: nat -> string,
                       own: string, guard: Site, okVal: Option<ValueId>, scope: Option<Scope>, m: string)
    returns (enforced: bool, role: string, test: nat, ghost blocks: seq<nat>, ghost region: seq<nat>)
    requires fn.Valid() && DominatorsOf(fn, dom)
    requires scope.Some? ==> ScopeOf(fn, scope.value) && OTHER_METHOD !in scope.value.compared
    requires scope.None? ==> forall verb :: !Compares(fn, verb)
    ensures RunningBlocks(fn, scope, m, blocks)
    ensures okVal.None? ==> !enforced
    ensures enforced ==> Enforces(fn, c, dom, blocks, denial, guard, okVal.value, test, region)
    ensures enforced ==> RunsUnder(fn, scope, m, test) && GuardsEveryRun(fn, c, guard, okVal.value, m, test)
    ensures enforced ==> Strongest(fn, blocks, DenyBlock(fn, test, okVal.value), own, checked, role)
    ensures okVal.Some? ==> forall t: nat :: RunsUnder(fn, scope, m, t) && (enforced ==> t < test) ==>
            Rejected(fn, c, dom, blocks, denial, guard, okVal.value, t)
  {
    var running := BlocksFor(fn, scope, m);
    var accepted, strongest, t, r := GuardEnforced(fn, c, dom, running, denial, checked, own, guard, okVal);
    enforced, role, test, blocks, region := accepted, strongest, t, running, r;
    if enforced {
      EnforcedGuards(fn, c, dom, blocks, denial, guard, okVal.value, t, region, m);
      ghost var k :| FirstTaken(fn, c, dom, blocks, denial, guard, okVal.value, test, k);
      forall u: nat | RunsUnder(fn, scope, m, u) && u < test
        ensures Rejected(fn, c, dom, blocks, denial, guard, okVal.value, u)
      {
        ghost var j :| 0 <= j < |blocks| && blocks[j] == u;
      }
    }
  }

  lemma EnforcedGuards(fn: Fn, c: Classes, dom: set<(nat, nat)>, blocks: seq<nat>, denial: seq<nat> -> bool,
                       guard: Site, ok: ValueId, t: nat, region: seq<nat>, m: string)
    requires fn.Valid() && DominatorsOf(fn, dom) && (forall b: nat :: fn.Executes(m, b) ==> b in blocks)
    requires Enforces(fn, c, dom, blocks, denial, guard, ok, t, region)
    ensures GuardsEveryRun(fn, c, guard, ok, m, t)
  {
    forall p, k: nat, i | fn.Run(m, p) && k < |p| && WorkAt(fn, c, Site(p[k], i)) && Site(p[k], i) != guard
      ensures GuardedBefore(p, guard, k, i)
    {
      WorkComesAfterGuard(fn, c, dom, blocks, denial, guard, ok, t, region, m, p, k, i);
    }
    assert TestsGuard(fn, ok, t);
    forall p, j, k: nat, i | fn.Run(m, p) && 0 <= j < k < |p| && p[j] == t && p[j + 1] == DenyBlock(fn, t, ok)
      ensures !WorkAt(fn, c, Site(p[k], i))
    {
      NoWorkAfterDenial(fn, c, dom, blocks, denial, guard, ok, t, region, m, p, j, k, i);
    }
  }
}
