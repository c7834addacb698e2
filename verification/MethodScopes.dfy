/** Control flow graphs, and the request methods their blocks run under (internal/analysis/methods.go). */
module MethodScopes {
  import opened Ordering
  import opened Reachability
  import opened CodeGraph
  import opened Wrappers
  import Text
  import Flow

  type ValueId = nat
  type FuncId = nat

  /** The conditions the analyses look at; `NilTest` compares a value with nil. */
  datatype Cond =
    | MethodTest(verb: string, equal: bool)
    | Not(v: ValueId)
    | NilTest(v: ValueId, equal: bool)
    | Plain(v: ValueId)
    | OtherCond

  /** A call and the functions it may invoke; `ordinary` tells `*ssa.Call` from go and defer. */
  datatype Instr = Call(callees: seq<FuncId>, ordinary: bool) | OtherInstr

  /** A basic block; `test` is the condition of the if it ends in, whose true branch is `succs[0]`. */
  datatype Block = Block(instrs: seq<Instr>, test: Option<Cond>, succs: seq<nat>)

  /** A function; `recover` is where execution resumes after a recovered panic. */
  datatype Fn = Fn(blocks: seq<Block>, recover: Option<nat>) {

    ghost predicate Valid() {
      && (forall i, s :: 0 <= i < |blocks| && s in blocks[i].succs ==> s < |blocks|)
      && (forall i :: 0 <= i < |blocks| && blocks[i].test.Some? ==> |blocks[i].succs| == 2)
      && (recover.Some? ==> recover.value < |blocks|)
    }

    /** Where executions start. */
    ghost predicate Root(b: nat) { b < |blocks| && (b == 0 || recover == Some(b)) }

    /** The successors block `b` can continue with for request method `m`. */
    function Taken(m: string): Succ
      requires Valid()
    {
      (b: nat) =>
        if b >= |blocks| then []
        else match blocks[b].test
          case Some(MethodTest(verb, equal)) => [blocks[b].succs[if (m == verb) == equal then 0 else 1]]
          case _ => blocks[b].succs
    }

    /** An execution for request method `m`: every test of the method goes the way `m` decides. */
    ghost predicate Run(m: string, p: seq<nat>)
      requires Valid()
    {
      Path(Taken(m), p) && Root(p[0])
    }

    ghost predicate RunTo(m: string, p: seq<nat>, b: nat)
      requires Valid()
    {
      Run(m, p) && p[|p| - 1] == b
    }

    /** Some execution for `m` visits block `b`. */
    ghost predicate Executes(m: string, b: nat)
      requires Valid()
    {
      exists p :: RunTo(m, p, b)
    }

    ghost function Indexes(): set<nat> { UpTo(|blocks|) }
  }

  ghost function UpTo(n: nat): (s: set<nat>)
    ensures forall b: nat :: b in s <==> b < n
  {
    if n == 0 then {} else UpTo(n - 1) + {n - 1}
  }

  lemma TakenInRange(fn: Fn, m: string)
    requires fn.Valid()
    ensures forall x, y :: x in fn.Indexes() && y in fn.Taken(m)(x) ==> y in fn.Indexes()
  {
    forall x, y | x in fn.Indexes() && y in fn.Taken(m)(x) ensures y in fn.Indexes() {
      assert y in fn.blocks[x].succs;
    }
  }

  lemma {:induction false} SamePaths(s: Succ, t: Succ, stop: set<nat>, p: seq<nat>, a: nat, b: nat)
    requires forall x :: s(x) == t(x)
    ensures PathFrom(s, stop, p, a, b) <==> PathFrom(t, stop, p, a, b)
  {
    if |p| > 0 {
      forall i | 0 <= i < |p| - 1 ensures p[i + 1] in s(p[i]) <==> p[i + 1] in t(p[i]) {}
    }
  }

  lemma SameReaches(s: Succ, t: Succ, stop: set<nat>, a: nat, b: nat)
    requires forall x :: s(x) == t(x)
    ensures Reaches(s, stop, a, b) <==> Reaches(t, stop, a, b)
  {
    if p :| PathFrom(s, stop, p, a, b) { SamePaths(s, t, stop, p, a, b); }
    if p :| PathFrom(t, stop, p, a, b) { SamePaths(s, t, stop, p, a, b); }
  }

  lemma ExecutesReaches(fn: Fn, m: string, b: nat)
    requires fn.Valid()
    ensures fn.Executes(m, b) <==> exists r :: fn.Root(r) && Reaches(fn.Taken(m), {}, r, b)
  {
    if fn.Executes(m, b) {
      var p :| fn.RunTo(m, p, b);
      assert PathFrom(fn.Taken(m), {}, p, p[0], b);
    }
    if r :| fn.Root(r) && Reaches(fn.Taken(m), {}, r, b) {
      var p :| PathFrom(fn.Taken(m), {}, p, r, b);
      assert fn.RunTo(m, p, b);
    }
  }

  // ---- reachableBlocks ----

  datatype MethodCond = MethodCond(block: nat, verb: string, equal: bool)

  ghost predicate TestsMethod(fn: Fn, b: nat) {
    b < |fn.blocks| && fn.blocks[b].test.Some? && fn.blocks[b].test.value.MethodTest?
  }

  /** `conds` are the method tests of `fn`. */
  ghost predicate ConditionsOf(fn: Fn, conds: seq<MethodCond>) {
    forall c :: c in conds <==> c.block < |fn.blocks| && fn.blocks[c.block].test == Some(MethodTest(c.verb, c.equal))
  }

  lemma ComparesListed(fn: Fn, conds: seq<MethodCond>, verb: string)
    requires ConditionsOf(fn, conds)
    ensures Compares(fn, verb) <==> exists c :: c in conds && c.verb == verb
  {
    if Compares(fn, verb) {
      var b: nat, equal :| 0 <= b < |fn.blocks| && fn.blocks[b].test == Some(MethodTest(verb, equal));
      assert MethodCond(b, verb, equal) in conds;
    }
  }

  /** `methodConditions`: the ifs that compare the request method. */
  method MethodConditions(fn: Fn) returns (conds: seq<MethodCond>)
    ensures ConditionsOf(fn, conds)
  {
    conds := [];
    for i := 0 to |fn.blocks|
      invariant forall c :: c in conds <==> c.block < i && fn.blocks[c.block].test == Some(MethodTest(c.verb, c.equal))
    {
      match fn.blocks[i].test {
        case Some(MethodTest(verb, equal)) => conds := conds + [MethodCond(i, verb, equal)];
        case _ =>
      }
    }
  }

  /** `reachableBlocks`: exactly the blocks some execution for `m` visits, each once. */
  method ReachableBlocks(fn: Fn, conds: seq<MethodCond>, m: string) returns (order: seq<nat>)
    requires fn.Valid()
    requires ConditionsOf(fn, conds)
    ensures forall b: nat :: b in order <==> fn.Executes(m, b)
    ensures Distinct(order)
  {
    var decided: map<nat, nat> := map[]; // successor index taken
    for i := 0 to |conds|
      invariant forall j :: 0 <= j < i ==> conds[j].block in decided
      invariant forall b: nat :: b in decided ==> DecidedRight(fn, m, b, decided[b])
    {
      var c := conds[i];
      assert c in conds;
      var match_ := c.verb == m;
      decided := decided[c.block := if match_ == c.equal then 0 else 1];
    }
    forall b: nat | TestsMethod(fn, b) ensures b in decided {
      var test := fn.blocks[b].test.value;
      assert MethodCond(b, test.verb, test.equal) in conds;
      var j :| 0 <= j < |conds| && conds[j] == MethodCond(b, test.verb, test.equal);
    }
    var succ: Succ := (b: nat) =>
      if b >= |fn.blocks| then []
      else if b in decided && decided[b] < |fn.blocks[b].succs| then [fn.blocks[b].succs[decided[b]]]
      else fn.blocks[b].succs;
    assert forall b :: succ(b) == fn.Taken(m)(b);
    order := MarkFromRoots(fn, m, succ);
  }

  ghost predicate DecidedRight(fn: Fn, m: string, b: nat, i: nat) {
    && TestsMethod(fn, b)
    && i == if (m == fn.blocks[b].test.value.verb) == fn.blocks[b].test.value.equal then 0 else 1
  }

  /** The visits from the entry and the recover block. */
  method MarkFromRoots(fn: Fn, m: string, succ: Succ) returns (order: seq<nat>)
    requires fn.Valid() && forall b :: succ(b) == fn.Taken(m)(b)
    ensures forall b: nat :: b in order <==> fn.Executes(m, b)
    ensures Distinct(order)
  {
    var marker := new Marker(succ, {});
    TakenInRange(fn, m);
    ghost var entered: set<nat> := {};
    if |fn.blocks| > 0 {
      marker.Visit(0, fn.Indexes());
      entered := marker.seen;
    }
    if fn.recover.Some? {
      marker.Visit(fn.recover.value, fn.Indexes());
      ClosedTrans(succ, {}, {}, entered, marker.seen);
    }
    order := marker.order;
    forall b: nat ensures b in order <==> fn.Executes(m, b) {
      ExecutesReaches(fn, m, b);
      forall r | fn.Root(r) ensures Reaches(succ, {}, r, b) <==> Reaches(fn.Taken(m), {}, r, b) {
        SameReaches(succ, fn.Taken(m), {}, r, b);
      }
      if b in marker.seen {
        assert b in entered ==> Reaches(succ, {}, 0, b);
      }
      if r :| fn.Root(r) && Reaches(succ, {}, r, b) {
        var p :| PathFrom(succ, {}, p, r, b);
        ClosedContains(succ, {}, marker.seen, p, |p| - 1);
      }
    }
  }

  // ---- methodScopes ----

  const OTHER_METHOD := "*"

  datatype Scope = Scope(compared: seq<string>, reachable: map<nat, seq<string>>) {

    function At(b: nat): seq<string> { if b in reachable then reachable[b] else [] }

    /** `methods`: the methods a block is limited to, empty when it runs for every method. */
    function Methods(b: nat): seq<string> { if |At(b)| == |compared| + 1 then [] else At(b) }
  }

  /** The methods among `ms` under which block `b` executes. */
  ghost function VerbsAt(fn: Fn, ms: seq<string>, b: nat): seq<string>
    requires fn.Valid()
  {
    if ms == [] then []
    else
      var rest := VerbsAt(fn, ms[..|ms| - 1], b);
      if fn.Executes(ms[|ms| - 1], b) then rest + [ms[|ms| - 1]] else rest
  }

  ghost predicate Compares(fn: Fn, verb: string) {
    exists b: nat, equal :: b < |fn.blocks| && fn.blocks[b].test == Some(MethodTest(verb, equal))
  }

  /** What a scope says about its function. */
  ghost predicate ScopeOf(fn: Fn, scope: Scope)
    requires fn.Valid()
  {
    && scope.compared != [] && Distinct(scope.compared)
    && (forall verb :: verb in scope.compared <==> Compares(fn, verb))
    && (forall b: nat :: scope.At(b) == VerbsAt(fn, scope.compared + [OTHER_METHOD], b))
  }

  /** `methodScopes` for one function: none when it does not branch on the method. */
  method MethodScope(fn: Fn) returns (scope: Option<Scope>)
    requires fn.Valid()
    ensures scope.None? <==> forall verb :: !Compares(fn, verb)
    ensures scope.Some? ==> ScopeOf(fn, scope.value)
  {
    var conds := MethodConditions(fn);
    if |conds| == 0 {
      forall verb ensures !Compares(fn, verb) { ComparesListed(fn, conds, verb); }
      return None;
    }
    var compared := ComparedVerbs(fn, conds);
    var ms := compared + [OTHER_METHOD];
    var reachable: map<nat, seq<string>> := map[];
    for i := 0 to |ms|
      invariant forall b: nat :: Scope(compared, reachable).At(b) == VerbsAt(fn, ms[..i], b)
    {
      var blocks := ReachableBlocks(fn, conds, ms[i]);
      ghost var before := reachable;
      for j := 0 to |blocks|
        invariant forall b: nat ::
          Scope(compared, reachable).At(b) == AtAfter(Scope(compared, before), blocks[..j], ms[i], b)
      {
        var b := blocks[j];
        AtNext(Scope(compared, before), Scope(compared, reachable), blocks, j, ms[i]);
        reachable := reachable[b := Scope(compared, reachable).At(b) + [ms[i]]];
        assert forall x: nat ::
          Scope(compared, reachable).At(x) == AtAfter(Scope(compared, before), blocks[..j + 1], ms[i], x);
      }
      assert blocks[..|blocks|] == blocks;
      assert ms[..i + 1][..i] == ms[..i];
    }
    assert ms[..|ms|] == ms;
    assert Compares(fn, compared[0]);
    return Some(Scope(compared, reachable));
  }

  ghost function AtAfter(before: Scope, blocks: seq<nat>, m: string, b: nat): seq<string> {
    if b in blocks then before.At(b) + [m] else before.At(b)
  }

  lemma AtNext(before: Scope, now: Scope, blocks: seq<nat>, j: nat, m: string)
    requires j < |blocks| && Distinct(blocks)
    requires forall b: nat :: now.At(b) == AtAfter(before, blocks[..j], m, b)
    ensures var now' := Scope(now.compared, now.reachable[blocks[j] := now.At(blocks[j]) + [m]]);
      forall b: nat :: now'.At(b) == AtAfter(before, blocks[..j + 1], m, b)
  {
    var now' := Scope(now.compared, now.reachable[blocks[j] := now.At(blocks[j]) + [m]]);
    assert blocks[..j + 1] == blocks[..j] + [blocks[j]];
    assert blocks[j] !in blocks[..j];
    forall b: nat ensures now'.At(b) == AtAfter(before, blocks[..j + 1], m, b) {
      assert now.At(b) == AtAfter(before, blocks[..j], m, b);
      assert b in blocks[..j + 1] <==> b in blocks[..j] || b == blocks[j];
    }
  }

  method ComparedVerbs(fn: Fn, conds: seq<MethodCond>) returns (compared: seq<string>)
    requires conds != []
    requires ConditionsOf(fn, conds)
    ensures compared != [] && Distinct(compared) && forall verb :: verb in compared <==> Compares(fn, verb)
  {
    compared := [];
    for i := 0 to |conds|
      invariant Distinct(compared) && (i > 0 ==> compared != [])
      invariant forall j :: 0 <= j < i ==> conds[j].verb in compared
      invariant forall verb :: verb in compared ==> Compares(fn, verb)
    {
      var c := conds[i];
      assert c in conds;
      if c.verb !in compared {
        compared := compared + [c.verb];
      }
    }
    forall verb | Compares(fn, verb) ensures verb in compared { ComparesListed(fn, conds, verb); }
  }

  // ---- The attributes that carry scopes into the graph ----

  lemma {:induction false} VerbsAtMembers(fn: Fn, ms: seq<string>, b: nat, m: string)
    requires fn.Valid()
    ensures m in VerbsAt(fn, ms, b) <==> m in ms && fn.Executes(m, b)
    ensures |VerbsAt(fn, ms, b)| <= |ms|
    ensures |VerbsAt(fn, ms, b)| == |ms| && m in ms ==> fn.Executes(m, b)
  {
    if ms != [] {
      VerbsAtMembers(fn, ms[..|ms| - 1], b, m);
      assert ms == ms[..|ms| - 1] + [ms[|ms| - 1]];
    }
  }

  /** A method the function does not compare takes the same branches as any other such method. */
  lemma UncomparedAlike(fn: Fn, m: string, n: string, b: nat)
    requires fn.Valid() && !Compares(fn, m) && !Compares(fn, n)
    ensures fn.Executes(m, b) <==> fn.Executes(n, b)
  {
    forall x: nat ensures fn.Taken(m)(x) == fn.Taken(n)(x) {
      if TestsMethod(fn, x) {
        assert Compares(fn, fn.blocks[x].test.value.verb);
      }
    }
    ExecutesReaches(fn, m, b);
    ExecutesReaches(fn, n, b);
    forall r ensures Reaches(fn.Taken(m), {}, r, b) <==> Reaches(fn.Taken(n), {}, r, b) {
      SameReaches(fn.Taken(m), fn.Taken(n), {}, r, b);
    }
  }

  /** `methodAttrs`, and the "methodBranches" attribute of the calling function's node. */
  function MethodAttrs(methods: seq<string>): Attrs {
    if |methods| == 0 then map[] else map["methods" := Text.Join(methods, ',')]
  }

  ghost predicate PlainVerbs(verbs: seq<string>) {
    forall i :: 0 <= i < |verbs| ==> verbs[i] != "" && verbs[i] != OTHER_METHOD && ',' !in verbs[i]
  }

  lemma {:induction false} VerbsAtPlain(fn: Fn, ms: seq<string>, b: nat)
    requires fn.Valid() && forall i :: 0 <= i < |ms| ==> ms[i] != "" && ',' !in ms[i]
    ensures forall i :: 0 <= i < |VerbsAt(fn, ms, b)| ==> VerbsAt(fn, ms, b)[i] != "" && ',' !in VerbsAt(fn, ms, b)[i]
  {
    if ms != [] { VerbsAtPlain(fn, ms[..|ms| - 1], b); }
  }

  lemma JoinNotEmpty(parts: seq<string>)
    requires parts != [] && parts[0] != ""
    ensures Text.Join(parts, ',') != ""
  {
  }

  /** What `reachable` takes for running: every block when the method is not known or never branched on. */
  ghost predicate RunsUnder(fn: Fn, scope: Option<Scope>, m: string, b: nat)
    requires fn.Valid()
  {
    b < |fn.blocks| && (scope.None? || m == "" || m == "ANY" || fn.Executes(m, b))
  }

  /**
   * Writing a scope as comma-joined attributes and reading it back in flow extraction gives the same answer: the flow
   * keeps a call exactly when some execution for its method reaches it, and every call when the method is not known.
   */
  lemma AttributesRoundTrip(fn: Fn, scope: Scope, b: nat, m: string, caller: Node, e: Edge)
    requires fn.Valid() && ScopeOf(fn, scope) && PlainVerbs(scope.compared)
    requires scope.At(b) != [] // reachable under some method
    requires Attr(caller.attrs, "methodBranches") == Text.Join(scope.compared, ',')
    requires Attr(e.attrs, "methods") == Attr(MethodAttrs(scope.Methods(b)), "methods")
    ensures Flow.RunsFor(m, caller, e) <==> RunsUnder(fn, Some(scope), m, b)
  {
    var all := scope.compared + [OTHER_METHOD];
    var ms := scope.At(b);
    VerbsAtMembers(fn, all, b, ms[0]);
    assert ms[0] in ms;
    ExecutesInRange(fn, ms[0], b);
    forall i | 0 <= i < |all| ensures all[i] != "" && ',' !in all[i] {}
    VerbsAtPlain(fn, all, b);
    VerbsAtMembers(fn, all, b, m);
    VerbsAtMembers(fn, all, b, OTHER_METHOD);
    if m !in scope.compared {
      assert OTHER_METHOD !in scope.compared;
      UncomparedAlike(fn, m, OTHER_METHOD, b);
    }
    Text.SplitJoin(scope.compared, ',');
    if |ms| != |all| {
      Text.SplitJoin(ms, ',');
      JoinNotEmpty(ms);
    }
  }

  ghost predicate Increasing(s: seq<nat>) { forall i, j :: 0 <= i < j < |s| ==> s[i] < s[j] }

  lemma IncreasingPush(s: seq<nat>, x: nat)
    requires Increasing(s) && forall y :: y in s ==> y < x
    ensures Increasing(s + [x])
  {
    forall i | 0 <= i < |s| ensures s[i] < x { assert s[i] in s; }
  }

  /** `reachable`: the blocks of a function that run for request method `m`. */
  method BlocksFor(fn: Fn, scope: Option<Scope>, m: string) returns (blocks: seq<nat>)
    requires fn.Valid() && (scope.Some? ==> ScopeOf(fn, scope.value) && OTHER_METHOD !in scope.value.compared)
    requires scope.None? ==> forall verb :: !Compares(fn, verb)
    ensures forall b: nat :: b in blocks <==> RunsUnder(fn, scope, m, b)
    ensures forall b: nat :: fn.Executes(m, b) ==> b in blocks
    ensures Increasing(blocks)
  {
    if scope.None? || m == "" || m == "ANY" {
      blocks := seq(|fn.blocks|, i => i);
      forall b: nat | b < |fn.blocks| ensures b in blocks { assert blocks[b] == b; }
      forall b: nat | fn.Executes(m, b) ensures b < |fn.blocks| { ExecutesInRange(fn, m, b); }
      return;
    }
    var s := scope.value;
    var key := if m in s.compared then m else OTHER_METHOD;
    blocks := [];
    for i := 0 to |fn.blocks|
      invariant forall b: nat :: b in blocks <==> b < i && key in s.At(b)
      invariant Increasing(blocks)
    {
      IncreasingPush(blocks, i);
      if key in s.At(i) { blocks := blocks + [i]; }
    }
    forall b: nat ensures key in s.At(b) <==> fn.Executes(m, b) {
      VerbsAtMembers(fn, s.compared + [OTHER_METHOD], b, key);
      if m !in s.compared {
        assert OTHER_METHOD !in s.compared;
        UncomparedAlike(fn, m, OTHER_METHOD, b);
      }
    }
    forall b: nat | fn.Executes(m, b) ensures b < |fn.blocks| { ExecutesInRange(fn, m, b); }
  }

  lemma ExecutesInRange(fn: Fn, m: string, b: nat)
    requires fn.Valid() && fn.Executes(m, b)
    ensures b < |fn.blocks|
  {
    var p :| fn.RunTo(m, p, b);
    TakenInRange(fn, m);
    ClosedContains(fn.Taken(m), {}, fn.Indexes(), p, |p| - 1);
  }
}
