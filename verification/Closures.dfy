/** Fixpoint computations over the call graph: each yields the least closed set, whatever the visiting order. */
module Closures {
  import opened Ordering
  import opened MethodScopes
  import opened Roles

  function Elements(s: seq<FuncId>): (r: set<FuncId>)
    ensures forall x :: x in r <==> x in s
  {
    set x | x in s
  }

  // ---- findGuards (internal/analysis/auth.go) ----

  /** What guard detection sees of the module's functions. */
  datatype GuardFacts = GuardFacts(
    own: seq<FuncId>,
    seeds: map<FuncId, string>,   // authentication primitives and configured guards, with their role
    candidates: set<FuncId>,      // take a request and return a bool or error
    callees: FuncId -> seq<FuncId>,
    raise: (FuncId, string) -> string) // roleOf
  {
    /** Roles are never empty, and raising one does not lose it. */
    ghost predicate Valid() {
      && seeds.Keys <= Elements(own) && "" !in seeds.Values
      && forall f, r :: r != "" ==> raise(f, r) != ""
    }

    /** Contains the seeds and every candidate that calls a member. */
    ghost predicate Closed(s: set<FuncId>) {
      seeds.Keys <= s && forall f :: f in own && f in candidates && CallsInto(f, s) ==> f in s
    }

    predicate CallsInto(f: FuncId, s: set<FuncId>) {
      exists g :: g in callees(f) && g in s
    }
  }

  /** The least closed set does not depend on the order functions are visited in, nor on how roles are raised. */
  lemma LeastGuardsAreUnique(facts: GuardFacts, facts': GuardFacts, s: set<FuncId>, t: set<FuncId>)
    requires Elements(facts.own) == Elements(facts'.own) && facts.seeds.Keys == facts'.seeds.Keys
    requires facts.candidates == facts'.candidates && facts.callees == facts'.callees
    requires facts.Closed(s) && forall u :: facts.Closed(u) ==> s <= u
    requires facts'.Closed(t) && forall u :: facts'.Closed(u) ==> t <= u
    ensures s == t
  {
    assert forall f :: f in facts.own <==> f in Elements(facts.own);
    assert forall f :: f in facts'.own <==> f in Elements(facts'.own);
    assert facts.Closed(t) && facts'.Closed(s);
  }

  /** The strongest role among the guards `f` calls, or "". */
  method CalledRole(facts: GuardFacts, guards: map<FuncId, string>, f: FuncId) returns (role: string)
    requires "" !in guards.Values
    ensures role != "" <==> facts.CallsInto(f, guards.Keys)
    ensures role != "" ==> exists g :: g in facts.callees(f) && g in guards && guards[g] == role
    ensures forall g :: g in facts.callees(f) && g in guards ==> Rank(guards[g]) <= Rank(role)
  {
    role := "";
    var callees := facts.callees(f);
    for i := 0 to |callees|
      invariant role != "" <==> exists g :: g in callees[..i] && g in guards
      invariant role != "" ==> exists g :: g in callees[..i] && g in guards && guards[g] == role
      invariant forall g :: g in callees[..i] && g in guards ==> Rank(guards[g]) <= Rank(role)
    {
      NextPrefix(callees, i);
      var g := callees[i];
      if g in guards {
        assert guards[g] in guards.Values;
        if Rank(guards[g]) >= Rank(role) { role := guards[g]; }
      }
    }
    WholePrefix(callees);
  }

  /** `findGuards`: its domain is the least closed set. */
  method FindGuards(facts: GuardFacts) returns (guards: map<FuncId, string>)
    requires facts.Valid()
    ensures facts.Closed(guards.Keys)
    ensures forall s :: facts.Closed(s) ==> guards.Keys <= s
  {
    guards := facts.seeds;
    var changed := true;
    while changed
      invariant "" !in guards.Values && facts.seeds.Keys <= guards.Keys <= Elements(facts.own)
      invariant forall s :: facts.Closed(s) ==> guards.Keys <= s
      invariant !changed ==> facts.Closed(guards.Keys)
      decreases Elements(facts.own) - guards.Keys, changed
    {
      changed := false;
      ghost var before := guards.Keys;
      for i := 0 to |facts.own|
        invariant "" !in guards.Values && before <= guards.Keys <= Elements(facts.own)
        invariant forall s :: facts.Closed(s) ==> guards.Keys <= s
        invariant changed <==> before < guards.Keys
        invariant !changed ==>
          forall f :: f in facts.own[..i] && f in facts.candidates && facts.CallsInto(f, before) ==> f in before
      {
        NextPrefix(facts.own, i);
        var f := facts.own[i];
        if f in guards || f !in facts.candidates { continue; }
        var role := CalledRole(facts, guards, f);
        if role != "" {
          forall s | facts.Closed(s) ensures f in s {
            var g :| g in facts.callees(f) && g in guards;
            assert facts.CallsInto(f, s);
          }
          AddRole(guards, f, facts.raise(f, role));
          guards := guards[f := facts.raise(f, role)];
          changed := true;
        }
      }
      WholePrefix(facts.own);
    }
  }

  lemma AddRole(guards: map<FuncId, string>, f: FuncId, role: string)
    requires "" !in guards.Values && role != "" && f !in guards
    ensures "" !in guards[f := role].Values && guards[f := role].Keys == guards.Keys + {f}
    ensures guards.Keys < guards[f := role].Keys
  {
    var next := guards[f := role];
    forall v | v in next.Values ensures v != "" {
      var k :| k in next && next[k] == v;
      assert k != f ==> guards[k] in guards.Values;
    }
    assert f in next.Keys && f !in guards.Keys;
  }

  // ---- redirectingFuncs (internal/analysis/navigation.go) ----

  /** A static call: the callee, and whether the call itself issues a redirect. */
  datatype StaticCall = StaticCall(callee: FuncId, redirects: bool)

  datatype RedirectFacts = RedirectFacts(own: seq<FuncId>, calls: FuncId -> seq<StaticCall>) {

    predicate Redirects(f: FuncId, s: set<FuncId>) {
      exists c :: c in calls(f) && (c.redirects || c.callee in s)
    }

    /** Contains every function that redirects itself or calls a member. */
    ghost predicate Closed(s: set<FuncId>) {
      forall f :: f in own && Redirects(f, s) ==> f in s
    }
  }

  /** `redirectingFuncs`. */
  method RedirectingFuncs(facts: RedirectFacts) returns (out: set<FuncId>)
    ensures facts.Closed(out)
    ensures forall s :: facts.Closed(s) ==> out <= s
  {
    out := {};
    var changed := true;
    while changed
      invariant out <= Elements(facts.own)
      invariant forall s :: facts.Closed(s) ==> out <= s
      invariant !changed ==> facts.Closed(out)
      decreases Elements(facts.own) - out, changed
    {
      changed := false;
      ghost var before := out;
      for i := 0 to |facts.own|
        invariant before <= out <= Elements(facts.own)
        invariant forall s :: facts.Closed(s) ==> out <= s
        invariant changed <==> before < out
        invariant !changed ==> forall f :: f in facts.own[..i] && facts.Redirects(f, before) ==> f in before
      {
        NextPrefix(facts.own, i);
        var f := facts.own[i];
        if f in out { continue; }
        var calls := facts.calls(f);
        ghost var entry := out;
        for j := 0 to |calls|
          invariant out == entry || out == entry + {f}
          invariant f in out <==> exists c :: c in calls[..j] && (c.redirects || c.callee in out)
          invariant forall s :: facts.Closed(s) ==> out <= s
          invariant changed <==> before < out
        {
          NextPrefix(calls, j);
          var c := calls[j];
          if c.redirects || c.callee in out {
            forall s | facts.Closed(s) ensures f in s {
              assert facts.Redirects(f, s);
            }
            assert f in facts.own;
            out := out + {f};
            changed := true;
          }
        }
        WholePrefix(calls);
      }
      WholePrefix(facts.own);
    }
  }

  // ---- reachesSink (internal/analysis/auth.go) ----

  /** `sinks` are the functions that call a sink; `callers` the call graph's incoming edges. */
  datatype SinkFacts = SinkFacts(sinks: seq<FuncId>, callers: FuncId -> seq<FuncId>, all: set<FuncId>) {

    ghost predicate Valid() {
      (forall f :: f in sinks ==> f in all) && (forall f, g :: f in all && g in callers(f) ==> g in all)
    }

    ghost predicate Closed(s: set<FuncId>) {
      (forall f :: f in sinks ==> f in s) && (forall f, g :: f in s && g in callers(f) ==> g in s)
    }
  }

  /** `reachesSink`: breadth-first over callers. */
  method ReachesSink(facts: SinkFacts) returns (out: set<FuncId>)
    requires facts.Valid()
    ensures facts.Closed(out)
    ensures forall s :: facts.Closed(s) ==> out <= s
  {
    out := {};
    var queue: seq<FuncId> := [];
    for i := 0 to |facts.sinks|
      invariant forall j :: 0 <= j < i ==> facts.sinks[j] in out
      invariant forall f :: f in out ==> f in facts.sinks && f in queue
      invariant forall f :: f in queue ==> f in out
    {
      var f := facts.sinks[i];
      if f !in out {
        out := out + {f};
        queue := queue + [f];
      }
    }
    while |queue| > 0
      invariant out <= facts.all && (forall f :: f in queue ==> f in out) && forall f :: f in facts.sinks ==> f in out
      invariant forall f, g :: f in out && f !in queue && g in facts.callers(f) ==> g in out
      invariant forall s :: facts.Closed(s) ==> out <= s
      decreases facts.all - out, |queue|
    {
      var f := queue[0];
      ghost var (entry, before) := (out, queue);
      queue := queue[1..];
      assert forall x :: x in before <==> x == f || x in queue;
      var callers := facts.callers(f);
      ghost var rest := queue;
      for i := 0 to |callers|
        invariant entry <= out <= facts.all && (out == entry ==> queue == rest)
        invariant (forall x :: x in rest ==> x in queue) && (forall x :: x in queue ==> x in out)
        invariant forall x :: x in out && x !in entry ==> x in queue
        invariant forall j :: 0 <= j < i ==> callers[j] in out
        invariant forall s :: facts.Closed(s) ==> out <= s
      {
        NextPrefix(callers, i);
        var g := callers[i];
        if g !in out {
          out := out + {g};
          queue := queue + [g];
        }
      }
    }
  }

  /** Two least closed sets are the same: the result does not depend on the order functions are visited in. */
  lemma LeastIsUnique(facts: RedirectFacts, facts': RedirectFacts, s: set<FuncId>, t: set<FuncId>)
    requires Elements(facts.own) == Elements(facts'.own) && facts.calls == facts'.calls
    requires facts.Closed(s) && forall u :: facts.Closed(u) ==> s <= u
    requires facts'.Closed(t) && forall u :: facts'.Closed(u) ==> t <= u
    ensures s == t
  {
    assert forall f :: f in facts.own <==> f in Elements(facts.own);
    assert forall f :: f in facts'.own <==> f in Elements(facts'.own);
    assert facts.Closed(t) && facts'.Closed(s);
  }
}
