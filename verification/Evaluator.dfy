/** The string evaluator over SSA values (internal/analysis/values.go), on its core fragment. */
module Evaluator {
  import opened Ordering
  import opened Patterns

  const MAX_DEPTH := 12
  const MAX_VALUES := 32

  /** A call-graph edge into a function, as seen from one of its parameters. */
  datatype Incoming = NoSite | NoArgument | Argument(v: nat)

  /**
   * SSA values by what the evaluator does with them; a `LoadCell` reads a local variable in a heap cell, or a package
   * variable.
   */
  datatype Value =
    | ConstString(s: string)
    | Concat(x: nat, y: nat)
    | Conversion(x: nat)
    | Phi(edges: seq<nat>)
    | LoadCell(stores: seq<nat>)
    | Param(own: bool, ins: seq<Incoming>)
    | Opaque

  datatype Program = Program(values: seq<Value>) {

    /** References are in range, and a phi has an edge per predecessor; cycles are allowed. */
    ghost predicate Valid() {
      forall v :: 0 <= v < |values| ==>
        match values[v]
        case Concat(x, y) => x < |values| && y < |values|
        case Conversion(x) => x < |values|
        case Phi(edges) => edges != [] && AllIn(edges)
        case LoadCell(stores) => AllIn(stores)
        case Param(_, ins) => ArgumentsIn(ins)
        case _ => true
    }

    ghost predicate AllIn(vs: seq<nat>) { forall i :: 0 <= i < |vs| ==> vs[i] < |values| }

    ghost predicate ArgumentsIn(ins: seq<Incoming>) {
      forall i :: 0 <= i < |ins| && ins[i].Argument? ==> ins[i].v < |values|
    }

    /** What `str` returns. */
    ghost function Eval(v: nat, visited: set<nat>, depth: nat): seq<string>
      requires Valid() && v < |values|
      decreases Budget(depth), 0
    {
      if depth > MAX_DEPTH || v in visited then [UNKNOWN] else
      var inside := visited + {v};
      match values[v]
      case ConstString(s) => [s]
      case Concat(x, y) => Products(Eval(x, inside, depth + 1), Eval(y, inside, depth + 1))
      case Conversion(x) => Eval(x, inside, depth + 1)
      case Phi(edges) => Limited(EvalAll(edges, inside, depth + 1))
      case LoadCell(stores) => KnownOr(EvalAll(stores, inside, depth + 2))
      case Param(own, ins) => if own then KnownOr(EvalArguments(ins, inside, depth + 2)) else [UNKNOWN]
      case Opaque => [UNKNOWN]
    }

    ghost function EvalAll(vs: seq<nat>, visited: set<nat>, depth: nat): seq<string>
      requires Valid() && AllIn(vs)
      decreases Budget(depth), 1, |vs|
    {
      if vs == [] then []
      else Joined(EvalAll(vs[..|vs| - 1], visited, depth), Eval(vs[|vs| - 1], visited, depth))
    }

    ghost function EvalArguments(ins: seq<Incoming>, visited: set<nat>, depth: nat): seq<string>
      requires Valid() && ArgumentsIn(ins)
      decreases Budget(depth), 1, |ins|
    {
      if ins == [] then []
      else Joined(EvalArguments(ins[..|ins| - 1], visited, depth), EvalArgument(ins[|ins| - 1], visited, depth))
    }

    ghost function EvalArgument(i: Incoming, visited: set<nat>, depth: nat): seq<string>
      requires Valid() && (i.Argument? ==> i.v < |values|)
      decreases Budget(depth), 1, 0
    {
      match i
      case NoSite => []
      case NoArgument => [UNKNOWN]
      case Argument(v) => Eval(v, visited, depth)
    }

    // ---- Equations ----

    /** What a value is made of. */
    ghost function Operands(v: nat): (vs: seq<nat>)
      requires Valid() && v < |values|
      ensures AllIn(vs)
    {
      match values[v]
      case Concat(x, y) => [x, y]
      case Conversion(x) => [x]
      case Phi(edges) => edges
      case LoadCell(stores) => stores
      case Param(_, ins) => Passed(ins)
      case _ => []
    }

    ghost function Passed(ins: seq<Incoming>): (vs: seq<nat>)
      requires ArgumentsIn(ins)
      ensures AllIn(vs)
    {
      if ins == [] then []
      else Passed(ins[..|ins| - 1]) + if ins[|ins| - 1].Argument? then [ins[|ins| - 1].v] else []
    }

    /** Variables and parameters are two steps away from what they hold. */
    ghost function Steps(v: nat): nat
      requires v < |values|
    {
      if values[v].LoadCell? || values[v].Param? then 2 else 1
    }

    /** What `v` holds is known when its operands are. */
    ghost predicate Determined(v: nat)
      requires Valid() && v < |values|
    {
      match values[v]
      case LoadCell(stores) => stores != []
      case Param(own, ins) => own && Passed(ins) != [] && forall i :: 0 <= i < |ins| ==> !ins[i].NoArgument?
      case Opaque => false
      case _ => true
    }

    /** `v` holds what any of its operands does. */
    ghost predicate Joins(v: nat)
      requires Valid() && v < |values|
    {
      Determined(v) && !values[v].ConstString? && !values[v].Concat?
    }
  }

  /** How much deeper an evaluation can still go. */
  ghost function Budget(depth: nat): nat { if depth > MAX_DEPTH then 0 else MAX_DEPTH + 1 - depth }

  // ---- Concrete strings and patterns ----

  /** The strings each value can hold. */
  type Family = nat -> iset<string>

  /** String `c` of value `v` is explained by the SSA equation of `v`. */
  ghost predicate Explained(p: Program, f: Family, v: nat, c: string)
    requires v < |p.values|
  {
    match p.values[v]
    case ConstString(s) => c == s
    case Concat(x, y) => exists a, b :: a in f(x) && b in f(y) && c == a + b
    case Conversion(x) => c in f(x)
    case Phi(edges) => exists i :: 0 <= i < |edges| && c in f(edges[i])
    case LoadCell(stores) => stores == [] || exists i :: 0 <= i < |stores| && c in f(stores[i])
    case Param(own, ins) =>
      || !own || (forall i :: 0 <= i < |ins| ==> ins[i].NoSite?)
      || exists i :: 0 <= i < |ins| && PassedBy(f, ins[i], c)
    case Opaque => true
  }

  ghost predicate PassedBy(f: Family, i: Incoming, c: string) {
    i.NoArgument? || (i.Argument? && c in f(i.v))
  }

  /** Any family with this property is allowed, the least one and larger ones: it need not be computable. */
  ghost predicate Consistent(p: Program, f: Family) {
    forall v, c :: 0 <= v < |p.values| && c in f(v) ==> Explained(p, f, v, c)
  }

  /** `{?}` in a pattern may stand for any substring. */
  ghost predicate Matches(p: string, c: string) {
    if p == "" then c == ""
    else
      || (c != "" && c[0] == p[0] && Matches(p[1..], c[1..]))
      || (UNKNOWN <= p && exists k :: 0 <= k <= |c| && Matches(p[3..], c[k..]))
  }

  ghost predicate Covers(ps: seq<string>, c: string) { exists i :: 0 <= i < |ps| && Matches(ps[i], c) }

  lemma {:induction false} MatchesItself(c: string)
    ensures Matches(c, c)
  {
    if c != "" { MatchesItself(c[1..]); }
  }

  lemma UnknownCovers(c: string)
    ensures Covers([UNKNOWN], c)
  {
    assert UNKNOWN[3..] == "" && c[|c|..] == "";
    assert Matches(UNKNOWN[3..], c[|c|..]);
    assert Matches([UNKNOWN][0], c);
  }

  lemma MatchesChar(p: string, c: string)
    requires p != "" && c != "" && c[0] == p[0] && Matches(p[1..], c[1..])
    ensures Matches(p, c)
  {
  }

  lemma MatchesUnknown(p: string, c: string, k: nat)
    requires UNKNOWN <= p && k <= |c| && Matches(p[3..], c[k..])
    ensures Matches(p, c)
  {
  }

  lemma TailOfSum(p: string, q: string, k: nat)
    requires k <= |p|
    ensures (p + q)[k..] == p[k..] + q
  {
  }

  /** Gluing patterns covers gluing strings, even when the seam happens to spell another `{?}`. */
  lemma {:induction false} MatchesConcat(p: string, q: string, a: string, b: string)
    requires Matches(p, a) && Matches(q, b)
    ensures Matches(p + q, a + b)
  {
    if p == "" {
      assert p + q == q && a + b == b;
    } else if a != "" && a[0] == p[0] && Matches(p[1..], a[1..]) {
      MatchesConcat(p[1..], q, a[1..], b);
      TailOfSum(p, q, 1);
      TailOfSum(a, b, 1);
      MatchesChar(p + q, a + b);
    } else {
      var k :| 0 <= k <= |a| && Matches(p[3..], a[k..]);
      MatchesConcat(p[3..], q, a[k..], b);
      TailOfSum(p, q, 3);
      TailOfSum(a, b, k);
      MatchesUnknown(p + q, a + b, k);
    }
  }

  lemma CoversWider(ps: seq<string>, qs: seq<string>, c: string)
    requires Covers(ps, c) && forall x :: x in ps ==> x in qs
    ensures Covers(qs, c)
  {
    var i :| 0 <= i < |ps| && Matches(ps[i], c);
    assert ps[i] in qs;
    var j :| 0 <= j < |qs| && qs[j] == ps[i];
  }

  ghost predicate Mentions(z: string) { exists k :: 0 <= k < |z| && UNKNOWN <= z[k..] }

  lemma MentionsWider(x: string, y: string)
    requires Mentions(x) || Mentions(y)
    ensures Mentions(x + y)
  {
    if Mentions(x) {
      var k :| 0 <= k < |x| && UNKNOWN <= x[k..];
      assert (x + y)[k..] == x[k..] + y;
    } else {
      var k :| 0 <= k < |y| && UNKNOWN <= y[k..];
      assert (x + y)[|x| + k..] == y[k..];
    }
  }

  // ---- The list operations ----

  /** What the evaluator keeps true of its results. */
  ghost predicate Bounded(out: seq<string>) { 0 < |out| <= MAX_VALUES && Distinct(out) }

  ghost function Joined(xs: seq<string>, ys: seq<string>): seq<string> {
    if ys == [] then xs
    else var out := Joined(xs, ys[..|ys| - 1]); if ys[|ys| - 1] in out then out else out + [ys[|ys| - 1]]
  }

  ghost function Prefixed(x: string, ys: seq<string>): seq<string> {
    seq(|ys|, j requires 0 <= j < |ys| => x + ys[j])
  }

  ghost function Pairs(xs: seq<string>, ys: seq<string>): seq<string> {
    if xs == [] then [] else Joined(Pairs(xs[..|xs| - 1], ys), Prefixed(xs[|xs| - 1], ys))
  }

  ghost function Products(xs: seq<string>, ys: seq<string>): seq<string> {
    if |xs| * |ys| > MAX_VALUES then [UNKNOWN] else Pairs(xs, ys)
  }

  ghost function Limited(xs: seq<string>): seq<string> { if |xs| > MAX_VALUES then [UNKNOWN] else xs }

  ghost function KnownOr(xs: seq<string>): seq<string> { if xs == [] then [UNKNOWN] else Limited(xs) }

  lemma {:induction false} JoinedMembers(xs: seq<string>, ys: seq<string>)
    requires Distinct(xs)
    ensures Distinct(Joined(xs, ys)) && forall z :: z in Joined(xs, ys) <==> z in xs || z in ys
    ensures |xs| <= |Joined(xs, ys)| <= |xs| + |ys|
  {
    if ys != [] {
      JoinedMembers(xs, ys[..|ys| - 1]);
      assert ys == ys[..|ys| - 1] + [ys[|ys| - 1]];
    }
  }

  lemma {:induction false} PairsDistinct(xs: seq<string>, ys: seq<string>)
    ensures Distinct(Pairs(xs, ys)) && |Pairs(xs, ys)| <= |xs| * |ys|
  {
    if xs != [] {
      var n := |xs| - 1;
      PairsDistinct(xs[..n], ys);
      JoinedMembers(Pairs(xs[..n], ys), Prefixed(xs[n], ys));
      assert |xs| * |ys| == n * |ys| + |ys|;
    }
  }

  lemma {:induction false} PairIn(xs: seq<string>, ys: seq<string>, i: nat, j: nat)
    requires i < |xs| && j < |ys|
    ensures xs[i] + ys[j] in Pairs(xs, ys)
  {
    var n := |xs| - 1;
    PairsDistinct(xs[..n], ys);
    var last := Prefixed(xs[n], ys);
    JoinedMembers(Pairs(xs[..n], ys), last);
    if i < n { PairIn(xs[..n], ys, i, j); } else { assert last[j] in last; }
  }

  lemma {:induction false} PairFrom(xs: seq<string>, ys: seq<string>, z: string) returns (i: nat, j: nat)
    requires z in Pairs(xs, ys)
    ensures i < |xs| && j < |ys| && z == xs[i] + ys[j]
  {
    var n := |xs| - 1;
    PairsDistinct(xs[..n], ys);
    var last := Prefixed(xs[n], ys);
    JoinedMembers(Pairs(xs[..n], ys), last);
    if z in Pairs(xs[..n], ys) {
      i, j := PairFrom(xs[..n], ys, z);
    } else {
      i := n;
      j :| 0 <= j < |last| && last[j] == z;
    }
  }

  lemma ProductsBounded(xs: seq<string>, ys: seq<string>)
    requires Bounded(xs) && Bounded(ys)
    ensures Bounded(Products(xs, ys))
  {
    PairsDistinct(xs, ys);
    PairIn(xs, ys, 0, 0);
  }

  lemma ProductsCover(xs: seq<string>, ys: seq<string>, a: string, b: string)
    requires Covers(xs, a) && Covers(ys, b)
    ensures Covers(Products(xs, ys), a + b)
  {
    UnknownCovers(a + b);
    var i :| 0 <= i < |xs| && Matches(xs[i], a);
    var j :| 0 <= j < |ys| && Matches(ys[j], b);
    MatchesConcat(xs[i], ys[j], a, b);
    PairIn(xs, ys, i, j);
    CoversOne(Pairs(xs, ys), xs[i] + ys[j], a + b);
  }

  lemma CoversOne(ps: seq<string>, z: string, c: string)
    requires z in ps && Matches(z, c)
    ensures Covers(ps, c)
  {
    var k :| 0 <= k < |ps| && ps[k] == z;
  }

  lemma LimitedCovers(xs: seq<string>, c: string)
    requires Covers(xs, c)
    ensures Covers(Limited(xs), c)
  {
    UnknownCovers(c);
  }

  /** Limiting keeps what a list covers, and leaves at most 32 patterns. */
  lemma LimitKeeps(xs: seq<string>)
    requires xs != [] && Distinct(xs)
    ensures Bounded(Limited(xs)) && forall c :: Covers(xs, c) ==> Covers(Limited(xs), c)
  {
    forall c | Covers(xs, c) ensures Covers(Limited(xs), c) { LimitedCovers(xs, c); }
  }

  lemma UnknownMentions()
    ensures Mentions(UNKNOWN)
  {
    assert UNKNOWN[0..] == UNKNOWN;
  }

  /** `union`. */
  method Union(xs: seq<string>, ys: seq<string>) returns (out: seq<string>)
    ensures out == Joined(xs, ys)
  {
    out := xs;
    for i := 0 to |ys|
      invariant out == Joined(xs, ys[..i])
    {
      NextPrefix(ys, i);
      if ys[i] !in out { out := out + [ys[i]]; }
    }
    WholePrefix(ys);
  }

  /** `concat`. */
  method ConcatAll(xs: seq<string>, ys: seq<string>) returns (out: seq<string>)
    ensures out == Products(xs, ys)
  {
    if |xs| * |ys| > MAX_VALUES { return [UNKNOWN]; }
    out := [];
    for i := 0 to |xs|
      invariant out == Pairs(xs[..i], ys)
    {
      ghost var before, row := out, Prefixed(xs[i], ys);
      for j := 0 to |ys|
        invariant out == Joined(before, row[..j])
      {
        NextPrefix(row, j);
        out := Union(out, [xs[i] + ys[j]]);
        JoinedOne(before, row[..j], row[j]);
      }
      WholePrefix(row);
      NextPrefix(xs, i);
    }
    WholePrefix(xs);
  }

  lemma JoinedOne(xs: seq<string>, ys: seq<string>, z: string)
    ensures Joined(Joined(xs, ys), [z]) == Joined(xs, ys + [z])
  {
    var out := Joined(xs, ys);
    assert [z][..0] == [] && (ys + [z])[..|ys|] == ys;
    assert Joined(out, []) == out;
  }

  /** `limit`. */
  method Limit(xs: seq<string>) returns (out: seq<string>)
    ensures out == Limited(xs)
  {
    if |xs| > MAX_VALUES { return [UNKNOWN]; }
    return xs;
  }

  // ---- The evaluator ----

  class Evaluator {
    const p: Program
    var visited: set<nat>

    constructor (p: Program, visited: set<nat>)
      ensures this.p == p && this.visited == visited
    {
      this.p, this.visited := p, visited;
    }

    /** `str`, which leaves `visited` as it found it. */
    method Str(v: nat, depth: nat) returns (out: seq<string>)
      requires p.Valid() && v < |p.values|
      modifies this
      ensures visited == old(visited)
      ensures out == p.Eval(v, visited, depth)
      decreases Budget(depth), 0
    {
      if depth > MAX_DEPTH || v in visited { return [UNKNOWN]; }
      visited := visited + {v};
      match p.values[v] {
        case ConstString(s) =>
          out := [s];
        case Concat(x, y) =>
          var xs := Str(x, depth + 1);
          var ys := Str(y, depth + 1);
          out := ConcatAll(xs, ys);
        case Conversion(x) =>
          out := Str(x, depth + 1);
        case Phi(edges) =>
          out := StrAll(edges, depth + 1);
          out := Limit(out);
        case LoadCell(stores) =>
          out := Load(stores, depth + 1);
        case Param(own, ins) =>
          out := Parameter(own, ins, depth + 1);
        case Opaque =>
          out := [UNKNOWN];
      }
      visited := visited - {v};
    }

    /** The loop over alternatives: the union of their values. */
    method StrAll(vs: seq<nat>, depth: nat) returns (out: seq<string>)
      requires p.Valid() && p.AllIn(vs)
      modifies this
      ensures visited == old(visited)
      ensures out == p.EvalAll(vs, visited, depth)
      decreases Budget(depth), 1, |vs|
    {
      out := [];
      for i := 0 to |vs|
        invariant visited == old(visited)
        invariant out == p.EvalAll(vs[..i], visited, depth)
      {
        NextPrefix(vs, i);
        var more := Str(vs[i], depth);
        out := Union(out, more);
      }
      WholePrefix(vs);
    }

    /** `load` of a local cell or package variable: the values stored into it. */
    method Load(stores: seq<nat>, depth: nat) returns (out: seq<string>)
      requires p.Valid() && p.AllIn(stores)
      modifies this
      ensures visited == old(visited)
      ensures out == KnownOr(p.EvalAll(stores, visited, depth + 1))
      decreases Budget(depth), 2
    {
      out := StrAll(stores, depth + 1);
      if |out| == 0 { return [UNKNOWN]; }
      out := Limit(out);
    }

    /** `param`: the arguments of all call sites, in a fixed order. */
    method Parameter(own: bool, ins: seq<Incoming>, depth: nat) returns (out: seq<string>)
      requires p.Valid() && p.ArgumentsIn(ins)
      modifies this
      ensures visited == old(visited)
      ensures out == if own then KnownOr(p.EvalArguments(ins, visited, depth + 1)) else [UNKNOWN]
      decreases Budget(depth), 2
    {
      if !own || |ins| == 0 { return [UNKNOWN]; }
      out := [];
      for i := 0 to |ins|
        invariant visited == old(visited)
        invariant out == p.EvalArguments(ins[..i], visited, depth + 1)
      {
        NextPrefix(ins, i);
        if ins[i].NoSite? { continue; }
        if ins[i].NoArgument? {
          out := Union(out, [UNKNOWN]);
          continue;
        }
        var more := Str(ins[i].v, depth + 1);
        out := Union(out, more);
      }
      WholePrefix(ins);
      if |out| == 0 { return [UNKNOWN]; }
      out := Limit(out);
    }
  }

  // ---- At most 32 distinct patterns ----

  lemma {:induction false} EvalBounded(p: Program, v: nat, visited: set<nat>, depth: nat)
    requires p.Valid() && v < |p.values|
    ensures Bounded(p.Eval(v, visited, depth))
    decreases Budget(depth), 0
  {
    if depth <= MAX_DEPTH && v !in visited {
      var inside := visited + {v};
      match p.values[v] {
        case Concat(x, y) =>
          EvalBounded(p, x, inside, depth + 1);
          EvalBounded(p, y, inside, depth + 1);
          ProductsBounded(p.Eval(x, inside, depth + 1), p.Eval(y, inside, depth + 1));
        case Conversion(x) => EvalBounded(p, x, inside, depth + 1);
        case Phi(edges) =>
          AllDistinct(p, edges, inside, depth + 1);
          LimitKeeps(p.EvalAll(edges, inside, depth + 1));
        case LoadCell(stores) => AllDistinct(p, stores, inside, depth + 2);
        case Param(_, ins) => ArgumentsDistinct(p, ins, inside, depth + 2);
        case _ =>
      }
    }
  }

  lemma {:induction false} AllDistinct(p: Program, vs: seq<nat>, visited: set<nat>, depth: nat)
    requires p.Valid() && p.AllIn(vs)
    ensures Distinct(p.EvalAll(vs, visited, depth)) && (vs != [] ==> p.EvalAll(vs, visited, depth) != [])
    decreases Budget(depth), 1, |vs|
  {
    if vs != [] {
      AllDistinct(p, vs[..|vs| - 1], visited, depth);
      EvalBounded(p, vs[|vs| - 1], visited, depth);
      var last := p.Eval(vs[|vs| - 1], visited, depth);
      JoinedMembers(p.EvalAll(vs[..|vs| - 1], visited, depth), last);
      assert last[0] in p.EvalAll(vs, visited, depth);
    }
  }

  lemma {:induction false} ArgumentsDistinct(p: Program, ins: seq<Incoming>, visited: set<nat>, depth: nat)
    requires p.Valid() && p.ArgumentsIn(ins)
    ensures Distinct(p.EvalArguments(ins, visited, depth))
    decreases Budget(depth), 1, |ins|
  {
    if ins != [] {
      ArgumentsDistinct(p, ins[..|ins| - 1], visited, depth);
      JoinedMembers(p.EvalArguments(ins[..|ins| - 1], visited, depth), p.EvalArgument(ins[|ins| - 1], visited, depth));
    }
  }

  // ---- Soundness ----

  /** Every string a consistent family gives `v` is covered, whatever is in progress and at any depth. */
  lemma {:induction false} EvalSound(p: Program, f: Family, v: nat, visited: set<nat>, depth: nat, c: string)
    requires p.Valid() && v < |p.values| && Consistent(p, f) && c in f(v)
    ensures Covers(p.Eval(v, visited, depth), c)
    decreases Budget(depth), 0
  {
    UnknownCovers(c);
    assert Explained(p, f, v, c);
    if depth <= MAX_DEPTH && v !in visited {
      var inside := visited + {v};
      match p.values[v] {
        case ConstString(s) =>
          MatchesItself(s);
          CoversOne([s], s, c);
        case Concat(x, y) =>
          var a, b :| a in f(x) && b in f(y) && c == a + b;
          EvalSound(p, f, x, inside, depth + 1, a);
          EvalSound(p, f, y, inside, depth + 1, b);
          ProductsCover(p.Eval(x, inside, depth + 1), p.Eval(y, inside, depth + 1), a, b);
        case Conversion(x) => EvalSound(p, f, x, inside, depth + 1, c);
        case Phi(edges) =>
          var i :| 0 <= i < |edges| && c in f(edges[i]);
          AllSound(p, f, edges, i, inside, depth + 1, c);
          LimitedCovers(p.EvalAll(edges, inside, depth + 1), c);
        case LoadCell(stores) =>
          if stores != [] {
            var i :| 0 <= i < |stores| && c in f(stores[i]);
            AllSound(p, f, stores, i, inside, depth + 2, c);
            LimitedCovers(p.EvalAll(stores, inside, depth + 2), c);
          } else {
            assert p.EvalAll(stores, inside, depth + 2) == [];
          }
        case Param(own, ins) =>
          if i :| 0 <= i < |ins| && PassedBy(f, ins[i], c) {
            ArgumentsSound(p, f, ins, i, inside, depth + 2, c);
            LimitedCovers(p.EvalArguments(ins, inside, depth + 2), c);
          } else if own {
            NoArguments(p, ins, inside, depth + 2);
          }
        case Opaque =>
      }
    }
  }

  lemma {:induction false} AllSound(p: Program, f: Family, vs: seq<nat>, i: nat, visited: set<nat>, depth: nat,
                                    c: string)
    requires p.Valid() && p.AllIn(vs) && Consistent(p, f) && i < |vs| && c in f(vs[i])
    ensures Covers(p.EvalAll(vs, visited, depth), c)
    decreases Budget(depth), 1, |vs|
  {
    var n := |vs| - 1;
    var before, last := p.EvalAll(vs[..n], visited, depth), p.Eval(vs[n], visited, depth);
    AllDistinct(p, vs[..n], visited, depth);
    JoinedMembers(before, last);
    if i < n {
      AllSound(p, f, vs[..n], i, visited, depth, c);
      CoversWider(before, Joined(before, last), c);
    } else {
      EvalSound(p, f, vs[n], visited, depth, c);
      CoversWider(last, Joined(before, last), c);
    }
  }

  lemma {:induction false} ArgumentsSound(p: Program, f: Family, ins: seq<Incoming>, i: nat, visited: set<nat>,
                                          depth: nat, c: string)
    requires p.Valid() && p.ArgumentsIn(ins) && Consistent(p, f) && i < |ins| && PassedBy(f, ins[i], c)
    ensures Covers(p.EvalArguments(ins, visited, depth), c)
    decreases Budget(depth), 1, |ins|
  {
    var n := |ins| - 1;
    var before, last := p.EvalArguments(ins[..n], visited, depth), p.EvalArgument(ins[n], visited, depth);
    ArgumentsDistinct(p, ins[..n], visited, depth);
    JoinedMembers(before, last);
    if i < n {
      ArgumentsSound(p, f, ins[..n], i, visited, depth, c);
      CoversWider(before, Joined(before, last), c);
    } else {
      UnknownCovers(c);
      if ins[n].Argument? { EvalSound(p, f, ins[n].v, visited, depth, c); }
      CoversWider(last, Joined(before, last), c);
    }
  }

  lemma {:induction false} NoArguments(p: Program, ins: seq<Incoming>, visited: set<nat>, depth: nat)
    requires p.Valid() && p.ArgumentsIn(ins) && forall i :: 0 <= i < |ins| ==> ins[i].NoSite?
    ensures p.EvalArguments(ins, visited, depth) == []
    decreases Budget(depth), 1, |ins|
  {
    if ins != [] { NoArguments(p, ins[..|ins| - 1], visited, depth); }
  }

  // ---- Precision ----

  /** The SSA equations read the other way: every explained string is in the family. */
  ghost predicate Closed(p: Program, g: Family) {
    forall v, c :: 0 <= v < |p.values| && Explained(p, g, v, c) ==> c in g(v)
  }

  lemma PlainParts(xs: seq<string>, ys: seq<string>, z: string) returns (a: string, b: string)
    requires z in Products(xs, ys) && !Mentions(z)
    ensures a in xs && b in ys && z == a + b && !Mentions(a) && !Mentions(b)
  {
    UnknownMentions();
    var i, j := PairFrom(xs, ys, z);
    a, b := xs[i], ys[j];
    if Mentions(a) || Mentions(b) { MentionsWider(a, b); }
  }

  /** A pattern without `{?}` is no guess: it is a string the value has in every family closed under the equations. */
  lemma {:induction false} EvalExact(p: Program, g: Family, v: nat, visited: set<nat>, depth: nat, z: string)
    requires p.Valid() && v < |p.values| && Closed(p, g)
    requires z in p.Eval(v, visited, depth) && !Mentions(z)
    ensures z in g(v)
    decreases Budget(depth), 0
  {
    UnknownMentions();
    var inside := visited + {v};
    match p.values[v] {
      case ConstString(s) =>
      case Concat(x, y) =>
        var xs, ys := p.Eval(x, inside, depth + 1), p.Eval(y, inside, depth + 1);
        var a, b := PlainParts(xs, ys, z);
        EvalExact(p, g, x, inside, depth + 1, a);
        EvalExact(p, g, y, inside, depth + 1, b);
      case Conversion(x) => EvalExact(p, g, x, inside, depth + 1, z);
      case Phi(edges) =>
        var i := AllExact(p, g, edges, inside, depth + 1, z);
      case LoadCell(stores) =>
        var i := AllExact(p, g, stores, inside, depth + 2, z);
      case Param(own, ins) =>
        var i := ArgumentsExact(p, g, ins, inside, depth + 2, z);
        assert PassedBy(g, ins[i], z);
      case Opaque =>
    }
    assert Explained(p, g, v, z);
  }

  lemma {:induction false} AllExact(p: Program, g: Family, vs: seq<nat>, visited: set<nat>, depth: nat,
                                    z: string) returns (i: nat)
    requires p.Valid() && p.AllIn(vs) && Closed(p, g)
    requires z in p.EvalAll(vs, visited, depth) && !Mentions(z)
    ensures i < |vs| && z in g(vs[i])
    decreases Budget(depth), 1, |vs|
  {
    var n := |vs| - 1;
    AllDistinct(p, vs[..n], visited, depth);
    JoinedMembers(p.EvalAll(vs[..n], visited, depth), p.Eval(vs[n], visited, depth));
    if z in p.EvalAll(vs[..n], visited, depth) {
      i := AllExact(p, g, vs[..n], visited, depth, z);
    } else {
      i := n;
      EvalExact(p, g, vs[n], visited, depth, z);
    }
  }

  lemma {:induction false} ArgumentsExact(p: Program, g: Family, ins: seq<Incoming>, visited: set<nat>, depth: nat,
                                          z: string) returns (i: nat)
    requires p.Valid() && p.ArgumentsIn(ins) && Closed(p, g)
    requires z in p.EvalArguments(ins, visited, depth) && !Mentions(z)
    ensures i < |ins| && PassedBy(g, ins[i], z)
    decreases Budget(depth), 1, |ins|
  {
    UnknownMentions();
    var n := |ins| - 1;
    ArgumentsDistinct(p, ins[..n], visited, depth);
    JoinedMembers(p.EvalArguments(ins[..n], visited, depth), p.EvalArgument(ins[n], visited, depth));
    if z in p.EvalArguments(ins[..n], visited, depth) {
      i := ArgumentsExact(p, g, ins[..n], visited, depth, z);
    } else {
      i := n;
      EvalExact(p, g, ins[n].v, visited, depth, z);
    }
  }

  /** A pattern without `{?}` matches only itself. */
  lemma {:induction false} PlainMatches(z: string, c: string)
    requires Matches(z, c) && !Mentions(z)
    ensures z == c
  {
    if z != "" {
      assert z[0..] == z;
      forall k | 0 <= k < |z| - 1 ensures !(UNKNOWN <= z[1..][k..]) { assert z[1 + k..] == z[1..][k..]; }
      PlainMatches(z[1..], c[1..]);
    }
  }

  // ---- Nothing is given up without cause ----

  /** The equations of a value, followed to the constants it is made of. Cyclic and unknown values have no term. */
  datatype Term = Literal(s: string) | Pair(left: Term, right: Term) | AnyOf(steps: nat, parts: seq<Term>)

  ghost predicate Unfolds(p: Program, v: nat, t: Term)
    requires p.Valid() && v < |p.values|
    decreases t
  {
    match t
    case Literal(s) => p.values[v] == ConstString(s)
    case Pair(l, r) => p.values[v].Concat? && Unfolds(p, p.values[v].x, l) && Unfolds(p, p.values[v].y, r)
    case AnyOf(steps, parts) =>
      p.Joins(v) && steps == p.Steps(v) && UnfoldAll(p, p.Operands(v), parts)
  }

  ghost predicate UnfoldAll(p: Program, vs: seq<nat>, ts: seq<Term>)
    requires p.Valid() && p.AllIn(vs)
    decreases ts
  {
    |vs| == |ts| &&
    (vs == [] || (UnfoldAll(p, vs[..|vs| - 1], ts[..|ts| - 1]) && Unfolds(p, vs[|vs| - 1], ts[|ts| - 1])))
  }

  function Height(t: Term): nat {
    match t
    case Literal(_) => 0
    case Pair(l, r) => 1 + Max(Height(l), Height(r))
    case AnyOf(steps, parts) => steps + MaxHeight(parts)
  }

  function MaxHeight(ts: seq<Term>): nat {
    if ts == [] then 0 else Max(MaxHeight(ts[..|ts| - 1]), Height(ts[|ts| - 1]))
  }

  function Max(a: nat, b: nat): nat { if a < b then b else a }

  /** The strings of a term: no depth, no visited values, no limit. */
  ghost function StringsOf(t: Term): set<string> {
    match t
    case Literal(s) => {s}
    case Pair(l, r) => Concats(StringsOf(l), StringsOf(r))
    case AnyOf(_, parts) => StringsOfAll(parts)
  }

  ghost function StringsOfAll(ts: seq<Term>): set<string> {
    if ts == [] then {} else StringsOfAll(ts[..|ts| - 1]) + StringsOf(ts[|ts| - 1])
  }

  ghost function Concats(a: set<string>, b: set<string>): set<string> { set x, y | x in a && y in b :: x + y }

  /** At no node are there more than 32 combinations. */
  ghost predicate Few(t: Term) {
    match t
    case Literal(_) => true
    case Pair(l, r) => Few(l) && Few(r) && FewPairs(StringsOf(l), StringsOf(r))
    case AnyOf(_, parts) => AllFew(parts) && |StringsOfAll(parts)| <= MAX_VALUES
  }

  ghost predicate AllFew(ts: seq<Term>) { ts == [] || (AllFew(ts[..|ts| - 1]) && Few(ts[|ts| - 1])) }

  predicate FewPairs(a: set<string>, b: set<string>) { |a| * |b| <= MAX_VALUES }

  /** A value has at most one term. */
  lemma {:induction false} OneTerm(p: Program, v: nat, t: Term, u: Term)
    requires p.Valid() && v < |p.values| && Unfolds(p, v, t) && Unfolds(p, v, u)
    ensures t == u
    decreases t
  {
    match t {
      case Literal(_) =>
      case Pair(l, r) =>
        OneTerm(p, p.values[v].x, l, u.left);
        OneTerm(p, p.values[v].y, r, u.right);
      case AnyOf(_, parts) => OneTermEach(p, p.Operands(v), parts, u.parts);
    }
  }

  lemma {:induction false} OneTermEach(p: Program, vs: seq<nat>, ts: seq<Term>, us: seq<Term>)
    requires p.Valid() && p.AllIn(vs) && UnfoldAll(p, vs, ts) && UnfoldAll(p, vs, us)
    ensures ts == us
    decreases ts
  {
    if vs != [] {
      var k := |vs| - 1;
      OneTermEach(p, vs[..k], ts[..k], us[..k]);
      OneTerm(p, vs[k], ts[k], us[k]);
      assert ts == ts[..k] + [ts[k]] && us == us[..k] + [us[k]];
    }
  }

  /** What is being evaluated is higher than what it is made of, so it is not met again. */
  ghost predicate Higher(p: Program, visited: set<nat>, h: nat)
    requires p.Valid()
  {
    forall u, t :: u in visited && u < |p.values| && Unfolds(p, u, t) ==> Height(t) > h
  }

  lemma HigherParts(p: Program, v: nat, t: Term, visited: set<nat>, h: nat)
    requires p.Valid() && v < |p.values| && Unfolds(p, v, t) && Higher(p, visited, Height(t)) && h < Height(t)
    ensures Higher(p, visited + {v}, h)
  {
    forall u, t' | u in visited + {v} && u < |p.values| && Unfolds(p, u, t') ensures Height(t') > h {
      if u == v { OneTerm(p, v, t, t'); }
    }
  }

  ghost predicate Lists(out: seq<string>, strings: set<string>) { forall c :: c in out <==> c in strings }

  lemma {:induction false} ListedSize(out: seq<string>, strings: set<string>)
    requires Distinct(out) && Lists(out, strings)
    ensures |out| == |strings|
  {
    if out == [] {
      assert strings == {};
    } else {
      var k := |out| - 1;
      assert out[k] in strings;
      forall c ensures c in out[..k] <==> c in strings - {out[k]} { assert out == out[..k] + [out[k]]; }
      ListedSize(out[..k], strings - {out[k]});
    }
  }

  lemma ProductsListed(xs: seq<string>, ys: seq<string>, a: set<string>, b: set<string>)
    requires Bounded(xs) && Bounded(ys) && Lists(xs, a) && Lists(ys, b)
    ensures FewPairs(a, b) <==> |xs| * |ys| <= MAX_VALUES
    ensures FewPairs(a, b) ==> Lists(Products(xs, ys), Concats(a, b))
  {
    ListedSize(xs, a);
    ListedSize(ys, b);
    forall c ensures c in Pairs(xs, ys) <==> c in Concats(a, b) {
      if c in Pairs(xs, ys) { var i, j := PairFrom(xs, ys, c); }
      if c in Concats(a, b) {
        var x, y :| x in a && y in b && c == x + y;
        var i :| 0 <= i < |xs| && xs[i] == x;
        var j :| 0 <= j < |ys| && ys[j] == y;
        PairIn(xs, ys, i, j);
      }
    }
  }

  lemma {:induction false} PassedAll(p: Program, ins: seq<Incoming>, visited: set<nat>, depth: nat)
    requires p.Valid() && p.ArgumentsIn(ins) && forall i :: 0 <= i < |ins| ==> !ins[i].NoArgument?
    ensures p.EvalArguments(ins, visited, depth) == p.EvalAll(p.Passed(ins), visited, depth)
  {
    if ins != [] {
      var k := |ins| - 1;
      var before := p.Passed(ins[..k]);
      PassedAll(p, ins[..k], visited, depth);
      if ins[k].Argument? { assert p.Passed(ins)[..|before|] == before; } else { assert before + [] == before; }
    }
  }

  /** All values but constants and concatenations hold what their operands do. */
  lemma UnionEval(p: Program, v: nat, visited: set<nat>, depth: nat)
    requires p.Valid() && v < |p.values| && p.Joins(v) && depth <= MAX_DEPTH && v !in visited
    ensures var all := p.EvalAll(p.Operands(v), visited + {v}, depth + p.Steps(v));
            Distinct(all) && all != [] && p.Eval(v, visited, depth) == Limited(all)
  {
    AllDistinct(p, p.Operands(v), visited + {v}, depth + p.Steps(v));
    if p.values[v].Param? {
      ParameterEval(p, v, visited, depth);
    } else if p.values[v].Conversion? {
      EvalOne(p, p.values[v].x, visited + {v}, depth + 1);
    }
  }

  lemma ParameterEval(p: Program, v: nat, visited: set<nat>, depth: nat)
    requires p.Valid() && v < |p.values| && p.Joins(v) && depth <= MAX_DEPTH && v !in visited
    requires p.values[v].Param?
    ensures p.Eval(v, visited, depth) == KnownOr(p.EvalAll(p.Operands(v), visited + {v}, depth + p.Steps(v)))
  {
    PassedAll(p, p.values[v].ins, visited + {v}, depth + 2);
  }

  lemma EvalOne(p: Program, x: nat, visited: set<nat>, depth: nat)
    requires p.Valid() && x < |p.values|
    ensures p.EvalAll([x], visited, depth) == p.Eval(x, visited, depth) == Limited(p.Eval(x, visited, depth))
  {
    assert [x][..0] == [] && p.EvalAll([], visited, depth) == [];
    EvalBounded(p, x, visited, depth);
    JoinedFresh(p.Eval(x, visited, depth));
  }

  lemma {:induction false} JoinedFresh(ys: seq<string>)
    requires Distinct(ys)
    ensures Joined([], ys) == ys
  {
    if ys != [] {
      var k := |ys| - 1;
      JoinedFresh(ys[..k]);
      assert ys == ys[..k] + [ys[k]];
    }
  }

  lemma ConcatEval(p: Program, v: nat, visited: set<nat>, depth: nat)
    requires p.Valid() && v < |p.values| && p.values[v].Concat? && depth <= MAX_DEPTH && v !in visited
    ensures var inside := visited + {v};
            p.Eval(v, visited, depth) ==
            Products(p.Eval(p.values[v].x, inside, depth + 1), p.Eval(p.values[v].y, inside, depth + 1))
  {
  }

  /** A value with a term within reach is evaluated to the strings of its term. */
  lemma {:induction false} EvalKnown(p: Program, v: nat, t: Term, visited: set<nat>, depth: nat)
    requires p.Valid() && v < |p.values| && Unfolds(p, v, t) && Few(t)
    requires Higher(p, visited, Height(t)) && depth + Height(t) <= MAX_DEPTH
    ensures Lists(p.Eval(v, visited, depth), StringsOf(t))
    decreases t
  {
    assert v !in visited;
    var inside := visited + {v};
    match t {
      case Literal(_) =>
      case Pair(l, r) =>
        var (x, y) := (p.values[v].x, p.values[v].y);
        HigherParts(p, v, t, visited, Height(l));
        HigherParts(p, v, t, visited, Height(r));
        EvalKnown(p, x, l, inside, depth + 1);
        EvalKnown(p, y, r, inside, depth + 1);
        PairListed(p, v, visited, depth, StringsOf(l), StringsOf(r));
      case AnyOf(steps, parts) =>
        HigherParts(p, v, t, visited, MaxHeight(parts));
        AllEvalKnown(p, p.Operands(v), parts, inside, depth + steps, MaxHeight(parts));
        JoinListed(p, v, visited, depth, StringsOfAll(parts));
    }
  }

  lemma PairListed(p: Program, v: nat, visited: set<nat>, depth: nat, a: set<string>, b: set<string>)
    requires p.Valid() && v < |p.values| && p.values[v].Concat? && depth <= MAX_DEPTH && v !in visited
    requires Lists(p.Eval(p.values[v].x, visited + {v}, depth + 1), a)
    requires Lists(p.Eval(p.values[v].y, visited + {v}, depth + 1), b)
    requires FewPairs(a, b)
    ensures Lists(p.Eval(v, visited, depth), Concats(a, b))
  {
    ConcatEval(p, v, visited, depth);
    EvalBounded(p, p.values[v].x, visited + {v}, depth + 1);
    EvalBounded(p, p.values[v].y, visited + {v}, depth + 1);
    ProductsListed(p.Eval(p.values[v].x, visited + {v}, depth + 1), p.Eval(p.values[v].y, visited + {v}, depth + 1),
                   a, b);
  }

  lemma JoinListed(p: Program, v: nat, visited: set<nat>, depth: nat, all: set<string>)
    requires p.Valid() && v < |p.values| && p.Joins(v) && depth <= MAX_DEPTH && v !in visited
    requires Lists(p.EvalAll(p.Operands(v), visited + {v}, depth + p.Steps(v)), all) && |all| <= MAX_VALUES
    ensures Lists(p.Eval(v, visited, depth), all)
  {
    UnionEval(p, v, visited, depth);
    ListedSize(p.EvalAll(p.Operands(v), visited + {v}, depth + p.Steps(v)), all);
  }

  lemma {:induction false} AllEvalKnown(p: Program, vs: seq<nat>, ts: seq<Term>, visited: set<nat>, depth: nat, h: nat)
    requires p.Valid() && p.AllIn(vs) && UnfoldAll(p, vs, ts) && AllFew(ts)
    requires MaxHeight(ts) <= h && Higher(p, visited, h) && depth + h <= MAX_DEPTH
    ensures Lists(p.EvalAll(vs, visited, depth), StringsOfAll(ts))
    decreases ts
  {
    if vs != [] {
      var k := |vs| - 1;
      AllEvalKnown(p, vs[..k], ts[..k], visited, depth, h);
      EvalKnown(p, vs[k], ts[k], visited, depth);
      EvalPush(p, vs, visited, depth);
    }
  }

  /** The equations determine the strings of such a value: every solution gives it just these. */
  lemma {:induction false} OneSolution(p: Program, f: Family, v: nat, t: Term, c: string)
    requires p.Valid() && v < |p.values| && Unfolds(p, v, t) && Consistent(p, f) && Closed(p, f)
    ensures c in f(v) <==> c in StringsOf(t)
    decreases t
  {
    assert c in f(v) <==> Explained(p, f, v, c);
    match t {
      case Literal(_) =>
      case Pair(l, r) =>
        forall a ensures a in f(p.values[v].x) <==> a in StringsOf(l) { OneSolution(p, f, p.values[v].x, l, a); }
        forall b ensures b in f(p.values[v].y) <==> b in StringsOf(r) { OneSolution(p, f, p.values[v].y, r, b); }
      case AnyOf(_, parts) =>
        AllOneSolution(p, f, p.Operands(v), parts, c);
        HoldsOperands(p, f, v, c);
    }
  }

  /** The equations of all values but constants and concatenations. */
  lemma HoldsOperands(p: Program, f: Family, v: nat, c: string)
    requires p.Valid() && v < |p.values| && p.Joins(v)
    ensures Explained(p, f, v, c) <==> AnyHolds(f, p.Operands(v), c)
  {
    match p.values[v] {
      case Conversion(x) => assert p.Operands(v)[0] == x;
      case Param(_, ins) => PassedHold(p, f, ins, c);
      case _ =>
    }
  }

  ghost predicate AnyHolds(f: Family, vs: seq<nat>, c: string) { exists i :: 0 <= i < |vs| && c in f(vs[i]) }

  lemma {:induction false} AllOneSolution(p: Program, f: Family, vs: seq<nat>, ts: seq<Term>, c: string)
    requires p.Valid() && p.AllIn(vs) && UnfoldAll(p, vs, ts) && Consistent(p, f) && Closed(p, f)
    ensures c in StringsOfAll(ts) <==> AnyHolds(f, vs, c)
    decreases ts
  {
    if vs != [] {
      var k := |vs| - 1;
      AllOneSolution(p, f, vs[..k], ts[..k], c);
      OneSolution(p, f, vs[k], ts[k], c);
      if i :| 0 <= i < |vs| && c in f(vs[i]) && i != k { assert c in f(vs[..k][i]); }
    }
  }

  /** What call sites pass, as long as all pass something. */
  lemma {:induction false} PassedHold(p: Program, f: Family, ins: seq<Incoming>, c: string)
    requires p.ArgumentsIn(ins) && forall i :: 0 <= i < |ins| ==> !ins[i].NoArgument?
    ensures (exists i :: 0 <= i < |ins| && PassedBy(f, ins[i], c)) <==> AnyHolds(f, p.Passed(ins), c)
    ensures (forall i :: 0 <= i < |ins| ==> ins[i].NoSite?) <==> p.Passed(ins) == []
  {
    if ins != [] {
      var k := |ins| - 1;
      var before, all := p.Passed(ins[..k]), p.Passed(ins);
      PassedHold(p, f, ins[..k], c);
      if i :| 0 <= i < |ins| && PassedBy(f, ins[i], c) {
        if i < k { assert PassedBy(f, ins[..k][i], c); } else { assert all[|before|] == ins[k].v; }
      }
      if AnyHolds(f, before, c) {
        var j :| 0 <= j < |before| && c in f(before[j]);
        assert all[j] == before[j];
        var i :| 0 <= i < k && PassedBy(f, ins[..k][i], c);
        assert PassedBy(f, ins[i], c);
      }
      if j :| 0 <= j < |all| && c in f(all[j]) {
        if j < |before| { assert c in f(before[j]); } else { assert PassedBy(f, ins[k], c); }
      }
      if i :| 0 <= i < k && !ins[i].NoSite? { assert !ins[..k][i].NoSite?; }
    }
  }

  /** No pattern of `out` has a `{?}`. */
  ghost predicate Plain(out: seq<string>) {
    out == [] || (Plain(out[..|out| - 1]) && !Mentions(out[|out| - 1]))
  }

  lemma {:induction false} PlainMembers(out: seq<string>)
    ensures Plain(out) <==> forall z :: z in out ==> !Mentions(z)
  {
    if out != [] {
      PlainMembers(out[..|out| - 1]);
      assert out == out[..|out| - 1] + [out[|out| - 1]];
    }
  }

  lemma {:induction false} MissingArgument(p: Program, ins: seq<Incoming>, i: nat, visited: set<nat>, depth: nat)
    requires p.Valid() && p.ArgumentsIn(ins) && i < |ins| && ins[i].NoArgument?
    ensures UNKNOWN in p.EvalArguments(ins, visited, depth)
  {
    var k := |ins| - 1;
    var before := p.EvalArguments(ins[..k], visited, depth);
    ArgumentsDistinct(p, ins[..k], visited, depth);
    JoinedMembers(before, p.EvalArgument(ins[k], visited, depth));
    if i < k { MissingArgument(p, ins[..k], i, visited, depth); } else { assert UNKNOWN in [UNKNOWN]; }
  }

  /** What is not determined is not known. */
  lemma NotDetermined(p: Program, v: nat, visited: set<nat>, depth: nat)
    requires p.Valid() && v < |p.values| && Plain(p.Eval(v, visited, depth))
    ensures depth <= MAX_DEPTH && v !in visited && p.Determined(v)
  {
    UnknownMentions();
    assert UNKNOWN in [UNKNOWN];
    PlainMembers(p.Eval(v, visited, depth));
    var inside := visited + {v};
    assert p.EvalAll([], inside, depth + 2) == [];
    match p.values[v] {
      case Param(own, ins) =>
        if own && depth <= MAX_DEPTH && v !in visited {
          if i :| 0 <= i < |ins| && ins[i].NoArgument? {
            MissingArgument(p, ins, i, inside, depth + 2);
          } else {
            PassedAll(p, ins, inside, depth + 2);
          }
        }
      case _ =>
    }
  }

  lemma PlainFactors(xs: seq<string>, ys: seq<string>)
    requires Bounded(xs) && Bounded(ys) && Plain(Products(xs, ys))
    ensures Plain(xs) && Plain(ys) && |xs| * |ys| <= MAX_VALUES
  {
    UnknownMentions();
    assert UNKNOWN in [UNKNOWN];
    PlainMembers(xs);
    PlainMembers(ys);
    PlainMembers(Products(xs, ys));
    forall x | x in xs ensures !Mentions(x) {
      var i :| 0 <= i < |xs| && xs[i] == x;
      PairIn(xs, ys, i, 0);
      if Mentions(x) { MentionsWider(x, ys[0]); }
    }
    forall y | y in ys ensures !Mentions(y) {
      var j :| 0 <= j < |ys| && ys[j] == y;
      PairIn(xs, ys, 0, j);
      if Mentions(y) { MentionsWider(xs[0], y); }
    }
  }

  lemma PlainLimited(all: seq<string>)
    requires Plain(Limited(all))
    ensures Plain(all) && |all| <= MAX_VALUES
  {
    PlainMembers(Limited(all));
    UnknownMentions();
    assert UNKNOWN in [UNKNOWN];
  }

  /** A result without `{?}` is that of a value with a term within reach. */
  lemma {:induction false} PlainIsKnown(p: Program, v: nat, visited: set<nat>, depth: nat) returns (t: Term)
    requires p.Valid() && v < |p.values| && Plain(p.Eval(v, visited, depth))
    ensures Unfolds(p, v, t) && Few(t) && depth + Height(t) <= MAX_DEPTH
    ensures Lists(p.Eval(v, visited, depth), StringsOf(t))
    decreases Budget(depth), 0
  {
    NotDetermined(p, v, visited, depth);
    var inside := visited + {v};
    if p.values[v].ConstString? {
      t := Literal(p.values[v].s);
    } else if p.values[v].Concat? {
      var x, y := p.values[v].x, p.values[v].y;
      PlainOperands(p, v, visited, depth);
      var l := PlainIsKnown(p, x, inside, depth + 1);
      var r := PlainIsKnown(p, y, inside, depth + 1);
      t := PairTerm(p, v, visited, depth, l, r);
    } else {
      var vs, d := p.Operands(v), depth + p.Steps(v);
      UnionEval(p, v, visited, depth);
      PlainLimited(p.EvalAll(vs, inside, d));
      var ts := AllPlainKnown(p, vs, inside, d);
      t := JoinTerm(p, v, visited, depth, ts);
    }
  }

  lemma PairTerm(p: Program, v: nat, visited: set<nat>, depth: nat, l: Term, r: Term) returns (t: Term)
    requires p.Valid() && v < |p.values| && p.values[v].Concat? && depth <= MAX_DEPTH && v !in visited
    requires Unfolds(p, p.values[v].x, l) && Few(l) && depth + 1 + Height(l) <= MAX_DEPTH
    requires Unfolds(p, p.values[v].y, r) && Few(r) && depth + 1 + Height(r) <= MAX_DEPTH
    requires Lists(p.Eval(p.values[v].x, visited + {v}, depth + 1), StringsOf(l))
    requires Lists(p.Eval(p.values[v].y, visited + {v}, depth + 1), StringsOf(r))
    requires Plain(p.Eval(v, visited, depth))
    ensures Unfolds(p, v, t) && Few(t) && depth + Height(t) <= MAX_DEPTH
    ensures Lists(p.Eval(v, visited, depth), StringsOf(t))
  {
    t := Pair(l, r);
    PlainOperands(p, v, visited, depth);
    FewOperands(p.Eval(p.values[v].x, visited + {v}, depth + 1), p.Eval(p.values[v].y, visited + {v}, depth + 1),
                StringsOf(l), StringsOf(r));
    PairListed(p, v, visited, depth, StringsOf(l), StringsOf(r));
  }

  lemma JoinTerm(p: Program, v: nat, visited: set<nat>, depth: nat, ts: seq<Term>) returns (t: Term)
    requires p.Valid() && v < |p.values| && p.Joins(v) && depth <= MAX_DEPTH && v !in visited
    requires UnfoldAll(p, p.Operands(v), ts) && AllFew(ts) && depth + p.Steps(v) + MaxHeight(ts) <= MAX_DEPTH
    requires var all := p.EvalAll(p.Operands(v), visited + {v}, depth + p.Steps(v));
             Lists(all, StringsOfAll(ts)) && |all| <= MAX_VALUES
    ensures Unfolds(p, v, t) && Few(t) && depth + Height(t) <= MAX_DEPTH
    ensures Lists(p.Eval(v, visited, depth), StringsOf(t))
  {
    t := AnyOf(p.Steps(v), ts);
    UnionEval(p, v, visited, depth);
    ListedSize(p.EvalAll(p.Operands(v), visited + {v}, depth + p.Steps(v)), StringsOfAll(ts));
  }

  lemma PlainOperands(p: Program, v: nat, visited: set<nat>, depth: nat)
    requires p.Valid() && v < |p.values| && p.values[v].Concat? && depth <= MAX_DEPTH && v !in visited
    requires Plain(p.Eval(v, visited, depth))
    ensures var (xs, ys) := (p.Eval(p.values[v].x, visited + {v}, depth + 1),
                             p.Eval(p.values[v].y, visited + {v}, depth + 1));
            Plain(xs) && Plain(ys) && Bounded(xs) && Bounded(ys) && |xs| * |ys| <= MAX_VALUES
  {
    ConcatEval(p, v, visited, depth);
    EvalBounded(p, p.values[v].x, visited + {v}, depth + 1);
    EvalBounded(p, p.values[v].y, visited + {v}, depth + 1);
    PlainFactors(p.Eval(p.values[v].x, visited + {v}, depth + 1), p.Eval(p.values[v].y, visited + {v}, depth + 1));
  }

  lemma FewOperands(xs: seq<string>, ys: seq<string>, a: set<string>, b: set<string>)
    requires Bounded(xs) && Bounded(ys) && |xs| * |ys| <= MAX_VALUES && Lists(xs, a) && Lists(ys, b)
    ensures FewPairs(a, b)
  {
    ListedSize(xs, a);
    ListedSize(ys, b);
  }

  lemma {:induction false} AllPlainKnown(p: Program, vs: seq<nat>, visited: set<nat>, depth: nat)
    returns (ts: seq<Term>)
    requires p.Valid() && p.AllIn(vs) && vs != [] && Plain(p.EvalAll(vs, visited, depth))
    ensures UnfoldAll(p, vs, ts) && AllFew(ts) && depth + MaxHeight(ts) <= MAX_DEPTH
    ensures Lists(p.EvalAll(vs, visited, depth), StringsOfAll(ts))
    decreases Budget(depth), 1, |vs|
  {
    var before, last := vs[..|vs| - 1], vs[|vs| - 1];
    PlainPush(p, vs, visited, depth);
    EvalPush(p, vs, visited, depth);
    var t := PlainIsKnown(p, last, visited, depth);
    var earlier := [];
    if before != [] {
      earlier := AllPlainKnown(p, before, visited, depth);
    } else {
      assert p.EvalAll(before, visited, depth) == [];
    }
    ts := earlier + [t];
    TermsPush(p, vs, earlier, t);
  }

  /** The values of the last one are added to those of the others. */
  lemma EvalPush(p: Program, vs: seq<nat>, visited: set<nat>, depth: nat)
    requires p.Valid() && p.AllIn(vs) && vs != []
    ensures forall z :: z in p.EvalAll(vs, visited, depth) <==>
              z in p.EvalAll(vs[..|vs| - 1], visited, depth) || z in p.Eval(vs[|vs| - 1], visited, depth)
  {
    AllDistinct(p, vs[..|vs| - 1], visited, depth);
    JoinedMembers(p.EvalAll(vs[..|vs| - 1], visited, depth), p.Eval(vs[|vs| - 1], visited, depth));
  }

  lemma PlainPush(p: Program, vs: seq<nat>, visited: set<nat>, depth: nat)
    requires p.Valid() && p.AllIn(vs) && vs != [] && Plain(p.EvalAll(vs, visited, depth))
    ensures Plain(p.EvalAll(vs[..|vs| - 1], visited, depth)) && Plain(p.Eval(vs[|vs| - 1], visited, depth))
  {
    EvalPush(p, vs, visited, depth);
    PlainMembers(p.EvalAll(vs, visited, depth));
    PlainMembers(p.EvalAll(vs[..|vs| - 1], visited, depth));
    PlainMembers(p.Eval(vs[|vs| - 1], visited, depth));
  }

  lemma TermsPush(p: Program, vs: seq<nat>, ts: seq<Term>, t: Term)
    requires p.Valid() && p.AllIn(vs) && vs != [] && UnfoldAll(p, vs[..|vs| - 1], ts) && AllFew(ts)
    requires Unfolds(p, vs[|vs| - 1], t) && Few(t)
    ensures UnfoldAll(p, vs, ts + [t]) && AllFew(ts + [t])
    ensures StringsOfAll(ts + [t]) == StringsOfAll(ts) + StringsOf(t)
    ensures MaxHeight(ts + [t]) == Max(MaxHeight(ts), Height(t))
  {
    assert (ts + [t])[..|ts|] == ts;
  }

  /**
   * Exactly when the result has no `{?}`: the value is made of constants alone, without cycles, at most 12 steps away
   * and with at most 32 combinations at each node, and its strings do not themselves spell `{?}`.
   */
  lemma GivenUpExactly(p: Program, v: nat)
    requires p.Valid() && v < |p.values|
    ensures Plain(p.Eval(v, {}, 0)) <==>
            exists t :: Unfolds(p, v, t) && Height(t) <= MAX_DEPTH && Few(t) && PlainStrings(t)
  {
    PlainMembers(p.Eval(v, {}, 0));
    if Plain(p.Eval(v, {}, 0)) {
      var t := PlainIsKnown(p, v, {}, 0);
      assert PlainStrings(t);
    } else if t :| Unfolds(p, v, t) && Height(t) <= MAX_DEPTH && Few(t) && PlainStrings(t) {
      EvalKnown(p, v, t, {}, 0);
    }
  }

  ghost predicate PlainStrings(t: Term) { forall z :: z in StringsOf(t) ==> !Mentions(z) }

  /**
   * `strings`. When no pattern has a `{?}`, the result is exactly the set of strings of any solution of the equations.
   */
  method Strings(p: Program, v: nat) returns (out: seq<string>)
    requires p.Valid() && v < |p.values|
    ensures out == p.Eval(v, {}, 0)
    ensures 0 < |out| <= MAX_VALUES && Distinct(out)
    ensures forall f: Family, c :: Consistent(p, f) && c in f(v) ==> Covers(out, c)
    ensures forall g: Family, z :: Closed(p, g) && z in out && !Mentions(z) ==> z in g(v)
    ensures forall t :: Unfolds(p, v, t) && Height(t) <= MAX_DEPTH && Few(t) ==> Lists(out, StringsOf(t))
  {
    var e := new Evaluator(p, {});
    out := e.Str(v, 0);
    EvalBounded(p, v, {}, 0);
    forall t | Unfolds(p, v, t) && Height(t) <= MAX_DEPTH && Few(t) ensures Lists(out, StringsOf(t)) {
      EvalKnown(p, v, t, {}, 0);
    }
    forall f: Family, c | Consistent(p, f) && c in f(v) ensures Covers(out, c) { EvalSound(p, f, v, {}, 0, c); }
    forall g: Family, z | Closed(p, g) && z in out && !Mentions(z) ensures z in g(v) { EvalExact(p, g, v, {}, 0, z); }
  }

  /** On a solution of the equations, a result without `{?}` is the value's set of strings. */
  lemma PlainIsExact(p: Program, f: Family, v: nat)
    requires p.Valid() && v < |p.values| && Consistent(p, f) && Closed(p, f)
    requires forall z :: z in p.Eval(v, {}, 0) ==> !Mentions(z)
    ensures forall c :: c in f(v) <==> c in p.Eval(v, {}, 0)
  {
    var out := p.Eval(v, {}, 0);
    forall c ensures c in f(v) <==> c in out {
      if c in f(v) {
        EvalSound(p, f, v, {}, 0, c);
        var i :| 0 <= i < |out| && Matches(out[i], c);
        PlainMatches(out[i], c);
      } else if c in out {
        EvalExact(p, f, v, {}, 0, c);
      }
    }
  }
}
