/** Graph reachability and the depth-first marking the analyses use. */
module Reachability {
  import opened Ordering

  type Succ = nat -> seq<nat>

  ghost predicate Path(succ: Succ, p: seq<nat>) {
    |p| > 0 && forall i :: 0 <= i < |p| - 1 ==> p[i + 1] in succ(p[i])
  }

  /** A path from `a` to `b` on which no node is in `stop`. */
  ghost predicate PathFrom(succ: Succ, stop: set<nat>, p: seq<nat>, a: nat, b: nat) {
    Path(succ, p) && p[0] == a && p[|p| - 1] == b && forall i :: 0 <= i < |p| ==> p[i] !in stop
  }

  ghost predicate Reaches(succ: Succ, stop: set<nat>, a: nat, b: nat) {
    exists p :: PathFrom(succ, stop, p, a, b)
  }

  lemma ReachesItself(succ: Succ, stop: set<nat>, a: nat)
    requires a !in stop
    ensures Reaches(succ, stop, a, a)
  {
    assert PathFrom(succ, stop, [a], a, a);
  }

  lemma ReachesOn(succ: Succ, stop: set<nat>, a: nat, b: nat, c: nat)
    requires a !in stop && b in succ(a) && Reaches(succ, stop, b, c)
    ensures Reaches(succ, stop, a, c)
  {
    var p :| PathFrom(succ, stop, p, b, c);
    assert PathFrom(succ, stop, [a] + p, a, c);
  }

  /** A set that contains the start and is closed contains the whole path. */
  lemma {:induction false} ClosedContains(succ: Succ, stop: set<nat>, s: set<nat>, p: seq<nat>, i: nat)
    requires Path(succ, p) && i < |p| && p[0] in s
    requires forall j :: 0 <= j < |p| ==> p[j] !in stop
    requires forall x, y :: x in s && y in succ(x) ==> y in s || y in stop
    ensures p[i] in s
  {
    if i > 0 {
      ClosedContains(succ, stop, s, p, i - 1);
      assert p[(i - 1) + 1] in succ(p[i - 1]);
    }
  }

  /** The nodes added since `before` have all their successors marked. */
  ghost predicate ClosedSince(succ: Succ, stop: set<nat>, before: set<nat>, now: set<nat>) {
    forall x, y :: x in now && x !in before && y in succ(x) ==> y in now || y in stop
  }

  /** A recursive marker: `seen` as a set and `order` as the list of nodes in visiting order. */
  class Marker {
    const succ: Succ
    const stop: set<nat>
    var seen: set<nat>
    var order: seq<nat>

    constructor (succ: Succ, stop: set<nat>)
      ensures this.succ == succ && this.stop == stop && seen == {} && order == []
    {
      this.succ, this.stop := succ, stop;
      seen, order := {}, [];
    }

    ghost predicate Valid()
      reads this
    {
      (forall x :: x in seen <==> x in order) && Distinct(order)
    }

    /** Marks what `b` reaches without entering `stop`; `all` bounds the nodes. */
    method Visit(b: nat, ghost all: set<nat>)
      requires Valid() && b in all && seen <= all
      requires forall x, y :: x in all && y in succ(x) ==> y in all
      modifies this
      ensures Valid() && old(seen) <= seen <= all
      ensures b in seen || b in stop
      ensures ClosedSince(succ, stop, old(seen), seen)
      ensures forall x :: x in seen && x !in old(seen) ==> Reaches(succ, stop, b, x)
      decreases all - seen
    {
      if b in stop || b in seen { return; }
      ghost var before := seen;
      seen := seen + {b};
      order := order + [b];
      ReachesItself(succ, stop, b);
      var next := succ(b);
      for i := 0 to |next|
        invariant Valid() && before + {b} <= seen <= all
        invariant forall j :: 0 <= j < i ==> next[j] in seen || next[j] in stop
        invariant ClosedSince(succ, stop, before + {b}, seen)
        invariant forall x :: x in seen && x !in before ==> Reaches(succ, stop, b, x)
      {
        NextPrefix(next, i);
        ghost var earlier := seen;
        Visit(next[i], all);
        forall x | x in seen && x !in earlier ensures Reaches(succ, stop, b, x) {
          ReachesOn(succ, stop, b, next[i], x);
        }
        ClosedTrans(succ, stop, before + {b}, earlier, seen);
      }
    }
  }

  lemma ClosedTrans(succ: Succ, stop: set<nat>, a: set<nat>, b: set<nat>, c: set<nat>)
    requires a <= b <= c && ClosedSince(succ, stop, a, b) && ClosedSince(succ, stop, b, c)
    ensures ClosedSince(succ, stop, a, c)
  {
  }

  /** Marking from a single start finds exactly what it reaches. */
  lemma MarkedIsReachable(succ: Succ, stop: set<nat>, a: nat, seen: set<nat>)
    requires (a in seen || a in stop) && ClosedSince(succ, stop, {}, seen)
    requires forall x :: x in seen ==> Reaches(succ, stop, a, x)
    ensures forall x :: x in seen <==> Reaches(succ, stop, a, x)
  {
    forall x | Reaches(succ, stop, a, x) ensures x in seen {
      var p :| PathFrom(succ, stop, p, a, x);
      ClosedContains(succ, stop, seen, p, |p| - 1);
    }
  }
}
