/** The holder of the current analysis (internal/live/live.go), over every interleaving of its users. */
module LiveHolder {
  import opened Wrappers
  import Runs

  /** A project's identity. */
  type Project = nat

  type Reader = nat

  datatype Status = Status(generation: nat, analyzing: bool, failed: bool)

  /** How far the holder of the `reanalyzing` mutex is; `Idle` when nobody holds it. */
  datatype Phase =
    | Idle
    | Entered
    | Running
    | Failing
    | Ready(next: Project)
    | Swapped(prev: Project, gen: nat)
    | Releasing(prev: Project)
    | Refused(next: Project)

  datatype Outcome = NoneYet | Failed | Succeeded | TooLate

  datatype State = State(
    p: Option<Project>,
    gen: nat,
    status: Status,
    phase: Phase,
    closing: bool,                // `Close` holds the write lock and has released `p`
    readers: map<Reader, Project>, // who is inside `With`, and with which project
    handed: set<Project>,         // every project the holder was ever given
    released: multiset<Project>,
    last: Outcome                 // how the last re-analysis to end did end
  )

  /** One atomic section of one of the goroutines. */
  datatype Action =
    | Enter(r: Reader)
    | Leave(r: Reader)
    | Begin
    | ShowAnalyzing
    | AnalysisFails
    | ShowFailure
    | AnalysisDone(next: Project)
    | Swap
    | ShowNew
    | ReleaseOld
    | CloseLate
    | CloseBegin
    | CloseEnd

  /** `New`. */
  function Init(p: Project): State {
    State(Some(p), 1, Status(1, false, false), Idle, false, map[], {p}, multiset{}, NoneYet)
  }

  /** The write lock can be taken. */
  predicate CanLock(s: State) { s.readers == map[] && !s.closing }

  /** An action that cannot happen now changes nothing. */
  function Step(s: State, a: Action): State {
    match (a, s.phase)
    case (Enter(r), _) =>
      if s.closing || r in s.readers || s.p.None? then s else s.(readers := s.readers[r := s.p.value])
    case (Leave(r), _) => s.(readers := s.readers - {r})
    case (Begin, Idle) => s.(phase := Entered)
    case (ShowAnalyzing, Entered) => s.(phase := Running, status := s.status.(analyzing := true))
    case (AnalysisFails, Running) => s.(phase := Failing)
    case (ShowFailure, Failing) =>
      s.(phase := Idle, status := s.status.(analyzing := false, failed := true), last := Failed)
    case (AnalysisDone(next), Running) =>
      if next in s.handed then s else s.(phase := Ready(next), handed := s.handed + {next})
    case (Swap, Ready(next)) =>
      if !CanLock(s) then s
      else if s.p.None? then s.(phase := Refused(next))
      else s.(phase := Swapped(s.p.value, s.gen + 1), p := Some(next), gen := s.gen + 1)
    case (ShowNew, Swapped(prev, gen)) => s.(phase := Releasing(prev), status := Status(gen, false, false))
    case (ReleaseOld, Releasing(prev)) => s.(phase := Idle, released := s.released + multiset{prev}, last := Succeeded)
    case (CloseLate, Refused(next)) => s.(phase := Idle, released := s.released + multiset{next}, last := TooLate)
    case (CloseBegin, _) =>
      if !CanLock(s) || s.p.None? then s else s.(closing := true, released := s.released + multiset{s.p.value})
    case (CloseEnd, _) => if s.closing then s.(closing := false, p := None) else s
    case _ => s
  }

  function Run(s: State, actions: seq<Action>): State { Runs.Run(Step, s, actions) }

  // ---- What every step keeps ----

  /** The project a re-analysis still has to install or release. */
  function InHand(phase: Phase): Option<Project> {
    match phase
    case Ready(next) => Some(next)
    case Swapped(prev, _) => Some(prev)
    case Releasing(prev) => Some(prev)
    case Refused(next) => Some(next)
    case _ => None
  }

  /** How many owners still have to release `x`. */
  function Owed(s: State, x: Project): nat {
    (if s.p == Some(x) && !s.closing then 1 else 0) + (if InHand(s.phase) == Some(x) then 1 else 0)
  }

  /** Every project handed over is owed once or was released once. */
  ghost predicate AccountedFor(s: State, x: Project) {
    s.released[x] + Owed(s, x) == if x in s.handed then 1 else 0
  }

  /** Whoever is inside `With` has the current project, and the write lock excludes readers. */
  ghost predicate Locked(s: State) {
    (forall r :: r in s.readers ==> s.p == Some(s.readers[r])) && (s.closing ==> s.readers == map[] && s.p.Some?)
  }

  ghost predicate Accounted(s: State) { forall x :: AccountedFor(s, x) }

  ghost predicate Trailing(s: State) {
    if s.phase.Swapped? then s.phase.gen == s.gen == s.status.generation + 1 else s.gen == s.status.generation
  }

  /** When the analyzing flag is up. */
  ghost predicate Flagged(s: State) {
    && (s.phase.Refused? || s.last.TooLate? ==> s.p.None?)
    && match s.phase
       case Idle => s.status.analyzing <==> s.last.TooLate?
       case Entered => s.status.analyzing <==> s.last.TooLate?
       case Releasing(_) => !s.status.analyzing
       case _ => s.status.analyzing
  }

  ghost predicate Inv(s: State) { Locked(s) && Accounted(s) && Trailing(s) && Flagged(s) }

  lemma StepKeepsLocked(s: State, a: Action)
    requires Locked(s)
    ensures Locked(Step(s, a))
  {
  }

  lemma StepKeepsAccounted(s: State, a: Action, x: Project)
    requires AccountedFor(s, x) && (s.closing ==> s.p.Some?)
    ensures AccountedFor(Step(s, a), x)
  {
  }

  lemma StepKeepsStatus(s: State, a: Action)
    requires Trailing(s) && Flagged(s)
    ensures Trailing(Step(s, a)) && Flagged(Step(s, a))
  {
  }

  lemma StepKeepsInv(s: State, a: Action)
    requires Inv(s)
    ensures Inv(Step(s, a))
  {
    StepKeepsLocked(s, a);
    forall x ensures AccountedFor(Step(s, a), x) { StepKeepsAccounted(s, a, x); }
    StepKeepsStatus(s, a);
  }

  lemma RunKeepsInv(s: State, actions: seq<Action>)
    requires Inv(s)
    ensures Inv(Run(s, actions))
  {
    forall t, a | Inv(t) ensures Inv(Step(t, a)) { StepKeepsInv(t, a); }
    Runs.RunKeeps(Step, (t: State) => Inv(t), s, actions);
  }

  // ---- The claims, over every interleaving ----

  ghost predicate ReadersSafe(s: State) {
    forall r :: r in s.readers ==> s.p == Some(s.readers[r]) && s.released[s.readers[r]] == 0
  }

  /** Nobody inside `With` ever holds a released project. */
  lemma ReaderNeverHoldsReleased(first: Project, actions: seq<Action>)
    ensures ReadersSafe(Run(Init(first), actions))
  {
    RunKeepsInv(Init(first), actions);
    var s := Run(Init(first), actions);
    forall r | r in s.readers ensures s.released[s.readers[r]] == 0 {
      assert AccountedFor(s, s.readers[r]) && !s.closing;
    }
  }

  lemma ReaderKept(s: State, r: Reader, a: Action)
    requires Inv(s) && r in s.readers && a != Leave(r)
    ensures var t := Step(s, a);
            && r in t.readers && t.readers[r] == s.readers[r]
            && t.released[t.readers[r]] == s.released[s.readers[r]]
  {
    assert AccountedFor(s, s.readers[r]);
  }

  /** A reader keeps the same project from `Enter` to `Leave`, whatever the others do. */
  lemma {:induction false} ReaderKeepsProject(s: State, r: Reader, actions: seq<Action>)
    requires Inv(s) && r in s.readers && Leave(r) !in actions
    ensures var t := Run(s, actions);
            r in t.readers && t.readers[r] == s.readers[r] && t.released[t.readers[r]] == s.released[t.readers[r]]
    decreases |actions|
  {
    if actions != [] {
      assert actions[0] in actions;
      StepKeepsInv(s, actions[0]);
      ReaderKept(s, r, actions[0]);
      ReaderKeepsProject(Step(s, actions[0]), r, actions[1..]);
    }
  }

  /** Every project handed over is owed to exactly one holder, or was released exactly once. */
  lemma EveryProjectAccounted(first: Project, actions: seq<Action>, x: Project)
    ensures var s := Run(Init(first), actions);
            (x in s.handed ==> s.released[x] + Owed(s, x) == 1) && (x !in s.handed ==> s.released[x] == 0)
  {
    RunKeepsInv(Init(first), actions);
    var s := Run(Init(first), actions);
    assert AccountedFor(s, x);
  }

  /**
   * Between re-analyses every project but the current one has been released exactly once, and after `Close` all have.
   */
  lemma QuietMeansReleased(first: Project, actions: seq<Action>, x: Project)
    requires Run(Init(first), actions).phase.Idle? && !Run(Init(first), actions).closing
    ensures var s := Run(Init(first), actions);
            x in s.handed ==> s.released[x] == if s.p == Some(x) then 0 else 1
  {
    EveryProjectAccounted(first, actions, x);
  }

  ghost predicate Forward(s: State, t: State) {
    && s.gen <= t.gen && s.status.generation <= t.status.generation
    && s.released <= t.released && s.handed <= t.handed
    && (s.p.None? ==> t.p.None?)
  }

  lemma StepForward(s: State, a: Action)
    requires Inv(s)
    ensures Forward(s, Step(s, a))
  {
  }

  lemma RunForward(s: State, actions: seq<Action>)
    requires Inv(s)
    ensures Forward(s, Run(s, actions))
  {
    forall t, a | Inv(t) ensures Inv(Step(t, a)) && Forward(t, Step(t, a)) {
      StepKeepsInv(t, a);
      StepForward(t, a);
    }
    Runs.RunRelates(Step, (t: State) => Inv(t), (t: State, u: State) => Forward(t, u), s, actions);
  }

  /** The published generation trails the real one by at most one, and neither ever goes back. */
  lemma GenerationTrails(first: Project, before: seq<Action>, after: seq<Action>)
    ensures var s, t := Run(Init(first), before), Run(Init(first), before + after);
            && s.status.generation <= s.gen <= s.status.generation + 1
            && s.gen <= t.gen && s.status.generation <= t.status.generation
            && (s.gen != s.status.generation ==> s.phase.Swapped?)
            && s.released <= t.released && (s.p.None? ==> t.p.None?)
  {
    RunKeepsInv(Init(first), before);
    Runs.RunAppend(Step, Init(first), before, after);
    RunForward(Run(Init(first), before), after);
  }

  /** The analyzing flag is up while no re-analysis is under way exactly when the last one ended after `Close`. */
  lemma AnalyzingLeftOn(first: Project, actions: seq<Action>)
    requires Run(Init(first), actions).phase.Idle?
    ensures var s := Run(Init(first), actions);
            (s.status.analyzing <==> s.last.TooLate?) && (s.last.TooLate? ==> s.p.None?)
  {
    RunKeepsInv(Init(first), actions);
  }

  /** `Close` during an analysis. */
  function ClosedWhileAnalyzing(first: Project): State {
    Init(first).(status := Status(1, true, false), phase := Running, p := None, released := multiset{first})
  }

  lemma CloseDuringAnalysis(first: Project) returns (actions: seq<Action>)
    ensures Run(Init(first), actions) == ClosedWhileAnalyzing(first)
  {
    var s := Step(Step(Init(first), Begin), ShowAnalyzing);
    assert Step(Step(s, CloseBegin), CloseEnd) == ClosedWhileAnalyzing(first);
    var closing := [CloseBegin] + ([CloseEnd] + []);
    Runs.RunFrom(Step, Step(s, CloseBegin), CloseEnd, []);
    Runs.RunFrom(Step, s, CloseBegin, [CloseEnd] + []);
    Runs.RunFrom(Step, Step(Init(first), Begin), ShowAnalyzing, closing);
    Runs.RunFrom(Step, Init(first), Begin, [ShowAnalyzing] + closing);
    actions := [Begin] + ([ShowAnalyzing] + closing);
  }

  /** It does happen: a re-analysis that ends after `Close` leaves the flag up. */
  lemma AnalyzingCanBeLeftOn(first: Project, next: Project) returns (actions: seq<Action>)
    requires first != next
    ensures var s := Run(Init(first), actions);
            s.phase.Idle? && s.p.None? && s.status.analyzing && s.released == multiset{first} + multiset{next}
  {
    var s := ClosedWhileAnalyzing(first);
    var closed := CloseDuringAnalysis(first);
    var end := [AnalysisDone(next)] + ([Swap] + ([CloseLate] + []));
    Runs.RunFrom(Step, Step(Step(s, AnalysisDone(next)), Swap), CloseLate, []);
    Runs.RunFrom(Step, Step(s, AnalysisDone(next)), Swap, [CloseLate] + []);
    Runs.RunFrom(Step, s, AnalysisDone(next), [Swap] + ([CloseLate] + []));
    Runs.RunAppend(Step, Init(first), closed, end);
    actions := closed + end;
  }

  /** The holder is closed and the flag is up. */
  ghost predicate LeftOn(s: State) {
    s.p.None? && s.status.analyzing && !s.phase.Swapped? && !s.phase.Releasing?
  }

  lemma {:induction false} LeftOnStays(s: State, actions: seq<Action>)
    requires LeftOn(s) && ShowFailure !in actions
    ensures LeftOn(Run(s, actions))
    decreases |actions|
  {
    if actions != [] {
      assert actions[0] in actions;
      LeftOnStays(Step(s, actions[0]), actions[1..]);
    }
  }

  /** The flag so left stays up until a re-analysis ends by failing. */
  lemma LeftOnUntilFailure(first: Project, before: seq<Action>, after: seq<Action>)
    requires Run(Init(first), before).phase.Idle? && Run(Init(first), before).last.TooLate? && ShowFailure !in after
    ensures Run(Init(first), before + after).status.analyzing && Run(Init(first), before + after).p.None?
  {
    RunKeepsInv(Init(first), before);
    LeftOnStays(Run(Init(first), before), after);
    Runs.RunAppend(Step, Init(first), before, after);
  }

  /** Which can happen: an analysis may fail after `Close` as well. */
  lemma FailureTakesItDown(first: Project, before: seq<Action>) returns (after: seq<Action>)
    requires Run(Init(first), before).phase.Idle? && Run(Init(first), before).last.TooLate?
    ensures var s := Run(Init(first), before + after); s.phase.Idle? && !s.status.analyzing
  {
    var s := Run(Init(first), before);
    var s2 := Step(Step(s, Begin), ShowAnalyzing);
    Runs.RunFrom(Step, Step(s2, AnalysisFails), ShowFailure, []);
    Runs.RunFrom(Step, s2, AnalysisFails, [ShowFailure] + []);
    Runs.RunFrom(Step, Step(s, Begin), ShowAnalyzing, [AnalysisFails] + ([ShowFailure] + []));
    Runs.RunFrom(Step, s, Begin, [ShowAnalyzing] + ([AnalysisFails] + ([ShowFailure] + [])));
    after := [Begin] + ([ShowAnalyzing] + ([AnalysisFails] + ([ShowFailure] + [])));
    Runs.RunAppend(Step, Init(first), before, after);
  }

  // ---- No deadlock: from anywhere, everything can finish ----

  /** Letting the readers leave. */
  lemma {:induction false} ReadersCanLeave(s: State) returns (actions: seq<Action>)
    requires Inv(s)
    ensures var t := Run(s, actions); Inv(t) && t.readers == map[]
    decreases |s.readers|
  {
    if s.readers == map[] {
      actions := [];
    } else {
      var r :| r in s.readers;
      var t := Step(s, Leave(r));
      StepKeepsInv(s, Leave(r));
      assert t.readers.Keys == s.readers.Keys - {r};
      var rest := ReadersCanLeave(t);
      Runs.RunFrom(Step, s, Leave(r), rest);
      actions := [Leave(r)] + rest;
    }
  }

  /** What the re-analysis under way does next when its analysis fails, if it still can. */
  function NextAction(s: State): Action {
    match s.phase
    case Idle => CloseBegin
    case Entered => ShowAnalyzing
    case Running => AnalysisFails
    case Failing => ShowFailure
    case Ready(_) => Swap
    case Swapped(_, _) => ShowNew
    case Releasing(_) => ReleaseOld
    case Refused(_) => CloseLate
  }

  function StepsLeft(s: State): nat {
    match s.phase
    case Idle => 0
    case Entered => 3
    case Running => 2
    case Failing => 1
    case Ready(_) => 3
    case Swapped(_, _) => 2
    case Releasing(_) => 1
    case Refused(_) => 1
  }

  lemma {:induction false} ReanalysisCanEnd(s: State) returns (actions: seq<Action>)
    requires Inv(s) && CanLock(s)
    ensures var t := Run(s, actions); Inv(t) && CanLock(t) && t.phase.Idle?
    decreases StepsLeft(s)
  {
    if s.phase.Idle? {
      actions := [];
    } else {
      StepKeepsInv(s, NextAction(s));
      var rest := ReanalysisCanEnd(Step(s, NextAction(s)));
      Runs.RunFrom(Step, s, NextAction(s), rest);
      actions := [NextAction(s)] + rest;
    }
  }

  lemma HolderCanClose(s: State) returns (actions: seq<Action>)
    requires Inv(s) && CanLock(s) && s.phase.Idle?
    ensures var t := Run(s, actions); Inv(t) && t.phase.Idle? && t.readers == map[] && t.p.None?
  {
    StepKeepsInv(s, CloseBegin);
    StepKeepsInv(Step(s, CloseBegin), CloseEnd);
    Runs.RunFrom(Step, Step(s, CloseBegin), CloseEnd, []);
    Runs.RunFrom(Step, s, CloseBegin, [CloseEnd] + []);
    actions := [CloseBegin] + ([CloseEnd] + []);
  }

  /** No reachable state is stuck: it can be run on until all is closed and every project released once. */
  lemma EverythingCanFinish(first: Project, before: seq<Action>) returns (after: seq<Action>)
    ensures var t := Run(Init(first), before + after);
            t.phase.Idle? && t.readers == map[] && t.p.None? && forall x :: x in t.handed ==> t.released[x] == 1
  {
    RunKeepsInv(Init(first), before);
    var s0 := Run(Init(first), before);
    var leave := ReadersCanLeave(s0);
    var s1 := Run(s0, leave);
    StepKeepsInv(s1, CloseEnd);
    var end := ReanalysisCanEnd(Step(s1, CloseEnd));
    var close := HolderCanClose(Run(Step(s1, CloseEnd), end));
    Runs.RunAppend(Step, Step(s1, CloseEnd), end, close);
    Runs.RunFrom(Step, s1, CloseEnd, end + close);
    Runs.RunAppend(Step, s0, leave, [CloseEnd] + (end + close));
    after := leave + ([CloseEnd] + (end + close));
    Runs.RunAppend(Step, Init(first), before, after);
    var t := Run(Init(first), before + after);
    forall x | x in t.handed ensures t.released[x] == 1 { assert AccountedFor(t, x); }
  }
}
