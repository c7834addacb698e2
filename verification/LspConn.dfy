/** The connection to a language server (internal/lsp/lsp.go), over every interleaving of its goroutines. */
module LspConn {
  import Runs
  import opened Ordering

  type Id = nat

  /** A response as read from the server, with the request it answers. */
  datatype Response = Response(id: Id, body: string)

  /** What a call ends with. */
  datatype Outcome = Answered(r: Response) | Unavailable | SendError | TimedOut

  datatype Caller =
    | Writing             // registered, the request not written yet
    | Waiting
    | Leaving             // its context ended, its entry not removed yet
    | Done(o: Outcome)

  /** A channel with room for one response; `sends` counts every send there was. */
  datatype Chan = Chan(buf: seq<Response>, closed: bool, sends: nat)

  datatype Reader = Reading | Holding(r: Response)

  /** A call's channel is named by the call's ID. */
  datatype State = State(
    nextId: nat,
    pending: set<Id>,
    chans: map<Id, Chan>,
    callers: map<Id, Caller>,
    closed: bool,
    failing: bool,         // `fail` holds the mutex and is closing channels
    reader: Reader,
    panicked: bool,        // a send on a closed channel, or a second close
    blocked: bool          // a send on a full channel
  )

  datatype Action =
    | Register
    | Written(id: Id)
    | WriteFails(id: Id)
    | Wake(id: Id)
    | ContextEnds(id: Id)
    | Remove(id: Id)
    | Take(id: Id, body: string)
    | Deliver
    | FailStart
    | FailOne(id: Id)
    | FailEnd

  function Init(): State { State(0, {}, map[], map[], false, false, Reading, false, false) }

  function Calling(s: State, id: Id, c: Caller): State { s.(callers := s.callers[id := c]) }

  predicate At(s: State, id: Id, c: Caller) { id in s.callers && s.callers[id] == c }

  /** A send: Go panics on a closed channel and waits on a full one. */
  function Sent(s: State, r: Response): State
    requires r.id in s.chans
  {
    var ch := s.chans[r.id];
    if ch.closed then s.(panicked := true)
    else if ch.buf != [] then s.(blocked := true)
    else s.(chans := s.chans[r.id := Chan([r], false, ch.sends + 1)], reader := Reading)
  }

  /** A close: Go panics when the channel is closed already. */
  function ClosedChan(s: State, id: Id): State
    requires id in s.chans
  {
    if s.chans[id].closed then s.(panicked := true)
    else s.(chans := s.chans[id := s.chans[id].(closed := true)], pending := s.pending - {id})
  }

  /** A receive: a buffered response first, then the news that the channel is closed. */
  function Received(s: State, id: Id): State
    requires id in s.chans
  {
    var ch := s.chans[id];
    if ch.buf != [] then Calling(s, id, Done(Answered(ch.buf[0]))).(chans := s.chans[id := ch.(buf := ch.buf[1..])])
    else if ch.closed then Calling(s, id, Done(Unavailable))
    else s
  }

  /** An action that cannot happen now changes nothing; those under the mutex wait for `fail` to let go of it. */
  function Step(s: State, a: Action): State {
    match a
    case Register =>
      if s.failing || s.closed then s
      else var id := s.nextId + 1;
        s.(nextId := id, pending := s.pending + {id}, chans := s.chans[id := Chan([], false, 0)],
          callers := s.callers[id := Writing])
    case Written(id) => if At(s, id, Writing) then Calling(s, id, Waiting) else s
    case WriteFails(id) => if At(s, id, Writing) then Calling(s, id, Done(SendError)) else s
    case Wake(id) => if At(s, id, Waiting) && id in s.chans then Received(s, id) else s
    case ContextEnds(id) => if At(s, id, Waiting) then Calling(s, id, Leaving) else s
    case Remove(id) =>
      if At(s, id, Leaving) && !s.failing then Calling(s, id, Done(TimedOut)).(pending := s.pending - {id}) else s
    case Take(id, body) =>
      if s.failing || !s.reader.Reading? || id !in s.pending then s
      else s.(pending := s.pending - {id}, reader := Holding(Response(id, body)))
    case Deliver => if s.reader.Holding? && s.reader.r.id in s.chans then Sent(s, s.reader.r) else s
    case FailStart => if s.failing || s.closed then s else s.(closed := true, failing := true)
    case FailOne(id) => if s.failing && id in s.pending && id in s.chans then ClosedChan(s, id) else s
    case FailEnd => if s.failing && s.pending == {} then s.(failing := false) else s
  }

  function After(actions: seq<Action>): State { Runs.Run(Step, Init(), actions) }

  // ---- What every step keeps ----

  predicate HeldByReader(s: State, id: Id) { s.reader.Holding? && s.reader.r.id == id }

  /** The channel of call `id` is unused while somebody may still send on it or close it. */
  ghost predicate ChanOk(s: State, id: Id) {
    && id in s.chans
    && var ch := s.chans[id];
    && ch.sends <= 1 && |ch.buf| <= ch.sends
    && (ch.buf != [] ==> ch.buf[0].id == id)
    && (id in s.pending || HeldByReader(s, id) ==> ch == Chan([], false, 0))
    && (ch.closed ==> s.closed && ch.sends == 0)
  }

  /** A caller is not forgotten while it waits, and what it ended with is what its channel says. */
  ghost predicate CallerOk(s: State, id: Id) {
    && id in s.chans && id in s.callers
    && var ch := s.chans[id];
    match s.callers[id]
    case Leaving => true
    case Done(Answered(r)) => r.id == id && ch.sends == 1 && ch.buf == []
    case Done(Unavailable) => ch.closed
    case Done(SendError) => id in s.pending || HeldByReader(s, id) || ch.sends == 1 || ch.closed
    case Done(TimedOut) => id !in s.pending
    case _ => id in s.pending || HeldByReader(s, id) || ch.buf != [] || ch.closed
  }

  ghost predicate CallOk(s: State, id: Id) { ChanOk(s, id) && CallerOk(s, id) }

  /** Who is known, and that nothing stays pending once `fail` is done. */
  ghost predicate Linked(s: State) { Known(s) && FailureOk(s) }

  ghost predicate Known(s: State) {
    && (forall id :: id in s.callers <==> 1 <= id <= s.nextId)
    && (forall id :: id in s.pending ==> 1 <= id <= s.nextId)
  }

  ghost predicate FailureOk(s: State) {
    && (s.reader.Holding? ==> 1 <= s.reader.r.id <= s.nextId && s.reader.r.id !in s.pending)
    && (s.failing ==> s.closed)
    && (s.closed && !s.failing ==> s.pending == {})
  }

  ghost predicate Inv(s: State) {
    !s.panicked && !s.blocked && Linked(s) && forall id :: id in s.callers ==> CallOk(s, id)
  }

  lemma StepKeepsFailure(s: State, a: Action)
    requires FailureOk(s) && Known(s)
    ensures FailureOk(Step(s, a))
  {
  }

  lemma StepKeepsKnown(s: State, a: Action)
    requires Known(s)
    ensures Known(Step(s, a))
  {
  }

  lemma StepKeepsLinks(s: State, a: Action)
    requires Linked(s)
    ensures Linked(Step(s, a))
  {
    StepKeepsKnown(s, a);
    StepKeepsFailure(s, a);
  }

  /** The steps that send on channels or close them. */
  lemma UseKeepsChan(s: State, a: Action, id: Id)
    requires Inv(s) && id in s.callers && (a.Deliver? || a.FailOne?)
    ensures ChanOk(Step(s, a), id)
  {
    assert ChanOk(s, id);
  }

  lemma StepKeepsChan(s: State, a: Action, id: Id)
    requires Inv(s) && id in Step(s, a).callers
    ensures ChanOk(Step(s, a), id)
  {
    if id in s.callers {
      if a.Deliver? || a.FailOne? { UseKeepsChan(s, a, id); } else { assert ChanOk(s, id); }
    }
  }

  /** Its own steps. */
  lemma OwnStepKeepsCaller(s: State, a: Action, id: Id)
    requires Inv(s) && id in s.callers && a in {Written(id), WriteFails(id), Wake(id), ContextEnds(id), Remove(id)}
    ensures CallerOk(Step(s, a), id)
  {
    assert CallOk(s, id);
  }

  /** The steps that pass on responses or close channels. */
  lemma UseKeepsCaller(s: State, a: Action, id: Id)
    requires Inv(s) && id in s.callers && (a.Take? || a.Deliver? || a.FailOne?)
    ensures CallerOk(Step(s, a), id)
  {
    assert CallOk(s, id) && Step(s, a).callers == s.callers;
  }

  lemma StepKeepsCaller(s: State, a: Action, id: Id)
    requires Inv(s) && id in Step(s, a).callers
    ensures CallerOk(Step(s, a), id)
  {
    if id in s.callers {
      if a in {Written(id), WriteFails(id), Wake(id), ContextEnds(id), Remove(id)} {
        OwnStepKeepsCaller(s, a, id);
      } else if a.Take? || a.Deliver? || a.FailOne? {
        UseKeepsCaller(s, a, id);
      } else {
        assert CallOk(s, id) && Step(s, a).callers[id] == s.callers[id];
      }
    }
  }

  lemma StepNeverPanics(s: State, a: Action)
    requires Inv(s)
    ensures !Step(s, a).panicked && !Step(s, a).blocked
  {
    if a.Deliver? && s.reader.Holding? { assert CallOk(s, s.reader.r.id); }
    if a.FailOne? && a.id in s.pending { assert CallOk(s, a.id); }
  }

  lemma StepKeepsInv(s: State, a: Action)
    requires Inv(s)
    ensures Inv(Step(s, a))
  {
    StepNeverPanics(s, a);
    StepKeepsLinks(s, a);
    forall id | id in Step(s, a).callers ensures CallOk(Step(s, a), id) {
      StepKeepsChan(s, a, id);
      StepKeepsCaller(s, a, id);
    }
  }

  lemma AlwaysInv(actions: seq<Action>)
    ensures Inv(After(actions))
  {
    forall s, a | Inv(s) ensures Inv(Step(s, a)) { StepKeepsInv(s, a); }
    Runs.RunKeeps(Step, (s: State) => Inv(s), Init(), actions);
  }

  // ---- The claims, over every interleaving ----

  /** No channel is sent on after closing, closed twice or sent to twice, and no send waits. */
  lemma ChannelsAreUsedOnce(actions: seq<Action>)
    ensures var s := After(actions);
            !s.panicked && !s.blocked && forall id :: id in s.chans && id in s.callers ==> s.chans[id].sends <= 1
  {
    AlwaysInv(actions);
    var s := After(actions);
    forall id | id in s.callers ensures s.chans[id].sends <= 1 { assert CallOk(s, id); }
  }

  /** A call ends with the response to its own request only, and hears that the server is gone only when it is. */
  lemma AnswersAreOwn(actions: seq<Action>, id: Id)
    requires id in After(actions).callers
    ensures var s := After(actions);
            && (s.callers[id].Done? && s.callers[id].o.Answered? ==> s.callers[id].o.r.id == id)
            && (s.callers[id] == Done(Unavailable) ==> s.closed)
  {
    AlwaysInv(actions);
    assert CallOk(After(actions), id);
  }

  /**
   * Exactly which calls that ended are still pending: those that could not be written, until a response or `fail`
   * comes.
   */
  lemma PendingAfterEnd(actions: seq<Action>, id: Id)
    requires id in After(actions).callers && After(actions).callers[id].Done?
    ensures var s := After(actions);
            && id in s.chans
            && (id in s.pending <==>
                  && s.callers[id].o.SendError? && !HeldByReader(s, id)
                  && s.chans[id].sends == 0 && !s.chans[id].closed)
  {
    AlwaysInv(actions);
    assert CallOk(After(actions), id);
  }

  /** It does happen: a request that cannot be written leaves its entry behind. */
  lemma UnwrittenLingers()
    ensures var s := After([Register] + ([WriteFails(1)] + []));
            1 in s.callers && s.callers[1] == Done(SendError) && 1 in s.pending
  {
    Runs.RunFrom(Step, Step(Init(), Register), WriteFails(1), []);
    Runs.RunFrom(Step, Init(), Register, [WriteFails(1)] + []);
  }

  /** And it need not last: `fail` removes the entry. */
  lemma UnwrittenIsFailed()
    ensures var s := After([Register] + ([WriteFails(1)] + ([FailStart] + ([FailOne(1)] + []))));
            1 in s.callers && s.callers[1] == Done(SendError) && 1 !in s.pending
  {
    var s2 := Step(Step(Init(), Register), WriteFails(1));
    Runs.RunFrom(Step, Step(s2, FailStart), FailOne(1), []);
    Runs.RunFrom(Step, s2, FailStart, [FailOne(1)] + []);
    Runs.RunFrom(Step, Step(Init(), Register), WriteFails(1), [FailStart] + ([FailOne(1)] + []));
    Runs.RunFrom(Step, Init(), Register, [WriteFails(1)] + ([FailStart] + ([FailOne(1)] + [])));
  }

  /** A waiting call can still be reached: through `pending`, by the reader, or by what its channel holds. */
  lemma WaitersAreNotForgotten(actions: seq<Action>, id: Id)
    requires At(After(actions), id, Waiting)
    ensures var s := After(actions);
            && id in s.chans
            && (id in s.pending || HeldByReader(s, id) || Step(s, Wake(id)).callers[id].Done?)
  {
    AlwaysInv(actions);
    assert CallOk(After(actions), id);
  }

  /** `fail` has closed everything there was, up to call `n`. */
  ghost predicate Failed(s: State, n: nat) { Inv(s) && s.closed && !s.failing && s.nextId == n }

  lemma FailedForGood(s: State, n: nat, a: Action)
    requires Failed(s, n)
    ensures Failed(Step(s, a), n)
  {
    StepKeepsInv(s, a);
  }

  /**
   * Once `fail` is done nothing is pending, no call registers, and every waiter can wake whose response the reader
   * does not hold.
   */
  lemma FailureWakesEveryone(before: seq<Action>, after: seq<Action>)
    requires After(before).closed && !After(before).failing
    ensures var s, t := After(before), After(before + after);
            && t.callers.Keys == s.callers.Keys && t.closed && !t.failing && t.pending == {}
            && forall id :: At(t, id, Waiting) && !HeldByReader(t, id) ==> Step(t, Wake(id)).callers[id].Done?
  {
    AlwaysInv(before);
    var s, t := After(before), After(before + after);
    forall u, a | Failed(u, s.nextId) ensures Failed(Step(u, a), s.nextId) { FailedForGood(u, s.nextId, a); }
    Runs.RunAppend(Step, Init(), before, after);
    Runs.RunKeeps(Step, (u: State) => Failed(u, s.nextId), s, after);
    forall id | At(t, id, Waiting) && !HeldByReader(t, id) ensures Step(t, Wake(id)).callers[id].Done? {
      assert CallOk(t, id);
    }
  }

  // ---- The sections under the mutex ----

  // What `fail` does under the mutex, in terms of steps.

  function FailAll(ids: seq<Id>): seq<Action> {
    if ids == [] then [FailEnd] else [FailOne(ids[0])] + FailAll(ids[1..])
  }

  /** The calls in `ids` are the pending ones, each with an open channel. */
  ghost predicate AllOpen(s: State, ids: seq<Id>) {
    && Distinct(ids) && (forall id :: id in ids <==> id in s.pending)
    && forall id :: id in s.pending ==> id in s.chans && !s.chans[id].closed
  }

  function Closed(s: State, id: Id): Chan
    requires id in s.chans
  {
    if id in s.pending then s.chans[id].(closed := true) else s.chans[id]
  }

  lemma {:induction false} FailAllCloses(s: State, ids: seq<Id>)
    requires s.failing && AllOpen(s, ids)
    ensures var t := Runs.Run(Step, s, FailAll(ids));
            && t == s.(failing := false, pending := {}, chans := t.chans) && t.chans.Keys == s.chans.Keys
            && forall id :: id in s.chans ==> t.chans[id] == Closed(s, id)
    decreases |ids|
  {
    if ids == [] {
      Runs.RunFrom(Step, s, FailEnd, []);
      assert [FailEnd] == [FailEnd] + [];
      assert s.pending == {};
    } else {
      var id := ids[0];
      var u := Step(s, FailOne(id));
      assert id in ids;
      RestOpen(s, ids);
      FailAllCloses(u, ids[1..]);
      Runs.RunFrom(Step, s, FailOne(id), FailAll(ids[1..]));
    }
  }

  lemma RestOpen(s: State, ids: seq<Id>)
    requires s.failing && ids != [] && AllOpen(s, ids) && ids[0] in s.pending
    ensures AllOpen(Step(s, FailOne(ids[0])), ids[1..])
  {
    assert ids == [ids[0]] + ids[1..];
    assert ids[0] !in ids[1..];
  }

  /** The whole section: nothing is pending any more, and every pending channel is closed. */
  lemma FailSection(s: State, ids: seq<Id>)
    requires !s.closed && !s.failing && AllOpen(s, ids)
    ensures var t := Runs.Run(Step, s, [FailStart] + FailAll(ids));
            && t == s.(closed := true, pending := {}, chans := t.chans) && t.chans.Keys == s.chans.Keys
            && forall id :: id in s.chans ==> t.chans[id] == Closed(s, id)
  {
    Runs.RunFrom(Step, s, FailStart, FailAll(ids));
    FailAllCloses(Step(s, FailStart), ids);
  }

  /** A Go channel with room for one response. */
  class Channel {
    var buf: seq<Response>
    var closed: bool

    constructor ()
      ensures buf == [] && !closed
    {
      buf, closed := [], false;
    }
  }

  class Conn {
    var nextId: nat
    var pending: map<Id, Channel>
    var closed: bool

    /** Each pending call has a channel of its own, open and empty. */
    ghost predicate Valid()
      reads this, pending.Values
    {
      && (forall id :: id in pending ==> id <= nextId && !pending[id].closed && pending[id].buf == [])
      && Injective(pending)
      && (closed ==> pending == map[])
    }

    /** The part of the protocol's state these sections work on. */
    ghost predicate Models(s: State)
      reads this, pending.Values
    {
      && s.nextId == nextId && s.pending == pending.Keys && s.closed == closed && !s.failing
      && forall id :: id in pending ==> id in s.chans && s.chans[id] == Chan(pending[id].buf, pending[id].closed, 0)
    }

    constructor ()
      ensures Valid() && Models(Init()) && !closed && pending == map[] && nextId == 0
    {
      nextId, pending, closed := 0, map[], false;
    }

    /** The head of `call`: a new ID with a channel of its own, or none when the server is gone. */
    method Register() returns (id: Id, ch: Channel?)
      requires Valid()
      modifies this
      ensures Valid() && closed == old(closed)
      ensures closed ==> ch == null && pending == old(pending) && nextId == old(nextId)
      ensures !closed ==> ch != null && fresh(ch) && id == nextId == old(nextId) + 1 && id !in old(pending)
                          && pending == old(pending)[id := ch]
      ensures forall s: State :: old(Models(s)) ==> Models(Step(s, Action.Register))
    {
      if closed { return 0, null; }
      nextId := nextId + 1;
      id := nextId;
      var c := new Channel();
      pending := pending[id := c];
      ch := c;
    }

    /** The section of the read loop: whoever takes a channel is the only one to send on it. */
    method Take(id: Id) returns (ch: Channel?)
      requires Valid()
      modifies this`pending
      ensures Valid() && pending == old(pending) - {id}
      ensures forall s: State, body :: old(Models(s)) && s.reader.Reading? ==> Models(Step(s, Action.Take(id, body)))
      ensures ch == if id in old(pending) then old(pending)[id] else null
      ensures ch != null ==> !ch.closed && ch.buf == [] && ch !in pending.Values
    {
      ch := if id in pending then pending[id] else null;
      pending := pending - {id};
    }

    /**
     * `fail`: closes each pending channel once, and none the second time; `steps` are the steps of the protocol it
     * takes.
     */
    method Fail() returns (ghost steps: seq<Action>)
      requires Valid()
      modifies this, pending.Values
      ensures Valid() && closed && pending == map[] && nextId == old(nextId)
      ensures forall id :: id in old(pending) ==> old(pending)[id].closed && old(pending)[id].buf == []
      ensures forall s: State :: old(Models(s)) ==>
                FailedAs(s, Runs.Run(Step, s, steps)) && Models(Runs.Run(Step, s, steps))
    {
      if closed {
        steps := [FailStart] + [];
        forall s: State | Models(s) ensures Runs.Run(Step, s, steps) == s { Runs.RunFrom(Step, s, FailStart, []); }
        return;
      }
      ghost var ids := CloseAll();
      steps := [FailStart] + FailAll(ids);
      forall s: State | old(Models(s))
        ensures FailedAs(s, Runs.Run(Step, s, steps)) && Models(Runs.Run(Step, s, steps))
      {
        FailSection(s, ids);
      }
    }

    /** The loop of `fail`; `ids` are the calls in the order their channels are closed. */
    method CloseAll() returns (ghost ids: seq<Id>)
      requires Valid() && !closed
      modifies this, pending.Values
      ensures closed && pending == map[] && nextId == old(nextId)
      ensures Distinct(ids) && forall id :: id in ids <==> id in old(pending)
      ensures forall id :: id in old(pending) ==> old(pending)[id].closed && old(pending)[id].buf == []
    {
      closed := true;
      ghost var before := pending;
      ids := [];
      while pending != map[]
        invariant closed && nextId == old(nextId)
        invariant Halfway(before, pending, ids)
        decreases |pending|
      {
        var id :| id in pending;
        CloseOne(before, ids, id);
        ids := ids + [id];
      }
    }

    /** The loop body of `fail`. */
    method CloseOne(ghost before: map<Id, Channel>, ghost ids: seq<Id>, id: Id)
      requires id in pending && Halfway(before, pending, ids)
      modifies this`pending, pending[id]
      ensures Halfway(before, pending, ids + [id]) && |pending| < |old(pending)|
    {
      LeftNext(before, pending, ids, id);
      var ch := pending[id];
      ch.closed := true; // no panic: the channel is open
      assert Closing(before, pending - {id});
      pending := pending - {id};
    }
  }

  /** Of the channels `before`, those of `now` are still open. */
  ghost predicate Closing(before: map<Id, Channel>, now: map<Id, Channel>)
    reads before.Values
  {
    forall id :: id in before ==> before[id].buf == [] && (before[id].closed <==> id !in now)
  }

  ghost predicate Injective(m: map<Id, Channel>) { forall i, j :: i in m && j in m && i != j ==> m[i] != m[j] }

  ghost predicate Halfway(before: map<Id, Channel>, now: map<Id, Channel>, ids: seq<Id>)
    reads before.Values
  {
    Left(before, now, ids) && Injective(before) && Closing(before, now)
  }

  /** What is left of the pending calls `before`: all but `ids`. */
  ghost predicate Left(before: map<Id, Channel>, now: map<Id, Channel>, ids: seq<Id>) {
    && (forall id :: id in now ==> id in before && now[id] == before[id])
    && Distinct(ids) && forall id :: id in ids <==> id in before && id !in now
  }

  lemma LeftNext(before: map<Id, Channel>, now: map<Id, Channel>, ids: seq<Id>, id: Id)
    requires Left(before, now, ids) && id in now
    ensures Left(before, now - {id}, ids + [id]) && |now - {id}| < |now|
  {
    assert now.Keys == (now - {id}).Keys + {id};
  }

  /** What `fail` makes of a state: every pending channel is closed. */
  ghost predicate FailedAs(s: State, t: State) {
    t.closed && t.pending == {} && forall id :: id in s.pending && !s.closed ==> id in t.chans && t.chans[id].closed
  }
}
