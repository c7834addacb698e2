/** Status notifications (internal/live/live.go): `setStatus` over every interleaving with its subscribers. */
module LiveStatus {
  import opened Wrappers
  import opened LiveHolder
  import opened Ordering
  import Runs

  /** A subscriber's channel, which buffers one status. */
  type Chan = nat

  /** What the holder of `statusMu` still has to do; the order of the subscribers is any. */
  datatype Lock =
    | Free
    | Sweep(todo: set<Chan>)
    | Sending(ch: Chan, todo: set<Chan>)

  /** Statuses are named by when they were published: the n-th one is `n`. */
  datatype Board = Board(
    n: nat,
    lock: Lock,
    subs: set<Chan>,
    chans: map<Chan, seq<nat>>,
    seen: map<Chan, nat>,        // the last status read, at first the one current when subscribing
    blocked: bool                // somebody holding the lock waits for a full channel
  )

  datatype Event =
    | Publish
    | Drain(ch: Chan)
    | Send
    | Unlock
    | Receive(ch: Chan)
    | Subscribe(ch: Chan)
    | Unsubscribe(ch: Chan)

  function Initially(): Board { Board(0, Free, {}, map[], map[], false) }

  /** An event that cannot happen now changes nothing. */
  function Next(b: Board, e: Event): Board {
    match e
    case Publish => if b.lock.Free? then b.(n := b.n + 1, lock := Sweep(b.subs)) else b
    case Drain(ch) =>
      if b.lock.Sweep? && ch in b.lock.todo
      then b.(lock := Sending(ch, b.lock.todo - {ch}), chans := b.chans[ch := []])
      else b
    case Send =>
      if !b.lock.Sending? || b.lock.ch !in b.chans then b
      else if b.chans[b.lock.ch] != [] then b.(blocked := true)
      else b.(lock := Sweep(b.lock.todo), chans := b.chans[b.lock.ch := [b.n]], blocked := false)
    case Unlock => if b.lock == Sweep({}) then b.(lock := Free) else b
    case Receive(ch) =>
      if ch in b.chans && b.chans[ch] != []
      then b.(chans := b.chans[ch := b.chans[ch][1..]], seen := b.seen[ch := b.chans[ch][0]])
      else b
    case Subscribe(ch) =>
      if b.lock.Free? && ch !in b.chans
      then b.(subs := b.subs + {ch}, chans := b.chans[ch := []], seen := b.seen[ch := b.n])
      else b
    case Unsubscribe(ch) => if b.lock.Free? then b.(subs := b.subs - {ch}) else b
  }

  function After(es: seq<Event>): Board { Runs.Run(Next, Initially(), es) }

  /** The channel holds exactly status `k`, unread, or is empty and `k` was the last one read. */
  ghost predicate Holds(b: Board, ch: Chan, k: int) {
    && ch in b.chans && ch in b.seen
    && ((b.chans[ch] == [] && b.seen[ch] == k) || (|b.chans[ch]| == 1 && b.chans[ch][0] == k && b.seen[ch] < k))
  }

  /** Channels hold at most one status, one not read before. */
  ghost predicate ChannelOk(b: Board, ch: Chan) {
    && ch in b.chans && ch in b.seen && b.seen[ch] <= b.n && |b.chans[ch]| <= 1
    && (b.chans[ch] != [] ==> b.seen[ch] < b.chans[ch][0] <= b.n)
  }

  ghost predicate SubscriberOk(b: Board, ch: Chan) {
    match b.lock
    case Free => Holds(b, ch, b.n)
    case Sweep(todo) => Holds(b, ch, if ch in todo then b.n - 1 else b.n)
    case Sending(c, todo) =>
      if ch == c then ch in b.chans && b.chans[ch] == [] && ch in b.seen && b.seen[ch] < b.n
      else Holds(b, ch, if ch in todo then b.n - 1 else b.n)
  }

  ghost predicate LockOk(b: Board) {
    match b.lock
    case Free => true
    case Sweep(todo) => b.n > 0 && todo <= b.subs
    case Sending(c, todo) => b.n > 0 && todo <= b.subs && c in b.subs && c !in todo
  }

  ghost predicate Ok(b: Board) {
    && !b.blocked && LockOk(b)
    && (forall ch :: ch in b.chans ==> ChannelOk(b, ch))
    && (forall ch :: ch in b.subs ==> ch in b.chans && SubscriberOk(b, ch))
  }

  lemma NextKeepsChannel(b: Board, e: Event, ch: Chan)
    requires Ok(b) && ch in Next(b, e).chans
    ensures ChannelOk(Next(b, e), ch)
  {
    if ch in b.chans { assert ChannelOk(b, ch); }
  }

  lemma NextKeepsSubscriber(b: Board, e: Event, ch: Chan)
    requires Ok(b) && ch in Next(b, e).subs
    ensures ch in Next(b, e).chans && SubscriberOk(Next(b, e), ch)
  {
    if ch in b.subs { assert SubscriberOk(b, ch) && ChannelOk(b, ch); }
  }

  lemma NextKeepsOk(b: Board, e: Event)
    requires Ok(b)
    ensures Ok(Next(b, e))
  {
    forall ch | ch in Next(b, e).chans ensures ChannelOk(Next(b, e), ch) { NextKeepsChannel(b, e, ch); }
    forall ch | ch in Next(b, e).subs ensures ch in Next(b, e).chans && SubscriberOk(Next(b, e), ch) {
      NextKeepsSubscriber(b, e, ch);
    }
    if b.lock.Sending? { assert SubscriberOk(b, b.lock.ch); }
  }

  lemma AlwaysOk(es: seq<Event>)
    ensures Ok(After(es))
  {
    forall b, e | Ok(b) ensures Ok(Next(b, e)) { NextKeepsOk(b, e); }
    Runs.RunKeeps(Next, (b: Board) => Ok(b), Initially(), es);
  }

  // ---- The claims, over every interleaving ----

  /** The holder of the lock can always go on: a send finds its channel empty, though receivers need not act. */
  lemma NeverBlocks(es: seq<Event>)
    ensures var b := After(es);
            && !b.blocked
            && (b.lock.Sending? ==> Next(b, Send).lock == Sweep(b.lock.todo))
            && (b.lock.Sweep? ==>
                  && b.lock.todo <= b.subs
                  && forall ch :: ch in b.lock.todo ==> Next(b, Drain(ch)).lock == Sending(ch, b.lock.todo - {ch}))
  {
    AlwaysOk(es);
    var b := After(es);
    if b.lock.Sending? { assert SubscriberOk(b, b.lock.ch); }
  }

  /** Between publications a subscriber has the latest status in its channel, or has read it. */
  lemma LatestIsAvailable(es: seq<Event>, ch: Chan)
    requires var b := After(es); b.lock.Free? && ch in b.subs
    ensures var b := After(es);
            ch in b.chans && ch in b.seen && (b.chans[ch] == [b.n] || (b.chans[ch] == [] && b.seen[ch] == b.n))
  {
    AlwaysOk(es);
    assert SubscriberOk(After(es), ch);
  }

  /**
   * During a publication, a subscriber served already has the new status and one still to be served the one before it.
   */
  lemma AtMostOneBehind(es: seq<Event>, ch: Chan)
    requires var b := After(es); ch in b.subs
    ensures var b := After(es);
            && ch in b.chans && ch in b.seen
            && (b.chans[ch] != [] ==> b.chans[ch] == [if b.lock != Free && ch in b.lock.todo then b.n - 1 else b.n])
  {
    AlwaysOk(es);
    assert SubscriberOk(After(es), ch);
  }

  /** No status is read twice or out of order, even after unsubscribing. */
  lemma ReadsMoveForward(es: seq<Event>, ch: Chan)
    requires var b := After(es); ch in b.chans && b.chans[ch] != []
    ensures var b := After(es); ch in b.seen && ch in Next(b, Receive(ch)).seen
    ensures var b := After(es); b.seen[ch] < Next(b, Receive(ch)).seen[ch] <= b.n
  {
    AlwaysOk(es);
    assert ChannelOk(After(es), ch);
  }

  // ---- The critical sections themselves ----

  // What `setStatus` does under its lock, in terms of events.

  function ServeAll(chs: seq<Chan>): seq<Event> {
    if chs == [] then [Unlock] else [Drain(chs[0])] + ([Send] + ServeAll(chs[1..]))
  }

  /** The channels in `chs` are those still to be served. */
  ghost predicate Serving(b: Board, chs: seq<Chan>) {
    && b.lock.Sweep? && !b.blocked && Distinct(chs)
    && (forall ch :: ch in chs <==> ch in b.lock.todo)
    && forall ch :: ch in b.lock.todo ==> ch in b.chans
  }

  /** `c` is `b` with the newest status alone in the channels `chs`, and the lock free. */
  ghost predicate Served(b: Board, c: Board, chs: seq<Chan>) {
    && c == b.(lock := Free, chans := c.chans) && c.chans.Keys == b.chans.Keys
    && forall ch :: ch in b.chans ==> c.chans[ch] == if ch in chs then [b.n] else b.chans[ch]
  }

  lemma {:induction false} AllServed(b: Board, chs: seq<Chan>)
    requires Serving(b, chs)
    ensures Served(b, Runs.Run(Next, b, ServeAll(chs)), chs)
    decreases |chs|
  {
    if chs == [] {
      Runs.RunFrom(Next, b, Unlock, []);
      assert [Unlock] == [Unlock] + [] && b.lock.todo == {};
    } else {
      assert chs[0] in chs;
      var c := Next(Next(b, Drain(chs[0])), Send);
      ServeOne(b, chs);
      AllServed(c, chs[1..]);
      Runs.RunFrom(Next, Next(b, Drain(chs[0])), Send, ServeAll(chs[1..]));
      Runs.RunFrom(Next, b, Drain(chs[0]), [Send] + ServeAll(chs[1..]));
      ServedTogether(b, c, Runs.Run(Next, b, ServeAll(chs)), chs);
    }
  }

  lemma ServedTogether(b: Board, c: Board, d: Board, chs: seq<Chan>)
    requires chs != [] && chs[0] in b.chans && chs[0] !in chs[1..] && b.lock.Sweep?
    requires c == b.(lock := Sweep(b.lock.todo - {chs[0]}), chans := b.chans[chs[0] := [b.n]]) && Served(c, d, chs[1..])
    ensures Served(b, d, chs)
  {
    assert chs == [chs[0]] + chs[1..];
  }

  lemma ServeOne(b: Board, chs: seq<Chan>)
    requires Serving(b, chs) && chs != [] && chs[0] in b.lock.todo
    ensures var c := Next(Next(b, Drain(chs[0])), Send);
            && Serving(c, chs[1..]) && chs[0] !in chs[1..]
            && c == b.(lock := Sweep(b.lock.todo - {chs[0]}), chans := b.chans[chs[0] := [b.n]])
  {
    assert chs == [chs[0]] + chs[1..];
    assert chs[0] !in chs[1..];
    var c := Next(Next(b, Drain(chs[0])), Send);
    assert c.chans == b.chans[chs[0] := [b.n]];
  }

  lemma PublishSection(b: Board, chs: seq<Chan>)
    requires b.lock.Free? && !b.blocked && Distinct(chs)
    requires (forall ch :: ch in chs <==> ch in b.subs) && forall ch :: ch in b.subs ==> ch in b.chans
    ensures Served(b.(n := b.n + 1), Runs.Run(Next, b, [Publish] + ServeAll(chs)), chs)
  {
    Runs.RunFrom(Next, b, Publish, ServeAll(chs));
    AllServed(Next(b, Publish), chs);
  }

  /** Statuses by when they were published: those named `ns` are `ss`. */
  ghost predicate Named(log: seq<Status>, ns: seq<nat>, ss: seq<Status>) {
    |ns| == |ss| && forall i :: 0 <= i < |ns| ==> ns[i] < |log| && log[ns[i]] == ss[i]
  }

  /** The fields of `Current`; each subscriber's channel is its unread statuses. */
  class Current {
    var p: Option<Project>
    var gen: nat
    var status: Status
    var subs: map<Chan, seq<Status>>

    constructor (first: Project)
      ensures p == Some(first) && gen == 1 && subs == map[]
      ensures status == Init(first).status
    {
      p, gen, status, subs := Some(first), 1, Status(1, false, false), map[];
    }

    /** The board these fields stand for, when `log` lists what has been published. */
    ghost predicate Models(b: Board, log: seq<Status>)
      reads this
    {
      && b.lock.Free? && !b.blocked && |log| == b.n + 1 && log[b.n] == status && b.subs == subs.Keys
      && forall ch :: ch in subs ==> ch in b.chans && Named(log, b.chans[ch], subs[ch])
    }

    /**
     * `setStatus`: each subscriber's channel ends with the new status alone; `events` are what the board sees of it.
     */
    method SetStatus(s: Status) returns (ghost events: seq<Event>)
      requires forall ch :: ch in subs ==> |subs[ch]| <= 1
      modifies this`status, this`subs
      ensures status == s && subs.Keys == old(subs.Keys)
      ensures forall ch :: ch in subs ==> subs[ch] == [s]
      ensures forall b: Board, log :: old(Models(b, log)) ==> Models(Runs.Run(Next, b, events), log + [s])
    {
      ghost var chs := Notify(s);
      events := [Publish] + ServeAll(chs);
      forall b: Board, log | old(Models(b, log)) ensures Models(Runs.Run(Next, b, events), log + [s]) {
        PublishSection(b, chs);
      }
    }

    /** The body of `setStatus`; `chs` are the subscribers in the order they are served. */
    method Notify(s: Status) returns (ghost chs: seq<Chan>)
      requires forall ch :: ch in subs ==> |subs[ch]| <= 1
      modifies this`status, this`subs
      ensures status == s && subs.Keys == old(subs.Keys)
      ensures forall ch :: ch in subs ==> subs[ch] == [s]
      ensures Distinct(chs) && forall ch :: ch in chs <==> ch in subs
    {
      status := s;
      chs := [];
      var todo := subs.Keys;
      while todo != {}
        invariant todo <= subs.Keys == old(subs.Keys) && status == s
        invariant Distinct(chs) && forall ch :: ch in chs <==> ch in subs && ch !in todo
        invariant forall ch :: ch in subs ==> subs[ch] == if ch in todo then old(subs[ch]) else [s]
      {
        var ch :| ch in todo;
        Replace(ch);
        todo := todo - {ch};
        chs := chs + [ch];
      }
    }

    /** Drains a channel and sends the status. */
    method Replace(ch: Chan)
      requires ch in subs && |subs[ch]| <= 1
      modifies this`subs
      ensures subs == old(subs)[ch := [status]]
    {
      if |subs[ch]| > 0 { subs := subs[ch := subs[ch][1..]]; }
      assert subs[ch] == []; // the send does not block
      assert subs[ch] + [status] == [status];
      subs := subs[ch := subs[ch] + [status]];
      assert subs == old(subs)[ch := [status]];
    }

    /** The section of `Reanalyze` under the write lock: the project to release, or none when the holder is closed. */
    method Install(next: Project) returns (release: Option<Project>)
      modifies this`p, this`gen
      ensures release == old(p) && p == (if old(p).None? then None else Some(next))
      ensures gen == old(gen) + if old(p).None? then 0 else 1
      ensures forall s: State :: s.p == old(p) && s.gen == old(gen) && s.phase == Ready(next) && CanLock(s) ==>
                Step(s, Swap) == s.(p := p, gen := gen,
                  phase := if release.None? then Refused(next) else Swapped(release.value, gen))
    {
      if p.None? { return None; }
      release := p;
      p := Some(next);
      gen := gen + 1;
    }

    /** `Close`: the project released, none when it had been closed before. */
    method Close() returns (released: Option<Project>)
      modifies this`p
      ensures p.None? && released == old(p)
      ensures forall s: State :: s.p == old(p) && CanLock(s) ==>
                Step(Step(s, CloseBegin), CloseEnd) ==
                s.(p := None, released := s.released + if released.Some? then multiset{released.value} else multiset{})
    {
      if p.None? { return None; }
      released := p;
      p := None;
    }
  }
}
