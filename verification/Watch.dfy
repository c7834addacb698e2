/** The file watcher (internal/watch/watch.go): snapshots, their differences, and the loop that reports them. */
module Watch {
  import opened Ordering
  import Text

  datatype FileState = FileState(size: int, modified: int)

  type Snapshot = map<string, FileState>

  /** Times are in milliseconds. */
  datatype Options = Options(interval: int, quiet: int, scala: bool)

  const SECOND := 1000

  function WithDefaults(o: Options): (d: Options)
    ensures d.interval > 0 && d.quiet > 0
    ensures o.interval > 0 && o.quiet > 0 ==> d == o
  {
    Options(
      if o.interval <= 0 then SECOND else o.interval,
      if o.quiet > 0 then o.quiet else if o.scala then SECOND else 500,
      o.scala)
  }

  /** A tick of the clock, and what a scan at that moment would find. */
  datatype Tick = Tick(now: int, files: Snapshot)

  datatype State = State(last: Snapshot, pending: seq<string>, settleAt: int, nextScan: int)

  datatype Report = Report(now: int, paths: seq<string>)

  // ---- Differences ----

  predicate Differs(a: Snapshot, b: Snapshot, p: string) {
    (p in a) != (p in b) || (p in a && p in b && a[p] != b[p])
  }

  ghost function Changed(a: Snapshot, b: Snapshot): set<string> {
    set p | p in a.Keys + b.Keys && Differs(a, b, p)
  }

  lemma DiffersThrough(a: Snapshot, b: Snapshot, c: Snapshot, p: string)
    requires Differs(a, c, p)
    ensures Differs(a, b, p) || Differs(b, c, p)
  {
  }

  function ByName(): (string, string) -> bool { (a: string, b: string) => Text.Le(a, b) }

  lemma NamesAreOrdered()
    ensures TotalPreorder(ByName())
  {
    forall a, b ensures ByName()(a, b) || ByName()(b, a) { Text.LeTotal(a, b); }
    forall a, b, c | ByName()(a, b) && ByName()(b, c) ensures ByName()(a, c) { Text.LeTransitive(a, b, c); }
  }

  /** `out` lists the names of a set once each, in order. */
  ghost predicate Lists(out: seq<string>, names: set<string>) {
    Distinct(out) && SortedBy(out, ByName()) && forall p :: p in out <==> p in names
  }

  lemma EmptyListing(a: seq<string>, names: set<string>)
    requires Lists(a, names)
    ensures a == [] <==> names == {}
  {
    if a != [] { assert a[0] in names; }
  }

  lemma DistinctPush(a: seq<string>, x: string)
    requires Distinct(a) && x !in a
    ensures Distinct(a + [x]) && forall p :: p in a + [x] <==> p in a || p == x
  {
  }

  lemma {:induction false} OneListing(a: seq<string>, b: seq<string>, names: set<string>)
    requires Lists(a, names) && Lists(b, names)
    ensures a == b
    decreases |a|
  {
    EmptyListing(a, names);
    EmptyListing(b, names);
    if a != [] {
      assert a[0] in b && b != [] && b[0] in a;
      if a[0] != b[0] {
        assert ByName()(a[0], b[0]) && ByName()(b[0], a[0]);
        Text.LeTotal(a[0], b[0]);
      }
      RestLists(a, names);
      RestLists(b, names);
      OneListing(a[1..], b[1..], names - {a[0]});
    }
  }

  lemma RestLists(a: seq<string>, names: set<string>)
    requires a != [] && Lists(a, names)
    ensures Lists(a[1..], names - {a[0]})
  {
    forall p ensures p in a[1..] <==> p in names - {a[0]} {
      assert a == [a[0]] + a[1..];
      assert p in a[1..] ==> p != a[0];
    }
  }

  ghost function Listing(names: set<string>): seq<string> {
    if names == {} then [] else var p :| p in names; Insert(p, Listing(names - {p}), ByName())
  }

  lemma {:induction false} ListingLists(names: set<string>)
    ensures Lists(Listing(names), names)
  {
    if names != {} {
      var p :| p in names && Listing(names) == Insert(p, Listing(names - {p}), ByName());
      ListingLists(names - {p});
      InsertLists(p, Listing(names - {p}), names - {p});
      assert names == names - {p} + {p};
    }
  }

  lemma InsertLists(p: string, rest: seq<string>, names: set<string>)
    requires Lists(rest, names) && p !in names
    ensures Lists(Insert(p, rest, ByName()), names + {p})
  {
    var all := Insert(p, rest, ByName());
    NamesAreOrdered();
    InsertSorts(p, rest, ByName());
    InsertPermutes(p, rest, ByName());
    assert multiset([p] + rest) == multiset{p} + multiset(rest);
    PermutedDistinct([p] + rest, all);
    SameElements([p] + rest, all);
  }

  /** `diff`: exactly the paths added, removed or changed, in order. */
  method Diff(a: Snapshot, b: Snapshot) returns (out: seq<string>)
    ensures out == Listing(Changed(a, b))
    ensures Lists(out, Changed(a, b))
  {
    out := [];
    var todo := b.Keys;
    while todo != {}
      invariant todo <= b.Keys && Distinct(out)
      invariant forall p :: p in out <==> p in b.Keys - todo && Differs(a, b, p)
    {
      var p :| p in todo;
      DistinctPush(out, p);
      if p !in a || a[p] != b[p] { out := out + [p]; }
      todo := todo - {p};
    }
    todo := a.Keys;
    while todo != {}
      invariant todo <= a.Keys && Distinct(out)
      invariant forall p :: p in out <==> p in b.Keys + (a.Keys - todo) && Differs(a, b, p)
    {
      var p :| p in todo;
      if p !in b {
        DistinctPush(out, p);
        out := out + [p];
      }
      todo := todo - {p};
    }
    ghost var found := out;
    out := Sort(out, ByName());
    NamesAreOrdered();
    SortPermutes(found, ByName());
    SortSorts(found, ByName());
    PermutedDistinct(found, out);
    SameElements(found, out);
    ListingLists(Changed(a, b));
    OneListing(out, Listing(Changed(a, b)), Changed(a, b));
  }

  // ---- The loop ----

  /** The paths of `more` not pending yet, behind those that are. */
  function Merged(pending: seq<string>, more: seq<string>): seq<string>
    decreases |more|
  {
    if more == [] then pending
    else Merged(if more[0] in pending then pending else pending + [more[0]], more[1..])
  }

  lemma {:induction false} MergedMembers(pending: seq<string>, more: seq<string>)
    requires Distinct(pending)
    ensures Distinct(Merged(pending, more)) && forall p :: p in Merged(pending, more) <==> p in pending || p in more
    decreases |more|
  {
    if more != [] {
      MergedMembers(if more[0] in pending then pending else pending + [more[0]], more[1..]);
      assert more == [more[0]] + more[1..];
    }
  }

  lemma {:induction false} MergedAppend(pending: seq<string>, more: seq<string>, p: string)
    ensures Merged(pending, more + [p]) ==
            if p in Merged(pending, more) then Merged(pending, more) else Merged(pending, more) + [p]
    decreases |more|
  {
    if more == [] {
      assert [p][1..] == [];
    } else {
      assert (more + [p])[1..] == more[1..] + [p];
      MergedAppend(if more[0] in pending then pending else pending + [more[0]], more[1..], p);
    }
  }

  method Merge(pending: seq<string>, more: seq<string>) returns (out: seq<string>)
    ensures out == Merged(pending, more)
  {
    out := pending;
    for i := 0 to |more|
      invariant out == Merged(pending, more[..i])
    {
      NextPrefix(more, i);
      MergedAppend(pending, more[..i], more[i]);
      if more[i] !in out { out := out + [more[i]]; }
    }
    WholePrefix(more);
  }

  /** Whether a tick scans: every `Interval`, and once pending changes should have settled. */
  predicate Scans(s: State, t: Tick) {
    t.now >= s.nextScan || (s.pending != [] && t.now >= s.settleAt)
  }

  /** The scan of one tick. */
  ghost function Scanned(o: Options, s: State, t: Tick): State {
    var d := Changed(s.last, t.files);
    if d == {} then s.(nextScan := t.now + o.interval)
    else State(t.files, Merged(s.pending, Listing(d)), t.now + o.quiet, t.now + o.interval)
  }

  /** Whether a tick calls `changed`. */
  ghost predicate Fires(o: Options, s: State, t: Tick) {
    Scans(s, t) && Scanned(o, s, t).pending != [] && t.now >= Scanned(o, s, t).settleAt
  }

  ghost function Next(o: Options, s: State, t: Tick): State {
    if !Scans(s, t) then s
    else if Fires(o, s, t) then Scanned(o, s, t).(pending := [])
    else Scanned(o, s, t)
  }

  ghost function After(o: Options, s: State, ticks: seq<Tick>): State {
    if ticks == [] then s else Next(o, After(o, s, ticks[..|ticks| - 1]), ticks[|ticks| - 1])
  }

  ghost function Reports(o: Options, s: State, ticks: seq<Tick>): seq<Report> {
    if ticks == [] then [] else
    var n := |ticks| - 1;
    var before := After(o, s, ticks[..n]);
    Reports(o, s, ticks[..n]) +
    if Fires(o, before, ticks[n]) then [Report(ticks[n].now, Scanned(o, before, ticks[n]).pending)] else []
  }

  ghost function Started(o: Options, now: int, files: Snapshot): State { State(files, [], 0, now + o.interval) }

  lemma OneMore(o: Options, s: State, ticks: seq<Tick>, i: nat)
    requires i < |ticks|
    ensures After(o, s, ticks[..i + 1]) == Next(o, After(o, s, ticks[..i]), ticks[i])
    ensures var before := After(o, s, ticks[..i]);
            Reports(o, s, ticks[..i + 1]) ==
            if Fires(o, before, ticks[i]) then
              Reports(o, s, ticks[..i]) + [Report(ticks[i].now, Scanned(o, before, ticks[i]).pending)]
            else Reports(o, s, ticks[..i])
  {
    assert ticks[..i + 1][..i] == ticks[..i];
  }

  /** `Run`, over the ticks until its context ends. */
  method Run(opts: Options, start: Tick, ticks: seq<Tick>) returns (reports: seq<Report>)
    ensures reports == Reports(WithDefaults(opts), Started(WithDefaults(opts), start.now, start.files), ticks)
  {
    var o := WithDefaults(opts);
    var last := start.files;
    var pending: seq<string> := [];
    var settleAt := 0;
    var nextScan := start.now + o.interval;
    reports := [];
    ghost var init := Started(o, start.now, start.files);
    for i := 0 to |ticks|
      invariant State(last, pending, settleAt, nextScan) == After(o, init, ticks[..i])
      invariant reports == Reports(o, init, ticks[..i])
    {
      OneMore(o, init, ticks, i);
      ghost var s := State(last, pending, settleAt, nextScan);
      var now, cur := ticks[i].now, ticks[i].files;
      if now < nextScan && (|pending| == 0 || now < settleAt) { continue; }
      var d := Diff(last, cur);
      assert |d| > 0 <==> Changed(last, cur) != {} by { assert |d| > 0 ==> d[0] in Changed(last, cur); }
      if |d| > 0 {
        pending := Merge(pending, d);
        settleAt := now + o.quiet;
        last := cur;
      }
      nextScan := now + o.interval;
      assert Scans(s, ticks[i]) && State(last, pending, settleAt, nextScan) == Scanned(o, s, ticks[i]);
      if |pending| > 0 && now >= settleAt {
        reports := reports + [Report(now, pending)];
        pending := [];
      }
    }
    WholePrefix(ticks);
  }

  // ---- What an observer of the loop knows ----

  /** The snapshot last reported, and the paths seen changing and when they last did since then. */
  datatype History = History(reported: Snapshot, changed: set<string>, lastChange: int)

  ghost function Observed(o: Options, s: State, h: History, t: Tick): History {
    if !Scans(s, t) then h else
    var d := Changed(s.last, t.files);
    var h' := if d == {} then h else History(h.reported, h.changed + d, t.now);
    if Fires(o, s, t) then History(Scanned(o, s, t).last, {}, h'.lastChange) else h'
  }

  ghost function HistoryAfter(o: Options, s: State, ticks: seq<Tick>): History {
    if ticks == [] then History(s.last, {}, 0) else
    var n := |ticks| - 1;
    Observed(o, After(o, s, ticks[..n]), HistoryAfter(o, s, ticks[..n]), ticks[n])
  }

  /** What is pending is what changed, without duplicates, and includes all that differs from the last report. */
  ghost predicate Faithful(o: Options, s: State, h: History) {
    && Distinct(s.pending)
    && (forall p :: p in s.pending <==> p in h.changed)
    && (forall p :: Differs(h.reported, s.last, p) ==> p in h.changed)
    && (s.pending != [] ==> s.settleAt == h.lastChange + o.quiet)
  }

  lemma ScanIsFaithful(o: Options, s: State, h: History, files: Snapshot, now: int)
    requires Faithful(o, s, h) && Changed(s.last, files) != {}
    ensures var d := Changed(s.last, files);
            Faithful(o, State(files, Merged(s.pending, Listing(d)), now + o.quiet, now + o.interval),
              History(h.reported, h.changed + d, now))
  {
    var d := Changed(s.last, files);
    ListingLists(d);
    MergedMembers(s.pending, Listing(d));
    forall p | Differs(h.reported, files, p) ensures p in h.changed + d {
      DiffersThrough(h.reported, s.last, files, p);
    }
  }

  lemma NextIsFaithful(o: Options, s: State, h: History, t: Tick)
    requires Faithful(o, s, h)
    ensures Faithful(o, Next(o, s, t), Observed(o, s, h, t))
  {
    if Changed(s.last, t.files) != {} { ScanIsFaithful(o, s, h, t.files, t.now); }
  }

  /** For any ticks and snapshots. */
  lemma {:induction false} PendingIsWhatChanged(o: Options, now: int, files: Snapshot, ticks: seq<Tick>)
    ensures var init := Started(o, now, files);
            Faithful(o, After(o, init, ticks), HistoryAfter(o, init, ticks))
  {
    if ticks != [] {
      var n := |ticks| - 1;
      var init := Started(o, now, files);
      PendingIsWhatChanged(o, now, files, ticks[..n]);
      NextIsFaithful(o, After(o, init, ticks[..n]), HistoryAfter(o, init, ticks[..n]), ticks[n]);
    }
  }

  /**
   * A report comes only from a scan that saw no change, `quiet` or longer after the last one that did, and names all
   * that changed.
   */
  lemma ReportsAreSettled(o: Options, now: int, files: Snapshot, ticks: seq<Tick>, t: Tick)
    requires o.quiet > 0
    requires Fires(o, After(o, Started(o, now, files), ticks), t)
    ensures var s, h := After(o, Started(o, now, files), ticks), HistoryAfter(o, Started(o, now, files), ticks);
            && Changed(s.last, t.files) == {} && t.now >= h.lastChange + o.quiet
            && Distinct(s.pending) && (forall p :: p in s.pending <==> p in h.changed)
            && Reports(o, Started(o, now, files), ticks + [t]) ==
               Reports(o, Started(o, now, files), ticks) + [Report(t.now, s.pending)]
  {
    PendingIsWhatChanged(o, now, files, ticks);
    assert (ticks + [t])[..|ticks|] == ticks;
  }

  /** Pending changes that settle are reported at the first tick at or after `settleAt`, and at no tick before. */
  lemma {:induction false} SettledIsReported(o: Options, s: State, quiet: seq<Tick>, t: Tick)
    requires s.pending != []
    requires forall i :: 0 <= i < |quiet| ==> quiet[i].now < s.settleAt && Changed(s.last, quiet[i].files) == {}
    requires t.now >= s.settleAt && Changed(s.last, t.files) == {}
    ensures Reports(o, s, quiet) == [] && After(o, s, quiet).pending == s.pending &&
            After(o, s, quiet).settleAt == s.settleAt
    ensures After(o, s, quiet).last == After(o, s, quiet + [t]).last == s.last
    ensures Reports(o, s, quiet + [t]) == [Report(t.now, s.pending)] && After(o, s, quiet + [t]).pending == []
  {
    if quiet != [] {
      var n := |quiet| - 1;
      SettledIsReported(o, s, quiet[..n], t);
    }
    assert (quiet + [t])[..|quiet|] == quiet;
  }

  ghost predicate Mentioned(rs: seq<Report>, p: string) { exists i :: 0 <= i < |rs| && p in rs[i].paths }

  /** Over a whole run nothing seen changing is lost: it was reported or is pending. */
  lemma {:induction false} NothingIsLost(o: Options, now: int, files: Snapshot, ticks: seq<Tick>, p: string)
    requires Differs(files, After(o, Started(o, now, files), ticks).last, p)
    ensures var init := Started(o, now, files);
            Mentioned(Reports(o, init, ticks), p) || p in After(o, init, ticks).pending
  {
    var init := Started(o, now, files);
    if ticks != [] {
      var n := |ticks| - 1;
      var before, t := After(o, init, ticks[..n]), ticks[n];
      PendingIsWhatChanged(o, now, files, ticks[..n]);
      if Differs(files, before.last, p) {
        NothingIsLost(o, now, files, ticks[..n], p);
      } else {
        DiffersThrough(files, before.last, After(o, init, ticks).last, p);
      }
      if Mentioned(Reports(o, init, ticks[..n]), p) {
        var i :| 0 <= i < |Reports(o, init, ticks[..n])| && p in Reports(o, init, ticks[..n])[i].paths;
        assert Reports(o, init, ticks)[i] == Reports(o, init, ticks[..n])[i];
      } else if Scans(before, t) {
        ScannedPath(o, before, t, p);
        if Fires(o, before, t) { assert p in Reports(o, init, ticks)[|Reports(o, init, ticks[..n])|].paths; }
      }
    }
  }

  lemma ScannedPath(o: Options, s: State, t: Tick, p: string)
    requires Distinct(s.pending) && (p in s.pending || Differs(s.last, t.files, p))
    ensures p in Scanned(o, s, t).pending
  {
    var d := Changed(s.last, t.files);
    ListingLists(d);
    MergedMembers(s.pending, Listing(d));
  }

  // ---- Changes are noticed, and reported when they have settled ----

  /** The time of the tick before the i-th, or of the start. */
  function TimeBefore(start: Tick, ticks: seq<Tick>, i: nat): int
    requires i <= |ticks|
  {
    if i == 0 then start.now else ticks[i - 1].now
  }

  /** Time does not run backwards. */
  ghost predicate Clock(start: Tick, ticks: seq<Tick>) {
    forall i, j :: 0 <= i <= j <= |ticks| ==> TimeBefore(start, ticks, i) <= TimeBefore(start, ticks, j)
  }

  ghost function Init(o: Options, start: Tick): State { Started(o, start.now, start.files) }

  /** What was found at the last tick with a report, or at the start. */
  ghost function LastReported(o: Options, start: Tick, ticks: seq<Tick>): Snapshot {
    if ticks == [] then start.files else
    var n := |ticks| - 1;
    if Reports(o, Init(o, start), ticks) != Reports(o, Init(o, start), ticks[..n]) then ticks[n].files
    else LastReported(o, start, ticks[..n])
  }

  lemma NothingChanged(a: Snapshot, b: Snapshot)
    requires Changed(a, b) == {}
    ensures a == b
  {
    forall p ensures (p in a <==> p in b) && (p in a ==> a[p] == b[p]) {
      assert p !in Changed(a, b);
    }
  }

  lemma {:induction false} ReportedIsObserved(o: Options, start: Tick, ticks: seq<Tick>)
    requires o.quiet > 0
    ensures LastReported(o, start, ticks) == HistoryAfter(o, Init(o, start), ticks).reported
  {
    if ticks != [] {
      var n := |ticks| - 1;
      var s, t := After(o, Init(o, start), ticks[..n]), ticks[n];
      ReportedIsObserved(o, start, ticks[..n]);
      if Fires(o, s, t) { NothingChanged(s.last, t.files); }
    }
  }

  /** A scan is due at the latest `interval` after the tick before. */
  lemma {:induction false} ScanIsDue(o: Options, start: Tick, ticks: seq<Tick>)
    requires Clock(start, ticks)
    ensures After(o, Init(o, start), ticks).nextScan <= TimeBefore(start, ticks, |ticks|) + o.interval
  {
    if ticks != [] {
      var n := |ticks| - 1;
      EarlierClock(start, ticks, n);
      ScanIsDue(o, start, ticks[..n]);
    }
  }

  lemma EarlierClock(start: Tick, ticks: seq<Tick>, n: nat)
    requires n <= |ticks| && Clock(start, ticks)
    ensures Clock(start, ticks[..n]) && TimeBefore(start, ticks[..n], n) == TimeBefore(start, ticks, n)
  {
    forall i | 0 <= i <= n ensures TimeBefore(start, ticks[..n], i) == TimeBefore(start, ticks, i) {}
  }

  /** Since the i-th tick a report has named `p`. */
  ghost predicate NamedSince(o: Options, start: Tick, ticks: seq<Tick>, i: nat, p: string)
    requires i <= |ticks|
  {
    exists r :: NamedIn(Reports(o, Init(o, start), ticks), |Reports(o, Init(o, start), ticks[..i])|, r, p)
  }

  ghost predicate NamedIn(rs: seq<Report>, from: nat, r: int, p: string) { from <= r < |rs| && p in rs[r].paths }

  lemma NamedStays(o: Options, start: Tick, ticks: seq<Tick>, i: nat, p: string)
    requires i < |ticks| && NamedSince(o, start, ticks[..|ticks| - 1], i, p)
    ensures NamedSince(o, start, ticks, i, p)
  {
    var before := ticks[..|ticks| - 1];
    assert before[..i] == ticks[..i];
    var r :| NamedIn(Reports(o, Init(o, start), before), |Reports(o, Init(o, start), before[..i])|, r, p);
    assert NamedIn(Reports(o, Init(o, start), ticks), |Reports(o, Init(o, start), ticks[..i])|, r, p);
  }

  /** What is pending when a tick scans is pending behind it or reported. */
  lemma ScanNotices(o: Options, start: Tick, ticks: seq<Tick>, i: nat, p: string)
    requires i < |ticks| && Scans(After(o, Init(o, start), ticks[..|ticks| - 1]), ticks[|ticks| - 1])
    requires var s := After(o, Init(o, start), ticks[..|ticks| - 1]);
             p in s.pending || Differs(s.last, ticks[|ticks| - 1].files, p)
    ensures p in After(o, Init(o, start), ticks).pending || NamedSince(o, start, ticks, i, p)
  {
    var n := |ticks| - 1;
    var s, t := After(o, Init(o, start), ticks[..n]), ticks[n];
    PendingIsWhatChanged(o, start.now, start.files, ticks[..n]);
    ScannedPath(o, s, t, p);
    if Fires(o, s, t) {
      var earlier, r := Reports(o, Init(o, start), ticks[..i]), |Reports(o, Init(o, start), ticks[..n])|;
      ReportsGrow(o, Init(o, start), ticks[..n], i);
      assert ticks[..n][..i] == ticks[..i];
      assert NamedIn(Reports(o, Init(o, start), ticks), |earlier|, r, p);
    }
  }

  lemma {:induction false} ReportsGrow(o: Options, s: State, ticks: seq<Tick>, i: nat)
    requires i <= |ticks|
    ensures |Reports(o, s, ticks[..i])| <= |Reports(o, s, ticks)|
  {
    if i < |ticks| {
      ReportsGrow(o, s, ticks[..|ticks| - 1], i);
      assert ticks[..|ticks| - 1][..i] == ticks[..i];
    } else {
      assert ticks[..i] == ticks;
    }
  }

  /** From the i-th tick on, `p` is not what it was when last reported. */
  ghost predicate ChangedSince(o: Options, start: Tick, ticks: seq<Tick>, i: nat, p: string)
    requires i <= |ticks|
  {
    forall k :: i <= k < |ticks| ==> Differs(LastReported(o, start, ticks[..i]), ticks[k].files, p)
  }

  /** Until a tick scans nothing happens; from then on such a path is pending or was reported. */
  lemma {:induction false} NoticedOrIdle(o: Options, start: Tick, ticks: seq<Tick>, i: nat, p: string)
    requires o.quiet > 0 && i <= |ticks| && ChangedSince(o, start, ticks, i, p)
    ensures After(o, Init(o, start), ticks) == After(o, Init(o, start), ticks[..i]) ||
            p in After(o, Init(o, start), ticks).pending || NamedSince(o, start, ticks, i, p)
    decreases |ticks|, 1
  {
    if |ticks| == i {
      assert ticks[..i] == ticks;
    } else {
      NoticedStep(o, start, ticks, i, p);
    }
  }

  lemma {:induction false} NoticedStep(o: Options, start: Tick, ticks: seq<Tick>, i: nat, p: string)
    requires o.quiet > 0 && i < |ticks| && ChangedSince(o, start, ticks, i, p)
    ensures After(o, Init(o, start), ticks) == After(o, Init(o, start), ticks[..i]) ||
            p in After(o, Init(o, start), ticks).pending || NamedSince(o, start, ticks, i, p)
    ensures Scans(After(o, Init(o, start), ticks[..|ticks| - 1]), ticks[|ticks| - 1]) ==>
            p in After(o, Init(o, start), ticks).pending || NamedSince(o, start, ticks, i, p)
    decreases |ticks|, 0
  {
    var n := |ticks| - 1;
    var before := ticks[..n];
    var init := Init(o, start);
    var s, t := After(o, init, before), ticks[n];
    assert before[..i] == ticks[..i];
    NoticedOrIdle(o, start, before, i, p);
    if NamedSince(o, start, before, i, p) {
      NamedStays(o, start, ticks, i, p);
    } else if Scans(s, t) {
      PendingIsWhatChanged(o, start.now, start.files, ticks[..i]);
      ReportedIsObserved(o, start, ticks[..i]);
      assert Differs(LastReported(o, start, ticks[..i]), t.files, p);
      ScanNotices(o, start, ticks, i, p);
    }
  }

  /**
   * A path that from the i-th tick on is not what it was when last reported is pending or reported at the latest when
   * `interval` has passed.
   */
  lemma ChangeIsNoticed(o: Options, start: Tick, ticks: seq<Tick>, i: nat, p: string)
    requires o.quiet > 0 && Clock(start, ticks) && i < |ticks| && ChangedSince(o, start, ticks, i, p)
    requires ticks[|ticks| - 1].now >= TimeBefore(start, ticks, i) + o.interval
    ensures p in After(o, Init(o, start), ticks).pending || NamedSince(o, start, ticks, i, p)
  {
    var n := |ticks| - 1;
    var before := ticks[..n];
    EarlierClock(start, ticks, i);
    ScanIsDue(o, start, ticks[..i]);
    assert before[..i] == ticks[..i];
    NoticedOrIdle(o, start, before, i, p);
    NoticedStep(o, start, ticks, i, p);
    if NamedSince(o, start, before, i, p) {
      NamedStays(o, start, ticks, i, p);
    } else if p in After(o, Init(o, start), before).pending {
      PendingStays(o, start, ticks, i, p);
    }
  }

  lemma PendingStays(o: Options, start: Tick, ticks: seq<Tick>, i: nat, p: string)
    requires i < |ticks| && p in After(o, Init(o, start), ticks[..|ticks| - 1]).pending
    ensures p in After(o, Init(o, start), ticks).pending || NamedSince(o, start, ticks, i, p)
  {
    if Scans(After(o, Init(o, start), ticks[..|ticks| - 1]), ticks[|ticks| - 1]) { ScanNotices(o, start, ticks, i, p); }
  }

  /** From the i-th tick on, the files are `files`. */
  ghost predicate Stable(ticks: seq<Tick>, i: nat, files: Snapshot) {
    forall k :: i <= k < |ticks| ==> ticks[k].files == files
  }

  lemma {:induction false} RunSplits(o: Options, s: State, a: seq<Tick>, b: seq<Tick>)
    ensures After(o, s, a + b) == After(o, After(o, s, a), b)
    ensures Reports(o, s, a + b) == Reports(o, s, a) + Reports(o, After(o, s, a), b)
    decreases |b|
  {
    if b == [] {
      assert a + b == a;
    } else {
      assert (a + b)[..|a + b| - 1] == a + b[..|b| - 1];
      RunSplits(o, s, a, b[..|b| - 1]);
    }
  }

  /** While nothing changes and nothing is pending, nothing is reported. */
  lemma {:induction false} Idle(o: Options, s: State, ticks: seq<Tick>)
    requires s.pending == [] && Stable(ticks, 0, s.last)
    ensures After(o, s, ticks).last == s.last && After(o, s, ticks).pending == [] && Reports(o, s, ticks) == []
  {
    if ticks != [] { Idle(o, s, ticks[..|ticks| - 1]); }
  }

  /** The first tick at or after `time`. */
  lemma FirstAt(ticks: seq<Tick>, time: int) returns (k: nat)
    ensures k <= |ticks| && (k < |ticks| ==> ticks[k].now >= time) && forall j :: 0 <= j < k ==> ticks[j].now < time
  {
    k := 0;
    while k < |ticks| && ticks[k].now < time
      invariant k <= |ticks| && forall j :: 0 <= j < k ==> ticks[j].now < time
    {
      k := k + 1;
    }
  }

  /** Ticks before the next scan is due do nothing when nothing is pending. */
  lemma {:induction false} NotDue(o: Options, s: State, ticks: seq<Tick>)
    requires s.pending == [] && forall k :: 0 <= k < |ticks| ==> ticks[k].now < s.nextScan
    ensures After(o, s, ticks) == s && Reports(o, s, ticks) == []
  {
    if ticks != [] { NotDue(o, s, ticks[..|ticks| - 1]); }
  }

  /** What is reported once changes `paths` were noticed at time `noticed`: just they, once they settled. */
  ghost predicate SettledReport(o: Options, ticks: seq<Tick>, noticed: int, paths: seq<string>, reports: seq<Report>) {
    && ((forall j :: 0 <= j < |ticks| ==> ticks[j].now < noticed + o.quiet) ==> reports == [])
    && (forall j :: 0 <= j < |ticks| && FirstSettled(o, ticks, noticed, j) ==> reports == [Report(ticks[j].now, paths)])
  }

  ghost predicate FirstSettled(o: Options, ticks: seq<Tick>, noticed: int, j: nat)
    requires j < |ticks|
  {
    ticks[j].now >= noticed + o.quiet && forall m :: 0 <= m < j ==> ticks[m].now < noticed + o.quiet
  }

  /** The run up to the j-th tick, and from there. */
  lemma RunTail(o: Options, s: State, ticks: seq<Tick>, j: nat)
    requires j <= |ticks|
    ensures After(o, s, ticks) == After(o, After(o, s, ticks[..j]), ticks[j..])
    ensures Reports(o, s, ticks) == Reports(o, s, ticks[..j]) + Reports(o, After(o, s, ticks[..j]), ticks[j..])
  {
    RunSplits(o, s, ticks[..j], ticks[j..]);
    assert ticks == ticks[..j] + ticks[j..];
  }

  lemma StableParts(ticks: seq<Tick>, j: nat, files: Snapshot)
    requires j < |ticks| && Stable(ticks, 0, files)
    ensures Stable(ticks[j + 1..], 0, files) && ticks[j].files == files
    ensures forall i :: 0 <= i < j ==> ticks[..j][i].now == ticks[i].now && Changed(files, ticks[..j][i].files) == {}
    ensures Changed(files, files) == {}
  {
    forall i | 0 <= i < j ensures ticks[..j][i] == ticks[i] && Changed(files, ticks[i].files) == {} {}
  }

  /** From a state with pending changes, when the files stay: tick `j` is the first at or after `settleAt`. */
  lemma SettlesAt(o: Options, s: State, ticks: seq<Tick>, j: nat)
    requires s.pending != [] && Stable(ticks, 0, s.last)
    requires j < |ticks| && ticks[j].now >= s.settleAt && forall m :: 0 <= m < j ==> ticks[m].now < s.settleAt
    ensures Reports(o, s, ticks) == [Report(ticks[j].now, s.pending)]
  {
    StableParts(ticks, j, s.last);
    SettledIsReported(o, s, ticks[..j], ticks[j]);
    NextPrefix(ticks, j);
    RunTail(o, s, ticks, j + 1);
    Idle(o, After(o, s, ticks[..j + 1]), ticks[j + 1..]);
  }

  lemma SettlesOnce(o: Options, s: State, ticks: seq<Tick>, noticed: int)
    requires s.pending != [] && s.settleAt == noticed + o.quiet && Stable(ticks, 0, s.last)
    ensures SettledReport(o, ticks, noticed, s.pending, Reports(o, s, ticks))
  {
    var j := FirstAt(ticks, s.settleAt);
    if j < |ticks| {
      SettlesAt(o, s, ticks, j);
      assert FirstSettled(o, ticks, noticed, j);
    } else {
      SettledIsReported(o, s, ticks, Tick(s.settleAt, s.last));
    }
  }

  /**
   * The whole way of one change: files that change once, just before the i-th tick, and then stay are noticed at a tick
   * no later than `interval` after the tick before, and all of them are reported together, once, at the first tick at
   * least `quiet` after that.
   */
  lemma OneChangeOneReport(o: Options, start: Tick, ticks: seq<Tick>, i: nat, files: Snapshot) returns (k: nat)
    requires o.interval > 0 && o.quiet > 0 && Clock(start, ticks) && i < |ticks|
    requires (forall m :: 0 <= m < i ==> ticks[m].files == start.files) && Stable(ticks, i, files)
    requires Changed(start.files, files) != {}
    requires ticks[|ticks| - 1].now >= TimeBefore(start, ticks, i) + o.interval
    ensures i <= k < |ticks| && forall m :: i <= m < k ==> ticks[m].now < TimeBefore(start, ticks, i) + o.interval
    ensures SettledReport(o, ticks[k + 1..], ticks[k].now, Listing(Changed(start.files, files)),
                          Reports(o, Init(o, start), ticks))
  {
    UnchangedUntil(o, start, ticks, i);
    var s, more := After(o, Init(o, start), ticks[..i]), ticks[i..];
    assert more[|ticks| - 1 - i] == ticks[|ticks| - 1];
    var d := FirstAt(more, s.nextScan);
    k := i + d;
    forall m | i <= m < k ensures ticks[m].now < s.nextScan { assert ticks[m] == more[m - i]; }
    NoticedThenSettled(o, s, more, d, files);
    assert more[d + 1..] == ticks[k + 1..] && more[d] == ticks[k];
  }

  /** Before the change. */
  lemma UnchangedUntil(o: Options, start: Tick, ticks: seq<Tick>, i: nat)
    requires Clock(start, ticks) && i <= |ticks| && forall m :: 0 <= m < i ==> ticks[m].files == start.files
    ensures var s := After(o, Init(o, start), ticks[..i]);
            && s.pending == [] && s.last == start.files && s.nextScan <= TimeBefore(start, ticks, i) + o.interval
            && Reports(o, Init(o, start), ticks) == Reports(o, s, ticks[i..])
  {
    var init := Init(o, start);
    Idle(o, init, ticks[..i]);
    EarlierClock(start, ticks, i);
    ScanIsDue(o, start, ticks[..i]);
    RunTail(o, init, ticks, i);
  }

  /** From a state with nothing pending, when the files have changed: tick `d` is the first to scan. */
  lemma NoticedThenSettled(o: Options, s: State, ticks: seq<Tick>, d: nat, files: Snapshot)
    requires o.quiet > 0 && s.pending == [] && Stable(ticks, 0, files) && Changed(s.last, files) != {}
    requires d < |ticks| && ticks[d].now >= s.nextScan && forall j :: 0 <= j < d ==> ticks[j].now < s.nextScan
    ensures SettledReport(o, ticks[d + 1..], ticks[d].now, Listing(Changed(s.last, files)), Reports(o, s, ticks))
  {
    var paths, rest := Listing(Changed(s.last, files)), ticks[d + 1..];
    assert forall j :: 0 <= j < d ==> ticks[..d][j] == ticks[j];
    NotDue(o, s, ticks[..d]);
    RunTail(o, s, ticks, d);
    assert ticks[d..][0] == ticks[d] && ticks[d..][1..] == rest;
    NoticedFirst(o, s, ticks[d..], paths);
  }

  /** The first tick scans and finds the changes. */
  lemma NoticedFirst(o: Options, s: State, ticks: seq<Tick>, paths: seq<string>)
    requires o.quiet > 0 && s.pending == [] && ticks != [] && Stable(ticks, 0, ticks[0].files)
    requires ticks[0].now >= s.nextScan && Changed(s.last, ticks[0].files) != {}
    requires paths == Listing(Changed(s.last, ticks[0].files))
    ensures SettledReport(o, ticks[1..], ticks[0].now, paths, Reports(o, s, ticks))
  {
    ListingLists(Changed(s.last, ticks[0].files));
    MergedFresh(paths);
    NoticedNext(o, s, ticks[0]);
    OneTick(o, s, ticks[0]);
    RunTail(o, s, ticks, 1);
    assert ticks[..1] == [ticks[0]];
    SettlesOnce(o, Next(o, s, ticks[0]), ticks[1..], ticks[0].now);
  }

  lemma OneTick(o: Options, s: State, t: Tick)
    ensures After(o, s, [t]) == Next(o, s, t)
    ensures !Fires(o, s, t) ==> Reports(o, s, [t]) == []
  {
    assert [t][..0] == [];
    assert After(o, s, []) == s && Reports(o, s, []) == [];
  }

  lemma NoticedNext(o: Options, s: State, t: Tick)
    requires s.pending == [] && t.now >= s.nextScan && Changed(s.last, t.files) != {} && o.quiet > 0
    requires Merged([], Listing(Changed(s.last, t.files))) == Listing(Changed(s.last, t.files))
    ensures !Fires(o, s, t)
    ensures var s' := Next(o, s, t);
            && s'.last == t.files && s'.pending == Listing(Changed(s.last, t.files)) && s'.pending != []
            && s'.settleAt == t.now + o.quiet
  {
    ListingLists(Changed(s.last, t.files));
    EmptyListing(Listing(Changed(s.last, t.files)), Changed(s.last, t.files));
  }

  lemma MergedFresh(more: seq<string>)
    requires Distinct(more)
    ensures Merged([], more) == more
  {
    MergedDistinct([], more);
  }

  lemma {:induction false} MergedDistinct(pending: seq<string>, more: seq<string>)
    requires Distinct(pending + more)
    ensures Merged(pending, more) == pending + more
    decreases |more|
  {
    if more != [] {
      assert (pending + more)[|pending|] == more[0];
      forall j | 0 <= j < |pending| ensures pending[j] != more[0] { assert (pending + more)[j] == pending[j]; }
      assert pending + [more[0]] + more[1..] == pending + more;
      MergedDistinct(pending + [more[0]], more[1..]);
    }
  }

  // ---- After any history ----

  /** Pending changes settle at the latest `quiet` after the last tick. */
  lemma {:induction false} SettlesSoon(o: Options, start: Tick, ticks: seq<Tick>)
    requires Clock(start, ticks)
    ensures After(o, Init(o, start), ticks).pending != [] ==>
            After(o, Init(o, start), ticks).settleAt <= TimeBefore(start, ticks, |ticks|) + o.quiet
  {
    if ticks != [] {
      var n := |ticks| - 1;
      EarlierClock(start, ticks, n);
      SettlesSoon(o, start, ticks[..n]);
      var s, t := After(o, Init(o, start), ticks[..n]), ticks[n];
      assert s.pending == [] && Changed(s.last, t.files) == {} ==> Scanned(o, s, t).pending == [];
    }
  }

  /** A scan finds the files that stay. */
  lemma {:induction false} StableIsSeen(o: Options, start: Tick, ticks: seq<Tick>, i: nat, files: Snapshot)
    requires Clock(start, ticks) && i <= |ticks| && Stable(ticks, i, files)
    ensures After(o, Init(o, start), ticks) == After(o, Init(o, start), ticks[..i]) ||
            After(o, Init(o, start), ticks).last == files
    ensures i < |ticks| && ticks[|ticks| - 1].now >= TimeBefore(start, ticks, i) + o.interval ==>
            After(o, Init(o, start), ticks).last == files
  {
    var init := Init(o, start);
    if |ticks| == i {
      assert ticks[..i] == ticks;
    } else {
      var n := |ticks| - 1;
      var s, t := After(o, init, ticks[..n]), ticks[n];
      EarlierClock(start, ticks, n);
      EarlierClock(start, ticks, i);
      StableIsSeen(o, start, ticks[..n], i, files);
      assert ticks[..n][..i] == ticks[..i];
      ScanIsDue(o, start, ticks[..i]);
      if Scans(s, t) && Changed(s.last, files) == {} { NothingChanged(s.last, files); }
    }
  }

  /** `p` is on its way to be reported by time `until`. */
  ghost predicate Settling(s: State, files: Snapshot, until: int, p: string) {
    p in s.pending && s.last == files && s.settleAt <= until
  }

  lemma {:induction false} KeepsSettling(o: Options, start: Tick, ticks: seq<Tick>, i: nat, m: nat, files: Snapshot,
                                         until: int, p: string)
    requires i <= m <= |ticks| && Stable(ticks, m, files)
    requires Settling(After(o, Init(o, start), ticks[..m]), files, until, p) || NamedSince(o, start, ticks[..m], i, p)
    ensures Settling(After(o, Init(o, start), ticks), files, until, p) || NamedSince(o, start, ticks, i, p)
    ensures |ticks| > m && ticks[|ticks| - 1].now >= until ==> NamedSince(o, start, ticks, i, p)
    decreases |ticks|
  {
    if |ticks| == m {
      assert ticks[..m] == ticks;
    } else {
      var n := |ticks| - 1;
      var s, t := After(o, Init(o, start), ticks[..n]), ticks[n];
      assert ticks[..n][..m] == ticks[..m];
      KeepsSettling(o, start, ticks[..n], i, m, files, until, p);
      if NamedSince(o, start, ticks[..n], i, p) {
        NamedStays(o, start, ticks, i, p);
      } else if Scans(s, t) {
        ScanNotices(o, start, ticks, i, p);
      }
    }
  }

  /**
   * Whatever happened before: when the files stay from the i-th tick on, a path that is not what it was when last
   * reported is named in a report at the latest when `interval` and then `quiet` have passed.
   */
  lemma StableIsReported(o: Options, start: Tick, ticks: seq<Tick>, i: nat, k: nat, files: Snapshot, p: string)
    requires o.interval > 0 && o.quiet > 0 && Clock(start, ticks) && i <= k < |ticks| && Stable(ticks, i, files)
    requires Differs(LastReported(o, start, ticks[..i]), files, p)
    requires ticks[k].now >= TimeBefore(start, ticks, i) + o.interval
    requires ticks[|ticks| - 1].now >= ticks[k].now + o.quiet
    ensures NamedSince(o, start, ticks, i, p)
  {
    var seen := ticks[..k + 1];
    assert seen[..i] == ticks[..i] && seen[k] == ticks[k];
    EarlierClock(start, ticks, k + 1);
    ChangeIsNoticed(o, start, seen, i, p);
    SettlesSoon(o, start, seen);
    StableIsSeen(o, start, seen, i, files);
    KeepsSettling(o, start, ticks, i, k + 1, files, ticks[k].now + o.quiet, p);
  }
}
