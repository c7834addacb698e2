/** How well route patterns match request paths (internal/analysis/pages.go). */
module RouteMatch {
  import opened Text
  import opened Ordering
  import opened Patterns

  function TrimLeft(s: string): string { if s != "" && s[0] == '/' then TrimLeft(s[1..]) else s }

  function TrimRight(s: string): string { if s != "" && s[|s| - 1] == '/' then TrimRight(s[..|s| - 1]) else s }

  function Segments(s: string): (segments: seq<string>)
    ensures |segments| > 0
  {
    Split(TrimRight(TrimLeft(s)), '/')
  }

  /** Starts with "{" and ends with "}". */
  predicate IsWildcard(p: string) { p != "" && p[0] == '{' && p[|p| - 1] == '}' }

  /** A wildcard for the rest of the path: it ends with "...}". */
  predicate IsRest(p: string) {
    IsWildcard(p) && |p| >= 4 && p[|p| - 4] == '.' && p[|p| - 3] == '.' && p[|p| - 2] == '.'
  }

  predicate IsRoot(pattern: string) { pattern == "/" || pattern == "/{$}" }

  /** What a path segment scores against a pattern segment; 0 when they do not match. */
  function SegmentScore(p: string, u: string): nat {
    if u == p then 3
    else if IsWildcard(p) && u != "" then 2
    else if Contains(u, UNKNOWN) then 1
    else 0
  }

  // ---- What the scores mean ----

  /** How many leading segments match one by one, up to a rest wildcard. */
  function Matched(ps: seq<string>, us: seq<string>): nat {
    if ps == [] || us == [] || IsRest(ps[0]) || SegmentScore(ps[0], us[0]) == 0 then 0
    else 1 + Matched(ps[1..], us[1..])
  }

  lemma {:induction false} MatchedSegments(ps: seq<string>, us: seq<string>)
    ensures var k := Matched(ps, us);
            && k <= |ps| && k <= |us|
            && (forall i :: 0 <= i < k ==> !IsRest(ps[i]) && SegmentScore(ps[i], us[i]) > 0)
            && (k < |ps| && k < |us| ==> IsRest(ps[k]) || SegmentScore(ps[k], us[k]) == 0)
  {
    if ps != [] && us != [] && !IsRest(ps[0]) && SegmentScore(ps[0], us[0]) > 0 { MatchedSegments(ps[1..], us[1..]); }
  }

  /** The total score of the first `k` segments. */
  function Total(ps: seq<string>, us: seq<string>, k: nat): nat
    requires k <= |ps| && k <= |us|
  {
    if k == 0 then 0 else Total(ps, us, k - 1) + SegmentScore(ps[k - 1], us[k - 1])
  }

  /** How many of the first `k` segments are the same. */
  function Literals(ps: seq<string>, us: seq<string>, k: nat): (n: nat)
    requires k <= |ps| && k <= |us|
    ensures n <= k
  {
    if k == 0 then 0 else Literals(ps, us, k - 1) + if ps[k - 1] == us[k - 1] then 1 else 0
  }

  /** The end of a pattern that the segments behind an unknown prefix are matched with. */
  function Tail(ps: seq<string>, us: seq<string>): seq<string>
    requires 0 < |us| <= |ps|
  {
    ps[|ps| - |us| + 1..]
  }

  predicate EndsAlike(ps: seq<string>, us: seq<string>) {
    && |us| >= 2 && us[0] == UNKNOWN && |ps| >= |us|
    && forall i :: 0 <= i < |us| - 1 ==> SegmentScore(Tail(ps, us)[i], us[1..][i]) > 0
  }

  function SuffixScore(ps: seq<string>, us: seq<string>): nat {
    if EndsAlike(ps, us) then Literals(Tail(ps, us), us[1..], |us| - 1) else 0
  }

  /** The ways a pattern other than the root pattern can match. */
  datatype Match = Whole(score: nat) | RestOf(score: nat) | Suffix(score: nat) | NoMatch

  function Points(m: Match): nat {
    match m
    case Whole(score) => score
    case RestOf(score) => score
    case Suffix(score) => score
    case NoMatch => 0
  }

  function MatchOf(ps: seq<string>, us: seq<string>): Match {
    MatchedSegments(ps, us);
    var k := Matched(ps, us);
    if k < |ps| && IsRest(ps[k]) then
      if k < |us| && Literals(ps, us, k) > 0 then RestOf(Total(ps, us, k) + 1) else NoMatch
    else if k == |ps| == |us| && Literals(ps, us, k) > 0 then Whole(Total(ps, us, k))
    else if SuffixScore(ps, us) > 0 then Suffix(SuffixScore(ps, us))
    else NoMatch
  }

  function Score(pattern: string, path: string): nat {
    if IsRoot(pattern) then (if path == "/" then 3 else 0)
    else Points(MatchOf(Segments(pattern), Segments(path)))
  }

  // ---- The algorithms ----

  /** The first `i` segments match one by one. */
  ghost predicate AllMatch(ps: seq<string>, us: seq<string>, i: nat) {
    i <= |ps| && i <= |us| && forall j :: 0 <= j < i ==> !IsRest(ps[j]) && SegmentScore(ps[j], us[j]) > 0
  }

  lemma {:induction false} MatchedFrom(ps: seq<string>, us: seq<string>, i: nat)
    requires AllMatch(ps, us, i)
    ensures Matched(ps, us) == i + Matched(ps[i..], us[i..])
  {
    if i > 0 {
      assert AllMatch(ps[1..], us[1..], i - 1);
      MatchedFrom(ps[1..], us[1..], i - 1);
      assert ps[1..][i - 1..] == ps[i..] && us[1..][i - 1..] == us[i..];
    }
  }

  lemma MatchedStops(ps: seq<string>, us: seq<string>, i: nat)
    requires AllMatch(ps, us, i)
    requires i == |ps| || i == |us| || IsRest(ps[i]) || SegmentScore(ps[i], us[i]) == 0
    ensures Matched(ps, us) == i
  {
    MatchedFrom(ps, us, i);
  }

  /** The cases both loops distinguish. */
  method ScoreSegment(p: string, u: string) returns (score: nat)
    ensures score == SegmentScore(p, u)
  {
    if u == p { return 3; }
    if IsWildcard(p) && u != "" { return 2; }
    return if Contains(u, UNKNOWN) then 1 else 0;
  }

  /** `matchScore`. */
  method MatchScore(pattern: string, path: string) returns (result: nat)
    ensures result == Score(pattern, path)
  {
    if IsRoot(pattern) {
      return if path == "/" then 3 else 0;
    }
    result := MatchSegments(Segments(pattern), Segments(path));
  }

  lemma EndsAtRest(ps: seq<string>, us: seq<string>, i: nat)
    requires AllMatch(ps, us, i) && i < |ps| && IsRest(ps[i])
    ensures Points(MatchOf(ps, us)) == if i >= |us| || Literals(ps, us, i) == 0 then 0 else Total(ps, us, i) + 1
  {
    MatchedStops(ps, us, i);
  }

  lemma EndsAtMismatch(ps: seq<string>, us: seq<string>, i: nat)
    requires AllMatch(ps, us, i) && i < |ps| && !IsRest(ps[i]) && (i == |us| || SegmentScore(ps[i], us[i]) == 0)
    ensures Points(MatchOf(ps, us)) == SuffixScore(ps, us)
  {
    MatchedStops(ps, us, i);
  }

  lemma EndsWithPattern(ps: seq<string>, us: seq<string>)
    requires AllMatch(ps, us, |ps|)
    ensures Points(MatchOf(ps, us)) ==
            if |us| != |ps| || Literals(ps, us, |ps|) == 0 then SuffixScore(ps, us) else Total(ps, us, |ps|)
  {
    MatchedStops(ps, us, |ps|);
  }

  lemma NextMatches(ps: seq<string>, us: seq<string>, i: nat)
    requires AllMatch(ps, us, i) && i < |ps| && i < |us| && !IsRest(ps[i]) && SegmentScore(ps[i], us[i]) > 0
    ensures AllMatch(ps, us, i + 1) && Total(ps, us, i + 1) == Total(ps, us, i) + SegmentScore(ps[i], us[i])
    ensures Literals(ps, us, i + 1) == Literals(ps, us, i) + if ps[i] == us[i] then 1 else 0
  {
  }

  /** The loop over the segments. */
  method MatchSegments(ps: seq<string>, us: seq<string>) returns (result: nat)
    ensures result == Points(MatchOf(ps, us))
  {
    var score, literals := 0, 0;
    for i := 0 to |ps|
      invariant AllMatch(ps, us, i) && score == Total(ps, us, i) && literals == Literals(ps, us, i)
    {
      var p := ps[i];
      var rest := IsRest(p);
      if rest {
        EndsAtRest(ps, us, i);
        return if i >= |us| || literals == 0 then 0 else score + 1;
      }
      var more := 0;
      if i < |us| { more := ScoreSegment(p, us[i]); }
      if more == 0 {
        EndsAtMismatch(ps, us, i);
        result := ScoreSuffix(ps, us);
        return;
      }
      NextMatches(ps, us, i);
      score := score + more;
      if us[i] == p { literals := literals + 1; }
    }
    EndsWithPattern(ps, us);
    if |us| != |ps| || literals == 0 {
      result := ScoreSuffix(ps, us);
      return;
    }
    return score;
  }

  /** `suffixScore`. */
  method ScoreSuffix(ps: seq<string>, us: seq<string>) returns (literals: nat)
    ensures literals == SuffixScore(ps, us)
  {
    if |us| < 2 || us[0] != UNKNOWN || |ps| < |us| { return 0; }
    var tail, rest := ps[|ps| - |us| + 1..], us[1..];
    literals := 0;
    for i := 0 to |rest|
      invariant literals == Literals(tail, rest, i)
      invariant forall j :: 0 <= j < i ==> SegmentScore(tail[j], rest[j]) > 0
    {
      var more := ScoreSegment(tail[i], rest[i]);
      if more == 0 { return 0; }
      if rest[i] == tail[i] { literals := literals + 1; }
    }
  }

  // ---- The order of the scores ----

  lemma {:induction false} TotalBounds(ps: seq<string>, us: seq<string>, k: nat)
    requires k <= |ps| && k <= |us|
    ensures Total(ps, us, k) <= 3 * k
    ensures Total(ps, us, k) == 3 * k <==> forall i :: 0 <= i < k ==> ps[i] == us[i]
    ensures (forall i :: 0 <= i < k ==> SegmentScore(ps[i], us[i]) > 0) ==>
            Total(ps, us, k) >= k + 2 * Literals(ps, us, k)
  {
    if k > 0 { TotalBounds(ps, us, k - 1); }
  }

  /**
   * A whole-length match of n segments scores from n+2 to 3n, a rest match less than 3n, a suffix match at most n-1.
   */
  lemma ScoresAreRanked(ps: seq<string>, us: seq<string>)
    requires us != []
    ensures var n := |us|;
            match MatchOf(ps, us)
            case Whole(score) => n + 2 <= score <= 3 * n
            case RestOf(score) => 4 <= score <= 3 * n - 2
            case Suffix(score) => 1 <= score <= n - 1
            case NoMatch => true
  {
    var k := Matched(ps, us);
    MatchedSegments(ps, us);
    TotalBounds(ps, us, k);
  }

  /** No pattern scores above three times the number of segments. */
  lemma ScoreBound(pattern: string, path: string)
    requires path != "/"
    ensures Score(pattern, path) <= 3 * |Segments(path)|
  {
    ScoresAreRanked(Segments(pattern), Segments(path));
  }

  /** Exactly the patterns with the path's own segments reach that, when none of these looks like a rest wildcard. */
  lemma BestScoreIsLiteral(pattern: string, path: string)
    requires path != "/"
    ensures Score(pattern, path) == 3 * |Segments(path)| <==>
            !IsRoot(pattern) && Segments(pattern) == Segments(path) && forall u :: u in Segments(path) ==> !IsRest(u)
  {
    var ps, us := Segments(pattern), Segments(path);
    ScoresAreRanked(ps, us);
    MatchedSegments(ps, us);
    var k := Matched(ps, us);
    TotalBounds(ps, us, k);
    if MatchOf(ps, us).Whole? && Total(ps, us, k) == 3 * k {
      assert ps == us;
      forall u | u in us ensures !IsRest(u) { var i :| 0 <= i < |us| && us[i] == u; }
    }
    if ps == us && forall u :: u in us ==> !IsRest(u) {
      SameSegmentsMatch(us);
      LiteralsOfSame(us, |us|);
    }
  }

  // ---- When a pattern matches ----

  /** A segment fits a pattern's when they are the same, the pattern's is a wildcard, or its own is partly unknown. */
  predicate Fits(p: string, u: string) { u == p || (IsWildcard(p) && u != "") || Contains(u, UNKNOWN) }

  /** The first `k` segments fit, none of the pattern's being a rest wildcard. */
  ghost predicate FitsUpTo(ps: seq<string>, us: seq<string>, k: int) {
    0 <= k <= |ps| && k <= |us| && forall i :: 0 <= i < k ==> !IsRest(ps[i]) && Fits(ps[i], us[i])
  }

  ghost predicate SharesOne(ps: seq<string>, us: seq<string>, k: int) {
    exists i :: 0 <= i < k && i < |ps| && i < |us| && ps[i] == us[i]
  }

  /** The pattern has a rest wildcard behind `k` segments that fit. */
  ghost predicate RestAt(ps: seq<string>, us: seq<string>, k: int) {
    FitsUpTo(ps, us, k) && k < |ps| && IsRest(ps[k])
  }

  /** The segments behind an unknown first one fit the end of the pattern. */
  ghost predicate EndFits(ps: seq<string>, us: seq<string>) {
    && |us| >= 2 && us[0] == UNKNOWN && |ps| >= |us|
    && (forall i :: 0 <= i < |us| - 1 ==> Fits(Tail(ps, us)[i], us[i + 1]))
    && SharesOne(Tail(ps, us), us[1..], |us| - 1)
  }

  lemma {:induction false} LiteralsShared(ps: seq<string>, us: seq<string>, k: nat)
    requires k <= |ps| && k <= |us|
    ensures Literals(ps, us, k) > 0 <==> SharesOne(ps, us, k)
  {
    if k > 0 {
      LiteralsShared(ps, us, k - 1);
      if SharesOne(ps, us, k - 1) {
        var i :| 0 <= i < k - 1 && i < |ps| && i < |us| && ps[i] == us[i];
        assert SharesOne(ps, us, k);
      }
    }
  }

  lemma SuffixFits(ps: seq<string>, us: seq<string>)
    ensures SuffixScore(ps, us) > 0 <==> EndFits(ps, us)
  {
    if |us| >= 2 && |ps| >= |us| {
      LiteralsShared(Tail(ps, us), us[1..], |us| - 1);
      assert forall i :: 0 <= i < |us| - 1 ==> us[1..][i] == us[i + 1];
    }
  }

  lemma MatchedFits(ps: seq<string>, us: seq<string>, k: nat)
    requires FitsUpTo(ps, us, k)
    requires k == |ps| || k == |us| || IsRest(ps[k]) || !Fits(ps[k], us[k])
    ensures Matched(ps, us) == k
  {
    MatchedStops(ps, us, k);
  }

  /**
   * A pattern other than the root's matches exactly when a literal segment is shared and all segments fit: those before
   * its first rest wildcard, if that is reached, or else all of both, or those behind an unknown first one at its end.
   */
  lemma MatchesExactly(ps: seq<string>, us: seq<string>)
    ensures Points(MatchOf(ps, us)) > 0 <==>
            || (exists k :: RestAt(ps, us, k) && k < |us| && SharesOne(ps, us, k))
            || (|ps| == |us| && FitsUpTo(ps, us, |ps|) && SharesOne(ps, us, |ps|))
            || (EndFits(ps, us) && !exists k :: RestAt(ps, us, k))
  {
    var k := Matched(ps, us);
    MatchedSegments(ps, us);
    TotalBounds(ps, us, k);
    LiteralsShared(ps, us, k);
    SuffixFits(ps, us);
    assert FitsUpTo(ps, us, k);
    forall j | RestAt(ps, us, j) ensures j == k { MatchedFits(ps, us, j); }
    if |ps| == |us| && FitsUpTo(ps, us, |ps|) { MatchedFits(ps, us, |ps|); }
    if k < |ps| && IsRest(ps[k]) { assert RestAt(ps, us, k); }
  }

  lemma {:induction false} SameSegmentsMatch(us: seq<string>)
    requires forall u :: u in us ==> !IsRest(u)
    ensures Matched(us, us) == |us|
  {
    if us != [] { SameSegmentsMatch(us[1..]); }
  }

  lemma {:induction false} LiteralsOfSame(us: seq<string>, k: nat)
    requires k <= |us|
    ensures Literals(us, us, k) == k
  {
    if k > 0 { LiteralsOfSame(us, k - 1); }
  }

  // ---- The path of a URL ----

  const NUL: char := 0 as char // what `{?}` is masked by

  /** What comes before the query string and the fragment. */
  function BeforeQuery(u: string): string {
    if u == "" || u[0] == '?' || u[0] == '#' then "" else [u[0]] + BeforeQuery(u[1..])
  }

  /** The URL without query string and fragment, where `{?}` is no query string. */
  function Bare(u: string): string {
    ReplaceAll(BeforeQuery(ReplaceAll(u, UNKNOWN, [NUL])), [NUL], UNKNOWN)
  }

  /** `urlPath`: "" stands for a URL that leads elsewhere. */
  function UrlPath(u: string): string {
    var bare := Bare(u);
    if Contains(bare, "://") || "//" <= bare then ""
    else if UNKNOWN + "/" <= bare then "/" + bare
    else if !("/" <= bare) then ""
    else bare
  }

  predicate NoQuery(s: string) { forall c :: c in s ==> c != '?' && c != '#' }

  lemma {:induction false} BeforeQueryHasNone(u: string)
    ensures NoQuery(BeforeQuery(u))
  {
    if u != "" && u[0] != '?' && u[0] != '#' { BeforeQueryHasNone(u[1..]); }
  }

  lemma NoQueryRest(s: string)
    requires NoQuery(s) && s != ""
    ensures NoQuery(s[1..]) && s == [s[0]] + s[1..] && s[0] != '?' && s[0] != '#'
  {
    assert s[0] in s;
    forall c | c in s[1..] ensures c in s { assert s == [s[0]] + s[1..]; }
  }

  lemma {:induction false} BeforeQueryKeeps(s: string)
    requires NoQuery(s)
    ensures BeforeQuery(s) == s
  {
    if s != "" {
      NoQueryRest(s);
      BeforeQueryKeeps(s[1..]);
    }
  }

  /** Masking `{?}` undoes unmasking. */
  lemma {:induction false} MaskedBack(s: string)
    requires NoQuery(s)
    ensures ReplaceAll(ReplaceAll(s, [NUL], UNKNOWN), UNKNOWN, [NUL]) == s
  {
    if s != "" {
      NoQueryRest(s);
      var rest := ReplaceAll(s[1..], [NUL], UNKNOWN);
      MaskedBack(s[1..]);
      if s[0] == NUL {
        assert [NUL] <= s && (UNKNOWN + rest)[3..] == rest;
      } else {
        assert !([NUL] <= s);
        UnmaskedHead(s[1..]);
        assert ([s[0]] + rest)[1..] == rest;
        assert !(UNKNOWN <= [s[0]] + rest);
      }
    }
  }

  lemma UnmaskedHead(s: string)
    requires NoQuery(s)
    ensures var t := ReplaceAll(s, [NUL], UNKNOWN); t != "" ==> t[0] != '?'
  {
    if s != "" { assert s[0] in s; }
  }

  /** A bare URL is its own. */
  lemma BareTwice(u: string)
    ensures Bare(Bare(u)) == Bare(u)
  {
    var cut := BeforeQuery(ReplaceAll(u, UNKNOWN, [NUL]));
    BeforeQueryHasNone(ReplaceAll(u, UNKNOWN, [NUL]));
    MaskedBack(cut);
    BeforeQueryKeeps(cut);
  }

  lemma BareRooted(s: string)
    ensures Bare("/" + s) == "/" + Bare(s)
  {
    var t := "/" + s;
    assert t[0] == '/' && UNKNOWN[0] == '{' && t[1..] == s && !(UNKNOWN <= t);
    var m := ReplaceAll(s, UNKNOWN, [NUL]);
    assert ReplaceAll(t, UNKNOWN, [NUL]) == ['/'] + m;
    assert (['/'] + m)[1..] == m;
    var c := BeforeQuery(m);
    assert BeforeQuery(['/'] + m) == ['/'] + c;
    assert (['/'] + c)[0] != NUL && (['/'] + c)[1..] == c && !([NUL] <= ['/'] + c);
  }

  lemma NoScheme(s: string)
    requires !Contains(s, "://")
    ensures !Contains("/" + s, "://")
  {
    var t := "/" + s;
    forall i | 0 <= i <= |t| - 3 ensures !OccursAt(t, "://", i) {
      if i == 0 {
        assert t[0..3][0] == '/';
      } else {
        assert t[i..i + 3] == s[i - 1..i + 2];
        assert !OccursAt(s, "://", i - 1);
      }
    }
  }

  /** The path of a URL is "" or rooted, and its own path: no host, scheme, query string or fragment is left. */
  lemma UrlPathIsPath(u: string)
    ensures UrlPath(UrlPath(u)) == UrlPath(u)
    ensures UrlPath(u) != "" ==> "/" <= UrlPath(u) && !("//" <= UrlPath(u)) && !Contains(UrlPath(u), "://")
    ensures UrlPath(u) != "" ==> Bare(UrlPath(u)) == UrlPath(u)
  {
    var bare := Bare(u);
    BareTwice(u);
    if UrlPath(u) == "/" + bare {
      BareRooted(bare);
      if !Contains(bare, "://") { NoScheme(bare); }
    }
    assert Bare("") == "";
  }

  /** The text a masked path stands for. */
  function Unmasked(s: string): string { ReplaceAll(s, [NUL], UNKNOWN) }

  /** A URL whose path is that of `path`, where `{?}` is masked, and whose query string or fragment is `rest`. */
  predicate Parts(path: string, rest: string) {
    && NoQuery(path) && (rest == "" || rest[0] == '?' || rest[0] == '#')
    && !(path != "" && path[|path| - 1] == '{' && "?}" <= rest)
  }

  lemma {:induction false} MaskedParts(path: string, rest: string)
    requires Parts(path, rest)
    ensures BeforeQuery(ReplaceAll(Unmasked(path) + rest, UNKNOWN, [NUL])) == path
  {
    if path == "" {
      assert Unmasked(path) + rest == rest;
      assert !(UNKNOWN <= rest);
    } else {
      NoQueryRest(path);
      MaskedParts(path[1..], rest);
      MaskedFirst(path, rest);
      var masked := ReplaceAll(Unmasked(path[1..]) + rest, UNKNOWN, [NUL]);
      assert ([path[0]] + masked)[1..] == masked;
    }
  }

  lemma MaskedFirst(path: string, rest: string)
    requires path != "" && Parts(path, rest)
    ensures ReplaceAll(Unmasked(path) + rest, UNKNOWN, [NUL]) ==
            [path[0]] + ReplaceAll(Unmasked(path[1..]) + rest, UNKNOWN, [NUL])
  {
    var more := Unmasked(path[1..]);
    if path[0] == NUL {
      assert [NUL] <= path && UNKNOWN + more + rest == UNKNOWN + (more + rest);
      MaskedMark(more + rest);
    } else {
      assert !([NUL] <= path) && [path[0]] + more + rest == [path[0]] + (more + rest);
      NoMark(path, more, rest);
      MaskedChar(path[0], more + rest);
    }
  }

  lemma MaskedMark(t: string)
    ensures ReplaceAll(UNKNOWN + t, UNKNOWN, [NUL]) == [NUL] + ReplaceAll(t, UNKNOWN, [NUL])
  {
    assert (UNKNOWN + t)[3..] == t;
  }

  lemma MaskedChar(c: char, t: string)
    requires !(UNKNOWN <= [c] + t)
    ensures ReplaceAll([c] + t, UNKNOWN, [NUL]) == [c] + ReplaceAll(t, UNKNOWN, [NUL])
  {
    assert ([c] + t)[1..] == t;
  }

  lemma NoMark(path: string, more: string, rest: string)
    requires path != "" && path[0] != NUL && Parts(path, rest) && more == Unmasked(path[1..])
    ensures !(UNKNOWN <= [path[0]] + (more + rest))
  {
    NoQueryRest(path);
    UnmaskedHead(path[1..]);
    if more == "" {
      assert path[1..] == "";
      assert more + rest == rest && ([path[0]] + rest)[1..] == rest;
    } else {
      assert ([path[0]] + (more + rest))[1] == more[0];
    }
  }

  /** A rooted path is its own, `{?}` in front is a segment, and "" stands for all other URLs. */
  lemma UrlPathOf(path: string, rest: string)
    requires Parts(path, rest)
    ensures var p := Unmasked(path);
            var u := UrlPath(p + rest);
            && ("/" <= p && !("//" <= p) && !Contains(p, "://") ==> u == p)
            && (UNKNOWN + "/" <= p && !Contains(p, "://") ==> u == "/" + p)
            && (u == "" <==> Contains(p, "://") || "//" <= p || !("/" <= p || UNKNOWN + "/" <= p))
  {
    MaskedParts(path, rest);
    var p := Unmasked(path);
    assert Bare(p + rest) == p;
    assert UNKNOWN + "/" <= p ==> p[0] == '{';
  }

  /** Every URL without the masking character is of that form. */
  lemma {:induction false} UrlHasParts(u: string) returns (path: string, rest: string)
    requires NUL !in u
    ensures Parts(path, rest) && u == Unmasked(path) + rest
  {
    if u == "" || u[0] == '?' || u[0] == '#' {
      path, rest := "", u;
    } else if UNKNOWN <= u {
      var more;
      more, rest := UrlHasParts(u[3..]);
      path := [NUL] + more;
      UnmaskedMark(more, rest);
      assert u == UNKNOWN + u[3..];
    } else {
      var more;
      more, rest := UrlHasParts(u[1..]);
      path := [u[0]] + more;
      assert u == [u[0]] + u[1..] && u[0] in u;
      UnmaskedChar(u[0], more, rest);
    }
  }

  lemma UnmaskedMark(more: string, rest: string)
    requires Parts(more, rest)
    ensures Parts([NUL] + more, rest) && Unmasked([NUL] + more) + rest == UNKNOWN + (Unmasked(more) + rest)
  {
    assert ([NUL] + more)[1..] == more && [NUL] <= [NUL] + more;
  }

  lemma UnmaskedChar(c: char, more: string, rest: string)
    requires Parts(more, rest) && c != NUL && c != '?' && c != '#' && !(UNKNOWN <= [c] + (Unmasked(more) + rest))
    ensures Parts([c] + more, rest) && Unmasked([c] + more) + rest == [c] + (Unmasked(more) + rest)
  {
    assert ([c] + more)[1..] == more && ([c] + more)[0] == c && [NUL][0] == NUL;
  }

  // ---- Choosing a route ----

  /** A pattern of a route that a request's method may go to. */
  datatype Route = Route(verb: string, pattern: string, variants: seq<string>)

  function Key(r: Route): string { r.verb + " " + r.pattern }

  predicate Serves(r: Route, verb: string) { r.verb == verb || r.verb == "ANY" || (verb == "" && r.verb == "GET") }

  /** A pattern to try against a path, for a route. */
  datatype Candidate = Candidate(route: Route, pattern: string, path: string, score: nat)

  ghost predicate Scored(c: Candidate) { c.score == Score(c.pattern, c.path) }

  function Try(r: Route, pattern: string, path: string): Candidate { Candidate(r, pattern, path, Score(pattern, path)) }

  function PatternsOf(r: Route, ps: seq<string>, path: string): seq<Candidate> {
    if ps == [] then [] else PatternsOf(r, ps[..|ps| - 1], path) + [Try(r, ps[|ps| - 1], path)]
  }

  function RoutesOf(rs: seq<Route>, verb: string, path: string): seq<Candidate> {
    if rs == [] then []
    else
      var r := rs[|rs| - 1];
      RoutesOf(rs[..|rs| - 1], verb, path) +
      if Serves(r, verb) then PatternsOf(r, [r.pattern] + r.variants, path) else []
  }

  /** Everything that is tried, in order. */
  function Candidates(rs: seq<Route>, verb: string, urls: seq<string>): seq<Candidate> {
    if urls == [] then []
    else
      var path := UrlPath(urls[|urls| - 1]);
      Candidates(rs, verb, urls[..|urls| - 1]) + if path == "" then [] else RoutesOf(rs, verb, path)
  }

  /** The key and score of the first candidate that scores best, if any scores. */
  ghost predicate IsBest(cs: seq<Candidate>, best: string, bestScore: nat) {
    && (forall i :: 0 <= i < |cs| ==> cs[i].score <= bestScore)
    && (bestScore == 0 ==> best == "")
    && (bestScore > 0 ==> exists i :: FirstBest(cs, i, best, bestScore))
  }

  ghost predicate FirstBest(cs: seq<Candidate>, i: int, best: string, bestScore: nat) {
    && 0 <= i < |cs| && cs[i].score == bestScore && best == Key(cs[i].route)
    && forall j :: 0 <= j < i ==> cs[j].score < bestScore
  }

  lemma BestPush(cs: seq<Candidate>, c: Candidate, best: string, bestScore: nat)
    requires IsBest(cs, best, bestScore)
    ensures if c.score > bestScore then IsBest(cs + [c], Key(c.route), c.score) else IsBest(cs + [c], best, bestScore)
  {
    if c.score > bestScore {
      assert FirstBest(cs + [c], |cs|, Key(c.route), c.score);
    } else if bestScore > 0 {
      var i :| FirstBest(cs, i, best, bestScore);
      assert FirstBest(cs + [c], i, best, bestScore);
    }
  }

  lemma NothingMore(cs: seq<Candidate>)
    ensures cs + [] == cs
  {
  }

  /** `matchRoute`. */
  method MatchRoute(routes: seq<Route>, verb: string, urls: seq<string>) returns (best: string)
    ensures exists score: nat :: IsBest(Candidates(routes, verb, urls), best, score)
  {
    best := "";
    var score := 0;
    for i := 0 to |urls|
      invariant IsBest(Candidates(routes, verb, urls[..i]), best, score)
    {
      NextPrefix(urls, i);
      var path := UrlPath(urls[i]);
      NothingMore(Candidates(routes, verb, urls[..i]));
      if path == "" { continue; }
      best, score := TryRoutes(Candidates(routes, verb, urls[..i]), routes, verb, path, best, score);
    }
    WholePrefix(urls);
  }

  /** The loop over the routes. */
  method TryRoutes(ghost before: seq<Candidate>, routes: seq<Route>, verb: string, path: string, best0: string,
                   score0: nat)
      returns (best: string, score: nat)
    requires IsBest(before, best0, score0)
    ensures IsBest(before + RoutesOf(routes, verb, path), best, score)
  {
    best, score := best0, score0;
    NothingMore(before);
    for i := 0 to |routes|
      invariant IsBest(before + RoutesOf(routes[..i], verb, path), best, score)
    {
      NextPrefix(routes, i);
      ghost var tried := RoutesOf(routes[..i], verb, path);
      NothingMore(tried);
      if !Serves(routes[i], verb) { continue; }
      best, score := TryPatterns(before + tried, routes[i], path, best, score);
      ConcatAssoc(before, tried, PatternsOf(routes[i], [routes[i].pattern] + routes[i].variants, path));
    }
    WholePrefix(routes);
  }

  lemma TryNext(before: seq<Candidate>, r: Route, ps: seq<string>, i: nat, path: string, best: string, score: nat)
    requires i < |ps| && IsBest(before + PatternsOf(r, ps[..i], path), best, score)
    ensures var all := before + PatternsOf(r, ps[..i + 1], path);
            if Score(ps[i], path) > score then IsBest(all, Key(r), Score(ps[i], path)) else IsBest(all, best, score)
  {
    var tried := PatternsOf(r, ps[..i], path);
    var c := Try(r, ps[i], path);
    NextPrefix(ps, i);
    assert ps[..i + 1][..i] == ps[..i];
    BestPush(before + tried, c, best, score);
    ConcatAssoc(before, tried, [c]);
  }

  lemma NothingTried(before: seq<Candidate>, r: Route, ps: seq<string>, path: string)
    ensures before + PatternsOf(r, ps[..0], path) == before
  {
    NothingMore(before);
  }

  /** The loop over one route's patterns. */
  method TryPatterns(ghost before: seq<Candidate>, r: Route, path: string, best0: string, score0: nat)
    returns (best: string, score: nat)
    requires IsBest(before, best0, score0)
    ensures IsBest(before + PatternsOf(r, [r.pattern] + r.variants, path), best, score)
  {
    best, score := best0, score0;
    var patterns := [r.pattern] + r.variants;
    NothingTried(before, r, patterns, path);
    for i := 0 to |patterns|
      invariant IsBest(before + PatternsOf(r, patterns[..i], path), best, score)
    {
      TryNext(before, r, patterns, i, path, best, score);
      var s := MatchScore(patterns[i], path);
      if s > score { best, score := Key(r), s; }
    }
    WholePrefix(patterns);
  }

  /** Everything tried has its score, and the path of one of the URLs. */
  lemma {:induction false} CandidatesAreScored(rs: seq<Route>, verb: string, urls: seq<string>, c: Candidate)
    requires c in Candidates(rs, verb, urls)
    ensures Scored(c) && exists u :: u in urls && c.path == UrlPath(u) != ""
  {
    var n := |urls| - 1;
    if c in Candidates(rs, verb, urls[..n]) {
      CandidatesAreScored(rs, verb, urls[..n], c);
    } else {
      RoutesAreScored(rs, verb, UrlPath(urls[n]), c);
      assert urls[n] in urls;
    }
  }

  lemma {:induction false} RoutesAreScored(rs: seq<Route>, verb: string, path: string, c: Candidate)
    requires c in RoutesOf(rs, verb, path)
    ensures Scored(c) && c.path == path && Serves(c.route, verb)
  {
    var n := |rs| - 1;
    if c in RoutesOf(rs[..n], verb, path) {
      RoutesAreScored(rs[..n], verb, path, c);
    } else {
      PatternsAreScored(rs[n], [rs[n].pattern] + rs[n].variants, path, c);
    }
  }

  lemma {:induction false} PatternsAreScored(r: Route, ps: seq<string>, path: string, c: Candidate)
    requires c in PatternsOf(r, ps, path)
    ensures Scored(c) && c.path == path && c.route == r
  {
    if c in PatternsOf(r, ps[..|ps| - 1], path) { PatternsAreScored(r, ps[..|ps| - 1], path, c); }
  }

  /** When one path is matched at its whole length by some candidate, the route chosen was not matched by a suffix. */
  lemma WholeBeatsSuffix(cs: seq<Candidate>, i: nat, j: nat, bestScore: nat, best: string)
    requires IsBest(cs, best, bestScore) && i < |cs| && FirstBest(cs, j, best, bestScore)
    requires Scored(cs[i]) && Scored(cs[j])
    requires cs[i].path == cs[j].path && !IsRoot(cs[i].pattern) &&
             MatchOf(Segments(cs[i].pattern), Segments(cs[i].path)).Whole?
    ensures cs[i].path != "/" ==>
            !IsRoot(cs[j].pattern) && !MatchOf(Segments(cs[j].pattern), Segments(cs[j].path)).Suffix?
  {
    ScoresAreRanked(Segments(cs[i].pattern), Segments(cs[i].path));
    ScoresAreRanked(Segments(cs[j].pattern), Segments(cs[j].path));
    assert cs[i].score <= bestScore;
  }
}
