/** Positional SQL parameters (internal/analysis/dataaccess.go). Strings are byte strings: characters below 256. */
module Positional {
  import opened Text
  import opened Ordering

  predicate IsQuote(c: char) { c == '\'' || c == '"' }

  /** `unicode.IsLetter` of a byte taken as a rune: the letters of Latin-1. */
  predicate IsLetter(c: char) {
    var b := c as int;
    || 'a' <= c <= 'z' || 'A' <= c <= 'Z'
    || b == 0xAA || b == 0xB5 || b == 0xBA
    || 0xC0 <= b <= 0xD6 || 0xD8 <= b <= 0xF6 || 0xF8 <= b <= 0xFF
  }

  predicate StartsName(c: char) { c == '_' || IsLetter(c) }

  predicate InName(c: char) { c == '_' || c == '.' || IsLetter(c) || IsDigit(c) }

  // ---- The tokens of a query ----

  datatype Token =
    | Quoted(text: string)
    | Mark                 // ?
    | Cast                 // ::
    | Named(text: string)  // :name
    | Plain(c: char)

  function Source(t: Token): string {
    match t
    case Quoted(text) => text
    case Mark => "?"
    case Cast => "::"
    case Named(text) => text
    case Plain(c) => [c]
  }

  predicate IsParameter(t: Token) { t.Mark? || t.Named? }

  /** How many bytes come before the first `c`. */
  function Before(s: string, c: char): (n: nat)
    ensures n <= |s|
  {
    if s == "" || s[0] == c then 0 else 1 + Before(s[1..], c)
  }

  lemma {:induction false} BeforeIsFirst(s: string, c: char)
    ensures var n := Before(s, c); c !in s[..n] && (n < |s| ==> s[n] == c)
  {
    if s != "" && s[0] != c {
      BeforeIsFirst(s[1..], c);
      assert s[..Before(s, c)] == [s[0]] + s[1..][..Before(s[1..], c)];
    }
  }

  /** How many bytes a name goes on for. */
  function NameLength(s: string): (n: nat)
    ensures n <= |s|
  {
    if s == "" || !InName(s[0]) then 0 else 1 + NameLength(s[1..])
  }

  lemma {:induction false} NameIsLongest(s: string)
    ensures var n := NameLength(s); (forall i :: 0 <= i < n ==> InName(s[i])) && (n < |s| ==> !InName(s[n]))
  {
    if s != "" && InName(s[0]) {
      NameIsLongest(s[1..]);
      forall i | 0 <= i < NameLength(s) ensures InName(s[i]) { assert i > 0 ==> s[i] == s[1..][i - 1]; }
    }
  }

  /** A quoted text goes on to the next quote of its kind, or to the end of the query. */
  function QuotedLength(s: string): (n: nat)
    requires s != ""
    ensures 0 < n <= |s|
  {
    var n := 2 + Before(s[1..], s[0]);
    if n <= |s| then n else |s|
  }

  function First(s: string): (t: Token)
    requires s != ""
    ensures 0 < |Source(t)| <= |s|
  {
    if IsQuote(s[0]) then Quoted(s[..QuotedLength(s)])
    else if s[0] == '?' then Mark
    else if s[0] == ':' && |s| > 1 && s[1] == ':' then Cast
    else if s[0] == ':' && |s| > 1 && StartsName(s[1]) then Named(s[..1 + NameLength(s[1..])])
    else Plain(s[0])
  }

  lemma FirstIsPrefix(s: string)
    requires s != ""
    ensures s == Source(First(s)) + s[|Source(First(s))|..]
  {
    if First(s).Cast? { assert s[..2] == "::"; }
  }

  function Tokens(s: string): seq<Token> {
    if s == "" then [] else [First(s)] + Tokens(s[|Source(First(s))|..])
  }

  function Sources(ts: seq<Token>): string { if ts == [] then "" else Source(ts[0]) + Sources(ts[1..]) }

  function Count(t: Token): nat { if IsParameter(t) then 1 else 0 }

  function Parameters(ts: seq<Token>): nat { if ts == [] then 0 else Count(ts[0]) + Parameters(ts[1..]) }

  /** What a token is rewritten to behind `n` parameters. */
  function Rewritten(t: Token, n: nat): string { if IsParameter(t) then "$" + Itoa(n + 1) else Source(t) }

  /** The tokens one after the other, each printed behind the parameters before it. */
  function Each(ts: seq<Token>, n: nat, printed: (Token, nat) -> string): string {
    if ts == [] then "" else printed(ts[0], n) + Each(ts[1..], n + Count(ts[0]), printed)
  }

  function RewrittenAll(ts: seq<Token>, n: nat): string { Each(ts, n, Rewritten) }

  lemma {:induction false} TokensAreLossless(s: string)
    ensures Sources(Tokens(s)) == s
  {
    if s != "" {
      FirstIsPrefix(s);
      TokensAreLossless(s[|Source(First(s))|..]);
    }
  }

  lemma {:induction false} ParametersPush(ts: seq<Token>, t: Token)
    ensures Parameters(ts + [t]) == Parameters(ts) + Count(t)
  {
    if ts == [] {
      assert ts + [t] == [t] && [t][1..] == [];
    } else {
      assert (ts + [t])[1..] == ts[1..] + [t];
      ParametersPush(ts[1..], t);
    }
  }

  lemma EachStep(t: Token, ts: seq<Token>, n: nat, printed: (Token, nat) -> string)
    ensures Each([t] + ts, n, printed) == printed(t, n) + Each(ts, n + Count(t), printed)
  {
    assert ([t] + ts)[1..] == ts;
  }

  lemma EachAround(first: Token, ts: seq<Token>, t: Token, n: nat, k: nat, printed: (Token, nat) -> string)
    requires Each(ts + [t], n + Count(first), printed) == Each(ts, n + Count(first), printed) + printed(t, k)
    ensures Each([first] + ts + [t], n, printed) == Each([first] + ts, n, printed) + printed(t, k)
  {
    assert [first] + ts + [t] == [first] + (ts + [t]);
    EachStep(first, ts + [t], n, printed);
    EachStep(first, ts, n, printed);
    ConcatAssoc(printed(first, n), Each(ts, n + Count(first), printed), printed(t, k));
  }

  lemma {:induction false} EachPush(ts: seq<Token>, t: Token, n: nat, printed: (Token, nat) -> string)
    ensures Each(ts + [t], n, printed) == Each(ts, n, printed) + printed(t, n + Parameters(ts))
    decreases |ts|
  {
    if ts == [] {
      assert ts + [t] == [t] + [];
      EachStep(t, [], n, printed);
    } else {
      var rest, n' := ts[1..], n + Count(ts[0]);
      assert n + Parameters(ts) == n' + Parameters(rest);
      EachPush(rest, t, n', printed);
      EachAround(ts[0], rest, t, n, n' + Parameters(rest), printed);
      assert ts == [ts[0]] + rest;
    }
  }

  lemma RewrittenStep(t: Token, ts: seq<Token>, n: nat)
    ensures RewrittenAll([t] + ts, n) == Rewritten(t, n) + RewrittenAll(ts, n + Count(t))
  {
    EachStep(t, ts, n, Rewritten);
  }

  lemma RewrittenPush(ts: seq<Token>, t: Token, n: nat)
    ensures RewrittenAll(ts + [t], n) == RewrittenAll(ts, n) + Rewritten(t, n + Parameters(ts))
  {
    EachPush(ts, t, n, Rewritten);
  }

  lemma TokensStep(s: string)
    requires s != ""
    ensures Tokens(s) == [First(s)] + Tokens(s[|Source(First(s))|..])
  {
  }

  lemma HeadAndRest(ts: seq<Token>, n: nat, t: Token, rest: seq<Token>)
    requires ts == [t] + rest
    ensures RewrittenAll(ts, n) == Rewritten(t, n) + RewrittenAll(rest, n + Count(t))
  {
    RewrittenStep(t, rest, n);
  }

  lemma RewrittenTokensStep(s: string, t: Token, rest: string, n: nat)
    requires s != "" && t == First(s) && rest == s[|Source(t)|..]
    ensures RewrittenAll(Tokens(s), n) == Rewritten(t, n) + RewrittenAll(Tokens(rest), n + Count(t))
  {
    HeadAndRest(Tokens(s), n, t, Tokens(rest));
  }

  /** The loop over a quoted text. */
  method QuotedEnd(q: string, i: nat) returns (end: nat)
    requires i < |q|
    ensures end == i + QuotedLength(q[i..])
  {
    var j := i + 1;
    assert q[i..][1..] == q[j..];
    while j < |q| && q[j] != q[i]
      invariant i < j <= |q| && Before(q[i + 1..], q[i]) == j - i - 1 + Before(q[j..], q[i])
    {
      assert q[j..][1..] == q[j + 1..];
      j := j + 1;
    }
    end := if j + 1 < |q| then j + 1 else |q|;
  }

  /** The loop over a name. */
  method NameEnd(q: string, i: nat) returns (end: nat)
    requires i <= |q|
    ensures end == i + NameLength(q[i..])
  {
    end := i;
    while end < |q| && InName(q[end])
      invariant i <= end <= |q| && NameLength(q[i..]) == end - i + NameLength(q[end..])
    {
      assert q[end..][1..] == q[end + 1..];
      end := end + 1;
    }
  }

  /** One iteration of the loop in `positional`. */
  method Rewrite(q: string, i: nat, n: nat) returns (piece: string, end: nat, m: nat)
    requires i < |q|
    ensures var t := First(q[i..]); piece == Rewritten(t, n) && end == i + |Source(t)| && m == n + Count(t)
  {
    var c := q[i];
    assert q[i..][1..] == q[i + 1..];
    m := n;
    if IsQuote(c) {
      end := QuotedEnd(q, i);
      piece := q[i..end];
    } else if c == '?' {
      m := n + 1;
      piece := "$" + Itoa(m);
      end := i + 1;
    } else if c == ':' && i + 1 < |q| && q[i + 1] == ':' {
      piece := "::";
      end := i + 2;
    } else if c == ':' && i + 1 < |q| && StartsName(q[i + 1]) {
      end := NameEnd(q, i + 1);
      m := n + 1;
      piece := "$" + Itoa(m);
    } else {
      piece := [c];
      end := i + 1;
    }
  }

  /** The tokens `done` have been rewritten to `out`, and those of `rest` are still to be. */
  ghost predicate SoFar(all: seq<Token>, done: seq<Token>, rest: string, n: nat, out: string) {
    all == done + Tokens(rest) && n == Parameters(done) && out == RewrittenAll(done, 0)
  }

  lemma NextToken(all: seq<Token>, done: seq<Token>, rest: string, n: nat, out: string)
    requires rest != "" && SoFar(all, done, rest, n, out)
    ensures var t := First(rest);
            SoFar(all, done + [t], rest[|Source(t)|..], n + Count(t), out + Rewritten(t, n))
  {
    var t := First(rest);
    ParametersPush(done, t);
    RewrittenPush(done, t, 0);
    TokensStep(rest);
    ConcatAssoc(done, [t], Tokens(rest[|Source(t)|..]));
  }

  lemma NoTokenLeft(all: seq<Token>, done: seq<Token>, n: nat, out: string)
    requires SoFar(all, done, "", n, out)
    ensures out == RewrittenAll(all, 0)
  {
    assert done + [] == done;
  }

  /** `positional`. */
  method Positional(q: string) returns (out: string)
    ensures out == RewrittenAll(Tokens(q), 0)
  {
    out := "";
    var n := 0;
    var i := 0;
    ghost var all, done: seq<Token> := Tokens(q), [];
    assert q[0..] == q;
    while i < |q|
      invariant i <= |q| && SoFar(all, done, q[i..], n, out)
    {
      NextToken(all, done, q[i..], n, out);
      ghost var t := First(q[i..]);
      var piece, end, m := Rewrite(q, i, n);
      assert q[i..][|Source(t)|..] == q[end..];
      out, i, n := out + piece, end, m;
      done := done + [t];
    }
    NoTokenLeft(all, done, n, out);
  }

  // ---- Placeholders are numbered from left to right, and all else is copied ----

  /** The k-th token's share of the result. */
  function Piece(ts: seq<Token>, k: nat): string
    requires k < |ts|
  {
    if IsParameter(ts[k]) then "$" + Itoa(Parameters(ts[..k]) + 1) else Source(ts[k])
  }

  function Pieces(ts: seq<Token>, k: nat): string
    requires k <= |ts|
  {
    if k == 0 then "" else Pieces(ts, k - 1) + Piece(ts, k - 1)
  }

  lemma {:induction false} PiecesInOrder(ts: seq<Token>, k: nat)
    requires k <= |ts|
    ensures Pieces(ts, k) == RewrittenAll(ts[..k], 0)
  {
    if k > 0 {
      PiecesInOrder(ts, k - 1);
      NextPiece(ts, k - 1);
    }
  }

  lemma NextPiece(ts: seq<Token>, k: nat)
    requires k < |ts|
    ensures RewrittenAll(ts[..k + 1], 0) == RewrittenAll(ts[..k], 0) + Piece(ts, k)
  {
    RewrittenPush(ts[..k], ts[k], 0);
    NextPrefix(ts, k);
  }

  /**
   * The query is its tokens; the i-th parameter becomes `$i` and every other token, quoted texts and casts among them,
   * stays.
   */
  lemma NumberedInOrder(q: string)
    ensures Sources(Tokens(q)) == q && Pieces(Tokens(q), |Tokens(q)|) == RewrittenAll(Tokens(q), 0)
  {
    TokensAreLossless(q);
    PiecesInOrder(Tokens(q), |Tokens(q)|);
    assert Tokens(q)[..|Tokens(q)|] == Tokens(q);
  }

  // ---- Rewriting again changes nothing ----

  /** A result starts as its query does, or with a placeholder. */
  lemma RewrittenHead(s: string, n: nat)
    ensures var out := RewrittenAll(Tokens(s), n);
            if s == "" then out == "" else out != "" && (out[0] == s[0] || out[0] == '$')
  {
  }

  lemma PlainAdds(c: char, s: string)
    requires First([c] + s) == Plain(c)
    ensures Parameters(Tokens([c] + s)) == Parameters(Tokens(s))
  {
    assert ([c] + s)[1..] == s;
    assert Tokens([c] + s)[1..] == Tokens(s);
  }

  lemma {:induction false} DigitsAdd(ds: string, s: string)
    requires forall c :: c in ds ==> IsDigit(c)
    ensures Parameters(Tokens(ds + s)) == Parameters(Tokens(s))
    decreases |ds|
  {
    if ds == "" {
      assert ds + s == s;
    } else {
      assert ds + s == [ds[0]] + (ds[1..] + s) && ds[0] in ds;
      PlainAdds(ds[0], ds[1..] + s);
      DigitsAdd(ds[1..], s);
    }
  }

  lemma {:induction false} BeforeAppend(s: string, c: char, rest: string)
    ensures Before(s, c) < |s| ==> Before(s + rest, c) == Before(s, c)
  {
    if s != "" && s[0] != c {
      assert (s + rest)[1..] == s[1..] + rest;
      BeforeAppend(s[1..], c, rest);
    }
  }

  /** A quoted text is still one behind a change of what follows it; an unterminated one has nothing behind it. */
  lemma QuotedAdds(s: string, rest: string)
    requires s != "" && IsQuote(s[0]) && (QuotedLength(s) == |s| ==> rest == "")
    ensures Parameters(Tokens(s[..QuotedLength(s)] + rest)) == Parameters(Tokens(rest))
  {
    var text := s[..QuotedLength(s)];
    var b := Before(s[1..], s[0]);
    if rest == "" {
      assert text + rest == text;
      QuotedAlone(s);
      assert Tokens(text)[1..] == Tokens("");
    } else {
      assert text[1..] == s[1..][..b + 1];
      BeforeOnPrefix(s[1..], s[0], b + 1);
      BeforeAppend(text[1..], s[0], rest);
      assert (text + rest)[1..] == text[1..] + rest;
      assert QuotedLength(text + rest) == |text|;
      assert (text + rest)[..|text|] == text && (text + rest)[|text|..] == rest;
      assert Tokens(text + rest)[1..] == Tokens(rest);
    }
  }

  lemma {:induction false} BeforeOnPrefix(s: string, c: char, k: nat)
    requires k <= |s|
    ensures Before(s[..k], c) == if Before(s, c) < k then Before(s, c) else k
  {
    if k > 0 && s[0] != c {
      assert s[..k][1..] == s[1..][..k - 1];
      BeforeOnPrefix(s[1..], c, k - 1);
    }
  }

  lemma QuotedAlone(s: string)
    requires s != "" && IsQuote(s[0])
    ensures var text := s[..QuotedLength(s)]; First(text) == Quoted(text)
  {
    var text := s[..QuotedLength(s)];
    assert text[1..] == s[1..][..|text| - 1];
    BeforeOnPrefix(s[1..], s[0], |text| - 1);
    assert text[..|text|] == text;
  }

  /** What a token is rewritten to brings in no parameter, given how the result goes on. */
  lemma RewrittenAdds(s: string, n: nat, out: string)
    requires s != ""
    requires var rest := s[|Source(First(s))|..];
             if rest == "" then out == "" else out != "" && (out[0] == rest[0] || out[0] == '$')
    ensures Parameters(Tokens(Rewritten(First(s), n) + out)) == Parameters(Tokens(out))
  {
    match First(s) {
      case Quoted(text) => QuotedAdds(s, out);
      case Cast => CastAdds(out);
      case Plain(c) =>
        assert ([c] + out)[1..] == out;
        PlainAdds(c, out);
      case _ => NumberAdds(n + 1, out);
    }
  }

  lemma CastAdds(s: string)
    ensures Parameters(Tokens("::" + s)) == Parameters(Tokens(s))
  {
    assert ("::" + s)[2..] == s;
    assert Tokens("::" + s)[1..] == Tokens(s);
  }

  lemma NumberAdds(n: nat, s: string)
    ensures Parameters(Tokens(("$" + Itoa(n)) + s)) == Parameters(Tokens(s))
  {
    assert ("$" + Itoa(n)) + s == ['$'] + (Itoa(n) + s);
    PlainAdds('$', Itoa(n) + s);
    DigitsAdd(Itoa(n), s);
  }

  lemma NoneAdded(s: string, t: Token, rest: string, n: nat, out: string, all: string)
    requires s != "" && t == First(s) && rest == s[|Source(t)|..]
    requires out == RewrittenAll(Tokens(rest), n + Count(t)) && all == Rewritten(t, n) + out
    ensures Parameters(Tokens(all)) == Parameters(Tokens(out))
  {
    RewrittenHead(rest, n + Count(t));
    RewrittenAdds(s, n, out);
  }

  /** The result has no parameter left to rewrite. */
  lemma {:induction false} NoneLeft(s: string, n: nat)
    ensures Parameters(Tokens(RewrittenAll(Tokens(s), n))) == 0
    decreases |s|
  {
    if s != "" {
      var t := First(s);
      var rest := s[|Source(t)|..];
      var out := RewrittenAll(Tokens(rest), n + Count(t));
      NoneLeft(rest, n + Count(t));
      RewrittenTokensStep(s, t, rest, n);
      NoneAdded(s, t, rest, n, out, RewrittenAll(Tokens(s), n));
    }
  }

  lemma {:induction false} NothingToRewrite(ts: seq<Token>, n: nat)
    requires Parameters(ts) == 0
    ensures RewrittenAll(ts, n) == Sources(ts)
    decreases |ts|
  {
    if ts != [] {
      NothingToRewrite(ts[1..], n);
    }
  }

  /** `positional` of a result is that result, and finds no parameter in it. */
  lemma Idempotent(q: string)
    ensures var out := RewrittenAll(Tokens(q), 0); RewrittenAll(Tokens(out), 0) == out && Parameters(Tokens(out)) == 0
  {
    var out := RewrittenAll(Tokens(q), 0);
    NoneLeft(q, 0);
    NothingToRewrite(Tokens(out), 0);
    TokensAreLossless(out);
  }
}
