/** Which route a path selects, stated without any table or trie. */
module RouterSpec {
  import opened Bytes

  const MAX_PARAMS: nat := 16
  const MAX_ROUTES: nat := 4096
  const MAX_SEGMENTS: nat := 32
  const MAX_METHODS: nat := 8
  const SLASH: byte := 47

  // ---- paths ----

  datatype Span = Span(lo: nat, hi: nat)

  predicate Within(p: seq<byte>, s: seq<Span>) { forall k | 0 <= k < |s| :: s[k].lo < s[k].hi <= |p| }

  function NextSlash(p: seq<byte>, i: nat): (j: nat)
    requires i <= |p|
    ensures i <= j <= |p| && (forall k | i <= k < j :: p[k] != SLASH) && (j < |p| ==> p[j] == SLASH)
    decreases |p| - i
  {
    if i == |p| || p[i] == SLASH then i else NextSlash(p, i + 1)
  }

  /** The non-empty stretches between slashes, from i on. */
  function SpansFrom(p: seq<byte>, i: nat): (s: seq<Span>)
    ensures Within(p, s)
    decreases |p| - i
  {
    if i >= |p| then []
    else
      var j := NextSlash(p, i);
      (if j > i then [Span(i, j)] else []) + SpansFrom(p, j + 1)
  }

  function Spans(p: seq<byte>): (s: seq<Span>)
    ensures Within(p, s)
  {
    SpansFrom(p, 0)
  }

  function TextsOf(p: seq<byte>, s: seq<Span>): (t: seq<seq<byte>>)
    requires Within(p, s)
    ensures |t| == |s| && forall k | 0 <= k < |s| :: t[k] == p[s[k].lo..s[k].hi]
  {
    seq(|s|, k requires 0 <= k < |s| => p[s[k].lo..s[k].hi])
  }

  function Texts(p: seq<byte>): seq<seq<byte>> { TextsOf(p, Spans(p)) }

  /** A text that can stand between two slashes. */
  predicate Clean(t: seq<byte>) { t != [] && SLASH !in t }

  /** The path with these segments, written without repetition or trailing slash. */
  function Joined(texts: seq<seq<byte>>): seq<byte> {
    if texts == [] then [] else [SLASH] + texts[0] + Joined(texts[1..])
  }

  // ---- patterns, over any kind of literal ----

  datatype Seg<T> = Lit(text: T) | Param | Wild

  predicate Matches<T(==)>(pattern: seq<Seg<T>>, path: seq<T>) {
    if pattern == [] then path == []
    else if path == [] then false
    else match pattern[0]
      case Lit(t) => t == path[0] && Matches(pattern[1..], path[1..])
      case Param => Matches(pattern[1..], path[1..])
      case Wild => true
  }

  function Rank<T>(s: Seg<T>): nat {
    match s
    case Lit(_) => 0
    case Param => 1
    case Wild => 2
  }

  /** More specific or alike: at the first place where the kinds differ, a is literal against param, or either against wildcard. */
  predicate AsSpecific<T>(a: seq<Seg<T>>, b: seq<Seg<T>>) {
    || a == []
    || (b != [] && (Rank(a[0]) < Rank(b[0]) || (Rank(a[0]) == Rank(b[0]) && AsSpecific(a[1..], b[1..]))))
  }

  /** A wildcard stands only at the end. */
  predicate WildLast<T>(pattern: seq<Seg<T>>) {
    forall i | 0 <= i < |pattern| - 1 :: !pattern[i].Wild?
  }

  predicate Static<T>(pattern: seq<Seg<T>>) { forall i | 0 <= i < |pattern| :: pattern[i].Lit? }

  function Params<T>(pattern: seq<Seg<T>>): nat {
    if pattern == [] then 0 else Params(pattern[..|pattern| - 1]) + (if pattern[|pattern| - 1].Param? then 1 else 0)
  }

  datatype Route<T> = Route(verb: nat, pattern: seq<Seg<T>>)

  // ---- what a match captures ----

  /** The segments under the params, in order. */
  function Captures<T>(pattern: seq<Seg<T>>, texts: seq<seq<byte>>): (v: seq<seq<byte>>)
    requires |pattern| <= |texts|
    ensures |v| == Params(pattern)
  {
    if pattern == [] then []
    else
      var n := |pattern| - 1;
      Captures(pattern[..n], texts) + (if pattern[n].Param? then [texts[n]] else [])
  }

  /** With a wildcard, also the rest of the path as it was written, unless all places are taken. */
  function Values<T>(pattern: seq<Seg<T>>, p: seq<byte>): (v: seq<seq<byte>>)
    requires |pattern| <= |Spans(p)|
  {
    var n := |pattern|;
    if n > 0 && pattern[n - 1].Wild? && Params(pattern[..n - 1]) < MAX_PARAMS
    then Captures(pattern[..n - 1], Texts(p)) + [p[Spans(p)[n - 1].lo..]]
    else Captures(pattern, Texts(p))
  }

  lemma {:induction false} MatchNeedsSegments<T>(pattern: seq<Seg<T>>, path: seq<T>)
    requires Matches(pattern, path) && WildLast(pattern)
    ensures |pattern| <= |path|
  {
    if pattern != [] && !pattern[0].Wild? {
      assert WildLast(pattern[1..]) by {
        forall i | 0 <= i < |pattern[1..]| - 1 ensures !pattern[1..][i].Wild? { assert !pattern[i + 1].Wild?; }
      }
      MatchNeedsSegments(pattern[1..], path[1..]);
    }
  }

  /** The value of each param is the segment at its own position. */
  lemma {:induction false} CapturedInPlace<T>(pattern: seq<Seg<T>>, texts: seq<seq<byte>>, i: nat)
    requires |pattern| <= |texts| && i < |pattern| && pattern[i].Param?
    ensures Params(pattern[..i]) < Params(pattern)
    ensures Captures(pattern, texts)[Params(pattern[..i])] == texts[i]
  {
    var n := |pattern| - 1;
    if i < n {
      assert pattern[..n][..i] == pattern[..i];
      CapturedInPlace(pattern[..n], texts, i);
    }
  }

  // ---- splitting ----

  /** A leading slash makes no difference. */
  lemma LeadingSlash(p: seq<byte>)
    requires p != [] && p[0] == SLASH
    ensures SpansFrom(p, 1) == Spans(p)
  {
  }

  /** The same spans, n octets further on. */
  function Moved(spans: seq<Span>, n: nat): (r: seq<Span>)
    ensures |r| == |spans| && forall k | 0 <= k < |spans| :: r[k] == Span(n + spans[k].lo, n + spans[k].hi)
  {
    seq(|spans|, k requires 0 <= k < |spans| => Span(n + spans[k].lo, n + spans[k].hi))
  }

  lemma MovedFirst(s: Span, rest: seq<Span>, n: nat)
    ensures Moved([s] + rest, n) == [Span(n + s.lo, n + s.hi)] + Moved(rest, n)
  {
  }

  lemma {:induction false} SpansShift(a: seq<byte>, p: seq<byte>, i: nat)
    ensures SpansFrom(a + p, |a| + i) == Moved(SpansFrom(p, i), |a|)
    decreases |p| - i
  {
    hide NextSlash, Moved, SpansFrom, Within;
    if i < |p| {
      var j := NextSlash(p, i);
      SlashShift(a, p, i);
      SpansShift(a, p, j + 1);
      SpansAt(p, i);
      SpansAt(a + p, |a| + i);
      assert SpansFrom(a + p, |a| + j + 1) == Moved(SpansFrom(p, j + 1), |a|);
      MovedFirst(Span(i, j), SpansFrom(p, j + 1), |a|);
      NothingFirst(SpansFrom(p, j + 1), SpansFrom(a + p, |a| + j + 1));
    } else {
      SpansPast(p, i);
      SpansPast(a + p, |a| + i);
    }
  }

  lemma NothingFirst<T>(s: seq<T>, t: seq<T>)
    ensures [] + s == s && [] + t == t
  {
  }

  lemma SpansPast(p: seq<byte>, i: nat)
    requires i >= |p|
    ensures SpansFrom(p, i) == [] && Moved(SpansFrom(p, i), |p|) == []
    ensures forall n: nat :: Moved([], n) == []
  {
  }

  lemma SpansAt(p: seq<byte>, i: nat)
    requires i < |p|
    ensures var j := NextSlash(p, i); SpansFrom(p, i) == (if j > i then [Span(i, j)] else []) + SpansFrom(p, j + 1)
  {
    hide NextSlash;
  }

  lemma {:induction false} SlashShift(a: seq<byte>, p: seq<byte>, i: nat)
    requires i <= |p|
    ensures NextSlash(a + p, |a| + i) == |a| + NextSlash(p, i)
    decreases |p| - i
  {
    if i < |p| && p[i] != SLASH {
      SlashShift(a, p, i + 1);
    }
  }

  /** Splitting undoes joining. */
  lemma {:induction false} SplitUndoesJoin(texts: seq<seq<byte>>)
    requires forall t | t in texts :: Clean(t)
    ensures Texts(Joined(texts)) == texts
  {
    hide Clean, Texts;
    if texts == [] {
      assert Texts([]) == [] by { NoTexts(); }
    } else {
      var t, rest := texts[0], Joined(texts[1..]);
      SplitUndoesJoin(texts[1..]);
      assert Joined(texts) == [SLASH] + t + rest;
      JoinedFirst(t, rest);
      assert texts == [t] + texts[1..];
    }
  }

  lemma NoTexts()
    ensures Texts([]) == []
  {
  }

  /** One segment and its slash in front of the rest. */
  lemma JoinedFirst(t: seq<byte>, rest: seq<byte>)
    requires Clean(t) && (rest == [] || rest[0] == SLASH)
    ensures Texts([SLASH] + t + rest) == [t] + Texts(rest)
  {
    var a := [SLASH] + t;
    var p := a + rest;
    assert forall k | 1 <= k < |a| :: p[k] == t[k - 1] != SLASH;
    hide SpansFrom, NextSlash, Texts;
    LeadingSlash(p);
    FirstStretch(p, 1, |a|);
    RestSpans(a, rest);
    JoinedPieces(a, t, rest);
  }

  lemma FirstStretch(p: seq<byte>, i: nat, j: nat)
    requires i < j <= |p| && (forall k | i <= k < j :: p[k] != SLASH) && (j < |p| ==> p[j] == SLASH)
    ensures SpansFrom(p, i) == [Span(i, j)] + SpansFrom(p, j + 1)
  {
    var n := NextSlash(p, i);
    assert n == j;
  }

  /** After a segment comes the end or a slash. */
  lemma RestSpans(a: seq<byte>, rest: seq<byte>)
    requires rest == [] || rest[0] == SLASH
    ensures SpansFrom(a + rest, |a| + 1) == Moved(Spans(rest), |a|)
  {
    hide NextSlash, Moved;
    SpansShift(a, rest, 1);
    if rest != [] {
      LeadingSlash(rest);
    }
  }

  lemma JoinedPieces(a: seq<byte>, t: seq<byte>, rest: seq<byte>)
    requires a == [SLASH] + t
    requires Spans(a + rest) == [Span(1, |a|)] + SpansFrom(a + rest, |a| + 1)
    requires SpansFrom(a + rest, |a| + 1) == Moved(Spans(rest), |a|)
    ensures Texts(a + rest) == [t] + Texts(rest)
  {
    hide Spans, SpansFrom, TextsOf, Moved;
    var p := a + rest;
    assert p[1..|a|] == t;
    TextsMoved(a, rest, Spans(rest));
    TextsFirst(p, Span(1, |a|), Moved(Spans(rest), |a|));
  }

  lemma TextsFirst(p: seq<byte>, s: Span, rest: seq<Span>)
    requires Within(p, [s] + rest) && Within(p, rest)
    ensures s.lo <= s.hi <= |p| && TextsOf(p, [s] + rest) == [p[s.lo..s.hi]] + TextsOf(p, rest)
  {
    assert ([s] + rest)[0] == s;
  }

  lemma TextsMoved(a: seq<byte>, rest: seq<byte>, spans: seq<Span>)
    requires Within(rest, spans)
    ensures Within(a + rest, Moved(spans, |a|)) && TextsOf(a + rest, Moved(spans, |a|)) == TextsOf(rest, spans)
  {
    var moved := Moved(spans, |a|);
    forall k | 0 <= k < |spans| ensures (a + rest)[moved[k].lo..moved[k].hi] == rest[spans[k].lo..spans[k].hi] {
      TailSlice(a, rest, spans[k].lo, spans[k].hi);
    }
  }

  lemma TailSlice(a: seq<byte>, rest: seq<byte>, lo: nat, hi: nat)
    requires lo <= hi <= |rest|
    ensures (a + rest)[|a| + lo..|a| + hi] == rest[lo..hi]
  {
  }
}
