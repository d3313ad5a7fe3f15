/** Depth-first search in the order literal, param, wildcard finds the most specific route. */
module RouterSearch {
  import opened Bytes
  import opened RouterSpec

  function OrElse(a: Option<nat>, b: Option<nat>): Option<nat> { if a.Some? then a else b }

  predicate Dynamic<T>(routes: seq<Route<T>>, r: nat, verb: nat) {
    r < |routes| && routes[r].verb == verb && !Static(routes[r].pattern)
  }

  /** The first dynamic route registered with exactly this pattern. */
  function First<T(==)>(routes: seq<Route<T>>, verb: nat, pattern: seq<Seg<T>>): (r: Option<nat>)
    ensures r.Some? ==> Dynamic(routes, r.value, verb) && routes[r.value].pattern == pattern
    ensures forall i: nat | Dynamic(routes, i, verb) && routes[i].pattern == pattern :: r.Some? && r.value <= i
  {
    if routes == [] then None
    else
      var n := |routes| - 1;
      var before := First(routes[..n], verb, pattern);
      if before.Some? then before
      else if routes[n].verb == verb && routes[n].pattern == pattern && !Static(pattern) then Some(n)
      else None
  }

  function Search<T(==)>(routes: seq<Route<T>>, verb: nat, prefix: seq<Seg<T>>, path: seq<T>): Option<nat>
    decreases |path|
  {
    if path == [] then First(routes, verb, prefix)
    else
      OrElse(Search(routes, verb, prefix + [Lit(path[0])], path[1..]),
             OrElse(Search(routes, verb, prefix + [Param], path[1..]), First(routes, verb, prefix + [Wild])))
  }

  /** Route r continues prefix in a way that matches the rest of the path. */
  ghost predicate Candidate<T>(routes: seq<Route<T>>, verb: nat, prefix: seq<Seg<T>>, path: seq<T>, r: nat) {
    && Dynamic(routes, r, verb)
    && prefix <= routes[r].pattern
    && Matches(routes[r].pattern[|prefix|..], path)
  }

  /** r is at least as specific beyond the first n segments, and registered no later among equals. */
  predicate Beats<T>(routes: seq<Route<T>>, n: nat, r: nat, i: nat)
    requires r < |routes| && i < |routes| && n <= |routes[r].pattern| && n <= |routes[i].pattern|
  {
    var a, b := routes[r].pattern[n..], routes[i].pattern[n..];
    AsSpecific(a, b) && (AsSpecific(b, a) ==> r <= i)
  }

  ghost predicate Best<T>(routes: seq<Route<T>>, verb: nat, prefix: seq<Seg<T>>, path: seq<T>, found: Option<nat>) {
    match found
    case None => forall i: nat :: !Candidate(routes, verb, prefix, path, i)
    case Some(r) => Candidate(routes, verb, prefix, path, r)
                    && forall i: nat | Candidate(routes, verb, prefix, path, i) :: Beats(routes, |prefix|, r, i)
  }

  ghost predicate WildsLast<T>(routes: seq<Route<T>>) {
    forall r | 0 <= r < |routes| :: WildLast(routes[r].pattern)
  }

  /** A candidate's next segment is the literal at hand, a param, or a final wildcard. */
  lemma CandidateStep<T>(routes: seq<Route<T>>, verb: nat, prefix: seq<Seg<T>>, path: seq<T>, i: nat)
    requires WildsLast(routes) && path != [] && Candidate(routes, verb, prefix, path, i)
    ensures |prefix| < |routes[i].pattern|
    ensures match routes[i].pattern[|prefix|]
            case Lit(t) => t == path[0] && Candidate(routes, verb, prefix + [Lit(path[0])], path[1..], i)
            case Param => Candidate(routes, verb, prefix + [Param], path[1..], i)
            case Wild => routes[i].pattern == prefix + [Wild]
  {
    var pattern := routes[i].pattern;
    var rest := pattern[|prefix|..];
    assert rest != [];
    var s := pattern[|prefix|];
    assert rest[0] == s && rest[1..] == pattern[|prefix| + 1..];
    assert prefix + [s] <= pattern;
    if s.Wild? {
      assert WildLast(pattern);
      assert |prefix| == |pattern| - 1;
    }
  }

  /** And whatever continues the longer prefix continues the shorter. */
  lemma CandidateBack<T>(routes: seq<Route<T>>, verb: nat, prefix: seq<Seg<T>>, s: Seg<T>, path: seq<T>, i: nat)
    requires path != [] && (s == Lit(path[0]) || s.Param?) && Candidate(routes, verb, prefix + [s], path[1..], i)
    ensures Candidate(routes, verb, prefix, path, i)
    ensures routes[i].pattern[|prefix|] == s
  {
    var pattern := routes[i].pattern;
    assert pattern[|prefix|..][0] == s;
    assert pattern[|prefix|..][1..] == pattern[|prefix + [s]|..];
  }

  lemma WildCandidate<T>(routes: seq<Route<T>>, verb: nat, prefix: seq<Seg<T>>, path: seq<T>, i: nat)
    requires path != [] && Dynamic(routes, i, verb) && routes[i].pattern == prefix + [Wild]
    ensures Candidate(routes, verb, prefix, path, i)
  {
    assert routes[i].pattern[|prefix|..] == [Wild];
  }

  /** Ranking beyond the longer prefix decides the ranking beyond the shorter. */
  lemma BeatsBack<T>(routes: seq<Route<T>>, n: nat, r: nat, i: nat)
    requires r < |routes| && i < |routes| && n < |routes[r].pattern| && n < |routes[i].pattern|
    ensures Rank(routes[r].pattern[n]) < Rank(routes[i].pattern[n]) ==> Beats(routes, n, r, i)
    ensures Rank(routes[r].pattern[n]) == Rank(routes[i].pattern[n]) && Beats(routes, n + 1, r, i) ==> Beats(routes, n, r, i)
  {
    var a, b := routes[r].pattern[n..], routes[i].pattern[n..];
    assert a[1..] == routes[r].pattern[n + 1..] && b[1..] == routes[i].pattern[n + 1..];
  }

  lemma SearchEnd<T>(routes: seq<Route<T>>, verb: nat, prefix: seq<Seg<T>>)
    ensures Best(routes, verb, prefix, [], First(routes, verb, prefix))
  {
    forall i: nat | Candidate(routes, verb, prefix, [], i)
      ensures routes[i].pattern == prefix
    {
      assert routes[i].pattern[|prefix|..] == [];
    }
    var found := First(routes, verb, prefix);
    if found.Some? {
      assert routes[found.value].pattern[|prefix|..] == [];
    }
  }

  /** One segment further: the three choices, tried in order, cover every candidate. */
  lemma SearchStep<T>(routes: seq<Route<T>>, verb: nat, prefix: seq<Seg<T>>, path: seq<T>,
                      a: Option<nat>, b: Option<nat>)
    requires WildsLast(routes) && path != []
    requires Best(routes, verb, prefix + [Lit(path[0])], path[1..], a)
    requires Best(routes, verb, prefix + [Param], path[1..], b)
    ensures Best(routes, verb, prefix, path, OrElse(a, OrElse(b, First(routes, verb, prefix + [Wild]))))
  {
    var c := First(routes, verb, prefix + [Wild]);
    var found := OrElse(a, OrElse(b, c));
    if found.Some? {
      Found(routes, verb, prefix, path, a, b);
    }
    forall i: nat | Candidate(routes, verb, prefix, path, i)
      ensures found.Some? && Beats(routes, |prefix|, found.value, i)
    {
      CandidateStep(routes, verb, prefix, path, i);
      Outranked(routes, verb, prefix, path, a, b, i);
    }
  }

  lemma Found<T>(routes: seq<Route<T>>, verb: nat, prefix: seq<Seg<T>>, path: seq<T>, a: Option<nat>, b: Option<nat>)
    requires WildsLast(routes) && path != []
    requires Best(routes, verb, prefix + [Lit(path[0])], path[1..], a)
    requires Best(routes, verb, prefix + [Param], path[1..], b)
    requires OrElse(a, OrElse(b, First(routes, verb, prefix + [Wild]))).Some?
    ensures var r := OrElse(a, OrElse(b, First(routes, verb, prefix + [Wild]))).value;
            && Candidate(routes, verb, prefix, path, r)
            && |prefix| < |routes[r].pattern|
            && routes[r].pattern[|prefix|] == (if a.Some? then Lit(path[0]) else if b.Some? then Param else Wild)
  {
    var c := First(routes, verb, prefix + [Wild]);
    if a.Some? {
      CandidateBack(routes, verb, prefix, Lit(path[0]), path, a.value);
    } else if b.Some? {
      CandidateBack(routes, verb, prefix, Param, path, b.value);
    } else {
      WildCandidate(routes, verb, prefix, path, c.value);
    }
  }

  lemma Outranked<T>(routes: seq<Route<T>>, verb: nat, prefix: seq<Seg<T>>, path: seq<T>, a: Option<nat>, b: Option<nat>, i: nat)
    requires WildsLast(routes) && path != [] && Candidate(routes, verb, prefix, path, i)
    requires Best(routes, verb, prefix + [Lit(path[0])], path[1..], a)
    requires Best(routes, verb, prefix + [Param], path[1..], b)
    ensures var found := OrElse(a, OrElse(b, First(routes, verb, prefix + [Wild])));
            found.Some? && Candidate(routes, verb, prefix, path, found.value) && Beats(routes, |prefix|, found.value, i)
  {
    var n := |prefix|;
    CandidateStep(routes, verb, prefix, path, i);
    var found := OrElse(a, OrElse(b, First(routes, verb, prefix + [Wild])));
    assert found.Some?;
    Found(routes, verb, prefix, path, a, b);
    var r := found.value;
    BeatsBack(routes, n, r, i);
    if Rank(routes[r].pattern[n]) == Rank(routes[i].pattern[n]) {
      if routes[i].pattern[n].Wild? {
        assert routes[r].pattern == routes[i].pattern == prefix + [Wild];
        assert routes[r].pattern[n + 1..] == [];
      } else {
        assert |prefix + [routes[i].pattern[n]]| == n + 1;
      }
    }
  }

  lemma {:induction false} SearchFindsBest<T>(routes: seq<Route<T>>, verb: nat, prefix: seq<Seg<T>>, path: seq<T>)
    requires WildsLast(routes)
    ensures Best(routes, verb, prefix, path, Search(routes, verb, prefix, path))
    decreases |path|
  {
    if path == [] {
      SearchEnd(routes, verb, prefix);
    } else {
      SearchFindsBest(routes, verb, prefix + [Lit(path[0])], path[1..]);
      SearchFindsBest(routes, verb, prefix + [Param], path[1..]);
      hide Best, First, OrElse;
      SearchStep(routes, verb, prefix, path, Search(routes, verb, prefix + [Lit(path[0])], path[1..]),
                 Search(routes, verb, prefix + [Param], path[1..]));
    }
  }
}
