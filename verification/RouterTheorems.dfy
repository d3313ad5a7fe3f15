/** Both tiers of the router together pick the most specific matching route. */
module RouterTheorems {
  import opened Bytes
  import opened RouterSpec
  import opened RouterSearch
  import opened RouterTrie
  import opened Routing

  ghost predicate Applies(routes: seq<Route<Text>>, verb: nat, path: seq<Text>, r: nat) {
    r < |routes| && routes[r].verb == verb && Matches(routes[r].pattern, path)
  }

  /** No static route shares its key with the request unless it is the request. */
  ghost predicate CollisionFree(h: Hash, routes: seq<Route<Text>>, verb: nat, path: seq<Text>) {
    forall r: nat | r < |routes| && Static(routes[r].pattern)
                    && StaticKey(h, routes[r].verb, Literals(routes[r].pattern)) == StaticKey(h, verb, path) ::
      routes[r].verb == verb && Literals(routes[r].pattern) == path
  }

  ghost predicate StaticsDistinct(routes: seq<Route<Text>>) {
    forall i: nat, j: nat | i < j < |routes| && Static(routes[i].pattern) && routes[i].verb == routes[j].verb ::
      routes[i].pattern != routes[j].pattern
  }

  // ---- the static tier ----

  /** The table holds, for each key, a static route that has it. */
  lemma {:induction false} TableHolds(h: Hash, keepFirst: bool, routes: seq<Route<Text>>, n: nat)
    requires n <= |routes|
    ensures forall key | key in StaticTable(h, keepFirst, routes, n) ::
              var r := StaticTable(h, keepFirst, routes, n)[key];
              r < n && Static(routes[r].pattern) && StaticKey(h, routes[r].verb, Literals(routes[r].pattern)) == key
    ensures forall r: nat | r < n && Static(routes[r].pattern) ::
              StaticKey(h, routes[r].verb, Literals(routes[r].pattern)) in StaticTable(h, keepFirst, routes, n)
  {
    hide StaticKey;
    if n > 0 {
      TableHolds(h, keepFirst, routes, n - 1);
    }
  }

  /** A table that keeps its first insert holds the first of the routes that share a key. */
  lemma {:induction false} TableHoldsFirst(h: Hash, routes: seq<Route<Text>>, n: nat, i: nat)
    requires i < n <= |routes| && Static(routes[i].pattern)
    ensures var key := StaticKey(h, routes[i].verb, Literals(routes[i].pattern));
            key in StaticTable(h, true, routes, n) && StaticTable(h, true, routes, n)[key] <= i
  {
    hide StaticKey;
    if i < n - 1 {
      TableHoldsFirst(h, routes, n - 1, i);
    } else {
      TableHolds(h, true, routes, i);
    }
  }

  lemma {:induction false} StaticMatches(pattern: seq<Seg<Text>>, path: seq<Text>)
    requires Static(pattern)
    ensures Matches(pattern, path) <==> Literals(pattern) == path
  {
    if pattern == [] {
    } else if path != [] {
      StaticMatches(pattern[1..], path[1..]);
      assert Literals(pattern[1..]) == Literals(pattern)[1..];
      assert Literals(pattern) == [pattern[0].text] + Literals(pattern)[1..];
      assert path == [path[0]] + path[1..];
    }
  }

  /** Nothing beats a pattern of literals, and only such a pattern ties with it. */
  lemma {:induction false} StaticIsBest(a: seq<Seg<Text>>, b: seq<Seg<Text>>, path: seq<Text>)
    requires Static(a) && Matches(a, path) && Matches(b, path)
    ensures AsSpecific(a, b)
    ensures AsSpecific(b, a) ==> a == b
  {
    if a != [] && b[0].Lit? {
      StaticIsBest(a[1..], b[1..], path[1..]);
      assert a == [a[0]] + a[1..] && b == [b[0]] + b[1..];
    }
  }

  lemma {:induction false} StaticCapturesNothing(pattern: seq<Seg<Text>>, texts: seq<Text>)
    requires Static(pattern) && |pattern| <= |texts|
    ensures Captures(pattern, texts) == []
  {
    if pattern != [] {
      StaticCapturesNothing(pattern[..|pattern| - 1], texts);
    }
  }

  // ---- the rule ----

  /** What match is for: none only if none applies; else the most specific, first registered among equals, with its captures. */
  ghost predicate Right(routes: seq<Route<Text>>, verb: nat, path: seq<byte>, res: MatchResult) {
    match res
    case Missed => forall i: nat :: !Applies(routes, verb, Texts(path), i)
    case Hit(r, values) =>
      && Applies(routes, verb, Texts(path), r)
      && Chosen(routes, path, r, values)
      && forall i: nat | Applies(routes, verb, Texts(path), i) ::
           && AsSpecific(routes[r].pattern, routes[i].pattern)
           && (AsSpecific(routes[i].pattern, routes[r].pattern) ==> r <= i)
  }

  lemma StaticHitIsRight(h: Hash, keepFirst: bool, routes: seq<Route<Text>>, verb: nat, path: seq<byte>)
    requires RoutesOk(routes) && CollisionFree(h, routes, verb, Texts(path)) && (keepFirst || StaticsDistinct(routes))
    requires StaticKey(h, verb, Texts(path)) in StaticTable(h, keepFirst, routes, |routes|)
    ensures Right(routes, verb, path, Hit(StaticTable(h, keepFirst, routes, |routes|)[StaticKey(h, verb, Texts(path))], []))
  {
    TableHolds(h, keepFirst, routes, |routes|);
    forall i: nat | i < |routes| && Static(routes[i].pattern) && keepFirst
      ensures StaticTable(h, keepFirst, routes, |routes|)[StaticKey(h, routes[i].verb, Literals(routes[i].pattern))] <= i
    {
      TableHoldsFirst(h, routes, |routes|, i);
    }
    var r := StaticTable(h, keepFirst, routes, |routes|)[StaticKey(h, verb, Texts(path))];
    hide StaticKey, StaticTable, Texts;
    var pattern := routes[r].pattern;
    StaticMatches(pattern, Texts(path));
    assert |pattern| == |Literals(pattern)|;
    SpansAndTexts(path);
    StaticCapturesNothing(pattern, Texts(path));
    assert pattern == [] || !pattern[|pattern| - 1].Wild?;
    forall i: nat | Applies(routes, verb, Texts(path), i)
      ensures && AsSpecific(pattern, routes[i].pattern)
              && (AsSpecific(routes[i].pattern, pattern) ==> r <= i)
    {
      StaticIsBest(pattern, routes[i].pattern, Texts(path));
    }
  }

  /** Off the static table, only dynamic routes apply, and the search ranks those. */
  lemma SearchIsRight(h: Hash, keepFirst: bool, routes: seq<Route<Text>>, verb: nat, path: seq<byte>, res: MatchResult)
    requires RoutesOk(routes) && StaticKey(h, verb, Texts(path)) !in StaticTable(h, keepFirst, routes, |routes|)
    requires match Search(routes, verb, [], Texts(path))
             case None => res == Missed
             case Some(r) => res.Hit? && res.route == r && Chosen(routes, path, r, res.values)
    ensures Right(routes, verb, path, res)
  {
    hide StaticKey, StaticTable, Texts, Search, Chosen, Right, RouteOk;
    OnlyDynamic(h, keepFirst, routes, verb, path);
    assert WildsLast(routes) by { AllWildLast(routes); }
    SearchFindsBest(routes, verb, [], Texts(path));
    BestIsRight(routes, verb, path, Search(routes, verb, [], Texts(path)), res);
  }

  lemma AllWildLast(routes: seq<Route<Text>>)
    requires RoutesOk(routes)
    ensures WildsLast(routes)
  {
    forall r | 0 <= r < |routes| ensures WildLast(routes[r].pattern) { assert RouteOk(routes[r]); }
  }

  /** To continue the empty prefix is to apply. */
  lemma CandidateApplies(routes: seq<Route<Text>>, verb: nat, path: seq<Text>, i: nat)
    requires Applies(routes, verb, path, i) ==> Dynamic(routes, i, verb)
    ensures Candidate(routes, verb, [], path, i) <==> Applies(routes, verb, path, i)
  {
    hide Matches, Static;
    if i < |routes| {
      assert routes[i].pattern[0..] == routes[i].pattern;
    }
  }

  lemma BeatsWhole(routes: seq<Route<Text>>, r: nat, i: nat)
    requires r < |routes| && i < |routes| && Beats(routes, 0, r, i)
    ensures AsSpecific(routes[r].pattern, routes[i].pattern)
    ensures AsSpecific(routes[i].pattern, routes[r].pattern) ==> r <= i
  {
    hide AsSpecific;
    assert routes[r].pattern[0..] == routes[r].pattern && routes[i].pattern[0..] == routes[i].pattern;
  }

  lemma BestIsRight(routes: seq<Route<Text>>, verb: nat, path: seq<byte>, found: Option<nat>, res: MatchResult)
    requires Best(routes, verb, [], Texts(path), found)
    requires forall i: nat | Applies(routes, verb, Texts(path), i) :: Dynamic(routes, i, verb)
    requires match found
             case None => res == Missed
             case Some(r) => res.Hit? && res.route == r && Chosen(routes, path, r, res.values)
    ensures Right(routes, verb, path, res)
  {
    hide Texts, Chosen, Matches, Candidate, Dynamic, AsSpecific, Beats;
    forall i: nat ensures Candidate(routes, verb, [], Texts(path), i) <==> Applies(routes, verb, Texts(path), i) {
      CandidateApplies(routes, verb, Texts(path), i);
    }
    if res.Hit? {
      forall i: nat | Applies(routes, verb, Texts(path), i)
        ensures && AsSpecific(routes[res.route].pattern, routes[i].pattern)
                && (AsSpecific(routes[i].pattern, routes[res.route].pattern) ==> res.route <= i)
      {
        assert Candidate(routes, verb, [], Texts(path), i);
        BeatsWhole(routes, res.route, i);
      }
    }
  }

  lemma OnlyDynamic(h: Hash, keepFirst: bool, routes: seq<Route<Text>>, verb: nat, path: seq<byte>)
    requires StaticKey(h, verb, Texts(path)) !in StaticTable(h, keepFirst, routes, |routes|)
    ensures forall i: nat | Applies(routes, verb, Texts(path), i) :: Dynamic(routes, i, verb)
  {
    TableHolds(h, keepFirst, routes, |routes|);
    forall i: nat | Applies(routes, verb, Texts(path), i) ensures !Static(routes[i].pattern) {
      if Static(routes[i].pattern) {
        StaticMatches(routes[i].pattern, Texts(path));
      }
    }
  }

  predicate Wildcard(pattern: seq<Seg<Text>>) { pattern != [] && pattern[|pattern| - 1].Wild? }

  lemma {:induction false} ShortPatternNeedsWildcard(pattern: seq<Seg<Text>>, path: seq<Text>)
    requires Matches(pattern, path) && |pattern| < |path|
    ensures exists i | 0 <= i < |pattern| :: pattern[i].Wild?
  {
    if pattern != [] && !pattern[0].Wild? {
      ShortPatternNeedsWildcard(pattern[1..], path[1..]);
      var i :| 0 <= i < |pattern[1..]| && pattern[1..][i].Wild?;
      assert pattern[i + 1].Wild?;
    }
  }

  /** The requests that match turns away unseen: an empty path, and one too deep for the walk. */
  ghost predicate TurnedAway(routes: seq<Route<Text>>, verb: nat, path: seq<byte>) {
    exists r: nat :: Applies(routes, verb, Texts(path), r)
                     && (path == [] || (|Texts(path)| > MAX_SEGMENTS && Wildcard(routes[r].pattern)))
  }

  /**
   * The two tiers refine the rule for every request, but for a root route asked for by the empty path and a wildcard
   * route asked for by more than 32 segments.
   */
  lemma MatchIsMostSpecific(h: Hash, keepFirst: bool, routes: seq<Route<Text>>, verb: nat, path: seq<byte>, res: MatchResult)
    requires RoutesOk(routes) && CollisionFree(h, routes, verb, Texts(path)) && (keepFirst || StaticsDistinct(routes))
    requires Outcome(h, keepFirst, routes, verb, path, res)
    ensures Right(routes, verb, path, res) <==> !TurnedAway(routes, verb, path)
  {
    hide StaticKey, StaticTable, Texts, Search, CollisionFree, StaticsDistinct, Chosen;
    if path == [] || verb >= MAX_METHODS {
      forall r: nat | r < |routes| ensures RouteOk(routes[r]) {}
    } else if |Texts(path)| > MAX_SEGMENTS {
      DeepPathsMiss(h, keepFirst, routes, verb, path, res);
    } else if StaticKey(h, verb, Texts(path)) in StaticTable(h, keepFirst, routes, |routes|) {
      StaticHitIsRight(h, keepFirst, routes, verb, path);
    } else {
      SearchIsRight(h, keepFirst, routes, verb, path, res);
    }
  }

  /** A path of more than 32 segments finds nothing, and only wildcard routes apply to it. */
  lemma DeepPathsMiss(h: Hash, keepFirst: bool, routes: seq<Route<Text>>, verb: nat, path: seq<byte>, res: MatchResult)
    requires RoutesOk(routes) && path != [] && verb < MAX_METHODS && |Texts(path)| > MAX_SEGMENTS
    requires CollisionFree(h, routes, verb, Texts(path))
    requires Outcome(h, keepFirst, routes, verb, path, res)
    ensures res == Missed
    ensures forall r: nat | Applies(routes, verb, Texts(path), r) :: Wildcard(routes[r].pattern)
  {
    TableHolds(h, keepFirst, routes, |routes|);
    hide StaticKey, StaticTable, Texts;
    forall r: nat | r < |routes| ensures RouteOk(routes[r]) && (Static(routes[r].pattern) ==> |Literals(routes[r].pattern)| <= MAX_SEGMENTS) {
    }
    forall r: nat | Applies(routes, verb, Texts(path), r) ensures Wildcard(routes[r].pattern) {
      ShortPatternNeedsWildcard(routes[r].pattern, Texts(path));
      assert WildLast(routes[r].pattern);
    }
  }

  /** A lone wildcard misses a path of 33 segments. */
  lemma DeepWildcardMissed(h: Hash, keepFirst: bool, res: MatchResult)
    requires Outcome(h, keepFirst, [Route(0, [Wild])], 0, Joined(seq(33, _ => [97])), res)
    ensures res == Missed && Applies([Route(0, [Wild])], 0, Texts(Joined(seq(33, _ => [97]))), 0)
  {
    var texts: seq<Text> := seq(33, _ => [97]);
    SplitUndoesJoin(texts);
    var routes: seq<Route<Text>> := [Route(0, [Wild])];
    assert !Static(routes[0].pattern) by { assert routes[0].pattern[0].Wild?; }
    assert StaticTable(h, keepFirst, routes, 0) == map[];
    assert StaticTable(h, keepFirst, routes, 1) == map[];
    assert Joined(texts) != [];
  }

  /** The root route is not found by the empty path, though its segments are those of "/". */
  lemma EmptyPathMissed(h: Hash, keepFirst: bool, res: MatchResult)
    requires Outcome(h, keepFirst, [Route(0, [])], 0, [], res)
    ensures res == Missed && Texts([]) == Texts([SLASH]) && Applies([Route(0, [])], 0, Texts([]), 0)
  {
    LeadingSlash([SLASH]);
    assert SpansFrom([SLASH], 1) == [] == Spans([]);
    assert Texts([]) == [] == Texts([SLASH]);
  }
}
