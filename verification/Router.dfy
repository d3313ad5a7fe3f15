/** Registration, build and match of bolt::api::Router. */
module Routing {
  import opened Bytes
  import opened RouterSpec
  import opened RouterSearch
  import opened RouterTrie
  import opened RouterWalk

  // ---- the static tier's key ----

  /** FNV-1a as a fold, and swiss_mix; what they compute is not part of this model. */
  datatype Hash = Hash(start: nat, step: (nat, byte) -> nat, mix: (nat, nat) -> nat)

  function HashBytes(h: Hash, acc: nat, t: Text): nat {
    if t == [] then acc else h.step(HashBytes(h, acc, t[..|t| - 1]), t[|t| - 1])
  }

  /** Over "/seg/seg", whatever slashes the path was written with. */
  function HashTexts(h: Hash, ts: seq<Text>): nat {
    if ts == [] then h.start else HashBytes(h, h.step(HashTexts(h, ts[..|ts| - 1]), SLASH), ts[|ts| - 1])
  }

  function PathHash(h: Hash, ts: seq<Text>): nat {
    if ts == [] then h.step(h.start, SLASH) else HashTexts(h, ts)
  }

  function StaticKey(h: Hash, verb: nat, ts: seq<Text>): nat { h.mix(PathHash(h, ts), verb) }

  function Literals(pattern: seq<Seg<Text>>): seq<Text>
    requires Static(pattern)
  {
    seq(|pattern|, i requires 0 <= i < |pattern| => pattern[i].text)
  }

  /** Static routes by key. Whether a second insert of a key keeps or replaces the first is the table's affair. */
  function StaticTable(h: Hash, keepFirst: bool, routes: seq<Route<Text>>, n: nat): map<nat, nat>
    requires n <= |routes|
  {
    if n == 0 then map[]
    else
      var before, r := StaticTable(h, keepFirst, routes, n - 1), routes[n - 1];
      if !Static(r.pattern) then before
      else
        var key := StaticKey(h, r.verb, Literals(r.pattern));
        if keepFirst && key in before then before else before[key := n - 1]
  }

  // ---- registration ----

  function ParseSeg(t: Text, last: bool): Option<Seg<Text>> {
    if |t| >= 2 && t[0] == 123 && t[|t| - 1] == 125 then (if |t| == 2 then None else Some(Param))
    else if t == [42] then (if last then Some(Wild) else None)
    else Some(Lit(t))
  }

  /** The first n segments of a pattern, unless one of them is malformed or there are too many params. */
  function ParsePattern(ts: seq<Text>, n: nat): (r: Option<seq<Seg<Text>>>)
    requires n <= |ts|
    ensures r.Some? ==> |r.value| == n && Params(r.value) <= MAX_PARAMS
  {
    if n == 0 then Some([])
    else
      match ParsePattern(ts, n - 1)
      case None => None
      case Some(p) =>
        match ParseSeg(ts[n - 1], n == |ts|)
        case None => None
        case Some(s) =>
          assert (p + [s])[..n - 1] == p;
          if Params(p + [s]) > MAX_PARAMS then None else Some(p + [s])
  }

  function Accepted(registered: nat, verb: nat, path: seq<byte>): Option<seq<Seg<Text>>> {
    if verb < MAX_METHODS && registered < MAX_ROUTES && path != [] && path[0] == SLASH && |Texts(path)| <= MAX_SEGMENTS
    then ParsePattern(Texts(path), |Texts(path)|)
    else None
  }

  /** How many of the first n segments are stored before one is refused. */
  function Stored(ts: seq<Text>, n: nat): (k: nat)
    requires n <= |ts|
    ensures k <= n && ParsePattern(ts, k).Some? && (k < n <==> ParsePattern(ts, n).None?)
  {
    if ParsePattern(ts, n).Some? then n else Stored(ts, n - 1)
  }

  /** Slots of the segment array that a registration takes; a refused one keeps those it had taken. */
  function Slots(registered: nat, verb: nat, path: seq<byte>): nat {
    if verb < MAX_METHODS && registered < MAX_ROUTES && path != [] && path[0] == SLASH && |Texts(path)| <= MAX_SEGMENTS
    then Stored(Texts(path), |Texts(path)|)
    else 0
  }

  lemma {:induction false} StoredIs(ts: seq<Text>, k: nat, n: nat)
    requires k < n <= |ts| && ParsePattern(ts, k).Some? && ParsePattern(ts, k + 1).None?
    ensures Stored(ts, n) == k
  {
    ParseFails(ts, k, n);
    if k + 1 < n {
      StoredIs(ts, k, n - 1);
    }
  }

  /** A wildcard that is accepted stands last. */
  lemma {:induction false} ParsedWildLast(ts: seq<Text>, n: nat)
    requires n <= |ts| && ParsePattern(ts, n).Some?
    ensures var p := ParsePattern(ts, n).value;
            WildLast(p) && (n < |ts| ==> forall i | 0 <= i < n :: !p[i].Wild?)
  {
    if n > 0 {
      ParsedWildLast(ts, n - 1);
    }
  }

  // ---- the dictionary ----

  predicate InDict(texts: seq<Text>, p: seq<Seg<nat>>) {
    forall i | 0 <= i < |p| :: p[i].Lit? ==> p[i].text < |texts|
  }

  function Decode(texts: seq<Text>, s: Seg<nat>): Seg<Text>
    requires s.Lit? ==> s.text < |texts|
  {
    match s
    case Lit(k) => Lit(texts[k])
    case Param => Param
    case Wild => Wild
  }

  function Decoded(texts: seq<Text>, p: seq<Seg<nat>>): (d: seq<Seg<Text>>)
    requires InDict(texts, p)
    ensures |d| == |p|
  {
    seq(|p|, i requires 0 <= i < |p| => Decode(texts, p[i]))
  }

  ghost predicate AllInDict(texts: seq<Text>, routes: seq<Route<nat>>) {
    forall r | 0 <= r < |routes| :: InDict(texts, routes[r].pattern)
  }

  function DecodedRoutes(texts: seq<Text>, routes: seq<Route<nat>>): (d: seq<Route<Text>>)
    requires AllInDict(texts, routes)
    ensures |d| == |routes|
  {
    seq(|routes|, r requires 0 <= r < |routes| => Route(routes[r].verb, Decoded(texts, routes[r].pattern)))
  }

  /** New texts do not change what old codes mean. */
  lemma DictionaryGrows(texts: seq<Text>, more: seq<Text>, p: seq<Seg<nat>>)
    requires InDict(texts, p) && texts <= more
    ensures InDict(more, p) && Decoded(more, p) == Decoded(texts, p)
  {
  }

  lemma RoutesStay(texts: seq<Text>, t: Text, routes: seq<Route<nat>>)
    requires AllInDict(texts, routes)
    ensures AllInDict(texts + [t], routes) && DecodedRoutes(texts + [t], routes) == DecodedRoutes(texts, routes)
  {
    forall r | 0 <= r < |routes| ensures InDict(texts + [t], routes[r].pattern)
                                         && Decoded(texts + [t], routes[r].pattern) == Decoded(texts, routes[r].pattern)
    {
      DictionaryGrows(texts, texts + [t], routes[r].pattern);
    }
  }

  /** What every registered route satisfies. */
  ghost predicate RouteOk(r: Route<Text>) {
    r.verb < MAX_METHODS && |r.pattern| <= MAX_SEGMENTS && WildLast(r.pattern) && Params(r.pattern) <= MAX_PARAMS
  }

  ghost predicate RoutesOk(routes: seq<Route<Text>>) {
    |routes| <= MAX_ROUTES && forall r | 0 <= r < |routes| :: RouteOk(routes[r])
  }

  lemma SpansEnd(p: seq<byte>, i: nat)
    requires i >= |p|
    ensures SpansFrom(p, i) == []
  {
  }

  /** These are the segments before i. */
  ghost predicate SplitAt(p: seq<byte>, spans: seq<Span>, i: nat) { Spans(p) == spans + SpansFrom(p, i) }

  lemma SplitStart(p: seq<byte>)
    ensures SplitAt(p, [], if |p| > 0 && p[0] == SLASH then 1 else 0)
  {
    if |p| > 0 && p[0] == SLASH {
      LeadingSlash(p);
    }
    hide SpansFrom;
  }

  lemma SplitMore(p: seq<byte>, spans: seq<Span>, i: nat)
    requires SplitAt(p, spans, i) && i < |p|
    ensures var j := NextSlash(p, i);
            if j > i then |Spans(p)| > |spans| && SplitAt(p, spans + [Span(i, j)], j + 1) else SplitAt(p, spans, j + 1)
  {
    var j := NextSlash(p, i);
    SpansAt(p, i);
    hide SpansFrom, NextSlash, Spans;
    if j > i {
      Regroup(spans, [Span(i, j)], SpansFrom(p, j + 1));
    } else {
      Regroup(spans, [], SpansFrom(p, j + 1));
    }
  }

  lemma SplitEnd(p: seq<byte>, spans: seq<Span>, i: nat)
    requires SplitAt(p, spans, i) && i >= |p|
    ensures spans == Spans(p)
  {
    SpansEnd(p, i);
  }

  class Router {
    const hash: Hash
    const keepFirst: bool
    var texts: seq<Text>
    var routes: seq<Route<nat>>
    var segCount: nat
    var nodes: array<Node>
    var count: nat
    var child: map<(nat, nat), nat>
    var statics: map<nat, nat>
    var built: bool
    ghost var labels: seq<Label>
    ghost var at: map<Label, nat>

    ghost predicate Known()
      reads this`texts, this`routes
    {
      Distinct(texts) && AllInDict(texts, routes) && RoutesOk(DecodedRoutes(texts, routes))
    }

    /** The routes as they were registered. */
    ghost function Routes(): seq<Route<Text>>
      requires AllInDict(texts, routes)
      reads this`texts, this`routes
    {
      DecodedRoutes(texts, routes)
    }

    ghost function Now(): Trie
      requires count <= nodes.Length
      reads this, nodes
    {
      Trie(nodes[..count], child, labels, at)
    }

    ghost predicate Valid()
      reads this, nodes
    {
      && Known()
      && (built ==>
            && count <= nodes.Length
            && Serves(texts, Now(), Routes(), |routes|)
            && statics == StaticTable(hash, keepFirst, Routes(), |routes|))
    }

    constructor (hash: Hash, keepFirst: bool)
      ensures Valid() && !built && Routes() == [] && segCount == 0
    {
      this.hash, this.keepFirst := hash, keepFirst;
      segCount := 0;
      texts, routes, child, statics, built, count := [], [], map[], map[], false, 0;
      nodes := new Node[0];
      labels, at := [], map[];
    }

    // ---- add ----

    method Intern(t: Text) returns (code: nat)
      requires Known()
      modifies this`texts
      ensures Known() && Routes() == old(Routes())
      ensures old(texts) <= texts
      ensures code < |texts| && texts[code] == t
    {
      var found := CodeOf(texts, t);
      if found.Some? {
        return found.value;
      }
      RoutesStay(texts, t, routes);
      code := |texts|;
      texts := texts + [t];
    }

    /** The byte-find of the source: the next slash, or the end. */
    static method FindSlash(p: seq<byte>, i: nat) returns (j: nat)
      requires i <= |p|
      ensures j == NextSlash(p, i)
    {
      j := i;
      while j < |p| && p[j] != SLASH
        invariant i <= j <= |p| && NextSlash(p, i) == NextSlash(p, j)
      {
        j := j + 1;
      }
    }

    static method SplitPath(p: seq<byte>, max: nat) returns (ok: bool, spans: seq<Span>)
      ensures ok <==> |Spans(p)| <= max
      ensures ok ==> spans == Spans(p)
    {
      hide SplitAt;
      spans := [];
      var i := if |p| > 0 && p[0] == SLASH then 1 else 0;
      SplitStart(p);
      while i < |p|
        invariant SplitAt(p, spans, i) && |spans| <= max
        decreases |p| - i
      {
        var j := FindSlash(p, i);
        SplitMore(p, spans, i);
        if j > i {
          if |spans| >= max {
            return false, spans;
          }
          spans := spans + [Span(i, j)];
        }
        i := j + 1;
      }
      SplitEnd(p, spans, i);
      ok := true;
    }

    /** The identifier of the new route, or None if the path is not a pattern or there is no room. */
    method Add(verb: nat, path: seq<byte>) returns (id: Option<nat>)
      requires Valid() && !built
      modifies this
      ensures Valid() && !built && nodes == old(nodes)
      ensures match Accepted(|old(routes)|, verb, path)
              case None => id == None && Routes() == old(Routes())
              case Some(pattern) => id == Some(|old(routes)|) && Routes() == old(Routes()) + [Route(verb, pattern)]
      ensures segCount == old(segCount) + Slots(|old(routes)|, verb, path)
    {
      hide Spans, Texts, ParsePattern, Distinct, Serves, StaticTable, Stored;
      id := None;
      SpansAndTexts(path);
      if verb >= MAX_METHODS || |routes| >= MAX_ROUTES || |path| == 0 || path[0] != SLASH {
        return;
      }
      var ok, spans := SplitPath(path, MAX_SEGMENTS);
      if !ok {
        return;
      }
      var pattern := ParseSegments(path, spans);
      if pattern.None? {
        return;
      }
      ParsedWildLast(Texts(path), |spans|);
      id := Some(|routes|);
      ghost var before := Routes();
      routes := routes + [Route(verb, pattern.value)];
      assert Routes() == before + [Route(verb, Decoded(texts, pattern.value))];
    }

    method ParseOne(t: Text, last: bool) returns (s: Option<Seg<nat>>)
      requires Known()
      modifies this`texts
      ensures Known() && Routes() == old(Routes()) && old(texts) <= texts
      ensures s.Some? <==> ParseSeg(t, last).Some?
      ensures s.Some? ==> (s.value.Lit? ==> s.value.text < |texts|) && Decode(texts, s.value) == ParseSeg(t, last).value
    {
      hide Distinct, RoutesOk, AllInDict, DecodedRoutes;
      if |t| >= 2 && t[0] == 123 && t[|t| - 1] == 125 {
        if |t| == 2 {
          return None;
        }
        var _ := Intern(t[1..|t| - 1]);
        return Some(Param);
      } else if |t| == 1 && t[0] == 42 {
        assert t == [42];
        return if last then Some(Wild) else None;
      } else {
        var code := Intern(t);
        return Some(Lit(code));
      }
    }

    method ParseSegments(path: seq<byte>, spans: seq<Span>) returns (pattern: Option<seq<Seg<nat>>>)
      requires Known() && spans == Spans(path)
      modifies this`texts, this`segCount
      ensures Known() && Routes() == old(Routes()) && segCount == old(segCount) + Stored(Texts(path), |spans|)
      ensures pattern.Some? <==> ParsePattern(Texts(path), |spans|).Some?
      ensures pattern.Some? ==> InDict(texts, pattern.value) && Decoded(texts, pattern.value) == ParsePattern(Texts(path), |spans|).value
    {
      hide Stored, Distinct, RoutesOk, AllInDict, DecodedRoutes, Spans, Texts, ParseSeg, Decoded, Decode, InDict, ParsePattern, Params;
      SpansAndTexts(path);
      ghost var ts := Texts(path);
      var p: seq<Seg<nat>> := [];
      var params, k := 0, 0;
      ParseNone(texts, ts);
      while k < |spans|
        invariant 0 <= k <= |spans| && Known() && AllInDict(texts, routes) && Routes() == old(Routes())
        invariant segCount == old(segCount) + k
        invariant InDict(texts, p) && ParsePattern(ts, k) == Some(Decoded(texts, p)) && params == Params(Decoded(texts, p))
      {
        ghost var before := texts;
        var s := ParseOne(path[spans[k].lo..spans[k].hi], k + 1 == |spans|);
        DictionaryGrows(before, texts, p);
        ParseFails(ts, k, |spans|);
        ParseNext(texts, ts, k, p);
        if ParsePattern(ts, k + 1).None? {
          StoredIs(ts, k, |spans|);
        }
        if s.None? {
          return None;
        }
        DecodedMore(texts, p, s.value);
        params := params + if s.value.Param? then 1 else 0;
        if params > MAX_PARAMS {
          return None;
        }
        segCount := segCount + 1;
        p, k := p + [s.value], k + 1;
      }
      assert Stored(ts, k) == k by { StoredAll(ts, k); }
      pattern := Some(p);
    }

    // ---- build ----

    /** The node at the end of an edge, made if need be. */
    method Descend(cur: nat, e: Edge) returns (next: nat)
      requires count < nodes.Length && Linked(texts, Now()) && cur < count && Fits(texts, labels[cur], e)
      modifies this`count, this`child, this`labels, this`at, nodes
      ensures count <= old(count) + 1 && count <= nodes.Length && next < count
      ensures Now() == if Follow(texts, old(labels[cur]), e) in old(at) then old(Now()) else Grown(texts, old(Now()), cur, e)
      ensures next == at[Follow(texts, old(labels[cur]), e)]
    {
      hide Linked;
      ghost var before := Now();
      LinkedKid(texts, before, cur, e);
      var kid := match e
        case Key(k) => if (cur, k) in child then Some(child[(cur, k)]) else None
        case ParamEdge => nodes[cur].param
        case WildEdge => nodes[cur].wild;
      if kid.Some? {
        return kid.value;
      }
      next := count;
      Attach(cur, e);
    }

    /** alloc_node, and the edge to it. */
    method Attach(cur: nat, e: Edge)
      requires cur < count < nodes.Length && |labels| == count && Fits(texts, labels[cur], e)
      modifies this`count, this`child, this`labels, this`at, nodes
      ensures count == old(count) + 1 && count <= nodes.Length
      ensures Now() == Grown(texts, old(Now()), cur, e)
    {
      hide Follow;
      var next := count;
      nodes[next] := FRESH;
      match e {
        case Key(k) => child := child[(cur, k) := next];
        case ParamEdge => nodes[cur] := nodes[cur].(param := Some(next));
        case WildEdge => nodes[cur] := nodes[cur].(wild := Some(next));
      }
      count := count + 1;
      labels, at := labels + [Follow(texts, labels[cur], e)], at[Follow(texts, labels[cur], e) := next];
      assert nodes[..count] == nodes[..next] + [FRESH];
    }

    /** One segment further along route r. */
    method Walk(cur: nat, r: nat, i: nat) returns (next: nat)
      requires r < |routes| && Known() && i < |routes[r].pattern| && count < nodes.Length
      requires Serves(texts, Now(), Routes(), r) && Reaches(Now(), Routes()[r], i, cur)
      modifies this`count, this`child, this`labels, this`at, nodes
      ensures count <= old(count) + 1 && count <= nodes.Length
      ensures Serves(texts, Now(), Routes(), r) && Reaches(Now(), Routes()[r], i + 1, next)
    {
      ghost var rs, t := Routes(), Now();
      var e := EdgeOf(routes[r].pattern[i]);
      NextEdge(texts, t, routes, r, i, cur);
      hide Serves, Known, DecodedRoutes, AllInDict, Grown, Linked, Reaches, Follow, Fits, SegOf, EdgeOf, Params;
      ServesLinked(texts, t, rs, r);
      next := Descend(cur, e);
      DescendServes(texts, t, Now(), rs, r, cur, e, next);
      ReachesNext(texts, t, Now(), rs[r], i, cur, e, next);
    }

    method Enter(r: nat) returns (next: nat)
      requires r < |routes| && Known() && count < nodes.Length && Serves(texts, Now(), Routes(), r)
      modifies this`count, this`child, this`labels, this`at, nodes
      ensures count <= old(count) + 1 && count <= nodes.Length
      ensures Serves(texts, Now(), Routes(), r) && Reaches(Now(), Routes()[r], 0, next)
    {
      hide Serves, RoutesOk, DecodedRoutes, Params;
      ghost var rs, t := Routes(), Now();
      RouteVerb(texts, routes, r);
      hide AllInDict, Grown, Linked;
      NoParams();
      ServesLinked(texts, t, rs, r);
      next := Descend(0, Key(METHOD_TAG + routes[r].verb));
      DescendServes(texts, t, Now(), rs, r, 0, Key(METHOD_TAG + routes[r].verb), next);
      assert rs[r].pattern[..0] == [];
    }

    /** From the root to the end of route r, making what is missing. */
    method Trace(r: nat) returns (cur: nat)
      requires r < |routes| && Known()
      requires count + MAX_SEGMENTS + 1 <= nodes.Length && Serves(texts, Now(), Routes(), r)
      modifies this`count, this`child, this`labels, this`at, nodes
      ensures count <= old(count) + MAX_SEGMENTS + 1
      ensures Serves(texts, Now(), Routes(), r) && Reaches(Now(), Routes()[r], |Routes()[r].pattern|, cur)
    {
      hide Serves, DecodedRoutes, Distinct, RoutesOk, AllInDict, Reaches;
      ghost var rs := Routes();
      PatternLength(texts, routes, r);
      cur := Enter(r);
      var i := 0;
      while i < |routes[r].pattern|
        invariant 0 <= i <= |rs[r].pattern| && count <= old(count) + 1 + i && count <= nodes.Length
        invariant Serves(texts, Now(), rs, r) && Reaches(Now(), rs[r], i, cur)
      {
        cur := Walk(cur, r, i);
        i := i + 1;
      }
    }

    /** Route r joins the trie. */
    method Insert(r: nat)
      requires r < |routes| && Known() && !Static(Routes()[r].pattern)
      requires count + MAX_SEGMENTS + 1 <= nodes.Length && Serves(texts, Now(), Routes(), r)
      modifies this`count, this`child, this`labels, this`at, nodes
      ensures count <= old(count) + MAX_SEGMENTS + 1
      ensures Serves(texts, Now(), Routes(), r + 1)
    {
      hide Serves, Static, DecodedRoutes, Distinct, RoutesOk, AllInDict, Entered, Reaches;
      var cur := Trace(r);
      Reached(texts, Now(), Routes(), r, cur);
      Record(cur, r);
    }

    /** Earlier routes keep the place. */
    method Record(cur: nat, r: nat)
      requires cur < count <= nodes.Length
      modifies nodes
      ensures Now() == Entered(old(Now()), cur, r)
    {
      ghost var t := Now();
      if nodes[cur].route.None? {
        nodes[cur] := nodes[cur].(route := Some(r));
      }
      assert nodes[..count] == Entered(t, cur, r).nodes;
    }

    /** A slash and a segment folded into the hash. */
    method HashText(acc: nat, t: Text) returns (h: nat)
      ensures h == HashBytes(hash, hash.step(acc, SLASH), t)
    {
      h := hash.step(acc, SLASH);
      var i := 0;
      while i < |t|
        invariant 0 <= i <= |t| && h == HashBytes(hash, hash.step(acc, SLASH), t[..i])
      {
        assert t[..i + 1][..i] == t[..i];
        h := hash.step(h, t[i]);
        i := i + 1;
      }
      assert t[..i] == t;
    }

    /** The hash of a static route, from the dictionary. */
    method HashRoute(pattern: seq<Seg<nat>>) returns (h: nat)
      requires InDict(texts, pattern) && Static(pattern)
      ensures Static(Decoded(texts, pattern)) && h == PathHash(hash, Literals(Decoded(texts, pattern)))
    {
      ghost var ts := Literals(Decoded(texts, pattern));
      h := hash.start;
      var i := 0;
      while i < |pattern|
        invariant 0 <= i <= |pattern| && h == HashTexts(hash, ts[..i])
      {
        assert ts[..i + 1][..i] == ts[..i];
        h := HashText(h, texts[pattern[i].text]);
        i := i + 1;
      }
      assert ts[..i] == ts;
      if |pattern| == 0 {
        h := hash.step(h, SLASH);
      }
    }

    method BuildStatics()
      requires Known() && statics == map[]
      modifies this`statics
      ensures statics == StaticTable(hash, keepFirst, Routes(), |routes|)
    {
      hide Known, AllInDict, InDict, DecodedRoutes, RoutesOk, Static, Literals, PathHash;
      assert AllInDict(texts, routes) by { KnownInDict(); }
      ghost var rs := Routes();
      var r := 0;
      while r < |routes|
        invariant 0 <= r <= |routes| && statics == StaticTable(hash, keepFirst, rs, r)
      {
        DecodedStatic(texts, routes, r);
        if Static(routes[r].pattern) {
          var h := HashRoute(routes[r].pattern);
          var key := hash.mix(h, routes[r].verb);
          if !(keepFirst && key in statics) {
            statics := statics[key := r];
          }
        }
        r := r + 1;
      }
    }

    /** One root and at most one node per segment and method of each route: the pool never runs out. */
    method BuildTrie()
      requires Known() && !built && nodes.Length == Capacity(|routes|) && count == 1 && Serves(texts, Now(), Routes(), 0)
      modifies this`count, this`child, this`labels, this`at, nodes
      ensures count <= nodes.Length && Serves(texts, Now(), Routes(), |routes|)
    {
      hide Serves, Known, DecodedRoutes, Static, Capacity, AllInDict;
      KnownInDict();
      ghost var rs := Routes();
      CapacityOne();
      var r := 0;
      while r < |routes|
        invariant 0 <= r <= |routes| && count <= Capacity(r) && count <= nodes.Length
        invariant Serves(texts, Now(), rs, r)
      {
        DecodedStatic(texts, routes, r);
        CapacityGrows(r, |routes|);
        if Static(routes[r].pattern) {
          SkippedServes(texts, Now(), rs, r);
        } else {
          Insert(r);
        }
        r := r + 1;
      }
    }

    lemma KnownInDict()
      requires Known()
      ensures AllInDict(texts, routes)
    {
    }

    method Build()
      requires Valid() && !built
      modifies this
      ensures Valid() && built && fresh(nodes) && Routes() == old(Routes())
    {
      hide Serves, RoutesOk, DecodedRoutes, AllInDict, Distinct, StaticTable;
      assert AllInDict(texts, routes) by { KnownInDict(); }
      nodes := new Node[Capacity(|routes|)](_ => FRESH);
      count, child, statics, labels, at := 1, map[], map[], [Top], map[Top := 0];
      RootServes(texts, Routes());
      assert Now() == ROOT_ONLY;
      BuildTrie();
      BuildStatics();
      built := true;
    }

    // ---- match ----

    /** First choice at a frame: the child for this very segment. */
    method TryLiteral(verb: nat, ghost segs: seq<Text>, ghost params: seq<Text>, base: seq<Frame>, f: Frame, seg: Text, ghost goal: Option<nat>)
      returns (pushed: bool, stack: seq<Frame>)
      requires AllInDict(texts, routes) && count <= nodes.Length && Served(texts, Now(), Routes())
      requires Facing(Routes(), labels, verb, segs, params, base, f, goal) && f.choice == 0 && f.depth < |segs| && seg == segs[f.depth]
      ensures pushed ==> Loops(Routes(), labels, verb, segs, params, stack, goal) && Work(|segs|, stack) < Work(|segs|, base + [f])
      ensures !pushed ==> Facing(Routes(), labels, verb, segs, params, base, f.(choice := 1), goal)
    {
      hide Served, Facing, Loops, Work, DecodedRoutes, AllInDict, CodeOf;
      AfterLiteral(texts, Now(), Routes(), verb, segs, params, base, f, goal);
      var code := CodeOf(texts, seg);
      if code.Some? && (f.node, code.value) in child {
        var g := Frame(child[(f.node, code.value)], f.depth + 1, f.pcount, 0);
        WorkShrinks(|segs|, base, f, f.(choice := 1), g);
        return true, base + [f.(choice := 1)] + [g];
      }
      pushed, stack := false, [];
    }

    /** Second choice: the param child, whose value overwrites whatever an abandoned branch left there. */
    method TryParam(verb: nat, ghost segs: seq<Text>, params: seq<Text>, base: seq<Frame>, f: Frame, seg: Text, ghost goal: Option<nat>)
      returns (pushed: bool, stack: seq<Frame>, params': seq<Text>)
      requires AllInDict(texts, routes) && count <= nodes.Length && Served(texts, Now(), Routes()) && |params| == MAX_PARAMS
      requires Facing(Routes(), labels, verb, segs, params, base, f, goal) && f.choice == 1 && f.depth < |segs| && seg == segs[f.depth]
      ensures pushed ==> Loops(Routes(), labels, verb, segs, params', stack, goal) && Work(|segs|, stack) < Work(|segs|, base + [f])
      ensures !pushed ==> Facing(Routes(), labels, verb, segs, params, base, f.(choice := 2), goal)
      ensures |params'| == MAX_PARAMS
    {
      hide Served, Facing, Loops, Work, DecodedRoutes, AllInDict;
      AfterParam(texts, Now(), Routes(), verb, segs, params, base, f, goal);
      if nodes[f.node].param.Some? && f.pcount < MAX_PARAMS {
        var g := Frame(nodes[f.node].param.value, f.depth + 1, f.pcount + 1, 0);
        WorkShrinks(|segs|, base, f, f.(choice := 2), g);
        return true, base + [f.(choice := 2)] + [g], params[f.pcount := seg];
      }
      pushed, stack, params' := false, [], params;
    }

    /** Third choice: a wildcard ends the search here. */
    method TryWild(verb: nat, path: seq<byte>, params: seq<Text>, ghost base: seq<Frame>, f: Frame, rest: Text, ghost goal: Option<nat>)
      returns (found: Option<nat>, values: seq<Text>)
      requires AllInDict(texts, routes) && count <= nodes.Length && Served(texts, Now(), Routes()) && |params| == MAX_PARAMS
      requires Facing(Routes(), labels, verb, Texts(path), params, base, f, goal)
      requires f.choice == 2 && f.depth < |Spans(path)| && rest == path[Spans(path)[f.depth].lo..]
      ensures found.Some? ==> found == goal && Chosen(Routes(), path, found.value, values)
      ensures found.None? ==> Loops(Routes(), labels, verb, Texts(path), params, base, goal)
    {
      hide Served, Facing, Loops, DecodedRoutes, AllInDict, Values, Spans;
      AfterWild(texts, Now(), Routes(), verb, path, params, base, f, goal);
      var node := nodes[f.node];
      if node.wild.Some? && nodes[node.wild.value].route.Some? {
        found := nodes[node.wild.value].route;
        if f.pcount < MAX_PARAMS {
          var params' := params[f.pcount := rest];
          assert params'[..f.pcount + 1] == params[..f.pcount] + [rest];
          return found, params'[..f.pcount + 1];
        }
        return found, params[..f.pcount];
      }
      Spent(Routes(), labels, verb, Texts(path), params, base, f.(choice := 3), goal);
      found, values := None, [];
    }

    /** Second tier: literal before param before wildcard, with an explicit stack. */
    method Backtrack(verb: nat, path: seq<byte>, spans: seq<Span>) returns (found: Option<nat>, values: seq<Text>)
      requires Valid() && built && spans == Spans(path) && |spans| <= MAX_SEGMENTS
      ensures found == Search(Routes(), verb, [], Texts(path))
      ensures found.Some? ==> Chosen(Routes(), path, found.value, values)
    {
      ghost var rs, segs := Routes(), Texts(path);
      ghost var goal := Search(rs, verb, [], segs);
      ServedHere();
      hide Valid, Known, Served, Search, Loops, Facing, Work, Chosen, DecodedRoutes, AllInDict, Spans, Texts;
      var params: seq<Text> := seq(MAX_PARAMS, _ => []);
      Start(texts, Now(), rs, verb, segs, params);
      if (0, METHOD_TAG + verb) !in child {
        return None, [];
      }
      var stack := [Frame(child[(0, METHOD_TAG + verb)], 0, 0, 0)];
      while stack != []
        invariant Loops(rs, labels, verb, segs, params, stack, goal) && |params| == MAX_PARAMS
        invariant |stack| <= MAX_SEGMENTS + 1
        decreases Work(|segs|, stack)
      {
        found, values, stack, params := Step(verb, path, spans, params, stack, goal);
        if found.Some? {
          return;
        }
      }
      NothingPending(rs, labels, verb, segs, params, goal);
      found, values := None, [];
    }

    /** One turn of the loop: a result, a deeper stack, or one frame less. */
    method Step(verb: nat, path: seq<byte>, spans: seq<Span>, params: seq<Text>, stack0: seq<Frame>, ghost goal: Option<nat>)
      returns (found: Option<nat>, values: seq<Text>, stack: seq<Frame>, params': seq<Text>)
      requires AllInDict(texts, routes) && count <= nodes.Length && Served(texts, Now(), Routes()) && |params| == MAX_PARAMS
      requires spans == Spans(path) && stack0 != [] && Loops(Routes(), labels, verb, Texts(path), params, stack0, goal)
      requires |spans| <= MAX_SEGMENTS && |stack0| <= MAX_SEGMENTS + 1
      ensures |stack| <= MAX_SEGMENTS + 1
      ensures found.Some? ==> found == goal && Chosen(Routes(), path, found.value, values)
      ensures found.None? ==> Loops(Routes(), labels, verb, Texts(path), params', stack, goal) && |params'| == MAX_PARAMS
                              && Work(|Texts(path)|, stack) < Work(|Texts(path)|, stack0)
    {
      hide Served, Loops, Facing, Work, DecodedRoutes, AllInDict, Spans, Values;
      ghost var segs := Texts(path);
      SpansAndTexts(path);
      Face(Routes(), labels, verb, segs, params, stack0, goal);
      var base, top := stack0[..|stack0| - 1], stack0[|stack0| - 1];
      assert stack0 == base + [top];
      FacingSits(Routes(), labels, verb, segs, params, base, top, goal);
      WorkPushed(|segs|, base, top);
      found, values, stack, params' := None, [], base, params;
      if top.depth == |spans| {
        AtEnd(texts, Now(), Routes(), verb, path, params, base, top, goal);
        if nodes[top.node].route.Some? {
          found, values := nodes[top.node].route, params[..top.pcount];
        }
        return;
      }
      var pushed: bool;
      var f, seg := top, path[spans[top.depth].lo..spans[top.depth].hi];
      if f.choice == 0 {
        pushed, stack := TryLiteral(verb, segs, params, base, f, seg, goal);
        if pushed {
          LoopBound(Routes(), labels, verb, segs, params, stack, goal);
          return;
        }
        f := f.(choice := 1);
      }
      if f.choice == 1 {
        pushed, stack, params' := TryParam(verb, segs, params, base, f, seg, goal);
        if pushed {
          LoopBound(Routes(), labels, verb, segs, params', stack, goal);
          LaterChoice(|segs|, base, top, f);
          return;
        }
        f := f.(choice := 2);
      }
      stack, params' := base, params;
      if f.choice == 2 {
        found, values := TryWild(verb, path, params, base, f, path[spans[f.depth].lo..], goal);
      } else {
        Spent(Routes(), labels, verb, segs, params, base, f, goal);
      }
    }

    /** The canonical hash of a request path: repeated and trailing slashes make no difference. */
    method RequestHash(p: seq<byte>) returns (h: nat)
      ensures h == PathHash(hash, Texts(p))
    {
      hide Hashed, PathHash;
      h := hash.start;
      ghost var spans: seq<Span> := [];
      var i, any := if |p| > 0 && p[0] == SLASH then 1 else 0, false;
      HashedStart(hash, p);
      while i < |p|
        invariant Hashed(hash, p, spans, h, i) && (any <==> spans != [])
        decreases |p| - i
      {
        var j := FindSlash(p, i);
        HashedMore(hash, p, spans, h, i);
        if j > i {
          h := HashText(h, p[i..j]);
          spans := spans + [Span(i, j)];
          any := true;
        }
        i := j + 1;
      }
      HashedEnd(hash, p, spans, h, i);
      if !any {
        h := hash.step(h, SLASH);
      }
    }

    method Match(verb: nat, path: seq<byte>) returns (res: MatchResult)
      requires Valid() && built
      ensures Outcome(hash, keepFirst, Routes(), verb, path, res)
    {
      hide Serves, Known, PathHash, Spans, Texts, Search, Chosen;
      res := Missed;
      if |path| == 0 || verb >= MAX_METHODS {
        return;
      }
      var h := RequestHash(path);
      var key := hash.mix(h, verb);
      if key in statics {
        return Hit(statics[key], []);
      }
      var ok, spans := SplitPath(path, MAX_SEGMENTS);
      SpansAndTexts(path);
      if !ok {
        return;
      }
      var found, values := Backtrack(verb, path, spans);
      if found.Some? {
        res := Hit(found.value, values);
      }
    }

    lemma ServedHere()
      requires Valid() && built
      ensures AllInDict(texts, routes) && count <= nodes.Length && Served(texts, Now(), Routes())
    {
      var rs := Routes();
      forall r: nat, i: nat | r < |rs| && i < |rs[r].pattern| && rs[r].pattern[i].Lit? ensures rs[r].pattern[i].text in texts {
        assert InDict(texts, routes[r].pattern);
      }
      forall r | 0 <= r < |rs| ensures WildLast(rs[r].pattern) {
        assert RouteOk(rs[r]);
      }
    }
  }

  datatype MatchResult = Missed | Hit(route: nat, values: seq<Text>)

  /** A static hit first, then the trie, unless the path is too deep for it. */
  ghost predicate Outcome(h: Hash, keepFirst: bool, routes: seq<Route<Text>>, verb: nat, path: seq<byte>, res: MatchResult) {
    if path == [] || verb >= MAX_METHODS then res == Missed
    else
      var key, table := StaticKey(h, verb, Texts(path)), StaticTable(h, keepFirst, routes, |routes|);
      if key in table then res == Hit(table[key], [])
      else if |Texts(path)| > MAX_SEGMENTS then res == Missed
      else match Search(routes, verb, [], Texts(path))
        case None => res == Missed
        case Some(r) => res.Hit? && res.route == r && Chosen(routes, path, r, res.values)
  }

  /** The segments before i have been folded in. */
  ghost predicate Hashed(h: Hash, p: seq<byte>, spans: seq<Span>, acc: nat, i: nat) {
    Within(p, spans) && SplitAt(p, spans, i) && acc == HashTexts(h, TextsOf(p, spans))
  }

  lemma HashedStart(h: Hash, p: seq<byte>)
    ensures Hashed(h, p, [], h.start, if |p| > 0 && p[0] == SLASH then 1 else 0)
  {
    SplitStart(p);
    assert TextsOf(p, []) == [];
  }

  lemma HashedMore(h: Hash, p: seq<byte>, spans: seq<Span>, acc: nat, i: nat)
    requires Hashed(h, p, spans, acc, i) && i < |p|
    ensures var j := NextSlash(p, i);
            if j > i then Hashed(h, p, spans + [Span(i, j)], HashBytes(h, h.step(acc, SLASH), p[i..j]), j + 1)
            else Hashed(h, p, spans, acc, j + 1)
  {
    var j := NextSlash(p, i);
    SplitMore(p, spans, i);
    hide SplitAt, NextSlash, HashTexts, TextsOf, Within, HashBytes;
    if j > i {
      HashMore(h, p, spans, Span(i, j));
    }
  }

  lemma HashedEnd(h: Hash, p: seq<byte>, spans: seq<Span>, acc: nat, i: nat)
    requires Hashed(h, p, spans, acc, i) && i >= |p|
    ensures PathHash(h, Texts(p)) == if spans == [] then h.step(acc, SLASH) else acc
  {
    SplitEnd(p, spans, i);
    SpansAndTexts(p);
  }

  lemma HashMore(h: Hash, p: seq<byte>, spans: seq<Span>, s: Span)
    requires Within(p, spans) && s.lo < s.hi <= |p|
    ensures Within(p, spans + [s])
    ensures HashTexts(h, TextsOf(p, spans + [s]))
         == HashBytes(h, h.step(HashTexts(h, TextsOf(p, spans)), SLASH), p[s.lo..s.hi])
  {
    assert TextsOf(p, spans + [s]) == TextsOf(p, spans) + [p[s.lo..s.hi]];
    assert TextsOf(p, spans + [s])[..|spans|] == TextsOf(p, spans);
  }

  /** The route was registered, its pattern is no longer than the path, and these are the values it captures. */
  ghost predicate Chosen(routes: seq<Route<Text>>, path: seq<byte>, r: nat, values: seq<Text>) {
    r < |routes| && |routes[r].pattern| <= |Spans(path)| && values == Values(routes[r].pattern, path)
  }

  lemma SpansAndTexts(p: seq<byte>)
    ensures |Texts(p)| == |Spans(p)|
    ensures forall k | 0 <= k < |Spans(p)| :: Spans(p)[k].lo < Spans(p)[k].hi <= |p| && Texts(p)[k] == p[Spans(p)[k].lo..Spans(p)[k].hi]
  {
  }

  lemma LaterChoice(n: nat, base: seq<Frame>, f: Frame, g: Frame)
    requires g == f || (g == f.(choice := 1) && f.choice == 0)
    ensures Work(n, base + [g]) <= Work(n, base + [f])
  {
    WorkPushed(n, base, f);
    WorkPushed(n, base, g);
  }

  function Capacity(routes: nat): (n: nat)
    ensures n >= 1
  {
    1 + routes * (MAX_SEGMENTS + 1)
  }

  lemma CapacityOne()
    ensures Capacity(0) == 1
  {
  }

  lemma {:induction false} CapacityGrows(r: nat, n: nat)
    requires r < n
    ensures Capacity(r) + MAX_SEGMENTS + 1 == Capacity(r + 1) <= Capacity(n)
    decreases n
  {
    if r + 1 < n {
      CapacityGrows(r, n - 1);
    }
  }

  lemma DecodedStatic(texts: seq<Text>, routes: seq<Route<nat>>, r: nat)
    requires AllInDict(texts, routes) && r < |routes|
    ensures Static(DecodedRoutes(texts, routes)[r].pattern) <==> Static(routes[r].pattern)
    ensures InDict(texts, routes[r].pattern)
    ensures DecodedRoutes(texts, routes)[r] == Route(routes[r].verb, Decoded(texts, routes[r].pattern))
  {
    var p := routes[r].pattern;
    assert InDict(texts, p);
    assert forall i | 0 <= i < |p| :: Decoded(texts, p)[i].Lit? <==> p[i].Lit?;
  }

  function EdgeOf(s: Seg<nat>): Edge {
    match s
    case Lit(code) => Key(code)
    case Param => ParamEdge
    case Wild => WildEdge
  }

  lemma NextEdge(texts: seq<Text>, t: Trie, routes: seq<Route<nat>>, r: nat, i: nat, cur: nat)
    requires AllInDict(texts, routes) && RoutesOk(DecodedRoutes(texts, routes)) && r < |routes| && i < |routes[r].pattern|
    requires Reaches(t, DecodedRoutes(texts, routes)[r], i, cur)
    ensures var e, route := EdgeOf(routes[r].pattern[i]), DecodedRoutes(texts, routes)[r];
            && cur < |t.nodes| == |t.labels| && Fits(texts, t.labels[cur], e) && i < |route.pattern|
            && SegOf(texts, e) == route.pattern[i]
            && Params(Follow(texts, t.labels[cur], e).pattern) <= MAX_PARAMS
  {
    var route := DecodedRoutes(texts, routes)[r];
    assert InDict(texts, routes[r].pattern) && RouteOk(route);
    ParamsPrefix(route.pattern, i + 1);
    assert route.pattern[..i] + [route.pattern[i]] == route.pattern[..i + 1];
  }

  lemma PatternLength(texts: seq<Text>, routes: seq<Route<nat>>, r: nat)
    requires AllInDict(texts, routes) && RoutesOk(DecodedRoutes(texts, routes)) && r < |routes|
    ensures |DecodedRoutes(texts, routes)[r].pattern| == |routes[r].pattern| <= MAX_SEGMENTS
  {
    assert RouteOk(DecodedRoutes(texts, routes)[r]);
  }

  lemma Reached(texts: seq<Text>, t: Trie, routes: seq<Route<Text>>, r: nat, cur: nat)
    requires r < |routes| && Serves(texts, t, routes, r) && !Static(routes[r].pattern)
    requires Reaches(t, routes[r], |routes[r].pattern|, cur)
    ensures cur < |t.nodes| && Serves(texts, Entered(t, cur, r), routes, r + 1)
  {
    hide Serves, Static;
    assert routes[r].pattern[..|routes[r].pattern|] == routes[r].pattern;
    EnteredServes(texts, t, routes, r, cur);
  }

  lemma NoParams()
    ensures Params<Text>([]) == 0
  {
  }

  lemma RouteVerb(texts: seq<Text>, routes: seq<Route<nat>>, r: nat)
    requires AllInDict(texts, routes) && r < |routes|
    ensures DecodedRoutes(texts, routes)[r].verb == routes[r].verb
  {
  }

  lemma LinkedKid(texts: seq<Text>, t: Trie, n: nat, e: Edge)
    requires Linked(texts, t) && n < |t.nodes| && Fits(texts, t.labels[n], e)
    ensures Kid(t, n, e) == Find(t.at, Follow(texts, t.labels[n], e))
    ensures Indexed(t)
  {
    assert KidOk(texts, t, n, e);
  }

  lemma ServesLinked(texts: seq<Text>, t: Trie, routes: seq<Route<Text>>, n: nat)
    requires n <= |routes| && Serves(texts, t, routes, n)
    ensures Linked(texts, t) && Indexed(t)
  {
  }

  /** The node of the first i segments of a route has been reached. */
  ghost predicate Reaches(t: Trie, route: Route<Text>, i: nat, cur: nat) {
    && i <= |route.pattern| && cur < |t.nodes| == |t.labels|
    && t.labels[cur] == At(route.verb, route.pattern[..i])
    && forall j: nat | j <= i :: At(route.verb, route.pattern[..j]) in t.at
  }

  lemma DescendServes(texts: seq<Text>, t: Trie, t': Trie, routes: seq<Route<Text>>, r: nat, n: nat, e: Edge, next: nat)
    requires Distinct(texts) && r <= |routes| && Serves(texts, t, routes, r)
    requires n < |t.nodes| == |t.labels| && Fits(texts, t.labels[n], e)
    requires Params(Follow(texts, t.labels[n], e).pattern) <= MAX_PARAMS
    requires t' == if Follow(texts, t.labels[n], e) in t.at then t else Grown(texts, t, n, e)
    requires Follow(texts, t.labels[n], e) in t'.at && next == t'.at[Follow(texts, t.labels[n], e)]
    ensures Serves(texts, t', routes, r)
    ensures next < |t'.nodes| == |t'.labels| && t'.labels[next] == Follow(texts, t.labels[n], e)
    ensures t.at.Keys <= t'.at.Keys
  {
    if t' != t {
      GrownServes(texts, t, routes, r, n, e);
    }
    hide Covers, Ends, FewParams;
  }

  lemma ReachesNext(texts: seq<Text>, t: Trie, t': Trie, route: Route<Text>, i: nat, n: nat, e: Edge, next: nat)
    requires Reaches(t, route, i, n) && i < |route.pattern| && Fits(texts, t.labels[n], e)
    requires SegOf(texts, e) == route.pattern[i]
    requires next < |t'.nodes| == |t'.labels| && t'.labels[next] == Follow(texts, t.labels[n], e)
    requires t.at.Keys <= t'.at.Keys && Follow(texts, t.labels[n], e) in t'.at
    ensures Reaches(t', route, i + 1, next)
  {
    assert route.pattern[..i] + [route.pattern[i]] == route.pattern[..i + 1];
    forall j: nat | j <= i ensures At(route.verb, route.pattern[..j]) in t'.at {
      assert At(route.verb, route.pattern[..j]) in t.at.Keys;
    }
  }

  lemma {:induction false} ParamsPrefix<T>(pattern: seq<Seg<T>>, i: nat)
    requires i <= |pattern|
    ensures Params(pattern[..i]) <= Params(pattern)
  {
    if i < |pattern| {
      var n := |pattern| - 1;
      ParamsPrefix(pattern[..n], i);
      assert pattern[..n][..i] == pattern[..i];
    } else {
      assert pattern[..i] == pattern;
    }
  }

  lemma StoredAll(ts: seq<Text>, n: nat)
    requires n <= |ts| && ParsePattern(ts, n).Some?
    ensures Stored(ts, n) == n
  {
  }

  lemma ParseNone(texts: seq<Text>, ts: seq<Text>)
    ensures InDict(texts, []) && ParsePattern(ts, 0) == Some(Decoded(texts, [])) && Params(Decoded(texts, [])) == 0
  {
  }

  lemma ParseNext(texts: seq<Text>, ts: seq<Text>, k: nat, p: seq<Seg<nat>>)
    requires k < |ts| && InDict(texts, p) && ParsePattern(ts, k) == Some(Decoded(texts, p))
    ensures var d := Decoded(texts, p);
            match ParseSeg(ts[k], k + 1 == |ts|)
            case None => ParsePattern(ts, k + 1) == None
            case Some(s) =>
              && Params(d + [s]) == Params(d) + (if s.Param? then 1 else 0)
              && ParsePattern(ts, k + 1) == if Params(d + [s]) > MAX_PARAMS then None else Some(d + [s])
  {
    var d := Decoded(texts, p);
    forall s ensures (d + [s])[..|d|] == d {}
  }

  lemma DecodedMore(texts: seq<Text>, p: seq<Seg<nat>>, s: Seg<nat>)
    requires InDict(texts, p) && (s.Lit? ==> s.text < |texts|)
    ensures InDict(texts, p + [s]) && Decoded(texts, p + [s]) == Decoded(texts, p) + [Decode(texts, s)]
    ensures Decode(texts, s).Param? <==> s.Param?
  {
  }

  lemma {:induction false} ParseFails(ts: seq<Text>, k: nat, n: nat)
    requires k < n <= |ts| && ParsePattern(ts, k).Some?
    ensures ParsePattern(ts, k + 1).None? ==> ParsePattern(ts, n).None?
  {
    if k + 1 < n {
      ParseFailsAt(ts, k + 1, n);
    }
  }

  lemma {:induction false} ParseFailsAt(ts: seq<Text>, k: nat, n: nat)
    requires k <= n <= |ts|
    ensures ParsePattern(ts, k).None? ==> ParsePattern(ts, n).None?
  {
    if k < n {
      ParseFailsAt(ts, k, n - 1);
    }
  }
}
