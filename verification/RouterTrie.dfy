/** The trie as values: nodes, edges, and the pattern each node stands for. */
module RouterTrie {
  import opened Bytes
  import opened RouterSpec
  import opened RouterSearch

  type Text = seq<byte>

  /** Methods share the root's edges with nothing else. */
  const METHOD_TAG: nat := 0xF000_0000

  datatype Node = Node(param: Option<nat>, wild: Option<nat>, route: Option<nat>)

  const FRESH: Node := Node(None, None, None)

  /** The root, or the place reached for a method by the start of a pattern. */
  datatype Label = Top | At(verb: nat, pattern: seq<Seg<Text>>)

  datatype Edge = Key(code: nat) | ParamEdge | WildEdge

  predicate Fits(texts: seq<Text>, l: Label, e: Edge) {
    match l
    case Top => e.Key? && e.code >= METHOD_TAG
    case At(_, _) => e.Key? ==> e.code < |texts|
  }

  function SegOf(texts: seq<Text>, e: Edge): Seg<Text>
    requires e.Key? ==> e.code < |texts|
  {
    match e
    case Key(k) => Lit(texts[k])
    case ParamEdge => Param
    case WildEdge => Wild
  }

  function Follow(texts: seq<Text>, l: Label, e: Edge): Label
    requires Fits(texts, l, e)
  {
    match l
    case Top => At(e.code - METHOD_TAG, [])
    case At(verb, pattern) => At(verb, pattern + [SegOf(texts, e)])
  }

  function Parent(l: Label): Label
    requires l.At?
  {
    if l.pattern == [] then Top else At(l.verb, l.pattern[..|l.pattern| - 1])
  }

  function CodeOf(texts: seq<Text>, t: Text): (k: Option<nat>)
    ensures k.Some? ==> k.value < |texts| && texts[k.value] == t
    ensures k.None? ==> t !in texts
  {
    if texts == [] then None
    else if texts[|texts| - 1] == t then Some(|texts| - 1)
    else CodeOf(texts[..|texts| - 1], t)
  }

  predicate Distinct(texts: seq<Text>) {
    forall i, j | 0 <= i < j < |texts| :: texts[i] != texts[j]
  }

  lemma FollowParent(texts: seq<Text>, l: Label, e: Edge)
    requires Fits(texts, l, e)
    ensures Follow(texts, l, e).At? && Parent(Follow(texts, l, e)) == l
  {
  }

  /** Different edges lead to different labels. */
  lemma FollowInjective(texts: seq<Text>, l: Label, e: Edge, m: Label, f: Edge)
    requires Distinct(texts) && Fits(texts, l, e) && Fits(texts, m, f) && Follow(texts, l, e) == Follow(texts, m, f)
    ensures l == m && e == f
  {
    FollowParent(texts, l, e);
    FollowParent(texts, m, f);
    if l.At? {
      assert (l.pattern + [SegOf(texts, e)])[|l.pattern|] == (m.pattern + [SegOf(texts, f)])[|l.pattern|];
    }
  }

  /** at and labels are inverse; every node but the root has its parent; and the edges are exactly the labels present. */
  datatype Trie = Trie(nodes: seq<Node>, child: map<(nat, nat), nat>, labels: seq<Label>, at: map<Label, nat>)

  function Kid(t: Trie, n: nat, e: Edge): Option<nat>
    requires n < |t.nodes|
  {
    match e
    case Key(k) => if (n, k) in t.child then Some(t.child[(n, k)]) else None
    case ParamEdge => t.nodes[n].param
    case WildEdge => t.nodes[n].wild
  }

  function Find(at: map<Label, nat>, l: Label): Option<nat> { if l in at then Some(at[l]) else None }

  ghost predicate Indexed(t: Trie) {
    && |t.nodes| == |t.labels| > 0 && t.labels[0] == Top
    && (forall n | 0 <= n < |t.labels| :: t.labels[n] in t.at && t.at[t.labels[n]] == n)
    && (forall l | l in t.at :: t.at[l] < |t.labels| && t.labels[t.at[l]] == l)
    && (forall l | l in t.at && l.At? :: Parent(l) in t.at)
  }

  ghost predicate KidOk(texts: seq<Text>, t: Trie, n: nat, e: Edge)
    requires n < |t.nodes| && |t.nodes| == |t.labels|
  {
    Fits(texts, t.labels[n], e) ==> Kid(t, n, e) == Find(t.at, Follow(texts, t.labels[n], e))
  }

  ghost predicate Linked(texts: seq<Text>, t: Trie) {
    && Indexed(t)
    && (forall n: nat, e: Edge | n < |t.nodes| :: KidOk(texts, t, n, e))
    && (forall n, k | (n, k) in t.child :: n < |t.nodes|)
  }

  /** A new node at the end of an edge that led nowhere. */
  function Grown(texts: seq<Text>, t: Trie, n: nat, e: Edge): Trie
    requires n < |t.nodes| && |t.nodes| == |t.labels| && Fits(texts, t.labels[n], e)
  {
    var id := |t.nodes|;
    var l := Follow(texts, t.labels[n], e);
    var nodes := match e
      case Key(_) => t.nodes
      case ParamEdge => t.nodes[n := t.nodes[n].(param := Some(id))]
      case WildEdge => t.nodes[n := t.nodes[n].(wild := Some(id))];
    Trie(nodes + [FRESH], if e.Key? then t.child[(n, e.code) := id] else t.child, t.labels + [l], t.at[l := id])
  }

  lemma GrownIndexed(texts: seq<Text>, t: Trie, n: nat, e: Edge)
    requires Indexed(t) && n < |t.nodes| && Fits(texts, t.labels[n], e) && Follow(texts, t.labels[n], e) !in t.at
    ensures Indexed(Grown(texts, t, n, e))
  {
    FollowParent(texts, t.labels[n], e);
  }

  lemma GrownKid(texts: seq<Text>, t: Trie, n: nat, e: Edge, m: nat, f: Edge)
    requires Distinct(texts) && Linked(texts, t) && n < |t.nodes| && Fits(texts, t.labels[n], e)
    requires Follow(texts, t.labels[n], e) !in t.at && m <= |t.nodes|
    ensures KidOk(texts, Grown(texts, t, n, e), m, f)
  {
    var t' := Grown(texts, t, n, e);
    var l := Follow(texts, t.labels[n], e);
    if Fits(texts, t'.labels[m], f) {
      FollowParent(texts, t'.labels[m], f);
      if m == |t.nodes| {
        assert Follow(texts, l, f) != l && Follow(texts, l, f) !in t.at;
        assert forall k :: (m, k) !in t.child;
      } else {
        assert KidOk(texts, t, m, f);
        if Follow(texts, t.labels[m], f) == l {
          FollowInjective(texts, t.labels[n], e, t.labels[m], f);
          assert m == t.at[t.labels[m]] == n;
        }
      }
    }
  }

  lemma GrownLinked(texts: seq<Text>, t: Trie, n: nat, e: Edge)
    requires Distinct(texts) && Linked(texts, t) && n < |t.nodes| && Fits(texts, t.labels[n], e)
    requires Follow(texts, t.labels[n], e) !in t.at
    ensures Linked(texts, Grown(texts, t, n, e))
  {
    var t' := Grown(texts, t, n, e);
    GrownIndexed(texts, t, n, e);
    forall m: nat, f: Edge | m < |t'.nodes| ensures KidOk(texts, t', m, f) {
      GrownKid(texts, t, n, e, m, f);
    }
  }

  // ---- the trie against the routes ----

  /** Every start of every dynamic route among the first n is there. */
  ghost predicate Covers(t: Trie, routes: seq<Route<Text>>, n: nat)
    requires n <= |routes|
  {
    forall r: nat, j: nat | r < n && !Static(routes[r].pattern) && j <= |routes[r].pattern| ::
      At(routes[r].verb, routes[r].pattern[..j]) in t.at
  }

  /** Each node names the first of those routes that ends there. */
  ghost predicate Ends(t: Trie, routes: seq<Route<Text>>, n: nat)
    requires n <= |routes| && Indexed(t)
  {
    forall l | l in t.at && l.At? :: t.nodes[t.at[l]].route == First(routes[..n], l.verb, l.pattern)
  }

  ghost predicate FewParams(t: Trie) {
    forall l | l in t.at && l.At? :: Params(l.pattern) <= MAX_PARAMS
  }

  ghost predicate Serves(texts: seq<Text>, t: Trie, routes: seq<Route<Text>>, n: nat)
    requires n <= |routes|
  {
    Linked(texts, t) && Covers(t, routes, n) && Ends(t, routes, n) && FewParams(t)
  }

  lemma PassesThrough(t: Trie, routes: seq<Route<Text>>, n: nat, r: nat, prefix: seq<Seg<Text>>)
    requires n <= |routes| && Covers(t, routes, n) && r < n && !Static(routes[r].pattern) && prefix <= routes[r].pattern
    ensures At(routes[r].verb, prefix) in t.at
  {
    assert routes[r].pattern[..|prefix|] == prefix;
  }

  /** A place no route passes through is the end of none. */
  lemma AbsentEndsNone(t: Trie, routes: seq<Route<Text>>, n: nat, verb: nat, pattern: seq<Seg<Text>>)
    requires n <= |routes| && Covers(t, routes, n) && At(verb, pattern) !in t.at
    ensures First(routes[..n], verb, pattern) == None
  {
    forall r: nat | Dynamic(routes[..n], r, verb) ensures routes[..n][r].pattern != pattern {
      PassesThrough(t, routes, n, r, routes[r].pattern);
    }
  }

  lemma GrownServes(texts: seq<Text>, t: Trie, routes: seq<Route<Text>>, r: nat, n: nat, e: Edge)
    requires Distinct(texts) && r <= |routes| && Serves(texts, t, routes, r)
    requires n < |t.nodes| && Fits(texts, t.labels[n], e) && Follow(texts, t.labels[n], e) !in t.at
    requires Params(Follow(texts, t.labels[n], e).pattern) <= MAX_PARAMS
    ensures Serves(texts, Grown(texts, t, n, e), routes, r)
  {
    var t' := Grown(texts, t, n, e);
    var l := Follow(texts, t.labels[n], e);
    GrownLinked(texts, t, n, e);
    AbsentEndsNone(t, routes, r, l.verb, l.pattern);
    forall m | m in t'.at && m.At? ensures t'.nodes[t'.at[m]].route == First(routes[..r], m.verb, m.pattern) {
      if m != l {
        assert t.nodes[t.at[m]].route == First(routes[..r], m.verb, m.pattern);
      }
    }
  }

  /** The route at hand is entered unless an earlier one ends at the same place. */
  function Entered(t: Trie, n: nat, r: nat): Trie
    requires n < |t.nodes|
  {
    if t.nodes[n].route.Some? then t else t.(nodes := t.nodes[n := t.nodes[n].(route := Some(r))])
  }

  lemma FirstGrows(routes: seq<Route<Text>>, r: nat, verb: nat, pattern: seq<Seg<Text>>)
    requires r < |routes|
    ensures First(routes[..r + 1], verb, pattern)
         == OrElse(First(routes[..r], verb, pattern),
                   if routes[r].verb == verb && routes[r].pattern == pattern && !Static(pattern) then Some(r) else None)
  {
    assert routes[..r + 1][..r] == routes[..r];
  }

  lemma EnteredLinked(texts: seq<Text>, t: Trie, n: nat, r: nat)
    requires Linked(texts, t) && n < |t.nodes|
    ensures Linked(texts, Entered(t, n, r))
  {
    var t' := Entered(t, n, r);
    forall m: nat, e: Edge | m < |t'.nodes| ensures KidOk(texts, t', m, e) {
      assert KidOk(texts, t, m, e);
    }
  }

  lemma EnteredServes(texts: seq<Text>, t: Trie, routes: seq<Route<Text>>, r: nat, n: nat)
    requires r < |routes| && Serves(texts, t, routes, r) && !Static(routes[r].pattern)
    requires n < |t.nodes| && t.labels[n] == At(routes[r].verb, routes[r].pattern)
    requires forall j: nat | j <= |routes[r].pattern| :: At(routes[r].verb, routes[r].pattern[..j]) in t.at
    ensures Serves(texts, Entered(t, n, r), routes, r + 1)
  {
    var t' := Entered(t, n, r);
    EnteredLinked(texts, t, n, r);
    hide Linked, First, Static, Params;
    assert Indexed(t) && Indexed(t') by { LinkedIsIndexed(texts, t); LinkedIsIndexed(texts, t'); }
    forall l | l in t'.at && l.At? ensures t'.nodes[t'.at[l]].route == First(routes[..r + 1], l.verb, l.pattern) {
      FirstGrows(routes, r, l.verb, l.pattern);
      assert t.nodes[t.at[l]].route == First(routes[..r], l.verb, l.pattern);
    }
  }

  lemma LinkedIsIndexed(texts: seq<Text>, t: Trie)
    requires Linked(texts, t)
    ensures Indexed(t)
  {
  }

  lemma SkippedServes(texts: seq<Text>, t: Trie, routes: seq<Route<Text>>, r: nat)
    requires r < |routes| && Serves(texts, t, routes, r) && Static(routes[r].pattern)
    ensures Serves(texts, t, routes, r + 1)
  {
    forall l | l in t.at && l.At? ensures t.nodes[t.at[l]].route == First(routes[..r + 1], l.verb, l.pattern) {
      FirstGrows(routes, r, l.verb, l.pattern);
      assert t.nodes[t.at[l]].route == First(routes[..r], l.verb, l.pattern);
    }
  }

  const ROOT_ONLY: Trie := Trie([FRESH], map[], [Top], map[Top := 0])

  lemma RootServes(texts: seq<Text>, routes: seq<Route<Text>>)
    ensures Serves(texts, ROOT_ONLY, routes, 0)
  {
  }

  /** No node: nothing to find beyond it. */
  lemma AbsentFindsNone(texts: seq<Text>, t: Trie, routes: seq<Route<Text>>, verb: nat, prefix: seq<Seg<Text>>, path: seq<Text>)
    requires Serves(texts, t, routes, |routes|) && WildsLast(routes) && At(verb, prefix) !in t.at
    ensures Search(routes, verb, prefix, path) == None
  {
    SearchFindsBest(routes, verb, prefix, path);
    forall r: nat | Dynamic(routes, r, verb) ensures !(prefix <= routes[r].pattern) {
      if prefix <= routes[r].pattern {
        PassesThrough(t, routes, |routes|, r, prefix);
      }
    }
  }
}
