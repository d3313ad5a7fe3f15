/** The explicit backtracking stack of match(), against the recursive search. */
module RouterWalk {
  import opened Bytes
  import opened RouterSpec
  import opened RouterSearch
  import opened RouterTrie

  datatype Frame = Frame(node: nat, depth: nat, pcount: nat, choice: nat)

  /** What is still to be tried at a place once the choices before this one are spent. */
  function Rest(routes: seq<Route<Text>>, verb: nat, prefix: seq<Seg<Text>>, path: seq<Text>, choice: nat): Option<nat> {
    if path == [] then First(routes, verb, prefix)
    else if choice == 0 then Search(routes, verb, prefix, path)
    else if choice == 1 then OrElse(Search(routes, verb, prefix + [Param], path[1..]), First(routes, verb, prefix + [Wild]))
    else if choice == 2 then First(routes, verb, prefix + [Wild])
    else None
  }

  predicate Plain<T>(pattern: seq<Seg<T>>) { forall i | 0 <= i < |pattern| :: !pattern[i].Wild? }

  /** A frame of depth d stands for the first d segments of some pattern, and the params before its count are captured. */
  ghost predicate FrameOk(labels: seq<Label>, verb: nat, path: seq<Text>, params: seq<Text>, f: Frame) {
    && f.node < |labels| && labels[f.node].At? && labels[f.node].verb == verb
    && |labels[f.node].pattern| == f.depth <= |path|
    && Plain(labels[f.node].pattern)
    && f.choice <= 3 && (f.depth == |path| ==> f.choice == 0)
    && f.pcount <= |params|
    && params[..f.pcount] == Captures(labels[f.node].pattern, path)
  }

  /** The frames of a stack, bottom first: one per depth, with no fewer captures than the frame below. */
  ghost predicate Chain(labels: seq<Label>, verb: nat, path: seq<Text>, params: seq<Text>, stack: seq<Frame>) {
    stack == [] ||
    (var n := |stack| - 1;
     && Chain(labels, verb, path, params, stack[..n])
     && FrameOk(labels, verb, path, params, stack[n]) && stack[n].depth == n
     && (n > 0 ==> stack[n - 1].pcount <= stack[n].pcount))
  }

  ghost function Pending(routes: seq<Route<Text>>, labels: seq<Label>, verb: nat, path: seq<Text>, params: seq<Text>, stack: seq<Frame>): Option<nat>
    requires Chain(labels, verb, path, params, stack)
  {
    if stack == [] then None
    else
      var n := |stack| - 1;
      OrElse(Rest(routes, verb, labels[stack[n].node].pattern, path[stack[n].depth..], stack[n].choice),
             Pending(routes, labels, verb, path, params, stack[..n]))
  }

  // ---- moves ----

  lemma PushedChain(labels: seq<Label>, verb: nat, path: seq<Text>, params: seq<Text>, stack: seq<Frame>, f: Frame)
    requires Chain(labels, verb, path, params, stack) && FrameOk(labels, verb, path, params, f) && f.depth == |stack|
    requires stack != [] ==> stack[|stack| - 1].pcount <= f.pcount
    ensures Chain(labels, verb, path, params, stack + [f])
  {
    assert (stack + [f])[..|stack|] == stack;
  }

  lemma PushedPending(routes: seq<Route<Text>>, labels: seq<Label>, verb: nat, path: seq<Text>, params: seq<Text>, stack: seq<Frame>, f: Frame)
    requires Chain(labels, verb, path, params, stack) && Chain(labels, verb, path, params, stack + [f])
    ensures FrameOk(labels, verb, path, params, f) && f.depth == |stack|
    ensures Pending(routes, labels, verb, path, params, stack + [f])
         == OrElse(Rest(routes, verb, labels[f.node].pattern, path[f.depth..], f.choice), Pending(routes, labels, verb, path, params, stack))
  {
    assert (stack + [f])[..|stack|] == stack;
  }

  /** Writing at or above the top frame's count disturbs no capture on the stack. */
  lemma {:induction false} OverwriteKeeps(labels: seq<Label>, verb: nat, path: seq<Text>, params: seq<Text>, stack: seq<Frame>, k: nat, v: Text)
    requires Chain(labels, verb, path, params, stack) && k < |params|
    requires stack != [] ==> stack[|stack| - 1].pcount <= k
    ensures Chain(labels, verb, path, params[k := v], stack)
  {
    if stack != [] {
      var n := |stack| - 1;
      OverwriteKeeps(labels, verb, path, params, stack[..n], k, v);
      assert params[k := v][..stack[n].pcount] == params[..stack[n].pcount];
    }
  }

  lemma {:induction false} PendingIgnoresParams(routes: seq<Route<Text>>, labels: seq<Label>, verb: nat, path: seq<Text>,
                                                params: seq<Text>, params': seq<Text>, stack: seq<Frame>)
    requires Chain(labels, verb, path, params, stack) && Chain(labels, verb, path, params', stack)
    ensures Pending(routes, labels, verb, path, params', stack) == Pending(routes, labels, verb, path, params, stack)
  {
    if stack != [] {
      PendingIgnoresParams(routes, labels, verb, path, params, params', stack[..|stack| - 1]);
    }
  }

  /** One capture more. */
  lemma CapturedOne(labels: seq<Label>, verb: nat, path: seq<Text>, params: seq<Text>, f: Frame, c: nat)
    requires FrameOk(labels, verb, path, params, f) && f.depth < |path| && f.pcount < |params|
    requires c < |labels| && labels[c] == At(verb, labels[f.node].pattern + [Param])
    ensures FrameOk(labels, verb, path, params[f.pcount := path[f.depth]], Frame(c, f.depth + 1, f.pcount + 1, 0))
  {
    var p := labels[f.node].pattern;
    assert (p + [Param])[..|p|] == p;
    var params' := params[f.pcount := path[f.depth]];
    assert params'[..f.pcount + 1] == params[..f.pcount] + [path[f.depth]];
  }

  lemma CapturedNone(labels: seq<Label>, verb: nat, path: seq<Text>, params: seq<Text>, f: Frame, c: nat)
    requires FrameOk(labels, verb, path, params, f) && f.depth < |path|
    requires c < |labels| && labels[c] == At(verb, labels[f.node].pattern + [Lit(path[f.depth])])
    ensures FrameOk(labels, verb, path, params, Frame(c, f.depth + 1, f.pcount, 0))
  {
    var p := labels[f.node].pattern;
    assert (p + [Lit(path[f.depth])])[..|p|] == p;
  }

  /** One frame per depth: the stack never outgrows the path. */
  lemma StackBound(labels: seq<Label>, verb: nat, path: seq<Text>, params: seq<Text>, stack: seq<Frame>)
    requires Chain(labels, verb, path, params, stack)
    ensures |stack| <= |path| + 1
  {
  }

  // ---- termination ----

  function Power(k: nat): (p: nat)
    ensures p >= 1
  {
    if k == 0 then 1 else 5 * Power(k - 1)
  }

  function FrameWork(n: nat, f: Frame): nat {
    var p := if f.depth <= n then Power(n - f.depth) else 1;
    if f.choice == 0 then 4 * p else if f.choice == 1 then 3 * p else if f.choice == 2 then 2 * p else p
  }

  /** Each choice at depth d outweighs everything below it. */
  function Work(n: nat, stack: seq<Frame>): nat {
    if stack == [] then 0 else Work(n, stack[..|stack| - 1]) + FrameWork(n, stack[|stack| - 1])
  }

  lemma WorkPushed(n: nat, stack: seq<Frame>, f: Frame)
    ensures Work(n, stack + [f]) == Work(n, stack) + FrameWork(n, f)
  {
    assert (stack + [f])[..|stack|] == stack;
  }

  lemma WorkShrinks(n: nat, stack: seq<Frame>, f: Frame, f': Frame, g: Frame)
    requires f.depth == f'.depth < n && f.choice < f'.choice <= 3 && g.depth == f.depth + 1
    ensures Work(n, stack + [f'] + [g]) < Work(n, stack + [f])
  {
    WorkPushed(n, stack, f);
    WorkPushed(n, stack, f');
    WorkPushed(n, stack + [f'], g);
    assert Power(n - f.depth) == 5 * Power(n - g.depth);
  }

  // ---- the choices at a frame, in the trie ----

  lemma RouteHere(texts: seq<Text>, t: Trie, routes: seq<Route<Text>>, n: nat)
    requires Serves(texts, t, routes, |routes|) && n < |t.nodes| && t.labels[n].At?
    ensures t.nodes[n].route == First(routes, t.labels[n].verb, t.labels[n].pattern)
  {
    assert routes[..|routes|] == routes;
    assert t.at[t.labels[n]] == n;
  }

  /** The literal child is the place for this text, and where there is none there is nothing to find. */
  lemma LiteralKid(texts: seq<Text>, t: Trie, routes: seq<Route<Text>>, n: nat, code: nat, path: seq<Text>)
    requires Serves(texts, t, routes, |routes|) && WildsLast(routes) && n < |t.nodes| && t.labels[n].At? && code < |texts|
    ensures var l := At(t.labels[n].verb, t.labels[n].pattern + [Lit(texts[code])]);
            if (n, code) in t.child then t.child[(n, code)] < |t.nodes| && t.labels[t.child[(n, code)]] == l
            else Search(routes, l.verb, l.pattern, path) == None
  {
    assert KidOk(texts, t, n, Key(code));
    var l := At(t.labels[n].verb, t.labels[n].pattern + [Lit(texts[code])]);
    if (n, code) !in t.child {
      AbsentFindsNone(texts, t, routes, l.verb, l.pattern, path);
    }
  }

  lemma SameAt<T>(a: seq<T>, b: seq<T>, i: nat)
    requires a <= b && i < |a|
    ensures i < |b| && b[i] == a[i]
  {
  }

  /** A text that is no route's literal leads nowhere. */
  lemma UnknownText(texts: seq<Text>, routes: seq<Route<Text>>, verb: nat, prefix: seq<Seg<Text>>, text: Text, path: seq<Text>)
    requires WildsLast(routes) && text !in texts
    requires forall r: nat, i: nat | r < |routes| && i < |routes[r].pattern| && routes[r].pattern[i].Lit? :: routes[r].pattern[i].text in texts
    ensures Search(routes, verb, prefix + [Lit(text)], path) == None
  {
    SearchFindsBest(routes, verb, prefix + [Lit(text)], path);
    assert (prefix + [Lit(text)])[|prefix|] == Lit(text);
    forall r: nat | Dynamic(routes, r, verb) ensures !(prefix + [Lit(text)] <= routes[r].pattern) {
      if prefix + [Lit(text)] <= routes[r].pattern {
        SameAt(prefix + [Lit(text)], routes[r].pattern, |prefix|);
      }
    }
  }

  /** No param child is ever refused for want of room. */
  lemma ParamKid(texts: seq<Text>, t: Trie, routes: seq<Route<Text>>, n: nat, path: seq<Text>)
    requires Serves(texts, t, routes, |routes|) && WildsLast(routes) && n < |t.nodes| && t.labels[n].At?
    ensures var l := At(t.labels[n].verb, t.labels[n].pattern + [Param]);
            match t.nodes[n].param
            case Some(c) => c < |t.nodes| && t.labels[c] == l && Params(t.labels[n].pattern) < MAX_PARAMS
            case None => Search(routes, l.verb, l.pattern, path) == None
  {
    assert KidOk(texts, t, n, ParamEdge);
    var p := t.labels[n].pattern;
    var l := At(t.labels[n].verb, p + [Param]);
    assert (p + [Param])[..|p|] == p;
    if t.nodes[n].param.None? {
      AbsentFindsNone(texts, t, routes, l.verb, l.pattern, path);
    } else {
      assert Params(l.pattern) == Params(p) + 1;
    }
  }

  lemma WildKid(texts: seq<Text>, t: Trie, routes: seq<Route<Text>>, n: nat)
    requires Serves(texts, t, routes, |routes|) && n < |t.nodes| && t.labels[n].At?
    ensures var l := At(t.labels[n].verb, t.labels[n].pattern + [Wild]);
            match t.nodes[n].wild
            case Some(c) => c < |t.nodes| && t.nodes[c].route == First(routes, l.verb, l.pattern)
            case None => First(routes, l.verb, l.pattern) == None
  {
    hide First, Params, Static;
    assert KidOk(texts, t, n, WildEdge);
    var l := At(t.labels[n].verb, t.labels[n].pattern + [Wild]);
    if t.nodes[n].wild.None? {
      assert routes[..|routes|] == routes;
      AbsentEndsNone(t, routes, |routes|, l.verb, l.pattern);
    } else {
      RouteHere(texts, t, routes, t.nodes[n].wild.value);
    }
  }

  lemma RestUnfolds(routes: seq<Route<Text>>, verb: nat, prefix: seq<Seg<Text>>, path: seq<Text>, d: nat)
    requires d < |path|
    ensures Rest(routes, verb, prefix, path[d..], 0)
         == OrElse(Search(routes, verb, prefix + [Lit(path[d])], path[d + 1..]), Rest(routes, verb, prefix, path[d..], 1))
    ensures Rest(routes, verb, prefix, path[d..], 1)
         == OrElse(Search(routes, verb, prefix + [Param], path[d + 1..]), Rest(routes, verb, prefix, path[d..], 2))
    ensures Rest(routes, verb, prefix, path[d..], 2) == First(routes, verb, prefix + [Wild])
    ensures Rest(routes, verb, prefix, path[d..], 3) == None
  {
    assert path[d..][0] == path[d] && path[d..][1..] == path[d + 1..];
  }

  lemma RestFresh(routes: seq<Route<Text>>, verb: nat, prefix: seq<Seg<Text>>, path: seq<Text>, d: nat)
    requires d <= |path|
    ensures Rest(routes, verb, prefix, path[d..], 0) == Search(routes, verb, prefix, path[d..])
  {
  }

  // ---- restoring the loop's invariant ----

  ghost predicate Loops(routes: seq<Route<Text>>, labels: seq<Label>, verb: nat, path: seq<Text>, params: seq<Text>,
                        stack: seq<Frame>, goal: Option<nat>) {
    Chain(labels, verb, path, params, stack) && goal == Pending(routes, labels, verb, path, params, stack)
  }

  /** The top frame f over base: what it still has to offer, then what the rest has. */
  ghost predicate Facing(routes: seq<Route<Text>>, labels: seq<Label>, verb: nat, path: seq<Text>, params: seq<Text>,
                         base: seq<Frame>, f: Frame, goal: Option<nat>) {
    && Chain(labels, verb, path, params, base) && FrameOk(labels, verb, path, params, f) && f.depth == |base|
    && (base != [] ==> base[|base| - 1].pcount <= f.pcount)
    && goal == OrElse(Rest(routes, verb, labels[f.node].pattern, path[f.depth..], f.choice),
                      Pending(routes, labels, verb, path, params, base))
  }

  lemma Face(routes: seq<Route<Text>>, labels: seq<Label>, verb: nat, path: seq<Text>, params: seq<Text>,
             stack: seq<Frame>, goal: Option<nat>)
    requires Loops(routes, labels, verb, path, params, stack, goal) && stack != []
    ensures Facing(routes, labels, verb, path, params, stack[..|stack| - 1], stack[|stack| - 1], goal)
  {
  }

  lemma LoopBound(routes: seq<Route<Text>>, labels: seq<Label>, verb: nat, path: seq<Text>, params: seq<Text>,
                  stack: seq<Frame>, goal: Option<nat>)
    requires Loops(routes, labels, verb, path, params, stack, goal)
    ensures |stack| <= |path| + 1
  {
    StackBound(labels, verb, path, params, stack);
  }

  lemma FrameSits(labels: seq<Label>, verb: nat, path: seq<Text>, params: seq<Text>, f: Frame)
    requires FrameOk(labels, verb, path, params, f)
    ensures f.node < |labels| && labels[f.node].At? && labels[f.node].verb == verb && |labels[f.node].pattern| == f.depth <= |path|
  {
  }

  lemma Stacked(routes: seq<Route<Text>>, labels: seq<Label>, verb: nat, path: seq<Text>, params: seq<Text>,
                base: seq<Frame>, f: Frame, goal: Option<nat>)
    requires Facing(routes, labels, verb, path, params, base, f, goal)
    ensures Loops(routes, labels, verb, path, params, base + [f], goal)
  {
    hide FrameOk, Chain, Rest, Pending, OrElse;
    PushedChain(labels, verb, path, params, base, f);
    PushedPending(routes, labels, verb, path, params, base, f);
  }

  /** g over what is already stacked: first what g finds, then the rest. */
  lemma FacingNext(routes: seq<Route<Text>>, labels: seq<Label>, verb: nat, path: seq<Text>, params: seq<Text>,
                   stack: seq<Frame>, g: Frame, rest: Option<nat>)
    requires Loops(routes, labels, verb, path, params, stack, rest) && FrameOk(labels, verb, path, params, g) && g.depth == |stack|
    requires stack != [] ==> stack[|stack| - 1].pcount <= g.pcount
    requires g.choice == 0
    ensures Facing(routes, labels, verb, path, params, stack, g, OrElse(Search(routes, verb, labels[g.node].pattern, path[g.depth..]), rest))
  {
    hide Chain, Rest, Search, Pending, OrElse;
    RestFresh(routes, verb, labels[g.node].pattern, path, g.depth);
  }

  lemma Push(routes: seq<Route<Text>>, labels: seq<Label>, verb: nat, path: seq<Text>, params: seq<Text>,
             base: seq<Frame>, f: Frame, g: Frame, rest: Option<nat>)
    requires Facing(routes, labels, verb, path, params, base, f, rest) && FrameOk(labels, verb, path, params, g)
    requires g.depth == |base| + 1 && f.pcount <= g.pcount && g.choice == 0
    ensures Loops(routes, labels, verb, path, params, base + [f] + [g],
                  OrElse(Search(routes, verb, labels[g.node].pattern, path[g.depth..]), rest))
  {
    hide FrameOk, Loops, Facing, Search, OrElse;
    FrameSits(labels, verb, path, params, g);
    Stacked(routes, labels, verb, path, params, base, f, rest);
    assert (base + [f])[|base|] == f;
    FacingNext(routes, labels, verb, path, params, base + [f], g, rest);
    Stacked(routes, labels, verb, path, params, base + [f], g,
            OrElse(Search(routes, verb, labels[g.node].pattern, path[g.depth..]), rest));
  }

  // ---- the branches of the loop ----

  /** A trie that serves routes whose literals are all in the dictionary. */
  ghost predicate Served(texts: seq<Text>, t: Trie, routes: seq<Route<Text>>) {
    && Serves(texts, t, routes, |routes|) && WildsLast(routes)
    && (forall r: nat, i: nat | r < |routes| && i < |routes[r].pattern| && routes[r].pattern[i].Lit? ::
          routes[r].pattern[i].text in texts)
  }

  lemma Start(texts: seq<Text>, t: Trie, routes: seq<Route<Text>>, verb: nat, path: seq<Text>, params: seq<Text>)
    requires Served(texts, t, routes)
    ensures var goal := Search(routes, verb, [], path);
            if (0, METHOD_TAG + verb) in t.child
            then Loops(routes, t.labels, verb, path, params, [Frame(t.child[(0, METHOD_TAG + verb)], 0, 0, 0)], goal)
            else goal == None
  {
    assert KidOk(texts, t, 0, Key(METHOD_TAG + verb));
    if (0, METHOD_TAG + verb) in t.child {
      var f := Frame(t.child[(0, METHOD_TAG + verb)], 0, 0, 0);
      PushedChain(t.labels, verb, path, params, [], f);
      PushedPending(routes, t.labels, verb, path, params, [], f);
      assert [] + [f] == [f] && path[0..] == path;
      RestFresh(routes, verb, [], path, 0);
    } else {
      AbsentFindsNone(texts, t, routes, verb, [], path);
    }
  }

  lemma FacingSits(routes: seq<Route<Text>>, labels: seq<Label>, verb: nat, path: seq<Text>, params: seq<Text>,
                   base: seq<Frame>, f: Frame, goal: Option<nat>)
    requires Facing(routes, labels, verb, path, params, base, f, goal)
    ensures f.node < |labels| && f.depth <= |path| && f.choice <= 3 && f.pcount <= |params|
  {
  }

  lemma AtEnd(texts: seq<Text>, t: Trie, routes: seq<Route<Text>>, verb: nat, path: seq<byte>, params: seq<Text>,
              base: seq<Frame>, f: Frame, goal: Option<nat>)
    requires Served(texts, t, routes) && Facing(routes, t.labels, verb, Texts(path), params, base, f, goal) && f.depth == |Texts(path)|
    ensures f.node < |t.nodes|
    ensures match t.nodes[f.node].route
            case Some(r) => goal == Some(r) && r < |routes| && |routes[r].pattern| <= |Spans(path)|
                            && f.pcount <= |params| && params[..f.pcount] == Values(routes[r].pattern, path)
            case None => Loops(routes, t.labels, verb, Texts(path), params, base, goal)
  {
    RouteHere(texts, t, routes, f.node);
    assert Texts(path)[f.depth..] == [];
  }

  lemma AfterLiteral(texts: seq<Text>, t: Trie, routes: seq<Route<Text>>, verb: nat, path: seq<Text>, params: seq<Text>,
                     base: seq<Frame>, f: Frame, goal: Option<nat>)
    requires Served(texts, t, routes) && Facing(routes, t.labels, verb, path, params, base, f, goal)
    requires f.choice == 0 && f.depth < |path|
    ensures var code, f1 := CodeOf(texts, path[f.depth]), f.(choice := 1);
            if code.Some? && (f.node, code.value) in t.child
            then Loops(routes, t.labels, verb, path, params, base + [f1] + [Frame(t.child[(f.node, code.value)], f.depth + 1, f.pcount, 0)], goal)
            else Facing(routes, t.labels, verb, path, params, base, f1, goal)
  {
    hide Served, Serves, FrameOk, Rest, Search, Chain, Pending, First, CodeOf;
    ServedParts(texts, t, routes);
    FrameSits(t.labels, verb, path, params, f);
    var code, f1, prefix := CodeOf(texts, path[f.depth]), f.(choice := 1), t.labels[f.node].pattern;
    RestUnfolds(routes, verb, prefix, path, f.depth);
    OtherChoice(t.labels, verb, path, params, f, 1);
    var rest := OrElse(Rest(routes, verb, prefix, path[f.depth..], 1), Pending(routes, t.labels, verb, path, params, base));
    assert Facing(routes, t.labels, verb, path, params, base, f1, rest);
    if code.None? {
      LiteralUnknown(texts, t, routes, verb, prefix, path[f.depth], path[f.depth + 1..]);
    } else {
      assert code.value < |texts| && texts[code.value] == path[f.depth] by { CodeIs(texts, path[f.depth]); }
      LiteralKid(texts, t, routes, f.node, code.value, path[f.depth + 1..]);
      if (f.node, code.value) in t.child {
        CapturedNone(t.labels, verb, path, params, f, t.child[(f.node, code.value)]);
        hide Facing;
        Push(routes, t.labels, verb, path, params, base, f1, Frame(t.child[(f.node, code.value)], f.depth + 1, f.pcount, 0), rest);
      }
    }
  }

  lemma CodeIs(texts: seq<Text>, text: Text)
    ensures var code := CodeOf(texts, text); if code.Some? then code.value < |texts| && texts[code.value] == text else text !in texts
  {
  }

  lemma LiteralUnknown(texts: seq<Text>, t: Trie, routes: seq<Route<Text>>, verb: nat, prefix: seq<Seg<Text>>, text: Text, path: seq<Text>)
    requires Served(texts, t, routes) && CodeOf(texts, text).None?
    ensures Search(routes, verb, prefix + [Lit(text)], path) == None
  {
    hide Serves, Search;
    CodeIs(texts, text);
    UnknownText(texts, routes, verb, prefix, text, path);
  }

  lemma AfterParam(texts: seq<Text>, t: Trie, routes: seq<Route<Text>>, verb: nat, path: seq<Text>, params: seq<Text>,
                   base: seq<Frame>, f: Frame, goal: Option<nat>)
    requires Served(texts, t, routes) && Facing(routes, t.labels, verb, path, params, base, f, goal)
    requires f.choice == 1 && f.depth < |path| && |params| == MAX_PARAMS
    ensures f.node < |t.nodes|
    ensures var f2 := f.(choice := 2);
            match t.nodes[f.node].param
            case Some(c) => f.pcount < MAX_PARAMS
                            && Loops(routes, t.labels, verb, path, params[f.pcount := path[f.depth]],
                                     base + [f2] + [Frame(c, f.depth + 1, f.pcount + 1, 0)], goal)
            case None => Facing(routes, t.labels, verb, path, params, base, f2, goal)
  {
    hide Served, Serves, FrameOk, Rest, Search, Chain, Pending, First, Params, Captures;
    ServedParts(texts, t, routes);
    FrameSits(t.labels, verb, path, params, f);
    var f2, prefix := f.(choice := 2), t.labels[f.node].pattern;
    RestUnfolds(routes, verb, prefix, path, f.depth);
    ParamKid(texts, t, routes, f.node, path[f.depth + 1..]);
    FrameCounts(t.labels, verb, path, params, f);
    OtherChoice(t.labels, verb, path, params, f, 2);
    var rest := OrElse(Rest(routes, verb, prefix, path[f.depth..], 2), Pending(routes, t.labels, verb, path, params, base));
    if t.nodes[f.node].param.Some? {
      var c, v := t.nodes[f.node].param.value, path[f.depth];
      var params' := params[f.pcount := v];
      CapturedOne(t.labels, verb, path, params, f, c);
      OverwriteKeeps(t.labels, verb, path, params, base, f.pcount, v);
      PendingIgnoresParams(routes, t.labels, verb, path, params, params', base);
      Unaffected(t.labels, verb, path, params, f2, v);
      assert Facing(routes, t.labels, verb, path, params', base, f2, rest);
      hide Facing;
      Push(routes, t.labels, verb, path, params', base, f2, Frame(c, f.depth + 1, f.pcount + 1, 0), rest);
    }
  }

  lemma ServedParts(texts: seq<Text>, t: Trie, routes: seq<Route<Text>>)
    requires Served(texts, t, routes)
    ensures Serves(texts, t, routes, |routes|) && WildsLast(routes) && |t.labels| == |t.nodes|
  {
  }

  lemma OtherChoice(labels: seq<Label>, verb: nat, path: seq<Text>, params: seq<Text>, f: Frame, choice: nat)
    requires FrameOk(labels, verb, path, params, f) && f.depth < |path| && choice <= 3
    ensures FrameOk(labels, verb, path, params, f.(choice := choice))
  {
  }

  lemma Unaffected(labels: seq<Label>, verb: nat, path: seq<Text>, params: seq<Text>, f: Frame, v: Text)
    requires FrameOk(labels, verb, path, params, f) && f.pcount < |params|
    ensures FrameOk(labels, verb, path, params[f.pcount := v], f)
  {
    assert params[f.pcount := v][..f.pcount] == params[..f.pcount];
  }

  lemma FrameCounts(labels: seq<Label>, verb: nat, path: seq<Text>, params: seq<Text>, f: Frame)
    requires FrameOk(labels, verb, path, params, f)
    ensures f.pcount == Params(labels[f.node].pattern) && f.pcount <= |params|
  {
    assert f.pcount == |params[..f.pcount]|;
  }

  lemma WildValues<T>(prefix: seq<Seg<T>>, path: seq<byte>)
    requires |prefix| < |Spans(path)|
    ensures Values(prefix + [Wild], path)
         == if Params(prefix) < MAX_PARAMS then Captures(prefix, Texts(path)) + [path[Spans(path)[|prefix|].lo..]]
            else Captures(prefix, Texts(path))
  {
    assert (prefix + [Wild])[..|prefix|] == prefix;
  }

  lemma AfterWild(texts: seq<Text>, t: Trie, routes: seq<Route<Text>>, verb: nat, path: seq<byte>, params: seq<Text>,
                  base: seq<Frame>, f: Frame, goal: Option<nat>)
    requires Served(texts, t, routes) && Facing(routes, t.labels, verb, Texts(path), params, base, f, goal)
    requires f.choice == 2 && f.depth < |Texts(path)| && |params| == MAX_PARAMS
    ensures f.node < |t.nodes|
    ensures var wild := t.nodes[f.node].wild;
            if wild.Some? && wild.value < |t.nodes| && t.nodes[wild.value].route.Some?
            then (var r := t.nodes[wild.value].route.value;
                  && goal == Some(r) && r < |routes| && |routes[r].pattern| <= |Spans(path)| && f.pcount <= |params|
                  && Values(routes[r].pattern, path)
                     == if f.pcount < MAX_PARAMS then params[..f.pcount] + [path[Spans(path)[f.depth].lo..]] else params[..f.pcount])
            else Facing(routes, t.labels, verb, Texts(path), params, base, f.(choice := 3), goal)
    ensures t.nodes[f.node].wild.Some? ==> t.nodes[f.node].wild.value < |t.nodes|
  {
    var prefix := t.labels[f.node].pattern;
    RestUnfolds(routes, verb, prefix, Texts(path), f.depth);
    WildKid(texts, t, routes, f.node);
    WildValues(prefix, path);
    assert f.pcount == |params[..f.pcount]| == Params(prefix);
  }

  lemma Spent(routes: seq<Route<Text>>, labels: seq<Label>, verb: nat, path: seq<Text>, params: seq<Text>,
              base: seq<Frame>, f: Frame, goal: Option<nat>)
    requires Facing(routes, labels, verb, path, params, base, f, goal) && f.choice == 3
    ensures Loops(routes, labels, verb, path, params, base, goal)
  {
    RestUnfolds(routes, verb, labels[f.node].pattern, path, f.depth);
  }

  lemma NothingPending(routes: seq<Route<Text>>, labels: seq<Label>, verb: nat, path: seq<Text>, params: seq<Text>, goal: Option<nat>)
    requires Loops(routes, labels, verb, path, params, [], goal)
    ensures goal == None
  {
  }
}
