/** The segment array of the router: how many refused registrations it has room for. */
module RouterSlots {
  import opened Bytes
  import opened RouterSpec
  import opened RouterTrie
  import opened Routing

  const SLOTS: nat := MAX_ROUTES * (MAX_SEGMENTS + 1)

  /** The most refusals after which the array cannot overflow whatever was registered. */
  const TOLERATED: nat := 132

  datatype Registration = Registration(verb: nat, path: seq<byte>)

  /** What a sequence of calls to add leaves behind. */
  datatype Tally = Tally(accepted: nat, refused: nat, slots: nat)

  function Counted(t: Tally, c: Registration): Tally {
    var slots := t.slots + Slots(t.accepted, c.verb, c.path);
    if Accepted(t.accepted, c.verb, c.path).Some? then Tally(t.accepted + 1, t.refused, slots)
    else Tally(t.accepted, t.refused + 1, slots)
  }

  function Registered(calls: seq<Registration>): Tally {
    if calls == [] then Tally(0, 0, 0) else Counted(Registered(calls[..|calls| - 1]), calls[|calls| - 1])
  }

  // ---- room enough ----

  lemma OneCall(t: Tally, c: Registration)
    requires t.accepted <= MAX_ROUTES && t.slots <= MAX_SEGMENTS * t.accepted + (MAX_SEGMENTS - 1) * t.refused
    ensures var t' := Counted(t, c);
            t'.accepted <= MAX_ROUTES && t'.slots <= MAX_SEGMENTS * t'.accepted + (MAX_SEGMENTS - 1) * t'.refused
  {
    hide ParsePattern, Texts;
  }

  lemma {:induction false} SlotsBounded(calls: seq<Registration>)
    ensures var t := Registered(calls);
            t.accepted <= MAX_ROUTES && t.slots <= MAX_SEGMENTS * t.accepted + (MAX_SEGMENTS - 1) * t.refused
  {
    hide Counted;
    if calls != [] {
      SlotsBounded(calls[..|calls| - 1]);
      OneCall(Registered(calls[..|calls| - 1]), calls[|calls| - 1]);
    }
  }

  // ---- and no more than that ----

  function Letters(n: nat): seq<Text> { seq(n, _ => [97]) }

  /** A path of 31 literals and a nameless param: refused when all 31 are stored. */
  function Late(): Registration { Registration(0, Joined(Letters(31) + [[123, 125]])) }

  /** A path of 32 literals. */
  function Full(): Registration { Registration(0, Joined(Letters(32))) }

  lemma {:induction false} LettersParse(ts: seq<Text>, n: nat)
    requires n <= |ts| && forall i | 0 <= i < n :: ts[i] == [97]
    ensures ParsePattern(ts, n).Some? && Params(ParsePattern(ts, n).value) == 0
  {
    if n > 0 {
      LettersParse(ts, n - 1);
      var p := ParsePattern(ts, n - 1).value;
      assert (p + [Lit([97])])[..n - 1] == p;
    }
  }

  lemma LateTakes(n: nat)
    requires n < MAX_ROUTES
    ensures Accepted(n, 0, Late().path).None? && Slots(n, 0, Late().path) == 31
  {
    var ts: seq<Text> := Letters(31) + [[123, 125]];
    assert forall i | 0 <= i < 31 :: ts[i] == [97];
    assert ts[31] == [123, 125];
    hide Joined, ParsePattern, Stored;
    SplitUndoesJoin(ts);
    JoinedStarts(ts);
    LettersParse(ts, 31);
    assert ParsePattern(ts, 32).None? by { NamelessFails(ts); }
    StoredIs(ts, 31, 32);
  }

  lemma NamelessFails(ts: seq<Text>)
    requires |ts| == 32 && ts[31] == [123, 125]
    ensures ParsePattern(ts, 32).None?
  {
  }

  lemma FullTakes(n: nat)
    requires n < MAX_ROUTES
    ensures Accepted(n, 0, Full().path).Some? && Slots(n, 0, Full().path) == 32
  {
    var ts := Letters(32);
    hide Joined, ParsePattern, Stored;
    SplitUndoesJoin(ts);
    JoinedStarts(ts);
    LettersParse(ts, 32);
    StoredAll(ts, 32);
  }

  lemma JoinedStarts(ts: seq<Text>)
    requires ts != []
    ensures Joined(ts) != [] && Joined(ts)[0] == SLASH
  {
  }

  function Repeat(c: Registration, n: nat): seq<Registration> { seq(n, _ => c) }

  lemma OneMore(calls: seq<Registration>, c: Registration)
    ensures Registered(calls + [c]) == Counted(Registered(calls), c)
  {
    assert (calls + [c])[..|calls|] == calls;
  }

  lemma Repeated(c: Registration, n: nat)
    requires n > 0
    ensures Repeat(c, n) == Repeat(c, n - 1) + [c]
  {
  }

  lemma LateCounts(t: Tally)
    requires t.accepted < MAX_ROUTES
    ensures Counted(t, Late()) == Tally(t.accepted, t.refused + 1, t.slots + 31)
  {
    hide Joined, Slots, Accepted;
    LateTakes(t.accepted);
  }

  lemma FullCounts(t: Tally)
    requires t.accepted < MAX_ROUTES
    ensures Counted(t, Full()) == Tally(t.accepted + 1, t.refused, t.slots + 32)
  {
    hide Joined, Slots, Accepted;
    FullTakes(t.accepted);
  }

  lemma {:induction false} LateOnes(n: nat)
    ensures Registered(Repeat(Late(), n)) == Tally(0, n, 31 * n)
  {
    hide Late, Counted;
    if n > 0 {
      LateOnes(n - 1);
      LateCounts(Tally(0, n - 1, 31 * (n - 1)));
      Repeated(Late(), n);
      OneMore(Repeat(Late(), n - 1), Late());
    }
  }

  lemma {:induction false} FullOnes(calls: seq<Registration>, n: nat)
    requires Registered(calls).accepted + n <= MAX_ROUTES
    ensures var t := Registered(calls);
            Registered(calls + Repeat(Full(), n)) == Tally(t.accepted + n, t.refused, t.slots + 32 * n)
  {
    hide Full, Counted, Registered;
    if n == 0 {
      assert calls + Repeat(Full(), 0) == calls;
    } else {
      FullOnes(calls, n - 1);
      var before := calls + Repeat(Full(), n - 1);
      FullCounts(Registered(before));
      Repeated(Full(), n);
      Regroup(calls, Repeat(Full(), n - 1), [Full()]);
      OneMore(before, Full());
    }
  }

  /** That many refusals, and then as many full routes as there may be. */
  lemma Overfull(r: nat)
    requires r > TOLERATED
    ensures exists calls :: Registered(calls).refused <= r && Registered(calls).slots > SLOTS
  {
    var first := Repeat(Late(), TOLERATED + 1);
    hide Registered, Repeat;
    LateOnes(TOLERATED + 1);
    FullOnes(first, MAX_ROUTES);
    var calls := first + Repeat(Full(), MAX_ROUTES);
    assert Registered(calls) == Tally(MAX_ROUTES, TOLERATED + 1, 31 * (TOLERATED + 1) + 32 * MAX_ROUTES);
  }

  /** No write falls outside the array, whatever is registered, just as long as at most 132 registrations are refused. */
  lemma SlotsFitExactly(r: nat)
    ensures (forall calls | Registered(calls).refused <= r :: Registered(calls).slots <= SLOTS) <==> r <= TOLERATED
  {
    hide Registered;
    forall calls | Registered(calls).refused <= TOLERATED ensures Registered(calls).slots <= SLOTS {
      SlotsBounded(calls);
    }
    if r > TOLERATED {
      Overfull(r);
    }
  }
}
