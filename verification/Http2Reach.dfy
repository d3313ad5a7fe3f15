/** The states some run leads to: where they start and how they go on. */
module Http2Reach {
  import opened HpackSpec
  import opened Http2Spec
  import opened Http2Invariant
  import opened Http2Safety

  /** c is what some legal run makes of a fresh connection. */
  ghost predicate Reached(c: Conn) {
    exists server: bool, huffman: Huffman, maxBody: nat, steps: seq<Step> ::
      Legal(Init(server, huffman, maxBody), steps) && c == After(Init(server, huffman, maxBody), steps)
  }

  lemma ReachedInv(c: Conn)
    requires Reached(c)
    ensures Inv(c)
  {
    var server: bool, huffman: Huffman, maxBody: nat, steps: seq<Step> :|
      Legal(Init(server, huffman, maxBody), steps) && c == After(Init(server, huffman, maxBody), steps);
    InitInv(server, huffman, maxBody);
    hide Inv, Init, Legal, After;
    RunInv(Init(server, huffman, maxBody), steps);
  }

  lemma InitReached(server: bool, huffman: Huffman, maxBody: nat)
    ensures Reached(Init(server, huffman, maxBody))
  {
    assert Legal(Init(server, huffman, maxBody), []) && After(Init(server, huffman, maxBody), []) == Init(server, huffman, maxBody);
  }

  lemma {:induction false} AfterOneMore(c: Conn, steps: seq<Step>, step: Step)
    requires Legal(c, steps) && Enabled(After(c, steps), step)
    ensures Legal(c, steps + [step]) && After(c, steps + [step]) == Take(After(c, steps), step)
    decreases |steps|
  {
    hide Take, Enabled;
    if steps == [] {
      assert [] + [step] == [step] && [step][1..] == [];
    } else {
      assert (steps + [step])[1..] == steps[1..] + [step];
      AfterOneMore(Take(c, steps[0]), steps[1..], step);
    }
  }

  lemma ReachedStep(c: Conn, step: Step)
    requires Reached(c) && Enabled(c, step)
    ensures Reached(Take(c, step))
  {
    var server: bool, huffman: Huffman, maxBody: nat, steps: seq<Step> :|
      Legal(Init(server, huffman, maxBody), steps) && c == After(Init(server, huffman, maxBody), steps);
    hide Init, Legal, After, Take, Enabled;
    AfterOneMore(Init(server, huffman, maxBody), steps, step);
  }

  /** A step that can be taken leads from reached states to reached states. */
  lemma StaysReached(c: Conn, step: Step)
    ensures Reached(c) && Enabled(c, step) ==> Reached(Take(c, step))
  {
    hide Reached, Enabled, Take;
    if Reached(c) && Enabled(c, step) {
      ReachedStep(c, step);
    }
  }
}
