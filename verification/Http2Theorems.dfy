/** The promises of the connection, for every state of every run. */
module Http2Theorems {
  import opened Bytes
  import opened HpackSpec
  import opened Http2Frames
  import opened Http2Spec
  import opened Http2Trace
  import opened Http2Invariant
  import opened Http2Reach
  import opened Http2Ends

  // ---- sending ----

  /** Between calls, a body that waits waits for a window, or in a client for its own output to drain. */
  lemma NoStuckData(c: Conn, id: nat)
    requires Reached(c) && !c.state.Dead? && id in c.streams && c.streams[id].sendPending
    ensures var s := c.streams[id];
            && s.sendOff < |s.body|
            && (c.server ==> c.sendWindow <= 0 || s.sendWindow <= 0)
            && (!c.server ==> c.sendWindow <= 0 || s.sendWindow <= 0 || c.backlog + HEADER_BYTES + Quantum(c, s) > MAX_BACKLOG)
  {
    hide Reached;
    ReachedInv(c);
    assert Shape(c.streams[id]);
  }

  /** What was granted and not used, while the connection lives; and never out of range. */
  lemma ConnectionWindowConserved(c: Conn)
    requires Reached(c)
    ensures !c.state.Dead? ==> c.sendWindow == 65535 + Granted(c.log, 0) - SentAll(c.log)
    ensures 0 <= c.sendWindow <= MAX_WINDOW
  {
    hide Reached;
    ReachedInv(c);
    ReachedEnds(c);
  }

  /** The 32-bit windows of the source hold every value a stream window takes, in dead connections too. */
  lemma StreamWindowConserved(c: Conn, id: nat)
    requires Reached(c) && id in c.streams
    ensures !c.state.Dead? ==> c.streams[id].sendWindow == PeerSetting(c.log, 4, 65535) + Granted(c.log, id) - Sent(c.log, id)
    ensures -MAX_WINDOW <= c.streams[id].sendWindow <= MAX_WINDOW
  {
    hide Reached;
    ReachedInv(c);
    assert !c.state.Dead? ==> FlowFits(c, id, c.streams[id]);
    hide Inv;
    ReachedEnds(c);
    assert WindowOk(c, c.streams[id]);
  }

  /** Settings first, every frame within the peer's limit, header blocks unbroken. */
  lemma OutputWellFramed(c: Conn)
    requires Reached(c)
    ensures FirstOut(c.log) == Some(LocalSettings(c.server))
    ensures SizesOk(c.log) && Unbroken(c.log) && OpenBlock(c.log) == 0
  {
    hide Reached;
    ReachedInv(c);
  }

  // ---- what the phase of a stream says ----

  function DataOut(t: Trace, id: nat): seq<byte> {
    match t
    case Empty => []
    case Then(before, e) =>
      if e.Out? && e.frame.kind == DATA && e.frame.id == id then DataOut(before, id) + e.frame.payload else DataOut(before, id)
  }

  function BodyOf(t: Trace, id: nat): Option<seq<byte>> {
    match t
    case Empty => None
    case Then(before, e) => if e.Begin? && e.id == id then Some(e.body) else BodyOf(before, id)
  }

  /** The payloads of the HEADERS and CONTINUATION frames sent on id. */
  function HeadersOut(t: Trace, id: nat): seq<byte> {
    match t
    case Empty => []
    case Then(before, e) =>
      if e.Out? && (e.frame.kind == HEADERS || e.frame.kind == CONTINUATION) && e.frame.id == id
      then HeadersOut(before, id) + e.frame.payload else HeadersOut(before, id)
  }

  function BlockOf(t: Trace, id: nat): Option<seq<byte>> {
    match t
    case Empty => None
    case Then(before, e) => if e.Begin? && e.id == id then Some(e.block) else BlockOf(before, id)
  }

  /** A DATA or HEADERS frame with END_STREAM has been sent on id. */
  predicate EndSent(t: Trace, id: nat) {
    match t
    case Empty => false
    case Then(before, e) =>
      (e.Out? && e.frame.id == id && (e.frame.kind == DATA || e.frame.kind == HEADERS) && Bit0(e.frame.flags)) || EndSent(before, id)
  }

  /** A HEADERS or DATA frame was sent on id after END_STREAM or RST_STREAM. */
  ghost predicate Late(t: Trace, id: nat) {
    match t
    case Empty => false
    case Then(before, e) =>
      || Late(before, id)
      || (e.Out? && e.frame.id == id && (e.frame.kind == DATA || e.frame.kind == HEADERS)
          && (EndSent(before, id) || ResetSent(before, id)))
  }

  ghost predicate PhaseMeaning(t: Trace, id: nat, p: Phase, strict: bool) {
    && (strict && ResetSent(t, id) ==> p.Cut? || p.Bad?)
    && (!p.Bad? ==>
          && (strict ==> !Late(t, id))
          && (p.Fresh? ==> BodyOf(t, id).None?)
          && (p.Due? ==> BodyOf(t, id) == Some(p.body) && DataOut(t, id) == [])
          && (p.Heading? ==> BodyOf(t, id) == Some(p.body) && DataOut(t, id) == [])
          && (p.Body? ==> BodyOf(t, id) == Some(p.body) && p.sent <= |p.body| && DataOut(t, id) == p.body[..p.sent])
          && (p.Ended? ==> BodyOf(t, id) == Some(DataOut(t, id)))
          && (BodyOf(t, id).None? ==> DataOut(t, id) == [])
          && (BodyOf(t, id).Some? ==> DataOut(t, id) <= BodyOf(t, id).value)
          && (EndSent(t, id) ==> (p.Heading? || p.Ended? || p.Cut?) && BodyOf(t, id) == Some(DataOut(t, id))))
  }

  /** How far the header block is out. */
  ghost predicate BlockMeaning(t: Trace, id: nat, p: Phase) {
    var block, out := BlockOf(t, id), HeadersOut(t, id);
    match p
    case Bad => true
    case Fresh => block.None? && out == []
    case Due(b, _) => block == Some(b) && out == []
    case Heading(left, _) => block == Some(out + left)
    case Cut => block == Some(out) || (block.None? && out == [])
    case _ => block == Some(out)
  }

  lemma {:induction false} BlockMeans(t: Trace, id: nat, strict: bool)
    ensures BlockMeaning(t, id, PhaseOf(t, id, strict))
  {
    if t.Then? {
      BlockMeans(t.before, id, strict);
      var e := t.last;
      if e.Out? && e.frame.id == id && (e.frame.kind == HEADERS || e.frame.kind == CONTINUATION) {
        Spelled(HeadersOut(t.before, id), PhaseOf(t.before, id, strict), e.frame);
      } else {
        hide OnHeading;
      }
    }
  }

  lemma Spelled(out: seq<byte>, p: Phase, f: Frame)
    ensures p.Heading? ==> f.payload <= p.left ==> out + p.left == (out + f.payload) + p.left[|f.payload|..]
    ensures p.Due? ==> [] + p.block == p.block && [] + f.payload == f.payload
    ensures p.Due? ==> f.payload <= p.block ==> p.block == f.payload + p.block[|f.payload|..]
  {
  }

  lemma {:induction false} PhaseMeans(t: Trace, id: nat, strict: bool)
    ensures PhaseMeaning(t, id, PhaseOf(t, id, strict), strict)
  {
    if t.Then? {
      PhaseMeans(t.before, id, strict);
      PhaseStep(t, id, strict);
    }
  }

  lemma PhaseStep(t: Trace, id: nat, strict: bool)
    requires t.Then? && PhaseMeaning(t.before, id, PhaseOf(t.before, id, strict), strict)
    ensures PhaseMeaning(t, id, PhaseOf(t, id, strict), strict)
  {
    var e := t.last;
    if e.Out? && e.frame.id == id && e.frame.kind == DATA {
      PhaseData(t, id, strict);
    } else {
      hide OnData;
    }
  }

  lemma PhaseData(t: Trace, id: nat, strict: bool)
    requires t.Then? && PhaseMeaning(t.before, id, PhaseOf(t.before, id, strict), strict)
    requires t.last.Out? && t.last.frame.id == id && t.last.frame.kind == DATA
    ensures PhaseMeaning(t, id, PhaseOf(t, id, strict), strict)
  {
    hide OnHeading;
    var p, f := PhaseOf(t.before, id, strict), t.last.frame;
    if p.Body? {
      var n := p.sent + |f.payload|;
      if n <= |p.body| {
        assert p.body[..n] == p.body[..p.sent] + p.body[p.sent..n];
        assert n == |p.body| ==> p.body[..n] == p.body;
      }
    }
  }

  /** The header block made for a stream goes out whole, its body as DATA, in order, and END_STREAM with the last of it. */
  lemma MessagesInOrder(c: Conn, id: nat)
    requires Reached(c)
    ensures HeadersOut(c.log, id) == if BlockOf(c.log, id).None? then [] else BlockOf(c.log, id).value
    ensures match BodyOf(c.log, id)
            case None => DataOut(c.log, id) == []
            case Some(body) => DataOut(c.log, id) <= body
    ensures EndSent(c.log, id) ==> BodyOf(c.log, id) == Some(DataOut(c.log, id))
  {
    hide Reached;
    ReachedInv(c);
    assert SendOk(c, id);
    PhaseMeans(c.log, id, false);
    BlockMeans(c.log, id, false);
  }

  /** Nothing more is sent on a stream once it ended or was reset, unless the reset came before its first use. */
  lemma NothingLate(c: Conn, id: nat)
    requires Reached(c) && id !in c.idleResets
    ensures !Late(c.log, id)
  {
    hide Reached;
    ReachedInv(c);
    assert SendOk(c, id);
    PhaseMeans(c.log, id, true);
  }

  lemma AtMostOneAnswer(c: Conn, id: nat)
    requires Reached(c)
    ensures Begun(c.log, id) <= 1
  {
    hide Reached;
    ReachedInv(c);
    assert SendOk(c, id);
  }

  // ---- receiving ----

  lemma ReceiveWindowsConserved(c: Conn)
    requires Reached(c) && !c.state.Dead?
    ensures c.recvWindow == LOCAL_WINDOW + Returned(c.log, 0) - TakenAll(c.log)
    ensures LOCAL_WINDOW / 2 < c.recvWindow <= LOCAL_WINDOW
    ensures forall id | id in c.streams && CanReceive(c.streams[id].state) ::
              && c.streams[id].recvWindow == LOCAL_WINDOW + Returned(c.log, id) - Taken(c.log, id)
              && LOCAL_WINDOW / 2 < c.streams[id].recvWindow <= LOCAL_WINDOW
  {
    hide Reached;
    ReachedInv(c);
    forall id | id in c.streams && CanReceive(c.streams[id].state)
      ensures && c.streams[id].recvWindow == LOCAL_WINDOW + Returned(c.log, id) - Taken(c.log, id)
              && LOCAL_WINDOW / 2 < c.streams[id].recvWindow <= LOCAL_WINDOW
    {
      assert FlowFits(c, id, c.streams[id]);
    }
  }

  /** A peer that respects the frame size cannot overrun a window: the two flow-control checks on DATA never fire. */
  lemma DataAlwaysFits(c: Conn, f: Frame)
    requires Reached(c) && Enabled(c, Arrive(f)) && f.kind == DATA
    ensures |f.payload| <= c.recvWindow
    ensures f.id in c.streams && CanReceive(c.streams[f.id].state) ==> |f.payload| <= c.streams[f.id].recvWindow
  {
    hide Reached;
    ReceiveWindowsConserved(c);
  }

  /** No request is reported twice, none before its end has arrived, each whole, as long as declared and no longer than allowed. */
  lemma RequestsDelivered(c: Conn)
    requires Reached(c)
    ensures RequestsOk(c.log, c.maxBody) && ReportsEnded(c.log)
  {
    hide Reached;
    ReachedInv(c);
    ReachedEnds(c);
  }

  lemma {:induction false} RequestedHasEnded(t: Trace, id: nat)
    requires ReportsEnded(t) && Requested(t, id)
    ensures EndReceived(t, id)
  {
    if !(t.last.Request? && t.last.id == id) {
      RequestedHasEnded(t.before, id);
    }
  }

  /**
   * On a live server the report follows the end at once: a stream of the table is reported just when it receives no more,
   * and an accepted request that has ended was reported or reset, unless its last header block is still incomplete.
   */
  lemma EndedRequestsReported(c: Conn, id: nat)
    requires Reached(c) && c.server && !c.state.Dead?
    ensures id in c.streams ==> (c.streams[id].complete <==> !CanReceive(c.streams[id].state))
    ensures id in c.streams ==> (c.streams[id].complete <==> Requested(c.log, id))
    ensures Requested(c.log, id) ==> EndReceived(c.log, id)
    ensures FieldsOf(c.log, id).Some? && EndReceived(c.log, id) && c.assembly.id != id ==>
              Requested(c.log, id) || ResetSent(c.log, id) || ResetReceived(c.log, id)
  {
    hide Reached;
    ReachedInv(c);
    ReachedEnds(c);
    assert id in c.streams ==> RequestFits(c, id, c.streams[id]);
    assert Accounted(c, id);
    if Requested(c.log, id) {
      RequestedHasEnded(c.log, id);
    }
    hide Core, Flow, Quiet;
  }

  /** A live client keeps no stream whose response has ended, unless its last header block is still incomplete. */
  lemma EndedResponsesLeave(c: Conn, id: nat)
    requires Reached(c) && !c.server && !c.state.Dead? && id in c.streams
    ensures EndReceived(c.log, id) ==> c.assembly.id == id
  {
    hide Reached;
    ReachedInv(c);
    ReachedEnds(c);
    assert FlowFits(c, id, c.streams[id]);
    assert StillOpen(c, id);
    hide Core, Flow, Quiet;
  }

  lemma StreamTableAgrees(c: Conn)
    requires Reached(c)
    ensures Distinct(c.openIds) && |c.openIds| <= MAX_STREAMS
    ensures forall id :: id in c.openIds <==> id in c.streams
    ensures forall id | id in c.openIds :: id % 2 == 1 && id <= c.lastId
    ensures OpensIncrease(c.log)
  {
    hide Reached;
    ReachedInv(c);
    forall id | id in c.openIds ensures id % 2 == 1 && id <= c.lastId {
      assert id in c.streams && Shape(c.streams[id]);
    }
  }

  /** Only a stream that was answered before its request ended can stay in the table closed. */
  lemma NoClosedStreamLingers(c: Conn, id: nat)
    requires Reached(c) && c.server && id in c.streams && id !in c.earlyAnswers
    ensures !c.streams[id].state.Closed?
  {
    hide Reached;
    ReachedInv(c);
    assert RequestFits(c, id, c.streams[id]);
  }

  /** The decoder is where decoding all completed header blocks in order would put it. */
  lemma HpackFollowsBlocks(c: Conn)
    requires Reached(c) && !c.state.Dead?
    ensures c.dec == DecodeAll(c.huffman, DecState([], TABLE_BYTES, TABLE_BYTES), BlocksOf(c.log).done)
  {
    hide Reached;
    ReachedInv(c);
  }

  // ---- a client's responses ----

  predicate Terminal(e: Entry, id: nat) {
    e.Event? && e.response.id == id && (e.response.kind.CompleteEvent? || e.response.kind.ResetEvent?)
  }

  function Terminals(t: Trace, id: nat): nat {
    match t
    case Empty => 0
    case Then(before, e) => Terminals(before, id) + (if Terminal(e, id) then 1 else 0)
  }

  ghost predicate ProgressMeaning(t: Trace, id: nat, p: Progress) {
    !p.Broken? ==>
      && Terminals(t, id) == (if p.Over? then 1 else 0)
      && (p.Waiting? ==> Heard(t, id) == [])
      && (p.Receiving? ==> |Heard(t, id)| == p.bytes)
  }

  lemma {:induction false} ProgressMeans(t: Trace, id: nat)
    ensures ProgressMeaning(t, id, ProgressOf(t, id))
  {
    if t.Then? {
      ProgressMeans(t.before, id);
    }
  }

  /**
   * The events of a stream follow the grammar, and it leaves the pool with exactly one terminal event. While it is there
   * its Data events are the content that has arrived; so they are when it is reported complete (ReportsEnded).
   */
  lemma EventsFollowGrammar(c: Conn, id: nat)
    requires Reached(c) && !c.server
    ensures !ProgressOf(c.log, id).Broken?
    ensures FieldsOf(c.log, id).Some? ==> Terminals(c.log, id) == (if id in c.streams then 0 else 1)
    ensures FieldsOf(c.log, id).None? ==> Terminals(c.log, id) == 0
    ensures id in c.streams && !c.state.Dead? ==> Heard(c.log, id) == Content(c.log, id)
    ensures ReportsEnded(c.log)
  {
    hide Reached;
    ReachedInv(c);
    assert ResponseOk(c, id);
    ProgressMeans(c.log, id);
    hide Inv;
    ReachedEnds(c);
    assert !c.state.Dead? ==> Accounted(c, id);
  }

  // ---- shutdown ----

  /** Cutoffs never grow; they are exact, and final, unless the first was sent before the preface and a stream came after it. */
  lemma GoawayCutoffs(c: Conn)
    requires Reached(c)
    ensures CutoffsOk(c.server, c.log)
    ensures CutoffsExact(c.server, c.log) <==> !c.earlyGoaway || PeerHighest(c.server, c.log) == 0
  {
    hide Reached;
    ReachedInv(c);
  }
}
