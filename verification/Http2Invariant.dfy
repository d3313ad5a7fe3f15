/** What holds of a connection between steps. */
module Http2Invariant {
  import opened Bytes
  import opened HpackSpec
  import opened Http2Frames
  import opened Http2Fields
  import opened Http2Spec
  import opened Http2Trace

  // ---- the stream table ----

  ghost predicate Distinct(ids: seq<nat>) {
    forall i, j | 0 <= i < j < |ids| :: ids[i] != ids[j]
  }

  ghost predicate Shape(s: Stream) {
    && (s.sendPending ==> CanSend(s.state) && s.sendOff < |s.body|)
    && (CanSend(s.state) || s.state.HalfClosedLocal? || s.state.Closed?)
  }

  /** open_ids lists exactly the live streams: distinct, odd, used before, and no more than the limit. */
  ghost predicate Table(c: Conn) {
    && Distinct(c.openIds) && |c.openIds| <= MAX_STREAMS
    && (forall id :: id in c.openIds <==> id in c.streams)
    && (forall id {:trigger c.streams[id]} | id in c.streams :: id % 2 == 1 && id <= c.lastId && Shape(c.streams[id]))
    && c.acceptedId <= c.lastId <= MAX_ID
    && (c.server ==> forall id | id in c.streams :: id <= c.acceptedId)
    && (!c.server ==> c.acceptedId == 0 && (c.lastId == 0 || c.lastId % 2 == 1))
  }

  ghost predicate Ids(c: Conn) {
    && OpensIncrease(c.log)
    && Highest(c.log) == (if c.server then c.acceptedId else c.lastId)
  }

  // ---- what was sent ----

  ghost predicate PhaseFits(s: Stream, p: Phase) {
    if s.sendPending then p == Body(s.sendOff, s.body)
    else if CanSend(s.state) then p == Fresh
    else p == Ended
  }

  ghost predicate PhaseGood(c: Conn, id: nat, strict: bool) {
    var p := PhaseOf(c.log, id, strict);
    && !p.Bad? && !p.Due? && !p.Heading?
    && (IdleOdd(c, id) ==> p.Fresh?)
    && (id in c.streams ==> PhaseFits(c.streams[id], p))
  }

  /** Every stream is answered once at most, in order; and never after a reset, unless that came before its first use. */
  ghost predicate SendOk(c: Conn, id: nat) {
    && Begun(c.log, id) <= (if IdleOdd(c, id) then 0 else 1)
    && (id in c.streams && !c.streams[id].sendPending && CanSend(c.streams[id].state) ==> Begun(c.log, id) == 0)
    && PhaseGood(c, id, false)
    && (id !in c.idleResets ==> PhaseGood(c, id, true))
  }

  ghost predicate Sends(c: Conn) {
    && FirstOut(c.log).Some? && FirstOut(c.log).value == LocalSettings(c.server)
    && SizesOk(c.log)
    && Unbroken(c.log) && OpenBlock(c.log) == 0
    && (forall id: nat :: SendOk(c, id))
  }

  // ---- requests (server) ----

  /** Still receiving and not yet answered, or only to be answered. */
  ghost predicate Polite(s: Stream) { (s.state.Open? && !s.sendPending) || s.state.HalfClosedRemote? }

  ghost predicate RequestFits(c: Conn, id: nat, s: Stream) {
    && (id !in c.earlyAnswers ==> Polite(s))
    && (s.complete <==> Requested(c.log, id))
    && (s.complete ==> !CanReceive(s.state))
    && FieldsOf(c.log, id).Some?
    && DeclaredLength(FieldsOf(c.log, id).value) == (if s.hasLength then Some(s.length) else None)
    && s.received == |s.content| <= c.maxBody
  }

  ghost predicate Requests(c: Conn) {
    && RequestsOk(c.log, c.maxBody)
    && (c.server ==> forall id: nat | id > c.acceptedId :: !Requested(c.log, id))
    && (c.server ==> forall id {:trigger c.streams[id]} | id in c.streams :: RequestFits(c, id, c.streams[id]))
  }

  // ---- responses (client) ----

  ghost predicate ResponseFits(s: Stream, p: Progress, head: bool) {
    && s.isHead == head
    && (if s.status == 0 then p == Waiting && s.received == 0 && !s.hasLength
        else s.status >= 200 && p.Receiving?
             && p == Receiving(s.status, if s.hasLength then Some(s.length) else None, s.received, p.trailers))
  }

  /** Live streams are in progress, streams that were opened and are gone have had their terminal event. */
  ghost predicate ResponseOk(c: Conn, id: nat) {
    if id in c.streams then
      FieldsOf(c.log, id).Some? && ResponseFits(c.streams[id], ProgressOf(c.log, id), HeadOf(c.log, id))
    else ProgressOf(c.log, id) == if FieldsOf(c.log, id).Some? then Over else Waiting
  }

  ghost predicate Responses(c: Conn) {
    if c.server then forall id: nat :: ProgressOf(c.log, id) == Waiting
    else forall id: nat :: ResponseOk(c, id)
  }

  // ---- shutdown ----

  /** A GOAWAY sent before the preface was complete is the only way the cutoffs come to differ from the accepted streams. */
  ghost predicate Goaways(c: Conn) {
    var high := PeerHighest(c.server, c.log);
    && CutoffsOk(c.server, c.log)
    && Cutoff(c.log) == c.goawayOut <= MAX_ID
    && (c.state.PrefacePending? ==> high == 0)
    && (!Announced(c.log) ==> c.goawayOut == MAX_ID && !c.earlyGoaway)
    && (Announced(c.log) && !c.earlyGoaway ==> !c.state.Active? && !c.state.PrefacePending? && c.goawayOut == high)
    && (Announced(c.log) && c.earlyGoaway ==> c.goawayOut == 0)
    && (CutoffsExact(c.server, c.log) <==> !c.earlyGoaway || high == 0)
  }

  /** Holds in every state, dead ones included. */
  ghost predicate Core(c: Conn) {
    Table(c) && Ids(c) && Sends(c) && Requests(c) && Responses(c) && Goaways(c)
  }

  // ---- while the connection lives ----

  ghost predicate ConnFlow(c: Conn) {
    && c.sendWindow == 65535 + Granted(c.log, 0) - SentAll(c.log)
    && 0 <= c.sendWindow <= MAX_WINDOW
    && c.recvWindow == LOCAL_WINDOW + Returned(c.log, 0) - TakenAll(c.log)
    && LOCAL_WINDOW / 2 < c.recvWindow <= LOCAL_WINDOW
  }

  /** A client's streams are uploading or waiting for the response; a finished response leaves at once. */
  ghost predicate Steady(s: Stream, p: Progress) {
    && (s.state.HalfClosedLocal? || (s.state.Open? && s.sendPending))
    && (p.Receiving? ==> !p.trailers)
  }

  ghost predicate FlowFits(c: Conn, id: nat, s: Stream) {
    && (!c.server ==> Steady(s, ProgressOf(c.log, id)))
    && s.sendWindow == c.peer.window + Granted(c.log, id) - Sent(c.log, id)
    && Granted(c.log, id) - Sent(c.log, id) >= -MAX_WINDOW
    && s.sendWindow <= MAX_WINDOW
    && (CanReceive(s.state) ==>
          && s.recvWindow == LOCAL_WINDOW + Returned(c.log, id) - Taken(c.log, id)
          && LOCAL_WINDOW / 2 < s.recvWindow <= LOCAL_WINDOW
          && (c.server ==> s.content == Content(c.log, id)))
  }

  ghost predicate PeerRange(c: Conn) {
    c.peer.window <= MAX_WINDOW && LOCAL_MAX_FRAME <= c.peer.maxFrame <= MAX_PAYLOAD
  }

  /** The settings in force are the ones the peer announced last. */
  ghost predicate PeerSync(c: Conn) {
    && PeerRange(c)
    && c.peer.window == PeerSetting(c.log, 4, 65535)
    && c.peer.maxFrame == PeerSetting(c.log, 5, LOCAL_MAX_FRAME)
  }

  /** The decoder has seen every completed header block, in order, and nothing else. */
  ghost predicate BlockSync(c: Conn) {
    && BlocksOf(c.log).open == c.assembly.id
    && (c.assembly.id != 0 ==> BlocksOf(c.log).partial == c.assembly.bytes)
    && c.dec == DecodeAll(c.huffman, DecState([], TABLE_BYTES, TABLE_BYTES), BlocksOf(c.log).done)
  }

  /** Streams not used yet have no traffic behind them. */
  ghost predicate Untouched(c: Conn) {
    forall id: nat | IdleOdd(c, id) ::
      Granted(c.log, id) == Sent(c.log, id) == Returned(c.log, id) == Taken(c.log, id) == 0 && Content(c.log, id) == []
  }

  ghost predicate FlowExcept(c: Conn, k: int) {
    && ConnFlow(c) && PeerSync(c) && BlockSync(c) && Untouched(c)
    && (forall id {:trigger c.streams[id]} | id in c.streams && id != k :: FlowFits(c, id, c.streams[id]))
  }

  ghost predicate Flow(c: Conn) {
    FlowExcept(c, -1)
  }

  /** Nothing that could be sent is held back. */
  ghost predicate Quiet(c: Conn) {
    forall id {:trigger c.streams[id]} | id in c.streams && c.streams[id].sendPending ::
      c.streams[id].sendOff <= |c.streams[id].body| && Blocked(c, c.streams[id])
  }

  ghost predicate Inv(c: Conn) {
    Core(c) && (!c.state.Dead? ==> Flow(c) && Quiet(c))
  }

  lemma InvIsTable(c: Conn)
    requires Inv(c)
    ensures Table(c)
  {
  }
}
