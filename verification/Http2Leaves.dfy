/** How the elementary moves of the connection act on each part of the invariant. */
module Http2Leaves {
  import opened Bytes
  import opened HpackSpec
  import opened Http2Frames
  import opened Http2Spec
  import opened Http2Trace
  import opened Http2Invariant

  // ---- the stream table ----

  lemma SwapRemoveKeeps(ids: seq<nat>, id: nat)
    requires Distinct(ids)
    ensures Distinct(SwapRemove(ids, id))
    ensures forall x :: x in SwapRemove(ids, id) <==> x in ids && x != id
  {
    if id in ids {
      var i := FirstIndex(ids, id);
      var r := SwapRemove(ids, id);
      forall x | x in ids && x != id ensures x in r {
        var k :| 0 <= k < |ids| && ids[k] == x;
        if k == |ids| - 1 { assert r[i] == x; } else { assert r[k] == x; }
      }
    }
  }

  lemma TableClose(c: Conn, id: nat)
    requires Table(c)
    ensures Table(CloseStream(c, id))
  {
    SwapRemoveKeeps(c.openIds, id);
  }

  // ---- what was sent ----

  /** Two views of a stream that send alike. */
  ghost predicate SendsAlike(s: Stream, s': Stream) {
    && s'.sendPending == s.sendPending && CanSend(s'.state) == CanSend(s.state)
    && (s.sendPending ==> s'.body == s.body && s'.sendOff == s.sendOff)
  }

  predicate Silent(e: Entry) { !e.Out? && !e.Begin? }

  ghost predicate Extends(c: Conn, c': Conn, e: Entry) {
    c'.server == c.server && (c'.log == c.log || c'.log == Then(c.log, e))
  }

  lemma SendsFrame(c: Conn, c': Conn, e: Entry)
    requires Sends(c) && Extends(c, c', e) && Silent(e)
    requires c'.lastId >= c.lastId && c'.idleResets == c.idleResets
    requires forall id {:trigger c'.streams[id]} | id in c'.streams ::
               id in c.streams && SendsAlike(c.streams[id], c'.streams[id])
    ensures Sends(c')
  {
    forall id: nat ensures SendOk(c', id) {
      assert SendOk(c, id);
    }
  }

  /** Frames that are not part of a message. */
  predicate Control(f: Frame) {
    && (f.kind == WINDOW_UPDATE || f.kind == PING || f.kind == SETTINGS || f.kind == GOAWAY)
    && |f.payload| <= LOCAL_MAX_FRAME
  }

  lemma SendsControl(c: Conn, c': Conn, f: Frame)
    requires Sends(c) && Control(f) && c'.server == c.server && c'.log == Then(c.log, Out(f))
    requires c'.lastId == c.lastId && c'.idleResets == c.idleResets
    requires forall id {:trigger c'.streams[id]} | id in c'.streams ::
               id in c.streams && SendsAlike(c.streams[id], c'.streams[id])
    ensures Sends(c')
  {
    forall id: nat ensures SendOk(c', id) {
      assert SendOk(c, id);
    }
  }

  /** A reset: the stream is gone, or was never there. */
  lemma SendsReset(c: Conn, c': Conn, f: Frame)
    requires Sends(c) && f.kind == RST_STREAM && |f.payload| <= LOCAL_MAX_FRAME
    requires c'.server == c.server && c'.log == Then(c.log, Out(f)) && c'.lastId == c.lastId
    requires c'.idleResets == if IdleOdd(c, f.id) then c.idleResets + {f.id} else c.idleResets
    requires forall id {:trigger c'.streams[id]} | id in c'.streams ::
               id in c.streams && id != f.id && SendsAlike(c.streams[id], c'.streams[id])
    ensures Sends(c')
  {
    forall id: nat ensures SendOk(c', id) {
      assert SendOk(c, id);
    }
  }

  /** A stream comes to life without having sent anything. */
  lemma SendsOpen(c: Conn, c': Conn, id: nat, e: Entry)
    requires Sends(c) && Extends(c, c', e) && Silent(e)
    requires IdleOdd(c, id) && c'.lastId >= id && c'.idleResets == c.idleResets
    requires id in c'.streams && !c'.streams[id].sendPending && CanSend(c'.streams[id].state)
    requires forall j {:trigger c'.streams[j]} | j in c'.streams && j != id ::
               j in c.streams && SendsAlike(c.streams[j], c'.streams[j])
    ensures Sends(c')
  {
    forall j: nat ensures SendOk(c', j) {
      assert SendOk(c, j);
    }
  }

  // ---- requests ----

  ghost predicate ReceivesAlike(s: Stream, s': Stream) {
    && (Polite(s) ==> Polite(s'))
    && s'.complete == s.complete && CanReceive(s'.state) == CanReceive(s.state)
    && s'.hasLength == s.hasLength && s'.length == s.length && s'.received == s.received && s'.content == s.content
  }

  lemma RequestsFrame(c: Conn, c': Conn, e: Entry)
    requires Requests(c) && Extends(c, c', e) && !e.Request? && !e.Opened?
    requires c'.maxBody == c.maxBody && c'.acceptedId == c.acceptedId && c'.earlyAnswers >= c.earlyAnswers
    requires c.server ==> forall id {:trigger c'.streams[id]} | id in c'.streams ::
               id in c.streams && ReceivesAlike(c.streams[id], c'.streams[id])
    ensures Requests(c')
  {
    if c.server {
      forall id | id in c'.streams ensures RequestFits(c', id, c'.streams[id]) {
        assert RequestFits(c, id, c.streams[id]);
      }
    }
  }

  /** Only the stream id differs, and it fits. */
  lemma RequestsPut(c: Conn, c': Conn, e: Entry, id: nat)
    requires Requests(c) && Extends(c, c', e) && !e.Request? && !e.Opened?
    requires c'.maxBody == c.maxBody && c'.acceptedId == c.acceptedId && c'.earlyAnswers >= c.earlyAnswers
    requires id in c'.streams && (c.server ==> RequestFits(c', id, c'.streams[id]))
    requires forall j {:trigger c'.streams[j]} | j in c'.streams && j != id :: j in c.streams && c'.streams[j] == c.streams[j]
    ensures Requests(c')
  {
    if c.server {
      forall j | j in c'.streams ensures RequestFits(c', j, c'.streams[j]) {
        if j != id {
          assert RequestFits(c, j, c.streams[j]);
        }
      }
    }
  }

  // ---- responses ----

  ghost predicate RespondsAlike(s: Stream, s': Stream) {
    && s'.isHead == s.isHead && s'.status == s.status && s'.received == s.received
    && s'.hasLength == s.hasLength && s'.length == s.length
  }

  lemma ResponsesFrame(c: Conn, c': Conn, e: Entry)
    requires Responses(c) && Extends(c, c', e) && !e.Event? && !e.Opened?
    requires !c.server ==> c'.streams.Keys == c.streams.Keys
    requires !c.server ==> forall id {:trigger c'.streams[id]} | id in c'.streams ::
               id in c.streams && RespondsAlike(c.streams[id], c'.streams[id])
    ensures Responses(c')
  {
    forall id: nat ensures if c.server then ProgressOf(c'.log, id) == Waiting else ResponseOk(c', id) {
      assert if c.server then ProgressOf(c.log, id) == Waiting else ResponseOk(c, id);
    }
  }

  /** The terminal event and the stream's departure. */
  lemma ResponsesEnd(c: Conn, c': Conn, r: Response)
    requires Responses(c) && !c.server && !c'.server && c'.log == Then(c.log, Event(r)) && r.id in c.streams
    requires r.kind.ResetEvent? || (r.kind.CompleteEvent? && c.streams[r.id].status != 0
                                    && (c.streams[r.id].hasLength ==> c.streams[r.id].length == c.streams[r.id].received))
    requires c'.streams == c.streams - {r.id}
    ensures Responses(c')
  {
    forall id: nat ensures ResponseOk(c', id) {
      assert ResponseOk(c, id);
    }
  }

  /** An event on a stream that stays. */
  lemma ResponsesEvent(c: Conn, c': Conn, r: Response)
    requires Responses(c) && !c.server && !c'.server && c'.log == Then(c.log, Event(r)) && r.id in c.streams
    requires c'.streams.Keys == c.streams.Keys
    requires forall id {:trigger c'.streams[id]} | id in c'.streams && id != r.id :: id in c.streams && c'.streams[id] == c.streams[id]
    requires ResponseFits(c'.streams[r.id], OnEvent(ProgressOf(c.log, r.id), r, HeadOf(c.log, r.id)), HeadOf(c.log, r.id))
    ensures Responses(c')
  {
    forall id: nat ensures ResponseOk(c', id) {
      assert ResponseOk(c, id);
    }
  }

  // ---- shutdown ----

  lemma GoawaysFrame(c: Conn, c': Conn, e: Entry)
    requires Goaways(c) && Extends(c, c', e) && !IsGoaway(e) && !e.Opened?
    requires c'.goawayOut == c.goawayOut && c'.earlyGoaway == c.earlyGoaway
    requires c'.state.Active? ==> c.state.Active? || c.state.PrefacePending?
    requires c'.state.PrefacePending? ==> c.state.PrefacePending?
    ensures Goaways(c')
  {
  }

  lemma GoawaysOpen(c: Conn, c': Conn, id: nat, fields: seq<Field>)
    requires Goaways(c) && c'.server == c.server && c'.log == Then(c.log, Opened(id, fields))
    requires c'.goawayOut == c.goawayOut && c'.earlyGoaway == c.earlyGoaway && c'.state == c.state && c.state.Active?
    requires id > Highest(c.log)
    ensures Goaways(c')
  {
  }

  lemma GoawaysSay(c: Conn, code: nat, debug: seq<byte>, c': Conn)
    requires Goaways(c) && Ids(c) && c.acceptedId <= MAX_ID
    requires c'.server == c.server && c'.log == SayGoaway(c, code, debug).log
    requires c'.goawayOut == NextCutoff(c) && c'.earlyGoaway == (c.earlyGoaway || c.state.PrefacePending?)
    requires c'.state != c.state || !c.state.Active?
    requires c'.state.Active? ==> c.state.Active?
    requires c'.state.PrefacePending? ==> c.state.PrefacePending?
    ensures Goaways(c')
  {
    var p := GoawayFrame(NextCutoff(c), code, debug).payload;
    assert p[..4] == PutU32(NextCutoff(c));
    assert Low31(p) == NextCutoff(c);
  }

  // ---- flow ----

  /** Entries that move no window, setting or header block. */
  predicate Still(e: Entry) {
    && (e.In? ==> e.frame.kind != DATA && e.frame.kind != WINDOW_UPDATE && e.frame.kind != SETTINGS
                  && e.frame.kind != HEADERS && e.frame.kind != CONTINUATION)
    && (e.Out? ==> e.frame.kind != DATA && e.frame.kind != WINDOW_UPDATE)
  }

  ghost predicate FlowsAlike(s: Stream, s': Stream) {
    && s'.sendWindow == s.sendWindow && s'.recvWindow == s.recvWindow && s'.content == s.content
    && s'.state == s.state && s'.sendPending == s.sendPending
  }

  lemma UntouchedFrame(c: Conn, c': Conn, e: Entry)
    requires Untouched(c) && (c'.log == c.log || c'.log == Then(c.log, e)) && c'.lastId >= c.lastId
    requires (e.In? || e.Out?) && IdleOdd(c', e.frame.id) ==> e.frame.kind != DATA && e.frame.kind != WINDOW_UPDATE
    ensures Untouched(c')
  {
    forall id: nat | IdleOdd(c', id)
      ensures Granted(c'.log, id) == Sent(c'.log, id) == Returned(c'.log, id) == Taken(c'.log, id) == 0 && Content(c'.log, id) == []
    {
      assert IdleOdd(c, id);
    }
  }

  /** Entries that enter the accounts of stream id. */
  predicate Touches(e: Entry, id: nat) {
    || ((e.In? || e.Out?) && e.frame.id == id && (e.frame.kind == DATA || e.frame.kind == WINDOW_UPDATE))
    || (e.Event? && e.response.id == id)
  }

  lemma FitsFrame(c: Conn, c': Conn, e: Entry, id: nat, s: Stream)
    requires FlowFits(c, id, s) && Extends(c, c', e) && !Touches(e, id) && c'.peer.window == c.peer.window
    ensures FlowFits(c', id, s)
  {
  }

  lemma FlowFrame(c: Conn, c': Conn, e: Entry, k: int)
    requires FlowExcept(c, k) && Extends(c, c', e) && Still(e)
    requires e.Event? ==> e.response.id == k || e.response.id !in c'.streams
    requires c'.sendWindow == c.sendWindow && c'.recvWindow == c.recvWindow && c'.lastId >= c.lastId
    requires c'.peer.window == c.peer.window && c'.peer.maxFrame == c.peer.maxFrame
    requires c'.assembly == c.assembly && c'.dec == c.dec && c'.huffman == c.huffman
    requires forall id {:trigger c'.streams[id]} | id in c'.streams && id != k ::
               id in c.streams && FlowsAlike(c.streams[id], c'.streams[id])
    ensures FlowExcept(c', k)
  {
    UntouchedFrame(c, c', e);
    forall id | id in c'.streams && id != k ensures FlowFits(c', id, c'.streams[id]) {
      assert FlowFits(c, id, c.streams[id]);
    }
  }

  // ---- nothing held back ----

  ghost predicate WaitsAlike(s: Stream, s': Stream) {
    s'.sendPending ==> s.sendPending && s'.body == s.body && s'.sendOff == s.sendOff && s'.sendWindow == s.sendWindow
  }

  lemma QuietFrame(c: Conn, c': Conn)
    requires Quiet(c) && c'.server == c.server && c'.sendWindow == c.sendWindow && c'.backlog >= c.backlog
    requires c'.peer.maxFrame == c.peer.maxFrame
    requires forall id {:trigger c'.streams[id]} | id in c'.streams ::
               id in c.streams && WaitsAlike(c.streams[id], c'.streams[id])
    ensures Quiet(c')
  {
  }
}
