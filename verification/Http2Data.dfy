/** DATA frames: receive windows never run out, and what arrives is what is delivered. */
module Http2Data {
  import opened Bytes
  import opened Http2Frames
  import opened Http2Spec
  import opened Http2Trace
  import opened Http2Invariant
  import opened Http2Leaves
  import opened Http2Errors
  import opened Http2Pump
  import opened Http2Handlers
  import opened Http2Blocks

  lemma WindowFrameCarries(id: nat, inc: nat)
    requires inc <= MAX_WINDOW
    ensures var p := WindowFrame(id, inc).payload; |p| == 4 && Low31(p) == inc
  {
    var p := WindowFrame(id, inc).payload;
    assert p[..4] == p;
  }

  // ---- the connection's account ----

  /** The connection after its receive window has been charged and topped up. */
  function Charged(c: Conn, f: Frame): Conn { ReplenishConn(c.(recvWindow := c.recvWindow - |f.payload|)) }

  lemma ChargedCore(c0: Conn, f: Frame, c: Conn)
    requires Core(c0) && Quiet(c0) && Arrived(c0, f, c)
    ensures Core(Charged(c, f)) && Quiet(Charged(c, f))
  {
    hide Core, Quiet;
    var m := c.(recvWindow := c.recvWindow - |f.payload|);
    var c1 := Charged(c, f);
    ArrivedCore(c0, f, c);
    QuietFrame(c0, c1);
    MovedCore(c, m);
    if c1 != m {
      CoreEmit(m, c1, WindowFrame(0, LOCAL_WINDOW - m.recvWindow));
    }
  }

  lemma ChargedSync(c0: Conn, f: Frame, c: Conn)
    requires PeerSync(c0) && BlockSync(c0) && Arrived(c0, f, c) && f.kind == DATA
    ensures PeerSync(Charged(c, f)) && BlockSync(Charged(c, f))
  {
    assert PeerSync(c) && BlockSync(c);
  }

  lemma ReturnLogged(t: Trace, inc: nat)
    requires inc <= MAX_WINDOW
    ensures var t' := Then(t, Out(WindowFrame(0, inc)));
            && Returned(t', 0) == Returned(t, 0) + inc
            && Granted(t', 0) == Granted(t, 0) && SentAll(t') == SentAll(t) && TakenAll(t') == TakenAll(t)
  {
    WindowFrameCarries(0, inc);
  }

  lemma DataLogged(t: Trace, f: Frame)
    requires f.kind == DATA
    ensures var t' := Then(t, In(f));
            && TakenAll(t') == TakenAll(t) + |f.payload|
            && Granted(t', 0) == Granted(t, 0) && SentAll(t') == SentAll(t) && Returned(t', 0) == Returned(t, 0)
  {
  }

  lemma ChargedConn(c0: Conn, f: Frame, c: Conn)
    requires ConnFlow(c0) && PeerSync(c0) && BlockSync(c0) && Arrived(c0, f, c)
    requires f.kind == DATA && |f.payload| <= LOCAL_MAX_FRAME
    ensures ConnFlow(Charged(c, f)) && PeerSync(Charged(c, f)) && BlockSync(Charged(c, f))
  {
    hide PeerSync, BlockSync, WindowFrame, Granted, SentAll, TakenAll, Returned, FrameLimit, PeerSetting, BlocksOf;
    ChargedSync(c0, f, c);
    var m := c.(recvWindow := c.recvWindow - |f.payload|);
    DataLogged(c0.log, f);
    if Charged(c, f) != m {
      ReturnLogged(m.log, LOCAL_WINDOW - m.recvWindow);
    }
  }

  lemma ChargedFits(c0: Conn, f: Frame, c: Conn, id: nat, s: Stream)
    requires FlowFits(c0, id, s) && Arrived(c0, f, c) && id != f.id && id != 0
    ensures FlowFits(Charged(c, f), id, s)
  {
    var m := c.(recvWindow := c.recvWindow - |f.payload|);
    FitsFrame(c0, m, In(f), id, s);
    hide FlowFits;
    FitsFrame(m, Charged(c, f), Charged(c, f).log.last, id, s);
  }

  lemma ChargedFlow(c0: Conn, f: Frame, c: Conn)
    requires Table(c0) && Flow(c0) && Arrived(c0, f, c)
    requires f.kind == DATA && |f.payload| <= LOCAL_MAX_FRAME && f.id != 0 && !IsIdle(c0, f.id)
    ensures FlowExcept(Charged(c, f), f.id)
  {
    var m := c.(recvWindow := c.recvWindow - |f.payload|);
    var c1 := Charged(c, f);
    UntouchedFrame(c0, m, In(f));
    UntouchedFrame(m, c1, c1.log.last);
    ChargedConn(c0, f, c);
    ChargedSame(c, f);
    forall j | j in c1.streams && j != f.id ensures FlowFits(c1, j, c1.streams[j]) {
      assert j % 2 == 1;
      ChargedFits(c0, f, c, j, c0.streams[j]);
    }
    hide Charged, ConnFlow, PeerSync, BlockSync, Untouched, FlowFits;
  }

  // ---- the stream's account ----

  /** The stream as it stood before this frame, which the log already shows. */
  ghost predicate Due(c: Conn, f: Frame, data: seq<byte>) {
    && f.id in c.streams
    && var s := c.streams[f.id];
    && CanReceive(s.state) && SendFits(c, f.id, s)
    && (!c.server ==> Steady(s, ProgressOf(c.log, f.id)))
    && s.recvWindow - |f.payload| == LOCAL_WINDOW + Returned(c.log, f.id) - Taken(c.log, f.id)
    && LOCAL_WINDOW / 2 < s.recvWindow <= LOCAL_WINDOW
    && (c.server ==> s.content + data == Content(c.log, f.id))
  }

  lemma DueAfterCharge(c0: Conn, f: Frame, c: Conn)
    requires Flow(c0) && Arrived(c0, f, c) && f.kind == DATA && f.id != 0 && DataBytes(f).Some?
    requires f.id in c.streams && CanReceive(c.streams[f.id].state)
    ensures Due(Charged(c, f), f, DataBytes(f).value)
  {
    assert FlowFits(c0, f.id, c0.streams[f.id]);
    var m := c.(recvWindow := c.recvWindow - |f.payload|);
    assert Due(m, f, DataBytes(f).value);
    hide DataBytes;
    DueFrame(m, f, DataBytes(f).value, Charged(c, f));
  }

  lemma DueFrame(m: Conn, f: Frame, data: seq<byte>, c: Conn)
    requires Due(m, f, data) && f.id != 0 && c == ReplenishConn(m)
    ensures Due(c, f, data)
  {
  }

  lemma DataInv(c0: Conn, f: Frame, c: Conn)
    requires Inv(c0) && !c0.state.Dead? && Arrived(c0, f, c) && f.kind == DATA && |f.payload| <= LOCAL_MAX_FRAME
    ensures Inv(HandleData(c, f))
  {
    hide Core, Flow, FlowExcept, Quiet, ConnError, StreamError, TakeData, DataBytes, Due, ReplenishConn;
    var c1 := Charged(c, f);
    ArrivedCore(c0, f, c);
    ChargedCore(c0, f, c);
    ConnErrorInv(c, PROTOCOL_ERROR);
    ConnErrorInv(c, FLOW_CONTROL_ERROR);
    ConnErrorInv(c1, FRAME_SIZE_ERROR);
    ConnErrorInv(c1, PROTOCOL_ERROR);
    ChargedSame(c, f);
    if f.id != 0 && !IsIdle(c1, f.id) {
      CoreIsTable(c0);
      ChargedFlow(c0, f, c);
      StreamErrorInv(c1, f.id, STREAM_CLOSED);
      StreamErrorInv(c1, f.id, FLOW_CONTROL_ERROR);
      if DataBytes(f).Some? && f.id in c1.streams && CanReceive(c1.streams[f.id].state) {
        DueAfterCharge(c0, f, c);
        TakeInv(c1, f, DataBytes(f).value);
      }
    }
  }

  lemma ChargedSame(c: Conn, f: Frame)
    ensures Charged(c, f).streams == c.streams && Charged(c, f).lastId == c.lastId && Charged(c, f).state == c.state
    ensures Charged(c, f).server == c.server
  {
  }

  // ---- taking the payload ----

  function TakenStream(c: Conn, f: Frame, data: seq<byte>): Stream
    requires f.id in c.streams
  {
    var s := c.streams[f.id];
    s.(recvWindow := s.recvWindow - |f.payload|, received := s.received + |data|,
       content := if c.server then s.content + data else s.content,
       state := AfterDataReceived(s.state, Bit0(f.flags)))
  }

  /** The connection with the payload credited to its stream and, for a client, reported. */
  function Credited(c: Conn, f: Frame, data: seq<byte>): Conn
    requires f.id in c.streams
  {
    var c1 := SetStream(c, f.id, TakenStream(c, f, data));
    if c.server || data == [] then c1 else Notify(c1, DataEvent, f.id, NO_ERROR, [], data, Bit0(f.flags))
  }

  lemma DueIsLive(c: Conn, f: Frame, data: seq<byte>)
    requires Due(c, f, data)
    ensures f.id in c.streams
  {
  }

  /** The payload is refused, or credited and the stream moved on. */
  lemma TakeCases(c: Conn, f: Frame, data: seq<byte>)
    requires f.id in c.streams
    ensures var s, c' := c.streams[f.id], TakeData(c, f, data);
            || c' == StreamError(c, f.id, ENHANCE_YOUR_CALM)
            || c' == StreamError(c, f.id, PROTOCOL_ERROR)
            || (&& s.received + |data| <= c.maxBody && (c.server || s.status != 0)
                && c' == if !Bit0(f.flags) then ReplenishStream(Credited(c, f, data), f.id)
                         else if c.server then CompleteRequest(Credited(c, f, data), f.id, TakenStream(c, f, data))
                         else CompleteResponse(Credited(c, f, data), f.id, TakenStream(c, f, data)))
  {
    hide StreamError, CompleteRequest, CompleteResponse, ReplenishStream;
  }

  lemma TakeInv(c: Conn, f: Frame, data: seq<byte>)
    requires Core(c) && FlowExcept(c, f.id) && Quiet(c) && !c.state.Dead? && Due(c, f, data)
    requires |f.payload| <= LOCAL_MAX_FRAME
    ensures Inv(TakeData(c, f, data))
  {
    DueIsLive(c, f, data);
    TakeCases(c, f, data);
    CreditedStream(c, f, data);
    hide Core, Flow, FlowExcept, Quiet, Inv, StreamError, CompleteRequest, CompleteResponse, ReplenishStream, Due, TakeData, Credited, TakenStream;
    StreamErrorInv(c, f.id, ENHANCE_YOUR_CALM);
    StreamErrorInv(c, f.id, PROTOCOL_ERROR);
    if c.streams[f.id].received + |data| <= c.maxBody && (c.server || c.streams[f.id].status != 0) {
      if c.server {
        ServerTakes(c, f, data);
      } else {
        ClientTakes(c, f, data);
      }
    }
  }

  lemma CreditedStream(c: Conn, f: Frame, data: seq<byte>)
    requires f.id in c.streams
    ensures f.id in Credited(c, f, data).streams && Credited(c, f, data).streams[f.id] == TakenStream(c, f, data)
  {
  }

  lemma ServerTakes(c: Conn, f: Frame, data: seq<byte>)
    requires Core(c) && FlowExcept(c, f.id) && Quiet(c) && c.server && !c.state.Dead? && Due(c, f, data)
    requires |f.payload| <= LOCAL_MAX_FRAME && c.streams[f.id].received + |data| <= c.maxBody
    ensures var c1 := Credited(c, f, data);
            Inv(if Bit0(f.flags) then CompleteRequest(c1, f.id, c1.streams[f.id]) else ReplenishStream(c1, f.id))
  {
    var c1 := Credited(c, f, data);
    ServerCredited(c, f, data);
    CreditedFlow(c, f, data);
    if Bit0(f.flags) {
      ServerFinished(c, f, data);
      hide Core, FlowExcept, Quiet, CompleteRequest, Finished, SendFits, Due;
      CompleteRequestInv(c1, f.id, c1.streams[f.id]);
    } else {
      hide Core, FlowExcept, Quiet, ReplenishStream, Due;
      ReplenishInv(c1, f.id);
    }
  }

  lemma ServerCredited(c: Conn, f: Frame, data: seq<byte>)
    requires Core(c) && c.server && f.id in c.streams && CanReceive(c.streams[f.id].state)
    requires c.streams[f.id].received + |data| <= c.maxBody
    ensures Core(Credited(c, f, data))
  {
    var c1 := Credited(c, f, data);
    var e := In(Frame(0, 0, 0, []));
    assert Shape(c.streams[f.id]);
    assert RequestFits(c, f.id, c.streams[f.id]);
    assert RequestFits(c1, f.id, c1.streams[f.id]);
    assert Table(c1);
    hide Table, Sends, Requests, Responses, Goaways;
    SendsFrame(c, c1, e);
    RequestsPut(c, c1, e, f.id);
    ResponsesFrame(c, c1, e);
    GoawaysFrame(c, c1, e);
  }

  /** The stream's own account balances again, before any top-up. */
  ghost predicate Balanced(c: Conn, id: nat) {
    && id in c.streams
    && var s := c.streams[id];
    && SendFits(c, id, s) && (!c.server ==> Steady(s, ProgressOf(c.log, id)))
    && s.recvWindow == LOCAL_WINDOW + Returned(c.log, id) - Taken(c.log, id)
    && 0 <= s.recvWindow <= LOCAL_WINDOW
    && (c.server ==> s.content == Content(c.log, id))
  }

  lemma CreditedFlow(c: Conn, f: Frame, data: seq<byte>)
    requires FlowExcept(c, f.id) && Quiet(c) && Due(c, f, data) && |f.payload| <= LOCAL_MAX_FRAME
    ensures var c1 := Credited(c, f, data); FlowExcept(c1, f.id) && Quiet(c1)
    ensures !Bit0(f.flags) ==> Balanced(Credited(c, f, data), f.id)
  {
    hide FlowExcept, Quiet, Balanced;
    var c1 := Credited(c, f, data);
    CreditedBalances(c, f, data);
    FlowFrame(c, c1, if c.server || data == [] then Opened(0, []) else c1.log.last, f.id);
    QuietFrame(c, c1);
  }

  lemma CreditedBalances(c: Conn, f: Frame, data: seq<byte>)
    requires Due(c, f, data) && |f.payload| <= LOCAL_MAX_FRAME
    ensures !Bit0(f.flags) ==> Balanced(Credited(c, f, data), f.id)
  {
  }

  lemma ServerFinished(c: Conn, f: Frame, data: seq<byte>)
    requires Requests(c) && c.server && Due(c, f, data) && Bit0(f.flags)
    requires c.streams[f.id].received + |data| <= c.maxBody
    ensures var c1 := Credited(c, f, data); Finished(c1, f.id, c1.streams[f.id]) && SendFits(c1, f.id, c1.streams[f.id])
  {
    assert RequestFits(c, f.id, c.streams[f.id]);
  }

  lemma ReplenishInv(c: Conn, id: nat)
    requires Core(c) && FlowExcept(c, id) && Quiet(c) && Balanced(c, id)
    ensures Inv(ReplenishStream(c, id))
  {
    hide Core, Flow, FlowExcept, Quiet, Balanced, WindowFrame;
    BalancedUsed(c, id);
    var s := c.streams[id];
    if s.recvWindow > LOCAL_WINDOW / 2 {
      NoTopUp(c, id);
    } else {
      var c' := ReplenishStream(c, id);
      var inc := LOCAL_WINDOW - s.recvWindow;
      ReplenishFlow(c, id, inc, c');
      QuietFrame(c, c');
      WindowControl(id, inc);
      CoreEmit(c, c', WindowFrame(id, inc));
    }
  }

  lemma WindowControl(id: nat, inc: nat)
    ensures Control(WindowFrame(id, inc)) && WindowFrame(id, inc).kind == WINDOW_UPDATE
  {
  }

  lemma BalancedUsed(c: Conn, id: nat)
    requires Core(c) && Balanced(c, id)
    ensures id in c.streams && id % 2 == 1 && id <= c.lastId && c.streams[id].recvWindow <= LOCAL_WINDOW
  {
    CoreIsTable(c);
    hide Core;
  }

  lemma NoTopUp(c: Conn, id: nat)
    requires FlowExcept(c, id) && Balanced(c, id) && c.streams[id].recvWindow > LOCAL_WINDOW / 2
    ensures Flow(c)
  {
    assert FlowFits(c, id, c.streams[id]);
  }

  lemma ReplenishFlow(c: Conn, id: nat, inc: nat, c': Conn)
    requires FlowExcept(c, id) && Balanced(c, id) && inc == LOCAL_WINDOW - c.streams[id].recvWindow
    requires c' == Emit(SetStream(c, id, c.streams[id].(recvWindow := LOCAL_WINDOW)), WindowFrame(id, inc))
    requires id != 0 && !IdleOdd(c, id)
    ensures Flow(c')
  {
    WindowFrameCarries(id, inc);
    UntouchedFrame(c, c', c'.log.last);
    assert FlowFits(c', id, c'.streams[id]);
    forall j | j in c'.streams && j != id ensures FlowFits(c', j, c'.streams[j]) {
      FitsFrame(c, c', c'.log.last, j, c.streams[j]);
    }
  }

  // ---- client ----

  lemma ClientTakes(c: Conn, f: Frame, data: seq<byte>)
    requires Core(c) && FlowExcept(c, f.id) && Quiet(c) && !c.server && !c.state.Dead? && Due(c, f, data)
    requires |f.payload| <= LOCAL_MAX_FRAME && c.streams[f.id].status != 0
    ensures var c1 := Credited(c, f, data);
            Inv(if Bit0(f.flags) then CompleteResponse(c1, f.id, TakenStream(c, f, data)) else ReplenishStream(c1, f.id))
  {
    var c1 := Credited(c, f, data);
    ClientCredited(c, f, data);
    CreditedFlow(c, f, data);
    assert c1.streams[f.id] == TakenStream(c, f, data);
    if Bit0(f.flags) {
      assert ResponseOk(c, f.id);
      hide Core, FlowExcept, Quiet, CompleteResponse, Due;
      CompleteResponseInv(c1, f.id, TakenStream(c, f, data));
    } else {
      hide Core, FlowExcept, Quiet, ReplenishStream, Due;
      ReplenishInv(c1, f.id);
    }
  }

  lemma ClientCredited(c: Conn, f: Frame, data: seq<byte>)
    requires Core(c) && !c.server && Due(c, f, data) && c.streams[f.id].status != 0
    ensures Core(Credited(c, f, data))
  {
    hide Table, Ids, Sends, Requests, Goaways, ResponseOk, PhaseFits;
    var c1 := Credited(c, f, data);
    var s1 := TakenStream(c, f, data);
    if data == [] {
      hide Core;
      QuietlyTaken(c, f.id, s1);
    } else {
      var r := c1.log.last.response;
      DataFits(c, f.id, s1, r);
      hide Core, ResponseFits;
      EventCore(c, s1, r, c1);
    }
  }

  lemma DataFits(c: Conn, id: nat, s1: Stream, r: Response)
    requires Responses(c) && !c.server && id in c.streams && c.streams[id].status != 0
    requires Steady(c.streams[id], ProgressOf(c.log, id))
    requires r.kind.DataEvent? && r.id == id && r.data != []
    requires s1 == c.streams[id].(recvWindow := s1.recvWindow, state := s1.state, received := c.streams[id].received + |r.data|)
    ensures ResponseFits(s1, OnEvent(ProgressOf(c.log, id), r, HeadOf(c.log, id)), HeadOf(c.log, id))
  {
    assert ResponseOk(c, id);
  }

  lemma QuietlyTaken(c: Conn, id: nat, s: Stream)
    requires Core(c) && !c.server && id in c.streams
    requires s == c.streams[id].(recvWindow := s.recvWindow, state := s.state) && SameSending(c.streams[id], s)
    ensures Core(SetStream(c, id, s))
  {
    var c1 := SetStream(c, id, s);
    var e := In(Frame(0, 0, 0, []));
    assert Shape(c.streams[id]);
    assert Table(c1);
    hide Table, Sends, Requests, Responses, Goaways;
    SendsFrame(c, c1, e);
    RequestsFrame(c, c1, e);
    ResponsesFrame(c, c1, e);
    GoawaysFrame(c, c1, e);
  }
}
