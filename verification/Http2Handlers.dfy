/** Every frame handler keeps the invariant. */
module Http2Handlers {
  import opened Bytes
  import opened Http2Frames
  import opened Http2Spec
  import opened Http2Trace
  import opened Http2Invariant
  import opened Http2Leaves
  import opened Http2Errors
  import opened Http2Pump

  /** c is c0 with f logged as received. */
  ghost predicate Arrived(c0: Conn, f: Frame, c: Conn) {
    c == c0.(log := Then(c0.log, In(f)), firstSeen := true)
  }

  lemma ArrivedCore(c0: Conn, f: Frame, c: Conn)
    requires Core(c0) && Arrived(c0, f, c)
    ensures Core(c)
  {
    CoreFrame(c0, c, In(f));
  }

  lemma ArrivedStill(c0: Conn, f: Frame, c: Conn)
    requires Flow(c0) && Quiet(c0) && Arrived(c0, f, c) && Still(In(f))
    ensures Flow(c) && Quiet(c)
  {
    FlowFrame(c0, c, In(f), -1);
    QuietFrame(c0, c);
  }

  lemma PingInv(c0: Conn, f: Frame, c: Conn)
    requires Inv(c0) && !c0.state.Dead? && Arrived(c0, f, c) && f.kind == PING
    ensures Inv(HandlePing(c, f))
  {
    hide Core, Flow, Quiet, ConnError;
    ArrivedCore(c0, f, c);
    ArrivedStill(c0, f, c);
    ConnErrorInv(c, PROTOCOL_ERROR);
    ConnErrorInv(c, FRAME_SIZE_ERROR);
    ConnErrorInv(c, ENHANCE_YOUR_CALM);
    EmitControlInv(c, Frame(PING, 1, 0, if |f.payload| == 8 then f.payload else []));
  }

  lemma EmitControlInv(c: Conn, f: Frame)
    requires Core(c) && Flow(c) && Quiet(c)
    requires Control(f) && f.kind != GOAWAY && f.kind != WINDOW_UPDATE
    ensures Core(Emit(c, f)) && Flow(Emit(c, f)) && Quiet(Emit(c, f))
  {
    CoreEmit(c, Emit(c, f), f);
    FlowFrame(c, Emit(c, f), Out(f), -1);
    QuietFrame(c, Emit(c, f));
  }

  lemma PriorityInv(c0: Conn, f: Frame, c: Conn)
    requires Inv(c0) && !c0.state.Dead? && Arrived(c0, f, c) && f.kind == PRIORITY
    ensures Inv(HandlePriority(c, f))
  {
    hide Core, Flow, FlowExcept, Quiet, ConnError, StreamError;
    ArrivedCore(c0, f, c);
    ArrivedStill(c0, f, c);
    FlowButOne(c, f.id);
    ConnErrorInv(c, PROTOCOL_ERROR);
    StreamErrorInv(c, f.id, FRAME_SIZE_ERROR);
    StreamErrorInv(c, f.id, PROTOCOL_ERROR);
  }

  lemma FlowButOne(c: Conn, id: nat)
    requires Flow(c)
    ensures FlowExcept(c, id)
  {
  }

  // ---- RST_STREAM ----

  /** A stream leaves without a frame from us. */
  lemma LeaveInv(c: Conn, id: nat, error: nat)
    requires Core(c) && Flow(c) && Quiet(c) && id in c.streams
    ensures Inv(CloseStream(if c.server then c else Notify(c, ResetEvent, id, error, [], [], false), id))
  {
    hide Core, Flow, Quiet, SwapRemove;
    var m := if c.server then c else Notify(c, ResetEvent, id, error, [], [], false);
    var c' := CloseStream(m, id);
    if c.server { ServerLeaveCore(c, id); } else { ResetOneCore(c, id, error); }
    LeaveFlow(c, c', if c.server then Opened(0, []) else m.log.last);
  }

  lemma LeaveFlow(c: Conn, c': Conn, e: Entry)
    requires Flow(c) && Quiet(c) && Extends(c, c', e) && (e.Opened? || (e.Event? && e.response.id !in c'.streams))
    requires c' == c.(log := c'.log, streams := c'.streams, openIds := c'.openIds, closedIds := c'.closedIds)
    requires c'.streams.Keys <= c.streams.Keys && forall id {:trigger c'.streams[id]} | id in c'.streams :: c'.streams[id] == c.streams[id]
    ensures Flow(c') && Quiet(c')
  {
    FlowFrame(c, c', e, -1);
    QuietFrame(c, c');
  }

  lemma ServerLeaveCore(c: Conn, id: nat)
    requires Core(c) && c.server
    ensures Core(CloseStream(c, id))
  {
    hide Table, Sends, Requests, Responses, Goaways;
    var c' := CloseStream(c, id);
    var e := In(Frame(0, 0, 0, []));
    TableClose(c, id);
    SendsFrame(c, c', e);
    RequestsFrame(c, c', e);
    ResponsesFrame(c, c', e);
    GoawaysFrame(c, c', e);
  }

  lemma RstInv(c0: Conn, f: Frame, c: Conn)
    requires Inv(c0) && !c0.state.Dead? && Arrived(c0, f, c) && f.kind == RST_STREAM
    ensures Inv(HandleRst(c, f))
  {
    hide Core, Flow, Quiet, ConnError;
    ArrivedCore(c0, f, c);
    ArrivedStill(c0, f, c);
    ConnErrorInv(c, PROTOCOL_ERROR);
    ConnErrorInv(c, FRAME_SIZE_ERROR);
    if f.id in c.streams && |f.payload| == 4 {
      LeaveInv(c, f.id, GetU32(f.payload));
    }
  }

  // ---- GOAWAY ----

  lemma {:induction false} ResetAllInv(c: Conn, error: nat)
    requires Core(c) && Flow(c) && Quiet(c) && !c.state.Dead?
    ensures Inv(ResetAll(c, error))
    decreases |c.openIds|
  {
    hide Core, Flow, Quiet;
    if !c.server && c.openIds != [] {
      var id := c.openIds[|c.openIds| - 1];
      CoreIsTable(c);
      assert id in c.openIds;
      LeaveInv(c, id, error);
      ResetAllInv(CloseStream(Notify(c, ResetEvent, id, error, [], [], false), id), error);
    }
  }

  lemma {:induction false} ResetAboveInv(c: Conn, ids: seq<nat>, cutoff: nat)
    requires Core(c) && Flow(c) && Quiet(c) && !c.server && !c.state.Dead?
    requires Distinct(ids) && forall id | id in ids :: id in c.streams
    ensures Inv(ResetAbove(c, ids, cutoff))
    decreases |ids|
  {
    hide Core, Flow, Quiet;
    if ids != [] {
      assert forall id | id in ids[1..] :: id in ids;
      assert ids[0] !in ids[1..];
      if ids[0] <= cutoff {
        ResetAboveInv(c, ids[1..], cutoff);
      } else {
        LeaveInv(c, ids[0], NO_ERROR);
        ResetAboveInv(CloseStream(Notify(c, ResetEvent, ids[0], NO_ERROR, [], [], false), ids[0]), ids[1..], cutoff);
      }
    }
  }

  lemma SetState(c: Conn, c': Conn)
    requires Core(c) && Flow(c) && Quiet(c) && c' == c.(state := c'.state, goawayIn := c'.goawayIn) && NoRevival(c, c')
    ensures Core(c') && Flow(c') && Quiet(c')
  {
    var e := In(Frame(0, 0, 0, []));
    CoreFrame(c, c', e);
    FlowFrame(c, c', Opened(0, []), -1);
    QuietFrame(c, c');
  }

  lemma GoawayInv(c0: Conn, f: Frame, c: Conn)
    requires Inv(c0) && !c0.state.Dead? && Arrived(c0, f, c) && f.kind == GOAWAY
    ensures Inv(HandleGoaway(c, f))
  {
    hide Core, Flow, Quiet, ConnError, ResetAll, ResetAbove;
    ArrivedCore(c0, f, c);
    ArrivedStill(c0, f, c);
    ConnErrorInv(c, PROTOCOL_ERROR);
    ConnErrorInv(c, FRAME_SIZE_ERROR);
    CoreIsTable(c);
    if f.id == 0 && |f.payload| >= 8 {
      var c1 := if c.state.Active? then c.(state := GoawayReceived) else c;
      SetState(c, c1);
      var code := GetU32(f.payload[4..8]);
      if c1.server {
      } else if code != NO_ERROR {
        ResetAllInv(c1, code);
      } else {
        var cutoff := Min(c1.goawayIn, Low31(f.payload));
        SetState(c1, c1.(goawayIn := cutoff));
        ResetAboveInv(c1.(goawayIn := cutoff), c1.openIds, cutoff);
      }
    }
  }

  // ---- WINDOW_UPDATE ----

  /** A window update for a used stream disturbs the accounts of that stream alone. */
  lemma CreditLogged(c0: Conn, f: Frame, c: Conn)
    requires Flow(c0) && Arrived(c0, f, c) && f.kind == WINDOW_UPDATE && f.id != 0 && !IsIdle(c0, f.id)
    ensures FlowExcept(c, f.id)
    ensures f.id !in c.streams ==> Flow(c)
  {
    UntouchedFrame(c0, c, In(f));
    forall j | j in c.streams && j != f.id ensures FlowFits(c, j, c.streams[j]) {
      assert FlowFits(c0, j, c0.streams[j]);
    }
  }

  lemma PutFlow(c: Conn, id: nat, s: Stream)
    requires FlowExcept(c, id) && FlowFits(c, id, s)
    ensures Flow(SetStream(c, id, s))
  {
    var c' := SetStream(c, id, s);
    forall j | j in c'.streams ensures FlowFits(c', j, c'.streams[j]) {
      if j != id {
        assert FlowFits(c, j, c.streams[j]);
      }
    }
  }

  lemma CreditStream(c0: Conn, f: Frame, c: Conn)
    requires Flow(c0) && Arrived(c0, f, c) && f.kind == WINDOW_UPDATE && f.id != 0 && |f.payload| == 4
    requires f.id in c.streams && c.streams[f.id].sendWindow + Low31(f.payload) <= MAX_WINDOW
    ensures var s := c.streams[f.id]; FlowFits(c, f.id, s.(sendWindow := s.sendWindow + Low31(f.payload)))
  {
    assert FlowFits(c0, f.id, c0.streams[f.id]);
  }

  lemma CreditConn(c0: Conn, f: Frame, c: Conn)
    requires Table(c0) && Flow(c0) && Arrived(c0, f, c) && f.kind == WINDOW_UPDATE && f.id == 0 && |f.payload| == 4
    requires c.sendWindow + Low31(f.payload) <= MAX_WINDOW
    ensures Flow(c.(sendWindow := c.sendWindow + Low31(f.payload)))
  {
    var c' := c.(sendWindow := c.sendWindow + Low31(f.payload));
    UntouchedFrame(c0, c', In(f));
    forall j | j in c'.streams ensures FlowFits(c', j, c'.streams[j]) {
      assert j % 2 == 1;
      assert FlowFits(c0, j, c0.streams[j]);
    }
  }

  lemma MovedCore(c: Conn, c': Conn)
    requires Core(c) && c'.log == c.log && SameTable(c, c') && NoRevival(c, c')
    ensures Core(c')
  {
    CoreFrame(c, c', In(Frame(0, 0, 0, [])));
  }

  lemma PumpKeepsInv(c: Conn)
    requires Core(c) && Flow(c)
    ensures Inv(Pump(c))
  {
    hide Core, Flow, Quiet, Pump;
    PumpInv(c);
  }

  lemma WindowUpdateInv(c0: Conn, f: Frame, c: Conn)
    requires Inv(c0) && !c0.state.Dead? && Arrived(c0, f, c) && f.kind == WINDOW_UPDATE
    ensures Inv(HandleWindowUpdate(c, f))
  {
    hide Core, Flow, Quiet, ConnError, StreamError, Pump, IsIdle;
    ArrivedCore(c0, f, c);
    ConnErrorInv(c, FRAME_SIZE_ERROR);
    ConnErrorInv(c, PROTOCOL_ERROR);
    ConnErrorInv(c, FLOW_CONTROL_ERROR);
    if |f.payload| == 4 {
      if f.id == 0 {
        if c.sendWindow + Low31(f.payload) <= MAX_WINDOW {
          CreditConnInv(c0, f, c);
        }
      } else if !IsIdle(c, f.id) {
        CreditStreamInv(c0, f, c);
      }
    }
  }

  lemma CreditConnInv(c0: Conn, f: Frame, c: Conn)
    requires Core(c0) && Core(c) && Flow(c0) && Arrived(c0, f, c) && f.kind == WINDOW_UPDATE && f.id == 0 && |f.payload| == 4
    requires c.sendWindow + Low31(f.payload) <= MAX_WINDOW
    ensures Inv(Pump(c.(sendWindow := c.sendWindow + Low31(f.payload))))
  {
    hide Core, Flow, Pump;
    var c1 := c.(sendWindow := c.sendWindow + Low31(f.payload));
    CoreIsTable(c0);
    CreditConn(c0, f, c);
    MovedCore(c, c1);
    PumpKeepsInv(c1);
  }

  lemma CreditStreamInv(c0: Conn, f: Frame, c: Conn)
    requires Inv(c0) && !c0.state.Dead? && Core(c) && Arrived(c0, f, c) && f.kind == WINDOW_UPDATE
    requires f.id != 0 && |f.payload| == 4 && !IsIdle(c, f.id)
    ensures Inv(HandleWindowUpdate(c, f))
  {
    hide Core, Flow, FlowExcept, FlowFits, Quiet, StreamError, Pump;
    ArrivedQuiet(c0, f, c);
    CreditLogged(c0, f, c);
    StreamErrorInv(c, f.id, PROTOCOL_ERROR);
    StreamErrorInv(c, f.id, FLOW_CONTROL_ERROR);
    if f.id in c.streams && c.streams[f.id].sendWindow + Low31(f.payload) <= MAX_WINDOW {
      var s := c.streams[f.id];
      var s1 := s.(sendWindow := s.sendWindow + Low31(f.payload));
      CreditStream(c0, f, c);
      PutFlow(c, f.id, s1);
      MovedCore(c, SetStream(c, f.id, s1));
      PumpKeepsInv(SetStream(c, f.id, s1));
    }
  }

  lemma ArrivedQuiet(c0: Conn, f: Frame, c: Conn)
    requires Quiet(c0) && Arrived(c0, f, c)
    ensures Quiet(c)
  {
    QuietFrame(c0, c);
  }

  // ---- SETTINGS ----

  /** Only windows are touched, whether or not the adjustment goes through. */
  lemma {:induction false} AdjustAlike(streams: map<nat, Stream>, ids: seq<nat>, delta: int)
    ensures var r := Adjust(streams, ids, delta);
            && r.streams.Keys == streams.Keys
            && (forall id {:trigger r.streams[id]} | id in r.streams :: Alike(streams[id], r.streams[id]))
    decreases |ids|
  {
    if ids != [] {
      if ids[0] in streams {
        var s := streams[ids[0]];
        AdjustAlike(streams[ids[0] := s.(sendWindow := s.sendWindow + delta)], ids[1..], delta);
      } else {
        AdjustAlike(streams, ids[1..], delta);
      }
    }
  }

  /** If it goes through, a listed stream has moved by delta and is within the limit; if not, some have. */
  lemma {:induction false} AdjustAt(streams: map<nat, Stream>, ids: seq<nat>, delta: int, id: nat)
    requires Distinct(ids) && id in streams
    ensures var r := Adjust(streams, ids, delta);
            && id in r.streams
            && (id !in ids ==> r.streams[id] == streams[id])
            && (r.ok && id in ids ==> var w := streams[id].sendWindow + delta;
                                      w <= MAX_WINDOW && r.streams[id] == streams[id].(sendWindow := w))
            && (r.streams[id] == streams[id] ||
                var w := streams[id].sendWindow + delta; w <= MAX_WINDOW && r.streams[id] == streams[id].(sendWindow := w))
    decreases |ids|
  {
    if ids != [] {
      assert ids[0] !in ids[1..];
      if ids[0] in streams {
        var s := streams[ids[0]];
        AdjustAt(streams[ids[0] := s.(sendWindow := s.sendWindow + delta)], ids[1..], delta, id);
      } else {
        AdjustAt(streams, ids[1..], delta, id);
      }
    }
  }

  /** Flow as it stands while a SETTINGS frame is being applied. */
  ghost predicate FlowBase(c: Conn) {
    && ConnFlow(c) && BlockSync(c) && Untouched(c) && PeerRange(c)
    && (forall id {:trigger c.streams[id]} | id in c.streams :: FlowFits(c, id, c.streams[id]))
  }

  lemma FitsShift(c: Conn, c': Conn, id: nat, s: Stream)
    requires FlowFits(c, id, s) && c' == c.(streams := c'.streams, peer := c'.peer)
    requires s.sendWindow + c'.peer.window - c.peer.window <= MAX_WINDOW
    ensures FlowFits(c', id, s.(sendWindow := s.sendWindow + c'.peer.window - c.peer.window))
  {
  }

  lemma AdjustFlow(c: Conn, v: nat)
    requires Table(c) && FlowBase(c) && v <= MAX_WINDOW && Adjust(c.streams, c.openIds, v - c.peer.window).ok
    ensures FlowBase(c.(streams := Adjust(c.streams, c.openIds, v - c.peer.window).streams, peer := c.peer.(window := v)))
  {
    hide Adjust, FlowFits;
    var streams := Adjust(c.streams, c.openIds, v - c.peer.window).streams;
    var c' := c.(streams := streams, peer := c.peer.(window := v));
    AdjustAlike(c.streams, c.openIds, v - c.peer.window);
    UntouchedFrame(c, c', Opened(0, []));
    forall id | id in c'.streams ensures FlowFits(c', id, c'.streams[id]) {
      assert id in c.openIds;
      AdjustAt(c.streams, c.openIds, v - c.peer.window, id);
      FitsShift(c, c', id, c.streams[id]);
    }
  }

  /** Settings other than the initial window. */
  lemma PeerFlow(c: Conn, c': Conn)
    requires FlowBase(c) && c' == c.(peer := c'.peer, enc := c'.enc) && c'.peer.window == c.peer.window && PeerRange(c')
    ensures FlowBase(c')
  {
    UntouchedFrame(c, c', Opened(0, []));
    forall id | id in c'.streams ensures FlowFits(c', id, c'.streams[id]) {
      assert FlowFits(c, id, c.streams[id]);
    }
  }

  lemma ApplyWindowKeeps(c: Conn, v: nat)
    requires Core(c) && FlowBase(c)
    ensures var c' := ApplyWindow(c, v);
            && Core(c')
            && (!c'.state.Dead? ==>
                  FlowBase(c') && c'.log == c.log && c'.peer.window == v && c'.peer.maxFrame == c.peer.maxFrame)
  {
    hide Core, FlowBase, ConnError, Adjust;
    CoreIsTable(c);
    var r := Adjust(c.streams, c.openIds, v - c.peer.window);
    AdjustAlike(c.streams, c.openIds, v - c.peer.window);
    MovedCore(c, c.(streams := r.streams));
    if v > MAX_WINDOW {
      ConnErrorCore(c, FLOW_CONTROL_ERROR);
    } else if !r.ok {
      ConnErrorCore(c.(streams := r.streams), FLOW_CONTROL_ERROR);
    } else {
      AdjustFlow(c, v);
      MovedCore(c.(streams := r.streams), ApplyWindow(c, v));
    }
  }

  lemma ApplySettingKeeps(c: Conn, id: nat, v: nat)
    requires Core(c) && FlowBase(c) && !c.state.Dead?
    ensures var c' := ApplySetting(c, id, v);
            && Core(c')
            && (!c'.state.Dead? ==>
                  && FlowBase(c') && c'.log == c.log
                  && c'.peer.window == (if id == 4 then v else c.peer.window)
                  && c'.peer.maxFrame == (if id == 5 then v else c.peer.maxFrame))
  {
    hide Core, FlowBase, ConnError, ApplyWindow;
    var c' := ApplySetting(c, id, v);
    FlowBaseRange(c);
    if id == 4 {
      ApplyWindowKeeps(c, v);
    } else if c'.state.Dead? {
      ConnErrorCore(c, PROTOCOL_ERROR);
    } else {
      SettingOnlyPeer(c, id, v);
      PeerFlow(c, c');
      MovedCore(c, c');
    }
  }

  lemma FlowBaseRange(c: Conn)
    requires FlowBase(c)
    ensures PeerRange(c)
  {
  }

  lemma SettingOnlyPeer(c: Conn, id: nat, v: nat)
    requires PeerRange(c) && id != 4 && !c.state.Dead? && !ApplySetting(c, id, v).state.Dead?
    ensures var c' := ApplySetting(c, id, v);
            && c' == c.(peer := c'.peer, enc := c'.enc) && c'.peer.window == c.peer.window && PeerRange(c')
            && c'.peer.maxFrame == (if id == 5 then v else c.peer.maxFrame)
  {
    ErrorKills(c, PROTOCOL_ERROR);
    hide ConnError;
  }

  lemma {:induction false} ApplySettingsKeeps(c: Conn, payload: seq<byte>)
    requires Core(c) && FlowBase(c) && !c.state.Dead? && |payload| % 6 == 0
    ensures var c' := ApplySettings(c, payload);
            && Core(c')
            && (!c'.state.Dead? ==>
                  && FlowBase(c') && c'.log == c.log
                  && c'.peer.window == LastIn(payload, 4, c.peer.window)
                  && c'.peer.maxFrame == LastIn(payload, 5, c.peer.maxFrame))
    decreases |payload|
  {
    hide Core, FlowBase, ApplySetting;
    if payload != [] {
      var id, v := GetU16(payload[..2]), GetU32(payload[2..6]);
      ApplySettingKeeps(c, id, v);
      var c1 := ApplySetting(c, id, v);
      if !c1.state.Dead? {
        ApplySettingsKeeps(c1, payload[6..]);
      }
    }
  }

  lemma SettingsLogged(c0: Conn, f: Frame, c: Conn)
    requires Flow(c0) && Arrived(c0, f, c) && f.kind == SETTINGS
    ensures FlowBase(c)
    ensures Bit0(f.flags) ==> Flow(c)
  {
    UntouchedFrame(c0, c, In(f));
    forall j | j in c.streams ensures FlowFits(c, j, c.streams[j]) {
      assert FlowFits(c0, j, c0.streams[j]);
    }
  }

  lemma SettingsSynced(c0: Conn, f: Frame, c: Conn)
    requires Flow(c0) && f.kind == SETTINGS && !Bit0(f.flags) && |f.payload| % 6 == 0
    requires FlowBase(c) && c.log == Then(c0.log, In(f))
    requires c.peer.window == LastIn(f.payload, 4, c0.peer.window)
    requires c.peer.maxFrame == LastIn(f.payload, 5, c0.peer.maxFrame)
    ensures Flow(c)
  {
  }

  lemma SettingsInv(c0: Conn, f: Frame, c: Conn)
    requires Inv(c0) && !c0.state.Dead? && Arrived(c0, f, c) && f.kind == SETTINGS
    ensures Inv(HandleSettings(c, f))
  {
    hide Core, Flow, FlowBase, Quiet, ConnError, Pump, ApplySettings;
    ArrivedCore(c0, f, c);
    ArrivedQuiet(c0, f, c);
    SettingsLogged(c0, f, c);
    ConnErrorInv(c, PROTOCOL_ERROR);
    ConnErrorInv(c, FRAME_SIZE_ERROR);
    if !Bit0(f.flags) && |f.payload| % 6 == 0 {
      ApplySettingsKeeps(c, f.payload);
      var c1 := ApplySettings(c, f.payload);
      ConnErrorInv(c1, ENHANCE_YOUR_CALM);
      if !c1.state.Dead? {
        SettingsSynced(c0, f, c1);
        AckThenPump(c1);
      }
    }
  }

  lemma AckThenPump(c: Conn)
    requires Core(c) && Flow(c)
    ensures Inv(Pump(Emit(c, Frame(SETTINGS, 1, 0, []))))
  {
    var f := Frame(SETTINGS, 1, 0, []);
    hide Core, FlowExcept, Quiet, Pump;
    CoreEmit(c, Emit(c, f), f);
    FlowFrame(c, Emit(c, f), Out(f), -1);
    PumpKeepsInv(Emit(c, f));
  }
}
