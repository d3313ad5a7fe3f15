/** The log only grows, and the exact origin of the two histories that exempt a stream from a promise. */
module Http2History {
  import opened Bytes
  import opened HpackSpec
  import opened Http2Frames
  import opened Http2Fields
  import opened Http2Spec
  import opened Http2Trace
  import opened Http2Invariant
  import opened Http2Safety
  import opened Http2Reach
  import opened Http2Theorems

  ghost predicate Extends(t: Trace, t': Trace) {
    t == t' || (t'.Then? && Extends(t, t'.before))
  }

  lemma {:induction false} ExtendsTrans(t: Trace, u: Trace, v: Trace)
    requires Extends(t, u) && Extends(u, v)
    ensures Extends(t, v)
    decreases v
  {
    if u != v {
      ExtendsTrans(t, u, v.before);
    }
  }

  /** More was logged, and neither history changed. */
  ghost predicate Grows(c: Conn, c': Conn) {
    && Extends(c.log, c'.log)
    && c'.server == c.server && c'.lastId == c.lastId && Onward(c, c')
    && c'.idleResets == c.idleResets && c'.earlyAnswers == c.earlyAnswers
  }

  /** The preface is never awaited again, and a GOAWAY is early only while it is awaited. */
  predicate Onward(c: Conn, c': Conn) {
    && (c'.state.PrefacePending? ==> c.state.PrefacePending?)
    && (c.earlyGoaway ==> c'.earlyGoaway)
    && (c'.earlyGoaway ==> c.earlyGoaway || c.state.PrefacePending?)
  }

  lemma GrowsTrans(a: Conn, b: Conn, c: Conn)
    requires Grows(a, b) && Grows(b, c)
    ensures Grows(a, c)
  {
    ExtendsTrans(a.log, b.log, c.log);
  }

  lemma EmitGrows(c: Conn, f: Frame)
    ensures Grows(c, Emit(c, f))
  {
    assert Extends(c.log, c.log);
  }

  lemma DroppedGrows(c: Conn, id: nat, kind: Kind, error: nat)
    ensures Grows(c, CloseStream(c, id))
    ensures Grows(c, CloseStream(Notify(c, kind, id, error, [], [], false), id))
  {
    assert Extends(c.log, c.log);
  }

  lemma {:induction false} ResetAllGrows(c: Conn, error: nat)
    ensures Grows(c, ResetAll(c, error))
    decreases |c.openIds|
  {
    if !c.server && c.openIds != [] {
      var id := c.openIds[|c.openIds| - 1];
      var c1 := CloseStream(Notify(c, ResetEvent, id, error, [], [], false), id);
      DroppedGrows(c, id, ResetEvent, error);
      ResetAllGrows(c1, error);
      GrowsTrans(c, c1, ResetAll(c1, error));
    }
  }

  lemma {:induction false} ResetAboveGrows(c: Conn, ids: seq<nat>, cutoff: nat)
    ensures Grows(c, ResetAbove(c, ids, cutoff))
    decreases |ids|
  {
    if ids != [] {
      if ids[0] <= cutoff {
        ResetAboveGrows(c, ids[1..], cutoff);
      } else {
        var c1 := CloseStream(Notify(c, ResetEvent, ids[0], NO_ERROR, [], [], false), ids[0]);
        DroppedGrows(c, ids[0], ResetEvent, NO_ERROR);
        ResetAboveGrows(c1, ids[1..], cutoff);
        GrowsTrans(c, c1, ResetAbove(c1, ids[1..], cutoff));
      }
    }
  }

  lemma ConnErrorGrows(c: Conn, code: nat)
    ensures Grows(c, ConnError(c, code))
  {
    if !c.state.Dead? {
      var c1 := SayGoaway(c, code, []).(error := code, state := Dead);
      assert Extends(c.log, c.log);
      ResetAllGrows(c1, code);
      GrowsTrans(c, c1, ResetAll(c1, code));
    }
  }

  /** A stream error adds to the history of idle resets just when it resets an unused odd id. */
  lemma StreamErrorGrows(c: Conn, id: nat, code: nat)
    ensures var c' := StreamError(c, id, code);
            && Extends(c.log, c'.log) && c'.server == c.server && c'.lastId == c.lastId && c'.earlyAnswers == c.earlyAnswers && Onward(c, c')
            && c'.idleResets == if c.backlog <= MAX_BACKLOG && IdleOdd(c, id) then c.idleResets + {id} else c.idleResets
  {
    hide ConnError, SwapRemove, RstFrame;
    ConnErrorGrows(c, ENHANCE_YOUR_CALM);
    assert Extends(c.log, c.log);
  }

  /** On an id that is in use, or was, it is like any other step. */
  lemma UsedErrorGrows(c: Conn, id: nat, code: nat)
    requires !IdleOdd(c, id)
    ensures Grows(c, StreamError(c, id, code))
  {
    StreamErrorGrows(c, id, code);
  }

  lemma {:induction false} EmitBlockGrows(c: Conn, id: nat, block: seq<byte>, first: bool, end: bool)
    ensures Grows(c, EmitBlock(c, id, block, first, end))
    decreases |block|
  {
    var kind := if first then HEADERS else CONTINUATION;
    if |block| <= c.peer.maxFrame || c.peer.maxFrame == 0 {
      EmitGrows(c, Frame(kind, HeaderFlags(true, first && end), id, block));
    } else {
      var f := Frame(kind, HeaderFlags(false, first && end), id, block[..c.peer.maxFrame]);
      EmitGrows(c, f);
      EmitBlockGrows(Emit(c, f), id, block[c.peer.maxFrame..], false, end);
      GrowsTrans(c, Emit(c, f), EmitBlock(Emit(c, f), id, block[c.peer.maxFrame..], false, end));
    }
  }

  lemma PumpStreamGrows(c: Conn, id: nat)
    ensures Grows(c, PumpStream(c, id).c)
  {
    assert Extends(c.log, c.log);
  }

  lemma {:induction false} PumpPassGrows(c: Conn, ids: seq<nat>)
    ensures Grows(c, PumpPass(c, ids).c)
    decreases |ids|
  {
    if ids != [] {
      var c1 := PumpStream(c, ids[0]).c;
      PumpStreamGrows(c, ids[0]);
      PumpPassGrows(c1, ids[1..]);
      GrowsTrans(c, c1, PumpPass(c1, ids[1..]).c);
    }
  }

  lemma {:induction false} PumpDataGrows(c: Conn, passes: nat)
    ensures Grows(c, PumpData(c, passes))
    decreases passes
  {
    if passes != 0 && c.sendWindow > 0 {
      var c1 := PumpPass(c, c.openIds).c;
      PumpPassGrows(c, c.openIds);
      if PumpPass(c, c.openIds).progress {
        PumpDataGrows(c1, passes - 1);
        GrowsTrans(c, c1, PumpData(c1, passes - 1));
      }
    }
  }

  /** c1 differs from c in what the histories do not record; pumping it only grows the log. */
  lemma PumpGrows(c: Conn, c1: Conn)
    requires Grows(c, c1)
    ensures Grows(c, Pump(c1))
  {
    PumpDataGrows(c1, MAX_PASSES);
    GrowsTrans(c, c1, Pump(c1));
  }

  lemma ErrorGrows(c: Conn, c1: Conn, code: nat)
    requires Grows(c, c1)
    ensures Grows(c, ConnError(c1, code))
  {
    ConnErrorGrows(c1, code);
    GrowsTrans(c, c1, ConnError(c1, code));
  }

  lemma UsedGrows(c: Conn, c1: Conn, id: nat, code: nat)
    requires Grows(c, c1) && !IdleOdd(c1, id)
    ensures Grows(c, StreamError(c1, id, code))
  {
    UsedErrorGrows(c1, id, code);
    GrowsTrans(c, c1, StreamError(c1, id, code));
  }

  // ---- the handlers ----

  lemma ApplySettingGrows(c: Conn, id: nat, v: nat)
    ensures Grows(c, ApplySetting(c, id, v))
  {
    hide ConnError, Adjust;
    assert Extends(c.log, c.log);
    ConnErrorGrows(c, PROTOCOL_ERROR);
    if id == 4 {
      ConnErrorGrows(c, FLOW_CONTROL_ERROR);
      var c1 := c.(streams := Adjust(c.streams, c.openIds, v - c.peer.window).streams);
      ErrorGrows(c, c1, FLOW_CONTROL_ERROR);
    }
  }

  lemma {:induction false} ApplySettingsGrows(c: Conn, payload: seq<byte>)
    requires |payload| % 6 == 0
    ensures Grows(c, ApplySettings(c, payload))
    decreases |payload|
  {
    hide ApplySetting;
    if payload == [] {
      assert Extends(c.log, c.log);
    } else {
      var c1 := ApplySetting(c, GetU16(payload[..2]), GetU32(payload[2..6]));
      ApplySettingGrows(c, GetU16(payload[..2]), GetU32(payload[2..6]));
      if !c1.state.Dead? {
        ApplySettingsGrows(c1, payload[6..]);
        GrowsTrans(c, c1, ApplySettings(c1, payload[6..]));
      }
    }
  }

  lemma SettingsGrows(c: Conn, f: Frame)
    ensures Grows(c, HandleSettings(c, f))
  {
    hide ApplySettings, Pump, ConnError;
    assert Extends(c.log, c.log);
    ConnErrorGrows(c, PROTOCOL_ERROR);
    ConnErrorGrows(c, FRAME_SIZE_ERROR);
    if f.id == 0 && !Bit0(f.flags) && |f.payload| % 6 == 0 {
      var c1 := ApplySettings(c, f.payload);
      ApplySettingsGrows(c, f.payload);
      ErrorGrows(c, c1, ENHANCE_YOUR_CALM);
      EmitGrows(c1, Frame(SETTINGS, 1, 0, []));
      GrowsTrans(c, c1, Emit(c1, Frame(SETTINGS, 1, 0, [])));
      PumpGrows(c, Emit(c1, Frame(SETTINGS, 1, 0, [])));
    }
  }

  lemma GoawayGrows(c: Conn, f: Frame)
    ensures Grows(c, HandleGoaway(c, f))
  {
    hide ResetAll, ResetAbove, ConnError;
    assert Extends(c.log, c.log);
    ConnErrorGrows(c, PROTOCOL_ERROR);
    ConnErrorGrows(c, FRAME_SIZE_ERROR);
    if f.id == 0 && |f.payload| >= 8 && !c.server {
      var c1 := if c.state.Active? then c.(state := GoawayReceived) else c;
      var cutoff := Min(c1.goawayIn, Low31(f.payload));
      var c2 := c1.(goawayIn := cutoff);
      ResetAllGrows(c1, GetU32(f.payload[4..8]));
      ResetAboveGrows(c2, c1.openIds, cutoff);
      GrowsTrans(c, c1, ResetAll(c1, GetU32(f.payload[4..8])));
      GrowsTrans(c, c2, ResetAbove(c2, c1.openIds, cutoff));
    }
  }

  lemma WindowGrows(c: Conn, f: Frame)
    requires Table(c)
    ensures Grows(c, HandleWindowUpdate(c, f))
  {
    hide Pump, ConnError, StreamError;
    assert Extends(c.log, c.log);
    ConnErrorGrows(c, PROTOCOL_ERROR);
    ConnErrorGrows(c, FRAME_SIZE_ERROR);
    ConnErrorGrows(c, FLOW_CONTROL_ERROR);
    if |f.payload| == 4 {
      var inc := Low31(f.payload);
      PumpGrows(c, c.(sendWindow := c.sendWindow + inc));
      if f.id in c.streams {
        assert f.id <= c.lastId;
        UsedErrorGrows(c, f.id, PROTOCOL_ERROR);
        UsedErrorGrows(c, f.id, FLOW_CONTROL_ERROR);
        var s := c.streams[f.id];
        PumpGrows(c, SetStream(c, f.id, s.(sendWindow := s.sendWindow + inc)));
      }
    }
  }

  lemma SmallGrows(c: Conn, f: Frame)
    ensures Grows(c, HandlePing(c, f)) && Grows(c, HandleRst(c, f))
  {
    hide ConnError;
    assert Extends(c.log, c.log);
    ConnErrorGrows(c, PROTOCOL_ERROR);
    ConnErrorGrows(c, FRAME_SIZE_ERROR);
    ConnErrorGrows(c, ENHANCE_YOUR_CALM);
  }

  lemma CompleteRequestGrows(c: Conn, id: nat, s: Stream)
    requires !IdleOdd(c, id)
    ensures Grows(c, CompleteRequest(c, id, s))
  {
    hide StreamError;
    assert Extends(c.log, c.log);
    UsedErrorGrows(c, id, PROTOCOL_ERROR);
  }

  lemma CompleteResponseGrows(c: Conn, id: nat, s: Stream)
    requires !IdleOdd(c, id)
    ensures Grows(c, CompleteResponse(c, id, s))
  {
    hide StreamError;
    UsedErrorGrows(c, id, PROTOCOL_ERROR);
    var c1 := if s.state.Closed? then c else Emit(c, RstFrame(id, NO_ERROR));
    assert Grows(c, c1) by { assert Extends(c.log, c.log); }
    assert Grows(c1, CloseStream(Notify(c1, CompleteEvent, id, NO_ERROR, [], [], true), id)) by { assert Extends(c1.log, c1.log); }
    GrowsTrans(c, c1, CloseStream(Notify(c1, CompleteEvent, id, NO_ERROR, [], [], true), id));
  }

  /** Like Grows, for steps that also use a new id. */
  ghost predicate GrowsTo(c: Conn, c': Conn) {
    && Extends(c.log, c'.log)
    && c'.server == c.server && c'.lastId >= c.lastId && Onward(c, c')
    && c'.idleResets == c.idleResets && c'.earlyAnswers == c.earlyAnswers
  }

  lemma RequestBlockGrows(c: Conn, a: Assembly, fields: seq<Field>, tooMany: bool)
    requires Table(c)
    ensures GrowsTo(c, FinishRequestBlock(c, a, fields, tooMany))
  {
    hide ConnError, StreamError, CompleteRequest, WellFormed, RecentlyClosed, IsHeadRequest, DeclaredLength;
    if a.id !in c.streams {
      ConnErrorGrows(c, PROTOCOL_ERROR);
      ConnErrorGrows(c, STREAM_CLOSED);
      var c1 := c.(lastId := a.id);
      UsedErrorGrows(c1, a.id, PROTOCOL_ERROR);
      UsedErrorGrows(c1, a.id, REFUSED_STREAM);
      OpenGrows(c1, a.id, a.end, fields);
    } else {
      assert a.id <= c.lastId;
      UsedErrorGrows(c, a.id, PROTOCOL_ERROR);
      UsedErrorGrows(c, a.id, STREAM_CLOSED);
      CompleteRequestGrows(c, a.id, c.streams[a.id].(state := AfterHeadersReceived(c.streams[a.id].state, true)));
    }
  }

  lemma OpenGrows(c: Conn, id: nat, end: bool, fields: seq<Field>)
    requires !IdleOdd(c, id)
    ensures Grows(c, OpenStream(c, id, end, fields))
  {
    hide CompleteRequest, DeclaredLength, IsHeadRequest;
    var length := DeclaredLength(fields);
    var s := Stream(AfterHeadersReceived(Idle, end), c.peer.window, LOCAL_WINDOW, [], 0, false,
                    IsHeadRequest(fields), length.Some?, if length.Some? then length.value else 0, 0, [], false, 0);
    var c1 := Log(c.(streams := c.streams[id := s], openIds := c.openIds + [id], acceptedId := id), Opened(id, fields));
    assert Extends(c.log, c.log);
    CompleteRequestGrows(c1, id, s);
    GrowsTrans(c, c1, CompleteRequest(c1, id, s));
  }

  lemma ResponseBlockGrows(c: Conn, a: Assembly, fields: seq<Field>, tooMany: bool)
    requires Table(c)
    ensures Grows(c, FinishResponseBlock(c, a, fields, tooMany))
  {
    hide ConnError, StreamError, ResponseHead, ResponseTrailer;
    ConnErrorGrows(c, PROTOCOL_ERROR);
    if !IsIdle(c, a.id) {
      UsedErrorGrows(c, a.id, PROTOCOL_ERROR);
      UsedErrorGrows(c, a.id, STREAM_CLOSED);
      if a.id in c.streams {
        HeadGrows(c, a, fields);
        TrailerGrows(c, a, fields);
      }
    }
  }

  lemma HeadGrows(c: Conn, a: Assembly, fields: seq<Field>)
    requires a.id in c.streams && !IdleOdd(c, a.id)
    ensures Grows(c, ResponseHead(c, a, fields))
  {
    hide StreamError, CompleteResponse, HeadOk, HeadStream;
    UsedErrorGrows(c, a.id, PROTOCOL_ERROR);
    var s := HeadStream(c.streams[a.id], fields);
    var c1 := Notify(SetStream(c, a.id, s), HeadersEvent, a.id, NO_ERROR, fields, [], a.end);
    assert Extends(c.log, c.log);
    CompleteResponseGrows(c1, a.id, s.(state := AfterHeadersReceived(s.state, true)));
    GrowsTrans(c, c1, CompleteResponse(c1, a.id, s.(state := AfterHeadersReceived(s.state, true))));
  }

  lemma TrailerGrows(c: Conn, a: Assembly, fields: seq<Field>)
    requires a.id in c.streams && !IdleOdd(c, a.id)
    ensures Grows(c, ResponseTrailer(c, a, fields))
  {
    hide StreamError, CompleteResponse, WellFormed, DeclaredLength;
    UsedErrorGrows(c, a.id, PROTOCOL_ERROR);
    var s := c.streams[a.id];
    var s1 := s.(state := AfterHeadersReceived(s.state, true));
    var c1 := Notify(SetStream(c, a.id, s1), TrailersEvent, a.id, NO_ERROR, fields, [], true);
    assert Extends(c.log, c.log);
    CompleteResponseGrows(c1, a.id, s1);
    GrowsTrans(c, c1, CompleteResponse(c1, a.id, s1));
  }

  lemma BlockGrows(c: Conn, a: Assembly)
    requires Table(c)
    ensures GrowsTo(c, FinishBlock(c, a))
  {
    hide ConnError, FinishRequestBlock, FinishResponseBlock, DecodeBlock;
    var decoded := DecodeBlock(c.huffman, c.dec, a.bytes, false);
    var c1 := c.(dec := decoded.st);
    ConnErrorGrows(c1, COMPRESSION_ERROR);
    var tooMany := |decoded.fields| > MAX_HEADERS;
    var fields := if tooMany then decoded.fields[..MAX_HEADERS] else decoded.fields;
    RequestBlockGrows(c1, a, fields, tooMany);
    ResponseBlockGrows(c1, a, fields, tooMany);
  }

  lemma HeadersGrows(c: Conn, f: Frame)
    requires Table(c)
    ensures GrowsTo(c, HandleHeaders(c, f)) && GrowsTo(c, HandleContinuation(c, f))
  {
    hide ConnError, FinishBlock, FragmentOf;
    assert Extends(c.log, c.log);
    forall code ensures Grows(c, ConnError(c, code)) { ConnErrorGrows(c, code); }
    forall a ensures GrowsTo(c, FinishBlock(c, a)) { BlockGrows(c, a); }
    var c1 := c.(assembly := NO_ASSEMBLY);
    forall a ensures GrowsTo(c1, FinishBlock(c1, a)) { BlockGrows(c1, a); }
  }

  lemma DataGrows(c: Conn, f: Frame)
    requires Table(c)
    ensures Grows(c, HandleData(c, f))
  {
    hide ConnError, StreamError, TakeData, DataBytes;
    var n := |f.payload|;
    var c1 := ReplenishConn(c.(recvWindow := c.recvWindow - n));
    assert Grows(c, c1) by { assert Extends(c.log, c.log); }
    forall code ensures Grows(c, ConnError(c, code)) && Grows(c, ConnError(c1, code)) {
      ConnErrorGrows(c, code);
      ErrorGrows(c, c1, code);
    }
    if !IsIdle(c1, f.id) {
      UsedGrows(c, c1, f.id, STREAM_CLOSED);
      UsedGrows(c, c1, f.id, FLOW_CONTROL_ERROR);
      if f.id in c1.streams && DataBytes(f).Some? {
        TakeGrows(c1, f, DataBytes(f).value);
        GrowsTrans(c, c1, TakeData(c1, f, DataBytes(f).value));
      }
    }
  }

  lemma TakeGrows(c: Conn, f: Frame, data: seq<byte>)
    requires f.id in c.streams && !IdleOdd(c, f.id)
    ensures Grows(c, TakeData(c, f, data))
  {
    hide StreamError, CompleteRequest, CompleteResponse, ReplenishStream;
    UsedErrorGrows(c, f.id, PROTOCOL_ERROR);
    UsedErrorGrows(c, f.id, ENHANCE_YOUR_CALM);
    var s := c.streams[f.id];
    var end := Bit0(f.flags);
    var s1 := s.(recvWindow := s.recvWindow - |f.payload|, received := s.received + |data|,
                 content := if c.server then s.content + data else s.content,
                 state := AfterDataReceived(s.state, end));
    var c1 := SetStream(c, f.id, s1);
    var c2 := if c.server || data == [] then c1 else Notify(c1, DataEvent, f.id, NO_ERROR, [], data, end);
    assert Grows(c, c2) by { assert Extends(c.log, c.log); }
    CompleteRequestGrows(c2, f.id, s1);
    CompleteResponseGrows(c2, f.id, s1);
    ReplenishGrows(c2, f.id);
    GrowsTrans(c, c2, CompleteRequest(c2, f.id, s1));
    GrowsTrans(c, c2, CompleteResponse(c2, f.id, s1));
    GrowsTrans(c, c2, ReplenishStream(c2, f.id));
  }

  lemma ReplenishGrows(c: Conn, id: nat)
    requires id in c.streams
    ensures Grows(c, ReplenishStream(c, id))
  {
    assert Extends(c.log, c.log);
  }

  // ---- the origin of an idle reset ----

  /** A PRIORITY frame of the wrong length, or by which a stream depends on itself. */
  predicate BadPriority(f: Frame) {
    f.kind == PRIORITY && f.id != 0 && (|f.payload| != 5 || Low31(f.payload) == f.id)
  }

  /** What a caller or a peer does to have an unused stream reset. */
  predicate ResetsIdle(c: Conn, step: Step, id: nat) {
    && IdleOdd(c, id) && c.backlog <= MAX_BACKLOG
    && match step
       case Reset(j, _) => c.server && j == id
       case Arrive(f) => BadPriority(f) && f.id == id && c.firstSeen && c.assembly.id == 0
       case _ => false
  }

  /** The application answers a stream whose request it has not been told of. */
  predicate AnswersEarly(c: Conn, step: Step, id: nat) {
    && step.Respond? && step.id == id
    && c.server && !c.state.Dead? && id in c.streams
    && CanSend(c.streams[id].state) && !c.streams[id].sendPending && !c.streams[id].complete
    && |AnswerBlock(c, step.status, step.headers)| <= MAX_RESPONSE_BLOCK
  }

  function AnswerBlock(c: Conn, status: nat, hs: seq<AppHeader>): seq<byte> {
    var code := if 100 <= status <= 999 then status else 500;
    EncodeBlock(c.huffman, c.enc, AnswerFields(code, hs))
  }

  /** The two histories after a step, stated from the state before it. */
  ghost predicate Records(c: Conn, step: Step, c': Conn) {
    && Extends(c.log, c'.log) && Onward(c, c') && c'.server == c.server
    && (forall id: nat :: id in c'.idleResets <==> id in c.idleResets || ResetsIdle(c, step, id))
    && (forall id: nat :: id in c'.earlyAnswers <==> id in c.earlyAnswers || AnswersEarly(c, step, id))
  }

  lemma PriorityRecords(c: Conn, f: Frame)
    requires f.kind == PRIORITY
    ensures var c' := HandlePriority(c, f);
            && Extends(c.log, c'.log) && Onward(c, c') && c'.server == c.server && c'.earlyAnswers == c.earlyAnswers
            && c'.idleResets == if BadPriority(f) && c.backlog <= MAX_BACKLOG && IdleOdd(c, f.id) then c.idleResets + {f.id} else c.idleResets
  {
    hide StreamError, ConnError;
    assert Extends(c.log, c.log);
    ConnErrorGrows(c, PROTOCOL_ERROR);
    StreamErrorGrows(c, f.id, PROTOCOL_ERROR);
    StreamErrorGrows(c, f.id, FRAME_SIZE_ERROR);
  }

  lemma DispatchRecords(c: Conn, f: Frame)
    requires Table(c)
    ensures var c' := Dispatch(c, f);
            && Extends(c.log, c'.log) && Onward(c, c') && c'.server == c.server && c'.earlyAnswers == c.earlyAnswers
            && c'.idleResets == if c.assembly.id == 0 && BadPriority(f) && c.backlog <= MAX_BACKLOG && IdleOdd(c, f.id)
                                then c.idleResets + {f.id} else c.idleResets
  {
    hide ConnError, HandleData, HandleHeaders, HandlePriority, HandleRst, HandleSettings, HandlePing, HandleGoaway,
         HandleWindowUpdate, HandleContinuation, Table, BadPriority, IdleOdd;
    assert BadPriority(f) ==> f.kind == PRIORITY by { BadPriorityKind(f); }
    assert Extends(c.log, c.log);
    ConnErrorGrows(c, PROTOCOL_ERROR);
    if f.kind == DATA { DataGrows(c, f); }
    if f.kind == HEADERS || f.kind == CONTINUATION { HeadersGrows(c, f); }
    if f.kind == PRIORITY { PriorityRecords(c, f); }
    if f.kind == RST_STREAM || f.kind == PING { SmallGrows(c, f); }
    if f.kind == SETTINGS { SettingsGrows(c, f); }
    if f.kind == GOAWAY { GoawayGrows(c, f); }
    if f.kind == WINDOW_UPDATE { WindowGrows(c, f); }
  }

  lemma BadPriorityKind(f: Frame)
    ensures BadPriority(f) ==> f.kind == PRIORITY
  {
  }

  lemma ArriveRecords(c: Conn, f: Frame)
    requires Table(c)
    ensures Records(c, Arrive(f), HandleFrame(c, f))
  {
    hide ConnError, Dispatch, Table, BadPriority, AnswersEarly;
    var c1 := Log(c, In(f));
    assert Extends(c.log, c.log);
    ErrorGrows(c, c1, ENHANCE_YOUR_CALM);
    ErrorGrows(c, c1.(firstSeen := true), PROTOCOL_ERROR);
    BadPriorityKind(f);
    var c2 := c1.(firstSeen := true);
    assert Table(c2) by { SameTable(c, c2); }
    DispatchRecords(c2, f);
    ExtendsTrans(c.log, c2.log, Dispatch(c2, f).log);
    NoAnswer(c, Arrive(f));
    assert c.firstSeen || f.kind != PRIORITY || HandleFrame(c, f).idleResets == c.idleResets;
  }

  lemma SameTable(c: Conn, c': Conn)
    requires Table(c) && c' == c.(log := c'.log, firstSeen := c'.firstSeen)
    ensures Table(c')
  {
  }

  lemma NoAnswer(c: Conn, step: Step)
    requires !step.Respond?
    ensures forall id: nat :: !AnswersEarly(c, step, id)
  {
  }

  lemma NoReset(c: Conn, step: Step)
    requires !step.Reset? && !step.Arrive?
    ensures forall id: nat :: !ResetsIdle(c, step, id)
  {
  }

  /** A step that leaves the histories alone, and rightly so. */
  lemma PlainRecords(c: Conn, step: Step, c': Conn)
    requires !step.Respond? && !step.Reset? && !step.Arrive? && GrowsTo(c, c')
    ensures Records(c, step, c')
  {
    hide AnswersEarly, ResetsIdle;
    NoAnswer(c, step);
    NoReset(c, step);
  }

  lemma ResetRecords(c: Conn, id: nat, code: nat)
    requires Table(c)
    ensures Records(c, Reset(id, code), Keep(c, SendRst(c, id, code)))
  {
    hide StreamError, AnswersEarly;
    NoAnswer(c, Reset(id, code));
    assert Extends(c.log, c.log);
    StreamErrorGrows(c, id, code);
  }

  /** After an answer the log holds its beginning. */
  lemma AnswerGrows(c: Conn, id: nat, fields: seq<Field>, block: seq<byte>, body: seq<byte>)
    requires id in c.streams
    ensures var c' := Answer(c, id, fields, block, body);
            && Extends(Then(c.log, Begin(id, fields, block, body)), c'.log) && Onward(c, c') && c'.server == c.server && c'.idleResets == c.idleResets
            && c'.earlyAnswers == if c.streams[id].complete then c.earlyAnswers else c.earlyAnswers + {id}
  {
    hide EmitBlock, Pump, Extends, SwapRemove;
    var s := c.streams[id];
    var c0 := Log(c.(earlyAnswers := if s.complete then c.earlyAnswers else c.earlyAnswers + {id}), Begin(id, fields, block, body));
    var c1 := EmitBlock(c0, id, block, true, body == []);
    EmitBlockGrows(c0, id, block, true, body == []);
    var s1 := s.(state := AfterHeadersSent(s.state, body == []));
    if body == [] {
      assert Grows(c0, Answer(c, id, fields, block, body));
    } else {
      PumpGrows(c0, SetStream(c1, id, s1.(body := body, sendOff := 0, sendPending := true)));
    }
  }

  lemma RespondRecords(c: Conn, id: nat, status: nat, hs: seq<AppHeader>, body: seq<byte>)
    requires Table(c)
    ensures Records(c, Respond(id, status, hs, body), Keep(c, SendResponse(c, id, status, hs, body)))
  {
    hide StreamError, Answer, EncodeBlock, AnswerFields, ResetsIdle;
    assert Extends(c.log, c.log);
    NoReset(c, Respond(id, status, hs, body));
    if id in c.streams {
      UsedErrorGrows(c, id, INTERNAL_ERROR);
      var code := if 100 <= status <= 999 then status else 500;
      var block := AnswerBlock(c, status, hs);
      var c1 := c.(enc := c.enc.(pending := false));
      var sent := if c.streams[id].isHead || code == 204 || code == 304 then [] else body;
      var fields := AnswerFields(code, hs);
      AnswerGrows(c1, id, fields, block, sent);
      ExtendsTrans(c.log, Then(c.log, Begin(id, fields, block, sent)), Answer(c1, id, fields, block, sent).log);
    }
  }

  lemma AskGrows(c: Conn, fields: seq<Field>, body: seq<byte>)
    ensures GrowsTo(c, Keep(c, SendRequest(c, fields, body)))
  {
    hide EmitBlock, Pump, RequestOk, EncodeBlock, IsHeadRequest;
    assert Extends(c.log, c.log);
    if SendRequest(c, fields, body).Done? {
      var block := EncodeBlock(c.huffman, c.enc, fields);
      var id := if c.lastId == 0 then 1 else c.lastId + 2;
      var s := Stream(if body == [] then HalfClosedLocal else Open, c.peer.window, LOCAL_WINDOW,
                      body, 0, body != [], IsHeadRequest(fields), false, 0, 0, [], false, 0);
      var c1 := Log(c.(enc := c.enc.(pending := false), lastId := id,
                       streams := c.streams[id := s], openIds := c.openIds + [id]), Opened(id, fields));
      var c2 := Log(c1, Begin(id, fields, block, body));
      EmitBlockGrows(c2, id, block, true, body == []);
      PumpGrows(c2, EmitBlock(c2, id, block, true, body == []));
      ExtendsTrans(c.log, c2.log, Pump(EmitBlock(c2, id, block, true, body == [])).log);
    }
  }

  lemma GoawayCallGrows(c: Conn, code: nat, debug: seq<byte>)
    ensures GrowsTo(c, Keep(c, SendGoaway(c, code, debug)))
  {
    hide ConnError, ResetAll;
    assert Extends(c.log, c.log);
    ConnErrorGrows(c, ENHANCE_YOUR_CALM);
    var c1 := SayGoaway(c, code, debug[..Min(|debug|, LOCAL_MAX_FRAME - 8)]).(error := code, state := Dead);
    ResetAllGrows(c1, code);
    GrowsTrans(c, c1, ResetAll(c1, code));
  }

  lemma CommitGrows(c: Conn, n: nat)
    ensures GrowsTo(c, Commit(c, n))
  {
    hide Pump;
    assert Extends(c.log, c.log);
    PumpGrows(c, c.(backlog := c.backlog - Min(n, c.backlog)));
  }

  /** The exact origin of both histories. */
  lemma StepRecords(c: Conn, step: Step)
    requires Table(c)
    ensures Records(c, step, Take(c, step))
  {
    hide Records, Table, GrowsTo, HandleFrame, ConnError, SendResponse, SendRequest, SendRst, SendGoaway, Commit;
    match step {
      case Prefaced => assert GrowsTo(c, Take(c, step)) by { PrefacedGrows(c); } PlainRecords(c, step, Take(c, step));
      case Arrive(f) => ArriveRecords(c, f);
      case Violate(code) => assert GrowsTo(c, ConnError(c, code)) by { ViolateGrows(c, code); } PlainRecords(c, step, Take(c, step));
      case Respond(id, status, headers, body) => RespondRecords(c, id, status, headers, body);
      case Ask(fields, body) => AskGrows(c, fields, body); PlainRecords(c, step, Take(c, step));
      case Reset(id, code) => ResetRecords(c, id, code);
      case Goaway(code, debug) => GoawayCallGrows(c, code, debug); PlainRecords(c, step, Take(c, step));
      case Drain(n) => CommitGrows(c, n); PlainRecords(c, step, Take(c, step));
    }
  }

  lemma PrefacedGrows(c: Conn)
    ensures GrowsTo(c, c.(state := Active))
  {
    assert Extends(c.log, c.log);
  }

  lemma ViolateGrows(c: Conn, code: nat)
    ensures GrowsTo(c, ConnError(c, code))
  {
    ConnErrorGrows(c, code);
  }

  /** What makes a server send GOAWAY while the preface is still awaited. */
  predicate GoesAwayEarly(c: Conn, step: Step) {
    && c.state.PrefacePending?
    && match step
       case Violate(_) => true
       case Goaway(_, _) => true
       case Reset(id, _) => id != 0 && c.backlog > MAX_BACKLOG
       case _ => false
  }

  /** The exact origin of an early GOAWAY. */
  lemma EarlyGoawayExactly(c: Conn, step: Step)
    requires Inv(c) && Enabled(c, step) && c.server
    ensures Take(c, step).earlyGoaway <==> c.earlyGoaway || GoesAwayEarly(c, step)
  {
    assert Table(c) && Ids(c) && Goaways(c);
    if c.state.PrefacePending? {
      assert forall id | id in c.streams :: id % 2 == 1 && id <= c.acceptedId;
      hide Inv, Table, Ids, Goaways, Sends, Requests, Responses;
      EarlyByStep(c, step);
    } else {
      hide Inv, Table, Ids, Goaways;
      StepRecords(c, step);
    }
  }

  lemma EarlyByStep(c: Conn, step: Step)
    requires c.server && c.state.PrefacePending? && c.acceptedId == 0 && Enabled(c, step)
    requires forall id | id in c.streams :: id % 2 == 1 && id <= c.acceptedId
    ensures Take(c, step).earlyGoaway <==> c.earlyGoaway || GoesAwayEarly(c, step)
  {
    hide EncodeBlock, RecentlyClosed, SwapRemove, Pump, Answer, HandleFrame, RequestOk, AnswerFields;
  }

  // ---- what the histories imply, over every run ----

  /** A HEADERS or DATA frame was sent on id. */
  predicate Used(t: Trace, id: nat) {
    match t
    case Empty => false
    case Then(before, e) => (e.Out? && e.frame.id == id && (e.frame.kind == DATA || e.frame.kind == HEADERS)) || Used(before, id)
  }

  /** Reset on id came first: whatever is sent on it is late. */
  ghost predicate Doomed(t: Trace, id: nat) {
    ResetSent(t, id) && (Used(t, id) ==> Late(t, id))
  }

  ghost predicate Histories(c: Conn) {
    && (forall id: nat | id in c.idleResets :: Doomed(c.log, id))
    && (forall id: nat | id in c.earlyAnswers :: Begun(c.log, id) >= 1)
  }

  lemma {:induction false} StaysDoomed(t: Trace, t': Trace, id: nat)
    requires Extends(t, t') && Doomed(t, id)
    ensures Doomed(t', id)
    decreases t'
  {
    if t != t' {
      StaysDoomed(t, t'.before, id);
    }
  }

  lemma {:induction false} BegunGrows(t: Trace, t': Trace, id: nat)
    requires Extends(t, t')
    ensures Begun(t', id) >= Begun(t, id)
    decreases t'
  {
    if t != t' {
      BegunGrows(t, t'.before, id);
    }
  }

  lemma {:induction false} FreshIsUnused(t: Trace, id: nat)
    ensures PhaseOf(t, id, false).Fresh? ==> !Used(t, id)
  {
    if t.Then? {
      FreshIsUnused(t.before, id);
    }
  }

  lemma {:induction false} LateIsUsed(t: Trace, id: nat)
    ensures Late(t, id) ==> Used(t, id)
  {
    if t.Then? {
      LateIsUsed(t.before, id);
    }
  }

  /** The reset of an unused id is the first thing sent on it. */
  lemma NewlyDoomed(c: Conn, step: Step, id: nat)
    requires Table(c) && Enabled(c, step) && ResetsIdle(c, step, id) && !Used(c.log, id)
    ensures Doomed(Take(c, step).log, id)
  {
    assert id !in c.streams;
    ResetStep(c, step, id);
    var c1 := if step.Arrive? then Log(c, In(step.frame)).(firstSeen := true) else c;
    var code := if step.Reset? then step.code else if |step.frame.payload| != 5 then FRAME_SIZE_ERROR else PROTOCOL_ERROR;
    hide Late, Take, Table;
    assert !Used(c1.log, id);
    assert StreamError(c1, id, code).log == Then(c1.log, Out(RstFrame(id, code)));
  }

  lemma ResetStep(c: Conn, step: Step, id: nat)
    requires ResetsIdle(c, step, id)
    ensures var c1 := if step.Arrive? then Log(c, In(step.frame)).(firstSeen := true) else c;
            var code := if step.Reset? then step.code else if |step.frame.payload| != 5 then FRAME_SIZE_ERROR else PROTOCOL_ERROR;
            Take(c, step) == StreamError(c1, id, code)
  {
    hide StreamError, ConnError;
  }

  lemma NewlyBegun(c: Conn, step: Step, id: nat)
    requires AnswersEarly(c, step, id)
    ensures Begun(Take(c, step).log, id) >= 1
  {
    hide Answer, EncodeBlock, AnswerFields;
    var code := if 100 <= step.status <= 999 then step.status else 500;
    var block := AnswerBlock(c, step.status, step.headers);
    var c1 := c.(enc := c.enc.(pending := false));
    var sent := if c.streams[id].isHead || code == 204 || code == 304 then [] else step.body;
    var fields := AnswerFields(code, step.headers);
    AnswerGrows(c1, id, fields, block, sent);
    BegunGrows(Then(c.log, Begin(id, fields, block, sent)), Take(c, step).log, id);
  }

  lemma StepHistories(c: Conn, step: Step)
    requires Inv(c) && Histories(c) && Enabled(c, step)
    ensures Histories(Take(c, step))
  {
    var c' := Take(c, step);
    assert Table(c) && (forall id: nat :: SendOk(c, id));
    hide Inv, Core, Take, Enabled, ResetsIdle, AnswersEarly, Doomed, Table;
    StepRecords(c, step);
    forall id: nat | id in c'.idleResets ensures Doomed(c'.log, id) {
      if id in c.idleResets {
        StaysDoomed(c.log, c'.log, id);
      } else {
        assert SendOk(c, id);
        assert IdleOdd(c, id) by { IdleOfReset(c, step, id); }
        FreshIsUnused(c.log, id);
        NewlyDoomed(c, step, id);
      }
    }
    forall id: nat | id in c'.earlyAnswers ensures Begun(c'.log, id) >= 1 {
      if id in c.earlyAnswers {
        BegunGrows(c.log, c'.log, id);
      } else {
        NewlyBegun(c, step, id);
      }
    }
  }

  lemma IdleOfReset(c: Conn, step: Step, id: nat)
    requires ResetsIdle(c, step, id)
    ensures IdleOdd(c, id)
  {
  }

  lemma {:induction false} RunHistories(c: Conn, steps: seq<Step>)
    requires Inv(c) && Histories(c) && Legal(c, steps)
    ensures Histories(After(c, steps))
    decreases |steps|
  {
    if steps != [] {
      StepInv(c, steps[0]);
      StepHistories(c, steps[0]);
      hide Inv, Take, Enabled, Histories;
      RunHistories(Take(c, steps[0]), steps[1..]);
    }
  }

  lemma ReachedHistories(c: Conn)
    requires Reached(c)
    ensures Histories(c)
  {
    var server: bool, huffman: Huffman, maxBody: nat, steps: seq<Step> :|
      Legal(Init(server, huffman, maxBody), steps) && c == After(Init(server, huffman, maxBody), steps);
    InitInv(server, huffman, maxBody);
    assert Histories(Init(server, huffman, maxBody));
    hide Inv, Init, Legal, After, Histories;
    RunHistories(Init(server, huffman, maxBody), steps);
  }

  /** Frames follow the end or the reset of a stream just when an unused id was reset and then used all the same. */
  lemma LateExactly(c: Conn, id: nat)
    requires Reached(c)
    ensures Late(c.log, id) <==> id in c.idleResets && Used(c.log, id)
  {
    hide Reached;
    ReachedHistories(c);
    if id !in c.idleResets {
      NothingLate(c, id);
    }
    LateIsUsed(c.log, id);
    hide Late, Used, ResetSent;
    assert id in c.idleResets ==> Doomed(c.log, id);
  }

  /**
   * A server's stream stays behind closed just when it receives no more, was answered early and the answer is through;
   * while the connection lives, to receive no more is to have been reported.
   */
  lemma LingersExactly(c: Conn, id: nat)
    requires Reached(c) && c.server && id in c.streams
    ensures var s := c.streams[id];
            s.state.Closed? <==> !CanReceive(s.state) && id in c.earlyAnswers && !s.sendPending
    ensures var s := c.streams[id];
            !c.state.Dead? ==> (s.state.Closed? <==> s.complete && id in c.earlyAnswers && !s.sendPending)
  {
    hide Reached;
    ReachedInv(c);
    assert RequestFits(c, id, c.streams[id]) && SendOk(c, id) && Shape(c.streams[id]);
    hide Inv, Core, Histories;
    if !c.state.Dead? {
      EndedRequestsReported(c, id);
    }
    assert id in c.earlyAnswers ==> Begun(c.log, id) >= 1 by { ReachedHistories(c); EarlyBegun(c, id); }
  }

  lemma EarlyBegun(c: Conn, id: nat)
    requires Histories(c)
    ensures id in c.earlyAnswers ==> Begun(c.log, id) >= 1
  {
  }
}
