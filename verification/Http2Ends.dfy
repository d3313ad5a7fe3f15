/** Who has ended and who has been told: END_STREAM received and requests reported keep step over every run. */
module Http2Ends {
  import opened Bytes
  import opened HpackSpec
  import opened Http2Frames
  import opened Http2Fields
  import opened Http2Spec
  import opened Http2Trace
  import opened Http2Invariant
  import opened Http2Errors
  import opened Http2Handlers
  import opened Http2Blocks
  import opened Http2Data
  import opened Http2Safety
  import opened Http2Reach

  /** The peer may still send the end of id. */
  predicate StillOpen(c: Conn, id: nat) {
    IdleOdd(c, id) || (id in c.streams && CanReceive(c.streams[id].state))
  }

  /** A frame or block that ends id has been logged and not yet acted on. */
  predicate InHand(a: Assembly, id: nat) { a.id == id && id != 0 && a.end }

  /**
   * A server's stream is receiving or reported; one that was opened and left was reported or reset.
   * A client has passed on all data of the streams it keeps.
   */
  ghost predicate Accounted(c: Conn, id: nat) {
    if !c.server then IdleOdd(c, id) || id in c.streams ==> Heard(c.log, id) == Content(c.log, id)
    else if id in c.streams
    then (CanReceive(c.streams[id].state) || c.streams[id].complete) && (c.streams[id].complete ==> Requested(c.log, id))
    else FieldsOf(c.log, id).Some? ==> Requested(c.log, id) || ResetSent(c.log, id) || ResetReceived(c.log, id)
  }

  /** In range, and while the connection lives also after any change of the initial window. */
  ghost predicate WindowOk(c: Conn, s: Stream) {
    -MAX_WINDOW <= s.sendWindow <= MAX_WINDOW && (!c.state.Dead? ==> s.sendWindow >= c.peer.window - MAX_WINDOW)
  }

  /** Every send window is one the source's 32 bits can hold. */
  ghost predicate Ranged(c: Conn) {
    && 0 <= c.sendWindow <= MAX_WINDOW && (!c.state.Dead? ==> c.peer.window <= MAX_WINDOW)
    && (forall id {:trigger c.streams[id]} | id in c.streams :: WindowOk(c, c.streams[id]))
  }

  /** While a is in hand, and DATA for k: reports are of ended messages, and what is still open has not ended but for a. */
  ghost predicate EndsBut(c: Conn, a: Assembly, k: int) {
    && ReportsEnded(c.log) && Ranged(c)
    && (!c.state.Dead? ==>
          && (forall id: nat | StillOpen(c, id) :: EndReceived(c.log, id) <==> InHand(a, id))
          && (InHand(a, a.id) ==> EndReceived(c.log, a.id))
          && (forall id: nat | id != k :: Accounted(c, id)))
  }

  ghost predicate Ends(c: Conn, a: Assembly) { EndsBut(c, a, -1) }

  /** Nothing ends, nothing is forgotten and no window leaves its range between c and c', stream k aside. */
  ghost predicate Mild(c: Conn, c': Conn, k: int) {
    && c'.server == c.server && c'.assembly == c.assembly
    && (c.state.Dead? ==> c'.state.Dead?) && (c'.state.Dead? || c'.state.PrefacePending? == c.state.PrefacePending?)
    && (forall id: nat :: EndReceived(c'.log, id) == EndReceived(c.log, id))
    && (ReportsEnded(c.log) ==> ReportsEnded(c'.log))
    && (Ranged(c) ==> Ranged(c'))
    && (forall id: nat | StillOpen(c', id) :: StillOpen(c, id))
    && (!c'.state.Dead? ==> forall id: nat | id != k && Accounted(c, id) :: Accounted(c', id))
  }

  lemma MildTrans(c: Conn, d: Conn, e: Conn, k: int)
    requires Mild(c, d, k) && Mild(d, e, k)
    ensures Mild(c, e, k)
  {
    hide StillOpen, Accounted, Ranged;
  }

  lemma MildEnds(c: Conn, c': Conn, a: Assembly)
    requires Ends(c, a) && Mild(c, c', -1)
    ensures Ends(c', a)
  {
    hide StillOpen, Accounted, Ranged;
  }

  /** The frame or block in hand has been dealt with: its stream is open no more, unless it was not an end. */
  lemma Settled(c: Conn, c': Conn, a: Assembly, k: int)
    requires EndsBut(c, a, k) && Mild(c, c', -1) && c'.assembly.id == 0
    requires c'.state.Dead? || !a.end || !StillOpen(c', a.id)
    requires c'.state.Dead? || k < 0 || Accounted(c', k)
    ensures Ends(c', c'.assembly)
  {
    hide StillOpen, Accounted, Ranged;
  }

  // ---- elementary moves ----

  lemma EmitMild(c: Conn, f: Frame)
    ensures Mild(c, Emit(c, f), -1)
  {
  }

  lemma DropMild(c: Conn, id: nat, error: nat)
    requires !c.server
    ensures Mild(c, CloseStream(Notify(c, ResetEvent, id, error, [], [], false), id), -1)
  {
    hide SwapRemove;
  }

  lemma {:induction false} ResetAllMild(c: Conn, error: nat)
    ensures Mild(c, ResetAll(c, error), -1)
    decreases |c.openIds|
  {
    hide Mild, Notify, CloseStream;
    PlainMild(c, c);
    if !c.server && c.openIds != [] {
      var id := c.openIds[|c.openIds| - 1];
      var c1 := CloseStream(Notify(c, ResetEvent, id, error, [], [], false), id);
      DropMild(c, id, error);
      assert |c1.openIds| < |c.openIds| by { Shorter(c, id, error); }
      ResetAllMild(c1, error);
      MildTrans(c, c1, ResetAll(c1, error), -1);
    }
  }

  lemma Shorter(c: Conn, id: nat, error: nat)
    requires id in c.openIds
    ensures |CloseStream(Notify(c, ResetEvent, id, error, [], [], false), id).openIds| < |c.openIds|
  {
  }

  lemma {:induction false} ResetAboveMild(c: Conn, ids: seq<nat>, cutoff: nat)
    requires !c.server
    ensures Mild(c, ResetAbove(c, ids, cutoff), -1)
    decreases |ids|
  {
    hide Mild, SwapRemove;
    PlainMild(c, c);
    if ids != [] {
      if ids[0] <= cutoff {
        ResetAboveMild(c, ids[1..], cutoff);
      } else {
        var c1 := CloseStream(Notify(c, ResetEvent, ids[0], NO_ERROR, [], [], false), ids[0]);
        DropMild(c, ids[0], NO_ERROR);
        ResetAboveMild(c1, ids[1..], cutoff);
        MildTrans(c, c1, ResetAbove(c1, ids[1..], cutoff), -1);
      }
    }
  }

  lemma ConnErrorMild(c: Conn, code: nat)
    ensures Mild(c, ConnError(c, code), -1)
    ensures ConnError(c, code).state.Dead?
  {
    if !c.state.Dead? {
      var c1 := SayGoaway(c, code, []).(error := code, state := Dead);
      assert Mild(c, c1, -1);
      hide Mild, SayGoaway, ResetAll;
      ResetAllMild(c1, code);
      MildTrans(c, c1, ResetAll(c1, code), -1);
    }
    ErrorKills(c, code);
  }

  /** A reset: whatever became of id, that is on record. */
  lemma StreamErrorMild(c: Conn, d: Conn, id: nat, code: nat)
    requires Mild(c, d, id) && (d == c || d.server || !IdleOdd(d, id))
    ensures Mild(c, StreamError(d, id, code), -1)
    ensures StreamError(d, id, code).state.Dead? || id !in StreamError(d, id, code).streams
    ensures StreamError(d, id, code).state.Dead? || StreamError(d, id, code).lastId == d.lastId
  {
    hide SwapRemove, RecentlyClosed, ConnError, Mild;
    if d.backlog > MAX_BACKLOG {
      var c' := ConnError(d, ENHANCE_YOUR_CALM);
      ConnErrorMild(d, ENHANCE_YOUR_CALM);
      MildMost(d, c', id);
      MildTrans(c, d, c', id);
      MildAll(c, c', id);
    } else {
      ResetMild(c, d, id, code);
    }
  }

  lemma ResetMild(c: Conn, d: Conn, id: nat, code: nat)
    requires Mild(c, d, id) && (d == c || d.server || !IdleOdd(d, id)) && d.backlog <= MAX_BACKLOG
    ensures Mild(c, StreamError(d, id, code), -1)
  {
    hide Mild, Accounted, StreamError, Emit;
    var e := Emit(d.(idleResets := if IdleOdd(d, id) then d.idleResets + {id} else d.idleResets), RstFrame(id, code));
    var c' := StreamError(d, id, code);
    RstMild(d, id, code, e);
    LeaveMild(d, id, code, e);
    MildMost(d, e, id);
    MildTrans(c, d, e, id);
    MildTrans(c, e, c', id);
    MildAll(c, c', id);
  }

  lemma MildAll(c: Conn, c': Conn, id: nat)
    requires Mild(c, c', id) && (!c'.state.Dead? && Accounted(c, id) ==> Accounted(c', id))
    ensures Mild(c, c', -1)
  {
    hide Accounted, StillOpen, Ranged;
  }

  lemma RstMild(d: Conn, id: nat, code: nat, e: Conn)
    requires e == Emit(d.(idleResets := if IdleOdd(d, id) then d.idleResets + {id} else d.idleResets), RstFrame(id, code))
    ensures Mild(d, e, -1) && ResetSent(e.log, id) && (Accounted(d, id) ==> Accounted(e, id))
  {
  }

  /** What neither log nor table shows. */
  lemma PlainMild(c: Conn, c': Conn)
    requires c'.log == c.log && c'.streams == c.streams && c'.lastId >= c.lastId && c'.server == c.server && c'.assembly == c.assembly
    requires c.state.Dead? ==> c'.state.Dead?
    requires c'.state.Dead? || c'.state.PrefacePending? == c.state.PrefacePending?
    requires c'.peer.window == c.peer.window && (c'.sendWindow == c.sendWindow || (Ranged(c) ==> 0 <= c'.sendWindow <= MAX_WINDOW))
    ensures Mild(c, c', -1)
  {
    hide Heard, Content, EndReceived, ReportsEnded, Requested, FieldsOf, ResetSent, ResetReceived;
  }

  lemma CloseMild(c: Conn, id: nat)
    ensures Mild(c, CloseStream(c, id), id)
  {
    hide SwapRemove, Heard, Content, EndReceived, ReportsEnded, Requested, FieldsOf, ResetSent, ResetReceived;
  }

  lemma LeaveMild(d: Conn, id: nat, code: nat, e: Conn)
    requires d.backlog <= MAX_BACKLOG && ResetSent(e.log, id)
    requires e == Emit(d.(idleResets := if IdleOdd(d, id) then d.idleResets + {id} else d.idleResets), RstFrame(id, code))
    ensures Mild(e, StreamError(d, id, code), id)
    ensures Accounted(e, id) || d.server || !IdleOdd(d, id) ==> Accounted(StreamError(d, id, code), id)
  {
    hide SwapRemove, RecentlyClosed, ConnError, Heard, Content, Ranged, ResetSent, Requested, ResetReceived, FieldsOf, EndReceived, ReportsEnded, Mild;
    var c' := StreamError(d, id, code);
    if id !in e.streams {
      PlainMild(e, c');
      MildMost(e, c', id);
    } else if e.server {
      CloseMild(e, id);
    } else {
      DropMild(e, id, code);
      MildMost(e, c', id);
      if Accounted(e, id) || !IdleOdd(e, id) {
        EventAccounts(e, id, code, c');
      }
    }
  }

  lemma EventAccounts(e: Conn, id: nat, code: nat, c': Conn)
    requires !e.server && c' == CloseStream(Notify(e, ResetEvent, id, code, [], [], false), id)
    requires Accounted(e, id) || !IdleOdd(e, id)
    ensures Accounted(c', id)
  {
    hide SwapRemove;
  }

  lemma MildMost(c: Conn, c': Conn, k: int)
    requires Mild(c, c', -1)
    ensures Mild(c, c', k)
  {
    hide Accounted, StillOpen, Ranged;
  }

  // ---- sending ----

  /** A stream moves without ending what it receives. */
  lemma SetMild(c: Conn, id: nat, s: Stream)
    requires id in c.streams && CanReceive(s.state) == CanReceive(c.streams[id].state) && s.complete == c.streams[id].complete
    requires Ranged(c) ==> WindowOk(c, s)
    ensures Mild(c, SetStream(c, id, s), -1)
  {
    hide Heard, Content, EndReceived, ReportsEnded, Requested, FieldsOf, ResetSent, ResetReceived;
  }

  /** A stream that receives no more leaves for good. */
  lemma CloseDoneMild(c: Conn, id: nat)
    requires id in c.streams && !CanReceive(c.streams[id].state)
    ensures Mild(c, CloseStream(c, id), -1)
  {
    hide SwapRemove, Heard, Content, EndReceived, ReportsEnded, Requested, FieldsOf, ResetSent, ResetReceived;
  }

  lemma {:induction false} EmitBlockMild(c: Conn, id: nat, block: seq<byte>, first: bool, end: bool)
    ensures Mild(c, EmitBlock(c, id, block, first, end), -1)
    ensures EmitBlock(c, id, block, first, end).streams == c.streams
    decreases |block|
  {
    hide Mild;
    var kind := if first then HEADERS else CONTINUATION;
    if |block| <= c.peer.maxFrame || c.peer.maxFrame == 0 {
      EmitMild(c, Frame(kind, HeaderFlags(true, first && end), id, block));
    } else {
      var f := Frame(kind, HeaderFlags(false, first && end), id, block[..c.peer.maxFrame]);
      EmitMild(c, f);
      EmitBlockMild(Emit(c, f), id, block[c.peer.maxFrame..], false, end);
      MildTrans(c, Emit(c, f), EmitBlock(Emit(c, f), id, block[c.peer.maxFrame..], false, end), -1);
    }
  }

  lemma PumpStreamMild(c: Conn, id: nat)
    ensures Mild(c, PumpStream(c, id).c, -1)
  {
    hide Mild, CloseStream;
    PlainMild(c, c);
    if PumpStream(c, id).progress {
      var s := c.streams[id];
      var n := Quantum(c, s);
      var last := n == |s.body| - s.sendOff;
      var c1 := Emit(c, Frame(DATA, if last then 1 else 0, id, s.body[s.sendOff..s.sendOff + n]));
      var s1 := s.(sendOff := s.sendOff + n, sendWindow := s.sendWindow - n);
      var s2 := if last then s1.(sendPending := false, state := AfterDataSent(s.state, true)) else s1;
      var c2 := c1.(sendWindow := c.sendWindow - n);
      var c3 := SetStream(c2, id, s2);
      EmitMild(c, Frame(DATA, if last then 1 else 0, id, s.body[s.sendOff..s.sendOff + n]));
      PlainMild(c1, c2);
      MildTrans(c, c1, c2, -1);
      SentMild(c2, id, s2);
      MildTrans(c, c2, c3, -1);
      if last && s2.state.Closed? {
        MildTrans(c, c2, CloseStream(c3, id), -1);
      }
    }
  }

  lemma {:induction false} PumpPassMild(c: Conn, ids: seq<nat>)
    ensures Mild(c, PumpPass(c, ids).c, -1)
    decreases |ids|
  {
    hide Mild, PumpStream;
    if ids == [] {
      PlainMild(c, c);
    } else {
      var c1 := PumpStream(c, ids[0]).c;
      PumpStreamMild(c, ids[0]);
      PumpPassMild(c1, ids[1..]);
      MildTrans(c, c1, PumpPass(c1, ids[1..]).c, -1);
    }
  }

  lemma {:induction false} PumpDataMild(c: Conn, passes: nat)
    ensures Mild(c, PumpData(c, passes), -1)
    decreases passes
  {
    hide Mild, PumpPass;
    if passes == 0 || c.sendWindow <= 0 {
      PlainMild(c, c);
    } else {
      var c1 := PumpPass(c, c.openIds).c;
      PumpPassMild(c, c.openIds);
      if PumpPass(c, c.openIds).progress {
        PumpDataMild(c1, passes - 1);
        MildTrans(c, c1, PumpData(c1, passes - 1), -1);
      }
    }
  }

  lemma PumpMild(c: Conn, c1: Conn)
    requires Mild(c, c1, -1)
    ensures Mild(c, Pump(c1), -1)
  {
    hide Mild, PumpData;
    PumpDataMild(c1, MAX_PASSES);
    MildTrans(c, c1, Pump(c1), -1);
  }

  // ---- application calls ----

  lemma BeginMild(c: Conn, c': Conn, e: Entry)
    requires e.Begin? && c' == Log(c.(earlyAnswers := c'.earlyAnswers), e)
    ensures Mild(c, c', -1)
  {
  }

  /** The sending half moves on, and the stream leaves if both are through. */
  lemma SentMild(c: Conn, id: nat, s: Stream)
    requires id in c.streams && CanReceive(s.state) == CanReceive(c.streams[id].state) && s.complete == c.streams[id].complete
    requires Ranged(c) ==> WindowOk(c, s)
    ensures Mild(c, SetStream(c, id, s), -1)
    ensures s.state.Closed? ==> Mild(c, CloseStream(SetStream(c, id, s), id), -1)
  {
    hide Mild, CloseStream;
    var c1 := SetStream(c, id, s);
    SetMild(c, id, s);
    if s.state.Closed? {
      CloseDoneMild(c1, id);
      MildTrans(c, c1, CloseStream(c1, id), -1);
    }
  }

  lemma BegunMild(c: Conn, id: nat, fields: seq<Field>, block: seq<byte>, body: seq<byte>, early: set<nat>)
    ensures var c1 := EmitBlock(Log(c.(earlyAnswers := early), Begin(id, fields, block, body)), id, block, true, body == []);
            Mild(c, c1, -1) && c1.streams == c.streams
  {
    hide Mild, EmitBlock;
    var c0 := Log(c.(earlyAnswers := early), Begin(id, fields, block, body));
    BeginMild(c, c0, Begin(id, fields, block, body));
    EmitBlockMild(c0, id, block, true, body == []);
    MildTrans(c, c0, EmitBlock(c0, id, block, true, body == []), -1);
  }

  lemma AnswerMild(c: Conn, id: nat, fields: seq<Field>, block: seq<byte>, body: seq<byte>)
    requires id in c.streams && CanSend(c.streams[id].state)
    ensures Mild(c, Answer(c, id, fields, block, body), -1)
  {
    hide Mild, EmitBlock, Pump, CloseStream, SetStream;
    var s := c.streams[id];
    var early := if s.complete then c.earlyAnswers else c.earlyAnswers + {id};
    var c1 := EmitBlock(Log(c.(earlyAnswers := early), Begin(id, fields, block, body)), id, block, true, body == []);
    BegunMild(c, id, fields, block, body, early);
    var s1 := s.(state := AfterHeadersSent(s.state, body == []));
    var s2 := if body == [] then s1 else s1.(body := body, sendOff := 0, sendPending := true);
    var c2 := SetStream(c1, id, s2);
    SentMild(c1, id, s2);
    MildTrans(c, c1, c2, -1);
    if body != [] {
      PumpMild(c, c2);
    } else if s1.state.Closed? {
      MildTrans(c, c1, CloseStream(c2, id), -1);
    }
  }

  lemma RespondMild(c: Conn, id: nat, status: nat, hs: seq<AppHeader>, body: seq<byte>)
    ensures Mild(c, Keep(c, SendResponse(c, id, status, hs, body)), -1)
  {
    hide Mild, StreamError, Answer, EncodeBlock, AnswerFields;
    PlainMild(c, c);
    if SendResponse(c, id, status, hs, body).Done? {
      MildMost(c, c, id);
      StreamErrorMild(c, c, id, INTERNAL_ERROR);
      var code := if 100 <= status <= 999 then status else 500;
      var fields := AnswerFields(code, hs);
      var block := EncodeBlock(c.huffman, c.enc, fields);
      var c1 := c.(enc := c.enc.(pending := false));
      var sent := if c.streams[id].isHead || code == 204 || code == 304 then [] else body;
      PlainMild(c, c1);
      AnswerMild(c1, id, fields, block, sent);
      MildTrans(c, c1, Answer(c1, id, fields, block, sent), -1);
    }
  }

  /** A client's new stream has yet to receive anything. */
  lemma LaunchMild(c: Conn, c': Conn, id: nat, s: Stream, fields: seq<Field>)
    requires !c.server && !c.state.Dead? && IdleOdd(c, id) && CanReceive(s.state) && s.sendWindow == c.peer.window
    requires c' == Log(c.(enc := c'.enc, lastId := id, streams := c.streams[id := s], openIds := c'.openIds), Opened(id, fields))
    ensures Mild(c, c', -1)
  {
  }

  lemma AskMild(c: Conn, fields: seq<Field>, body: seq<byte>)
    requires Table(c)
    ensures Mild(c, Keep(c, SendRequest(c, fields, body)), -1)
  {
    hide Mild, EmitBlock, Pump, RequestOk, EncodeBlock, IsHeadRequest;
    PlainMild(c, c);
    if SendRequest(c, fields, body).Done? {
      var block := EncodeBlock(c.huffman, c.enc, fields);
      var id := if c.lastId == 0 then 1 else c.lastId + 2;
      var s := Stream(if body == [] then HalfClosedLocal else Open, c.peer.window, LOCAL_WINDOW,
                      body, 0, body != [], IsHeadRequest(fields), false, 0, 0, [], false, 0);
      var c1 := Log(c.(enc := c.enc.(pending := false), lastId := id,
                       streams := c.streams[id := s], openIds := c.openIds + [id]), Opened(id, fields));
      var c2 := Log(c1, Begin(id, fields, block, body));
      LaunchMild(c, c1, id, s, fields);
      BeginMild(c1, c2, Begin(id, fields, block, body));
      MildTrans(c, c1, c2, -1);
      var c3 := EmitBlock(c2, id, block, true, body == []);
      EmitBlockMild(c2, id, block, true, body == []);
      MildTrans(c, c2, c3, -1);
      PumpMild(c, c3);
    }
  }

  lemma SayMild(c: Conn, code: nat, debug: seq<byte>)
    ensures Mild(c, SayGoaway(c, code, debug), -1)
  {
  }

  lemma GoawayCallMild(c: Conn, code: nat, debug: seq<byte>)
    ensures Mild(c, Keep(c, SendGoaway(c, code, debug)), -1)
  {
    hide Mild, ConnError, ResetAll;
    PlainMild(c, c);
    if SendGoaway(c, code, debug).Done? {
      ConnErrorMild(c, ENHANCE_YOUR_CALM);
      var c1 := SayGoaway(c, code, debug[..Min(|debug|, LOCAL_MAX_FRAME - 8)]);
      SayMild(c, code, debug[..Min(|debug|, LOCAL_MAX_FRAME - 8)]);
      var c2 := if code != NO_ERROR then c1.(error := code, state := Dead) else if c1.state.Active? then c1.(state := GoawaySent) else c1;
      PlainMild(c1, c2);
      MildTrans(c, c1, c2, -1);
      ResetAllMild(c2, code);
      MildTrans(c, c2, ResetAll(c2, code), -1);
    }
  }

  /** A call the application may make at any time. */
  predicate IsCall(step: Step) {
    match step
    case Respond(_, _, _, _) => true
    case Ask(_, _) => true
    case Reset(id, code) => id < TWO31 && code < TWO32
    case Goaway(code, _) => code < TWO32
    case Drain(_) => true
    case _ => false
  }

  lemma CallMild(c: Conn, step: Step)
    requires Table(c) && IsCall(step)
    ensures Enabled(c, step) && Mild(c, Take(c, step), -1)
  {
    hide Table, Mild, SendResponse, SendRequest, SendGoaway, StreamError, Pump;
    PlainMild(c, c);
    match step
    case Respond(id, status, headers, body) => RespondMild(c, id, status, headers, body);
    case Ask(fields, body) => AskMild(c, fields, body);
    case Goaway(code, debug) => GoawayCallMild(c, code, debug);
    case Reset(id, code) => MildMost(c, c, id); StreamErrorMild(c, c, id, code);
    case Drain(n) =>
      var c1 := c.(backlog := c.backlog - Min(n, c.backlog));
      PlainMild(c, c1);
      PumpMild(c, c1);
  }

  // ---- frames that end nothing ----

  /** c is c0 with f logged; only a DATA or HEADERS frame can end a stream. */
  lemma LoggedMild(c0: Conn, f: Frame, c: Conn)
    requires c == c0.(log := Then(c0.log, In(f)), firstSeen := c.firstSeen) && f.kind != DATA && f.kind != HEADERS
    ensures Mild(c0, c, -1)
  {
  }

  function Adjustment(c: Conn, v: nat): Conn {
    c.(streams := Adjust(c.streams, c.openIds, v - c.peer.window).streams, peer := c.peer.(window := v))
  }

  lemma AdjustedMild(c: Conn, v: nat)
    requires Table(c) && !c.state.Dead? && v <= MAX_WINDOW && Adjust(c.streams, c.openIds, v - c.peer.window).ok
    ensures Mild(c, Adjustment(c, v), -1) && Table(Adjustment(c, v))
  {
    hide Adjust, Table, Ranged, Heard, Content, EndReceived, ReportsEnded, Requested, FieldsOf, ResetSent, ResetReceived;
    AdjustAlike(c.streams, c.openIds, v - c.peer.window);
    AdjustedTable(c, v);
    AdjustedRanged(c, v);
  }

  lemma AdjustedTable(c: Conn, v: nat)
    requires Table(c)
    ensures Table(Adjustment(c, v))
  {
    hide Adjust;
    AdjustAlike(c.streams, c.openIds, v - c.peer.window);
  }

  lemma AdjustedRanged(c: Conn, v: nat)
    requires Table(c) && !c.state.Dead? && v <= MAX_WINDOW && Adjust(c.streams, c.openIds, v - c.peer.window).ok
    ensures Ranged(c) ==> Ranged(Adjustment(c, v))
  {
    hide Adjust;
    AdjustAlike(c.streams, c.openIds, v - c.peer.window);
    var c' := Adjustment(c, v);
    forall id | Ranged(c) && id in c'.streams ensures WindowOk(c', c'.streams[id]) {
      assert id in c.openIds;
      AdjustAt(c.streams, c.openIds, v - c.peer.window, id);
    }
  }

  /** A change of the initial window that one stream cannot follow: those before it have, and the connection dies. */
  lemma OverflowMild(c: Conn, v: nat)
    requires Table(c) && !c.state.Dead? && v <= MAX_WINDOW
    ensures Mild(c, ConnError(c.(streams := Adjust(c.streams, c.openIds, v - c.peer.window).streams), FLOW_CONTROL_ERROR), -1)
  {
    hide Table, Mild, Adjust, ResetAll, SayGoaway;
    var c1 := c.(streams := Adjust(c.streams, c.openIds, v - c.peer.window).streams);
    var c2 := SayGoaway(c1, FLOW_CONTROL_ERROR, []).(error := FLOW_CONTROL_ERROR, state := Dead);
    PartlyAdjusted(c, v, c2);
    ResetAllMild(c2, FLOW_CONTROL_ERROR);
    MildTrans(c, c2, ResetAll(c2, FLOW_CONTROL_ERROR), -1);
  }

  lemma PartlyAdjusted(c: Conn, v: nat, c2: Conn)
    requires Table(c) && !c.state.Dead? && v <= MAX_WINDOW
    requires var c1 := c.(streams := Adjust(c.streams, c.openIds, v - c.peer.window).streams);
             c2 == SayGoaway(c1, FLOW_CONTROL_ERROR, []).(error := FLOW_CONTROL_ERROR, state := Dead)
    ensures Mild(c, c2, -1)
  {
    hide Adjust;
    AdjustAlike(c.streams, c.openIds, v - c.peer.window);
    forall id | Ranged(c) && id in c2.streams ensures WindowOk(c2, c2.streams[id]) {
      assert id in c.openIds;
      AdjustAt(c.streams, c.openIds, v - c.peer.window, id);
    }
  }

  lemma ApplySettingMild(c: Conn, id: nat, v: nat)
    requires Table(c) && !c.state.Dead?
    ensures Mild(c, ApplySetting(c, id, v), -1)
    ensures !ApplySetting(c, id, v).state.Dead? ==> Table(ApplySetting(c, id, v))
  {
    hide Mild, ConnError, Adjust, Table;
    ConnErrorMild(c, PROTOCOL_ERROR);
    if id == 4 {
      ConnErrorMild(c, FLOW_CONTROL_ERROR);
      if v <= MAX_WINDOW {
        var r := Adjust(c.streams, c.openIds, v - c.peer.window);
        OverflowMild(c, v);
        ErrorKills(c.(streams := r.streams), FLOW_CONTROL_ERROR);
        if r.ok {
          AdjustedMild(c, v);
        }
      }
    } else if ApplySetting(c, id, v) != ConnError(c, PROTOCOL_ERROR) {
      PlainMild(c, ApplySetting(c, id, v));
      PeerAside(c, ApplySetting(c, id, v));
    }
  }

  lemma PeerAside(c: Conn, c': Conn)
    requires Table(c) && c' == c.(peer := c'.peer, enc := c'.enc)
    ensures Table(c')
  {
  }

  lemma {:induction false} ApplySettingsMild(c: Conn, payload: seq<byte>)
    requires |payload| % 6 == 0 && Table(c) && !c.state.Dead?
    ensures Mild(c, ApplySettings(c, payload), -1)
    decreases |payload|
  {
    hide Mild, ApplySetting, Table;
    if payload == [] {
      PlainMild(c, c);
    } else {
      var c1 := ApplySetting(c, GetU16(payload[..2]), GetU32(payload[2..6]));
      ApplySettingMild(c, GetU16(payload[..2]), GetU32(payload[2..6]));
      if !c1.state.Dead? {
        ApplySettingsMild(c1, payload[6..]);
        MildTrans(c, c1, ApplySettings(c1, payload[6..]), -1);
      }
    }
  }

  lemma SettingsMild(c: Conn, f: Frame)
    requires Table(c) && !c.state.Dead?
    ensures Mild(c, HandleSettings(c, f), -1)
  {
    hide Table, Mild, ApplySettings, Pump, ConnError;
    PlainMild(c, c);
    ConnErrorMild(c, PROTOCOL_ERROR);
    ConnErrorMild(c, FRAME_SIZE_ERROR);
    if f.id == 0 && !Bit0(f.flags) && |f.payload| % 6 == 0 {
      var c1 := ApplySettings(c, f.payload);
      var ack := Frame(SETTINGS, 1, 0, []);
      ApplySettingsMild(c, f.payload);
      ConnErrorMild(c1, ENHANCE_YOUR_CALM);
      MildTrans(c, c1, ConnError(c1, ENHANCE_YOUR_CALM), -1);
      EmitMild(c1, ack);
      MildTrans(c, c1, Emit(c1, ack), -1);
      PumpMild(c, Emit(c1, ack));
    }
  }

  lemma GoawayMild(c: Conn, f: Frame)
    ensures Mild(c, HandleGoaway(c, f), -1)
  {
    hide Mild, ResetAll, ResetAbove, ConnError;
    ConnErrorMild(c, PROTOCOL_ERROR);
    ConnErrorMild(c, FRAME_SIZE_ERROR);
    if f.id == 0 && |f.payload| >= 8 {
      var c1 := if c.state.Active? then c.(state := GoawayReceived) else c;
      PlainMild(c, c1);
      if !c.server {
        var cutoff := Min(c1.goawayIn, Low31(f.payload));
        var c2 := c1.(goawayIn := cutoff);
        ResetAllMild(c1, GetU32(f.payload[4..8]));
        MildTrans(c, c1, ResetAll(c1, GetU32(f.payload[4..8])), -1);
        PlainMild(c, c2);
        ResetAboveMild(c2, c1.openIds, cutoff);
        MildTrans(c, c2, ResetAbove(c2, c1.openIds, cutoff), -1);
      }
    }
  }

  lemma WindowMild(c: Conn, f: Frame)
    ensures Mild(c, HandleWindowUpdate(c, f), -1)
  {
    hide Mild, Pump, ConnError, StreamError;
    PlainMild(c, c);
    ConnErrorMild(c, PROTOCOL_ERROR);
    ConnErrorMild(c, FRAME_SIZE_ERROR);
    ConnErrorMild(c, FLOW_CONTROL_ERROR);
    if |f.payload| == 4 {
      var inc := Low31(f.payload);
      if f.id == 0 && c.sendWindow + inc <= MAX_WINDOW {
        PlainMild(c, c.(sendWindow := c.sendWindow + inc));
        PumpMild(c, c.(sendWindow := c.sendWindow + inc));
      }
      if f.id in c.streams {
        MildMost(c, c, f.id);
        StreamErrorMild(c, c, f.id, PROTOCOL_ERROR);
        StreamErrorMild(c, c, f.id, FLOW_CONTROL_ERROR);
        var s := c.streams[f.id];
        if s.sendWindow + inc <= MAX_WINDOW {
          SetMild(c, f.id, s.(sendWindow := s.sendWindow + inc));
          PumpMild(c, SetStream(c, f.id, s.(sendWindow := s.sendWindow + inc)));
        }
      }
    }
  }

  lemma SmallMild(c: Conn, f: Frame)
    ensures Mild(c, HandlePing(c, f), -1) && Mild(c, HandlePriority(c, f), -1)
  {
    hide Mild, ConnError, StreamError;
    PlainMild(c, c);
    ConnErrorMild(c, PROTOCOL_ERROR);
    ConnErrorMild(c, FRAME_SIZE_ERROR);
    ConnErrorMild(c, ENHANCE_YOUR_CALM);
    EmitMild(c, Frame(PING, 1, 0, f.payload));
    MildMost(c, c, f.id);
    StreamErrorMild(c, c, f.id, FRAME_SIZE_ERROR);
    StreamErrorMild(c, c, f.id, PROTOCOL_ERROR);
  }

  /** The peer's reset is on record too. */
  lemma RstFrameMild(c: Conn, f: Frame)
    requires ResetReceived(c.log, f.id)
    ensures Mild(c, HandleRst(c, f), -1)
  {
    hide Mild, ConnError;
    PlainMild(c, c);
    ConnErrorMild(c, PROTOCOL_ERROR);
    ConnErrorMild(c, FRAME_SIZE_ERROR);
    if c.server {
      CloseMild(c, f.id);
      MildAll(c, CloseStream(c, f.id), f.id);
    } else if |f.payload| == 4 {
      DropMild(c, f.id, GetU32(f.payload));
    }
  }

  // ---- frames that may end a stream ----

  /** A client has yet to pass on what f carries. */
  ghost predicate Owed(c: Conn, f: Frame) {
    !c.server && f.id in c.streams && DataBytes(f).Some? ==> Heard(c.log, f.id) + DataBytes(f).value == Content(c.log, f.id)
  }

  /** c is c0 with f logged, which a stands for. */
  lemma TakenInHand(c0: Conn, f: Frame, c: Conn, a: Assembly)
    requires Ends(c0, c0.assembly) && !c0.state.Dead? && c0.assembly.id == 0 && f.id != 0 && (f.kind == DATA || f.kind == HEADERS)
    requires c == c0.(log := Then(c0.log, In(f)), firstSeen := true) && a.id == f.id && a.end == Bit0(f.flags)
    ensures EndsBut(c, a, if f.kind == DATA && !c.server then f.id else -1)
    ensures if f.kind == DATA then Owed(c, f) else Ends(c, a)
  {
    assert Accounted(c0, f.id);
    var k := if f.kind == DATA && !c.server then f.id else -1;
    forall id: nat ensures StillOpen(c, id) == StillOpen(c0, id) {}
    forall id: nat | id != k && Accounted(c0, id) ensures Accounted(c, id) {}
    assert Ranged(c);
    hide Accounted, StillOpen, Ranged;
  }

  lemma DeadEnds(c: Conn, code: nat)
    requires ReportsEnded(c.log) && Ranged(c)
    ensures Ends(ConnError(c, code), ConnError(c, code).assembly)
  {
    hide ConnError, StillOpen, Accounted, Ranged;
    ConnErrorMild(c, code);
  }

  /** Reported with its end on record, or reset for its length. */
  lemma CompleteRequestMild(c: Conn, d: Conn, id: nat, s: Stream)
    requires Mild(c, d, id) && EndReceived(d.log, id) && c.server && !CanReceive(s.state) && (Ranged(d) ==> WindowOk(d, s))
    ensures Mild(c, CompleteRequest(d, id, s), -1)
    ensures !IdleOdd(d, id) && !CompleteRequest(d, id, s).state.Dead? ==> !StillOpen(CompleteRequest(d, id, s), id)
  {
    if s.hasLength && s.received != s.length {
      hide Mild, StreamError;
      StreamErrorMild(c, d, id, PROTOCOL_ERROR);
    } else {
      var c' := CompleteRequest(d, id, s);
      RequestMild(d, id, s, c');
      hide Mild;
      MildTrans(c, d, c', id);
      MildAll(c, c', id);
    }
  }

  lemma RequestMild(d: Conn, id: nat, s: Stream, c': Conn)
    requires d.server && EndReceived(d.log, id) && !CanReceive(s.state) && (Ranged(d) ==> WindowOk(d, s))
    requires c' == Log(SetStream(d, id, s.(complete := true)), Request(id, s.content))
    ensures Mild(d, c', id) && Accounted(c', id)
  {
  }

  lemma CompleteResponseMild(c: Conn, d: Conn, id: nat, s: Stream)
    requires Mild(c, d, id) && EndReceived(d.log, id) && !c.server && !IdleOdd(d, id) && Heard(d.log, id) == Content(d.log, id)
    ensures Mild(c, CompleteResponse(d, id, s), -1)
    ensures !CompleteResponse(d, id, s).state.Dead? ==>
              !StillOpen(CompleteResponse(d, id, s), id) && Accounted(CompleteResponse(d, id, s), id)
  {
    if s.hasLength && s.received != s.length {
      hide Mild, StreamError;
      StreamErrorMild(c, d, id, PROTOCOL_ERROR);
    } else {
      hide SwapRemove, Emit, Heard, Content, EndReceived, ReportsEnded, Ranged;
      var f := RstFrame(id, NO_ERROR);
      var d1 := if s.state.Closed? then d else Emit(d, f);
      EmitMild(d, f);
      PlainMild(d, d);
      assert d1.streams == d.streams && d1.lastId == d.lastId && d1.state == d.state && d1.server == d.server;
      var c' := CompleteResponse(d, id, s);
      assert c' == CloseStream(Notify(d1, CompleteEvent, id, NO_ERROR, [], [], true), id);
      assert EndReceived(d1.log, id) && Heard(d1.log, id) == Content(d1.log, id) by { OutAside(d, f, id); }
      EventMild(d1, id, c');
      hide Mild;
      MildMost(d, d1, id);
      MildTrans(c, d, d1, id);
      MildTrans(c, d1, c', id);
      MildAll(c, c', id);
    }
  }

  lemma OutAside(d: Conn, f: Frame, id: nat)
    ensures var t := Emit(d, f).log;
            && EndReceived(t, id) == EndReceived(d.log, id)
            && Heard(t, id) == Heard(d.log, id) && Content(t, id) == Content(d.log, id)
  {
  }

  lemma EventMild(d: Conn, id: nat, c': Conn)
    requires EndReceived(d.log, id) && !d.server && Heard(d.log, id) == Content(d.log, id)
    requires c' == CloseStream(Notify(d, CompleteEvent, id, NO_ERROR, [], [], true), id)
    ensures Mild(d, c', id)
  {
    hide SwapRemove;
  }

  // ---- DATA ----

  /** Done with the frame or block that a stands for. */
  ghost predicate Done(c: Conn, a: Assembly, c': Conn) {
    Mild(c, c', -1) && (c'.state.Dead? || !a.end || !StillOpen(c', a.id))
  }

  lemma CreditedMild(c: Conn, f: Frame, data: seq<byte>)
    requires f.id in c.streams && CanReceive(c.streams[f.id].state)
    requires !c.server ==> Heard(c.log, f.id) + data == Content(c.log, f.id)
    ensures Mild(c, Credited(c, f, data), if Bit0(f.flags) then f.id else -1)
    ensures Credited(c, f, data).lastId == c.lastId && f.id in Credited(c, f, data).streams
    ensures !c.server ==> Heard(Credited(c, f, data).log, f.id) == Content(Credited(c, f, data).log, f.id)
  {
    hide Mild;
    var k := if Bit0(f.flags) then f.id else -1;
    var c1 := SetStream(c, f.id, TakenStream(c, f, data));
    PutMild(c, f.id, TakenStream(c, f, data), k);
    if !(c.server || data == []) {
      NotifyMild(c1, c1.(log := Credited(c, f, data).log), f.id, data, Bit0(f.flags));
      MildMost(c1, Credited(c, f, data), k);
      MildTrans(c, c1, Credited(c, f, data), k);
    } else {
      assert Heard(c.log, f.id) + [] == Heard(c.log, f.id);
    }
  }

  lemma PutMild(c: Conn, id: nat, s: Stream, k: int)
    requires id in c.streams && CanReceive(c.streams[id].state) && s.complete == c.streams[id].complete && (k == id || CanReceive(s.state))
    requires s.sendWindow == c.streams[id].sendWindow
    ensures Mild(c, SetStream(c, id, s), k)
  {
    hide Heard, Content, EndReceived, ReportsEnded, Requested, FieldsOf, ResetSent, ResetReceived;
  }

  /** What was owed is passed on. */
  lemma NotifyMild(c: Conn, c': Conn, id: nat, data: seq<byte>, end: bool)
    requires c' == Notify(c, DataEvent, id, NO_ERROR, [], data, end) && data != []
    requires !c.server && Heard(c.log, id) + data == Content(c.log, id)
    ensures Mild(c, c', -1) && Heard(c'.log, id) == Content(c'.log, id)
  {
    assert id in c.streams || IdleOdd(c, id) ==> !Accounted(c, id);
  }

  lemma TopUpMild(c: Conn, id: nat)
    requires id in c.streams
    ensures Mild(c, ReplenishStream(c, id), -1)
  {
    hide Mild;
    PlainMild(c, c);
    var s := c.streams[id].(recvWindow := LOCAL_WINDOW);
    SetMild(c, id, s);
    if c.streams[id].recvWindow <= LOCAL_WINDOW / 2 {
      var c1 := SetStream(c, id, s);
      var w := WindowFrame(id, LOCAL_WINDOW - c.streams[id].recvWindow);
      EmitMild(c1, w);
      MildTrans(c, c1, Emit(c1, w), -1);
    }
  }

  /** A reset stream is open no more, if it was in use. */
  lemma RefusedDone(c: Conn, a: Assembly, code: nat)
    requires !IdleOdd(c, a.id)
    ensures Done(c, a, StreamError(c, a.id, code))
    ensures c.server || StreamError(c, a.id, code).state.Dead? || Accounted(StreamError(c, a.id, code), a.id)
  {
    hide Mild, StreamError;
    PlainMild(c, c);
    MildMost(c, c, a.id);
    StreamErrorMild(c, c, a.id, code);
    MildAccounts(c, StreamError(c, a.id, code), a.id);
  }

  lemma TakeDone(c: Conn, f: Frame, data: seq<byte>, a: Assembly)
    requires f.id in c.streams && CanReceive(c.streams[f.id].state) && !IdleOdd(c, f.id)
    requires a.id == f.id && a.end == Bit0(f.flags) && (a.end ==> EndReceived(c.log, f.id))
    requires !c.server ==> Heard(c.log, f.id) + data == Content(c.log, f.id)
    ensures Done(c, a, TakeData(c, f, data))
    ensures c.server || TakeData(c, f, data).state.Dead? || Accounted(TakeData(c, f, data), f.id)
  {
    TakeCases(c, f, data);
    hide Heard, Content, EndReceived, TakeData, StreamError, CompleteRequest, CompleteResponse, ReplenishStream, Mild;
    RefusedDone(c, a, ENHANCE_YOUR_CALM);
    RefusedDone(c, a, PROTOCOL_ERROR);
    CreditedMild(c, f, data);
    var d := Credited(c, f, data);
    if !Bit0(f.flags) {
      TopUpMild(d, f.id);
      MildAccounts(d, ReplenishStream(d, f.id), f.id);
      MildTrans(c, d, ReplenishStream(d, f.id), -1);
    } else {
      assert EndReceived(d.log, f.id) by { MildReceived(c, d, f.id); }
      if c.server {
        CompleteRequestMild(c, d, f.id, TakenStream(c, f, data));
      } else {
        CompleteResponseMild(c, d, f.id, TakenStream(c, f, data));
      }
    }
  }

  lemma MildAccounts(c: Conn, c': Conn, id: nat)
    requires Mild(c, c', -1)
    ensures c'.server == c.server && (!c'.state.Dead? && Accounted(c, id) ==> Accounted(c', id))
  {
  }

  lemma MildReceived(c: Conn, d: Conn, id: nat)
    requires Mild(c, d, id)
    ensures EndReceived(d.log, id) == EndReceived(c.log, id)
  {
  }

  lemma TopUpConnMild(c: Conn, n: nat)
    ensures Mild(c, ReplenishConn(c.(recvWindow := c.recvWindow - n)), -1)
  {
    hide Mild;
    var c1 := c.(recvWindow := c.recvWindow - n);
    PlainMild(c, c1);
    var c2 := c1.(recvWindow := LOCAL_WINDOW);
    var w := WindowFrame(0, if LOCAL_WINDOW >= c1.recvWindow then LOCAL_WINDOW - c1.recvWindow else 0);
    PlainMild(c, c2);
    EmitMild(c2, w);
    MildTrans(c, c2, Emit(c2, w), -1);
  }

  lemma TopUpAside(c: Conn, n: nat, id: nat)
    ensures var c1 := ReplenishConn(c.(recvWindow := c.recvWindow - n));
            && EndReceived(c1.log, id) == EndReceived(c.log, id) && c1.streams == c.streams
            && Heard(c1.log, id) == Heard(c.log, id) && Content(c1.log, id) == Content(c.log, id)
  {
  }

  lemma DoneTrans(c: Conn, d: Conn, a: Assembly, c': Conn)
    requires Mild(c, d, -1) && Done(d, a, c')
    ensures Done(c, a, c')
  {
    hide Mild;
    MildTrans(c, d, c', -1);
  }

  lemma DeadDone(c: Conn, a: Assembly, code: nat)
    ensures Done(c, a, ConnError(c, code)) && ConnError(c, code).state.Dead?
  {
    hide Mild, ConnError;
    ConnErrorMild(c, code);
  }

  lemma DataDone(c: Conn, f: Frame, a: Assembly)
    requires f.id != 0 && a.id == f.id && a.end == Bit0(f.flags) && (a.end ==> EndReceived(c.log, f.id)) && Owed(c, f)
    ensures Done(c, a, HandleData(c, f))
    ensures c.server || HandleData(c, f).state.Dead? || Accounted(HandleData(c, f), f.id)
  {
    hide Heard, Content, EndReceived, Accounted, Done, Mild, ConnError, StreamError, TakeData, DataBytes, ReplenishConn;
    var n := |f.payload|;
    var c1 := ReplenishConn(c.(recvWindow := c.recvWindow - n));
    TopUpConnMild(c, n);
    assert c1.server == c.server by { MildAccounts(c, c1, f.id); }
    DeadDone(c, a, FLOW_CONTROL_ERROR);
    DeadDone(c1, a, FRAME_SIZE_ERROR);
    DeadDone(c1, a, PROTOCOL_ERROR);
    if !IsIdle(c1, f.id) {
      RefusedDone(c1, a, STREAM_CLOSED);
      RefusedDone(c1, a, FLOW_CONTROL_ERROR);
      if f.id in c1.streams && CanReceive(c1.streams[f.id].state) && DataBytes(f).Some? {
        TopUpAside(c, n, f.id);
        TakeDone(c1, f, DataBytes(f).value, a);
      }
    }
    if HandleData(c, f) != ConnError(c, FLOW_CONTROL_ERROR) {
      DoneTrans(c, c1, a, HandleData(c, f));
    }
  }

  // ---- header blocks ----

  lemma BornMild(c: Conn, id: nat, end: bool, fields: seq<Field>)
    requires c.server && !c.state.Dead? && IdleOdd(c, id)
    ensures Mild(c, Born(c, id, end, fields), if end then id else -1)
  {
    hide DeclaredLength, IsHeadRequest;
  }

  lemma OpenDone(c: Conn, a: Assembly, fields: seq<Field>)
    requires c.server && !c.state.Dead? && IdleOdd(c, a.id) && (a.end ==> EndReceived(c.log, a.id))
    ensures Done(c, a, OpenStream(c.(lastId := a.id), a.id, a.end, fields))
  {
    hide Mild, CompleteRequest, DeclaredLength, IsHeadRequest;
    var d := Born(c, a.id, a.end, fields);
    BornMild(c, a.id, a.end, fields);
    if a.end {
      MildReceived(c, d, a.id);
      CompleteRequestMild(c, d, a.id, NewStream(c, true, fields));
    }
  }

  lemma TrailersDone(c: Conn, a: Assembly)
    requires c.server && a.id in c.streams && CanReceive(c.streams[a.id].state) && !IdleOdd(c, a.id)
    requires a.end ==> EndReceived(c.log, a.id)
    ensures a.end ==> var s := c.streams[a.id]; Done(c, a, CompleteRequest(c, a.id, s.(state := AfterHeadersReceived(s.state, true))))
  {
    hide Mild, CompleteRequest;
    PlainMild(c, c);
    MildMost(c, c, a.id);
    var s := c.streams[a.id];
    if a.end {
      CompleteRequestMild(c, c, a.id, s.(state := AfterHeadersReceived(s.state, true)));
    }
  }

  lemma UsedIds(c: Conn, id: nat)
    requires Table(c)
    ensures id in c.streams ==> id <= c.lastId
  {
  }

  lemma RequestBlockDone(c: Conn, a: Assembly, fields: seq<Field>, tooMany: bool)
    requires Table(c) && c.server && (a.end ==> EndReceived(c.log, a.id))
    ensures Done(c, a, FinishRequestBlock(c, a, fields, tooMany))
  {
    hide Table, Done, Mild, ConnError, StreamError, OpenStream, CompleteRequest, WellFormed, RecentlyClosed;
    UsedIds(c, a.id);
    DeadDone(c, a, PROTOCOL_ERROR);
    DeadDone(c, a, STREAM_CLOSED);
    if a.id in c.streams {
      RefusedDone(c, a, PROTOCOL_ERROR);
      RefusedDone(c, a, STREAM_CLOSED);
      if CanReceive(c.streams[a.id].state) {
        TrailersDone(c, a);
      }
    } else if a.id % 2 == 1 && a.id > c.lastId {
      TurnedDown(c, a, PROTOCOL_ERROR);
      TurnedDown(c, a, REFUSED_STREAM);
      if c.state.Active? {
        OpenDone(c, a, fields);
      }
    }
  }

  /** A new stream is refused: its id counts as used. */
  lemma TurnedDown(c: Conn, a: Assembly, code: nat)
    requires IdleOdd(c, a.id)
    ensures Done(c, a, StreamError(c.(lastId := a.id), a.id, code))
  {
    hide Done, Mild, StreamError;
    var c1 := c.(lastId := a.id);
    PlainMild(c, c1);
    RefusedDone(c1, a, code);
    DoneTrans(c, c1, a, StreamError(c1, a.id, code));
  }

  /** An event on a client's stream. */
  lemma ToldMild(c: Conn, id: nat, s: Stream, e: Entry)
    requires !c.server && id in c.streams && CanReceive(c.streams[id].state)
    requires e.Event? && !e.response.kind.CompleteEvent? && !e.response.kind.DataEvent?
    requires s.sendWindow == c.streams[id].sendWindow
    ensures Log(SetStream(c, id, s), e).lastId == c.lastId
    ensures Heard(Log(SetStream(c, id, s), e).log, id) == Heard(c.log, id)
    ensures Content(Log(SetStream(c, id, s), e).log, id) == Content(c.log, id)
    ensures Mild(c, Log(SetStream(c, id, s), e), -1)
  {
  }

  lemma HeadDone(c: Conn, a: Assembly, fields: seq<Field>)
    requires !c.server && a.id in c.streams && CanReceive(c.streams[a.id].state) && !IdleOdd(c, a.id)
    requires a.end ==> EndReceived(c.log, a.id) && Heard(c.log, a.id) == Content(c.log, a.id)
    ensures Done(c, a, ResponseHead(c, a, fields))
  {
    hide Heard, Content, EndReceived, Mild, StreamError, CompleteResponse, WellFormed, DeclaredLength, StatusOf;
    RefusedDone(c, a, PROTOCOL_ERROR);
    var s := HeadStream(c.streams[a.id], fields);
    var c1 := Notify(SetStream(c, a.id, s), HeadersEvent, a.id, NO_ERROR, fields, [], a.end);
    ToldMild(c, a.id, s, c1.log.last);
    SetMild(c1, a.id, s.(status := 0));
    MildTrans(c, c1, SetStream(c1, a.id, s.(status := 0)), -1);
    if a.end {
      MildMost(c, c1, a.id);
      MildReceived(c, c1, a.id);
      CompleteResponseMild(c, c1, a.id, s.(state := AfterHeadersReceived(s.state, true)));
    }
  }

  lemma TrailerDone(c: Conn, a: Assembly, fields: seq<Field>)
    requires !c.server && a.id in c.streams && CanReceive(c.streams[a.id].state) && !IdleOdd(c, a.id)
    requires a.end ==> EndReceived(c.log, a.id) && Heard(c.log, a.id) == Content(c.log, a.id)
    ensures Done(c, a, ResponseTrailer(c, a, fields))
  {
    hide Heard, Content, EndReceived, Mild, StreamError, CompleteResponse, WellFormed, DeclaredLength;
    RefusedDone(c, a, PROTOCOL_ERROR);
    var s := c.streams[a.id];
    var s1 := s.(state := AfterHeadersReceived(s.state, true));
    var c1 := Notify(SetStream(c, a.id, s1), TrailersEvent, a.id, NO_ERROR, fields, [], true);
    ToldMild(c, a.id, s1, c1.log.last);
    if a.end {
      MildMost(c, c1, a.id);
      MildReceived(c, c1, a.id);
      CompleteResponseMild(c, c1, a.id, s1);
    }
  }

  lemma ResponseBlockDone(c: Conn, a: Assembly, fields: seq<Field>, tooMany: bool)
    requires !c.server && Accounted(c, a.id) && (a.end ==> EndReceived(c.log, a.id))
    ensures Done(c, a, FinishResponseBlock(c, a, fields, tooMany))
  {
    hide Heard, Content, EndReceived, Done, Mild, ConnError, StreamError, ResponseHead, ResponseTrailer;
    DeadDone(c, a, PROTOCOL_ERROR);
    if !IsIdle(c, a.id) {
      RefusedDone(c, a, STREAM_CLOSED);
      RefusedDone(c, a, PROTOCOL_ERROR);
      if a.id in c.streams && CanReceive(c.streams[a.id].state) {
        HeadDone(c, a, fields);
        TrailerDone(c, a, fields);
      }
    }
  }

  lemma BlockDone(c: Conn, a: Assembly)
    requires Table(c) && Accounted(c, a.id) && (a.end ==> EndReceived(c.log, a.id))
    ensures Done(c, a, FinishBlock(c, a))
  {
    hide Heard, Content, EndReceived, Done, Mild, ConnError, FinishRequestBlock, FinishResponseBlock, DecodeBlock;
    var decoded := DecodeBlock(c.huffman, c.dec, a.bytes, false);
    var c1 := c.(dec := decoded.st);
    PlainMild(c, c1);
    DeadDone(c1, a, COMPRESSION_ERROR);
    var tooMany := |decoded.fields| > MAX_HEADERS;
    var fields := if tooMany then decoded.fields[..MAX_HEADERS] else decoded.fields;
    if c.server {
      RequestBlockDone(c1, a, fields, tooMany);
    } else {
      ResponseBlockDone(c1, a, fields, tooMany);
    }
    DoneTrans(c, c1, a, FinishBlock(c, a));
  }

  // ---- every step ----

  lemma DoneEnds(c: Conn, a: Assembly, c': Conn)
    requires Ends(c, a) && Done(c, a, c') && c.assembly.id == 0
    ensures Ends(c', c'.assembly)
  {
    Settled(c, c', a, -1);
  }

  lemma EndInHand(c: Conn, a: Assembly)
    requires Ends(c, a) && !c.state.Dead? && a.id != 0
    ensures (a.end ==> EndReceived(c.log, a.id)) && Accounted(c, a.id)
  {
    hide Accounted, Ranged;
  }

  lemma DataSettled(c: Conn, c': Conn, a: Assembly, k: int)
    requires EndsBut(c, a, k) && Done(c, a, c') && c.assembly.id == 0 && (c'.state.Dead? || k < 0 || Accounted(c', k))
    ensures Ends(c', c'.assembly)
  {
    hide Accounted, Ranged, StillOpen;
    Settled(c, c', a, k);
  }

  lemma DataEnds(c0: Conn, f: Frame, c: Conn)
    requires Ends(c0, c0.assembly) && !c0.state.Dead? && c0.assembly.id == 0 && f.kind == DATA && Arrived(c0, f, c)
    ensures Ends(HandleData(c, f), HandleData(c, f).assembly)
  {
    hide HandleData, ConnError, Done;
    if f.id == 0 {
      ReportsKept(c0, f, c);
      DeadEnds(c, PROTOCOL_ERROR);
      assert HandleData(c, f) == ConnError(c, PROTOCOL_ERROR) by { NoStream(c, f); }
    } else {
      var a := Assembly(f.id, Bit0(f.flags), false, []);
      var k := if c.server then -1 else f.id;
      TakenInHand(c0, f, c, a);
      assert a.end ==> EndReceived(c.log, a.id);
      DataDone(c, f, a);
      assert k >= 0 ==> HandleData(c, f).state.Dead? || Accounted(HandleData(c, f), k);
      hide Accounted, Ranged, StillOpen, EndReceived;
      DataSettled(c, HandleData(c, f), a, k);
    }
  }

  lemma NoStream(c: Conn, f: Frame)
    requires f.id == 0
    ensures HandleData(c, f) == ConnError(c, PROTOCOL_ERROR) && HandleHeaders(c, f) == ConnError(c, PROTOCOL_ERROR)
  {
  }

  lemma HeadersEnds(c0: Conn, f: Frame, c: Conn)
    requires Table(c0) && Ends(c0, c0.assembly) && !c0.state.Dead? && c0.assembly.id == 0 && f.kind == HEADERS && Arrived(c0, f, c)
    ensures Ends(HandleHeaders(c, f), HandleHeaders(c, f).assembly)
  {
    hide Table, Ends, ConnError, FinishBlock, FragmentOf, Done, DecodeBlock, ReportsEnded, Ranged;
    assert Table(c) by { LogAside(c0, c); }
    ReportsKept(c0, f, c);
    if f.id == 0 {
      DeadEnds(c, PROTOCOL_ERROR);
    } else {
      match FragmentOf(f)
      case BadFragment(code) => DeadEnds(c, code);
      case Fragment(bytes, selfDependent) =>
        var a := Assembly(f.id, Bit0(f.flags), selfDependent, bytes);
        TakenInHand(c0, f, c, a);
        if Bit2(f.flags) {
          EndInHand(c, a);
          BlockDone(c, a);
          DoneEnds(c, a, FinishBlock(c, a));
        } else {
          SameEnds(c, c.(assembly := a), a, a);
        }
    }
  }

  /** Which octets a block has, and which assembly is kept, does not matter. */
  lemma SameEnds(c: Conn, c': Conn, a: Assembly, a': Assembly)
    requires Ends(c, a) && c' == c.(assembly := c'.assembly) && a'.id == a.id && a'.end == a.end
    ensures Ends(c', a')
  {
    forall id: nat ensures StillOpen(c', id) == StillOpen(c, id) {}
    forall id: nat | Accounted(c, id) ensures Accounted(c', id) {}
    assert Ranged(c');
    hide StillOpen, Accounted, Ranged;
  }

  lemma ContinuationEnds(c0: Conn, f: Frame, c: Conn)
    requires Table(c0) && Ends(c0, c0.assembly) && !c0.state.Dead? && f.kind == CONTINUATION && Arrived(c0, f, c)
    ensures Ends(HandleContinuation(c, f), HandleContinuation(c, f).assembly)
  {
    hide Table, ConnError, FinishBlock, Done, Mild, Ends, DecodeBlock, ReportsEnded, Ranged;
    assert Table(c) by { LogAside(c0, c); }
    ReportsKept(c0, f, c);
    LoggedMild(c0, f, c);
    MildEnds(c0, c, c0.assembly);
    DeadEnds(c, PROTOCOL_ERROR);
    DeadEnds(c, ENHANCE_YOUR_CALM);
    if c.assembly.id != 0 && f.id == c.assembly.id {
      var a := c.assembly.(bytes := c.assembly.bytes + f.payload);
      if Bit2(f.flags) {
        var c1 := c.(assembly := NO_ASSEMBLY);
        assert Table(c1) by { LogAside(c, c1); }
        SameEnds(c, c1, c.assembly, a);
        EndInHand(c1, a);
        BlockDone(c1, a);
        DoneEnds(c1, a, FinishBlock(c1, a));
      } else {
        SameEnds(c, c.(assembly := a), c.assembly, a);
      }
    }
  }

  lemma LogAside(c: Conn, c': Conn)
    requires Table(c) && c' == c.(log := c'.log, firstSeen := c'.firstSeen, assembly := c'.assembly)
    ensures Table(c')
  {
  }

  /** A frame that can end nothing. */
  lemma OtherFrameMild(c: Conn, f: Frame)
    requires f.kind != DATA && f.kind != HEADERS && f.kind != CONTINUATION
    requires Table(c) && !c.state.Dead? && (f.kind == RST_STREAM ==> ResetReceived(c.log, f.id))
    ensures Mild(c, Dispatch(c, f), -1)
  {
    hide Table, Mild, ConnError, HandleData, HandleHeaders, HandlePriority, HandleRst, HandleSettings, HandlePing, HandleGoaway,
         HandleWindowUpdate, HandleContinuation, ResetReceived;
    ConnErrorMild(c, PROTOCOL_ERROR);
    if f.kind == PRIORITY || f.kind == PING { SmallMild(c, f); }
    else if f.kind == RST_STREAM { RstFrameMild(c, f); }
    else if f.kind == SETTINGS { SettingsMild(c, f); }
    else if f.kind == GOAWAY { GoawayMild(c, f); }
    else if f.kind == WINDOW_UPDATE { WindowMild(c, f); }
    else { PlainMild(c, c); }
  }

  lemma ReportsKept(c0: Conn, f: Frame, c: Conn)
    requires Ends(c0, c0.assembly) && c == c0.(log := Then(c0.log, In(f)), firstSeen := c.firstSeen)
    ensures ReportsEnded(c.log) && Ranged(c) && (f.kind == RST_STREAM ==> ResetReceived(c.log, f.id))
  {
  }

  lemma DispatchEnds(c0: Conn, f: Frame, c: Conn)
    requires Table(c0) && Ends(c0, c0.assembly) && !c0.state.Dead? && Arrived(c0, f, c)
    ensures Ends(Dispatch(c, f), Dispatch(c, f).assembly)
  {
    hide Table, Ends, Mild, ConnError, HandleData, HandleHeaders, HandlePriority, HandleRst, HandleSettings, HandlePing,
         HandleGoaway, HandleWindowUpdate, HandleContinuation, ReportsEnded, Ranged, ResetReceived;
    ReportsKept(c0, f, c);
    if c.assembly.id != 0 && f.kind != CONTINUATION { DeadEnds(c, PROTOCOL_ERROR); }
    else if f.kind == DATA { DataEnds(c0, f, c); }
    else if f.kind == HEADERS { HeadersEnds(c0, f, c); }
    else if f.kind == CONTINUATION { ContinuationEnds(c0, f, c); }
    else {
      hide Dispatch;
      LoggedMild(c0, f, c);
      MildEnds(c0, c, c0.assembly);
      LogAside(c0, c);
      OtherFrameMild(c, f);
      MildEnds(c, Dispatch(c, f), c.assembly);
      MildAssembly(c, Dispatch(c, f));
    }
  }

  lemma MildAssembly(c: Conn, c': Conn)
    requires Mild(c, c', -1)
    ensures c'.assembly == c.assembly
  {
  }

  lemma FrameEnds(c: Conn, f: Frame)
    requires Table(c) && Ends(c, c.assembly) && !c.state.Dead?
    ensures Ends(HandleFrame(c, f), HandleFrame(c, f).assembly)
  {
    hide Table, Ends, Dispatch, ConnError, ReportsEnded, Ranged;
    var c1 := Log(c, In(f));
    ReportsKept(c, f, c1);
    DeadEnds(c1, ENHANCE_YOUR_CALM);
    ReportsKept(c, f, c1.(firstSeen := true));
    DeadEnds(c1.(firstSeen := true), PROTOCOL_ERROR);
    DispatchEnds(c, f, c1.(firstSeen := true));
  }

  lemma PrefacedEnds(c: Conn)
    requires Ends(c, c.assembly) && c.state.PrefacePending?
    ensures Ends(c.(state := Active), c.assembly)
  {
    var c' := c.(state := Active);
    forall id: nat ensures StillOpen(c', id) == StillOpen(c, id) {}
    forall id: nat | Accounted(c, id) ensures Accounted(c', id) {}
    assert Ranged(c');
    hide StillOpen, Accounted, Ranged;
  }

  lemma StepEnds(c: Conn, step: Step)
    requires Table(c) && Ends(c, c.assembly) && Enabled(c, step)
    ensures Ends(Take(c, step), Take(c, step).assembly)
  {
    hide Table, Ends, Mild, HandleFrame, ConnError, SendResponse, SendRequest, SendRst, SendGoaway, Commit;
    match step {
      case Arrive(f) => FrameEnds(c, f);
      case Prefaced => PrefacedEnds(c);
      case Violate(code) =>
        EndsReports(c);
        DeadEnds(c, code);
      case _ =>
        CallMild(c, step);
        MildEnds(c, Take(c, step), c.assembly);
        MildAssembly(c, Take(c, step));
    }
  }

  lemma EndsReports(c: Conn)
    requires Ends(c, c.assembly)
    ensures ReportsEnded(c.log) && Ranged(c)
  {
  }

  lemma {:induction false} RunEnds(c: Conn, steps: seq<Step>)
    requires Inv(c) && Ends(c, c.assembly) && Legal(c, steps)
    ensures Ends(After(c, steps), After(c, steps).assembly)
    decreases |steps|
  {
    hide Inv, Ends, Take, Enabled, Table;
    if steps != [] {
      assert Table(c) by { InvIsTable(c); }
      StepInv(c, steps[0]);
      StepEnds(c, steps[0]);
      RunEnds(Take(c, steps[0]), steps[1..]);
    }
  }

  lemma InitEnds(server: bool, huffman: Huffman, maxBody: nat)
    ensures var c := Init(server, huffman, maxBody); Ends(c, c.assembly)
  {
    var c := Init(server, huffman, maxBody);
    assert c.log == Then(Empty, Out(LocalSettings(server)));
    forall id: nat ensures !EndReceived(c.log, id) && FieldsOf(c.log, id).None? && Heard(c.log, id) == Content(c.log, id) {
      assert !EndReceived(Empty, id) && FieldsOf(Empty, id).None? && Heard(Empty, id) == Content(Empty, id);
    }
    assert ReportsEnded(Empty);
  }

  lemma ReachedEnds(c: Conn)
    requires Reached(c)
    ensures Ends(c, c.assembly)
  {
    var server: bool, huffman: Huffman, maxBody: nat, steps: seq<Step> :|
      Legal(Init(server, huffman, maxBody), steps) && c == After(Init(server, huffman, maxBody), steps);
    hide Inv, Ends, Init, Legal, After;
    InitInv(server, huffman, maxBody);
    InitEnds(server, huffman, maxBody);
    RunEnds(Init(server, huffman, maxBody), steps);
  }
}
