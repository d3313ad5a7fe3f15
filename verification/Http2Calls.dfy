/** Application calls keep the invariant. */
module Http2Calls {
  import opened Bytes
  import opened HpackSpec
  import opened Http2Frames
  import opened Http2Fields
  import opened Http2Spec
  import opened Http2Trace
  import opened Http2Invariant
  import opened Http2Leaves
  import opened Http2Errors
  import opened Http2Pump
  import opened Http2Handlers

  // ---- a header block goes out ----

  /** Everything but the sending history. */
  ghost predicate Rest(c: Conn) {
    Table(c) && Ids(c) && Requests(c) && Responses(c) && Goaways(c) && Flow(c)
  }

  /** The sending history while stream id is at phase p and the block of stream open is unfinished. */
  ghost predicate Mid(c: Conn, id: nat, p: Phase, open: nat) {
    && FirstOut(c.log).Some? && FirstOut(c.log).value == LocalSettings(c.server)
    && SizesOk(c.log) && Unbroken(c.log) && OpenBlock(c.log) == open
    && (forall j: nat | j != id :: SendOk(c, j))
    && Begun(c.log, id) == (if p.Fresh? then 0 else 1)
    && PhaseOf(c.log, id, false) == p
    && (id !in c.idleResets ==> PhaseOf(c.log, id, true) == p)
  }

  lemma EmitRest(c: Conn, f: Frame)
    requires Rest(c) && (f.kind == HEADERS || f.kind == CONTINUATION)
    ensures Rest(Emit(c, f))
  {
    var c' := Emit(c, f);
    RequestsFrame(c, c', Out(f));
    ResponsesFrame(c, c', Out(f));
    GoawaysFrame(c, c', Out(f));
    FlowFrame(c, c', Out(f), -1);
  }

  lemma EmitMid(c: Conn, id: nat, p: Phase, open: nat, f: Frame)
    requires Mid(c, id, p, open) && !p.Fresh? && f.id == id && id != 0 && |f.payload| <= FrameLimit(c.log) && |f.payload| <= MAX_PAYLOAD
    requires if open == 0 then f.kind == HEADERS else open == id && f.kind == CONTINUATION
    ensures Mid(Emit(c, f), id, OnOut(p, f, true), if Bit2(f.flags) then 0 else id)
  {
    var c' := Emit(c, f);
    forall j: nat | j != id ensures SendOk(c', j) {
      assert SendOk(c, j);
    }
  }

  lemma RestLimit(c: Conn)
    requires Rest(c)
    ensures LOCAL_MAX_FRAME <= c.peer.maxFrame <= FrameLimit(c.log) && c.peer.maxFrame <= MAX_PAYLOAD
  {
  }

  lemma {:induction false} EmitBlockKeeps(c: Conn, id: nat, left: seq<byte>, body: seq<byte>, first: bool)
    requires Rest(c) && id != 0
    requires Mid(c, id, if first then Due(left, body) else Heading(left, body), if first then 0 else id)
    ensures var c' := EmitBlock(c, id, left, first, body == []);
            && Rest(c') && Mid(c', id, if body == [] then Ended else Body(0, body), 0)
            && c' == c.(log := c'.log, backlog := c'.backlog) && c'.backlog >= c.backlog
    decreases |left|
  {
    hide Rest, Mid;
    RestLimit(c);
    var n := c.peer.maxFrame;
    var kind := if first then HEADERS else CONTINUATION;
    var p := if first then Due(left, body) else Heading(left, body);
    var open := if first then 0 else id;
    if |left| <= n {
      var f := Frame(kind, HeaderFlags(true, first && body == []), id, left);
      EmitRest(c, f);
      EmitMid(c, id, p, open, f);
    } else {
      var f := Frame(kind, HeaderFlags(false, first && body == []), id, left[..n]);
      EmitRest(c, f);
      EmitMid(c, id, p, open, f);
      assert left[..n] <= left && left[..n] != left;
      EmitBlockKeeps(Emit(c, f), id, left[n..], body, false);
    }
  }

  /** From a stream that has sent nothing to one whose header block is out. */
  lemma BeginKeeps(c: Conn, id: nat, fields: seq<Field>, block: seq<byte>, body: seq<byte>)
    requires Rest(c) && id != 0 && Mid(c, id, Fresh, 0)
    ensures var c' := EmitBlock(Log(c, Begin(id, fields, block, body)), id, block, true, body == []);
            && Rest(c') && Mid(c', id, if body == [] then Ended else Body(0, body), 0)
            && c' == c.(log := c'.log, backlog := c'.backlog) && c'.backlog >= c.backlog
  {
    hide Rest, Mid, EmitBlock;
    BeginRest(c, Begin(id, fields, block, body));
    BeginMid(c, id, fields, block, body);
    EmitBlockKeeps(Log(c, Begin(id, fields, block, body)), id, block, body, true);
  }

  lemma BeginRest(c: Conn, e: Entry)
    requires Rest(c) && e.Begin?
    ensures Rest(Log(c, e))
  {
    var c1 := Log(c, e);
    RequestsFrame(c, c1, e);
    ResponsesFrame(c, c1, e);
    GoawaysFrame(c, c1, e);
    FlowFrame(c, c1, e, -1);
  }

  lemma BeginMid(c: Conn, id: nat, fields: seq<Field>, block: seq<byte>, body: seq<byte>)
    requires Mid(c, id, Fresh, 0)
    ensures Mid(Log(c, Begin(id, fields, block, body)), id, Due(block, body), 0)
  {
    var c1 := Log(c, Begin(id, fields, block, body));
    forall j: nat | j != id ensures SendOk(c1, j) {
      assert SendOk(c, j);
    }
  }

  lemma MidEnds(c: Conn, id: nat, p: Phase)
    requires Mid(c, id, p, 0) && (p.Body? || p.Ended? || p.Cut?) && !IdleOdd(c, id)
    requires id in c.streams ==> PhaseFits(c.streams[id], p)
    ensures Sends(c)
  {
    forall j: nat ensures SendOk(c, j) {
    }
  }

  lemma MidStarts(c: Conn, id: nat)
    requires Sends(c) && id in c.streams && !c.streams[id].sendPending && CanSend(c.streams[id].state)
    ensures Mid(c, id, Fresh, 0)
  {
    assert SendOk(c, id);
  }

  // ---- send_response ----

  /** The stream once its header block is out. */
  function Answered(s: Stream, body: seq<byte>): Stream {
    var s1 := s.(state := AfterHeadersSent(s.state, body == []));
    if body == [] then s1 else s1.(body := body, sendOff := 0, sendPending := true)
  }

  lemma AnsweredFlow(c: Conn, id: nat, body: seq<byte>)
    requires Flow(c) && c.server && id in c.streams && CanSend(c.streams[id].state)
    ensures Flow(SetStream(c, id, Answered(c.streams[id], body)))
  {
    assert FlowFits(c, id, c.streams[id]);
    FlowButOne(c, id);
    hide FlowExcept;
    PutFlow(c, id, Answered(c.streams[id], body));
  }

  lemma AnsweredTable(c: Conn, id: nat, body: seq<byte>)
    requires Table(c) && id in c.streams && !c.streams[id].sendPending && CanSend(c.streams[id].state)
    ensures Table(SetStream(c, id, Answered(c.streams[id], body)))
  {
    assert Shape(c.streams[id]);
  }

  lemma AnsweredRest(c: Conn, id: nat, body: seq<byte>)
    requires Rest(c) && c.server && id in c.streams && !c.streams[id].sendPending && CanSend(c.streams[id].state)
    requires (id in c.earlyAnswers || c.streams[id].complete) && !Answered(c.streams[id], body).state.Closed?
    ensures Rest(SetStream(c, id, Answered(c.streams[id], body)))
  {
    AnsweredRequests(c, id, body);
    hide Table, Flow, Requests, Responses, Goaways;
    var c' := SetStream(c, id, Answered(c.streams[id], body));
    var e := In(Frame(0, 0, 0, []));
    AnsweredTable(c, id, body);
    AnsweredFlow(c, id, body);
    ResponsesFrame(c, c', e);
    GoawaysFrame(c, c', e);
  }

  lemma AnsweredRequests(c: Conn, id: nat, body: seq<byte>)
    requires Requests(c) && c.server && id in c.streams && !c.streams[id].sendPending && CanSend(c.streams[id].state)
    requires (id in c.earlyAnswers || c.streams[id].complete) && !Answered(c.streams[id], body).state.Closed?
    ensures Requests(SetStream(c, id, Answered(c.streams[id], body)))
  {
    var c' := SetStream(c, id, Answered(c.streams[id], body));
    assert RequestFits(c, id, c.streams[id]);
    assert RequestFits(c', id, c'.streams[id]);
    RequestsPut(c, c', In(Frame(0, 0, 0, [])), id);
  }

  /** The stream leaves with its last frame. */
  lemma MidCloses(c: Conn, id: nat)
    requires Mid(c, id, Ended, 0) && !IdleOdd(c, id)
    ensures Sends(CloseStream(c, id))
  {
    hide SwapRemove;
    var c' := CloseStream(c, id);
    forall j: nat | j != id ensures SendOk(c', j) {
      assert SendOk(c, j);
    }
    MidEnds(c', id, Ended);
  }

  lemma AnsweredGone(c: Conn, id: nat)
    requires Rest(c) && c.server && Mid(c, id, Ended, 0) && !IdleOdd(c, id) && Quiet(c)
    ensures Inv(CloseStream(c, id))
  {
    hide Table, FlowExcept, Requests, Responses, Goaways, Quiet, Sends, SwapRemove, Mid;
    var c' := CloseStream(c, id);
    var e := In(Frame(0, 0, 0, []));
    MidCloses(c, id);
    TableClose(c, id);
    RequestsFrame(c, c', e);
    ResponsesFrame(c, c', e);
    GoawaysFrame(c, c', e);
    FlowFrame(c, c', Opened(0, []), -1);
    QuietFrame(c, c');
  }

  lemma AnsweredMid(c: Conn, id: nat, body: seq<byte>)
    requires id in c.streams && !c.streams[id].sendPending && CanSend(c.streams[id].state) && !IdleOdd(c, id)
    requires Mid(c, id, if body == [] then Ended else Body(0, body), 0)
    ensures Sends(SetStream(c, id, Answered(c.streams[id], body)))
  {
    var c' := SetStream(c, id, Answered(c.streams[id], body));
    forall j: nat | j != id ensures SendOk(c', j) {
      assert SendOk(c, j);
    }
    MidEnds(c', id, if body == [] then Ended else Body(0, body));
  }

  function Noted(c: Conn, id: nat): Conn
    requires id in c.streams
  {
    c.(earlyAnswers := if c.streams[id].complete then c.earlyAnswers else c.earlyAnswers + {id})
  }

  lemma NotedRest(c: Conn, id: nat)
    requires Core(c) && Flow(c) && Quiet(c) && id in c.streams
    requires !c.streams[id].sendPending && CanSend(c.streams[id].state)
    ensures Rest(Noted(c, id)) && Mid(Noted(c, id), id, Fresh, 0) && Quiet(Noted(c, id))
  {
    var c' := Noted(c, id);
    var e := In(Frame(0, 0, 0, []));
    assert Table(c');
    hide Table, FlowExcept, Requests, Responses, Goaways, Quiet, Sends;
    SendsFrame(c, c', e);
    RequestsFrame(c, c', e);
    ResponsesFrame(c, c', e);
    GoawaysFrame(c, c', e);
    FlowFrame(c, c', Opened(0, []), -1);
    QuietFrame(c, c');
    MidStarts(c', id);
  }

  lemma AnswerInv(c: Conn, id: nat, fields: seq<Field>, block: seq<byte>, body: seq<byte>)
    requires Inv(c) && !c.state.Dead? && c.server && id in c.streams
    requires !c.streams[id].sendPending && CanSend(c.streams[id].state)
    ensures Inv(Answer(c, id, fields, block, body))
  {
    hide Core, Flow, Quiet, Rest, Mid, Pump, EmitBlock, Sends;
    CoreIsTable(c);
    assert id % 2 == 1 && id <= c.lastId;
    var c0 := Noted(c, id);
    NotedRest(c, id);
    BeginKeeps(c0, id, fields, block, body);
    var c1 := EmitBlock(Log(c0, Begin(id, fields, block, body)), id, block, true, body == []);
    var c2 := SetStream(c1, id, Answered(c.streams[id], body));
    QuietFrame(c0, c1);
    if c2.streams[id].state.Closed? {
      assert c2.streams - {id} == c1.streams - {id};
      AnsweredGone(c1, id);
    } else {
      AnsweredRest(c1, id, body);
      AnsweredMid(c1, id, body);
      RestAndSends(c2);
      if body == [] {
        QuietFrame(c1, c2);
      } else {
        PumpKeepsInv(c2);
      }
    }
  }

  lemma RestAndSends(c: Conn)
    requires Rest(c) && Sends(c)
    ensures Core(c) && Flow(c)
  {
  }

  lemma SendResponseInv(c: Conn, id: nat, status: nat, hs: seq<AppHeader>, body: seq<byte>)
    requires Inv(c)
    ensures Inv(Keep(c, SendResponse(c, id, status, hs, body)))
  {
    hide Core, Flow, FlowExcept, Quiet, StreamError, Answer, EncodeBlock, AnswerFields;
    if && c.server && id in c.streams && !c.state.Dead? && CanSend(c.streams[id].state) && !c.streams[id].sendPending {
      FlowButOne(c, id);
      StreamErrorInv(c, id, INTERNAL_ERROR);
      var c1 := c.(enc := c.enc.(pending := false));
      EncMove(c, c1);
      forall fields, block, b ensures Inv(Answer(c1, id, fields, block, b)) {
        AnswerInv(c1, id, fields, block, b);
      }
    }
  }

  lemma EncMove(c: Conn, c1: Conn)
    requires Core(c) && Flow(c) && Quiet(c) && c1 == c.(enc := c1.enc)
    ensures Core(c1) && Flow(c1) && Quiet(c1)
  {
    hide Core, Quiet, FlowExcept;
    MovedCore(c, c1);
    FlowFrame(c, c1, Opened(0, []), -1);
    QuietFrame(c, c1);
  }

  // ---- send_request ----

  lemma {:induction false} FieldsBelowHighest(t: Trace, id: nat)
    ensures FieldsOf(t, id).Some? ==> id <= Highest(t)
  {
    if t.Then? {
      FieldsBelowHighest(t.before, id);
    }
  }

  function NewRequest(c: Conn, fields: seq<Field>, body: seq<byte>): Stream {
    Stream(if body == [] then HalfClosedLocal else Open, c.peer.window, LOCAL_WINDOW,
           body, 0, body != [], IsHeadRequest(fields), false, 0, 0, [], false, 0)
  }

  function Launched(c: Conn, id: nat, fields: seq<Field>, body: seq<byte>): Conn {
    Log(c.(lastId := id, streams := c.streams[id := NewRequest(c, fields, body)], openIds := c.openIds + [id]),
        Opened(id, fields))
  }

  predicate NextOdd(c: Conn, id: nat) { id == (if c.lastId == 0 then 1 else c.lastId + 2) <= MAX_ID }

  lemma LaunchedTable(c: Conn, id: nat, fields: seq<Field>, body: seq<byte>)
    requires Table(c) && Ids(c) && !c.server && NextOdd(c, id) && |c.openIds| < MAX_STREAMS
    ensures Table(Launched(c, id, fields, body)) && Ids(Launched(c, id, fields, body))
  {
    assert forall j | j in c.streams :: j <= c.lastId;
    assert id !in c.openIds;
    assert Shape(NewRequest(c, fields, body));
  }

  lemma LaunchedResponses(c: Conn, id: nat, fields: seq<Field>, body: seq<byte>)
    requires Table(c) && Ids(c) && Responses(c) && !c.server && NextOdd(c, id)
    ensures Responses(Launched(c, id, fields, body)) && ProgressOf(c.log, id) == Waiting
  {
    var c' := Launched(c, id, fields, body);
    FieldsBelowHighest(c.log, id);
    assert id !in c.streams;
    forall j: nat ensures ResponseOk(c', j) {
      assert ResponseOk(c, j);
    }
    assert ResponseOk(c, id);
  }

  lemma LaunchedFlow(c: Conn, id: nat, fields: seq<Field>, body: seq<byte>)
    requires Flow(c) && !c.server && IdleOdd(c, id) && ProgressOf(c.log, id) == Waiting
    ensures Flow(Launched(c, id, fields, body))
  {
    var c' := Launched(c, id, fields, body);
    UntouchedFrame(c, c', Opened(id, fields));
    assert FlowFits(c', id, c'.streams[id]);
    forall j | j in c'.streams && j != id ensures FlowFits(c', j, c'.streams[j]) {
      assert FlowFits(c, j, c.streams[j]);
    }
  }

  lemma LaunchedMid(c: Conn, id: nat, fields: seq<Field>, body: seq<byte>)
    requires Sends(c) && IdleOdd(c, id)
    ensures Mid(Launched(c, id, fields, body), id, Fresh, 0)
  {
    var c' := Launched(c, id, fields, body);
    assert SendOk(c, id);
    forall j: nat | j != id ensures SendOk(c', j) {
      assert SendOk(c, j);
    }
  }

  lemma LaunchedRest(c: Conn, id: nat, fields: seq<Field>, body: seq<byte>)
    requires Core(c) && Flow(c) && !c.server && c.state.Active? && NextOdd(c, id) && |c.openIds| < MAX_STREAMS
    ensures Rest(Launched(c, id, fields, body)) && Mid(Launched(c, id, fields, body), id, Fresh, 0)
  {
    var c' := Launched(c, id, fields, body);
    assert IdleOdd(c, id);
    hide Table, Flow, Requests, Responses, Goaways, Sends, Mid;
    LaunchedTable(c, id, fields, body);
    LaunchedResponses(c, id, fields, body);
    LaunchedFlow(c, id, fields, body);
    LaunchedMid(c, id, fields, body);
    GoawaysOpen(c, c', id, fields);
    LaunchedRequests(c, c', Opened(id, fields));
  }

  lemma LaunchedRequests(c: Conn, c': Conn, e: Entry)
    requires Requests(c) && !c.server && !c'.server && c'.log == Then(c.log, e) && e.Opened? && c'.maxBody == c.maxBody
    ensures Requests(c')
  {
  }

  lemma AskInv(c: Conn, id: nat, fields: seq<Field>, block: seq<byte>, body: seq<byte>)
    requires Core(c) && Flow(c) && !c.server && c.state.Active? && NextOdd(c, id) && |c.openIds| < MAX_STREAMS
    ensures var c1 := Launched(c, id, fields, body);
            Inv(Pump(EmitBlock(Log(c1, Begin(id, fields, block, body)), id, block, true, body == [])))
  {
    hide Core, Flow, Quiet, Rest, Mid, Pump, EmitBlock, Sends;
    var c1 := Launched(c, id, fields, body);
    LaunchedRest(c, id, fields, body);
    BeginKeeps(c1, id, fields, block, body);
    var c2 := EmitBlock(Log(c1, Begin(id, fields, block, body)), id, block, true, body == []);
    MidEnds(c2, id, if body == [] then Ended else Body(0, body));
    RestAndSends(c2);
    PumpKeepsInv(c2);
  }

  lemma SendRequestInv(c: Conn, fields: seq<Field>, body: seq<byte>)
    requires Inv(c)
    ensures Inv(Keep(c, SendRequest(c, fields, body)))
  {
    hide Core, Flow, Quiet, Pump, EmitBlock, EncodeBlock, RequestOk;
    if SendRequest(c, fields, body).Done? {
      var id := if c.lastId == 0 then 1 else c.lastId + 2;
      var c1 := c.(enc := c.enc.(pending := false));
      CoreIsTable(c);
      EncMove(c, c1);
      AskInv(c1, id, fields, EncodeBlock(c.huffman, c.enc, fields), body);
    }
  }

  // ---- resets, shutdown, draining ----

  lemma SendRstInv(c: Conn, id: nat, code: nat)
    requires Inv(c)
    ensures Inv(Keep(c, SendRst(c, id, code)))
  {
    hide Core, Flow, FlowExcept, Quiet, StreamError;
    if !c.state.Dead? {
      FlowButOne(c, id);
    }
    StreamErrorInv(c, id, code);
  }

  lemma GoawayFlow(c: Conn, code: nat, debug: seq<byte>, c': Conn)
    requires Flow(c) && Quiet(c) && c' == SayGoaway(c, code, debug).(state := c'.state)
    ensures Flow(c') && Quiet(c')
  {
    hide FlowExcept, Quiet;
    FlowFrame(c, c', c'.log.last, -1);
    QuietFrame(c, c');
  }

  lemma SendGoawayInv(c: Conn, code: nat, debug: seq<byte>)
    requires Inv(c)
    ensures Inv(Keep(c, SendGoaway(c, code, debug)))
  {
    hide Core, Flow, Quiet, ConnError, ResetAll;
    if !c.state.Dead? {
      if !c.server && c.backlog > MAX_BACKLOG {
        ConnErrorInv(c, ENHANCE_YOUR_CALM);
      } else {
        var d := debug[..Min(|debug|, LOCAL_MAX_FRAME - 8)];
        var c1 := SayGoaway(c, code, d);
        if code != NO_ERROR {
          var c2 := c1.(error := code, state := Dead);
          SayGoawayCore(c, code, d, c2);
          ResetAllCore(c2, code);
        } else {
          var c2 := if c1.state.Active? then c1.(state := GoawaySent) else c1;
          SayGoawayCore(c, code, d, c2);
          GoawayFlow(c, code, d, c2);
        }
      }
    }
  }

  lemma CommitInv(c: Conn, n: nat)
    requires Inv(c)
    ensures Inv(Commit(c, n))
  {
    hide Core, FlowExcept, Pump;
    var c1 := c.(backlog := c.backlog - Min(n, c.backlog));
    MovedCore(c, c1);
    if !c.state.Dead? {
      FlowFrame(c, c1, Opened(0, []), -1);
      if !c.server {
        PumpKeepsInv(c1);
      }
    }
  }
}
