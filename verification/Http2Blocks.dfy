/** Header blocks, requests, responses and DATA keep the invariant. */
module Http2Blocks {
  import opened Bytes
  import opened HpackSpec
  import opened Http2Frames
  import opened Http2Fields
  import opened Http2Spec
  import opened Http2Trace
  import opened Http2Invariant
  import opened Http2Leaves
  import opened Http2Errors
  import opened Http2Handlers

  // ---- assembling blocks ----

  lemma DecodeAllSnoc(h: Huffman, st: DecState, blocks: seq<seq<byte>>, b: seq<byte>)
    ensures DecodeAll(h, st, blocks + [b]) == DecodeBlock(h, DecodeAll(h, st, blocks), b, false).st
  {
    assert (blocks + [b])[..|blocks|] == blocks;
  }

  /** All of Flow but the accounts of header blocks, which a HEADERS or CONTINUATION frame moves. */
  lemma BlockLogged(c0: Conn, f: Frame, c: Conn, c': Conn)
    requires Flow(c0) && Arrived(c0, f, c) && (f.kind == HEADERS || f.kind == CONTINUATION)
    requires c' == c.(assembly := c'.assembly, dec := c'.dec) && BlockSync(c')
    ensures Flow(c')
  {
    hide BlockSync, FlowFits;
    UntouchedFrame(c0, c', In(f));
    forall j | j in c'.streams ensures FlowFits(c', j, c'.streams[j]) {
      FitsFrame(c0, c', In(f), j, c0.streams[j]);
    }
    assert ConnFlow(c') && PeerSync(c');
  }

  lemma HeadersSync(c0: Conn, f: Frame, c: Conn)
    requires BlockSync(c0) && Arrived(c0, f, c) && f.kind == HEADERS && c0.assembly.id == 0 && FragmentOf(f).Fragment?
    ensures Bit2(f.flags) ==> BlockSync(c.(dec := DecodeBlock(c.huffman, c.dec, FragmentOf(f).bytes, false).st))
    ensures !Bit2(f.flags) ==>
              BlockSync(c.(assembly := Assembly(f.id, Bit0(f.flags), FragmentOf(f).selfDependent, FragmentOf(f).bytes)))
  {
    DecodeAllSnoc(c.huffman, DecState([], TABLE_BYTES, TABLE_BYTES), BlocksOf(c0.log).done, FragmentOf(f).bytes);
  }

  lemma ContinuationSync(c0: Conn, f: Frame, c: Conn)
    requires BlockSync(c0) && Arrived(c0, f, c) && f.kind == CONTINUATION && c0.assembly.id != 0 && f.id == c0.assembly.id
    ensures var a := c.assembly.(bytes := c.assembly.bytes + f.payload);
            && (Bit2(f.flags) ==> BlockSync(c.(assembly := NO_ASSEMBLY, dec := DecodeBlock(c.huffman, c.dec, a.bytes, false).st)))
            && (!Bit2(f.flags) ==> BlockSync(c.(assembly := a)))
  {
    DecodeAllSnoc(c.huffman, DecState([], TABLE_BYTES, TABLE_BYTES), BlocksOf(c0.log).done, c.assembly.bytes + f.payload);
  }

  lemma FlowIsBlockSync(c: Conn)
    requires Flow(c)
    ensures BlockSync(c)
  {
  }

  lemma HeadersInv(c0: Conn, f: Frame, c: Conn)
    requires Inv(c0) && !c0.state.Dead? && Arrived(c0, f, c) && f.kind == HEADERS && c0.assembly.id == 0 && f.id < TWO31
    ensures Inv(HandleHeaders(c, f))
  {
    hide Core, Flow, Quiet, BlockSync, ConnError, FinishBlock, FragmentOf, DecodeBlock;
    ArrivedCore(c0, f, c);
    ArrivedQuiet(c0, f, c);
    ConnErrorInv(c, PROTOCOL_ERROR);
    FlowIsBlockSync(c0);
    match FragmentOf(f)
    case BadFragment(code) => ConnErrorInv(c, code);
    case Fragment(bytes, selfDependent) =>
      HeadersSync(c0, f, c);
      var a := Assembly(f.id, Bit0(f.flags), selfDependent, bytes);
      if f.id != 0 {
        if Bit2(f.flags) {
          var c1 := c.(dec := DecodeBlock(c.huffman, c.dec, bytes, false).st);
          BlockLogged(c0, f, c, c1);
          PlainMove(c, c1);
          FinishInv(c, a);
        } else {
          BlockLogged(c0, f, c, c.(assembly := a));
          PlainMove(c, c.(assembly := a));
        }
      }
  }

  /** Decoder and assembly are nobody's business but the header blocks'. */
  lemma PlainMove(c: Conn, c': Conn)
    requires Core(c) && Quiet(c) && c' == c.(assembly := c'.assembly, dec := c'.dec)
    ensures Core(c') && Quiet(c')
  {
    hide Core, Quiet;
    MovedCore(c, c');
    QuietFrame(c, c');
  }

  lemma ContinuationInv(c0: Conn, f: Frame, c: Conn)
    requires Inv(c0) && !c0.state.Dead? && Arrived(c0, f, c) && f.kind == CONTINUATION && f.id < TWO31
    ensures Inv(HandleContinuation(c, f))
  {
    hide Core, Flow, Quiet, BlockSync, ConnError, FinishBlock, DecodeBlock;
    ArrivedCore(c0, f, c);
    ArrivedQuiet(c0, f, c);
    ConnErrorInv(c, PROTOCOL_ERROR);
    ConnErrorInv(c, ENHANCE_YOUR_CALM);
    FlowIsBlockSync(c0);
    if c.assembly.id != 0 && f.id == c.assembly.id {
      ContinuationSync(c0, f, c);
      var a := c.assembly.(bytes := c.assembly.bytes + f.payload);
      if Bit2(f.flags) {
        var c1 := c.(assembly := NO_ASSEMBLY);
        var c2 := c1.(dec := DecodeBlock(c.huffman, c.dec, a.bytes, false).st);
        BlockLogged(c0, f, c, c2);
        PlainMove(c, c1);
        PlainMove(c, c2);
        FinishInv(c1, a);
      } else {
        BlockLogged(c0, f, c, c.(assembly := a));
        PlainMove(c, c.(assembly := a));
      }
    }
  }

  /** c is about to finish block a: with the decoder moved past it, everything holds. */
  lemma FinishInv(c: Conn, a: Assembly)
    requires Core(c) && !c.state.Dead? && 0 < a.id <= MAX_ID
    requires var c1 := c.(dec := DecodeBlock(c.huffman, c.dec, a.bytes, false).st); Core(c1) && Flow(c1) && Quiet(c1)
    ensures Inv(FinishBlock(c, a))
  {
    hide Core, Flow, Quiet, ConnError, FinishRequestBlock, FinishResponseBlock, DecodeBlock;
    var decoded := DecodeBlock(c.huffman, c.dec, a.bytes, false);
    var c1 := c.(dec := decoded.st);
    ConnErrorInv(c1, COMPRESSION_ERROR);
    var tooMany := |decoded.fields| > MAX_HEADERS;
    var fields := if tooMany then decoded.fields[..MAX_HEADERS] else decoded.fields;
    if c.server {
      RequestBlockInv(c1, a, fields, tooMany);
    } else {
      ResponseBlockInv(c1, a, fields, tooMany);
    }
  }

  // ---- requests ----

  lemma RaiseLast(c: Conn, id: nat)
    requires Core(c) && Flow(c) && Quiet(c) && c.server && id > c.lastId && id <= MAX_ID
    ensures var c1 := c.(lastId := id); Core(c1) && Flow(c1) && Quiet(c1)
  {
    var c1 := c.(lastId := id);
    var e := In(Frame(0, 0, 0, []));
    SendsFrame(c, c1, e);
    RequestsFrame(c, c1, e);
    ResponsesFrame(c, c1, e);
    GoawaysFrame(c, c1, e);
    FlowFrame(c, c1, Opened(0, []), -1);
    QuietFrame(c, c1);
  }

  lemma RequestBlockInv(c: Conn, a: Assembly, fields: seq<Field>, tooMany: bool)
    requires Core(c) && Flow(c) && Quiet(c) && c.server && !c.state.Dead? && 0 < a.id <= MAX_ID
    ensures Inv(FinishRequestBlock(c, a, fields, tooMany))
  {
    hide Core, Flow, FlowExcept, Quiet, ConnError, StreamError, OpenStream, CompleteRequest, WellFormed;
    FlowButOne(c, a.id);
    if a.id !in c.streams {
      ConnErrorInv(c, PROTOCOL_ERROR);
      ConnErrorInv(c, STREAM_CLOSED);
      if a.id % 2 == 1 && a.id > c.lastId {
        var c1 := c.(lastId := a.id);
        RaiseLast(c, a.id);
        FlowButOne(c1, a.id);
        StreamErrorInv(c1, a.id, REFUSED_STREAM);
        StreamErrorInv(c1, a.id, PROTOCOL_ERROR);
        if c.state.Active? && |c.openIds| < MAX_STREAMS {
          OpenInv(c, a.id, a.end, fields);
        }
      }
    } else {
      StreamErrorInv(c, a.id, PROTOCOL_ERROR);
      StreamErrorInv(c, a.id, STREAM_CLOSED);
      var s := c.streams[a.id];
      if CanReceive(s.state) {
        TrailerCompletes(c, a.id);
      }
    }
  }

  // ---- a stream opens ----

  function NewStream(c: Conn, end: bool, fields: seq<Field>): Stream {
    var length := DeclaredLength(fields);
    Stream(AfterHeadersReceived(Idle, end), c.peer.window, LOCAL_WINDOW, [], 0, false,
           IsHeadRequest(fields), length.Some?, if length.Some? then length.value else 0, 0, [], false, 0)
  }

  function Born(c: Conn, id: nat, end: bool, fields: seq<Field>): Conn {
    Log(c.(lastId := id, streams := c.streams[id := NewStream(c, end, fields)], openIds := c.openIds + [id], acceptedId := id),
        Opened(id, fields))
  }

  lemma BornTable(c: Conn, id: nat, end: bool, fields: seq<Field>)
    requires Table(c) && Ids(c) && c.server && IdleOdd(c, id) && id <= MAX_ID && |c.openIds| < MAX_STREAMS
    ensures Table(Born(c, id, end, fields)) && Ids(Born(c, id, end, fields))
  {
    assert forall j | j in c.streams :: j <= c.lastId;
    assert id !in c.openIds;
  }

  lemma BornRequests(c: Conn, id: nat, end: bool, fields: seq<Field>)
    requires Table(c) && Requests(c) && c.server && IdleOdd(c, id)
    ensures Requests(Born(c, id, end, fields))
  {
    var c' := Born(c, id, end, fields);
    forall j | j in c'.streams ensures RequestFits(c', j, c'.streams[j]) {
      if j != id {
        assert RequestFits(c, j, c.streams[j]);
      }
    }
  }

  lemma BornCore(c: Conn, id: nat, end: bool, fields: seq<Field>)
    requires Core(c) && c.server && c.state.Active? && IdleOdd(c, id) && id <= MAX_ID && |c.openIds| < MAX_STREAMS
    ensures Core(Born(c, id, end, fields))
  {
    var c' := Born(c, id, end, fields);
    BornTable(c, id, end, fields);
    BornRequests(c, id, end, fields);
    forall j: nat ensures ProgressOf(c'.log, j) == Waiting {
      assert ProgressOf(c.log, j) == Waiting;
    }
    hide Table, Requests, Sends, Goaways;
    SendsOpen(c, c', id, Opened(id, fields));
    GoawaysOpen(c, c', id, fields);
  }

  lemma BornFlow(c: Conn, id: nat, end: bool, fields: seq<Field>)
    requires Flow(c) && c.server && IdleOdd(c, id)
    ensures Flow(Born(c, id, end, fields))
  {
    var c' := Born(c, id, end, fields);
    UntouchedFrame(c, c', Opened(id, fields));
    assert FlowFits(c', id, c'.streams[id]);
    forall j | j in c'.streams && j != id ensures FlowFits(c', j, c'.streams[j]) {
      assert FlowFits(c, j, c.streams[j]);
    }
  }

  lemma BornQuiet(c: Conn, id: nat, end: bool, fields: seq<Field>)
    requires Quiet(c)
    ensures Quiet(Born(c, id, end, fields))
  {
  }

  lemma OpenInv(c: Conn, id: nat, end: bool, fields: seq<Field>)
    requires Core(c) && Flow(c) && Quiet(c) && c.server && c.state.Active?
    requires IdleOdd(c, id) && id <= MAX_ID && |c.openIds| < MAX_STREAMS
    ensures Inv(OpenStream(c.(lastId := id), id, end, fields))
  {
    hide Core, Flow, FlowExcept, Quiet, CompleteRequest, Finished, SendFits;
    var c1 := Born(c, id, end, fields);
    BornCore(c, id, end, fields);
    BornFlow(c, id, end, fields);
    BornQuiet(c, id, end, fields);
    if end {
      BornFinished(c, id, fields);
      FlowButOne(c1, id);
      CompleteRequestInv(c1, id, NewStream(c, end, fields));
    }
  }

  lemma BornFinished(c: Conn, id: nat, fields: seq<Field>)
    requires Flow(c) && c.server && IdleOdd(c, id)
    ensures var c1 := Born(c, id, true, fields); Finished(c1, id, c1.streams[id]) && SendFits(c1, id, c1.streams[id])
  {
  }

  // ---- a request ends ----

  /** s is the stream once its last frame is in: nothing but the receiving side has moved. */
  ghost predicate Finished(c: Conn, id: nat, s: Stream) {
    && id in c.streams
    && var was := c.streams[id];
    && s == was.(state := s.state, recvWindow := s.recvWindow, received := s.received, content := s.content)
    && !CanReceive(s.state) && CanSend(s.state) == CanSend(was.state) && (s.state.HalfClosedRemote? || s.state.Closed?)
    && !s.complete
    && s.received == |s.content| <= c.maxBody && s.content == Content(c.log, id)
  }

  ghost predicate SendFits(c: Conn, id: nat, s: Stream) {
    && s.sendWindow == c.peer.window + Granted(c.log, id) - Sent(c.log, id) <= MAX_WINDOW
    && Granted(c.log, id) - Sent(c.log, id) >= -MAX_WINDOW
  }

  lemma CompleteCore(c: Conn, id: nat, s: Stream)
    requires Core(c) && c.server && Finished(c, id, s) && (s.hasLength ==> s.received == s.length)
    ensures Core(Log(SetStream(c, id, s.(complete := true)), Request(id, s.content)))
  {
    var e := Request(id, s.content);
    var c' := Log(SetStream(c, id, s.(complete := true)), e);
    assert Table(c') && (forall j {:trigger c'.streams[j]} | j in c'.streams :: j in c.streams && SendsAlike(c.streams[j], c'.streams[j]))
    by { CompleteTable(c, id, s, c'); }
    hide Table, Sends, Requests, Responses, Goaways, Finished;
    CompleteRequests(c, id, s, c');
    SendsFrame(c, c', e);
    ResponsesFrame(c, c', e);
    GoawaysFrame(c, c', e);
  }

  lemma CompleteTable(c: Conn, id: nat, s: Stream, c': Conn)
    requires Table(c) && Finished(c, id, s) && c' == Log(SetStream(c, id, s.(complete := true)), Request(id, s.content))
    ensures Table(c')
    ensures forall j {:trigger c'.streams[j]} | j in c'.streams :: j in c.streams && SendsAlike(c.streams[j], c'.streams[j])
  {
    assert Shape(c.streams[id]);
  }

  lemma CompleteRequests(c: Conn, id: nat, s: Stream, c': Conn)
    requires Table(c) && Requests(c) && c.server && Finished(c, id, s) && (s.hasLength ==> s.received == s.length)
    requires c' == Log(SetStream(c, id, s.(complete := true)), Request(id, s.content))
    ensures Requests(c')
  {
    assert RequestFits(c, id, c.streams[id]);
    forall j | j in c'.streams ensures RequestFits(c', j, c'.streams[j]) {
      assert RequestFits(c, j, c.streams[j]);
    }
  }

  lemma CompleteRequestInv(c: Conn, id: nat, s: Stream)
    requires Core(c) && c.server && !c.state.Dead? && FlowExcept(c, id) && Quiet(c)
    requires Finished(c, id, s) && SendFits(c, id, s)
    ensures Inv(CompleteRequest(c, id, s))
  {
    hide Core, FlowExcept, Quiet, StreamError, Finished, SendFits;
    StreamErrorInv(c, id, PROTOCOL_ERROR);
    if !(s.hasLength && s.received != s.length) {
      CompleteCore(c, id, s);
      CompleteFlow(c, id, s);
    }
  }

  lemma CompleteFlow(c: Conn, id: nat, s: Stream)
    requires c.server && FlowExcept(c, id) && Quiet(c) && Finished(c, id, s) && SendFits(c, id, s)
    ensures var c' := Log(SetStream(c, id, s.(complete := true)), Request(id, s.content)); Flow(c') && Quiet(c')
  {
    var c' := Log(SetStream(c, id, s.(complete := true)), Request(id, s.content));
    QuietFrame(c, c');
    FlowFrame(c, c', Request(id, s.content), id);
    assert FlowFits(c', id, c'.streams[id]);
  }

  lemma TrailerCompletes(c: Conn, id: nat)
    requires Core(c) && Flow(c) && Quiet(c) && c.server && !c.state.Dead? && id in c.streams && CanReceive(c.streams[id].state)
    ensures var s := c.streams[id]; Inv(CompleteRequest(c, id, s.(state := AfterHeadersReceived(s.state, true))))
  {
    var s := c.streams[id];
    var s1 := s.(state := AfterHeadersReceived(s.state, true));
    assert FlowFits(c, id, s);
    assert RequestFits(c, id, s);
    FlowButOne(c, id);
    assert Finished(c, id, s1) && SendFits(c, id, s1);
    hide Core, Flow, FlowExcept, Quiet, CompleteRequest, Finished, SendFits;
    CompleteRequestInv(c, id, s1);
  }

  // ---- responses ----

  lemma ResponseBlockInv(c: Conn, a: Assembly, fields: seq<Field>, tooMany: bool)
    requires Core(c) && Flow(c) && Quiet(c) && !c.server && !c.state.Dead?
    ensures Inv(FinishResponseBlock(c, a, fields, tooMany))
  {
    hide Core, Flow, FlowExcept, Quiet, ConnError, StreamError, ResponseHead, ResponseTrailer;
    FlowButOne(c, a.id);
    ConnErrorInv(c, PROTOCOL_ERROR);
    StreamErrorInv(c, a.id, STREAM_CLOSED);
    StreamErrorInv(c, a.id, PROTOCOL_ERROR);
    if a.id in c.streams && CanReceive(c.streams[a.id].state) {
      if c.streams[a.id].status != 0 {
        TrailerInv(c, a, fields);
      } else {
        HeadInv(c, a, fields);
      }
    }
  }

  /** Sending side and identity of a stream are as before. */
  ghost predicate SameSending(s: Stream, s': Stream) {
    && s' == s.(state := s'.state, recvWindow := s'.recvWindow, received := s'.received, content := s'.content,
                hasLength := s'.hasLength, length := s'.length, status := s'.status)
    && CanSend(s'.state) == CanSend(s.state) && (CanSend(s'.state) || s'.state.HalfClosedLocal? || s'.state.Closed?)
  }

  /** An event on a client stream that stays in the table, with the stream as the event leaves it. */
  lemma EventCore(c: Conn, s': Stream, r: Response, c': Conn)
    requires Core(c) && !c.server && r.id in c.streams && SameSending(c.streams[r.id], s')
    requires ResponseFits(s', OnEvent(ProgressOf(c.log, r.id), r, HeadOf(c.log, r.id)), HeadOf(c.log, r.id))
    requires c' == Log(SetStream(c, r.id, s'), Event(r))
    ensures Core(c')
  {
    var e := Event(r);
    assert Shape(c.streams[r.id]);
    assert Table(c');
    hide Sends, Requests, Responses, Goaways, Table;
    SendsFrame(c, c', e);
    RequestsFrame(c, c', e);
    ResponsesEvent(c, c', r);
    GoawaysFrame(c, c', e);
  }

  lemma EventFlow(c: Conn, s': Stream, r: Response, c': Conn)
    requires FlowExcept(c, r.id) && Quiet(c) && r.id in c.streams && SameSending(c.streams[r.id], s')
    requires c' == Log(SetStream(c, r.id, s'), Event(r))
    ensures FlowExcept(c', r.id) && Quiet(c')
  {
    FlowFrame(c, c', Event(r), r.id);
    QuietFrame(c, c');
  }

  lemma TrailerFits(c: Conn, id: nat, s1: Stream, r: Response)
    requires Responses(c) && Flow(c) && !c.server && id in c.streams && c.streams[id].status != 0
    requires r.kind.TrailersEvent? && r.id == id && r.end && s1 == c.streams[id].(state := s1.state)
    ensures ResponseFits(s1, OnEvent(ProgressOf(c.log, id), r, HeadOf(c.log, id)), HeadOf(c.log, id))
    ensures c.streams[id].status >= 200
  {
    assert ResponseOk(c, id);
    assert FlowFits(c, id, c.streams[id]);
  }

  lemma TrailerInv(c: Conn, a: Assembly, fields: seq<Field>)
    requires Core(c) && Flow(c) && Quiet(c) && !c.server && !c.state.Dead?
    requires a.id in c.streams && CanReceive(c.streams[a.id].state) && c.streams[a.id].status != 0
    ensures Inv(ResponseTrailer(c, a, fields))
  {
    hide Core, Flow, FlowExcept, Quiet, Responses, ResponseFits, StreamError, CompleteResponse, WellFormed, DeclaredLength;
    FlowButOne(c, a.id);
    StreamErrorInv(c, a.id, PROTOCOL_ERROR);
    var s := c.streams[a.id];
    var s1 := s.(state := AfterHeadersReceived(s.state, true));
    var c1 := Notify(SetStream(c, a.id, s1), TrailersEvent, a.id, NO_ERROR, fields, [], true);
    var r := c1.log.last.response;
    CoreIsResponses(c);
    TrailerFits(c, a.id, s1, r);
    EventCore(c, s1, r, c1);
    EventFlow(c, s1, r, c1);
    CompleteResponseInv(c1, a.id, s1);
  }

  // ---- a response ends ----

  lemma CompleteResponseInv(c: Conn, id: nat, s: Stream)
    requires Core(c) && !c.server && !c.state.Dead? && FlowExcept(c, id) && Quiet(c)
    requires id in c.streams && c.streams[id].status >= 200
    requires var was := c.streams[id]; s.hasLength == was.hasLength && s.length == was.length && s.received == was.received
    ensures Inv(CompleteResponse(c, id, s))
  {
    hide Core, Flow, FlowExcept, Quiet, StreamError;
    StreamErrorInv(c, id, PROTOCOL_ERROR);
    if !(s.hasLength && s.length != s.received) {
      var f := RstFrame(id, NO_ERROR);
      var m := if s.state.Closed? then c else Emit(c, f);
      var n := Notify(m, CompleteEvent, id, NO_ERROR, [], [], true);
      var c' := CloseStream(n, id);
      CompleteResponseCore(c, id, m, c');
      CompleteResponseFlow(c, id, m, c');
    }
  }

  lemma CompleteResponseCore(c: Conn, id: nat, m: Conn, c': Conn)
    requires Core(c) && !c.server && id in c.streams && c.streams[id].status >= 200
    requires c.streams[id].hasLength ==> c.streams[id].length == c.streams[id].received
    requires m == c || m == Emit(c, RstFrame(id, NO_ERROR))
    requires c' == CloseStream(Notify(m, CompleteEvent, id, NO_ERROR, [], [], true), id)
    ensures Core(c')
  {
    var e := Notify(m, CompleteEvent, id, NO_ERROR, [], [], true).log.last;
    var d := CloseStream(m, id);
    assert id <= c.lastId;
    CloseEither(c, id, m);
    hide Table, Sends, Requests, Goaways, Responses;
    ResponsesFrame(c, m, Out(RstFrame(id, NO_ERROR)));
    ResponsesEnd(m, c', e.response);
    TableOnly(d, c');
    SendsFrame(d, c', e);
    RequestsFrame(d, c', e);
    GoawaysFrame(d, c', e);
  }

  lemma CloseEither(c: Conn, id: nat, m: Conn)
    requires Core(c) && !c.server && id in c.streams && id <= c.lastId
    requires m == c || m == Emit(c, RstFrame(id, NO_ERROR))
    ensures var d := CloseStream(m, id); Table(d) && Ids(d) && Sends(d) && Requests(d) && Goaways(d)
  {
    var d := CloseStream(m, id);
    if m == c {
      var e := In(Frame(0, 0, 0, []));
      TableClose(c, id);
      hide Table, Sends, Requests, Goaways;
      SendsFrame(c, d, e);
      RequestsFrame(c, d, e);
      GoawaysFrame(c, d, e);
    } else {
      assert d == Dropped(c, id, NO_ERROR);
      DroppedCommon(c, id, NO_ERROR);
    }
  }

  lemma CompleteResponseFlow(c: Conn, id: nat, m: Conn, c': Conn)
    requires FlowExcept(c, id) && Quiet(c)
    requires m == c || m == Emit(c, RstFrame(id, NO_ERROR))
    requires c' == CloseStream(Notify(m, CompleteEvent, id, NO_ERROR, [], [], true), id)
    ensures Flow(c') && Quiet(c')
  {
    hide FlowExcept, Quiet, SwapRemove;
    FlowFrame(c, m, Out(RstFrame(id, NO_ERROR)), id);
    FlowFrame(m, c', c'.log.last, id);
    FlowWithout(c', id);
    QuietFrame(c, c');
  }

  // ---- response headers ----

  lemma HeadFits(c: Conn, id: nat, fields: seq<Field>, r: Response)
    requires Responses(c) && !c.server && id in c.streams && c.streams[id].status == 0 && StatusOf(fields) >= 200
    requires r.kind.HeadersEvent? && r.id == id && r.status == StatusOf(fields) && r.fields == fields
    ensures ResponseFits(HeadStream(c.streams[id], fields), OnEvent(ProgressOf(c.log, id), r, HeadOf(c.log, id)), HeadOf(c.log, id))
  {
    assert ResponseOk(c, id);
  }

  lemma CoreIsResponses(c: Conn)
    requires Core(c)
    ensures Responses(c)
  {
  }

  lemma FinalHeadInv(c: Conn, a: Assembly, fields: seq<Field>)
    requires Core(c) && Flow(c) && Quiet(c) && !c.server && !c.state.Dead?
    requires a.id in c.streams && CanReceive(c.streams[a.id].state) && c.streams[a.id].status == 0
    requires HeadOk(a, fields) && StatusOf(fields) >= 200
    ensures Inv(ResponseHead(c, a, fields))
  {
    hide Core, Flow, FlowExcept, Quiet, Responses, StreamError, CompleteResponse, HeadOk, DeclaredLength, StatusOf, ResponseFits;
    var s := HeadStream(c.streams[a.id], fields);
    var c1 := Notify(SetStream(c, a.id, s), HeadersEvent, a.id, NO_ERROR, fields, [], a.end);
    var r := c1.log.last.response;
    FlowButOne(c, a.id);
    CoreIsResponses(c);
    HeadFits(c, a.id, fields, r);
    EventCore(c, s, r, c1);
    EventFlow(c, s, r, c1);
    if a.end {
      CompleteResponseInv(c1, a.id, s.(state := AfterHeadersReceived(s.state, true)));
    } else {
      EventSettles(c, s, r, c1);
    }
  }

  lemma HeadInv(c: Conn, a: Assembly, fields: seq<Field>)
    requires Core(c) && Flow(c) && Quiet(c) && !c.server && !c.state.Dead?
    requires a.id in c.streams && CanReceive(c.streams[a.id].state) && c.streams[a.id].status == 0
    ensures Inv(ResponseHead(c, a, fields))
  {
    hide Core, Flow, FlowExcept, Quiet, StreamError, CompleteResponse, DeclaredLength, StatusOf, WellFormed;
    if !HeadOk(a, fields) {
      FlowButOne(c, a.id);
      StreamErrorInv(c, a.id, PROTOCOL_ERROR);
    } else if StatusOf(fields) >= 200 {
      FinalHeadInv(c, a, fields);
    } else {
      StatusInRange(fields);
      var s := HeadStream(c.streams[a.id], fields);
      var c1 := Notify(SetStream(c, a.id, s), HeadersEvent, a.id, NO_ERROR, fields, [], a.end);
      InformationalInv(c, a.id, s.(status := 0), c1.log.last.response);
      assert SetStream(c1, a.id, s.(status := 0)).streams == c.streams[a.id := s.(status := 0)];
    }
  }

  lemma StatusInRange(fields: seq<Field>)
    requires WellFormed(fields, ResponseSection)
    ensures 100 <= StatusOf(fields) <= 599
  {
    var n := |fields|;
    assert fields[..n] == fields;
    ValueOfIsSome(fields, n, Ascii(":status"));
    var i :| 0 <= i < n && fields[i].name == Ascii(":status") && fields[i].value == ValueOf(fields, Ascii(":status")).value;
    assert FieldOk(fields[i], ResponseSection);
    assert Ascii(":status")[0] == 58;
  }

  lemma InformationalInv(c: Conn, id: nat, s: Stream, r: Response)
    requires Core(c) && Flow(c) && Quiet(c) && !c.server && r.id == id && id in c.streams
    requires r.kind.HeadersEvent? && 100 <= r.status < 200 && !r.end
    requires c.streams[id].status == 0 && s == c.streams[id].(hasLength := false, length := s.length)
    ensures Inv(Log(SetStream(c, id, s), Event(r)))
  {
    var c' := Log(SetStream(c, id, s), Event(r));
    assert ResponseOk(c, id);
    EventCore(c, s, r, c');
    FlowButOne(c, id);
    EventSettles(c, s, r, c');
  }

  /** The stream stays, still receiving. */
  lemma EventSettles(c: Conn, s: Stream, r: Response, c': Conn)
    requires Flow(c) && Quiet(c) && !c.server && r.id in c.streams && !r.kind.TrailersEvent?
    requires s == c.streams[r.id].(status := s.status, hasLength := s.hasLength, length := s.length)
    requires c' == Log(SetStream(c, r.id, s), Event(r))
    ensures Flow(c') && Quiet(c')
  {
    var id := r.id;
    assert FlowFits(c, id, c.streams[id]);
    FlowButOne(c, id);
    EventFlow(c, s, r, c');
    assert FlowFits(c', id, c'.streams[id]);
  }
}
