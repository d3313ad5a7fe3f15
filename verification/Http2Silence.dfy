/** Header blocks as the peer assembles them, and the many steps of a connection that add none. */
module Http2Silence {
  import opened Bytes
  import opened HpackSpec
  import opened Http2Frames
  import opened Http2Fields
  import opened Http2Spec
  import opened Http2Trace
  import opened Http2Errors

  datatype HeaderBlock = HeaderBlock(id: nat, block: seq<byte>)

  /** Header blocks as sections 4.3 and 6.10 of RFC 9113 have them assembled; ok until the rules are broken. */
  datatype Inbox = Inbox(ok: bool, open: nat, partial: seq<byte>, blocks: seq<HeaderBlock>)

  const EMPTY_INBOX: Inbox := Inbox(true, 0, [], [])

  function OnFrame(b: Inbox, f: Frame): Inbox {
    if !b.ok then b
    else if b.open != 0 then
      if f.kind != CONTINUATION || f.id != b.open then b.(ok := false)
      else if Bit2(f.flags) then Inbox(true, 0, [], b.blocks + [HeaderBlock(f.id, b.partial + f.payload)])
      else b.(partial := b.partial + f.payload)
    else if f.kind == CONTINUATION then b.(ok := false)
    else if f.kind == HEADERS then
      match FragmentOf(f)
      case BadFragment(_) => b.(ok := false)
      case Fragment(bytes, _) =>
        if f.id == 0 then b.(ok := false)
        else if Bit2(f.flags) then b.(blocks := b.blocks + [HeaderBlock(f.id, bytes)])
        else Inbox(true, f.id, bytes, b.blocks)
    else b
  }

  function InboxOf(t: Trace): Inbox {
    match t
    case Empty => EMPTY_INBOX
    case Then(before, e) => if e.Out? then OnFrame(InboxOf(before), e.frame.(id := e.frame.id % TWO31)) else InboxOf(before)
  }

  /** A message that was started, and the table size the peer had then announced. */
  datatype Start = Start(id: nat, fields: seq<Field>, block: seq<byte>, limit: nat)

  function Starts(t: Trace): seq<Start> {
    match t
    case Empty => []
    case Then(before, e) =>
      if e.Begin? then Starts(before) + [Start(e.id, e.fields, e.block, PeerSetting(before, 1, TABLE_BYTES))] else Starts(before)
  }

  /** No header block and no setting between t and t'. */
  ghost predicate Silent(t: Trace, t': Trace) {
    && PeerSetting(t', 1, TABLE_BYTES) == PeerSetting(t, 1, TABLE_BYTES)
    && Starts(t') == Starts(t)
    && (InboxOf(t).open == 0 ==> InboxOf(t') == InboxOf(t))
  }

  ghost predicate Hushed(c: Conn, c': Conn) {
    && c'.huffman == c.huffman && c'.enc == c.enc && (c.state.Dead? ==> c'.state.Dead?)
    && Silent(c.log, c'.log)
  }

  // ---- what says nothing ----

  lemma LogHushed(t: Trace, e: Entry)
    requires !e.Begin? && (e.In? ==> e.frame.kind != SETTINGS)
    requires e.Out? ==> e.frame.kind != HEADERS && e.frame.kind != CONTINUATION
    ensures Silent(t, Then(t, e))
  {
    hide LastIn;
  }

  lemma ArrivedHushed(c: Conn, f: Frame)
    requires f.kind != SETTINGS
    ensures Hushed(c, Log(c, In(f)))
  {
    hide PeerSetting, Starts, InboxOf, Silent;
    LogHushed(c.log, In(f));
  }

  lemma EmitHushed(c: Conn, f: Frame)
    requires f.kind != HEADERS && f.kind != CONTINUATION
    ensures Hushed(c, Emit(c, f))
  {
    hide PeerSetting, Starts, InboxOf;
    LogHushed(c.log, Out(f));
  }

  lemma DropHushed(c: Conn, id: nat, error: nat)
    ensures Hushed(c, CloseStream(Notify(c, ResetEvent, id, error, [], [], false), id))
  {
    hide PeerSetting, Starts, InboxOf, SwapRemove, Silent;
    LogHushed(c.log, Notify(c, ResetEvent, id, error, [], [], false).log.last);
  }

  lemma {:induction false} ResetAllHushed(c: Conn, error: nat)
    ensures Hushed(c, ResetAll(c, error))
    decreases |c.openIds|
  {
    hide PeerSetting, Starts, InboxOf, SwapRemove;
    if !c.server && c.openIds != [] {
      var id := c.openIds[|c.openIds| - 1];
      var c1 := CloseStream(Notify(c, ResetEvent, id, error, [], [], false), id);
      DropHushed(c, id, error);
      ResetAllHushed(c1, error);
    }
  }

  lemma {:induction false} ResetAboveHushed(c: Conn, ids: seq<nat>, cutoff: nat)
    ensures Hushed(c, ResetAbove(c, ids, cutoff))
    decreases |ids|
  {
    hide PeerSetting, Starts, InboxOf, CloseStream, Notify;
    if ids != [] {
      if ids[0] <= cutoff {
        ResetAboveHushed(c, ids[1..], cutoff);
      } else {
        var c1 := CloseStream(Notify(c, ResetEvent, ids[0], NO_ERROR, [], [], false), ids[0]);
        DropHushed(c, ids[0], NO_ERROR);
        ResetAboveHushed(c1, ids[1..], cutoff);
      }
    }
  }

  lemma SayHushed(c: Conn, code: nat, debug: seq<byte>)
    ensures Hushed(c, SayGoaway(c, code, debug))
  {
    hide PeerSetting, Starts, InboxOf, Emit;
    var c1 := c.(goawayOut := NextCutoff(c), earlyGoaway := c.earlyGoaway || c.state.PrefacePending?);
    EmitHushed(c1, GoawayFrame(NextCutoff(c), code, debug));
  }

  lemma ConnErrorHushed(c: Conn, code: nat)
    ensures Hushed(c, ConnError(c, code)) && ConnError(c, code).state.Dead?
  {
    hide PeerSetting, Starts, InboxOf, SayGoaway, ResetAll;
    ErrorKills(c, code);
    if !c.state.Dead? {
      var c1 := SayGoaway(c, code, []);
      var c2 := c1.(error := code, state := Dead);
      SayHushed(c, code, []);
      ResetAllHushed(c2, code);
    }
  }

  lemma StreamErrorHushed(c: Conn, id: nat, code: nat)
    ensures Hushed(c, StreamError(c, id, code))
  {
    hide PeerSetting, Starts, InboxOf, ConnError, Emit, CloseStream, Notify, RecentlyClosed;
    ConnErrorHushed(c, ENHANCE_YOUR_CALM);
    var c0 := c.(idleResets := if IdleOdd(c, id) then c.idleResets + {id} else c.idleResets);
    var c1 := Emit(c0, RstFrame(id, code));
    EmitHushed(c0, RstFrame(id, code));
    CloseHushed(c1, id);
    DropHushed(c1, id, code);
  }

  lemma CloseHushed(c: Conn, id: nat)
    ensures Hushed(c, CloseStream(c, id))
  {
    hide PeerSetting, Starts, InboxOf, SwapRemove;
  }

  // ---- sending DATA ----

  lemma PumpStreamHushed(c: Conn, id: nat)
    ensures Hushed(c, PumpStream(c, id).c)
  {
    hide PeerSetting, Starts, InboxOf, CloseStream;
    if PumpStream(c, id).progress {
      var s := c.streams[id];
      var n := Quantum(c, s);
      var last := n == |s.body| - s.sendOff;
      var f := Frame(DATA, if last then 1 else 0, id, s.body[s.sendOff..s.sendOff + n]);
      var s1 := s.(sendOff := s.sendOff + n, sendWindow := s.sendWindow - n);
      var s2 := if last then s1.(sendPending := false, state := AfterDataSent(s.state, true)) else s1;
      var c2 := SetStream(Emit(c, f).(sendWindow := c.sendWindow - n), id, s2);
      EmitHushed(c, f);
      CloseHushed(c2, id);
    }
  }

  lemma {:induction false} PumpPassHushed(c: Conn, ids: seq<nat>)
    ensures Hushed(c, PumpPass(c, ids).c)
    decreases |ids|
  {
    hide PeerSetting, Starts, InboxOf, PumpStream;
    if ids != [] {
      var c1 := PumpStream(c, ids[0]).c;
      PumpStreamHushed(c, ids[0]);
      PumpPassHushed(c1, ids[1..]);
    }
  }

  lemma {:induction false} PumpDataHushed(c: Conn, passes: nat)
    ensures Hushed(c, PumpData(c, passes))
    decreases passes
  {
    hide PeerSetting, Starts, InboxOf, PumpPass;
    if passes > 0 && c.sendWindow > 0 {
      var c1 := PumpPass(c, c.openIds).c;
      PumpPassHushed(c, c.openIds);
      if PumpPass(c, c.openIds).progress {
        PumpDataHushed(c1, passes - 1);
      }
    }
  }

  lemma PumpHushed(c: Conn, c1: Conn)
    requires Hushed(c, c1)
    ensures Hushed(c, Pump(c1))
  {
    hide PeerSetting, Starts, InboxOf, PumpData;
    PumpDataHushed(c1, MAX_PASSES);
  }

  // ---- frames that arrive ----

  lemma SmallHushed(c: Conn, f: Frame)
    ensures Hushed(c, HandlePing(c, f)) && Hushed(c, HandlePriority(c, f)) && Hushed(c, HandleRst(c, f))
  {
    hide PeerSetting, Starts, InboxOf, ConnError, StreamError, CloseStream, Notify, Emit;
    ConnErrorHushed(c, PROTOCOL_ERROR);
    ConnErrorHushed(c, FRAME_SIZE_ERROR);
    ConnErrorHushed(c, ENHANCE_YOUR_CALM);
    EmitHushed(c, Frame(PING, 1, 0, f.payload));
    StreamErrorHushed(c, f.id, FRAME_SIZE_ERROR);
    StreamErrorHushed(c, f.id, PROTOCOL_ERROR);
    CloseHushed(c, f.id);
    if |f.payload| == 4 {
      DropHushed(c, f.id, GetU32(f.payload));
    }
  }

  lemma GoawayHushed(c: Conn, f: Frame)
    ensures Hushed(c, HandleGoaway(c, f))
  {
    hide PeerSetting, Starts, InboxOf, ConnError, ResetAll, ResetAbove;
    ConnErrorHushed(c, PROTOCOL_ERROR);
    ConnErrorHushed(c, FRAME_SIZE_ERROR);
    if f.id == 0 && |f.payload| >= 8 {
      var c1 := if c.state.Active? then c.(state := GoawayReceived) else c;
      var cutoff := Min(c1.goawayIn, Low31(f.payload));
      var c2 := c1.(goawayIn := cutoff);
      ResetAllHushed(c1, GetU32(f.payload[4..8]));
      ResetAboveHushed(c2, c1.openIds, cutoff);
    }
  }

  lemma WindowHushed(c: Conn, f: Frame)
    ensures Hushed(c, HandleWindowUpdate(c, f))
  {
    hide PeerSetting, Starts, InboxOf, ConnError, StreamError, Pump;
    ConnErrorHushed(c, PROTOCOL_ERROR);
    ConnErrorHushed(c, FRAME_SIZE_ERROR);
    ConnErrorHushed(c, FLOW_CONTROL_ERROR);
    StreamErrorHushed(c, f.id, PROTOCOL_ERROR);
    StreamErrorHushed(c, f.id, FLOW_CONTROL_ERROR);
    if |f.payload| == 4 {
      var inc := Low31(f.payload);
      var c1 := c.(sendWindow := c.sendWindow + inc);
      PumpHushed(c, c1);
      if f.id in c.streams {
        var c2 := SetStream(c, f.id, c.streams[f.id].(sendWindow := c.streams[f.id].sendWindow + inc));
        PumpHushed(c, c2);
      }
    }
  }

  lemma ToldHushed(c: Conn, id: nat, s: Stream, e: Entry)
    requires e.Event? || e.Request? || e.Opened?
    ensures Hushed(c, Log(SetStream(c, id, s), e))
  {
    hide PeerSetting, Starts, InboxOf, Silent;
    LogHushed(c.log, e);
  }

  lemma CompleteHushed(c: Conn, id: nat, s: Stream)
    ensures Hushed(c, CompleteRequest(c, id, s)) && Hushed(c, CompleteResponse(c, id, s))
  {
    hide PeerSetting, Starts, InboxOf, StreamError, Emit, CloseStream;
    StreamErrorHushed(c, id, PROTOCOL_ERROR);
    ToldHushed(c, id, s.(complete := true), Request(id, s.content));
    EmitHushed(c, RstFrame(id, NO_ERROR));
    var c1 := if s.state.Closed? then c else Emit(c, RstFrame(id, NO_ERROR));
    var c2 := Notify(c1, CompleteEvent, id, NO_ERROR, [], [], true);
    EventHushed(c1, c2.log.last);
    CloseHushed(c2, id);
  }

  lemma EventHushed(c: Conn, e: Entry)
    requires e.Event?
    ensures Hushed(c, Log(c, e))
  {
    hide PeerSetting, Starts, InboxOf, Silent;
    LogHushed(c.log, e);
  }

  lemma OpenHushed(c: Conn, id: nat, end: bool, fields: seq<Field>)
    ensures Hushed(c, OpenStream(c, id, end, fields))
  {
    hide PeerSetting, Starts, InboxOf, CompleteRequest, DeclaredLength, IsHeadRequest;
    var length := DeclaredLength(fields);
    var s := Stream(AfterHeadersReceived(Idle, end), c.peer.window, LOCAL_WINDOW, [], 0, false,
                    IsHeadRequest(fields), length.Some?, if length.Some? then length.value else 0, 0, [], false, 0);
    var c0 := c.(openIds := c.openIds + [id], acceptedId := id);
    var c1 := Log(SetStream(c0, id, s), Opened(id, fields));
    ToldHushed(c0, id, s, Opened(id, fields));
    CompleteHushed(c1, id, s);
  }

  lemma RequestBlockHushed(c: Conn, a: Assembly, fields: seq<Field>, tooMany: bool)
    ensures Hushed(c, FinishRequestBlock(c, a, fields, tooMany))
  {
    hide PeerSetting, Starts, InboxOf, ConnError, StreamError, OpenStream, CompleteRequest, WellFormed, RecentlyClosed;
    ConnErrorHushed(c, PROTOCOL_ERROR);
    ConnErrorHushed(c, STREAM_CLOSED);
    StreamErrorHushed(c, a.id, PROTOCOL_ERROR);
    StreamErrorHushed(c, a.id, STREAM_CLOSED);
    var c1 := c.(lastId := a.id);
    StreamErrorHushed(c1, a.id, REFUSED_STREAM);
    StreamErrorHushed(c1, a.id, PROTOCOL_ERROR);
    OpenHushed(c1, a.id, a.end, fields);
    if a.id in c.streams {
      var s := c.streams[a.id];
      CompleteHushed(c, a.id, s.(state := AfterHeadersReceived(s.state, true)));
    }
  }

  lemma ResponseBlockHushed(c: Conn, a: Assembly, fields: seq<Field>, tooMany: bool)
    ensures Hushed(c, FinishResponseBlock(c, a, fields, tooMany))
  {
    hide PeerSetting, Starts, InboxOf, ConnError, StreamError, ResponseHead, ResponseTrailer;
    ConnErrorHushed(c, PROTOCOL_ERROR);
    StreamErrorHushed(c, a.id, PROTOCOL_ERROR);
    StreamErrorHushed(c, a.id, STREAM_CLOSED);
    if a.id in c.streams {
      HeadHushed(c, a, fields);
      TrailerHushed(c, a, fields);
    }
  }

  lemma HeadHushed(c: Conn, a: Assembly, fields: seq<Field>)
    requires a.id in c.streams
    ensures Hushed(c, ResponseHead(c, a, fields))
  {
    hide PeerSetting, Starts, InboxOf, StreamError, CompleteResponse, WellFormed, DeclaredLength, StatusOf;
    StreamErrorHushed(c, a.id, PROTOCOL_ERROR);
    var s := HeadStream(c.streams[a.id], fields);
    var c1 := Notify(SetStream(c, a.id, s), HeadersEvent, a.id, NO_ERROR, fields, [], a.end);
    ToldHushed(c, a.id, s, c1.log.last);
    var s1 := s.(state := AfterHeadersReceived(s.state, true));
    CompleteHushed(c1, a.id, s1);
  }

  lemma TrailerHushed(c: Conn, a: Assembly, fields: seq<Field>)
    requires a.id in c.streams
    ensures Hushed(c, ResponseTrailer(c, a, fields))
  {
    hide PeerSetting, Starts, InboxOf, StreamError, CompleteResponse, WellFormed, DeclaredLength;
    StreamErrorHushed(c, a.id, PROTOCOL_ERROR);
    var s := c.streams[a.id];
    var s1 := s.(state := AfterHeadersReceived(s.state, true));
    var c1 := Notify(SetStream(c, a.id, s1), TrailersEvent, a.id, NO_ERROR, fields, [], true);
    ToldHushed(c, a.id, s1, c1.log.last);
    CompleteHushed(c1, a.id, s1);
  }

  lemma BlockHushed(c: Conn, a: Assembly)
    ensures Hushed(c, FinishBlock(c, a))
  {
    hide PeerSetting, Starts, InboxOf, ConnError, FinishRequestBlock, FinishResponseBlock, DecodeBlock;
    var decoded := DecodeBlock(c.huffman, c.dec, a.bytes, false);
    var c1 := c.(dec := decoded.st);
    ConnErrorHushed(c1, COMPRESSION_ERROR);
    var tooMany := |decoded.fields| > MAX_HEADERS;
    var fields := if tooMany then decoded.fields[..MAX_HEADERS] else decoded.fields;
    RequestBlockHushed(c1, a, fields, tooMany);
    ResponseBlockHushed(c1, a, fields, tooMany);
  }

  lemma HeadersHushed(c: Conn, f: Frame)
    ensures Hushed(c, HandleHeaders(c, f)) && Hushed(c, HandleContinuation(c, f))
  {
    hide PeerSetting, Starts, InboxOf, ConnError, FinishBlock, FragmentOf;
    ConnErrorHushed(c, PROTOCOL_ERROR);
    ConnErrorHushed(c, ENHANCE_YOUR_CALM);
    var c0 := c.(assembly := NO_ASSEMBLY);
    var a1 := c.assembly.(bytes := c.assembly.bytes + f.payload);
    BlockHushed(c0, a1);
    match FragmentOf(f)
    case BadFragment(code) => ConnErrorHushed(c, code);
    case Fragment(bytes, selfDependent) =>
      var a := Assembly(f.id, Bit0(f.flags), selfDependent, bytes);
      BlockHushed(c, a);
  }

  lemma TopUpHushed(c: Conn, id: nat)
    ensures Hushed(c, ReplenishConn(c))
    ensures id in c.streams ==> Hushed(c, ReplenishStream(c, id))
  {
    hide PeerSetting, Starts, InboxOf, Emit;
    if c.recvWindow <= LOCAL_WINDOW / 2 {
      var c1 := c.(recvWindow := LOCAL_WINDOW);
      EmitHushed(c1, WindowFrame(0, LOCAL_WINDOW - c.recvWindow));
    }
    if id in c.streams && c.streams[id].recvWindow <= LOCAL_WINDOW / 2 {
      var s := c.streams[id];
      var c1 := SetStream(c, id, s.(recvWindow := LOCAL_WINDOW));
      EmitHushed(c1, WindowFrame(id, LOCAL_WINDOW - s.recvWindow));
    }
  }

  lemma TakeHushed(c: Conn, f: Frame, data: seq<byte>)
    requires f.id in c.streams
    ensures Hushed(c, TakeData(c, f, data))
  {
    hide PeerSetting, Starts, InboxOf, StreamError, CompleteRequest, CompleteResponse, ReplenishStream;
    StreamErrorHushed(c, f.id, ENHANCE_YOUR_CALM);
    StreamErrorHushed(c, f.id, PROTOCOL_ERROR);
    var s := c.streams[f.id];
    var s1 := s.(recvWindow := s.recvWindow - |f.payload|, received := s.received + |data|,
                 content := if c.server then s.content + data else s.content,
                 state := AfterDataReceived(s.state, Bit0(f.flags)));
    var c1 := SetStream(c, f.id, s1);
    var c2 := if c.server || data == [] then c1 else Notify(c1, DataEvent, f.id, NO_ERROR, [], data, Bit0(f.flags));
    if !c.server && data != [] {
      ToldHushed(c, f.id, s1, c2.log.last);
    }
    TopUpHushed(c2, f.id);
    CompleteHushed(c2, f.id, s1);
  }

  lemma DataHushed(c: Conn, f: Frame)
    ensures Hushed(c, HandleData(c, f))
  {
    hide PeerSetting, Starts, InboxOf, ConnError, StreamError, ReplenishConn, TakeData, DataBytes;
    ConnErrorHushed(c, PROTOCOL_ERROR);
    ConnErrorHushed(c, FLOW_CONTROL_ERROR);
    var c0 := c.(recvWindow := c.recvWindow - |f.payload|);
    var c1 := ReplenishConn(c0);
    TopUpHushed(c0, f.id);
    ConnErrorHushed(c1, FRAME_SIZE_ERROR);
    ConnErrorHushed(c1, PROTOCOL_ERROR);
    StreamErrorHushed(c1, f.id, STREAM_CLOSED);
    StreamErrorHushed(c1, f.id, FLOW_CONTROL_ERROR);
    if f.id in c1.streams && DataBytes(f).Some? {
      TakeHushed(c1, f, DataBytes(f).value);
    }
  }

  lemma DispatchHushed(c: Conn, f: Frame)
    requires f.kind != SETTINGS
    ensures Hushed(c, Dispatch(c, f))
  {
    hide PeerSetting, Starts, InboxOf, ConnError, HandleData, HandleHeaders, HandlePriority, HandleRst, HandleSettings,
         HandlePing, HandleGoaway, HandleWindowUpdate, HandleContinuation;
    ConnErrorHushed(c, PROTOCOL_ERROR);
    SmallHushed(c, f);
    DataHushed(c, f);
    HeadersHushed(c, f);
    GoawayHushed(c, f);
    WindowHushed(c, f);
  }
}
