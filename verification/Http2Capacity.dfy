/** A client never queues more than the buffer it reserves once. */
module Http2Capacity {
  import opened Bytes
  import opened HpackSpec
  import opened Http2Frames
  import opened Http2Fields
  import opened Http2Spec
  import opened Http2Invariant
  import opened Http2Errors
  import opened Http2Safety
  import opened Http2Reach
  import opened Http2History

  const CLIENT_CAPACITY: nat := MAX_BACKLOG + MAX_HEADER_BLOCK + 2 * LOCAL_MAX_FRAME

  /** At most n octets more are pending, and it is the same side of the connection. */
  ghost predicate Spends(c: Conn, c': Conn, n: nat) { c'.server == c.server && c'.backlog <= c.backlog + n }

  lemma {:induction false} ResetAllSpends(c: Conn, code: nat)
    ensures Spends(c, ResetAll(c, code), 0)
    decreases |c.openIds|
  {
    if !c.server && c.openIds != [] {
      var id := c.openIds[|c.openIds| - 1];
      ResetAllSpends(CloseStream(Notify(c, ResetEvent, id, code, [], [], false), id), code);
    }
  }

  lemma {:induction false} ResetAboveSpends(c: Conn, ids: seq<nat>, cutoff: nat)
    ensures Spends(c, ResetAbove(c, ids, cutoff), 0)
    decreases |ids|
  {
    if ids != [] {
      ResetAboveSpends(if ids[0] <= cutoff then c else CloseStream(Notify(c, ResetEvent, ids[0], NO_ERROR, [], [], false), ids[0]), ids[1..], cutoff);
    }
  }

  lemma ErrorSpends(c: Conn, code: nat)
    ensures Spends(c, ConnError(c, code), 17)
    ensures c.state.Dead? ==> ConnError(c, code) == c
  {
    hide ResetAll;
    if !c.state.Dead? {
      ResetAllSpends(SayGoaway(c, code, []).(error := code, state := Dead), code);
    }
  }

  /** A stream error is only ever added to a backlog that is within bounds, or ends the connection. */
  lemma StreamErrorSpends(c: Conn, id: nat, code: nat)
    ensures Spends(c, StreamError(c, id, code), 17)
    ensures c.state.Dead? && c.backlog > MAX_BACKLOG ==> StreamError(c, id, code).backlog == c.backlog
  {
    hide ConnError, RecentlyClosed, SwapRemove;
    ErrorSpends(c, ENHANCE_YOUR_CALM);
  }

  lemma {:induction false} BlockSpends(c: Conn, id: nat, block: seq<byte>, first: bool, end: bool)
    requires c.peer.maxFrame >= LOCAL_MAX_FRAME
    ensures Spends(c, EmitBlock(c, id, block, first, end), |block| + 9 + 9 * (|block| / LOCAL_MAX_FRAME))
    decreases |block|
  {
    if |block| > c.peer.maxFrame {
      var kind := if first then HEADERS else CONTINUATION;
      var rest := block[c.peer.maxFrame..];
      var c1 := Emit(c, Frame(kind, HeaderFlags(false, first && end), id, block[..c.peer.maxFrame]));
      BlockSpends(c1, id, rest, false, end);
      FewerFrames(|block|, |rest|);
    }
  }

  lemma FewerFrames(n: nat, m: nat)
    requires m + LOCAL_MAX_FRAME <= n
    ensures m / LOCAL_MAX_FRAME + 1 <= n / LOCAL_MAX_FRAME
  {
    var q := m / 16384;
    assert m >= q * 16384;
  }

  // ---- pumping ----

  /** A client's DATA waits for room. */
  ghost predicate Waits(c: Conn, c': Conn) {
    c'.server == c.server && (!c.server ==> c'.backlog <= c.backlog || c'.backlog <= MAX_BACKLOG)
  }

  lemma PumpStreamWaits(c: Conn, id: nat)
    ensures Waits(c, PumpStream(c, id).c)
  {
    hide SwapRemove;
  }

  lemma {:induction false} PumpPassWaits(c: Conn, ids: seq<nat>)
    ensures Waits(c, PumpPass(c, ids).c)
    decreases |ids|
  {
    hide PumpStream;
    if ids != [] {
      PumpStreamWaits(c, ids[0]);
      PumpPassWaits(PumpStream(c, ids[0]).c, ids[1..]);
    }
  }

  lemma {:induction false} PumpDataWaits(c: Conn, passes: nat)
    ensures Waits(c, PumpData(c, passes))
    decreases passes
  {
    hide PumpPass;
    if passes != 0 && c.sendWindow > 0 {
      PumpPassWaits(c, c.openIds);
      if PumpPass(c, c.openIds).progress {
        PumpDataWaits(PumpPass(c, c.openIds).c, passes - 1);
      }
    }
  }

  lemma PumpWaits(c: Conn)
    ensures Waits(c, Pump(c))
  {
    PumpDataWaits(c, MAX_PASSES);
  }

  // ---- the handlers ----

  lemma SettingSpends(c: Conn, id: nat, v: nat)
    ensures var c' := ApplySetting(c, id, v); Spends(c, c', 17) && (c'.state.Dead? || c'.backlog == c.backlog)
  {
    hide ConnError, Adjust;
    ErrorSpends(c, PROTOCOL_ERROR);
    ErrorSpends(c, FLOW_CONTROL_ERROR);
    var c1 := c.(streams := Adjust(c.streams, c.openIds, v - c.peer.window).streams);
    ErrorSpends(c1, FLOW_CONTROL_ERROR);
    ErrorKills(c, PROTOCOL_ERROR);
    ErrorKills(c, FLOW_CONTROL_ERROR);
    ErrorKills(c1, FLOW_CONTROL_ERROR);
  }

  lemma {:induction false} SettingsSpend(c: Conn, payload: seq<byte>)
    requires |payload| % 6 == 0
    ensures var c' := ApplySettings(c, payload); Spends(c, c', 17) && (c'.state.Dead? || c'.backlog == c.backlog)
    decreases |payload|
  {
    hide ApplySetting;
    if payload != [] {
      SettingSpends(c, GetU16(payload[..2]), GetU32(payload[2..6]));
      var c1 := ApplySetting(c, GetU16(payload[..2]), GetU32(payload[2..6]));
      if !c1.state.Dead? {
        SettingsSpend(c1, payload[6..]);
      }
    }
  }

  /** Room for what one frame can draw. */
  ghost predicate Within(c: Conn, c': Conn) {
    c'.server == c.server && (!c.server && c.backlog <= MAX_BACKLOG ==> c'.backlog <= MAX_BACKLOG + 64)
  }

  lemma SettingsWithin(c: Conn, f: Frame)
    ensures Within(c, HandleSettings(c, f))
  {
    hide ConnError, ApplySettings, Pump;
    ErrorSpends(c, PROTOCOL_ERROR);
    ErrorSpends(c, FRAME_SIZE_ERROR);
    if f.id == 0 && !Bit0(f.flags) && |f.payload| % 6 == 0 {
      var c1 := ApplySettings(c, f.payload);
      SettingsSpend(c, f.payload);
      ErrorSpends(c1, ENHANCE_YOUR_CALM);
      PumpWaits(Emit(c1, Frame(SETTINGS, 1, 0, [])));
    }
  }

  lemma SmallWithin(c: Conn, f: Frame)
    ensures Within(c, HandlePing(c, f)) && Within(c, HandlePriority(c, f)) && Within(c, HandleRst(c, f))
  {
    hide ConnError, StreamError, SwapRemove;
    ErrorSpends(c, PROTOCOL_ERROR);
    ErrorSpends(c, FRAME_SIZE_ERROR);
    ErrorSpends(c, ENHANCE_YOUR_CALM);
    StreamErrorSpends(c, f.id, FRAME_SIZE_ERROR);
    StreamErrorSpends(c, f.id, PROTOCOL_ERROR);
  }

  lemma GoawayWithin(c: Conn, f: Frame)
    ensures Within(c, HandleGoaway(c, f))
  {
    hide ConnError, ResetAll, ResetAbove;
    ErrorSpends(c, PROTOCOL_ERROR);
    ErrorSpends(c, FRAME_SIZE_ERROR);
    if f.id == 0 && |f.payload| >= 8 && !c.server {
      var c1 := if c.state.Active? then c.(state := GoawayReceived) else c;
      var cutoff := Min(c1.goawayIn, Low31(f.payload));
      ResetAllSpends(c1, GetU32(f.payload[4..8]));
      ResetAboveSpends(c1.(goawayIn := cutoff), c1.openIds, cutoff);
    }
  }

  lemma WindowWithin(c: Conn, f: Frame)
    ensures Within(c, HandleWindowUpdate(c, f))
  {
    hide ConnError, StreamError, Pump, Low31;
    ErrorSpends(c, PROTOCOL_ERROR);
    ErrorSpends(c, FRAME_SIZE_ERROR);
    ErrorSpends(c, FLOW_CONTROL_ERROR);
    StreamErrorSpends(c, f.id, PROTOCOL_ERROR);
    StreamErrorSpends(c, f.id, FLOW_CONTROL_ERROR);
    if |f.payload| == 4 {
      var inc := Low31(f.payload);
      PumpWaits(c.(sendWindow := c.sendWindow + inc));
      if f.id in c.streams {
        PumpWaits(SetStream(c, f.id, c.streams[f.id].(sendWindow := c.streams[f.id].sendWindow + inc)));
      }
    }
  }

  lemma ResponseSpends(c: Conn, id: nat, s: Stream)
    ensures Spends(c, CompleteResponse(c, id, s), 17)
  {
    hide StreamError, SwapRemove;
    StreamErrorSpends(c, id, PROTOCOL_ERROR);
  }

  lemma HeadSpends(c: Conn, a: Assembly, fields: seq<Field>)
    requires a.id in c.streams
    ensures Spends(c, ResponseHead(c, a, fields), 17) && Spends(c, ResponseTrailer(c, a, fields), 17)
  {
    hide StreamError, CompleteResponse, HeadOk, HeadStream, WellFormed, DeclaredLength;
    StreamErrorSpends(c, a.id, PROTOCOL_ERROR);
    var s := HeadStream(c.streams[a.id], fields);
    var c1 := Notify(SetStream(c, a.id, s), HeadersEvent, a.id, NO_ERROR, fields, [], a.end);
    ResponseSpends(c1, a.id, s.(state := AfterHeadersReceived(s.state, true)));
    var s1 := c.streams[a.id].(state := AfterHeadersReceived(c.streams[a.id].state, true));
    ResponseSpends(Notify(SetStream(c, a.id, s1), TrailersEvent, a.id, NO_ERROR, fields, [], true), a.id, s1);
  }

  lemma BlockWithin(c: Conn, a: Assembly)
    ensures Within(c, FinishBlock(c, a))
  {
    hide ConnError, StreamError, DecodeBlock, FinishRequestBlock, ResponseHead, ResponseTrailer;
    var c1 := c.(dec := DecodeBlock(c.huffman, c.dec, a.bytes, false).st);
    ErrorSpends(c1, COMPRESSION_ERROR);
    ErrorSpends(c1, PROTOCOL_ERROR);
    StreamErrorSpends(c1, a.id, STREAM_CLOSED);
    StreamErrorSpends(c1, a.id, PROTOCOL_ERROR);
    if a.id in c1.streams {
      forall fields ensures Spends(c1, ResponseHead(c1, a, fields), 17) && Spends(c1, ResponseTrailer(c1, a, fields), 17) {
        HeadSpends(c1, a, fields);
      }
    }
    ServerStays(c1, a);
  }

  /** A server's requests are none of a client's business. */
  lemma ServerStays(c: Conn, a: Assembly)
    ensures forall fields, tooMany :: FinishRequestBlock(c, a, fields, tooMany).server == c.server
  {
    forall fields, tooMany ensures FinishRequestBlock(c, a, fields, tooMany).server == c.server {
      RequestBlockSide(c, a, fields, tooMany);
    }
  }

  lemma RequestBlockSide(c: Conn, a: Assembly, fields: seq<Field>, tooMany: bool)
    ensures FinishRequestBlock(c, a, fields, tooMany).server == c.server
  {
    hide ConnError, StreamError, WellFormed, RecentlyClosed, DeclaredLength, IsHeadRequest;
    forall code ensures ConnError(c, code).server == c.server { ErrorSpends(c, code); }
    forall c1: Conn, code: nat ensures StreamError(c1, a.id, code).server == c1.server { StreamErrorSpends(c1, a.id, code); }
  }

  lemma HeadersWithin(c: Conn, f: Frame)
    ensures Within(c, HandleHeaders(c, f)) && Within(c, HandleContinuation(c, f))
  {
    hide ConnError, FinishBlock, FragmentOf;
    forall code ensures Spends(c, ConnError(c, code), 17) { ErrorSpends(c, code); }
    forall a ensures Within(c, FinishBlock(c, a)) { BlockWithin(c, a); }
    var c1 := c.(assembly := NO_ASSEMBLY);
    forall a ensures Within(c1, FinishBlock(c1, a)) { BlockWithin(c1, a); }
  }

  lemma DataWithin(c: Conn, f: Frame)
    ensures Within(c, HandleData(c, f))
  {
    hide ConnError, StreamError, TakeData, DataBytes;
    var c1 := ReplenishConn(c.(recvWindow := c.recvWindow - |f.payload|));
    assert Spends(c, c1, 13);
    forall code ensures Spends(c, ConnError(c, code), 17) && Spends(c1, ConnError(c1, code), 17) {
      ErrorSpends(c, code);
      ErrorSpends(c1, code);
    }
    StreamErrorSpends(c1, f.id, STREAM_CLOSED);
    StreamErrorSpends(c1, f.id, FLOW_CONTROL_ERROR);
    if f.id in c1.streams && DataBytes(f).Some? {
      TakeSpends(c1, f, DataBytes(f).value);
    }
  }

  lemma TakeSpends(c: Conn, f: Frame, data: seq<byte>)
    requires f.id in c.streams
    ensures Spends(c, TakeData(c, f, data), 17)
  {
    hide StreamError, CompleteResponse;
    StreamErrorSpends(c, f.id, PROTOCOL_ERROR);
    StreamErrorSpends(c, f.id, ENHANCE_YOUR_CALM);
    forall c1: Conn, s: Stream ensures Spends(c1, CompleteResponse(c1, f.id, s), 17) { ResponseSpends(c1, f.id, s); }
    forall c1: Conn ensures Spends(c1, StreamError(c1, f.id, PROTOCOL_ERROR), 17) { StreamErrorSpends(c1, f.id, PROTOCOL_ERROR); }
  }

  lemma FrameWithin(c: Conn, f: Frame)
    ensures Within(c, HandleFrame(c, f))
    ensures !c.server && c.backlog > MAX_BACKLOG ==> HandleFrame(c, f).state.Dead? && HandleFrame(c, f).backlog <= c.backlog + 17
  {
    hide ConnError, HandleData, HandleHeaders, HandlePriority, HandleRst, HandleSettings, HandlePing, HandleGoaway, HandleWindowUpdate, HandleContinuation;
    var c1 := Log(c, In(f));
    var c2 := c1.(firstSeen := true);
    ErrorSpends(c1, ENHANCE_YOUR_CALM);
    ErrorKills(c1, ENHANCE_YOUR_CALM);
    ErrorSpends(c2, PROTOCOL_ERROR);
    if f.kind == DATA { DataWithin(c2, f); }
    if f.kind == HEADERS || f.kind == CONTINUATION { HeadersWithin(c2, f); }
    if f.kind == PRIORITY || f.kind == RST_STREAM || f.kind == PING { SmallWithin(c2, f); }
    if f.kind == SETTINGS { SettingsWithin(c2, f); }
    if f.kind == GOAWAY { GoawayWithin(c2, f); }
    if f.kind == WINDOW_UPDATE { WindowWithin(c2, f); }
  }

  // ---- every run ----

  /** A living client has room for one more error; a dead one has already had it. */
  ghost predicate Roomy(c: Conn) {
    !c.server ==> c.backlog <= MAX_BACKLOG + MAX_RESPONSE_BLOCK + 64 + if c.state.Dead? then 17 else 0
  }

  lemma AskRoomy(c: Conn, fields: seq<Field>, body: seq<byte>)
    requires Roomy(c) && (!c.state.Dead? ==> c.peer.maxFrame >= LOCAL_MAX_FRAME)
    ensures Roomy(Keep(c, SendRequest(c, fields, body)))
  {
    hide EmitBlock, Pump, RequestOk, EncodeBlock, IsHeadRequest;
    if SendRequest(c, fields, body).Done? {
      var block := EncodeBlock(c.huffman, c.enc, fields);
      var id := if c.lastId == 0 then 1 else c.lastId + 2;
      var s := Stream(if body == [] then HalfClosedLocal else Open, c.peer.window, LOCAL_WINDOW,
                      body, 0, body != [], IsHeadRequest(fields), false, 0, 0, [], false, 0);
      var c1 := Log(c.(enc := c.enc.(pending := false), lastId := id,
                       streams := c.streams[id := s], openIds := c.openIds + [id]), Opened(id, fields));
      var c2 := Log(c1, Begin(id, fields, block, body));
      BlockSpends(c2, id, block, true, body == []);
      FewFrames(|block|);
      PumpWaits(EmitBlock(c2, id, block, true, body == []));
    }
  }

  lemma FewFrames(n: nat)
    requires n <= MAX_RESPONSE_BLOCK
    ensures n / LOCAL_MAX_FRAME <= 4
  {
  }

  lemma GoawayRoomy(c: Conn, code: nat, debug: seq<byte>)
    requires Roomy(c)
    ensures Roomy(Keep(c, SendGoaway(c, code, debug)))
  {
    hide ConnError, ResetAll;
    ErrorSpends(c, ENHANCE_YOUR_CALM);
    ErrorKills(c, ENHANCE_YOUR_CALM);
    var c1 := SayGoaway(c, code, debug[..Min(|debug|, LOCAL_MAX_FRAME - 8)]);
    ResetAllSpends(c1.(error := code, state := Dead), code);
  }

  lemma ResetRoomy(c: Conn, id: nat, code: nat)
    requires Roomy(c)
    ensures Roomy(Keep(c, SendRst(c, id, code)))
  {
    hide ConnError, RecentlyClosed, SwapRemove;
    ErrorSpends(c, ENHANCE_YOUR_CALM);
    ErrorKills(c, ENHANCE_YOUR_CALM);
  }

  lemma InvParts(c: Conn)
    requires Inv(c)
    ensures Table(c) && (!c.state.Dead? ==> c.peer.maxFrame >= LOCAL_MAX_FRAME)
  {
  }

  lemma StepRoomy(c: Conn, step: Step)
    requires Inv(c) && Enabled(c, step) && Roomy(c)
    ensures Roomy(Take(c, step))
  {
    hide Inv, Table, HandleFrame, ConnError, SendRequest, SendRst, SendGoaway, Pump, SendResponse;
    assert Table(c) && (!c.state.Dead? ==> c.peer.maxFrame >= LOCAL_MAX_FRAME) by { InvParts(c); }
    match step {
      case Prefaced =>
      case Arrive(f) => FrameWithin(c, f);
      case Violate(code) => ErrorSpends(c, code); ErrorKills(c, code);
      case Respond(id, status, headers, body) => RespondRoomy(c, id, status, headers, body);
      case Ask(fields, body) => AskRoomy(c, fields, body);
      case Reset(id, code) => ResetRoomy(c, id, code);
      case Goaway(code, debug) => GoawayRoomy(c, code, debug);
      case Drain(n) => DrainRoomy(c, n);
    }
  }

  lemma RespondRoomy(c: Conn, id: nat, status: nat, hs: seq<AppHeader>, body: seq<byte>)
    requires Table(c) && Roomy(c)
    ensures Roomy(Keep(c, SendResponse(c, id, status, hs, body)))
  {
    if !c.server {
      assert SendResponse(c, id, status, hs, body) == Refused;
    } else {
      hide Table, SendResponse;
      RespondRecords(c, id, status, hs, body);
    }
  }

  lemma DrainRoomy(c: Conn, n: nat)
    requires Roomy(c)
    ensures Roomy(Commit(c, n))
  {
    hide Pump;
    PumpWaits(c.(backlog := c.backlog - Min(n, c.backlog)));
  }

  lemma {:induction false} RunRoomy(c: Conn, steps: seq<Step>)
    requires Inv(c) && Legal(c, steps) && Roomy(c)
    ensures Roomy(After(c, steps))
    decreases |steps|
  {
    if steps != [] {
      StepInv(c, steps[0]);
      StepRoomy(c, steps[0]);
      hide Inv, Take, Enabled, Roomy;
      RunRoomy(Take(c, steps[0]), steps[1..]);
    }
  }

  /** The reserved buffer is never outgrown, however little the peer reads. */
  lemma ClientOutputFits(c: Conn)
    requires Reached(c) && !c.server
    ensures c.backlog <= CLIENT_CAPACITY
  {
    var server: bool, huffman: Huffman, maxBody: nat, steps: seq<Step> :|
      Legal(Init(server, huffman, maxBody), steps) && c == After(Init(server, huffman, maxBody), steps);
    InitInv(server, huffman, maxBody);
    assert Roomy(Init(server, huffman, maxBody));
    hide Inv, Init, Legal, After;
    RunRoomy(Init(server, huffman, maxBody), steps);
  }
}
